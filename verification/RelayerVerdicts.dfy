/** What decides about a relayer's request at each of its steps, in every interleaving (server/relayer.ts). */
module RelayerVerdicts {
  import opened Primitives
  import opened RateLimit
  import opened Budgets
  import opened Text
  import opened RelayerSpec
  import opened RelayerRuns
  import opened RelayerSafety
  import opened RelayerLimits

  // ---------------------------------------------------------------------------------------------------------------
  // Which limits apply.

  /** As the chain was read, the request defends its account: it cancels, or freezes what is not frozen or what still waits. */
  predicate InDefence(job: Job, reading: Option<Reading>) {
    && job.Relay?
    && (|| job.function_.CancelChange? || job.function_.CancelRecovery?
        || (job.function_.Restrict? && job.kind == 8 && reading.Some? && (reading.value.frozen ==> reading.value.waiting)))
  }

  /** As the chain was read, the account pays no fee for the request: a restriction past the day's cap that is no defence. */
  predicate PastTheCap(job: Job, reading: Option<Reading>) {
    job.Relay? && job.function_.Restrict? && reading.Some? && reading.value.pastCap && !InDefence(job, reading)
  }

  /** The chain did not say what has to be known: about a restriction, or whether the faucet can pay. */
  predicate Unreadable(job: Job, reading: Option<Reading>) {
    if job.Grant? then reading.None? || !reading.value.treasuryOk
    else job.Relay? && job.function_.Restrict? && reading.None?
  }

  /** Where a reading of the chain takes a request. */
  lemma ReadingsDecide(b: Budget, s: State, id: nat, reading: Option<Reading>)
    requires Enabled(s, Judged(id, reading))
    ensures var job, stage := s.clients[id].job, Step(b, s, Judged(id, reading)).clients[id].stage;
            if Unreadable(job, reading) then stage == Settled(Limits(false, false), Some(Reason.Unreadable))
            else stage == Simulating(Limits(InDefence(job, reading), PastTheCap(job, reading)))
  {
  }

  /** The request has been judged. */
  predicate IsJudged(stage: Stage) {
    !stage.Starting? && !stage.Judging?
  }

  lemma LimitsStay(b: Budget, s: State, e: Event, id: nat)
    requires Enabled(s, e) && id in s.clients && IsJudged(s.clients[id].stage)
    ensures var t := Step(b, s, e);
            && id in t.clients && IsJudged(t.clients[id].stage)
            && t.clients[id].job == s.clients[id].job && t.clients[id].stage.limits == s.clients[id].stage.limits
  {
    hide Rule, Allows;
  }

  /** Once judged by a reading, a request keeps the limits of that reading for good. */
  lemma {:induction false} JudgedForGood(b: Budget, funded: set<string>, states: seq<State>, events: seq<Event>, k: nat, n: nat,
                                         id: nat, reading: Option<Reading>)
    requires IsHistory(b, funded, states, events) && k < n < |states| && events[k] == Judged(id, reading)
    ensures id in states[k].clients && id in states[n].clients && IsJudged(states[n].clients[id].stage)
    ensures var job, limits := states[n].clients[id].job, states[n].clients[id].stage.limits;
            && job == states[k].clients[id].job
            && limits == if Unreadable(job, reading) then Limits(false, false) else Limits(InDefence(job, reading), PastTheCap(job, reading))
  {
    hide Step;
    assert HappensAt(b, states, events, n - 1);
    if n == k + 1 {
      ReadingsDecide(b, states[k], id, reading);
      StepMoves(b, states[k], events[k]);
    } else {
      JudgedForGood(b, funded, states, events, k, n - 1, id, reading);
      LimitsStay(b, states[n - 1], events[n - 1], id);
    }
    hide Enabled;
  }

  /** Among the first `n` events the chain was read for request `id`, with this answer. */
  ghost predicate WasRead(events: seq<Event>, n: nat, id: nat, reading: Option<Reading>)
    requires n <= |events|
  {
    exists k :: 0 <= k < n && events[k] == Judged(id, reading)
  }

  lemma JudgedNow(b: Budget, s: State, e: Event, id: nat)
    requires Enabled(s, e) && id in Step(b, s, e).clients && !Step(b, s, e).clients[id].job.Deploy?
    requires Step(b, s, e).clients[id].stage.Simulating? || PastSimulation(Step(b, s, e).clients[id].stage)
    ensures (e.Judged? && e.id == id)
            || (id in s.clients && s.clients[id].job == Step(b, s, e).clients[id].job
                && (s.clients[id].stage.Simulating? || PastSimulation(s.clients[id].stage)))
  {
    hide Rule, Allows;
  }

  predicate PastSimulation(stage: Stage) {
    stage.Queued? || stage.Estimating? || stage.Sending? || stage.Confirming?
    || ((stage.Settled? || stage.Done?) && (stage.failure.None? || stage.failure.value.SendFailed?))
  }

  /** A request other than a deployment is sent only after the chain was read for it. */
  lemma {:induction false} SentAfterReading(b: Budget, funded: set<string>, states: seq<State>, events: seq<Event>, n: nat, id: nat)
    requires IsHistory(b, funded, states, events) && n < |states| && id in states[n].clients && !states[n].clients[id].job.Deploy?
    requires states[n].clients[id].stage.Simulating? || PastSimulation(states[n].clients[id].stage)
    ensures exists reading :: WasRead(events, n, id, reading)
  {
    hide Step, Enabled;
    var k := n - 1;
    assert HappensAt(b, states, events, k);
    JudgedNow(b, states[k], events[k], id);
    if events[k].Judged? && events[k].id == id {
      assert WasRead(events, n, id, events[k].reading);
    } else {
      SentAfterReading(b, funded, states, events, k, id);
      var reading :| WasRead(events, k, id, reading);
      assert WasRead(events, n, id, reading);
    }
  }

  /** Somewhere in the first `n` events the chain was read for request `id` and the account was past its cap. */
  ghost predicate ReadPastTheCap(events: seq<Event>, n: nat, id: nat, job: Job)
    requires n <= |events|
  {
    exists reading :: WasRead(events, n, id, reading) && PastTheCap(job, reading)
  }

  ghost predicate ReadAsDefence(events: seq<Event>, n: nat, id: nat, job: Job)
    requires n <= |events|
  {
    exists reading :: WasRead(events, n, id, reading) && InDefence(job, reading)
  }

  lemma ReadingOf(b: Budget, funded: set<string>, states: seq<State>, events: seq<Event>, n: nat, id: nat, reading: Option<Reading>)
    requires IsHistory(b, funded, states, events) && n < |states| && id in states[n].clients && WasSent(states[n].clients[id].stage)
    requires WasRead(events, n, id, reading)
    ensures var job, limits := states[n].clients[id].job, states[n].clients[id].stage.limits;
            limits.defends == InDefence(job, reading) && limits.waived == PastTheCap(job, reading)
  {
    var k :| 0 <= k < n && events[k] == Judged(id, reading);
    JudgedForGood(b, funded, states, events, k, n, id, reading);
    if Unreadable(states[n].clients[id].job, reading) {
      UnreadableIsRefused(b, funded, states, events, k, n, id, reading);
    }
  }

  lemma {:induction false} UnreadableIsRefused(b: Budget, funded: set<string>, states: seq<State>, events: seq<Event>, k: nat, n: nat,
                                               id: nat, reading: Option<Reading>)
    requires IsHistory(b, funded, states, events) && k < n < |states| && events[k] == Judged(id, reading)
    requires id in states[k].clients && Unreadable(states[k].clients[id].job, reading)
    ensures id in states[n].clients
    ensures var stage := states[n].clients[id].stage;
            (stage.Settled? || stage.Done?) && stage.failure == Some(Reason.Unreadable)
  {
    hide Step;
    assert HappensAt(b, states, events, n - 1);
    if n == k + 1 {
      ReadingsDecide(b, states[k], id, reading);
      StepMoves(b, states[k], events[k]);
    } else {
      UnreadableIsRefused(b, funded, states, events, k, n - 1, id, reading);
      FailuresStay(b, states[n - 1], events[n - 1], id);
    }
    hide Enabled;
  }

  lemma FailuresStay(b: Budget, s: State, e: Event, id: nat)
    requires Enabled(s, e) && id in s.clients && (s.clients[id].stage.Settled? || s.clients[id].stage.Done?)
    requires s.clients[id].stage.failure.Some?
    ensures var t := Step(b, s, e);
            && id in t.clients && (t.clients[id].stage.Settled? || t.clients[id].stage.Done?)
            && t.clients[id].stage.failure == s.clients[id].stage.failure
  {
    hide Rule, Allows;
  }

  /**
   * Which limiters a sent transaction was charged to, by what it does and what was read about its account: an unpaid share
   * exactly for a restriction read past its cap, and the gas budget for all but what was read as a defence.
   */
  lemma ChargedByKind(b: Budget, funded: set<string>, states: seq<State>, events: seq<Event>, n: nat, a: nat)
    requires IsHistory(b, funded, states, events) && n < |states| && a < |states[n].log|
    ensures var tx := states[n].log[a];
            && (Unpaid in tx.paid <==> ReadPastTheCap(events, n, tx.id, tx.job))
            && (GasPerDay in tx.paid <==> !ReadAsDefence(events, n, tx.id, tx.job))
            && (PerVisitor in tx.paid <==> tx.job.Deploy?) && (NewAccounts in tx.paid <==> tx.job.Deploy?)
            && (GrantsPerDay in tx.paid <==> tx.job.Grant?)
  {
    var s := states[n];
    var tx := s.log[a];
    SentIsCharged(b, funded, states, events, n, a);
    hide IsHistory, WasRead;
    if !tx.job.Deploy? {
      SentAfterReading(b, funded, states, events, n, tx.id);
      var reading :| WasRead(events, n, tx.id, reading);
      ReadingOf(b, funded, states, events, n, tx.id, reading);
    }
    forall reading | WasRead(events, n, tx.id, reading) && !tx.job.Deploy?
      ensures tx.limits.defends == InDefence(tx.job, reading) && tx.limits.waived == PastTheCap(tx.job, reading)
    {
      ReadingOf(b, funded, states, events, n, tx.id, reading);
    }
  }

  lemma SentIsCharged(b: Budget, funded: set<string>, states: seq<State>, events: seq<Event>, n: nat, a: nat)
    requires IsHistory(b, funded, states, events) && n < |states| && a < |states[n].log|
    ensures EntryOk(states[n], states[n].log[a])
    ensures forall which: Limiter ::
              which in states[n].log[a].paid <==> which in Asks(states[n].log[a].job, states[n].log[a].limits)
  {
    var s := states[n];
    var tx := s.log[a];
    Reachable(b, funded, states, events, n);
    hide IsHistory;
    LogIsPaid(b, s, Unpaid);
    assert tx in s.log && Charged(s.books, tx);
    assert EntryOk(s, tx);
    hide Inv, EntryOk, Asks;
    forall which: Limiter ensures which in tx.paid <==> which in Asks(tx.job, tx.limits) {
      assert ChargedBy(s.books, tx, which);
    }
  }

  /** How many restrictions of `key` read past their account's cap were let through in the day that starts at `t`. */
  ghost function UnpaidWithin(events: seq<Event>, n: nat, log: seq<Tx>, key: string, t: nat): nat
    requires n <= |events|
  {
    if log == [] then 0
    else
      var tx := log[|log| - 1];
      UnpaidWithin(events, n, log[..|log| - 1], key, t)
      + (if ReadPastTheCap(events, n, tx.id, tx.job) && tx.job.Key() == key && t <= tx.at < t + 86_400_000 then 1 else 0)
  }

  lemma {:induction false} UnpaidIsCounted(events: seq<Event>, n: nat, log: seq<Tx>, key: string, t: nat)
    requires n <= |events| && forall tx <- log :: Unpaid in tx.paid <==> ReadPastTheCap(events, n, tx.id, tx.job)
    ensures UnpaidWithin(events, n, log, key, t) == SentWithin(log, Unpaid, key, t)
  {
    hide ReadPastTheCap;
    if log != [] {
      assert log[|log| - 1] in log;
      UnpaidIsCounted(events, n, log[..|log| - 1], key, t);
    }
  }

  /** In any day-long interval at most two shares of restrictions are sent for one account past its cap. */
  lemma UnpaidWithinTwoShares(b: Budget, funded: set<string>, states: seq<State>, events: seq<Event>, n: nat, key: string, t: nat)
    requires IsHistory(b, funded, states, events) && n < |states|
    ensures UnpaidWithin(events, n, states[n].log, key, t) <= 2 * b.unpaid
  {
    forall tx | tx in states[n].log ensures Unpaid in tx.paid <==> ReadPastTheCap(events, n, tx.id, tx.job) {
      var a :| 0 <= a < |states[n].log| && states[n].log[a] == tx;
      ChargedByKind(b, funded, states, events, n, a);
    }
    hide IsHistory, ReadPastTheCap;
    UnpaidIsCounted(events, n, states[n].log, key, t);
    WithinTwoLimits(b, funded, states, events, n, Unpaid, key, t);
  }

  // ---------------------------------------------------------------------------------------------------------------
  // Whether the limits let a transaction through.

  /** The limiter would let this transaction through. */
  predicate LetsThrough(b: Budget, books: Books, which: Limiter, job: Job, gas: nat, now: nat) {
    Allows(books.Calls(which), b.Limit(which), CallOf(which, job, gas, now))
  }

  /** Limiters are asked in this order: a visitor's before everyone's, and the gas budget last. */
  function Rank(which: Limiter): nat {
    if which.PerVisitor? then 0 else if which.GasPerDay? then 2 else 1
  }

  /**
   * A transaction is let through exactly when its gas is known and fits, and every limiter of its kind would let it through;
   * otherwise the first in order that would not is why.
   */
  lemma LimitsDecide(b: Budget, s: State, e: Event)
    requires Enabled(s, e) && e.Estimated?
    ensures var job, limits, failure := s.clients[e.id].job, s.clients[e.id].stage.limits, RulingOf(b, s, e).failure;
            if e.gas.None? then failure == Some(EstimateFailed)
            else if e.gas.value > 2_500_000 then failure == Some(TooMuchGas)
            else
              && (failure.None? || failure.value.Over?)
              && (failure.None? <==> forall which <- Asks(job, limits) :: LetsThrough(b, s.books, which, job, e.gas.value, e.now))
              && forall which :: failure == Some(Over(which)) <==>
                   && which in Asks(job, limits) && !LetsThrough(b, s.books, which, job, e.gas.value, e.now)
                   && forall other <- Asks(job, limits) :: Rank(other) < Rank(which) ==> LetsThrough(b, s.books, other, job, e.gas.value, e.now)
  {
    var job, limits := s.clients[e.id].job, s.clients[e.id].stage.limits;
    if e.gas.Some? && e.gas.value <= MAX_GAS {
      var demands := Demands(job, limits, e.gas.value);
      DemandsAsk(job, limits, e.gas.value, GasPerDay);
      TakeAllRefuses(b, s.books, demands, e.now, map[]);
      FirstInOrder(b, s.books, job, limits, e.gas.value, e.now);
      hide TakeAll, Demands, Asks, FirstRefused, LetsThrough, OncePerLimiter;
    }
  }

  lemma FirstInOrder(b: Budget, books: Books, job: Job, limits: Limits, gas: nat, now: nat)
    ensures var refused := FirstRefused(b, books, Demands(job, limits, gas), now);
            && (refused.None? <==> forall which <- Asks(job, limits) :: LetsThrough(b, books, which, job, gas, now))
            && forall which :: refused == Some(which) <==>
                 && which in Asks(job, limits) && !LetsThrough(b, books, which, job, gas, now)
                 && forall other <- Asks(job, limits) :: Rank(other) < Rank(which) ==> LetsThrough(b, books, other, job, gas, now)
  {
    var demands := Demands(job, limits, gas);
    Unrolled(b, books, demands, now, GasPerDay);
    hide FirstRefused, Reached, Allows;
    forall i | 0 <= i < |demands|
      ensures WouldGrant(b, books, demands[i], now) <==> LetsThrough(b, books, demands[i].limiter, job, gas, now)
    {
    }
    hide WouldGrant, LetsThrough;
    if |demands| == 3 {
      assert Asks(job, limits) == {demands[0].limiter, demands[1].limiter, demands[2].limiter};
    } else if |demands| == 2 {
      assert Asks(job, limits) == {demands[0].limiter, demands[1].limiter};
    } else if |demands| == 1 {
      assert Asks(job, limits) == {demands[0].limiter};
    } else {
      assert Asks(job, limits) == {};
    }
  }

  /** An account is being relayed for, or the faucet has paid it or is paying it. */
  ghost predicate IsBusy(s: State, key: string) {
    exists other :: other in s.clients && FlightOf(s.clients[other]) == Some(key)
  }

  ghost predicate IsPaid(s: State, funded: set<string>, key: string) {
    || key in funded || FinishedGrant(s, key)
    || exists other :: other in s.clients && GrantOf(s.clients[other]) == Some(key)
  }

  /** Where a step takes its request, in every history: at each await, by what was answered and by what others hold. */
  lemma StepsDecide(b: Budget, funded: set<string>, states: seq<State>, events: seq<Event>, n: nat)
    requires IsHistory(b, funded, states, events) && n < |events|
    ensures var id := events[n].id;
            var before, stage := ClientOf(states[n], id), ClientOf(states[n + 1], id).stage;
            match events[n]
            case Enter(_, job) => ClientOf(states[n + 1], id) == Client(job, Starting)
            case Started(_, ok) =>
              if !ok then stage == Done(Limits(false, false), Some(NotOurs))
              else if before.job.Deploy? then stage == Simulating(Limits(false, false))
              else if before.job.Relay? && IsBusy(states[n], before.job.Key()) then stage == Done(Limits(false, false), Some(Busy))
              else if before.job.Grant? && IsPaid(states[n], funded, before.job.Key()) then
                stage == Done(Limits(false, false), Some(AlreadyFunded))
              else stage == Judging
            case Simulated(_, ok) =>
              before.stage.Simulating?
              && stage == if ok then Queued(before.stage.limits) else Settled(before.stage.limits, Some(SimulationFailed))
            case Sent(_, ok) =>
              before.stage.Sending? && stage == Settled(before.stage.limits, if ok then None else Some(SendFailed))
            case Resumed(_) =>
              before.stage.Settled?
              && stage == if before.job.Relay? && before.stage.failure.None? then Confirming(before.stage.limits)
                          else Done(before.stage.limits, before.stage.failure)
            case Confirmed(_) => before.stage.Confirming? && stage == Done(before.stage.limits, None)
            case _ => true
  {
    assert HappensAt(b, states, events, n);
    match events[n]
    case Started(id, ok) =>
      if ok && states[n].clients[id].job.Relay? {
        BusyOnlyWhileHeld(b, funded, states, events, n, id);
      } else if ok && states[n].clients[id].job.Grant? {
        PaidOnlyOnce(b, funded, states, events, n, id);
      }
      hide IsHistory;
    case _ => hide IsHistory, Rule;
  }
}
