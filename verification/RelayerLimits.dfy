/** What the relayer's limits promise, for every interleaving of its requests, and what uses them up (server/relayer.ts). */
module RelayerLimits {
  import opened Primitives
  import opened RateLimit
  import opened Budgets
  import opened Text
  import opened RelayerSpec
  import opened RelayerRuns
  import opened RelayerSafety

  // ---------------------------------------------------------------------------------------------------------------
  // The limits hold.

  ghost predicate AllCharged(books: Books, log: seq<Tx>) {
    forall tx <- log :: Charged(books, tx)
  }

  /** What `which` counted for `key` of what was sent, over the day that starts at `t`: transactions, or estimated gas. */
  function SentWithin(log: seq<Tx>, which: Limiter, key: string, t: nat): nat {
    if log == [] then 0
    else
      var tx := log[|log| - 1];
      SentWithin(log[..|log| - 1], which, key, t)
      + (if which in tx.paid && CountedFor(which, tx.job) == key && t <= tx.at < t + 86_400_000
         then Weight(which, tx.gas) else 0)
  }

  /** What `which` counted for `key` of what was sent, let through by its calls `i` up to `m`. */
  function SentBetween(log: seq<Tx>, which: Limiter, key: string, i: nat, m: nat): nat {
    if log == [] then 0
    else
      var tx := log[|log| - 1];
      SentBetween(log[..|log| - 1], which, key, i, m)
      + (if which in tx.paid && CountedFor(which, tx.job) == key && i <= tx.paid[which] < m then Weight(which, tx.gas) else 0)
  }

  lemma {:induction false} CallsInRange(books: Books, log: seq<Tx>, which: Limiter)
    requires AllCharged(books, log)
    ensures forall i :: 0 <= i < |CallsOf(which, log)| ==> CallsOf(which, log)[i] < |books.Calls(which)|
  {
    if log != [] {
      CallsInRange(books, log[..|log| - 1], which);
      assert Charged(books, log[|log| - 1]) && ChargedBy(books, log[|log| - 1], which);
    }
  }

  /** Counting over the log is counting over the calls that let it through. */
  lemma {:induction false} SentWithinIsSpent(books: Books, log: seq<Tx>, which: Limiter, key: string, t: nat)
    requires AllCharged(books, log)
    requires forall k :: 0 <= k < |CallsOf(which, log)| ==> CallsOf(which, log)[k] < |books.Calls(which)|
    ensures SentWithin(log, which, key, t) == SpentWithin(books.Calls(which), DAY_MS, key, t, CallsOf(which, log))
  {
    if log != [] {
      var tx, rest := log[|log| - 1], log[..|log| - 1];
      assert Charged(books, tx) && ChargedBy(books, tx, which);
      CallsInRange(books, rest, which);
      SentWithinIsSpent(books, rest, which, key, t);
      OneLess(which, log);
    }
    hide Charged, Asks;
  }

  lemma {:induction false} SentBetweenIsSpent(books: Books, log: seq<Tx>, which: Limiter, key: string, i: nat, m: nat)
    requires AllCharged(books, log)
    requires forall k :: 0 <= k < |CallsOf(which, log)| ==> CallsOf(which, log)[k] < |books.Calls(which)|
    ensures SentBetween(log, which, key, i, m) == SpentBetween(books.Calls(which), key, i, m, CallsOf(which, log))
  {
    if log != [] {
      var tx, rest := log[|log| - 1], log[..|log| - 1];
      assert Charged(books, tx) && ChargedBy(books, tx, which);
      CallsInRange(books, rest, which);
      SentBetweenIsSpent(books, rest, which, key, i, m);
      OneLess(which, log);
    }
    hide Charged, Asks;
  }

  lemma OneLess(which: Limiter, log: seq<Tx>)
    requires log != []
    ensures var tx, calls, rest := log[|log| - 1], CallsOf(which, log), CallsOf(which, log[..|log| - 1]);
            if which in tx.paid then calls != [] && calls[|calls| - 1] == tx.paid[which] && calls[..|calls| - 1] == rest else calls == rest
  {
  }

  /** The log alone respects the limiters, whatever is being sent now. */
  lemma LogIsPaid(b: Budget, s: State, which: Limiter)
    requires BooksOk(b, s) && ChargesOk(s)
    ensures AllCharged(s.books, s.log)
    ensures InOrder(s.books.Calls(which)) && ArePaid(s.books.Calls(which), b.Limit(which), DAY_MS, CallsOf(which, s.log))
  {
    assert LedgerAt(b, s, which);
    forall tx | tx in s.log ensures Charged(s.books, tx) {
      var i :| 0 <= i < |s.log| && s.log[i] == tx;
      assert LetThrough(s)[i] == tx;
    }
    hide Charged, LedgerAt;
    if InHand(s).Some? {
      CallsOfOneMore(which, s.log, InHand(s).value);
      assert CallsOf(which, s.log) <= CallsOf(which, LetThrough(s));
    } else {
      assert LetThrough(s) == s.log;
    }
  }

  /**
   * In any day-long interval, what was sent takes at most twice each limit: of a visitor's deployments, of all deployments,
   * of grants, of an account's unpaid restrictions, and of the gas estimated for everything that defends no account.
   */
  lemma WithinTwoLimits(b: Budget, funded: set<string>, states: seq<State>, events: seq<Event>, n: nat, which: Limiter, key: string, t: nat)
    requires IsHistory(b, funded, states, events) && n < |states|
    ensures AllCharged(states[n].books, states[n].log)
    ensures SentWithin(states[n].log, which, key, t) <= 2 * b.Limit(which)
  {
    Reachable(b, funded, states, events, n);
    var s := states[n];
    hide Inv, IsHistory;
    LogIsPaid(b, s, which);
    CallsInRange(s.books, s.log, which);
    SentWithinIsSpent(s.books, s.log, which, key, t);
    SpentAtMostTwiceTheLimit(s.books.Calls(which), b.Limit(which), DAY_MS, key, t, CallsOf(which, s.log));
  }

  /** Call `i` of `which` opens a window, and its key's next one opens no earlier than at call `m`. */
  ghost predicate IsWindow(b: Budget, books: Books, which: Limiter, i: nat, m: nat) {
    var calls := books.Calls(which);
    && i < m <= |calls| && Opens(calls, b.Limit(which), DAY_MS, i)
    && forall k :: i < k < m && calls[k].key == calls[i].key ==> !Opens(calls, b.Limit(which), DAY_MS, k)
  }

  /** In one window of a limiter, what was sent takes at most the limit. */
  lemma WithinTheLimit(b: Budget, funded: set<string>, states: seq<State>, events: seq<Event>, n: nat, which: Limiter, i: nat, m: nat)
    requires IsHistory(b, funded, states, events) && n < |states| && IsWindow(b, states[n].books, which, i, m)
    ensures AllCharged(states[n].books, states[n].log)
    ensures SentBetween(states[n].log, which, states[n].books.Calls(which)[i].key, i, m) <= b.Limit(which)
  {
    Reachable(b, funded, states, events, n);
    var s := states[n];
    var key := s.books.Calls(which)[i].key;
    hide Inv, IsHistory;
    LogIsPaid(b, s, which);
    CallsInRange(s.books, s.log, which);
    SentBetweenIsSpent(s.books, s.log, which, key, i, m);
    WindowSpendsAtMostTheLimit(s.books.Calls(which), b.Limit(which), DAY_MS, i, m, CallsOf(which, s.log));
  }

  // ---------------------------------------------------------------------------------------------------------------
  // The gas a transaction is sent with is not the gas that was counted for it.

  /** The gas limits of what was sent, without what defends an account, let through in the day that starts at `t`. */
  function GasLimitsWithin(log: seq<Tx>, t: nat): nat {
    if log == [] then 0
    else
      var tx := log[|log| - 1];
      GasLimitsWithin(log[..|log| - 1], t)
      + (if GasPerDay in tx.paid && t <= tx.at < t + 86_400_000 then tx.gasLimit else 0)
  }

  /** The gas limits of what was sent, let through by the gas budget's calls `i` up to `m`. */
  function GasLimitsBetween(log: seq<Tx>, i: nat, m: nat): nat {
    if log == [] then 0
    else
      var tx := log[|log| - 1];
      GasLimitsBetween(log[..|log| - 1], i, m) + (if GasPerDay in tx.paid && i <= tx.paid[GasPerDay] < m then tx.gasLimit else 0)
  }

  /** Gas limits are twelve tenths of what was counted, each rounded down. */
  lemma {:induction false} LimitsFollowEstimates(books: Books, log: seq<Tx>, t: nat, i: nat, m: nat)
    requires AllCharged(books, log)
    ensures var limits, counted := GasLimitsWithin(log, t), SentWithin(log, GasPerDay, ALL, t);
            12 * counted - 9 * |log| <= 10 * limits <= 12 * counted
    ensures var limits, counted := GasLimitsBetween(log, i, m), SentBetween(log, GasPerDay, ALL, i, m);
            12 * counted - 9 * |log| <= 10 * limits <= 12 * counted
  {
    if log != [] {
      var tx := log[|log| - 1];
      assert Charged(books, tx) && ChargedBy(books, tx, GasPerDay);
      LimitsFollowEstimates(books, log[..|log| - 1], t, i, m);
    }
  }

  /** In any day-long interval the relayer sends with at most 24 tenths of the gas budget beyond what defends accounts. */
  lemma GasLimitsWithinADay(b: Budget, funded: set<string>, states: seq<State>, events: seq<Event>, n: nat, t: nat)
    requires IsHistory(b, funded, states, events) && n < |states|
    ensures AllCharged(states[n].books, states[n].log)
    ensures 10 * GasLimitsWithin(states[n].log, t) <= 24 * b.gas
  {
    WithinTwoLimits(b, funded, states, events, n, GasPerDay, ALL, t);
    LimitsFollowEstimates(states[n].books, states[n].log, t, 0, 0);
  }

  /** All gas is counted under one key. */
  lemma {:induction false} GasIsOneKey(b: Budget, funded: set<string>, states: seq<State>, events: seq<Event>, n: nat, i: nat)
    requires IsHistory(b, funded, states, events) && n < |states| && i < |states[n].books.Calls(GasPerDay)|
    ensures states[n].books.Calls(GasPerDay)[i].key == ALL
  {
    hide Step, Enabled, Held, FaucetOk, LogOk, BooksOk, ChargesOk, LockOk;
    assert n > 0;
    Reachable(b, funded, states, events, n - 1);
    assert HappensAt(b, states, events, n - 1);
    if i < |states[n - 1].books.Calls(GasPerDay)| {
      GasIsOneKey(b, funded, states, events, n - 1, i);
    }
    GasCallsStep(b, states[n - 1], events[n - 1]);
  }

  lemma GasCallsStep(b: Budget, s: State, e: Event)
    requires Enabled(s, e) && LockOk(s)
    ensures var calls, more := s.books.Calls(GasPerDay), Step(b, s, e).books.Calls(GasPerDay);
            more == calls || (|more| == |calls| + 1 && more == calls + [more[|calls|]] && more[|calls|].key == ALL)
  {
    StepBooks(b, s, e);
    if e.Estimated? {
      RuleIs(b, s.books, e.id, s.lock.settled, s.clients[e.id].job, s.clients[e.id].stage.limits, e.gas, e.now, GasPerDay);
    }
    hide Step, Rule, LockOk;
  }

  /** In one window of the gas budget, it sends with at most 12 tenths of the budget. */
  lemma GasLimitsWithinAWindow(b: Budget, funded: set<string>, states: seq<State>, events: seq<Event>, n: nat, i: nat, m: nat)
    requires IsHistory(b, funded, states, events) && n < |states| && IsWindow(b, states[n].books, GasPerDay, i, m)
    ensures 10 * GasLimitsBetween(states[n].log, i, m) <= 12 * b.gas
  {
    WithinTheLimit(b, funded, states, events, n, GasPerDay, i, m);
    GasIsOneKey(b, funded, states, events, n, i);
    LimitsFollowEstimates(states[n].books, states[n].log, 0, i, m);
  }

  // ---------------------------------------------------------------------------------------------------------------
  // Limits used up by requests that send nothing.

  /** What a limiter has counted after these calls. */
  function Counters(calls: seq<Request>, limit: nat): map<string, Window> {
    After(calls, limit, DAY_MS, |calls|)
  }

  /** Nothing but a granted call changes what a limiter has counted. */
  lemma CountersOfOneMore(calls: seq<Request>, call: Request, limit: nat)
    requires call.weight > 0
    ensures Counters(calls + [call], limit) == Counters(calls, limit) <==> !Allows(calls, limit, call)
  {
    AfterPrefix(calls, call, limit, DAY_MS, |calls|);
  }

  /** Some of what `which` grants is used up between these states. */
  ghost predicate UsesUp(b: Budget, s: State, t: State, which: Limiter) {
    Counters(t.books.Calls(which), b.Limit(which)) != Counters(s.books.Calls(which), b.Limit(which))
  }

  /** The limiters that a transaction uses some of, by how it failed, if it did. */
  function UsedUp(job: Job, limits: Limits, failure: Option<Reason>): set<Limiter> {
    match failure
    case None | Some(SendFailed) => Asks(job, limits)
    case Some(Over(GasPerDay)) => Asks(job, limits) - {GasPerDay}
    case Some(Over(NewAccounts)) => {PerVisitor}
    case _ => {}
  }

  /** The limiters that a request has used some of so far. */
  function UsedBy(client: Client): set<Limiter> {
    match client.stage
    case Sending(limits, _) => UsedUp(client.job, limits, None)
    case Settled(limits, failure) => UsedUp(client.job, limits, failure)
    case Confirming(limits) => UsedUp(client.job, limits, None)
    case Done(limits, failure) => UsedUp(client.job, limits, failure)
    case _ => {}
  }

  /** The limiter would grant what is demanded of it. */
  predicate WouldGrant(b: Budget, books: Books, d: Demand, now: nat) {
    Allows(books.Calls(d.limiter), b.Limit(d.limiter), Request(d.key, d.weight, now))
  }

  /** The first of these limiters that would refuse. */
  function FirstRefused(b: Budget, books: Books, demands: seq<Demand>, now: nat): Option<Limiter> {
    if demands == [] then None
    else if WouldGrant(b, books, demands[0], now) then FirstRefused(b, books, demands[1..], now)
    else Some(demands[0].limiter)
  }

  lemma {:induction false} FirstRefusedAfter(b: Budget, books: Books, demands: seq<Demand>, now: nat, other: Limiter, call: Request)
    requires forall d <- demands :: d.limiter != other
    ensures FirstRefused(b, books.Called(other, call), demands, now) == FirstRefused(b, books, demands, now)
  {
    if demands != [] {
      assert demands[0] in demands;
      FirstRefusedAfter(b, books, demands[1..], now, other, call);
    }
  }

  lemma {:induction false} TakeAllRefuses(b: Budget, books: Books, demands: seq<Demand>, now: nat, paid: map<Limiter, nat>)
    requires OncePerLimiter(demands)
    ensures TakeAll(b, books, demands, now, paid).refused == FirstRefused(b, books, demands, now)
    decreases |demands|
  {
    if demands != [] && WouldGrant(b, books, demands[0], now) {
      var d := demands[0];
      var call := Request(d.key, d.weight, now);
      FirstIsOnce(demands);
      TakeAllRefuses(b, books.Called(d.limiter, call), demands[1..], now, paid[d.limiter := |books.Calls(d.limiter)|]);
      FirstRefusedAfter(b, books, demands[1..], now, d.limiter, call);
    }
    hide Allows, OncePerLimiter;
  }

  lemma UnrolledOnce(b: Budget, books: Books, demands: seq<Demand>, now: nat, which: Limiter)
    requires demands != []
    ensures FirstRefused(b, books, demands, now)
            == if WouldGrant(b, books, demands[0], now) then FirstRefused(b, books, demands[1..], now) else Some(demands[0].limiter)
    ensures Reached(b, books, demands, now, which) <==>
            demands[0].limiter == which || (WouldGrant(b, books, demands[0], now) && Reached(b, books, demands[1..], now, which))
    ensures !Reached(b, books, [], now, which) && FirstRefused(b, books, [], now) == None
  {
  }

  /** Of at most three demands, which limiters are reached and which is the first to refuse. */
  lemma Unrolled(b: Budget, books: Books, demands: seq<Demand>, now: nat, which: Limiter)
    requires |demands| <= 3
    ensures FirstRefused(b, books, demands, now)
            == if |demands| > 0 && !WouldGrant(b, books, demands[0], now) then Some(demands[0].limiter)
               else if |demands| > 1 && !WouldGrant(b, books, demands[1], now) then Some(demands[1].limiter)
               else if |demands| > 2 && !WouldGrant(b, books, demands[2], now) then Some(demands[2].limiter)
               else None
    ensures Reached(b, books, demands, now, which) <==>
            || (|demands| > 0 && demands[0].limiter == which)
            || (|demands| > 1 && WouldGrant(b, books, demands[0], now) && demands[1].limiter == which)
            || (|demands| > 2 && WouldGrant(b, books, demands[0], now) && WouldGrant(b, books, demands[1], now) && demands[2].limiter == which)
  {
    hide Allows, WouldGrant;
    if demands != [] {
      var rest := demands[1..];
      UnrolledOnce(b, books, demands, now, which);
      if rest != [] {
        var last := rest[1..];
        UnrolledOnce(b, books, rest, now, which);
        if last != [] {
          assert last[1..] == [];
          UnrolledOnce(b, books, last, now, which);
        }
      }
    }
  }

  /** Asking one limiter after the other uses up some of exactly those that were asked and did not refuse. */
  lemma AskingUses(b: Budget, books: Books, job: Job, limits: Limits, gas: nat, now: nat, which: Limiter)
    ensures var demands := Demands(job, limits, gas);
            var refused := FirstRefused(b, books, demands, now);
            which in UsedUp(job, limits, if refused.Some? then Some(Over(refused.value)) else None) <==>
            && Reached(b, books, demands, now, which) && which in Asks(job, limits)
            && WouldGrant(b, books, Demand(which, CountedFor(which, job), Weight(which, gas)), now)
  {
    Unrolled(b, books, Demands(job, limits, gas), now, which);
    hide WouldGrant, FirstRefused, Reached;
  }

  /** An event that decides about a transaction uses up some of exactly the limiters that its outcome says; no other uses up any. */
  lemma StepUses(b: Budget, s: State, e: Event, which: Limiter)
    requires Enabled(s, e) && LockOk(s)
    ensures UsesUp(b, s, Step(b, s, e), which) <==>
            e.Estimated? && which in UsedUp(s.clients[e.id].job, s.clients[e.id].stage.limits, RulingOf(b, s, e).failure)
  {
    StepBooks(b, s, e);
    if e.Estimated? {
      var client := s.clients[e.id];
      RuleUses(b, s.books, e.id, s.lock.settled, client.job, client.stage.limits, e.gas, e.now, which);
    }
    hide Step, Rule, Counters, UsedUp;
  }

  /** Asking for the limits uses up some of exactly those that its outcome says. */
  lemma TakingUses(b: Budget, books: Books, job: Job, limits: Limits, gas: Gas, now: nat, which: Limiter)
    requires books.clock <= now
    ensures var taken := TakeAll(b, books, Demands(job, limits, gas), now, map[]);
            Counters(taken.books.Calls(which), b.Limit(which)) != Counters(books.Calls(which), b.Limit(which)) <==>
            which in UsedUp(job, limits, if taken.refused.Some? then Some(Over(taken.refused.value)) else None)
  {
    var demands := Demands(job, limits, gas);
    var taken := TakeAll(b, books, demands, now, map[]);
    DemandsAsk(job, limits, gas, which);
    TakeAllAsks(b, books, demands, now, map[], which);
    TakeAllRefuses(b, books, demands, now, map[]);
    AskingUses(b, books, job, limits, gas, now, which);
    CountersOfOneMore(books.Calls(which), CallOf(which, job, gas, now), b.Limit(which));
    hide Demands, TakeAll, OncePerLimiter, Asks, AskedOf, Allows, Reached, FirstRefused, Counters, UsedUp;
  }

  lemma RuleUses(b: Budget, books: Books, id: nat, turn: nat, job: Job, limits: Limits, gas: Option<Gas>, now: nat, which: Limiter)
    requires books.clock <= now
    ensures var ruling := Rule(b, books, id, turn, job, limits, gas, now);
            Counters(ruling.books.Calls(which), b.Limit(which)) != Counters(books.Calls(which), b.Limit(which)) <==>
            which in UsedUp(job, limits, ruling.failure)
  {
    if gas.Some? && gas.value <= MAX_GAS {
      TakingUses(b, books, job, limits, gas.value, now, which);
    }
    hide Demands, TakeAll, Asks, Counters;
  }

  /** What a request has used up only changes when its gas is known. */
  lemma UsedByStep(b: Budget, s: State, e: Event)
    requires Enabled(s, e) && LockOk(s)
    ensures var before := if e.id in s.clients then UsedBy(s.clients[e.id]) else {};
            UsedBy(Step(b, s, e).clients[e.id])
            == if e.Estimated? then UsedUp(s.clients[e.id].job, s.clients[e.id].stage.limits, RulingOf(b, s, e).failure) else before
    ensures e.Estimated? ==> UsedBy(s.clients[e.id]) == {}
  {
    hide Rule, LockOk;
  }

  predicate UsedNow(s: State, id: nat, which: Limiter) {
    id in s.clients && which in UsedBy(s.clients[id])
  }

  lemma UsedByGrows(b: Budget, s: State, e: Event, id: nat, which: Limiter)
    requires Enabled(s, e) && LockOk(s)
    ensures UsedNow(Step(b, s, e), id, which) <==> UsedNow(s, id, which) || (e.id == id && UsesUp(b, s, Step(b, s, e), which))
  {
    StepMoves(b, s, e);
    hide Step, UsesUp, UsedBy, UsedUp, RulingOf, LockOk, Held;
    StepUses(b, s, e, which);
    UsedByStep(b, s, e);
    assert id != e.id && id in s.clients ==> Step(b, s, e).clients[id] == s.clients[id];
  }

  /** Event `k` is one of request `id` and uses up some of `which`. */
  ghost predicate UsesUpAt(b: Budget, states: seq<State>, events: seq<Event>, k: nat, id: nat, which: Limiter)
    requires k < |events| && |states| == |events| + 1
  {
    events[k].id == id && UsesUp(b, states[k], states[k + 1], which)
  }

  /**
   * What a request used up, whatever became of it: all its limiters if it was let through, though its send may have failed;
   * those asked before the one that refused; and none if it never came so far.
   */
  lemma {:induction false} UsedUpExactly(b: Budget, funded: set<string>, states: seq<State>, events: seq<Event>, n: nat, id: nat, which: Limiter)
    requires IsHistory(b, funded, states, events) && n < |states|
    ensures (exists k :: 0 <= k < n && UsesUpAt(b, states, events, k, id, which)) <==> UsedNow(states[n], id, which)
  {
    hide Step, Enabled, UsedBy, UsesUp, Held, FaucetOk, LogOk, BooksOk, ChargesOk, LockOk;
    if n > 0 {
      UsedUpExactly(b, funded, states, events, n - 1, id, which);
      Reachable(b, funded, states, events, n - 1);
      assert HappensAt(b, states, events, n - 1);
      UsedByGrows(b, states[n - 1], events[n - 1], id, which);
      assert UsedNow(states[n], id, which) <==> UsedNow(states[n - 1], id, which) || UsesUpAt(b, states, events, n - 1, id, which);
    }
  }

  /**
   * A decision takes something for a transaction that will not be sent exactly when its first limiter would grant and
   * a later one would not.
   */
  lemma RefusedForNothing(b: Budget, s: State, e: Event)
    requires Enabled(s, e) && LockOk(s) && e.Estimated? && e.gas.Some? && e.gas.value <= MAX_GAS
    ensures var demands := Demands(s.clients[e.id].job, s.clients[e.id].stage.limits, e.gas.value);
            (RulingOf(b, s, e).failure.Some? && exists which: Limiter :: UsesUp(b, s, Step(b, s, e), which)) <==>
            && demands != [] && WouldGrant(b, s.books, demands[0], e.now)
            && exists i :: 0 < i < |demands| && !WouldGrant(b, s.books, demands[i], e.now)
  {
    var client := s.clients[e.id];
    var demands := Demands(client.job, client.stage.limits, e.gas.value);
    DemandsAsk(client.job, client.stage.limits, e.gas.value, GasPerDay);
    TakeAllRefuses(b, s.books, demands, e.now, map[]);
    RefusedLate(b, s.books, client.job, client.stage.limits, e.gas.value, e.now);
    hide Step, UsesUp, FirstRefused, WouldGrant, TakeAll, LockOk, Demands, UsedUp, Asks, OncePerLimiter;
    forall which: Limiter
      ensures UsesUp(b, s, Step(b, s, e), which) <==> which in UsedUp(client.job, client.stage.limits, RulingOf(b, s, e).failure)
    {
      StepUses(b, s, e, which);
      hide *;
    }
    hide Enabled;
  }

  lemma RefusedLate(b: Budget, books: Books, job: Job, limits: Limits, gas: nat, now: nat)
    ensures var demands := Demands(job, limits, gas);
            var refused := FirstRefused(b, books, demands, now);
            (refused.Some? && exists which: Limiter :: which in UsedUp(job, limits, Some(Over(refused.value)))) <==>
            && demands != [] && WouldGrant(b, books, demands[0], now)
            && exists i :: 0 < i < |demands| && !WouldGrant(b, books, demands[i], now)
  {
    var demands := Demands(job, limits, gas);
    Unrolled(b, books, demands, now, GasPerDay);
    hide FirstRefused, WouldGrant;
    if |demands| > 1 && WouldGrant(b, books, demands[0], now) && !(forall i :: 0 < i < |demands| ==> WouldGrant(b, books, demands[i], now)) {
      assert demands[0].limiter in UsedUp(job, limits, Some(Over(FirstRefused(b, books, demands, now).value)));
    }
  }

  // ---------------------------------------------------------------------------------------------------------------
  // Two histories in which the promises fail.

  /** The only request of a relayer that has just started, at one stage of its way. */
  ghost predicate Alone(s: State, funded: set<string>, job: Job, stage: Stage) {
    && s.clients == map[0 := Client(job, stage)]
    && s.books == Books(map[], 0) && s.log == []
    && s.reserved.funded == funded
  }

  /** A relayer's first request gets to its gas estimate whatever it is, if the account was not paid before. */
  lemma UpToTheEstimate(b: Budget, funded: set<string>, job: Job, reading: Option<Reading>)
    returns (states: seq<State>, events: seq<Event>)
    requires !job.Deploy? && job.Key() !in funded && JudgedStage(job, reading).Simulating?
    ensures |events| == 5 && IsHistory(b, funded, states, events)
    ensures Alone(states[5], funded, job, Estimating(JudgedStage(job, reading).limits))
  {
    var limits := JudgedStage(job, reading).limits;
    states, events := [Start(funded)], [];
    states, events := OneMore(b, funded, states, events, Enter(0, job));
    states, events := OneMore(b, funded, states, events, Started(0, true));
    states, events := OneMore(b, funded, states, events, Judged(0, reading));
    states, events := OneMore(b, funded, states, events, Simulated(0, true));
    states, events := OneMore(b, funded, states, events, Began(0));
  }

  lemma OneMore(b: Budget, funded: set<string>, states: seq<State>, events: seq<Event>, e: Event)
    returns (states': seq<State>, events': seq<Event>)
    requires IsHistory(b, funded, states, events) && Enabled(states[|events|], e)
    ensures IsHistory(b, funded, states', events') && |events'| == |events| + 1
    ensures states'[|events'|] == Step(b, states[|events|], e)
  {
    hide Step, Enabled;
    states', events' := states + [Step(b, states[|events|], e)], events + [e];
    forall i | 0 <= i < |events'| ensures HappensAt(b, states', events', i) {
      if i < |events| {
        assert HappensAt(b, states, events, i);
      }
    }
  }

  /** The first call a limiter ever gets is granted unless it asks for more than there is. */
  lemma FirstCall(limit: nat, call: Request)
    ensures Allows([], limit, call) <==> call.weight <= limit
  {
  }

  lemma GrantRefusedItsGas(b: Budget, gas: nat, later: nat)
    requires b.grants == 1 && b.gas < gas && later < DAY_MS
    ensures var taken := TakeAll(b, Books(map[], 0), Demands(Grant(""), NO_LIMITS, gas), 0, map[]);
            taken.refused == Some(GasPerDay) && !WouldGrant(b, taken.books, Demand(GrantsPerDay, ALL, 1), later)
  {
    var start := Books(map[], 0);
    var grant := Request(ALL, 1, 0);
    FirstCall(b.grants, grant);
    var next := start.Called(GrantsPerDay, grant);
    FirstCall(b.gas, Request(ALL, gas, 0));
    var rest := [Demand(GasPerDay, ALL, gas)];
    assert Demands(Grant(""), NO_LIMITS, gas)[1..] == rest;
    var taken := TakeAll(b, next, rest, 0, map[GrantsPerDay := 0]);
    assert taken.books.Calls(GrantsPerDay) == [grant];
    assert After([grant], 1, DAY_MS, 1) == Counted(After([grant], 1, DAY_MS, 0), 1, DAY_MS, ALL, 1, 0) == map[ALL := Window(0, 1)];
  }

  /**
   * With one grant a day, a grant refused for its gas leaves nobody a grant for the rest of the day, though none was sent.
   */
  lemma NoGrantLeft(b: Budget, account: string, gas: Gas, later: nat) returns (states: seq<State>, events: seq<Event>)
    requires b.grants == 1 && b.gas < gas <= MAX_GAS && later < DAY_MS
    ensures |events| == 6 && IsHistory(b, {}, states, events)
    ensures states[6].log == [] && ClientOf(states[6], 0).stage == Settled(NO_LIMITS, Some(Over(GasPerDay)))
    ensures !WouldGrant(b, states[6].books, Demand(GrantsPerDay, ALL, 1), later)
  {
    var reading := Some(Reading(false, false, false, true));
    states, events := UpToTheEstimate(b, {}, Grant(account), reading);
    GrantRefusedItsGas(b, gas, later);
    assert Demands(Grant(account), NO_LIMITS, gas) == Demands(Grant(""), NO_LIMITS, gas);
    hide TakeAll, WouldGrant, Demands;
    states, events := OneMore(b, {}, states, events, Estimated(0, Some(gas), 0));
  }

  lemma WholeBudgetTaken(b: Budget, job: Job)
    requires job.Relay? && b.gas == MAX_GAS
    ensures TakeAll(b, Books(map[], 0), Demands(job, NO_LIMITS, MAX_GAS), 0, map[])
            == Taken(None, Books(map[], 0).Called(GasPerDay, Request(ALL, MAX_GAS, 0)), map[GasPerDay := 0])
  {
    FirstCall(b.gas, Request(ALL, MAX_GAS, 0));
    assert Demands(job, NO_LIMITS, MAX_GAS)[1..] == [];
  }

  /** A transaction that takes the whole gas budget is sent with a fifth more than it. */
  lemma SentBeyondTheBudget(b: Budget, account: string) returns (states: seq<State>, events: seq<Event>)
    requires b.gas == MAX_GAS
    ensures |events| == 7 && IsHistory(b, {}, states, events)
    ensures |states[7].log| == 1 && GasPerDay in states[7].log[0].paid && states[7].log[0].paid[GasPerDay] == 0
    ensures 10 * GasLimitsBetween(states[7].log, 0, 1) == 12 * b.gas
  {
    var job := Relay(account, Pay, 0);
    states, events := UpToTheEstimate(b, {}, job, None);
    WholeBudgetTaken(b, job);
    hide TakeAll, Demands;
    var turn := states[5].lock.settled;
    states, events := OneMore(b, {}, states, events, Estimated(0, Some(MAX_GAS), 0));
    var tx := Tx(0, job, NO_LIMITS, turn, 0, MAX_GAS, GasLimit(MAX_GAS), map[GasPerDay := 0]);
    assert ClientOf(states[6], 0).stage == Sending(NO_LIMITS, tx);
    states, events := OneMore(b, {}, states, events, Sent(0, true));
    assert states[7].log == [tx] && states[7].log[..0] == [];
  }
}
