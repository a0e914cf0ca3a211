/** What the relayer promises, for every interleaving of its requests (server/relayer.ts). */
module RelayerSafety {
  import opened Primitives
  import opened RateLimit
  import opened Budgets
  import opened Reservations
  import opened Text
  import opened RelayerSpec
  import opened RelayerRuns
  import SendLock

  ghost predicate Inv(b: Budget, funded: set<string>, s: State) {
    Held(s) && LockOk(s) && LogOk(s) && FaucetOk(funded, s) && BooksOk(b, s) && ChargesOk(s)
  }

  lemma InvStep(b: Budget, funded: set<string>, s: State, e: Event)
    requires Inv(b, funded, s) && Enabled(s, e)
    ensures Inv(b, funded, Step(b, s, e))
  {
    var t := Step(b, s, e);
    StepLock(b, s, e);
    StepLog(b, s, e);
    StepFaucet(b, s, e);
    HeldStep(s, t, e.id);
    LockStep(s, t, e.id, MoveOf(s, t, e));
    LogStep(s, t, e.id);
    FaucetStep(funded, s, t, e.id);
    BooksStep(b, s, e);
    ChargesStep(b, s, e);
  }

  lemma {:induction false} Reachable(b: Budget, funded: set<string>, states: seq<State>, events: seq<Event>, n: nat)
    requires IsHistory(b, funded, states, events) && n < |states|
    ensures Inv(b, funded, states[n])
  {
    hide Step, Enabled, Inv, Start;
    if n > 0 {
      Reachable(b, funded, states, events, n - 1);
      assert HappensAt(b, states, events, n - 1);
      InvStep(b, funded, states[n - 1], events[n - 1]);
    } else {
      InvAtStart(b, funded);
    }
  }

  lemma InvAtStart(b: Budget, funded: set<string>)
    ensures Inv(b, funded, Start(funded))
  {
  }

  // ---------------------------------------------------------------------------------------------------------------
  // The faucet pays an account once.

  /** However it is written, no account is sent two grants, and none that was remembered as paid is sent another. */
  lemma GrantedOnce(b: Budget, funded: set<string>, states: seq<State>, events: seq<Event>, n: nat, i: nat, j: nat)
    requires IsHistory(b, funded, states, events) && n < |states| && i < |states[n].log| && j < |states[n].log|
    requires states[n].log[i].job.Grant? && states[n].log[j].job.Grant?
    requires Lower(states[n].log[i].job.account) == Lower(states[n].log[j].job.account)
    ensures i == j && Lower(states[n].log[i].job.account) !in funded
  {
    Reachable(b, funded, states, events, n);
    assert GrantOk(funded, states[n], states[n].log[i]);
  }

  /** A grant to `key` was sent, and its request is done. */
  ghost predicate FinishedGrant(s: State, key: string) {
    exists a :: 0 <= a < |s.log| && GrantsTo(s.log[a], key) && ClientOf(s, s.log[a].id).stage.Done?
  }

  lemma PaidIsFinished(funded: set<string>, s: State, key: string)
    requires Held(s) && LogOk(s) && FaucetOk(funded, s) && key in s.reserved.funded - funded
    ensures FinishedGrant(s, key)
  {
    assert WasGranted(s.log, key);
    var a :| 0 <= a < |s.log| && GrantsTo(s.log[a], key);
    assert EntryOk(s, s.log[a]);
    HeldIsTaken(s, s.log[a].id);
  }

  lemma FinishedIsPaid(funded: set<string>, s: State, key: string)
    requires FaucetOk(funded, s) && FinishedGrant(s, key)
    ensures key in s.reserved.funded
  {
    var a :| 0 <= a < |s.log| && GrantsTo(s.log[a], key) && ClientOf(s, s.log[a].id).stage.Done?;
    assert GrantOk(funded, s, s.log[a]);
  }

  /** Beyond the initial ones, the remembered accounts are those whose grant was sent and whose request is done. */
  lemma RememberedExactly(b: Budget, funded: set<string>, states: seq<State>, events: seq<Event>, n: nat, key: string)
    requires IsHistory(b, funded, states, events) && n < |states|
    ensures key in states[n].reserved.funded <==> key in funded || FinishedGrant(states[n], key)
  {
    Reachable(b, funded, states, events, n);
    if key in states[n].reserved.funded - funded {
      PaidIsFinished(funded, states[n], key);
    }
    if FinishedGrant(states[n], key) {
      FinishedIsPaid(funded, states[n], key);
    }
  }

  // ---------------------------------------------------------------------------------------------------------------
  // Accounts in flight.

  /** Two relayed requests for one account are never both past their check, and no step touches another's reservation. */
  lemma OneInFlight(b: Budget, funded: set<string>, states: seq<State>, events: seq<Event>, n: nat, i: nat, j: nat)
    requires IsHistory(b, funded, states, events) && n < |states| && i != j && i in states[n].clients && j in states[n].clients
    requires FlightOf(states[n].clients[i]).Some?
    ensures FlightOf(states[n].clients[i]) != FlightOf(states[n].clients[j])
    ensures forall e :: Enabled(states[n], e) && e.id == j ==>
              FlightOf(states[n].clients[i]).value in Step(b, states[n], e).reserved.inFlight
  {
    Reachable(b, funded, states, events, n);
    HeldOnce(states[n], i, j);
    forall e | Enabled(states[n], e) && e.id == j
      ensures FlightOf(states[n].clients[i]).value in Step(b, states[n], e).reserved.inFlight
    {
      StepMoves(b, states[n], e);
      HeldStep(states[n], Step(b, states[n], e), j);
      HeldIsTaken(Step(b, states[n], e), i);
    }
  }

  /** When a transaction is sent for an account, every earlier one sent for it is in a block or was waited for long enough. */
  lemma NoCopyInFlight(b: Budget, funded: set<string>, states: seq<State>, events: seq<Event>, n: nat, id: nat, a: nat)
    requires IsHistory(b, funded, states, events) && n < |states| && Enabled(states[n], Sent(id, true)) && a < |states[n].log|
    requires states[n].clients[id].job.Relay? && states[n].log[a].job.Relay?
    requires Lower(states[n].log[a].job.account) == Lower(states[n].clients[id].job.account)
    ensures ClientOf(states[n], states[n].log[a].id).stage.Done?
  {
    Reachable(b, funded, states, events, n);
    var s := states[n];
    assert EntryOk(s, s.log[a]);
    HeldOnce(s, id, s.log[a].id);
  }

  /** A relayed request is turned away as busy exactly while another request holds its account. */
  lemma BusyOnlyWhileHeld(b: Budget, funded: set<string>, states: seq<State>, events: seq<Event>, n: nat, id: nat)
    requires IsHistory(b, funded, states, events) && n < |states| && Enabled(states[n], Started(id, true))
    requires states[n].clients[id].job.Relay?
    ensures var s := states[n];
            Step(b, s, Started(id, true)).clients[id].stage == Done(NO_LIMITS, Some(Busy)) <==>
            exists other :: other in s.clients && FlightOf(s.clients[other]) == Some(s.clients[id].job.Key())
  {
    Reachable(b, funded, states, events, n);
    var s := states[n];
    var key := s.clients[id].job.Key();
    if key in s.reserved.inFlight {
      var other :| other in Flights(s.clients) && Flights(s.clients)[other] == Some(key);
      assert other in s.clients && FlightOf(s.clients[other]) == Some(key);
    }
    forall other | other in s.clients && FlightOf(s.clients[other]) == Some(key) ensures key in s.reserved.inFlight {
      HeldIsTaken(s, other);
    }
  }

  /** The faucet turns an account away exactly when it was paid before or another request is paying it. */
  lemma PaidOnlyOnce(b: Budget, funded: set<string>, states: seq<State>, events: seq<Event>, n: nat, id: nat)
    requires IsHistory(b, funded, states, events) && n < |states| && Enabled(states[n], Started(id, true))
    requires states[n].clients[id].job.Grant?
    ensures var s := states[n];
            var key := s.clients[id].job.Key();
            Step(b, s, Started(id, true)).clients[id].stage == Done(NO_LIMITS, Some(AlreadyFunded)) <==>
            || key in funded || FinishedGrant(s, key)
            || exists other :: other in s.clients && GrantOf(s.clients[other]) == Some(key)
  {
    RememberedExactly(b, funded, states, events, n, states[n].clients[id].job.Key());
    Reachable(b, funded, states, events, n);
    var s := states[n];
    var key := s.clients[id].job.Key();
    if key in s.reserved.granting {
      var other :| other in Grantees(s.clients) && Grantees(s.clients)[other] == Some(key);
      assert other in s.clients && GrantOf(s.clients[other]) == Some(key);
    }
    forall other | other in s.clients && GrantOf(s.clients[other]) == Some(key) ensures key in s.reserved.granting {
      HeldIsTaken(s, other);
    }
  }

  // ---------------------------------------------------------------------------------------------------------------
  // Sends run one at a time, in the order they were handed in.

  /** At most one request is between the start of its job at the lock and its settling. */
  lemma OneSendAtATime(b: Budget, funded: set<string>, states: seq<State>, events: seq<Event>, n: nat, i: nat, j: nat)
    requires IsHistory(b, funded, states, events) && n < |states| && i in states[n].clients && j in states[n].clients
    requires states[n].clients[i].stage.Estimating? || states[n].clients[i].stage.Sending?
    requires states[n].clients[j].stage.Estimating? || states[n].clients[j].stage.Sending?
    ensures i == j
  {
    Reachable(b, funded, states, events, n);
    OneSends(states[n], i);
    OneSends(states[n], j);
  }

  /** The requests whose jobs were handed in to the lock among the first `n` events, in order. */
  function HandedIn(events: seq<Event>, n: nat): seq<nat>
    requires n <= |events|
  {
    if n == 0 then []
    else HandedIn(events, n - 1) + (if events[n - 1].Simulated? && events[n - 1].ok then [events[n - 1].id] else [])
  }

  lemma OrderStep(b: Budget, s: State, e: Event)
    requires Enabled(s, e)
    ensures Step(b, s, e).lock.order == s.lock.order + (if e.Simulated? && e.ok then [e.id] else [])
  {
    hide Rule;
  }

  lemma {:induction false} OrderIsHandedIn(b: Budget, funded: set<string>, states: seq<State>, events: seq<Event>, n: nat)
    requires IsHistory(b, funded, states, events) && n < |states|
    ensures states[n].lock.order == HandedIn(events, n)
  {
    if n > 0 {
      OrderIsHandedIn(b, funded, states, events, n - 1);
      assert HappensAt(b, states, events, n - 1);
      OrderStep(b, states[n - 1], events[n - 1]);
    }
  }

  /** The log of what was sent follows that order. */
  lemma SentInOrder(b: Budget, funded: set<string>, states: seq<State>, events: seq<Event>, n: nat, i: nat, j: nat)
    requires IsHistory(b, funded, states, events) && n < |states| && i < j < |states[n].log|
    ensures var log, order := states[n].log, HandedIn(events, n);
            log[i].turn < log[j].turn < |order| && order[log[i].turn] == log[i].id && order[log[j].turn] == log[j].id
  {
    Reachable(b, funded, states, events, n);
    OrderIsHandedIn(b, funded, states, events, n);
    assert EntryOk(states[n], states[n].log[i]) && EntryOk(states[n], states[n].log[j]);
  }

  /** A job whose send failed, or that was refused its gas, holds nobody up: once its tail has settled the next may start. */
  lemma FailuresHoldNobodyUp(b: Budget, funded: set<string>, states: seq<State>, events: seq<Event>, n: nat, next: nat)
    requires IsHistory(b, funded, states, events) && n < |states| && next in states[n].clients && states[n].clients[next].stage.Queued?
    requires forall id <- states[n].clients :: !states[n].clients[id].stage.Estimating? && !states[n].clients[id].stage.Sending?
    requires forall id :: !SendLock.CanPass(states[n].lock, id)
    requires states[n].lock.settled < |states[n].lock.order| && states[n].lock.order[states[n].lock.settled] == next
    ensures Enabled(states[n], Began(next))
  {
    Reachable(b, funded, states, events, n);
    assert Matches(states[n].lock, next, states[n].clients[next].stage);
    SendLock.NothingBlocks(states[n].lock);
  }

  /** A request is answered with a transaction exactly when the log has one of its own. */
  lemma AnswersAreHonest(b: Budget, funded: set<string>, states: seq<State>, events: seq<Event>, n: nat, id: nat)
    requires IsHistory(b, funded, states, events) && n < |states| && id in states[n].clients
    ensures WasSent(states[n].clients[id].stage) <==> exists a :: 0 <= a < |states[n].log| && states[n].log[a].id == id
  {
    Reachable(b, funded, states, events, n);
    forall a | 0 <= a < |states[n].log| && states[n].log[a].id == id ensures WasSent(states[n].clients[id].stage) {
      assert EntryOk(states[n], states[n].log[a]);
    }
  }

  // ---------------------------------------------------------------------------------------------------------------
  // A budget never refuses what defends an account.

  /** The ways a request can fail that no budget has a part in. */
  predicate Unbudgeted(reason: Reason) {
    reason.SimulationFailed? || reason.EstimateFailed? || reason.TooMuchGas? || reason.SendFailed?
  }

  /** The request defends its account, and if it was refused, no budget refused it. */
  ghost predicate Defended(s: State, id: nat) {
    && id in s.clients && s.clients[id].job.Relay?
    && var stage := s.clients[id].stage;
    && !stage.Starting? && !stage.Judging?
    && stage.limits.defends
    && ((stage.Settled? || stage.Done?) && stage.failure.Some? ==> Unbudgeted(stage.failure.value))
  }

  lemma DefendedStep(b: Budget, s: State, e: Event, id: nat)
    requires Enabled(s, e) && Defended(s, id)
    ensures Defended(Step(b, s, e), id)
  {
  }

  lemma JudgedDefends(b: Budget, s: State, e: Event)
    requires Enabled(s, e) && e.Judged? && s.clients[e.id].job.Relay? && e.reading.Some?
    requires Defends(s.clients[e.id].job.function_, s.clients[e.id].job.kind, e.reading.value.frozen, e.reading.value.waiting)
    ensures Defended(Step(b, s, e), e.id)
  {
  }

  /**
   * A relayed request that was found to defend its account is, from then on, never refused for a budget: it fails only
   * when its simulation, its gas estimate or its send does, or when it needs too much gas.
   */
  lemma {:induction false} DefencesGetThrough(b: Budget, funded: set<string>, states: seq<State>, events: seq<Event>, k: nat, n: nat)
    requires IsHistory(b, funded, states, events) && k < n < |states| && events[k].Judged? && events[k].reading.Some?
    requires var e := events[k];
             && e.id in states[k].clients && states[k].clients[e.id].job.Relay?
             && Defends(states[k].clients[e.id].job.function_, states[k].clients[e.id].job.kind, e.reading.value.frozen, e.reading.value.waiting)
    ensures Defended(states[n], events[k].id)
  {
    assert HappensAt(b, states, events, n - 1);
    if n == k + 1 {
      JudgedDefends(b, states[k], events[k]);
    } else {
      DefencesGetThrough(b, funded, states, events, k, n - 1);
      DefendedStep(b, states[n - 1], events[n - 1], events[k].id);
    }
  }

  /** What the budgets have left decides nothing about a request that defends its account, and it leaves them as they were. */
  lemma DefencesIgnoreTheBudgets(b: Budget, other: Budget, s: State, books: Books, e: Event)
    requires Enabled(s, e) && e.Estimated? && books.clock <= e.now
    requires s.clients[e.id].job.Relay? && s.clients[e.id].stage.limits.defends
    ensures var t, u := Step(b, s, e), Step(other, s.(books := books), e);
            t == u.(books := s.books) && u.books == books
  {
  }
}
