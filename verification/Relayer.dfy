/**
 * The relayer itself (server/relayer.ts): its sets, its send lock and the limiters that transactions pass on their way out,
 * with one method for each piece of a request between awaits.
 */
module Relayer {
  import opened Primitives
  import opened Text
  import RateLimit
  import Budgets
  import SendLock
  import RelayerRuns
  import opened RelayerSpec

  class Relayer {
    const budget: Budget
    const sendLock: SendLock.Mutex
    const accountsPerIp: RateLimit.RateLimiter
    const newAccountsPerDay: RateLimit.RateLimiter
    const faucetGrantsPerDay: RateLimit.RateLimiter
    const unpaidSafetyActions: RateLimit.RateLimiter
    const gasPerDay: RateLimit.RateLimiter
    var funded: set<string>
    var granting: set<string>
    var inFlight: set<string>
    /** How far each request is, what was sent, and the calls of the limiters. */
    ghost var clients: map<nat, Client>
    ghost var log: seq<Tx>
    ghost var books: Books

    ghost function Abs(): State
      reads this, sendLock
    {
      State(Reserved(funded, granting, inFlight), sendLock.Abs(), books, clients, log)
    }

    function LimiterOf(which: Limiter): RateLimit.RateLimiter {
      match which
      case PerVisitor => accountsPerIp
      case NewAccounts => newAccountsPerDay
      case GrantsPerDay => faucetGrantsPerDay
      case Unpaid => unpaidSafetyActions
      case GasPerDay => gasPerDay
    }

    /** A limiter's counters are those of one that never forgets, after its calls. */
    ghost predicate Counts(which: Limiter)
      reads this`books, LimiterOf(which)
    {
      var limiter, calls := LimiterOf(which), books.Calls(which);
      && limiter.Valid()
      && limiter.limit == budget.Limit(which) && limiter.windowMs == DAY_MS
      && limiter.full == RateLimit.After(calls, budget.Limit(which), DAY_MS, |calls|)
      && limiter.last <= books.clock
    }

    ghost predicate Apart() {
      forall v, w :: LimiterOf(v) == LimiterOf(w) ==> v == w
    }

    ghost predicate Counting()
      reads this`books, LimiterOf(PerVisitor), LimiterOf(NewAccounts), LimiterOf(GrantsPerDay), LimiterOf(Unpaid), LimiterOf(GasPerDay)
    {
      && Apart()
      && Counts(PerVisitor) && Counts(NewAccounts) && Counts(GrantsPerDay) && Counts(Unpaid) && Counts(GasPerDay)
    }

    ghost predicate Valid()
      reads this, sendLock, LimiterOf(PerVisitor), LimiterOf(NewAccounts), LimiterOf(GrantsPerDay), LimiterOf(Unpaid), LimiterOf(GasPerDay)
    {
      Counting() && RelayerRuns.LockOk(Abs())
    }

    /** The routes' limiters are the server's; the relayer makes its own two. */
    constructor (budget: Budget, funded: set<string>, accountsPerIp: RateLimit.RateLimiter,
                 newAccountsPerDay: RateLimit.RateLimiter, faucetGrantsPerDay: RateLimit.RateLimiter)
      requires accountsPerIp != newAccountsPerDay && newAccountsPerDay != faucetGrantsPerDay && accountsPerIp != faucetGrantsPerDay
      requires accountsPerIp.IsNew(budget.perVisitor, DAY_MS) && newAccountsPerDay.IsNew(budget.newAccounts, DAY_MS)
      requires faucetGrantsPerDay.IsNew(budget.grants, DAY_MS)
      ensures Valid() && Abs() == Start(funded) && this.budget == budget
      ensures fresh(sendLock) && fresh(unpaidSafetyActions) && fresh(gasPerDay)
      ensures this.accountsPerIp == accountsPerIp && this.newAccountsPerDay == newAccountsPerDay
      ensures this.faucetGrantsPerDay == faucetGrantsPerDay
    {
      this.budget := budget;
      this.accountsPerIp, this.newAccountsPerDay, this.faucetGrantsPerDay := accountsPerIp, newAccountsPerDay, faucetGrantsPerDay;
      sendLock := new SendLock.Mutex();
      unpaidSafetyActions := new RateLimit.RateLimiter(budget.unpaid, DAY_MS);
      gasPerDay := new RateLimit.RateLimiter(budget.gas, DAY_MS);
      this.funded, granting, inFlight := funded, {}, {};
      clients, log, books := map[], [], Books(map[], 0);
      new;
      hide Counts, RateLimit.RateLimiter.IsNew, RelayerRuns.LockOk;
      RelayerRuns.StartsInLock(funded);
      assert Apart();
      NewCounting();
      hide Counting;
    }

    lemma NewCounting()
      requires Apart() && books == Books(map[], 0)
      requires accountsPerIp.IsNew(budget.perVisitor, DAY_MS) && newAccountsPerDay.IsNew(budget.newAccounts, DAY_MS)
      requires faucetGrantsPerDay.IsNew(budget.grants, DAY_MS)
      requires unpaidSafetyActions.IsNew(budget.unpaid, DAY_MS) && gasPerDay.IsNew(budget.gas, DAY_MS)
      ensures Counting()
    {
      hide RateLimit.RateLimiter.IsNew, Counts, Apart;
      NewCounts(PerVisitor);
      NewCounts(NewAccounts);
      NewCounts(GrantsPerDay);
      NewCounts(Unpaid);
      NewCounts(GasPerDay);
    }

    lemma NewCounts(which: Limiter)
      requires LimiterOf(which).IsNew(budget.Limit(which), DAY_MS) && books == Books(map[], 0)
      ensures Counts(which)
    {
    }

    /** A request's job and limits are its own: each of its methods is given them again. */
    ghost predicate IsAt(id: nat, job: Job, stage: Stage)
      reads this`clients
    {
      id in clients && clients[id] == Client(job, stage)
    }

    method EnterRequest(id: nat, job: Job)
      requires Valid() && Enabled(Abs(), Enter(id, job))
      modifies this`clients
      ensures Valid() && Abs() == Step(budget, old(Abs()), Enter(id, job))
    {
      hide Counts, RelayerRuns.LockOk;
      ghost var s := Abs();
      clients := clients[id := Client(job, Starting)];
      RelayerRuns.EveryStepKeepsLock(budget, s, Enter(id, job));

    }

    /** The account was found to be this deployment's, or not: check and reserve it in one go, before the next await. */
    method StartRequest(id: nat, job: Job, ok: bool)
      requires Valid() && Enabled(Abs(), Started(id, ok)) && IsAt(id, job, Starting)
      modifies this`clients, this`granting, this`inFlight
      ensures Valid() && Abs() == Step(budget, old(Abs()), Started(id, ok))
    {
      hide Counts, RelayerRuns.LockOk;
      ghost var s := Abs();
      var key := job.Key();
      if !ok {
        clients := clients[id := Client(job, Done(NO_LIMITS, Some(NotOurs)))];
      } else if job.Deploy? {
        clients := clients[id := Client(job, Simulating(NO_LIMITS))];
      } else if job.Relay? {
        if key in inFlight {
          clients := clients[id := Client(job, Done(NO_LIMITS, Some(Busy)))];
        } else {
          inFlight := inFlight + {key};
          clients := clients[id := Client(job, Judging)];
        }
      } else {
        if key in funded || key in granting {
          clients := clients[id := Client(job, Done(NO_LIMITS, Some(AlreadyFunded)))];
        } else {
          granting := granting + {key};
          clients := clients[id := Client(job, Judging)];
        }
      }
      RelayerRuns.EveryStepKeepsLock(budget, s, Started(id, ok));
    }

    /** The limits that apply, or why none could be told. */
    method JudgeRequest(id: nat, job: Job, reading: Option<Reading>) returns (limits: Option<Limits>)
      requires Valid() && Enabled(Abs(), Judged(id, reading)) && IsAt(id, job, Judging)
      modifies this`clients
      ensures Valid() && Abs() == Step(budget, old(Abs()), Judged(id, reading))
      ensures limits.Some? ==> IsAt(id, job, Simulating(limits.value))
      ensures limits.None? ==> IsAt(id, job, Settled(NO_LIMITS, Some(Unreadable)))
    {
      hide Counts, RelayerRuns.LockOk;
      ghost var s := Abs();
      if job.Relay? {
        limits := LimitsOf(job.function_, job.kind, reading);
      } else if reading.None? || !reading.value.treasuryOk {
        limits := None;
      } else {
        limits := Some(NO_LIMITS);
      }
      clients := clients[id := Client(job, if limits.None? then Settled(NO_LIMITS, Some(Unreadable)) else Simulating(limits.value))];
      RelayerRuns.EveryStepKeepsLock(budget, s, Judged(id, reading));
    }

    method SimulateRequest(id: nat, job: Job, limits: Limits, ok: bool)
      requires Valid() && Enabled(Abs(), Simulated(id, ok)) && IsAt(id, job, Simulating(limits))
      modifies this`clients, sendLock
      ensures Valid() && Abs() == Step(budget, old(Abs()), Simulated(id, ok))
    {
      hide Counts, RelayerRuns.LockOk;
      ghost var s := Abs();
      RelayerRuns.MatchesNow(s, id);
      if ok {
        sendLock.Run(id);
        clients := clients[id := Client(job, Queued(limits))];
      } else {
        clients := clients[id := Client(job, Settled(limits, Some(SimulationFailed)))];
      }
      RelayerRuns.EveryStepKeepsLock(budget, s, Simulated(id, ok));
    }

    /** The lock starts the job whose turn it is. */
    method BeginRequest(id: nat)
      requires Valid() && Enabled(Abs(), Began(id))
      modifies this`clients, sendLock
      ensures Valid() && Abs() == Step(budget, old(Abs()), Began(id))
    {
      hide Counts, RelayerRuns.LockOk;
      ghost var s := Abs();
      sendLock.Start(id);
      clients := clients[id := clients[id].(stage := Estimating(clients[id].stage.limits))];
      RelayerRuns.EveryStepKeepsLock(budget, s, Began(id));
    }

    /** Asks one limiter; every other one is as it was. */
    method Take(which: Limiter, key: string, weight: nat, now: nat) returns (ok: bool)
      requires Counting() && books.clock <= now
      modifies LimiterOf(which), this`books
      ensures Counting() && ok == Allows(old(books).Calls(which), budget.Limit(which), RateLimit.Request(key, weight, now))
      ensures books == old(books).Called(which, RateLimit.Request(key, weight, now))
    {
      ok := AskLimiter(which, key, weight, now);
      hide Counts, Allows;
      forall w: Limiter | w != which ensures Counts(w) {
        StillCounts(w);
      }
    }

    method AskLimiter(which: Limiter, key: string, weight: nat, now: nat) returns (ok: bool)
      requires Counts(which) && books.clock <= now
      modifies LimiterOf(which), this`books
      ensures Counts(which) && ok == Allows(old(books).Calls(which), budget.Limit(which), RateLimit.Request(key, weight, now))
      ensures books == old(books).Called(which, RateLimit.Request(key, weight, now))
    {
      var limiter := LimiterOf(which);
      ok := limiter.Take(key, weight, now);
      books := books.Called(which, RateLimit.Request(key, weight, now));
      hide RateLimit.After;
      AfterOneMore(old(books).Calls(which), RateLimit.Request(key, weight, now), budget.Limit(which));
    }

    twostate lemma StillCounts(w: Limiter)
      requires old(Counts(w)) && unchanged(LimiterOf(w))
      requires books.Calls(w) == old(books).Calls(w) && old(books).clock <= books.clock
      ensures Counts(w)
    {
    }

    method SpendGas(gas: nat, now: nat) returns (ok: bool)
      requires Counting() && books.clock <= now
      modifies gasPerDay, this`books
      ensures Counting() && ok == Allows(old(books).Calls(GasPerDay), budget.gas, RateLimit.Request(ALL, gas, now))
      ensures books == old(books).Called(GasPerDay, RateLimit.Request(ALL, gas, now))
    {
      ok := Take(GasPerDay, ALL, gas, now);
    }

    /** The limits of its route, then the gas budget; what defends an account asks for neither. */
    method BeforeSend(job: Job, limits: Limits, gas: nat, now: nat) returns (refused: Option<Limiter>, ghost paid: map<Limiter, nat>)
      requires Counting() && books.clock <= now
      modifies accountsPerIp, newAccountsPerDay, faucetGrantsPerDay, unpaidSafetyActions, gasPerDay, this`books
      ensures Counting()
      ensures Taken(refused, books, paid) == TakeAll(budget, old(books), Demands(job, limits, gas), now, map[])
    {
      hide Counts, Allows, TakeAll;
      paid := map[];
      ghost var spend := Demand(GasPerDay, ALL, gas);
      match job {
        case Deploy(visitor) =>
          ghost var visit, create := Demand(PerVisitor, "accounts:" + visitor, 1), Demand(NewAccounts, ALL, 1);
          assert [visit, create, spend] == [visit] + [create, spend] && [create, spend] == [create] + [spend];
          TakesFirst(budget, books, visit, [create, spend], now, paid);
          var visited := Take(PerVisitor, "accounts:" + visitor, 1, now);
          if !visited { return Some(PerVisitor), paid; }
          paid := paid[PerVisitor := |old(books).Calls(PerVisitor)|];
          TakesFirst(budget, books, create, [spend], now, paid);
          var created := Take(NewAccounts, ALL, 1, now);
          if !created { return Some(NewAccounts), paid; }
          paid := paid[NewAccounts := |old(books).Calls(NewAccounts)|];
        case Grant(_) =>
          ghost var grant := Demand(GrantsPerDay, ALL, 1);
          assert [grant, spend] == [grant] + [spend];
          TakesFirst(budget, books, grant, [spend], now, paid);
          var granted := Take(GrantsPerDay, ALL, 1, now);
          if !granted { return Some(GrantsPerDay), paid; }
          paid := paid[GrantsPerDay := |old(books).Calls(GrantsPerDay)|];
        case Relay(_, _, _) =>
          TakesFirst(budget, books, spend, [], now, paid);
          if limits.defends { return None, paid; }
          if limits.waived {
            ghost var share := Demand(Unpaid, job.Key(), 1);
            assert [share, spend] == [share] + [spend];
            TakesFirst(budget, books, share, [spend], now, paid);
            var shared := Take(Unpaid, job.Key(), 1, now);
            if !shared { return Some(Unpaid), paid; }
            paid := paid[Unpaid := |old(books).Calls(Unpaid)|];
          }
      }
      assert TakeAll(budget, old(books), Demands(job, limits, gas), now, map[]) == TakeAll(budget, books, [spend], now, paid);
      assert [spend] + [] == [spend];
      TakesFirst(budget, books, spend, [], now, paid);
      ghost var calls := |books.Calls(GasPerDay)|;
      var spent := SpendGas(gas, now);
      if !spent { return Some(GasPerDay), paid; }
      paid := paid[GasPerDay := calls];
      TakesFirst(budget, books, spend, [], now, paid);
      return None, paid;
    }

    /** The running job knows its gas, or that it cannot be estimated: it throws, or sends with a fifth more. */
    method EstimateRequest(id: nat, job: Job, limits: Limits, gas: Option<Gas>, now: nat) returns (gasLimit: Option<nat>)
      requires Valid() && Enabled(Abs(), Estimated(id, gas, now)) && IsAt(id, job, Estimating(limits))
      modifies this`clients, this`books, sendLock, accountsPerIp, newAccountsPerDay, faucetGrantsPerDay, unpaidSafetyActions, gasPerDay
      ensures Valid() && Abs() == Step(budget, old(Abs()), Estimated(id, gas, now))
      ensures gasLimit == if id in clients && clients[id].stage.Sending? then Some(clients[id].stage.tx.gasLimit) else None
    {
      hide Counts, TakeAll, Demands, RelayerRuns.LockOk;
      ghost var s := Abs();
      RelayerRuns.MatchesNow(s, id);
      var refused: Option<Limiter>;
      ghost var paid := map[];
      if gas.Some? && gas.value <= MAX_GAS {
        refused, paid := BeforeSend(job, limits, gas.value, now);
        if refused.None? {
          gasLimit := Some(gas.value * 12 / 10);
          clients := clients[id := Client(job, Sending(limits, Tx(id, job, limits, s.lock.settled, now, gas.value, gasLimit.value, paid)))];
        }
      } else {
        refused := None;
      }
      if gas.None? || gas.value > MAX_GAS || refused.Some? {
        gasLimit := None;
        sendLock.Finish(id, false);
        var failure := if gas.None? then EstimateFailed else if gas.value > MAX_GAS then TooMuchGas else Over(refused.value);
        clients := clients[id := Client(job, Settled(limits, Some(failure)))];
      }
      RelayerRuns.EveryStepKeepsLock(budget, s, Estimated(id, gas, now));
    }

    method SendRequest(id: nat, ok: bool)
      requires Valid() && Enabled(Abs(), Sent(id, ok))
      modifies this`clients, this`log, sendLock
      ensures Valid() && Abs() == Step(budget, old(Abs()), Sent(id, ok))
    {
      hide Counts, RelayerRuns.LockOk;
      ghost var s := Abs();
      ghost var Sending(limits, tx) := clients[id].stage;
      RelayerRuns.MatchesNow(s, id);
      if ok {
        log := log + [tx];
      }
      sendLock.Finish(id, ok);
      clients := clients[id := clients[id].(stage := Settled(limits, if ok then None else Some(SendFailed)))];
      RelayerRuns.EveryStepKeepsLock(budget, s, Sent(id, ok));
    }

    /** The tail a settled job left behind settles too, whichever way the job did. */
    method LetGoRequest(id: nat)
      requires Valid() && Enabled(Abs(), Passed(id))
      modifies sendLock
      ensures Valid() && Abs() == Step(budget, old(Abs()), Passed(id))
    {
      hide Counts, RelayerRuns.LockOk;
      ghost var s := Abs();
      sendLock.LetGo(id);
      RelayerRuns.EveryStepKeepsLock(budget, s, Passed(id));
    }

    method ResumeRequest(id: nat, job: Job, limits: Limits, failure: Option<Reason>)
      requires Valid() && Enabled(Abs(), Resumed(id)) && IsAt(id, job, Settled(limits, failure))
      modifies this`clients, this`funded, this`granting, this`inFlight
      ensures Valid() && Abs() == Step(budget, old(Abs()), Resumed(id))
    {
      hide Counts, RelayerRuns.LockOk;
      ghost var s := Abs();
      var key := job.Key();
      if job.Relay? && failure.None? {
        clients := clients[id := Client(job, Confirming(limits))];
      } else {
        if job.Relay? {
          inFlight := inFlight - {key};
        } else if job.Grant? {
          if failure.None? {
            funded := funded + {key};
          }
          granting := granting - {key};
        }
        clients := clients[id := Client(job, Done(limits, failure))];
      }
      RelayerRuns.EveryStepKeepsLock(budget, s, Resumed(id));
    }

    method ConfirmRequest(id: nat, job: Job, limits: Limits)
      requires Valid() && Enabled(Abs(), Confirmed(id)) && IsAt(id, job, Confirming(limits))
      modifies this`clients, this`inFlight
      ensures Valid() && Abs() == Step(budget, old(Abs()), Confirmed(id))
    {
      hide Counts, RelayerRuns.LockOk;
      ghost var s := Abs();
      inFlight := inFlight - {job.Key()};
      clients := clients[id := Client(job, Done(limits, None))];
      RelayerRuns.EveryStepKeepsLock(budget, s, Confirmed(id));
    }
  }

  lemma TakesFirst(b: Budget, books: Books, d: Demand, rest: seq<Demand>, now: nat, paid: map<Limiter, nat>)
    ensures var call := RateLimit.Request(d.key, d.weight, now);
            TakeAll(b, books, [d] + rest, now, paid)
            == if Allows(books.Calls(d.limiter), b.Limit(d.limiter), call) then
                 TakeAll(b, books.Called(d.limiter, call), rest, now, paid[d.limiter := |books.Calls(d.limiter)|])
               else Taken(Some(d.limiter), books.Called(d.limiter, call), paid)
    ensures TakeAll(b, books, [], now, paid) == Taken(None, books, paid)
  {
    assert ([d] + rest)[1..] == rest;
  }

  lemma AfterOneMore(calls: seq<RateLimit.Request>, call: RateLimit.Request, limit: nat)
    ensures RateLimit.After(calls + [call], limit, DAY_MS, |calls| + 1)
            == RateLimit.Counted(RateLimit.After(calls, limit, DAY_MS, |calls|), limit, DAY_MS, call.key, call.weight, call.now)
  {
    Budgets.AfterPrefix(calls, call, limit, DAY_MS, |calls|);
  }
}
