/**
 * The relayer under concurrent requests (server/relayer.ts). A request is cut at each await: between two of its steps any
 * other request may take any of its own. What the chain answers at an await comes with the event.
 */
module RelayerSpec {
  import opened Primitives
  import opened RateLimit
  import opened SendLock
  import opened Text

  const MAX_GAS: nat := 2_500_000

  /** A gas estimate is never zero: a transaction that does nothing takes 21,000. */
  type Gas = g: nat | 0 < g witness 21_000
  const DAY_MS: nat := 24 * 60 * 60_000
  const FREEZE_KIND: nat := 8
  const ALL := "all"

  /** The account functions the relayer submits (shared/api.ts). */
  datatype Function = Pay | ScheduleChange | Restrict | ApplyChange | CancelChange | CancelRecovery | ExecuteRecovery

  /** What a request asks for; `kind` is a restriction's kind of change. */
  datatype Job =
    | Deploy(visitor: string)
    | Relay(account: string, function_: Function, kind: nat)
    | Grant(account: string)
  {
    /** Accounts are compared in lower case. */
    function Key(): string {
      if Deploy? then "" else Lower(account)
    }
  }

  /** The limiters a transaction may have to pass on its way out (server/index.ts, server/relayer.ts). */
  datatype Limiter = PerVisitor | NewAccounts | GrantsPerDay | Unpaid | GasPerDay

  /** What each limiter grants in a day: to a visitor, to everyone, to everyone, to an account, to everyone. */
  datatype Budget = Budget(perVisitor: nat, newAccounts: nat, grants: nat, unpaid: nat, gas: nat)
  {
    function Limit(which: Limiter): nat {
      match which
      case PerVisitor => perVisitor
      case NewAccounts => newAccounts
      case GrantsPerDay => grants
      case Unpaid => unpaid
      case GasPerDay => gas
    }
  }

  /** What the chain says about the account when the limits are decided. */
  datatype Reading = Reading(frozen: bool, waiting: bool, pastCap: bool, treasuryOk: bool)

  /** Which limits apply to a request. */
  datatype Limits = Limits(defends: bool, waived: bool)

  const NO_LIMITS: Limits := Limits(false, false)

  datatype Reason =
    | NotOurs | Busy | AlreadyFunded | Unreadable | SimulationFailed | EstimateFailed | TooMuchGas
    | Over(limiter: Limiter) | SendFailed

  datatype Stage =
    | Starting
    | Judging
    | Simulating(limits: Limits)
    | Queued(limits: Limits)
    | Estimating(limits: Limits)
    | Sending(limits: Limits, tx: Tx)
    | Settled(limits: Limits, failure: Option<Reason>)
    | Confirming(limits: Limits)
    | Done(limits: Limits, failure: Option<Reason>)

  datatype Client = Client(job: Job, stage: Stage)

  /**
   * A transaction: its turn at the lock, when it was let through, its estimated gas and the gas it is sent with, and for each limiter it had to pass,
   * which of the limiter's calls let it through.
   */
  datatype Tx = Tx(id: nat, job: Job, limits: Limits, turn: nat, at: nat, gas: nat, gasLimit: nat, paid: map<Limiter, nat>)

  /** The three sets of accounts: paid by the faucet, being paid, and in flight. */
  datatype Reserved = Reserved(funded: set<string>, granting: set<string>, inFlight: set<string>)

  /** Every call of the limiters, and the time of the last event that read the clock. */
  datatype Books = Books(calls: map<Limiter, seq<Request>>, clock: nat)
  {
    function Calls(which: Limiter): seq<Request> {
      if which in calls then calls[which] else []
    }

    /** The books after one more call. */
    function Called(which: Limiter, call: Request): Books {
      Books(calls[which := Calls(which) + [call]], call.now)
    }
  }

  datatype State = State(reserved: Reserved, lock: Chain, books: Books, clients: map<nat, Client>, log: seq<Tx>)

  function Start(funded: set<string>): State {
    State(Reserved(funded, {}, {}), NO_JOBS, Books(map[], 0), map[], [])
  }

  /** `Began` and `Passed` are the lock's own: it starts a job, and lets go of one that has settled. */
  datatype Event =
    | Enter(id: nat, job: Job)
    | Started(id: nat, ok: bool)
    | Judged(id: nat, reading: Option<Reading>)
    | Simulated(id: nat, ok: bool)
    | Began(id: nat)
    | Estimated(id: nat, gas: Option<Gas>, now: nat)
    | Sent(id: nat, ok: bool)
    | Passed(id: nat)
    | Resumed(id: nat)
    | Confirmed(id: nat)

  /** Whether an event can happen now. */
  predicate Enabled(s: State, e: Event) {
    match e
    case Enter(id, _) => id !in s.clients
    case Started(id, _) => id in s.clients && s.clients[id].stage.Starting?
    case Judged(id, _) => id in s.clients && s.clients[id].stage.Judging? && !s.clients[id].job.Deploy?
    case Simulated(id, _) => id in s.clients && s.clients[id].stage.Simulating?
    case Began(id) => id in s.clients && s.clients[id].stage.Queued? && CanStart(s.lock, id)
    case Estimated(id, _, now) => id in s.clients && s.clients[id].stage.Estimating? && s.books.clock <= now
    case Sent(id, _) => id in s.clients && s.clients[id].stage.Sending?
    case Passed(id) => id in s.clients && CanPass(s.lock, id)
    case Resumed(id) => id in s.clients && s.clients[id].stage.Settled?
    case Confirmed(id) => id in s.clients && s.clients[id].stage.Confirming? && s.clients[id].job.Relay?
  }

  /** The actions exempt from every budget. */
  predicate Defends(function_: Function, kind: nat, frozen: bool, waiting: bool) {
    || function_.CancelChange?
    || function_.CancelRecovery?
    || (function_.Restrict? && kind == FREEZE_KIND && (!frozen || waiting))
  }

  /** The actions whose fee the account waives once its day's cap is spent. */
  predicate IsSafety(function_: Function) {
    function_.Restrict? || function_.CancelChange? || function_.CancelRecovery?
  }

  /** Only a restriction has to ask the chain which limits apply. */
  function LimitsOf(function_: Function, kind: nat, reading: Option<Reading>): Option<Limits> {
    if function_.Restrict? then
      if reading.None? then None
      else
        var defends := Defends(function_, kind, reading.value.frozen, reading.value.waiting);
        Some(Limits(defends, !defends && reading.value.pastCap))
    else Some(Limits(Defends(function_, kind, false, false), false))
  }

  function At(s: State, id: nat, stage: Stage): map<nat, Client>
    requires id in s.clients
  {
    s.clients[id := s.clients[id].(stage := stage)]
  }

  function DoStart(s: State, id: nat, ok: bool): State
    requires id in s.clients
  {
    var job := s.clients[id].job;
    var key := job.Key();
    if !ok then s.(clients := At(s, id, Done(NO_LIMITS, Some(NotOurs))))
    else
      match job
      case Deploy(_) => s.(clients := At(s, id, Simulating(NO_LIMITS)))
      case Relay(_, _, _) =>
        if key in s.reserved.inFlight then s.(clients := At(s, id, Done(NO_LIMITS, Some(Busy))))
        else s.(reserved := s.reserved.(inFlight := s.reserved.inFlight + {key}), clients := At(s, id, Judging))
      case Grant(_) =>
        if key in s.reserved.funded || key in s.reserved.granting then s.(clients := At(s, id, Done(NO_LIMITS, Some(AlreadyFunded))))
        else s.(reserved := s.reserved.(granting := s.reserved.granting + {key}), clients := At(s, id, Judging))
  }

  /** Where a request goes once the chain has said what its limits depend on. */
  function JudgedStage(job: Job, reading: Option<Reading>): Stage
    requires !job.Deploy?
  {
    match job
    case Relay(_, function_, kind) =>
      var limits := LimitsOf(function_, kind, reading);
      if limits.None? then Settled(NO_LIMITS, Some(Unreadable)) else Simulating(limits.value)
    case Grant(_) =>
      if reading.None? || !reading.value.treasuryOk then Settled(NO_LIMITS, Some(Unreadable)) else Simulating(NO_LIMITS)
  }

  function DoSimulated(s: State, id: nat, ok: bool): State
    requires id in s.clients && s.clients[id].stage.Simulating?
  {
    var limits := s.clients[id].stage.limits;
    if ok then s.(lock := HandIn(s.lock, id), clients := At(s, id, Queued(limits)))
    else s.(clients := At(s, id, Settled(limits, Some(SimulationFailed))))
  }

  predicate Allows(calls: seq<Request>, limit: nat, call: Request) {
    Grants(After(calls, limit, DAY_MS, |calls|), limit, DAY_MS, call.key, call.weight, call.now)
  }

  /** What a transaction asks of one limiter. */
  datatype Demand = Demand(limiter: Limiter, key: string, weight: nat)

  /** What `beforeSend` asks of the limiters, in its order. What defends an account asks nothing. */
  function Demands(job: Job, limits: Limits, gas: nat): seq<Demand> {
    var spend := Demand(GasPerDay, ALL, gas);
    match job
    case Deploy(visitor) => [Demand(PerVisitor, "accounts:" + visitor, 1), Demand(NewAccounts, ALL, 1), spend]
    case Grant(_) => [Demand(GrantsPerDay, ALL, 1), spend]
    case Relay(_, _, _) =>
      if limits.defends then [] else if limits.waived then [Demand(Unpaid, job.Key(), 1), spend] else [spend]
  }

  /** The limiter that refused, if one did; the books after the calls; and the calls that were granted. */
  datatype Taken = Taken(refused: Option<Limiter>, books: Books, paid: map<Limiter, nat>)

  /** Asks one limiter after the other until one refuses. */
  function TakeAll(b: Budget, books: Books, demands: seq<Demand>, now: nat, paid: map<Limiter, nat>): Taken
    decreases |demands|
  {
    if demands == [] then Taken(None, books, paid)
    else
      var d := demands[0];
      var call := Request(d.key, d.weight, now);
      var calls := books.Calls(d.limiter);
      if Allows(calls, b.Limit(d.limiter), call) then
        TakeAll(b, books.Called(d.limiter, call), demands[1..], now, paid[d.limiter := |calls|])
      else Taken(Some(d.limiter), books.Called(d.limiter, call), paid)
  }

  /** What is decided about a transaction between its gas estimate and its send, and the books after that. */
  datatype Ruling = Ruling(failure: Option<Reason>, books: Books, tx: Tx)

  /** A transaction is sent with a fifth more gas than estimated. */
  function GasLimit(gas: nat): nat {
    gas * 12 / 10
  }

  function Rule(b: Budget, books: Books, id: nat, turn: nat, job: Job, limits: Limits, gas: Option<Gas>, now: nat): Ruling {
    var known := if gas.Some? then gas.value else 0;
    var tx := Tx(id, job, limits, turn, now, known, GasLimit(known), map[]);
    if gas.None? then Ruling(Some(EstimateFailed), books, tx)
    else if known > MAX_GAS then Ruling(Some(TooMuchGas), books, tx)
    else
      var taken := TakeAll(b, books, Demands(job, limits, known), now, map[]);
      Ruling(if taken.refused.Some? then Some(Over(taken.refused.value)) else None, taken.books, tx.(paid := taken.paid))
  }

  function DoEstimated(b: Budget, s: State, id: nat, gas: Option<Gas>, now: nat): State
    requires id in s.clients && s.clients[id].stage.Estimating?
  {
    var limits := s.clients[id].stage.limits;
    var ruling := Rule(b, s.books, id, s.lock.settled, s.clients[id].job, limits, gas, now);
    if ruling.failure.Some? then
      s.(lock := Settle(s.lock, id, false), books := ruling.books, clients := At(s, id, Settled(limits, ruling.failure)))
    else s.(books := ruling.books, clients := At(s, id, Sending(limits, ruling.tx)))
  }

  /** The network took the transaction, or the send failed; a failed send is taken to have sent nothing. */
  function DoSent(s: State, id: nat, ok: bool): State
    requires id in s.clients && s.clients[id].stage.Sending?
  {
    var Sending(limits, tx) := s.clients[id].stage;
    s.(lock := Settle(s.lock, id, ok),
       clients := At(s, id, Settled(limits, if ok then None else Some(SendFailed))),
       log := if ok then s.log + [tx] else s.log)
  }

  /** The request goes on after its transaction was sent or refused. */
  function DoResumed(s: State, id: nat): State
    requires id in s.clients && s.clients[id].stage.Settled?
  {
    var Settled(limits, failure) := s.clients[id].stage;
    var job := s.clients[id].job;
    var key := job.Key();
    match job
    case Deploy(_) => s.(clients := At(s, id, Done(limits, failure)))
    case Relay(_, _, _) =>
      if failure.None? then s.(clients := At(s, id, Confirming(limits)))
      else s.(reserved := s.reserved.(inFlight := s.reserved.inFlight - {key}), clients := At(s, id, Done(limits, failure)))
    case Grant(_) =>
      s.(reserved := s.reserved.(funded := if failure.None? then s.reserved.funded + {key} else s.reserved.funded,
                                 granting := s.reserved.granting - {key}),
         clients := At(s, id, Done(limits, failure)))
  }

  /** The relayed transaction is in a block, or was waited for long enough. */
  function DoConfirmed(s: State, id: nat): State
    requires id in s.clients && s.clients[id].stage.Confirming?
  {
    s.(reserved := s.reserved.(inFlight := s.reserved.inFlight - {s.clients[id].job.Key()}),
       clients := At(s, id, Done(s.clients[id].stage.limits, None)))
  }

  function Step(b: Budget, s: State, e: Event): State
    requires Enabled(s, e)
  {
    match e
    case Enter(id, job) => s.(clients := s.clients[id := Client(job, Starting)])
    case Started(id, ok) => DoStart(s, id, ok)
    case Judged(id, reading) => s.(clients := At(s, id, JudgedStage(s.clients[id].job, reading)))
    case Simulated(id, ok) => DoSimulated(s, id, ok)
    case Began(id) => s.(lock := Begin(s.lock, id), clients := At(s, id, Estimating(s.clients[id].stage.limits)))
    case Estimated(id, gas, now) => DoEstimated(b, s, id, gas, now)
    case Sent(id, ok) => DoSent(s, id, ok)
    case Passed(id) => s.(lock := Pass(s.lock, id))
    case Resumed(id) => DoResumed(s, id)
    case Confirmed(id) => DoConfirmed(s, id)
  }

  /** A history from a relayer's start; an event that cannot happen is not part of any history. */
  ghost predicate IsHistory(b: Budget, funded: set<string>, states: seq<State>, events: seq<Event>) {
    && |states| == |events| + 1 && states[0] == Start(funded)
    && forall i :: 0 <= i < |events| ==> HappensAt(b, states, events, i)
  }

  ghost predicate HappensAt(b: Budget, states: seq<State>, events: seq<Event>, i: nat)
    requires i < |events| && |states| == |events| + 1
  {
    Enabled(states[i], events[i]) && states[i + 1] == Step(b, states[i], events[i])
  }
}
