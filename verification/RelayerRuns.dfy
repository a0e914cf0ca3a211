/** What every interleaving of the relayer's requests keeps. */
module RelayerRuns {
  import opened Primitives
  import opened RateLimit
  import opened Budgets
  import opened Reservations
  import opened Text
  import opened RelayerSpec
  import SendLock

  // ---------------------------------------------------------------------------------------------------------------
  // Reservations: who holds which account.

  predicate Reserving(stage: Stage) {
    !stage.Starting? && !stage.Done?
  }

  /** The account a relayed request keeps in flight. */
  function FlightOf(client: Client): Option<string> {
    if client.job.Relay? && Reserving(client.stage) then Some(client.job.Key()) else None
  }

  /** The account a faucet request keeps reserved. */
  function GrantOf(client: Client): Option<string> {
    if client.job.Grant? && Reserving(client.stage) then Some(client.job.Key()) else None
  }

  function Flights(clients: map<nat, Client>): map<nat, Option<string>> {
    map id | id in clients :: FlightOf(clients[id])
  }

  function Grantees(clients: map<nat, Client>): map<nat, Option<string>> {
    map id | id in clients :: GrantOf(clients[id])
  }

  /** Each account in flight and each account being granted is held by exactly one request. */
  ghost predicate Held(s: State) {
    Exact(Flights(s.clients), s.reserved.inFlight) && Exact(Grantees(s.clients), s.reserved.granting)
  }

  function ClientOf(s: State, id: nat): Client {
    if id in s.clients then s.clients[id] else Client(Deploy(""), Starting)
  }

  /** A step moves one request, keeps what it asks for, and changes no reservation but that request's own. */
  ghost predicate Moves(s: State, t: State, id: nat) {
    && id in t.clients
    && t.clients == s.clients[id := t.clients[id]]
    && (id in s.clients ==> t.clients[id].job == s.clients[id].job)
    && Follows(FlightOf(ClientOf(s, id)), FlightOf(t.clients[id]), s.reserved.inFlight, t.reserved.inFlight)
    && Follows(GrantOf(ClientOf(s, id)), GrantOf(t.clients[id]), s.reserved.granting, t.reserved.granting)
  }

  lemma StepMoves(b: Budget, s: State, e: Event)
    requires Enabled(s, e)
    ensures Moves(s, Step(b, s, e), e.id)
  {
  }

  lemma ViewsUpdate(clients: map<nat, Client>, id: nat, client: Client)
    ensures Flights(clients[id := client]) == Flights(clients)[id := FlightOf(client)]
    ensures Grantees(clients[id := client]) == Grantees(clients)[id := GrantOf(client)]
  {
  }

  lemma HeldStep(s: State, t: State, id: nat)
    requires Held(s) && Moves(s, t, id)
    ensures Held(t)
  {
    var client := t.clients[id];
    ViewsUpdate(s.clients, id, client);
    ExactUpdate(Flights(s.clients), s.reserved.inFlight, id, FlightOf(client), t.reserved.inFlight);
    ExactUpdate(Grantees(s.clients), s.reserved.granting, id, GrantOf(client), t.reserved.granting);
  }

  lemma HeldIsTaken(s: State, id: nat)
    requires Held(s) && id in s.clients
    ensures FlightOf(s.clients[id]).Some? ==> FlightOf(s.clients[id]).value in s.reserved.inFlight
    ensures GrantOf(s.clients[id]).Some? ==> GrantOf(s.clients[id]).value in s.reserved.granting
  {
    assert id in Flights(s.clients) && Flights(s.clients)[id] == FlightOf(s.clients[id]);
    assert id in Grantees(s.clients) && Grantees(s.clients)[id] == GrantOf(s.clients[id]);
  }

  lemma HeldOnce(s: State, i: nat, j: nat)
    requires Held(s) && i in s.clients && j in s.clients && i != j
    ensures FlightOf(s.clients[i]).Some? ==> FlightOf(s.clients[i]) != FlightOf(s.clients[j])
    ensures GrantOf(s.clients[i]).Some? ==> GrantOf(s.clients[i]) != GrantOf(s.clients[j])
  {
    assert Flights(s.clients)[i].Some? ==> Flights(s.clients)[i] != Flights(s.clients)[j];
    assert Grantees(s.clients)[i].Some? ==> Grantees(s.clients)[i] != Grantees(s.clients)[j];
  }

  // ---------------------------------------------------------------------------------------------------------------
  // The lock: a request's stage says how its job at the lock is doing.

  /** How far a request is, as its job's promise tells it. */
  predicate Matches(c: SendLock.Chain, id: nat, stage: Stage) {
    if id in c.links then
      match c.links[id].status
      case Waiting => stage.Queued?
      case Running => stage.Estimating? || stage.Sending?
      case _ => stage.Settled? || stage.Confirming? || stage.Done?
    else stage.Starting? || stage.Judging? || stage.Simulating? || (stage.Settled? && stage.failure.Some?) || stage.Done?
  }

  /** The transaction a request is sending is its own, let through in its turn. */
  predicate SendsItsOwn(c: SendLock.Chain, id: nat, client: Client) {
    client.stage.Sending? ==>
      var tx := client.stage.tx;
      && tx.id == id && tx.job == client.job && tx.limits == client.stage.limits
      && tx.turn == c.settled
  }

  ghost predicate LockOk(s: State) {
    && SendLock.ChainOk(s.lock)
    && (forall id <- s.lock.links :: id in s.clients)
    && forall id <- s.clients :: Matches(s.lock, id, s.clients[id].stage) && SendsItsOwn(s.lock, id, s.clients[id])
  }

  datatype LockMove = Stays | HandsIn | Begins | Sends | Settles(ok: bool) | Passes

  /** What a step does to the lock, and to the stage of the request it moves. */
  ghost predicate LockMoves(s: State, t: State, id: nat, move: LockMove) {
    var before, after := ClientOf(s, id).stage, ClientOf(t, id).stage;
    match move
    case Stays =>
      && t.lock == s.lock && !InLock(before) && !InLock(after)
      && (after.Confirming? ==> before.Settled? && before.failure.None?)
      && (after.Settled? ==> after.failure.Some?)
      && (before.Settled? || before.Confirming? || before.Done? ==> after.Settled? || after.Confirming? || after.Done?)
    case HandsIn => t.lock == SendLock.HandIn(s.lock, id) && before.Simulating? && after.Queued?
    case Begins => t.lock == SendLock.Begin(s.lock, id) && SendLock.CanStart(s.lock, id) && before.Queued? && after.Estimating?
    case Sends =>
      && t.lock == s.lock && before.Estimating? && after.Sending?
      && SendsItsOwn(s.lock, id, t.clients[id])
    case Settles(ok) => t.lock == SendLock.Settle(s.lock, id, ok) && (before.Estimating? || before.Sending?) && after.Settled?
    case Passes => t.lock == SendLock.Pass(s.lock, id) && SendLock.CanPass(s.lock, id) && t.clients == s.clients
  }

  predicate InLock(stage: Stage) {
    stage.Queued? || stage.Estimating? || stage.Sending?
  }

  function MoveOf(s: State, t: State, e: Event): LockMove {
    match e
    case Simulated(_, ok) => if ok then HandsIn else Stays
    case Began(_) => Begins
    case Estimated(id, _, _) => if ClientOf(t, id).stage.Sending? then Sends else Settles(false)
    case Sent(_, ok) => Settles(ok)
    case Passed(_) => Passes
    case _ => Stays
  }

  lemma StepLock(b: Budget, s: State, e: Event)
    requires Enabled(s, e)
    ensures Moves(s, Step(b, s, e), e.id)
    ensures LockMoves(s, Step(b, s, e), e.id, MoveOf(s, Step(b, s, e), e))
  {
    StepMoves(b, s, e);
    hide TakeAll, Demands, Moves;
  }

  /** The chain stays in order: a request's stage tells that the lock's own step may be taken. */
  lemma ChainStep(s: State, t: State, id: nat, move: LockMove)
    requires Moves(s, t, id) && LockMoves(s, t, id, move) && LockOk(s)
    ensures SendLock.ChainOk(t.lock)
    ensures move.Settles? ==>
              s.lock.settled < |s.lock.order| && s.lock.order[s.lock.settled] == id && t.lock.settled == s.lock.settled + 1
  {
    hide SendLock.ChainOk;
    assert id in s.clients ==> Matches(s.lock, id, s.clients[id].stage);
    match move
    case HandsIn => SendLock.HandInKeeps(s.lock, id);
    case Begins => SendLock.BeginKeeps(s.lock, id);
    case Settles(ok) =>
      SendLock.SettleKeeps(s.lock, id, ok);
      SendLock.OneRuns(s.lock, id);
    case Passes => SendLock.PassKeeps(s.lock, id);
    case _ =>
  }

  lemma OthersMatch(s: State, t: State, id: nat, move: LockMove, other: nat)
    requires Moves(s, t, id) && LockMoves(s, t, id, move) && LockOk(s) && other in t.clients
    ensures Matches(t.lock, other, t.clients[other].stage) && SendsItsOwn(t.lock, other, t.clients[other])
  {
    assert other in s.clients ==> Matches(s.lock, other, s.clients[other].stage) && SendsItsOwn(s.lock, other, s.clients[other]);
    assert id in s.clients ==> Matches(s.lock, id, s.clients[id].stage);
    if move.Settles? && other != id && other in s.lock.links && s.lock.links[other].status.Running? {
      SendLock.OneRuns(s.lock, id);
      SendLock.OneRuns(s.lock, other);
    }
    hide SendLock.ChainOk;
  }

  lemma LockStep(s: State, t: State, id: nat, move: LockMove)
    requires Moves(s, t, id) && LockMoves(s, t, id, move) && LockOk(s)
    ensures LockOk(t)
  {
    ChainStep(s, t, id, move);
    forall other | other in t.clients
      ensures Matches(t.lock, other, t.clients[other].stage) && SendsItsOwn(t.lock, other, t.clients[other])
    {
      OthersMatch(s, t, id, move, other);
    }
    hide SendLock.ChainOk;
  }

  lemma StartsInLock(funded: set<string>)
    ensures LockOk(Start(funded))
  {
  }

  lemma EveryStepKeepsLock(b: Budget, s: State, e: Event)
    requires Enabled(s, e) && LockOk(s)
    ensures LockOk(Step(b, s, e))
  {
    StepLock(b, s, e);
    hide Step, Enabled, LockOk;
    LockStep(s, Step(b, s, e), e.id, MoveOf(s, Step(b, s, e), e));
  }

  lemma MatchesNow(s: State, id: nat)
    requires LockOk(s) && id in s.clients
    ensures Matches(s.lock, id, s.clients[id].stage)
  {
  }

  /** Only the job that runs may be sending, and it is the earliest handed in that has not settled. */
  lemma OneSends(s: State, id: nat)
    requires LockOk(s) && id in s.clients && (s.clients[id].stage.Sending? || s.clients[id].stage.Estimating?)
    ensures s.lock.settled < |s.lock.order| && s.lock.order[s.lock.settled] == id
  {
    assert Matches(s.lock, id, s.clients[id].stage);
    SendLock.OneRuns(s.lock, id);
  }

  /** The transaction being sent, if one is. */
  function InHand(s: State): Option<Tx> {
    if s.lock.settled < |s.lock.order| && ClientOf(s, s.lock.order[s.lock.settled]).stage.Sending? then
      Some(ClientOf(s, s.lock.order[s.lock.settled]).stage.tx)
    else None
  }

  lemma NextWaits(s: State, k: nat)
    requires LockOk(s) && s.lock.settled < k < |s.lock.order|
    ensures s.lock.order[k] in s.clients && s.clients[s.lock.order[k]].stage.Queued?
  {
    assert SendLock.Row(s.lock)[k].status.Waiting?;
    assert s.lock.order[k] in s.lock.links;
    assert Matches(s.lock, s.lock.order[k], s.clients[s.lock.order[k]].stage);
  }

  lemma InHandFrame(s: State, t: State, id: nat, move: LockMove)
    requires Moves(s, t, id) && LockMoves(s, t, id, move) && LockOk(s) && !move.Sends? && !move.Settles?
    ensures InHand(t) == InHand(s)
  {
    hide SendLock.ChainOk;
  }

  lemma InHandSends(s: State, t: State, id: nat)
    requires Moves(s, t, id) && LockMoves(s, t, id, Sends) && LockOk(s)
    ensures InHand(s) == None && InHand(t) == Some(t.clients[id].stage.tx)
  {
    OneSends(s, id);
    hide SendLock.ChainOk;
  }

  lemma InHandSettles(s: State, t: State, id: nat, ok: bool)
    requires Moves(s, t, id) && LockMoves(s, t, id, Settles(ok)) && LockOk(s)
    ensures InHand(s) == (if s.clients[id].stage.Sending? then Some(s.clients[id].stage.tx) else None) && InHand(t) == None
  {
    OneSends(s, id);
    var k := s.lock.settled;
    if k + 1 < |s.lock.order| {
      NextWaits(s, k + 1);
    }
    hide SendLock.ChainOk;
  }

  /** What is in hand changes only when the running job sends, or has sent. */
  ghost predicate InHandMoves(s: State, t: State, e: Event) {
    if e.Estimated? && ClientOf(t, e.id).stage.Sending? then
      InHand(s) == None && InHand(t) == Some(ClientOf(t, e.id).stage.tx)
    else if e.Sent? then
      ClientOf(s, e.id).stage.Sending? && InHand(s) == Some(ClientOf(s, e.id).stage.tx) && InHand(t) == None
    else InHand(t) == InHand(s)
  }

  lemma InHandStep(b: Budget, s: State, e: Event)
    requires Enabled(s, e) && LockOk(s)
    ensures InHandMoves(s, Step(b, s, e), e)
  {
    var t := Step(b, s, e);
    StepLock(b, s, e);
    hide Step, LockOk;
    match MoveOf(s, t, e)
    case Sends => InHandSends(s, t, e.id);
    case Settles(ok) => InHandSettles(s, t, e.id, ok);
    case _ => InHandFrame(s, t, e.id, MoveOf(s, t, e));
  }

  // ---------------------------------------------------------------------------------------------------------------
  // The log of what was sent.

  predicate WasSent(stage: Stage) {
    (stage.Settled? && stage.failure.None?) || stage.Confirming? || (stage.Done? && stage.failure.None?)
  }

  /** What a step does to the log: nothing, or add the transaction its request was sending. */
  ghost predicate LogMoves(s: State, t: State, id: nat) {
    var before, after := ClientOf(s, id).stage, ClientOf(t, id).stage;
    && s.lock.order <= t.lock.order && s.lock.settled <= t.lock.settled
    && if t.log == s.log then
         (WasSent(after) <==> WasSent(before)) && (WasSent(after) ==> after.limits == before.limits)
       else
         && before.Sending? && WasSent(after) && after.limits == before.limits && t.log == s.log + [before.tx]
         && s.lock.settled < |s.lock.order| && s.lock.order[s.lock.settled] == id && t.lock.settled == s.lock.settled + 1
  }

  lemma SentLogs(b: Budget, s: State, e: Event)
    requires Enabled(s, e) && LockOk(s) && e.Sent?
    ensures LogMoves(s, Step(b, s, e), e.id)
  {
    OneSends(s, e.id);
    hide LockOk;
    assert s.log + [s.clients[e.id].stage.tx] != s.log;
  }

  lemma OthersLogNothing(b: Budget, s: State, e: Event)
    requires Enabled(s, e) && !e.Sent? && !e.Estimated?
    ensures LogMoves(s, Step(b, s, e), e.id)
  {
    hide Rule, SendLock.CanStart, SendLock.CanPass;
  }

  lemma EstimatedLogsNothing(b: Budget, s: State, e: Event)
    requires Enabled(s, e) && e.Estimated?
    ensures LogMoves(s, Step(b, s, e), e.id)
  {
    hide Rule;
  }

  lemma StepLog(b: Budget, s: State, e: Event)
    requires Enabled(s, e) && LockOk(s)
    ensures LogMoves(s, Step(b, s, e), e.id)
  {
    hide Step, LogMoves, Enabled, LockOk;
    match e
    case Sent(_, _) => SentLogs(b, s, e);
    case Estimated(_, _, _) => EstimatedLogsNothing(b, s, e);
    case _ => OthersLogNothing(b, s, e);
  }

  /** A logged transaction is its request's, sent when its turn at the lock came. */
  ghost predicate EntryOk(s: State, tx: Tx) {
    && tx.id in s.clients
    && s.clients[tx.id].job == tx.job
    && WasSent(s.clients[tx.id].stage)
    && s.clients[tx.id].stage.limits == tx.limits
    && tx.turn < s.lock.settled && tx.turn < |s.lock.order|
    && s.lock.order[tx.turn] == tx.id
  }

  /** A request is answered with a transaction exactly when the log has it, once, in the order of the lock. */
  ghost predicate LogOk(s: State) {
    && (forall a :: 0 <= a < |s.log| ==> EntryOk(s, s.log[a]))
    && (forall a, b :: 0 <= a < b < |s.log| ==> s.log[a].turn < s.log[b].turn && s.log[a].id != s.log[b].id)
    && (forall id <- s.clients :: WasSent(s.clients[id].stage) ==> exists a :: 0 <= a < |s.log| && s.log[a].id == id)
  }

  lemma EntryStays(s: State, t: State, id: nat, tx: Tx)
    requires Moves(s, t, id) && LogMoves(s, t, id) && EntryOk(s, tx)
    ensures EntryOk(t, tx) && (t.log == s.log || tx.id != id)
  {
  }

  lemma NewEntry(s: State, t: State, id: nat)
    requires Moves(s, t, id) && LogMoves(s, t, id) && LockOk(s) && t.log != s.log
    ensures EntryOk(t, t.log[|s.log|]) && t.log[|s.log|].id == id && t.log[|s.log|].turn == s.lock.settled
  {
    assert SendsItsOwn(s.lock, id, s.clients[id]);
    hide LockOk;
  }

  lemma EntriesStay(s: State, t: State, id: nat)
    requires Moves(s, t, id) && LogMoves(s, t, id) && LockOk(s) && LogOk(s)
    ensures forall a :: 0 <= a < |t.log| ==> EntryOk(t, t.log[a])
    ensures forall a, b :: 0 <= a < b < |t.log| ==> t.log[a].turn < t.log[b].turn && t.log[a].id != t.log[b].id
  {
    forall a | 0 <= a < |s.log|
      ensures EntryOk(t, s.log[a]) && s.log[a].turn < s.lock.settled && (t.log == s.log || s.log[a].id != id)
    {
      EntryStays(s, t, id, s.log[a]);
    }
    if t.log != s.log {
      NewEntry(s, t, id);
    }
    hide LockOk, Moves, EntryOk;
  }

  lemma LogStep(s: State, t: State, id: nat)
    requires Moves(s, t, id) && LogMoves(s, t, id) && LockOk(s) && LogOk(s)
    ensures LogOk(t)
  {
    EntriesStay(s, t, id);
    if t.log != s.log {
      NewEntry(s, t, id);
    }
    hide LockOk, EntryOk;
    forall other | other in t.clients && WasSent(t.clients[other].stage)
      ensures exists a :: 0 <= a < |t.log| && t.log[a].id == other
    {
      if other in s.clients && WasSent(s.clients[other].stage) {
        var a :| 0 <= a < |s.log| && s.log[a].id == other;
        assert t.log[a] == s.log[a];
      }
    }
  }

  // ---------------------------------------------------------------------------------------------------------------
  // The faucet.

  /** What a step does to the accounts the faucet has paid. */
  ghost predicate FaucetMoves(s: State, t: State, id: nat) {
    var before, after, job := ClientOf(s, id).stage, ClientOf(t, id).stage, ClientOf(t, id).job;
    && (t.reserved.funded == s.reserved.funded ||
        (job.Grant? && WasSent(before) && after.Done? && t.reserved.funded == s.reserved.funded + {job.Key()}))
    && (job.Grant? && WasSent(after) && after.Done? && !before.Done? ==> job.Key() in t.reserved.funded)
    && (before.Done? ==> after == before)
    && (t.reserved.granting <= s.reserved.granting || t.reserved.granting == s.reserved.granting + {job.Key()})
    && t.reserved.granting !! (t.reserved.funded - s.reserved.funded)
    && (t.reserved.granting - s.reserved.granting) !! s.reserved.funded
  }

  lemma StepFaucet(b: Budget, s: State, e: Event)
    requires Enabled(s, e)
    ensures FaucetMoves(s, Step(b, s, e), e.id)
  {
  }

  predicate GrantsTo(tx: Tx, key: string) {
    tx.job.Grant? && tx.job.Key() == key
  }

  /** A logged grant went to an account that was not paid before, and is remembered once its request is done. */
  ghost predicate GrantOk(initial: set<string>, s: State, tx: Tx) {
    tx.job.Grant? ==>
      tx.job.Key() !in initial && (ClientOf(s, tx.id).stage.Done? ==> tx.job.Key() in s.reserved.funded)
  }

  ghost predicate GrantsOk(initial: set<string>, s: State) {
    forall a :: 0 <= a < |s.log| ==> GrantOk(initial, s, s.log[a])
  }

  /** No two grants went to one account. */
  ghost predicate GrantsOnce(log: seq<Tx>) {
    forall a, b :: 0 <= a < b < |log| && log[a].job.Grant? && log[b].job.Grant? ==> log[a].job.Key() != log[b].job.Key()
  }

  ghost predicate WasGranted(log: seq<Tx>, key: string) {
    exists a :: 0 <= a < |log| && GrantsTo(log[a], key)
  }

  /** The accounts remembered as paid are those remembered at the start and those that a grant went to. */
  ghost predicate FaucetOk(initial: set<string>, s: State) {
    && initial <= s.reserved.funded
    && s.reserved.granting !! s.reserved.funded
    && GrantsOk(initial, s)
    && GrantsOnce(s.log)
    && forall key <- s.reserved.funded - initial :: WasGranted(s.log, key)
  }

  /** While a request holds an account for the faucet, the log has no grant to that account. */
  lemma NoGrantYet(initial: set<string>, s: State, id: nat, a: nat)
    requires Held(s) && LogOk(s) && FaucetOk(initial, s)
    requires id in s.clients && GrantOf(s.clients[id]).Some? && !WasSent(s.clients[id].stage)
    requires a < |s.log| && s.log[a].job.Grant?
    ensures s.log[a].job.Key() != s.clients[id].job.Key()
  {
    var tx := s.log[a];
    assert EntryOk(s, tx) && GrantOk(initial, s, tx);
    HeldIsTaken(s, id);
    if !s.clients[tx.id].stage.Done? {
      HeldOnce(s, tx.id, id);
    }
  }

  lemma GrantStays(initial: set<string>, s: State, t: State, id: nat, tx: Tx)
    requires Moves(s, t, id) && FaucetMoves(s, t, id) && EntryOk(s, tx) && EntryOk(t, tx) && GrantOk(initial, s, tx)
    ensures GrantOk(initial, t, tx)
  {
  }

  lemma NoGrantsYet(initial: set<string>, s: State, id: nat)
    requires Held(s) && LogOk(s) && FaucetOk(initial, s)
    requires id in s.clients && GrantOf(s.clients[id]).Some? && !WasSent(s.clients[id].stage)
    ensures forall a :: 0 <= a < |s.log| && s.log[a].job.Grant? ==> s.log[a].job.Key() != s.clients[id].job.Key()
    ensures s.clients[id].job.Key() !in s.reserved.funded
  {
    HeldIsTaken(s, id);
    forall a | 0 <= a < |s.log| && s.log[a].job.Grant? ensures s.log[a].job.Key() != s.clients[id].job.Key() {
      NoGrantYet(initial, s, id, a);
    }
  }

  lemma NewGrant(initial: set<string>, s: State, t: State, id: nat)
    requires Moves(s, t, id) && LogMoves(s, t, id) && FaucetMoves(s, t, id) && t.log != s.log
    requires Held(s) && LockOk(s) && LogOk(s) && FaucetOk(initial, s)
    ensures GrantOk(initial, t, t.log[|s.log|]) && GrantsOnce(t.log)
  {
    assert SendsItsOwn(s.lock, id, s.clients[id]);
    var tx := s.clients[id].stage.tx;
    if tx.job.Grant? {
      NoGrantsYet(initial, s, id);
    }
    OnceMore(s.log, tx);
  }

  lemma OnceMore(log: seq<Tx>, tx: Tx)
    requires GrantsOnce(log)
    requires tx.job.Grant? ==> forall a :: 0 <= a < |log| && log[a].job.Grant? ==> log[a].job.Key() != tx.job.Key()
    ensures GrantsOnce(log + [tx])
  {
  }

  lemma RequestWasGranted(s: State, id: nat)
    requires LogOk(s) && id in s.clients && WasSent(s.clients[id].stage) && s.clients[id].job.Grant?
    ensures WasGranted(s.log, s.clients[id].job.Key())
  {
    var a :| 0 <= a < |s.log| && s.log[a].id == id;
    assert EntryOk(s, s.log[a]);
    assert GrantsTo(s.log[a], s.clients[id].job.Key());
  }

  lemma WasGrantedStays(log: seq<Tx>, more: seq<Tx>, key: string)
    requires WasGranted(log, key)
    ensures WasGranted(log + more, key)
  {
    var a :| 0 <= a < |log| && GrantsTo(log[a], key);
    assert GrantsTo((log + more)[a], key);
  }

  lemma FundedWasGranted(initial: set<string>, s: State, t: State, id: nat, key: string)
    requires Moves(s, t, id) && LogMoves(s, t, id) && FaucetMoves(s, t, id) && LogOk(s) && FaucetOk(initial, s)
    requires key in t.reserved.funded - initial
    ensures WasGranted(t.log, key)
  {
    if key !in s.reserved.funded {
      RequestWasGranted(s, id);
    }
    WasGrantedStays(s.log, t.log[|s.log|..], key);
    assert t.log == s.log + t.log[|s.log|..];
  }

  lemma FaucetStep(initial: set<string>, s: State, t: State, id: nat)
    requires Moves(s, t, id) && LogMoves(s, t, id) && FaucetMoves(s, t, id)
    requires Held(s) && LockOk(s) && LogOk(s) && LogOk(t) && FaucetOk(initial, s)
    ensures FaucetOk(initial, t)
  {
    if t.log != s.log {
      NewGrant(initial, s, t, id);
    }
    forall a | 0 <= a < |s.log| ensures GrantOk(initial, t, s.log[a]) {
      assert t.log[a] == s.log[a] && EntryOk(t, t.log[a]);
      GrantStays(initial, s, t, id, s.log[a]);
    }
    forall key | key in t.reserved.funded - initial ensures WasGranted(t.log, key) {
      FundedWasGranted(initial, s, t, id, key);
    }
  }

  // ---------------------------------------------------------------------------------------------------------------
  // The limiters.

  /** The calls of one limiter that let these transactions through. */
  function CallsOf(which: Limiter, txs: seq<Tx>): seq<nat> {
    if txs == [] then []
    else
      var tx := txs[|txs| - 1];
      CallsOf(which, txs[..|txs| - 1]) + (if which in tx.paid then [tx.paid[which]] else [])
  }

  lemma CallsOfOneMore(which: Limiter, txs: seq<Tx>, tx: Tx)
    ensures CallsOf(which, txs + [tx]) == CallsOf(which, txs) + (if which in tx.paid then [tx.paid[which]] else [])
  {
    assert (txs + [tx])[..|txs|] == txs;
  }

  /** What was sent and what is being sent. */
  function LetThrough(s: State): seq<Tx> {
    s.log + (if InHand(s).Some? then [InHand(s).value] else [])
  }

  ghost predicate OncePerLimiter(demands: seq<Demand>) {
    forall i, j :: 0 <= i < j < |demands| ==> demands[i].limiter != demands[j].limiter
  }

  /** These demands ask `which`, and every limiter before it grants its own. */
  ghost predicate Reached(b: Budget, books: Books, demands: seq<Demand>, now: nat, which: Limiter) {
    && demands != []
    && (demands[0].limiter == which ||
        (&& Allows(books.Calls(demands[0].limiter), b.Limit(demands[0].limiter), Request(demands[0].key, demands[0].weight, now))
         && Reached(b, books, demands[1..], now, which)))
  }

  /** What `which` is asked, if it is. */
  function AskedOf(demands: seq<Demand>, which: Limiter): Option<Demand> {
    if demands == [] then None
    else if demands[0].limiter == which then Some(demands[0])
    else AskedOf(demands[1..], which)
  }

  /** What asking one limiter after the other does to one of them. */
  ghost predicate Asked(b: Budget, books: Books, demands: seq<Demand>, now: nat, paid: map<Limiter, nat>, taken: Taken, which: Limiter) {
    var calls := books.Calls(which);
    if Reached(b, books, demands, now, which) && AskedOf(demands, which).Some? then
      var d := AskedOf(demands, which).value;
      var call := Request(d.key, d.weight, now);
      && taken.books.Calls(which) == calls + [call] && taken.books.clock == now
      && if Allows(calls, b.Limit(which), call) then which in taken.paid && taken.paid[which] == |calls| && taken.refused != Some(which)
         else taken.refused == Some(which) && (which in taken.paid <==> which in paid)
    else
      && taken.books.Calls(which) == calls && taken.refused != Some(which)
      && (which in taken.paid <==> which in paid) && (which in paid ==> taken.paid[which] == paid[which])
  }

  /** Another limiter's call changes nothing about what this one will answer, nor about whether it is reached. */
  lemma {:induction false} ReachedAfter(b: Budget, books: Books, demands: seq<Demand>, now: nat, which: Limiter, other: Limiter, call: Request)
    requires forall d <- demands :: d.limiter != other
    ensures Reached(b, books.Called(other, call), demands, now, which) == Reached(b, books, demands, now, which)
  {
    if demands != [] {
      assert demands[0] in demands;
      ReachedAfter(b, books, demands[1..], now, which, other, call);
    }
  }

  lemma {:induction false} AskedOfNone(demands: seq<Demand>, which: Limiter)
    requires forall d <- demands :: d.limiter != which
    ensures AskedOf(demands, which) == None
  {
    if demands != [] {
      AskedOfNone(demands[1..], which);
    }
  }

  ghost predicate TakesAsAsked(b: Budget, books: Books, demands: seq<Demand>, now: nat, paid: map<Limiter, nat>, taken: Taken, which: Limiter) {
    && Asked(b, books, demands, now, paid, taken, which)
    && books.clock <= taken.books.clock <= now
    && (taken.refused.None? && AskedOf(demands, which).Some? ==> Reached(b, books, demands, now, which))
  }

  /** The first of the demands is granted. */
  lemma FirstGranted(b: Budget, books: Books, demands: seq<Demand>, now: nat, paid: map<Limiter, nat>, taken: Taken, which: Limiter)
    requires demands != [] && books.clock <= now && forall d <- demands[1..] :: d.limiter != demands[0].limiter
    requires var call := Request(demands[0].key, demands[0].weight, now);
             var calls := books.Calls(demands[0].limiter);
             && Allows(calls, b.Limit(demands[0].limiter), call)
             && TakesAsAsked(b, books.Called(demands[0].limiter, call), demands[1..], now, paid[demands[0].limiter := |calls|], taken, which)
    ensures TakesAsAsked(b, books, demands, now, paid, taken, which)
  {
    var d, rest := demands[0], demands[1..];
    ReachedAfter(b, books, rest, now, which, d.limiter, Request(d.key, d.weight, now));
    hide Allows;
    if which == d.limiter {
      AskedOfNone(rest, which);
    } else {
      assert Reached(b, books, demands, now, which) == Reached(b, books, rest, now, which);
      assert AskedOf(demands, which) == AskedOf(rest, which);
      hide Reached, AskedOf;
    }
  }

  lemma {:induction false} TakeAllAsks(b: Budget, books: Books, demands: seq<Demand>, now: nat, paid: map<Limiter, nat>, which: Limiter)
    requires OncePerLimiter(demands) && books.clock <= now
    ensures TakesAsAsked(b, books, demands, now, paid, TakeAll(b, books, demands, now, paid), which)
    decreases |demands|
  {
    if demands != [] {
      var d, rest := demands[0], demands[1..];
      var call := Request(d.key, d.weight, now);
      if Allows(books.Calls(d.limiter), b.Limit(d.limiter), call) {
        FirstIsOnce(demands);
        TakeAllAsks(b, books.Called(d.limiter, call), rest, now, paid[d.limiter := |books.Calls(d.limiter)|], which);
        hide Allows, OncePerLimiter, TakesAsAsked;
        FirstGranted(b, books, demands, now, paid, TakeAll(b, books, demands, now, paid), which);
      } else {
        hide Allows, OncePerLimiter;
      }
    }
  }

  lemma FirstIsOnce(demands: seq<Demand>)
    requires OncePerLimiter(demands) && demands != []
    ensures OncePerLimiter(demands[1..]) && forall d <- demands[1..] :: d.limiter != demands[0].limiter
  {
    forall d | d in demands[1..] ensures d.limiter != demands[0].limiter {
      var k :| 0 <= k < |demands[1..]| && demands[1..][k] == d;
      assert demands[k + 1] == d;
    }
  }

  // ---------------------------------------------------------------------------------------------------------------
  // The ledgers.

  /** The limiters a transaction has to pass. */
  function Asks(job: Job, limits: Limits): set<Limiter> {
    match job
    case Deploy(_) => {PerVisitor, NewAccounts, GasPerDay}
    case Grant(_) => {GrantsPerDay, GasPerDay}
    case Relay(_, _, _) => if limits.defends then {} else if limits.waived then {Unpaid, GasPerDay} else {GasPerDay}
  }

  /** Whom a limiter counts a transaction for. */
  function CountedFor(which: Limiter, job: Job): string {
    match which
    case PerVisitor => "accounts:" + (if job.Deploy? then job.visitor else "")
    case Unpaid => job.Key()
    case _ => ALL
  }

  /** How much of a limiter a transaction takes: the gas budget counts its estimated gas, the others count transactions. */
  function Weight(which: Limiter, gas: nat): nat {
    if which.GasPerDay? then gas else 1
  }

  /** The call a transaction with this gas makes of a limiter. */
  function CallOf(which: Limiter, job: Job, gas: nat, now: nat): Request {
    Request(CountedFor(which, job), Weight(which, gas), now)
  }

  lemma DemandsAsk(job: Job, limits: Limits, gas: nat, which: Limiter)
    ensures OncePerLimiter(Demands(job, limits, gas))
    ensures AskedOf(Demands(job, limits, gas), which)
            == if which in Asks(job, limits) then Some(Demand(which, CountedFor(which, job), Weight(which, gas))) else None
  {
    var demands := Demands(job, limits, gas);
    if demands != [] {
      AskedOfLast(demands[|demands| - 1], which);
      assert |demands| >= 2 ==> demands[1..] == (if |demands| == 2 then [demands[1]] else [demands[1], demands[2]]);
      assert |demands| == 3 ==> demands[1..][1..] == [demands[2]];
    }
  }

  lemma AskedOfLast(d: Demand, which: Limiter)
    ensures AskedOf([d], which) == if d.limiter == which then Some(d) else None
  {
    assert [d][1..] == [];
  }

  /** What is decided about a transaction, as one limiter sees it. */
  ghost predicate RuledBy(b: Budget, books: Books, job: Job, limits: Limits, now: nat, ruling: Ruling, which: Limiter) {
    var calls := books.Calls(which);
    var call := CallOf(which, job, ruling.tx.gas, now);
    && books.clock <= ruling.books.clock <= now
    && (|| ruling.books.Calls(which) == calls
        || (which in Asks(job, limits) && ruling.books.Calls(which) == calls + [call] && ruling.books.clock == now))
    && (ruling.failure.None? ==>
          && (which in ruling.tx.paid <==> which in Asks(job, limits))
          && (which in ruling.tx.paid ==>
                ruling.books.Calls(which) == calls + [call] && ruling.tx.paid[which] == |calls| && Allows(calls, b.Limit(which), call)))
  }

  lemma RuleIs(b: Budget, books: Books, id: nat, turn: nat, job: Job, limits: Limits, gas: Option<Gas>, now: nat, which: Limiter)
    requires books.clock <= now
    ensures RuledBy(b, books, job, limits, now, Rule(b, books, id, turn, job, limits, gas, now), which)
  {
    if gas.Some? && gas.value <= MAX_GAS {
      DemandsAsk(job, limits, gas.value, which);
      TakeAllAsks(b, books, Demands(job, limits, gas.value), now, map[], which);
    }
    hide Demands, TakeAll, OncePerLimiter, Asks, AskedOf, Allows;
  }

  ghost predicate LedgerOk(limit: nat, calls: seq<Request>, spent: seq<nat>, clock: nat) {
    && InOrder(calls)
    && (forall i :: 0 <= i < |calls| ==> calls[i].now <= clock)
    && ArePaid(calls, limit, DAY_MS, spent)
  }

  /** What a step does to a limiter's calls, and to those that let a transaction through. */
  ghost predicate LedgerMoves(limit: nat, calls: seq<Request>, spent: seq<nat>, clock: nat,
                              calls': seq<Request>, spent': seq<nat>, clock': nat)
  {
    && clock <= clock'
    && (|| (calls' == calls && (spent' == spent || (spent != [] && spent' == spent[..|spent| - 1])))
        || (|calls'| == |calls| + 1 && calls' == calls + [calls'[|calls|]] && calls'[|calls|].now == clock'
            && (spent' == spent || (spent' == spent + [|calls|] && Allows(calls, limit, calls'[|calls|])))))
  }

  lemma LedgerStep(limit: nat, calls: seq<Request>, spent: seq<nat>, clock: nat, calls': seq<Request>, spent': seq<nat>, clock': nat)
    requires LedgerOk(limit, calls, spent, clock) && LedgerMoves(limit, calls, spent, clock, calls', spent', clock')
    ensures LedgerOk(limit, calls', spent', clock')
  {
    if calls' != calls {
      var more := calls'[|calls|];
      PaidStays(calls, more, limit, DAY_MS, spent);
      AfterPrefix(calls, more, limit, DAY_MS, |calls|);
    }
  }

  /** The decision behind an `Estimated` event. */
  function RulingOf(b: Budget, s: State, e: Event): Ruling
    requires Enabled(s, e) && e.Estimated?
  {
    Rule(b, s.books, e.id, s.lock.settled, s.clients[e.id].job, s.clients[e.id].stage.limits, e.gas, e.now)
  }

  /** What an event does to the books and to what was let through. */
  ghost predicate BooksMove(b: Budget, s: State, e: Event)
    requires Enabled(s, e)
  {
    var t := Step(b, s, e);
    if e.Estimated? then
      var ruling := RulingOf(b, s, e);
      && t.books == ruling.books
      && LetThrough(s) == s.log && LetThrough(t) == (if ruling.failure.None? then s.log + [ruling.tx] else s.log)
    else
      && t.books == s.books
      && (LetThrough(t) == LetThrough(s) || (LetThrough(s) != [] && LetThrough(t) == LetThrough(s)[..|LetThrough(s)| - 1]))
  }

  lemma StepBooks(b: Budget, s: State, e: Event)
    requires Enabled(s, e) && LockOk(s)
    ensures BooksMove(b, s, e)
  {
    var t := Step(b, s, e);
    InHandStep(b, s, e);
    hide LockOk, InHand, Rule;
    match e
    case Estimated(_, _, _) => EstimatedBooks(b, s, e);
    case Sent(_, _) => SentBooks(b, s, e);
    case _ => OtherBooks(b, s, e);
  }

  lemma EstimatedBooks(b: Budget, s: State, e: Event)
    requires Enabled(s, e) && InHandMoves(s, Step(b, s, e), e) && LockOk(s) && e.Estimated?
    ensures BooksMove(b, s, e)
  {
    OneSends(s, e.id);
    hide Rule, LockOk;
  }

  lemma SentBooks(b: Budget, s: State, e: Event)
    requires Enabled(s, e) && InHandMoves(s, Step(b, s, e), e) && e.Sent?
    ensures BooksMove(b, s, e)
  {
    hide InHand;
  }

  lemma OtherBooks(b: Budget, s: State, e: Event)
    requires Enabled(s, e) && InHandMoves(s, Step(b, s, e), e) && !e.Sent? && !e.Estimated?
    ensures BooksMove(b, s, e)
  {
    hide InHand, SendLock.CanStart, SendLock.CanPass;
  }

  ghost predicate LedgerAt(b: Budget, s: State, which: Limiter) {
    LedgerOk(b.Limit(which), s.books.Calls(which), CallsOf(which, LetThrough(s)), s.books.clock)
  }

  /** Each limiter's ledger is in order: its granted calls each pay for at most one transaction. */
  ghost predicate BooksOk(b: Budget, s: State) {
    forall which: Limiter :: LedgerAt(b, s, which)
  }

  lemma CallsOfOneLess(which: Limiter, txs: seq<Tx>)
    requires txs != []
    ensures var calls := CallsOf(which, txs);
            var less := CallsOf(which, txs[..|txs| - 1]);
            less == calls || (calls != [] && less == calls[..|calls| - 1])
  {
  }

  lemma LedgerAtStep(b: Budget, s: State, e: Event, which: Limiter)
    requires Enabled(s, e) && BooksMove(b, s, e) && LedgerAt(b, s, which)
    ensures LedgerAt(b, Step(b, s, e), which)
  {
    var t := Step(b, s, e);
    if e.Estimated? {
      var client := s.clients[e.id];
      RuleIs(b, s.books, e.id, s.lock.settled, client.job, client.stage.limits, e.gas, e.now, which);
      CallsOfOneMore(which, s.log, RulingOf(b, s, e).tx);
    } else if LetThrough(s) != [] {
      CallsOfOneLess(which, LetThrough(s));
    }
    hide Step, Rule, LedgerOk, LetThrough, Allows, CallsOf, CallOf, Asks;
    LedgerStep(b.Limit(which), s.books.Calls(which), CallsOf(which, LetThrough(s)), s.books.clock,
               t.books.Calls(which), CallsOf(which, LetThrough(t)), t.books.clock);
  }

  lemma BooksStep(b: Budget, s: State, e: Event)
    requires Enabled(s, e) && LockOk(s) && BooksOk(b, s)
    ensures BooksOk(b, Step(b, s, e))
  {
    StepBooks(b, s, e);
    hide Step, Enabled, BooksMove, LockOk, LedgerAt;
    forall which: Limiter ensures LedgerAt(b, Step(b, s, e), which) {
      LedgerAtStep(b, s, e, which);
    }
  }

  /** The transaction passed `which` with one of its calls exactly if it had to. */
  ghost predicate ChargedBy(books: Books, tx: Tx, which: Limiter) {
    && (which in tx.paid <==> which in Asks(tx.job, tx.limits))
    && (which in tx.paid ==>
          && tx.paid[which] < |books.Calls(which)|
          && books.Calls(which)[tx.paid[which]] == CallOf(which, tx.job, tx.gas, tx.at))
  }

  /** A transaction passed each limiter it had to and no other, and is sent with a fifth more gas than was counted. */
  ghost predicate Charged(books: Books, tx: Tx) {
    (forall which: Limiter :: ChargedBy(books, tx, which)) && tx.gas <= MAX_GAS && tx.gasLimit == GasLimit(tx.gas)
  }

  ghost predicate ChargesOk(s: State) {
    forall i :: 0 <= i < |LetThrough(s)| ==> Charged(s.books, LetThrough(s)[i])
  }

  lemma ChargedStays(b: Budget, s: State, e: Event, tx: Tx)
    requires Enabled(s, e) && e.Estimated? && Charged(s.books, tx)
    ensures Charged(RulingOf(b, s, e).books, tx)
  {
    var client := s.clients[e.id];
    var books := RulingOf(b, s, e).books;
    forall which: Limiter ensures ChargedBy(books, tx, which) {
      assert ChargedBy(s.books, tx, which);
      RuleIs(b, s.books, e.id, s.lock.settled, client.job, client.stage.limits, e.gas, e.now, which);
      hide Rule, Enabled, Asks, Allows;
    }
  }

  lemma RulingCharges(b: Budget, s: State, e: Event)
    requires Enabled(s, e) && e.Estimated? && RulingOf(b, s, e).failure.None?
    ensures Charged(RulingOf(b, s, e).books, RulingOf(b, s, e).tx)
  {
    var client := s.clients[e.id];
    var ruling := RulingOf(b, s, e);
    assert ruling.tx.job == client.job && ruling.tx.limits == client.stage.limits && ruling.tx.at == e.now;
    assert ruling.tx.gas <= MAX_GAS && ruling.tx.gasLimit == GasLimit(ruling.tx.gas);
    forall which: Limiter ensures ChargedBy(ruling.books, ruling.tx, which) {
      RuleIs(b, s.books, e.id, s.lock.settled, client.job, client.stage.limits, e.gas, e.now, which);
      hide Rule, Enabled, Asks, Allows;
    }
  }

  lemma ChargesStep(b: Budget, s: State, e: Event)
    requires Enabled(s, e) && LockOk(s) && ChargesOk(s)
    ensures ChargesOk(Step(b, s, e))
  {
    StepBooks(b, s, e);
    hide Step, Enabled, LockOk, LetThrough, Charged, Rule;
    var t := Step(b, s, e);
    forall i | 0 <= i < |LetThrough(t)| ensures Charged(t.books, LetThrough(t)[i]) {
      if i < |LetThrough(s)| {
        assert LetThrough(t)[i] == LetThrough(s)[i];
        if e.Estimated? {
          ChargedStays(b, s, e, LetThrough(s)[i]);
        }
      } else {
        RulingCharges(b, s, e);
      }
    }
  }
}
