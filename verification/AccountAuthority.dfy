/**
 * When each call goes through, and why one fails, from conditions on the call and the storage alone
 * (contracts/stylus/account/src/lib.rs).
 */
module AccountAuthority {
  import opened Primitives
  import opened Changes
  import opened Spending
  import opened AccountSpec
  import opened AccountInvariant
  import opened AccountRuns
  import opened AccountReplay
  import opened AccountGuardian
  import opened AccountSpending
  import opened AccountPayments

  /** The payment whose sheet an authorization may have been given on. */
  function SheetOf(call: Call): Option<Payment> {
    if call.Pay? then Some(Payment(call.to, call.amount + call.auth.fee)) else None
  }

  /** The client data is genuine, over this very action, and a payment sheet's showed this payment to this account's party. */
  predicate Attests(data: ClientData, action: B256, sheet: Option<Payment>) {
    && data.early == None && data.late == None
    && data.challenge == action
    && (data.spc ==> data.partyOk && sheet == Some(Payment(data.payee, data.total)))
  }

  /** A current owner proved, not long ago and not for longer than ten minutes, that it wants exactly this call from the account as it is. */
  predicate IsProved(s: Account, env: Env, call: Call)
    requires AuthOf(call).Some?
  {
    var auth := AuthOf(call).value;
    && auth.proofOk
    && OwnerKey(s.ownership.epoch, auth.nullifier) in s.ownership.keys
    && Attests(auth.clientData, Keccak(ActionPreimage(Meaning(s, env, call))), SheetOf(call))
    && env.now <= auth.deadline <= env.now + 600
    && auth.fee <= s.config.maxFee
    && s.initialized
  }

  /** The change may be scheduled: well-formed, not a freeze, not waiting already, and no owner twice, unknown or the last. */
  ghost predicate MaySchedule(s: Account, kind: nat, payload: Payload) {
    && kind != FREEZE && IsValid(kind, payload) && KeepsFeesPayable(kind, payload, s.config.maxFee)
    && (forall id <- s.pending :: s.pending[id].payloadHash != DataHash(kind, payload))
    && (kind == ADD_OWNER ==> OwnerKey(s.ownership.epoch, payload.words[0]) !in s.ownership.keys)
    && (kind == REMOVE_OWNER ==>
          && OwnerKey(s.ownership.epoch, payload.words[0]) in s.ownership.keys
          && s.ownership.count >= 2 + |set id | id in s.pending && s.pending[id].kind == REMOVE_OWNER|)
  }

  /** The sender knows the salt under which it is this account's guardian. */
  predicate HoldsOffice(s: Account, env: Env, salt: B256) {
    s.guardian == Keccak(GuardianPreimage(env.self, env.sender, salt))
  }

  predicate IsDue(s: Account, env: Env, call: Call)
    requires call.ApplyChange?
  {
    && call.changeId in s.pending
    && var change := s.pending[call.changeId];
    && change.kind == call.kind && change.payloadHash == DataHash(call.kind, call.payload)
    && change.eta <= env.now
  }

  /** Caps that fit 128 bits and leave every fee payable, delays of at most thirty days, and an origin to sign for. */
  predicate IsReasonable(policy: Policy) {
    && 0 < policy.perTxCap <= policy.dailyCap < 340282366920938463463374607431768211456
    && policy.newPayeeCap < 340282366920938463463374607431768211456
    && policy.maxFee <= policy.perTxCap && policy.maxFee < 18446744073709551616
    && policy.changeDelay <= 2592000 && policy.recoveryDelay <= 2592000
    && 1 <= policy.originLen <= 128
  }

  /** What a call needs to go through, whoever makes it. */
  ghost predicate MayGoThrough(s: Account, env: Env, call: Call) {
    match call
    case Initialize(appId, ownerNullifier, verifier, usdg, feeRecipient, policy) =>
      && !s.initialized
      && IsFieldElement(appId) && IsNullifier(ownerNullifier) && verifier != 0 && usdg != 0 && feeRecipient != 0
      && IsReasonable(policy)
    case Pay(to, amount, auth) => IsProved(s, env, call) && Obeys(s, env, to, amount, auth) && env.tokenOk
    case ScheduleChange(kind, payload, auth) =>
      && IsProved(s, env, call) && MaySchedule(s, kind, payload)
      && |s.pending| < 8
      && s.window.Already(env.now) + auth.fee <= s.rules.dailyCap
      && (auth.fee == 0 || env.tokenOk)
    case Restrict(kind, payload, auth) =>
      && IsProved(s, env, call)
      && IsRestrictive(kind, payload, Limits(s.rules.perTxCap, s.rules.dailyCap, s.rules.newPayeeCap))
      && KeepsFeesPayable(kind, payload, s.config.maxFee)
      && FeeGoesThrough(s, env, auth)
    case ApplyChange(_, _, _) => IsDue(s, env, call)
    case CancelChange(changeId, auth) => IsProved(s, env, call) && changeId in s.pending && FeeGoesThrough(s, env, auth)
    case GuardianCancelChange(changeId, salt) =>
      HoldsOffice(s, env, salt) && changeId in s.pending && s.pending[changeId].kind != SET_GUARDIAN
    case GuardianFreeze(salt) => HoldsOffice(s, env, salt)
    case InitiateRecovery(newNullifier, salt) => HoldsOffice(s, env, salt) && IsNullifier(newNullifier)
    case ExecuteRecovery => 0 < s.recovery.eta <= env.now
    case CancelRecovery(auth) => IsProved(s, env, call) && 0 < s.recovery.eta && FeeGoesThrough(s, env, auth)
    case GuardianCancelRecovery(salt) => HoldsOffice(s, env, salt) && 0 < s.recovery.eta
  }

  // ---------------------------------------------------------------------------------------------------------------
  // Every fault of a call, in the order the contract looks for them.

  function Check(holds: bool, e: Error): seq<Error> {
    if holds then [] else [e]
  }

  /** All that is wrong with an authorization for the call it comes with. */
  function AuthorityFaults(s: Account, env: Env, call: Call): seq<Error>
    requires AuthOf(call).Some?
  {
    var auth := AuthOf(call).value;
    var data, sheet := auth.clientData, SheetOf(call);
    Check(s.initialized, NotInitialized)
    + Check(auth.fee <= s.config.maxFee, FeeTooHigh)
    + Check(env.now <= auth.deadline, DeadlineExpired)
    + Check(auth.deadline <= env.now + 600, DeadlineTooFar)
    + Check(OwnerKey(s.ownership.epoch, auth.nullifier) in s.ownership.keys, NotOwner)
    + Check(data.spc ==> sheet.Some?, InvalidClientData(2))
    + (if data.early.Some? then [InvalidClientData(data.early.value)] else [])
    + Check(data.challenge == Keccak(ActionPreimage(Meaning(s, env, call))), InvalidClientData(3))
    + (if data.late.Some? then [InvalidClientData(data.late.value)] else [])
    + Check(data.spc ==> sheet == Some(Payment(data.payee, data.total)), InvalidClientData(7))
    + Check(data.spc ==> data.partyOk, InvalidClientData(8))
    + Check(auth.proofOk, InvalidProof)
  }

  function SpendFaults(s: Account, env: Env, amount: nat): seq<Error> {
    Check(amount <= s.rules.perTxCap, Error.PerTxCapExceeded)
    + Check(s.window.Already(env.now) + amount <= s.rules.dailyCap, Error.DailyCapExceeded)
  }

  function PaymentFaults(s: Account, env: Env, call: Call): seq<Error>
    requires call.Pay?
  {
    var Pay(to, amount, auth) := call;
    Check(!s.rules.frozen, AccountFrozen)
    + Check(amount > 0, InvalidAmount)
    + Check(to != 0 && to != env.self, InvalidRecipient)
    + Check(s.rules.allowlistEnabled ==> to in s.rules.allowedRecipients, RecipientNotAllowed)
    + Check(s.rules.paymentSheetRequired ==> auth.clientData.spc, PaymentSheetRequired)
    + Check(amount + auth.fee < TWO_256, InvalidAmount)
    + SpendFaults(s, env, amount + auth.fee)
    + Check(to in s.knownRecipients || to in s.rules.allowedRecipients || amount <= s.rules.newPayeeCap, NewPayeeCapExceeded)
  }

  ghost function ScheduleFaults(s: Account, kind: nat, payload: Payload): seq<Error> {
    Check(kind != FREEZE && IsValid(kind, payload) && KeepsFeesPayable(kind, payload, s.config.maxFee), InvalidChange)
    + Check(forall id <- s.pending :: s.pending[id].payloadHash != DataHash(kind, payload), ChangeAlreadyPending)
    + Check(kind == ADD_OWNER && |payload.words| > 0 ==> !s.Owns(payload.words[0]), AlreadyOwner)
    + Check(kind == REMOVE_OWNER && |payload.words| > 0 ==> s.Owns(payload.words[0]), NotOwner)
    + Check(kind == REMOVE_OWNER ==>
              s.ownership.count >= 2 + |set id | id in s.pending && s.pending[id].kind == REMOVE_OWNER|, LastOwner)
  }

  ghost function Faults(s: Account, env: Env, call: Call): seq<Error> {
    match call
    case Initialize(appId, ownerNullifier, verifier, usdg, feeRecipient, policy) =>
      Check(!s.initialized, AlreadyInitialized)
      + Check(IsFieldElement(appId) && IsNullifier(ownerNullifier) && verifier != 0 && usdg != 0 && feeRecipient != 0
              && IsReasonable(policy), InvalidConfig)
    case Pay(to, amount, auth) =>
      PaymentFaults(s, env, call)
      + AuthorityFaults(s, env, call)
      + Check(env.tokenOk, TokenTransferFailed)
    case ScheduleChange(kind, payload, auth) =>
      ScheduleFaults(s, kind, payload)
      + SpendFaults(s, env, auth.fee)
      + AuthorityFaults(s, env, call)
      + Check(|s.pending| < 8, TooManyPendingChanges)
      + Check(auth.fee == 0 || env.tokenOk, TokenTransferFailed)
    case Restrict(kind, payload, auth) =>
      Check(IsRestrictive(kind, payload, Limits(s.rules.perTxCap, s.rules.dailyCap, s.rules.newPayeeCap)), NotRestrictive)
      + Check(KeepsFeesPayable(kind, payload, s.config.maxFee), InvalidChange)
      + AuthorityFaults(s, env, call)
      + Check(FeeGoesThrough(s, env, auth), TokenTransferFailed)
    case ApplyChange(changeId, kind, payload) =>
      var waits := changeId in s.pending && s.pending[changeId].kind == kind && s.pending[changeId].payloadHash == DataHash(kind, payload);
      Check(s.initialized, NotInitialized)
      + Check(waits, UnknownChange)
      + Check(waits ==> s.pending[changeId].eta <= env.now, ChangeNotReady)
    case CancelChange(changeId, auth) =>
      Check(changeId in s.pending, UnknownChange)
      + AuthorityFaults(s, env, call)
      + Check(FeeGoesThrough(s, env, auth), TokenTransferFailed)
    case GuardianCancelChange(changeId, salt) =>
      Check(HoldsOffice(s, env, salt), NotGuardian)
      + Check(changeId in s.pending, UnknownChange)
      + Check(changeId in s.pending ==> s.pending[changeId].kind != SET_GUARDIAN, CannotVetoGuardianChange)
    case GuardianFreeze(salt) =>
      Check(s.initialized, NotInitialized) + Check(HoldsOffice(s, env, salt), NotGuardian)
    case InitiateRecovery(newNullifier, salt) =>
      Check(s.initialized, NotInitialized)
      + Check(HoldsOffice(s, env, salt), NotGuardian)
      + Check(IsNullifier(newNullifier), InvalidChange)
    case ExecuteRecovery =>
      Check(0 < s.recovery.eta, NoRecovery) + Check(s.recovery.eta <= env.now, RecoveryNotReady)
    case CancelRecovery(auth) =>
      Check(0 < s.recovery.eta, NoRecovery)
      + AuthorityFaults(s, env, call)
      + Check(FeeGoesThrough(s, env, auth), TokenTransferFailed)
    case GuardianCancelRecovery(salt) =>
      Check(HoldsOffice(s, env, salt), NotGuardian) + Check(0 < s.recovery.eta, NoRecovery)
  }

  /** The answer to a call whose faults, in order, are these. */
  ghost predicate Answers(outcome: Outcome, faults: seq<Error>) {
    if faults == [] then outcome.Ok? else outcome == Err(faults[0])
  }

  /** `Authorize` finds the first fault. */
  lemma AuthorityAnswers(s: Account, env: Env, call: Call, kind: nat, target: Address, amount: u256, dataHash: B256)
    requires AuthOf(call).Some?
    requires BuildAction(s, env, kind, target, amount, dataHash, AuthOf(call).value) == Meaning(s, env, call)
    ensures var r, faults := Authorize(s, env, kind, target, amount, dataHash, AuthOf(call).value, SheetOf(call)), AuthorityFaults(s, env, call);
            if faults == [] then r == Ok(Keccak(ActionPreimage(Meaning(s, env, call)))) else r == Err(faults[0])
  {
  }

  lemma PayAnswers(s: Account, env: Env, call: Call)
    requires call.Pay?
    ensures Answers(Step(s, env, call), Faults(s, env, call))
  {
    AuthorityAnswers(s, env, call, PAY, call.to, call.amount, ZERO_WORD);
    WindowAnswers(s, env, call);
    hide Authorize, PaymentWindow, AuthorityFaults;
  }

  lemma WindowAnswers(s: Account, env: Env, call: Call)
    requires call.Pay?
    ensures var faults := PaymentFaults(s, env, call);
            var window := PaymentWindow(s, env, call.to, call.amount, call.auth);
            if faults == [] then window.Ok? else window == Err(faults[0])
  {
  }

  lemma ScheduleAnswers(s: Account, env: Env, call: Call)
    requires call.ScheduleChange?
    ensures Answers(Step(s, env, call), Faults(s, env, call))
  {
    AuthorityAnswers(s, env, call, SCHEDULE_CHANGE, 0, 0, DataHash(call.kind, call.payload));
    CheckAnswers(s, call.kind, call.payload);
    hide Authorize, CheckSchedule, AuthorityFaults, ScheduleFaults;
  }

  lemma CheckAnswers(s: Account, kind: nat, payload: Payload)
    ensures var faults := ScheduleFaults(s, kind, payload);
            CheckSchedule(s, kind, payload) == if faults == [] then None else Some(faults[0])
  {
    assert Removals(s.pending) == set id | id in s.pending && s.pending[id].kind == REMOVE_OWNER;
  }

  lemma SafetyAnswers(s: Account, env: Env, call: Call)
    requires call.Restrict? || call.CancelChange? || call.CancelRecovery?
    ensures Answers(Step(s, env, call), Faults(s, env, call))
  {
    match call
    case Restrict(kind, payload, _) => AuthorityAnswers(s, env, call, RESTRICT, 0, 0, DataHash(kind, payload));
    case CancelChange(changeId, _) => AuthorityAnswers(s, env, call, CANCEL_CHANGE, 0, 0, changeId);
    case CancelRecovery(_) => AuthorityAnswers(s, env, call, CANCEL_RECOVERY, 0, 0, s.recovery.nullifier);
    hide Authorize, AuthorityFaults;
  }

  lemma OtherAnswers(s: Account, env: Env, call: Call)
    requires AuthOf(call).None? && !call.ApplyChange?
    ensures Answers(Step(s, env, call), Faults(s, env, call))
  {
  }

  lemma ApplyAnswers(s: Account, env: Env, call: Call)
    requires Inv(s) && call.ApplyChange?
    ensures Answers(Step(s, env, call), Faults(s, env, call))
  {
    if call.changeId in s.pending {
      WaitingApplies(s, call.changeId);
    }
    hide Inv, Apply, EntryOk;
  }

  lemma WaitingApplies(s: Account, id: B256)
    requires Inv(s) && id in s.pending
    ensures s.initialized && s.pending[id].ownerEpoch == s.ownership.epoch
    ensures forall payload :: s.pending[id].payloadHash == DataHash(s.pending[id].kind, payload) ==>
              Apply(s.(pending := s.pending - {id}), s.pending[id].kind, payload).Ok?
  {
    assert EntryOk(s, id, s.pending[id]);
    InvApplyWaiting(s, id);
    hide Inv, Apply, IsValid;
  }

  /** In every state of every run, a call is answered with the first of its faults, and goes through exactly when it has none. */
  lemma FirstFaultIsTheAnswer(r: Run, i: nat, env: Env, call: Call)
    requires IsRun(r) && i < |r.states|
    ensures Answers(Step(r.states[i], env, call), Faults(r.states[i], env, call))
  {
    Reachable(r, i);
    hide Step, Faults, Inv;
    match call
    case Pay(_, _, _) => PayAnswers(r.states[i], env, call);
    case ScheduleChange(_, _, _) => ScheduleAnswers(r.states[i], env, call);
    case Restrict(_, _, _) => SafetyAnswers(r.states[i], env, call);
    case CancelChange(_, _) => SafetyAnswers(r.states[i], env, call);
    case CancelRecovery(_) => SafetyAnswers(r.states[i], env, call);
    case ApplyChange(_, _, _) => ApplyAnswers(r.states[i], env, call);
    case _ => OtherAnswers(r.states[i], env, call);
  }

  lemma NoAuthorityFaults(s: Account, env: Env, call: Call)
    requires AuthOf(call).Some?
    ensures AuthorityFaults(s, env, call) == [] <==> IsProved(s, env, call)
  {
  }

  lemma NoFaults(s: Account, env: Env, call: Call)
    requires Inv(s)
    ensures Faults(s, env, call) == [] <==> MayGoThrough(s, env, call)
  {
    if AuthOf(call).Some? {
      NoAuthorityFaults(s, env, call);
    }
    hide IsProved, AuthorityFaults, OwnersOk, PendingOk, RecoveryOk;
  }

  /** In every state of every run, each call goes through exactly when it may: no condition is missing and none too many. */
  lemma CallsGoThrough(r: Run, i: nat, env: Env, call: Call)
    requires IsRun(r) && i < |r.states|
    ensures Step(r.states[i], env, call).Ok? <==> MayGoThrough(r.states[i], env, call)
  {
    Reachable(r, i);
    FirstFaultIsTheAnswer(r, i, env, call);
    NoFaults(r.states[i], env, call);
    hide Step, Faults, MayGoThrough;
  }

  /** Whatever an owner's authorization makes the account do, in any run, a current owner proved to want. */
  lemma AuthorizedMeansProved(r: Run, i: nat)
    requires IsRun(r) && i < |r.events| && Authorized(r, i)
    ensures IsProved(r.states[i], r.events[i].env, r.events[i].call)
  {
    assert StepAt(r, i);
    CallsGoThrough(r, i, r.events[i].env, r.events[i].call);
    hide Step;
  }

  // ---------------------------------------------------------------------------------------------------------------
  // What each call pays out.

  /** What `who` gets of these transfers. */
  function Received(transfers: seq<Transfer>, who: Address): nat {
    if transfers == [] then 0
    else Received(transfers[..|transfers| - 1], who) + (if transfers[|transfers| - 1].to == who then transfers[|transfers| - 1].amount else 0)
  }

  /** The fee a call that goes through pays: all of it, or for a safety action what the day's cap leaves of it. */
  function FeePaid(s: Account, env: Env, call: Call): nat {
    match call
    case Pay(_, _, auth) => auth.fee
    case ScheduleChange(_, _, auth) => auth.fee
    case Restrict(_, _, auth) => Waived(s, env, auth.fee)
    case CancelChange(_, auth) => Waived(s, env, auth.fee)
    case CancelRecovery(auth) => Waived(s, env, auth.fee)
    case _ => 0
  }

  function Waived(s: Account, env: Env, fee: nat): nat {
    var left := s.rules.dailyCap - s.window.Already(env.now);
    if left <= 0 then 0 else if fee <= left then fee else left
  }

  lemma ReceivedOfMoves(a: Address, x: nat, b: Address, y: nat, who: Address)
    ensures Received(Move(a, x), who) == if a == who then x else 0
    ensures Received(Move(a, x) + Move(b, y), who) == (if a == who then x else 0) + (if b == who then y else 0)
  {
    var first, both := Move(a, x), Move(a, x) + Move(b, y);
    assert x > 0 ==> first[..0] == [];
    if y > 0 {
      assert both[..|both| - 1] == first;
    } else {
      assert both == first;
    }
  }

  /** A call that goes through pays its payee its amount and the fee recipient its fee, to the unit, and nobody anything else. */
  lemma EveryoneGetsTheirs(s: Account, env: Env, call: Call, who: Address)
    requires Step(s, env, call).Ok?
    ensures Received(Step(s, env, call).value.transfers, who)
            == (if call.Pay? && call.to == who then call.amount else 0)
               + (if s.config.feeRecipient == who then FeePaid(s, env, call) else 0)
  {
    var fee := FeePaid(s, env, call);
    ReceivedOfMoves(s.config.feeRecipient, fee, 0, 0, who);
    if call.Pay? {
      ReceivedOfMoves(call.to, call.amount, s.config.feeRecipient, fee, who);
    }
    hide Authorize, PaymentWindow, ScheduleWindow, Move, Apply;
  }
}
