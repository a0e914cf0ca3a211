/**
 * The account's entry points as functions from storage to storage (contracts/stylus/account/src/lib.rs). A call that
 * fails reverts: it has an error and no storage of its own. The class in AccountContract.dfy is proved against these.
 */
module AccountSpec {
  import opened Primitives
  import opened Changes
  import opened Spending

  const MAX_DEADLINE_WINDOW: nat := 600
  const MAX_PENDING: nat := 8

  // Action kinds (action.rs).
  const PAY := 1
  const SCHEDULE_CHANGE := 2
  const CANCEL_CHANGE := 3
  const CANCEL_RECOVERY := 4
  const RESTRICT := 5

  datatype Error =
    | AlreadyInitialized | NotInitialized | InvalidConfig | DeadlineExpired | DeadlineTooFar | NotOwner
    | InvalidClientData(code: nat) | InvalidProof | InvalidAmount | InvalidRecipient | RecipientNotAllowed
    | PerTxCapExceeded | DailyCapExceeded | NewPayeeCapExceeded | FeeTooHigh | PaymentSheetRequired
    | AccountFrozen | InvalidChange | NotRestrictive | UnknownChange | ChangeNotReady
    | TooManyPendingChanges | NotGuardian | CannotVetoGuardianChange | NoRecovery | RecoveryNotReady
    | LastOwner | AlreadyOwner | TokenTransferFailed | ChangeAlreadyPending

  /** Ownership is recorded for an epoch: keys of past epochs own nothing. */
  datatype OwnerKey = OwnerKey(epoch: nat, nullifier: B256)

  /** A scheduled change that still waits. */
  datatype Pending = Pending(kind: nat, payloadHash: B256, eta: nat, ownerEpoch: nat)

  /** What `initialize` fixes. */
  datatype Config = Config(changeDelay: nat, recoveryDelay: nat, maxFee: u64, feeRecipient: Address)

  /** What an account may do: the rules that changes and restrictions move. */
  datatype Rules = Rules(
    perTxCap: u128,
    dailyCap: u128,
    newPayeeCap: u128,
    frozen: bool,
    allowlistEnabled: bool,
    paymentSheetRequired: bool,
    allowedRecipients: set<Address>)

  datatype Ownership = Ownership(count: nat, epoch: nat, keys: set<OwnerKey>)

  /** A pending recovery; none when `eta` is zero. */
  datatype Recovery = Recovery(nullifier: B256, eta: nat)

  const NO_RECOVERY: Recovery := Recovery(ZERO_WORD, 0)

  /** The account's storage. A boolean mapping is the set of its true keys; `pending` holds the waiting changes. */
  datatype Account = Account(
    initialized: bool,
    config: Config,
    rules: Rules,
    ownership: Ownership,
    guardian: B256,
    recovery: Recovery,
    nonce: nat,
    window: Window,
    knownRecipients: set<Address>,
    pending: map<B256, Pending>)
  {
    predicate Owns(nullifier: B256) {
      OwnerKey(ownership.epoch, nullifier) in ownership.keys
    }
  }

  /** What a fresh proxy's storage reads as. */
  const BLANK: Account := Account(
    false, Config(0, 0, 0, 0), Rules(0, 0, 0, false, false, false, {}), Ownership(0, 0, {}), ZERO_WORD, NO_RECOVERY,
    0, Window(0, 0), {}, map[])

  /** The transaction around a call: chain, the account's address, the sender, the block time, and whether the token moves. */
  datatype Env = Env(chainId: u64, self: Address, sender: Address, now: nat, tokenOk: bool)

  /**
   * What a passkey's client data says. `spc`: it is a payment sheet's, which showed `payee` and `total`. `early` and `late` are
   * the error codes, if any, of the format and origin checks made before and after its challenge is compared; `partyOk`: the
   * relying party a sheet names is the account's.
   */
  datatype ClientData = ClientData(spc: bool, challenge: B256, payee: Address, total: nat, early: Option<nat>, late: Option<nat>,
                                   partyOk: bool)

  // Error codes of client data (client_data.rs).
  const NOT_AN_ASSERTION := 2
  const CHALLENGE_MISMATCH := 3
  const PAYMENT_MISMATCH := 7
  const RP_ID_MISMATCH := 8

  /** An owner's authorization: `proofOk` is the verifier's answer for this client data and nullifier. */
  datatype Auth = Auth(fee: u256, deadline: u64, nullifier: B256, clientData: ClientData, proofOk: bool)

  datatype Payment = Payment(payee: Address, total: nat)

  datatype Call =
    | Initialize(appId: B256, ownerNullifier: B256, verifier: Address, usdg: Address, feeRecipient: Address, policy: Policy)
    | Pay(to: Address, amount: u256, auth: Auth)
    | ScheduleChange(kind: nat, payload: Payload, auth: Auth)
    | Restrict(kind: nat, payload: Payload, auth: Auth)
    | ApplyChange(changeId: B256, kind: nat, payload: Payload)
    | CancelChange(changeId: B256, auth: Auth)
    | GuardianCancelChange(changeId: B256, salt: B256)
    | GuardianFreeze(salt: B256)
    | InitiateRecovery(newNullifier: B256, salt: B256)
    | ExecuteRecovery
    | CancelRecovery(auth: Auth)
    | GuardianCancelRecovery(salt: B256)

  datatype Transfer = Transfer(to: Address, amount: nat)

  /** A call's storage, the USDG it moved, and the action hash its authorization consumed (zero without one). */
  datatype Effect = Effect(post: Account, transfers: seq<Transfer>, id: B256)

  type Outcome = Result<Effect, Error>

  function BuildAction(s: Account, env: Env, kind: nat, target: Address, amount: u256, dataHash: B256, auth: Auth): Action {
    Action(env.chainId, env.self, s.nonce, kind, target, amount, dataHash, auth.fee, auth.deadline)
  }

  /** The first check the client data fails, by its code. A sheet authorizes only a payment, and only the one it showed. */
  function ClientDataFault(clientData: ClientData, actionHash: B256, payment: Option<Payment>): Option<nat> {
    if clientData.spc && payment.None? then Some(NOT_AN_ASSERTION)
    else if clientData.early.Some? then clientData.early
    else if clientData.challenge != actionHash then Some(CHALLENGE_MISMATCH)
    else if clientData.late.Some? then clientData.late
    else if clientData.spc && payment != Some(Payment(clientData.payee, clientData.total)) then Some(PAYMENT_MISMATCH)
    else if clientData.spc && !clientData.partyOk then Some(RP_ID_MISMATCH)
    else None
  }

  /** The action hash an owner's authorization covers, once every check on it passes. Consuming the nonce is the caller's step. */
  function Authorize(s: Account, env: Env, kind: nat, target: Address, amount: u256, dataHash: B256, auth: Auth,
                     payment: Option<Payment>): (r: Result<B256, Error>)
  {
    var hash := Keccak(ActionPreimage(BuildAction(s, env, kind, target, amount, dataHash, auth)));
    if !s.initialized then Err(NotInitialized)
    else if auth.fee > s.config.maxFee then Err(FeeTooHigh)
    else if auth.deadline < env.now then Err(DeadlineExpired)
    else if auth.deadline > env.now + MAX_DEADLINE_WINDOW then Err(DeadlineTooFar)
    else if !s.Owns(auth.nullifier) then Err(NotOwner)
    else if ClientDataFault(auth.clientData, hash, payment).Some? then
      Err(InvalidClientData(ClientDataFault(auth.clientData, hash, payment).value))
    else if !auth.proofOk then Err(InvalidProof)
    else Ok(hash)
  }

  function CheckSpend(s: Account, env: Env, amount: u256): (r: Result<Window, Error>)
    ensures r.Ok? ==> r.value.spent <= s.rules.dailyCap
  {
    match Spend(s.rules.perTxCap, s.rules.dailyCap, s.window, env.now, amount)
    case Ok(window) => Ok(window)
    case Err(e) => Err(if e.PerTxCapExceeded? then Error.PerTxCapExceeded else Error.DailyCapExceeded)
  }

  /** One token transfer; a zero amount moves nothing and does not reach the token. */
  function Move(to: Address, amount: nat): seq<Transfer> {
    if amount == 0 then [] else [Transfer(to, amount)]
  }

  /** The end of a call that moves USDG: it fails when the token refuses. */
  function Finish(env: Env, post: Account, transfers: seq<Transfer>, id: B256): Outcome {
    if transfers == [] || env.tokenOk then Ok(Effect(post, transfers, id)) else Err(TokenTransferFailed)
  }

  ghost predicate HashWaits(pending: map<B256, Pending>, dataHash: B256) {
    exists id :: id in pending && pending[id].payloadHash == dataHash
  }

  ghost function Removals(pending: map<B256, Pending>): set<B256> {
    set id | id in pending && pending[id].kind == REMOVE_OWNER
  }

  /** Why a change may not be scheduled, if there is a reason. */
  ghost function CheckSchedule(s: Account, kind: nat, payload: Payload): (r: Option<Error>) {
    if kind == FREEZE || !IsValid(kind, payload) || !KeepsFeesPayable(kind, payload, s.config.maxFee) then Some(InvalidChange)
    else if HashWaits(s.pending, DataHash(kind, payload)) then Some(ChangeAlreadyPending)
    else if kind == ADD_OWNER && s.Owns(payload.words[0]) then Some(AlreadyOwner)
    else if kind == REMOVE_OWNER && !s.Owns(payload.words[0]) then Some(NotOwner)
    else if kind == REMOVE_OWNER && s.ownership.count <= 1 + |Removals(s.pending)| then Some(LastOwner)
    else None
  }

  /** The waiting changes a freeze or a recovery leaves. */
  function Kept(pending: map<B256, Pending>, keepGuardianChanges: bool): map<B256, Pending> {
    map id | id in pending && keepGuardianChanges && pending[id].kind == SET_GUARDIAN :: pending[id]
  }

  function AddOwner(o: Ownership, nullifier: B256): Ownership {
    Ownership(o.count + 1, o.epoch, o.keys + {OwnerKey(o.epoch, nullifier)})
  }

  function RemoveOwner(o: Ownership, nullifier: B256): Ownership
    requires 1 <= o.count
  {
    Ownership(o.count - 1, o.epoch, o.keys - {OwnerKey(o.epoch, nullifier)})
  }

  /** The rules after a valid change of the rules. */
  function NewRules(rules: Rules, kind: nat, payload: Payload): Rules
    requires IsValid(kind, payload)
  {
    if kind == SET_LIMITS then rules.(perTxCap := Value(payload.words[0]), dailyCap := Value(payload.words[1]))
    else if kind == SET_RECIPIENT then
      var recipient := {Value(payload.words[0])};
      rules.(allowedRecipients :=
        if Value(payload.words[1]) == 1 then rules.allowedRecipients + recipient else rules.allowedRecipients - recipient)
    else if kind == SET_ALLOWLIST then rules.(allowlistEnabled := Value(payload.words[0]) == 1)
    else if kind == SET_NEW_PAYEE_CAP then rules.(newPayeeCap := Value(payload.words[0]))
    else if kind == SET_PAYMENT_SHEET then rules.(paymentSheetRequired := Value(payload.words[0]) == 1)
    else if kind == FREEZE then rules.(frozen := true)
    else if kind == UNFREEZE then rules.(frozen := false)
    else rules
  }

  function Apply(s: Account, kind: nat, payload: Payload): (r: Result<Account, Error>) {
    if !IsValid(kind, payload) then Err(InvalidChange)
    else if kind == ADD_OWNER then
      if s.Owns(payload.words[0]) then Err(AlreadyOwner)
      else Ok(s.(ownership := AddOwner(s.ownership, payload.words[0])))
    else if kind == REMOVE_OWNER then
      if !s.Owns(payload.words[0]) then Err(NotOwner)
      else if s.ownership.count <= 1 then Err(LastOwner)
      else Ok(s.(ownership := RemoveOwner(s.ownership, payload.words[0])))
    else if kind == SET_GUARDIAN then
      // Whoever started a pending recovery is no longer the guardian.
      Ok(s.(guardian := payload.words[0], recovery := if s.recovery.eta != 0 then NO_RECOVERY else s.recovery))
    else Ok(s.(rules := NewRules(s.rules, kind, payload)))
  }

  /** The sender is the guardian when the commitment over its address and `salt` is the stored one. */
  predicate IsGuardian(s: Account, env: Env, salt: B256) {
    s.guardian == Keccak(GuardianPreimage(env.self, env.sender, salt))
  }

  function DoInitialize(s: Account, c: Call): Outcome
    requires c.Initialize?
  {
    if s.initialized then Err(AlreadyInitialized)
    else if !(IsFieldElement(c.appId) && IsNullifier(c.ownerNullifier) && c.verifier != 0 && c.usdg != 0
              && c.feeRecipient != 0 && IsValidPolicy(c.policy)) then Err(InvalidConfig)
    else
      var p := c.policy;
      Ok(Effect(s.(initialized := true,
                   config := Config(p.changeDelay, p.recoveryDelay, p.maxFee, c.feeRecipient),
                   rules := s.rules.(perTxCap := p.perTxCap, dailyCap := p.dailyCap, newPayeeCap := p.newPayeeCap),
                   ownership := Ownership(1, s.ownership.epoch,
                                          s.ownership.keys + {OwnerKey(s.ownership.epoch, c.ownerNullifier)})),
                [], ZERO_WORD))
  }

  /** The checks of a payment before its authorization, and the window it would leave. */
  function PaymentWindow(s: Account, env: Env, to: Address, amount: u256, auth: Auth): (r: Result<Window, Error>)
    ensures r.Ok? ==> r.value.spent <= s.rules.dailyCap && amount > 0 && amount + auth.fee < TWO_256
  {
    if s.rules.frozen then Err(AccountFrozen)
    else if amount == 0 then Err(InvalidAmount)
    else if to == 0 || to == env.self then Err(InvalidRecipient)
    else if s.rules.allowlistEnabled && to !in s.rules.allowedRecipients then Err(RecipientNotAllowed)
    else if s.rules.paymentSheetRequired && !auth.clientData.spc then Err(PaymentSheetRequired)
    else if amount + auth.fee >= TWO_256 then Err(InvalidAmount)
    else
      var window := CheckSpend(s, env, amount + auth.fee);
      if window.Ok? && to !in s.knownRecipients && to !in s.rules.allowedRecipients && amount > s.rules.newPayeeCap then
        Err(NewPayeeCapExceeded)
      else window
  }

  function DoPay(s: Account, env: Env, to: Address, amount: u256, auth: Auth): Outcome {
    var window := PaymentWindow(s, env, to, amount, auth);
    if window.Err? then Err(window.error)
    else
      var id := Authorize(s, env, PAY, to, amount, ZERO_WORD, auth, Some(Payment(to, amount + auth.fee)));
      if id.Err? then Err(id.error)
      else
        Finish(env,
               s.(nonce := s.nonce + 1, window := window.value, knownRecipients := s.knownRecipients + {to}),
               Move(to, amount) + Move(s.config.feeRecipient, auth.fee), id.value)
  }

  /** How long a scheduled change waits. */
  function Delay(s: Account, kind: nat): nat {
    s.config.changeDelay + (if kind == SET_GUARDIAN then s.config.recoveryDelay else 0)
  }

  /** The checks of a schedule before its authorization, and the window its fee would leave. */
  ghost function ScheduleWindow(s: Account, env: Env, kind: nat, payload: Payload, auth: Auth): (r: Result<Window, Error>)
    ensures r.Ok? ==> r.value.spent <= s.rules.dailyCap
  {
    var refusal := CheckSchedule(s, kind, payload);
    if refusal.Some? then Err(refusal.value) else CheckSpend(s, env, auth.fee)
  }

  ghost function DoScheduleChange(s: Account, env: Env, kind: nat, payload: Payload, auth: Auth): Outcome {
    var window := ScheduleWindow(s, env, kind, payload, auth);
    if window.Err? then Err(window.error)
    else
      var hash := DataHash(kind, payload);
      var id := Authorize(s, env, SCHEDULE_CHANGE, 0, 0, hash, auth, None);
      if id.Err? then Err(id.error)
      else if |s.pending| >= MAX_PENDING then Err(TooManyPendingChanges)
      else
        var entry := Pending(kind, hash, env.now + Delay(s, kind), s.ownership.epoch);
        Finish(env, s.(nonce := s.nonce + 1, window := window.value, pending := s.pending[id.value := entry]),
               Move(s.config.feeRecipient, auth.fee), id.value)
  }

  function FeeCharge(s: Account, env: Env, auth: Auth): Charge
  {
    ChargeFee(s.rules.dailyCap, s.window, env.now, auth.fee)
  }

  /**
   * An authorized safety action's own part: it consumes the nonce, charges what of its fee the day's cap leaves, and
   * never fails because of the caps.
   */
  function Charged(s: Account, env: Env, auth: Auth): Account
  {
    s.(nonce := s.nonce + 1, window := FeeCharge(s, env, auth).window)
  }

  function FeeMove(s: Account, env: Env, auth: Auth): seq<Transfer>
  {
    Move(s.config.feeRecipient, FeeCharge(s, env, auth).charged)
  }

  function DoRestrict(s: Account, env: Env, kind: nat, payload: Payload, auth: Auth): Outcome
  {
    if !IsRestrictive(kind, payload, Limits(s.rules.perTxCap, s.rules.dailyCap, s.rules.newPayeeCap)) then Err(NotRestrictive)
    else if !KeepsFeesPayable(kind, payload, s.config.maxFee) then Err(InvalidChange)
    else
      var id := Authorize(s, env, RESTRICT, 0, 0, DataHash(kind, payload), auth, None);
      if id.Err? then Err(id.error)
      else
        var applied := Apply(Charged(s, env, auth), kind, payload);
        if applied.Err? then Err(applied.error)
        else
          Finish(env,
                 applied.value.(pending := if kind == FREEZE then Kept(s.pending, false) else s.pending),
                 FeeMove(s, env, auth), id.value)
  }

  function DoApplyChange(s: Account, env: Env, changeId: B256, kind: nat, payload: Payload): Outcome {
    if !s.initialized then Err(NotInitialized)
    else if changeId !in s.pending then Err(UnknownChange)
    else
      var p := s.pending[changeId];
      if p.kind != kind || p.payloadHash != DataHash(kind, payload) || p.ownerEpoch != s.ownership.epoch then Err(UnknownChange)
      else if env.now < p.eta then Err(ChangeNotReady)
      else
        var applied := Apply(s.(pending := s.pending - {changeId}), kind, payload);
        if applied.Err? then Err(applied.error) else Ok(Effect(applied.value, [], ZERO_WORD))
  }

  function DoCancelChange(s: Account, env: Env, changeId: B256, auth: Auth): Outcome
  {
    if changeId !in s.pending then Err(UnknownChange)
    else
      var id := Authorize(s, env, CANCEL_CHANGE, 0, 0, changeId, auth, None);
      if id.Err? then Err(id.error)
      else Finish(env, Charged(s, env, auth).(pending := s.pending - {changeId}), FeeMove(s, env, auth), id.value)
  }

  function DoGuardianCancelChange(s: Account, env: Env, changeId: B256, salt: B256): Outcome {
    if !IsGuardian(s, env, salt) then Err(NotGuardian)
    else if changeId !in s.pending then Err(UnknownChange)
    else if s.pending[changeId].kind == SET_GUARDIAN then Err(CannotVetoGuardianChange)
    else Ok(Effect(s.(pending := s.pending - {changeId}), [], ZERO_WORD))
  }

  function DoGuardianFreeze(s: Account, env: Env, salt: B256): Outcome {
    if !s.initialized then Err(NotInitialized)
    else if !IsGuardian(s, env, salt) then Err(NotGuardian)
    else Ok(Effect(s.(rules := s.rules.(frozen := true), pending := Kept(s.pending, true)), [], ZERO_WORD))
  }

  function DoInitiateRecovery(s: Account, env: Env, newNullifier: B256, salt: B256): Outcome {
    if !s.initialized then Err(NotInitialized)
    else if !IsGuardian(s, env, salt) then Err(NotGuardian)
    else if !IsNullifier(newNullifier) then Err(InvalidChange)
    else Ok(Effect(s.(recovery := Recovery(newNullifier, env.now + s.config.recoveryDelay)), [], ZERO_WORD))
  }

  function DoExecuteRecovery(s: Account, env: Env): Outcome {
    if s.recovery.eta == 0 then Err(NoRecovery)
    else if env.now < s.recovery.eta then Err(RecoveryNotReady)
    else
      var epoch := s.ownership.epoch + 1;
      Ok(Effect(s.(recovery := NO_RECOVERY,
                   pending := Kept(s.pending, false),
                   ownership := Ownership(1, epoch, s.ownership.keys + {OwnerKey(epoch, s.recovery.nullifier)})),
                [], ZERO_WORD))
  }

  function DoCancelRecovery(s: Account, env: Env, auth: Auth): Outcome
  {
    if s.recovery.eta == 0 then Err(NoRecovery)
    else
      var id := Authorize(s, env, CANCEL_RECOVERY, 0, 0, s.recovery.nullifier, auth, None);
      if id.Err? then Err(id.error)
      else Finish(env, Charged(s, env, auth).(recovery := NO_RECOVERY), FeeMove(s, env, auth), id.value)
  }

  function DoGuardianCancelRecovery(s: Account, env: Env, salt: B256): Outcome {
    if !IsGuardian(s, env, salt) then Err(NotGuardian)
    else if s.recovery.eta == 0 then Err(NoRecovery)
    else Ok(Effect(s.(recovery := NO_RECOVERY), [], ZERO_WORD))
  }

  /** One call's outcome. */
  ghost function Step(s: Account, env: Env, call: Call): Outcome
  {
    match call
    case Initialize(_, _, _, _, _, _) => DoInitialize(s, call)
    case Pay(to, amount, auth) => DoPay(s, env, to, amount, auth)
    case ScheduleChange(kind, payload, auth) => DoScheduleChange(s, env, kind, payload, auth)
    case Restrict(kind, payload, auth) => DoRestrict(s, env, kind, payload, auth)
    case ApplyChange(changeId, kind, payload) => DoApplyChange(s, env, changeId, kind, payload)
    case CancelChange(changeId, auth) => DoCancelChange(s, env, changeId, auth)
    case GuardianCancelChange(changeId, salt) => DoGuardianCancelChange(s, env, changeId, salt)
    case GuardianFreeze(salt) => DoGuardianFreeze(s, env, salt)
    case InitiateRecovery(newNullifier, salt) => DoInitiateRecovery(s, env, newNullifier, salt)
    case ExecuteRecovery => DoExecuteRecovery(s, env)
    case CancelRecovery(auth) => DoCancelRecovery(s, env, auth)
    case GuardianCancelRecovery(salt) => DoGuardianCancelRecovery(s, env, salt)
  }

  /** The storage after a call: a failed call reverts. */
  ghost function Next(s: Account, env: Env, call: Call): Account
  {
    var outcome := Step(s, env, call);
    if outcome.Ok? then outcome.value.post else s
  }
}
