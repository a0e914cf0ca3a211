/**
 * The account contract itself (contracts/stylus/account/src/lib.rs): storage fields, the eight pending slots as an array,
 * and the entry points as methods that update them. Every method is proved against its function in AccountSpec, and
 * `Execute` against the account's step, reverting included.
 */
module AccountContract {
  import opened Primitives
  import opened Changes
  import opened Spending
  import opened AccountSpec
  import opened AccountInvariant
  import opened PendingSlots

  /** Everything a revert restores. */
  datatype Saved = Saved(
    initialized: bool, config: Config, rules: Rules, ownership: Ownership, guardian: B256, recovery: Recovery, nonce: nat,
    spendDay: nat, spentToday: u128, knownRecipients: set<Address>, pending: map<B256, Pending>, slots: seq<B256>,
    sent: seq<Transfer>)

  class VeraKeyAccount {
    var initialized: bool
    var changeDelay: nat
    var frozen: bool
    var allowlistEnabled: bool
    var paymentSheetRequired: bool
    var recoveryDelay: nat
    var ownerCount: nat
    var perTxCap: u128
    var dailyCap: u128
    var newPayeeCap: u128
    var recoveryEta: nat
    var maxFee: u64
    var nonce: nat
    var spendDay: nat
    var spentToday: u128
    var feeRecipient: Address
    var ownerEpoch: nat
    var guardianCommitment: B256
    var recoveryNullifier: B256
    /** The eight slots; one that holds the zero word is free. */
    const pendingIds: array<B256>
    var owners: set<OwnerKey>
    var allowedRecipients: set<Address>
    var knownRecipients: set<Address>
    var pending: map<B256, Pending>
    /** The transfers the token has made for this account. */
    var sent: seq<Transfer>

    /** The storage these fields hold. */
    ghost function Abs(): Account
      reads this
    {
      Account(
        initialized,
        ConfigNow(),
        RulesNow(),
        OwnershipNow(),
        guardianCommitment,
        Recovery(recoveryNullifier, recoveryEta),
        nonce,
        Window(spendDay, spentToday),
        knownRecipients,
        Live(pending))
    }

    ghost predicate SlotsOk()
      reads this, pendingIds
    {
      pendingIds.Length == MAX_PENDING && Tracks(pendingIds[..], Live(pending))
    }

    ghost predicate Valid()
      reads this, pendingIds
    {
      SlotsOk() && Inv(Abs())
    }

    /** A fresh proxy. */
    constructor ()
      ensures Valid() && Abs() == BLANK && sent == [] && fresh(pendingIds)
    {
      initialized, changeDelay, frozen, allowlistEnabled, paymentSheetRequired := false, 0, false, false, false;
      recoveryDelay, ownerCount, perTxCap, dailyCap, newPayeeCap, recoveryEta, maxFee := 0, 0, 0, 0, 0, 0, 0;
      nonce, spendDay, spentToday, feeRecipient, ownerEpoch := 0, 0, 0, 0, 0;
      guardianCommitment, recoveryNullifier := ZERO_WORD, ZERO_WORD;
      pendingIds := new B256[MAX_PENDING](_ => ZERO_WORD);
      owners, allowedRecipients, knownRecipients, pending, sent := {}, {}, {}, map[], [];
      new;
      assert Live(pending) == map[];
    }

    // The pending table.

    method TrackPending(changeId: B256) returns (r: Option<Error>)
      requires pendingIds.Length == MAX_PENDING
      modifies pendingIds
      ensures r == (if ZERO_WORD in old(pendingIds[..]) then None else Some(TooManyPendingChanges))
      ensures r.Some? ==> pendingIds[..] == old(pendingIds[..])
      ensures r.None? ==> exists k: nat :: k < MAX_PENDING && old(pendingIds[k]) == ZERO_WORD
                                           && pendingIds[..] == old(pendingIds[..])[k := changeId]
    {
      for index := 0 to MAX_PENDING
        invariant forall i :: 0 <= i < index ==> pendingIds[i] != ZERO_WORD
        invariant pendingIds[..] == old(pendingIds[..])
      {
        if pendingIds[index] == ZERO_WORD {
          pendingIds[index] := changeId;
          assert pendingIds[..] == old(pendingIds[..])[index := changeId];
          return None;
        }
      }
      return Some(TooManyPendingChanges);
    }

    method ClearPending(changeId: B256)
      requires SlotsOk() && changeId in Live(pending)
      modifies this`pending, pendingIds
      ensures SlotsOk() && Live(pending) == old(Live(pending)) - {changeId}
      ensures Abs() == old(Abs()).(pending := old(Live(pending)) - {changeId})
      ensures forall i :: 0 <= i < MAX_PENDING ==>
                pendingIds[i] == if old(pendingIds[i]) == changeId then ZERO_WORD else old(pendingIds[i])
    {
      ghost var slots, table := pendingIds[..], pending;
      pending := pending[changeId := EMPTY];
      var index := 0;
      while index < MAX_PENDING
        invariant 0 <= index <= MAX_PENDING
        invariant forall i :: 0 <= i < index ==> pendingIds[i] != changeId
        invariant pendingIds[..] == slots
      {
        if pendingIds[index] == changeId {
          pendingIds[index] := ZERO_WORD;
          assert pendingIds[..] == slots[index := ZERO_WORD];
          ClearIsRemove(slots, table, index, changeId);
          break;
        }
        index := index + 1;
      }
    }

    method CancelPendingChanges(keepGuardianChanges: bool)
      requires SlotsOk()
      modifies this`pending, pendingIds
      ensures SlotsOk() && Live(pending) == Kept(old(Live(pending)), keepGuardianChanges)
      ensures Abs() == old(Abs()).(pending := Kept(old(Live(pending)), keepGuardianChanges))
    {
      ghost var slots, live := pendingIds[..], Live(pending);
      CancelledAll(live, slots, keepGuardianChanges);
      for index := 0 to MAX_PENDING
        invariant SlotsOk()
        invariant Live(pending) == Cancelled(live, slots, index, keepGuardianChanges)
        invariant forall i :: index <= i < MAX_PENDING ==> pendingIds[i] == slots[i]
      {
        CancelledStep(live, slots, index, keepGuardianChanges);
        var changeId := pendingIds[index];
        if changeId == ZERO_WORD {
          continue;
        }
        assert pendingIds[..][index] == changeId;
        var kind := Read(pending, changeId).kind;
        if keepGuardianChanges && kind == SET_GUARDIAN {
          continue;
        }
        ClearPending(changeId);
      }
    }

    method CheckScheduleChange(kind: nat, payload: Payload) returns (r: Option<Error>)
      requires SlotsOk()
      ensures r == CheckSchedule(Abs(), kind, payload)
    {
      if kind == FREEZE || !IsValid(kind, payload) || !KeepsFeesPayable(kind, payload, maxFee) {
        return Some(InvalidChange);
      }
      var dataHash := DataHash(kind, payload);
      var pendingRemovals := 0;
      for index := 0 to MAX_PENDING
        invariant pendingRemovals == |RemovalsIn(pendingIds[..index], Live(pending))|
        invariant forall i :: 0 <= i < index && pendingIds[i] != ZERO_WORD ==> Read(pending, pendingIds[i]).payloadHash != dataHash
      {
        RemovalsInStep(pendingIds[..], Live(pending), index);
        assert pendingIds[..][..index] == pendingIds[..index] && pendingIds[..][..index + 1] == pendingIds[..index + 1];
        var id := pendingIds[index];
        if id == ZERO_WORD {
          continue;
        }
        assert pendingIds[..][index] == id;
        var entry := Read(pending, id);
        if entry.payloadHash == dataHash {
          return Some(ChangeAlreadyPending);
        }
        if entry.kind == REMOVE_OWNER {
          pendingRemovals := pendingRemovals + 1;
        }
      }
      RemovalsInAll(pendingIds[..], Live(pending));
      assert pendingIds[..][..MAX_PENDING] == pendingIds[..MAX_PENDING];
      assert !HashWaits(Live(pending), dataHash);
      if kind == ADD_OWNER && IsOwner(payload.words[0]) {
        return Some(AlreadyOwner);
      }
      if kind == REMOVE_OWNER && !IsOwner(payload.words[0]) {
        return Some(NotOwner);
      }
      if kind == REMOVE_OWNER && ownerCount <= 1 + pendingRemovals {
        return Some(LastOwner);
      }
      return None;
    }

    predicate IsOwner(nullifier: B256)
      reads this
    {
      OwnerKey(ownerEpoch, nullifier) in owners
    }

    // Authorization, spending and transfers.

    method Authorize(env: Env, kind: nat, target: Address, amount: u256, dataHash: B256, auth: Auth, payment: Option<Payment>)
      returns (r: Result<B256, Error>)
      modifies this`nonce
      ensures r == AccountSpec.Authorize(old(Abs()), env, kind, target, amount, dataHash, auth, payment)
      ensures Abs() == old(Abs()).(nonce := old(nonce) + (if r.Ok? then 1 else 0))
    {
      if !initialized { return Err(NotInitialized); }
      if auth.fee > maxFee { return Err(FeeTooHigh); }
      if auth.deadline < env.now { return Err(DeadlineExpired); }
      if auth.deadline > env.now + MAX_DEADLINE_WINDOW { return Err(DeadlineTooFar); }
      if !IsOwner(auth.nullifier) { return Err(NotOwner); }
      var action := Action(env.chainId, env.self, nonce, kind, target, amount, dataHash, auth.fee, auth.deadline);
      var actionHash := Keccak(ActionPreimage(action));
      var fault := ClientDataFault(auth.clientData, actionHash, payment);
      if fault.Some? { return Err(InvalidClientData(fault.value)); }
      if !auth.proofOk { return Err(InvalidProof); }
      nonce := nonce + 1;
      return Ok(actionHash);
    }

    method CheckSpending(env: Env, amount: u256) returns (r: Result<Window, Error>)
      ensures r == CheckSpend(Abs(), env, amount)
    {
      var spend := Spend(perTxCap, dailyCap, Window(spendDay, spentToday), env.now, amount);
      match spend {
        case Ok(window) => return Ok(window);
        case Err(e) => return Err(if e.PerTxCapExceeded? then Error.PerTxCapExceeded else Error.DailyCapExceeded);
      }
    }

    method RecordSpend(window: Window)
      requires window.spent < TWO_128
      modifies this`spendDay, this`spentToday
      ensures Abs() == old(Abs()).(window := window)
    {
      spendDay, spentToday := window.day, window.spent;
    }

    method ChargeFee(env: Env, auth: Auth) returns (charged: u256)
      modifies this`spendDay, this`spentToday
      ensures charged == FeeCharge(old(Abs()), env, auth).charged
      ensures Abs() == old(Abs()).(window := FeeCharge(old(Abs()), env, auth).window)
    {
      var charge := Spending.ChargeFee(dailyCap, Window(spendDay, spentToday), env.now, auth.fee);
      RecordSpend(charge.window);
      charged := charge.charged;
    }

    method TransferUsdg(env: Env, to: Address, amount: nat) returns (ok: bool)
      modifies this`sent
      ensures ok <==> amount == 0 || env.tokenOk
      ensures sent == old(sent) + (if ok then Move(to, amount) else [])
    {
      if amount == 0 { return true; }
      if !env.tokenOk { return false; }
      sent := sent + [Transfer(to, amount)];
      return true;
    }

    method PayFee(env: Env, fee: nat) returns (r: Option<Error>)
      modifies this`sent
      ensures r == if Move(feeRecipient, fee) == [] || env.tokenOk then None else Some(TokenTransferFailed)
      ensures r.None? ==> sent == old(sent) + Move(feeRecipient, fee)
    {
      var ok := TransferUsdg(env, feeRecipient, fee);
      r := if ok then None else Some(TokenTransferFailed);
    }

    method RequireGuardian(env: Env, salt: B256) returns (ok: bool)
      ensures ok <==> IsGuardian(Abs(), env, salt)
    {
      var claimed := Keccak(GuardianPreimage(env.self, env.sender, salt));
      ok := guardianCommitment != ZERO_WORD && claimed == guardianCommitment;
    }

    method ClearRecovery() returns (nullifier: B256)
      modifies this`recoveryNullifier, this`recoveryEta
      ensures nullifier == old(recoveryNullifier)
      ensures Abs() == old(Abs()).(recovery := NO_RECOVERY)
    {
      nullifier := recoveryNullifier;
      recoveryNullifier, recoveryEta := ZERO_WORD, 0;
    }

    ghost function RulesNow(): Rules
      reads this
    {
      Rules(perTxCap, dailyCap, newPayeeCap, frozen, allowlistEnabled, paymentSheetRequired, allowedRecipients)
    }

    ghost function OwnershipNow(): Ownership
      reads this
    {
      Ownership(ownerCount, ownerEpoch, owners)
    }

    ghost function ConfigNow(): Config
      reads this
    {
      Config(changeDelay, recoveryDelay, maxFee, feeRecipient)
    }

    /** The fields are what `outcome` says, or the error is. */
    ghost predicate Applied(r: Option<Error>, outcome: Result<Account, Error>)
      reads this
    {
      match r
      case Some(error) => outcome == Err(error)
      case None => outcome == Ok(Abs())
    }

    method ApplyAddOwner(payload: Payload) returns (r: Option<Error>)
      requires IsValid(ADD_OWNER, payload)
      modifies this`owners, this`ownerCount
      ensures Applied(r, Apply(old(Abs()), ADD_OWNER, payload))
    {
      var nullifier := payload.words[0];
      if IsOwner(nullifier) { return Some(AlreadyOwner); }
      ghost var s := Abs();
      owners := owners + {OwnerKey(ownerEpoch, nullifier)};
      ownerCount := ownerCount + 1;
      assert Abs() == s.(ownership := AddOwner(s.ownership, nullifier));
      return None;
    }

    method ApplyRemoveOwner(payload: Payload) returns (r: Option<Error>)
      requires IsValid(REMOVE_OWNER, payload)
      modifies this`owners, this`ownerCount
      ensures Applied(r, Apply(old(Abs()), REMOVE_OWNER, payload))
    {
      var nullifier := payload.words[0];
      if !IsOwner(nullifier) { return Some(NotOwner); }
      if ownerCount <= 1 { return Some(LastOwner); }
      ghost var s := Abs();
      owners := owners - {OwnerKey(ownerEpoch, nullifier)};
      ownerCount := ownerCount - 1;
      assert Abs() == s.(ownership := RemoveOwner(s.ownership, nullifier));
      return None;
    }

    method ApplyRuleChange(kind: nat, payload: Payload)
      requires IsValid(kind, payload)
      modifies this`perTxCap, this`dailyCap, this`allowedRecipients, this`allowlistEnabled, this`newPayeeCap,
        this`paymentSheetRequired, this`frozen
      ensures RulesNow() == NewRules(old(RulesNow()), kind, payload)
    {
      if kind == SET_LIMITS {
        perTxCap, dailyCap := WordU128(payload.words[0]).value, WordU128(payload.words[1]).value;
      } else if kind == SET_RECIPIENT {
        var recipient := WordAddress(payload.words[0]).value;
        if WordBool(payload.words[1]) == Some(true) {
          allowedRecipients := allowedRecipients + {recipient};
        } else {
          allowedRecipients := allowedRecipients - {recipient};
        }
      } else if kind == SET_ALLOWLIST {
        allowlistEnabled := WordBool(payload.words[0]).value;
      } else if kind == SET_NEW_PAYEE_CAP {
        newPayeeCap := WordU128(payload.words[0]).value;
      } else if kind == SET_PAYMENT_SHEET {
        paymentSheetRequired := WordBool(payload.words[0]).value;
      } else if kind == FREEZE {
        frozen := true;
      } else if kind == UNFREEZE {
        frozen := false;
      }
    }

    method ApplyGuardianChange(payload: Payload)
      requires IsValid(SET_GUARDIAN, payload)
      modifies this`guardianCommitment, this`recoveryNullifier, this`recoveryEta
      ensures Applied(None, Apply(old(Abs()), SET_GUARDIAN, payload))
    {
      guardianCommitment := payload.words[0];
      if recoveryEta != 0 {
        var _ := ClearRecovery();
      }
    }

    method ApplyRules(kind: nat, payload: Payload)
      requires IsValid(kind, payload) && kind != ADD_OWNER && kind != REMOVE_OWNER && kind != SET_GUARDIAN
      modifies this`perTxCap, this`dailyCap, this`allowedRecipients, this`allowlistEnabled, this`newPayeeCap,
        this`paymentSheetRequired, this`frozen
      ensures Applied(None, Apply(old(Abs()), kind, payload))
    {
      ghost var s := Abs();
      ApplyRuleChange(kind, payload);
      assert Abs() == s.(rules := NewRules(s.rules, kind, payload));
    }

    method ApplyNow(kind: nat, payload: Payload) returns (r: Option<Error>)
      modifies this`owners, this`ownerCount, this`perTxCap, this`dailyCap, this`allowedRecipients, this`allowlistEnabled,
        this`guardianCommitment, this`recoveryNullifier, this`recoveryEta, this`newPayeeCap, this`paymentSheetRequired, this`frozen
      ensures Applied(r, Apply(old(Abs()), kind, payload))
    {
      r := None;
      if !IsValid(kind, payload) {
        r := Some(InvalidChange);
      } else if kind == ADD_OWNER {
        r := ApplyAddOwner(payload);
      } else if kind == REMOVE_OWNER {
        r := ApplyRemoveOwner(payload);
      } else if kind == SET_GUARDIAN {
        ApplyGuardianChange(payload);
      } else {
        ApplyRules(kind, payload);
      }
    }

    // Entry points. A failed call may leave half-written fields; `Execute` restores them, as the revert does.

    /** The fields and the transfers are what `outcome` says, or the error is. */
    ghost predicate Refines(r: Option<Error>, id: B256, outcome: Outcome, before: seq<Transfer>)
      reads this
    {
      match r
      case Some(error) => outcome == Err(error)
      case None => outcome.Ok? && outcome.value.post == Abs() && outcome.value.id == id && sent == before + outcome.value.transfers
    }

    method WritePolicy(p: Policy, recipient: Address)
      requires IsValidPolicy(p)
      modifies this`changeDelay, this`recoveryDelay, this`maxFee, this`feeRecipient, this`perTxCap, this`dailyCap, this`newPayeeCap
      ensures ConfigNow() == Config(p.changeDelay, p.recoveryDelay, p.maxFee, recipient)
      ensures RulesNow() == old(RulesNow()).(perTxCap := p.perTxCap, dailyCap := p.dailyCap, newPayeeCap := p.newPayeeCap)
    {
      changeDelay, recoveryDelay, maxFee, feeRecipient := p.changeDelay, p.recoveryDelay, p.maxFee, recipient;
      perTxCap, dailyCap, newPayeeCap := p.perTxCap, p.dailyCap, p.newPayeeCap;
    }

    method WriteFirstState(call: Call)
      requires call.Initialize? && IsValidPolicy(call.policy)
      modifies this`initialized, this`changeDelay, this`recoveryDelay, this`maxFee, this`feeRecipient, this`perTxCap,
        this`dailyCap, this`newPayeeCap, this`ownerCount, this`owners
      ensures Abs() == old(Abs()).(
                initialized := true,
                config := Config(call.policy.changeDelay, call.policy.recoveryDelay, call.policy.maxFee, call.feeRecipient),
                rules := old(RulesNow()).(perTxCap := call.policy.perTxCap, dailyCap := call.policy.dailyCap,
                                          newPayeeCap := call.policy.newPayeeCap),
                ownership := Ownership(1, old(ownerEpoch), old(owners) + {OwnerKey(old(ownerEpoch), call.ownerNullifier)}))
    {
      WritePolicy(call.policy, call.feeRecipient);
      initialized := true;
      ownerCount := 1;
      owners := owners + {OwnerKey(ownerEpoch, call.ownerNullifier)};
    }

    method InitializeAccount(call: Call) returns (r: Option<Error>)
      requires call.Initialize?
      modifies this`initialized, this`changeDelay, this`recoveryDelay, this`maxFee, this`feeRecipient, this`perTxCap,
        this`dailyCap, this`newPayeeCap, this`ownerCount, this`owners
      ensures Refines(r, ZERO_WORD, DoInitialize(old(Abs()), call), old(sent))
    {
      if initialized { return Some(AlreadyInitialized); }
      if !(IsFieldElement(call.appId) && IsNullifier(call.ownerNullifier) && call.verifier != 0 && call.usdg != 0
           && call.feeRecipient != 0 && IsValidPolicy(call.policy)) {
        return Some(InvalidConfig);
      }
      WriteFirstState(call);
      return None;
    }

    /** The refusals of a payment that do not depend on the authorization, and the window it would leave. */
    method CheckPayment(env: Env, to: Address, amount: u256, auth: Auth) returns (r: Result<Window, Error>)
      ensures r == PaymentWindow(Abs(), env, to, amount, auth)
    {
      if frozen { return Err(AccountFrozen); }
      if amount == 0 { return Err(InvalidAmount); }
      if to == 0 || to == env.self { return Err(InvalidRecipient); }
      var allowlisted := to in allowedRecipients;
      if allowlistEnabled && !allowlisted { return Err(RecipientNotAllowed); }
      if paymentSheetRequired && !auth.clientData.spc { return Err(PaymentSheetRequired); }
      if amount + auth.fee >= TWO_256 { return Err(InvalidAmount); }
      r := CheckSpending(env, amount + auth.fee);
      if r.Ok? && to !in knownRecipients && !allowlisted && amount > newPayeeCap { return Err(NewPayeeCapExceeded); }
    }

    method RecordPayment(window: Window, to: Address)
      requires window.spent < TWO_128
      modifies this`spendDay, this`spentToday, this`knownRecipients
      ensures Abs() == old(Abs()).(window := window, knownRecipients := old(knownRecipients) + {to})
    {
      RecordSpend(window);
      if to !in knownRecipients { knownRecipients := knownRecipients + {to}; }
    }

    method SendPayment(env: Env, to: Address, amount: u256, fee: u256) returns (ok: bool)
      requires amount > 0
      modifies this`sent
      ensures ok <==> env.tokenOk
      ensures ok ==> sent == old(sent) + (Move(to, amount) + Move(feeRecipient, fee))
    {
      ok := TransferUsdg(env, to, amount);
      if ok { ok := TransferUsdg(env, feeRecipient, fee); }
    }

    method PayNow(env: Env, to: Address, amount: u256, auth: Auth) returns (r: Option<Error>, id: B256)
      modifies this`nonce, this`spendDay, this`spentToday, this`knownRecipients, this`sent
      ensures Refines(r, id, DoPay(old(Abs()), env, to, amount, auth), old(sent))
    {
      id := ZERO_WORD;
      var window := CheckPayment(env, to, amount, auth);
      if window.Err? { return Some(window.error), id; }
      var authorized := Authorize(env, PAY, to, amount, ZERO_WORD, auth, Some(Payment(to, amount + auth.fee)));
      if authorized.Err? { return Some(authorized.error), id; }
      id := authorized.value;
      RecordPayment(window.value, to);
      var ok := SendPayment(env, to, amount, auth.fee);
      r := if ok then None else Some(TokenTransferFailed);
    }

    /** The entry a scheduled change waits under, once `check_schedule` let it in and a slot was free. */
    method WriteEntry(env: Env, changeId: B256, kind: nat, dataHash: B256) returns (r: Option<Error>)
      requires SlotsOk() && 0 < env.now && changeId != ZERO_WORD && changeId !in Live(pending)
      modifies this`pending, pendingIds
      ensures r == if |old(Live(pending))| >= MAX_PENDING then Some(TooManyPendingChanges) else None
      ensures r.None? ==> SlotsOk()
      ensures r.None? ==> Live(pending) == old(Live(pending))[
                            changeId := Pending(kind, dataHash, env.now + Delay(old(Abs()), kind), ownerEpoch)]
      ensures r.Some? ==> pending == old(pending)
    {
      ghost var slots, table := pendingIds[..], pending;
      TableIsFullAtEight(slots, Live(table));
      r := TrackPending(changeId);
      if r.Some? { return; }
      var delay := changeDelay;
      if kind == SET_GUARDIAN { delay := delay + recoveryDelay; }
      pending := pending[changeId := Pending(kind, dataHash, env.now + delay, ownerEpoch)];
      ghost var k: nat :| k < MAX_PENDING && slots[k] == ZERO_WORD && pendingIds[..] == slots[k := changeId];
      TrackIsInsert(slots, table, k, changeId, pending[changeId]);
    }

    method CheckScheduled(env: Env, kind: nat, payload: Payload, auth: Auth) returns (r: Result<Window, Error>)
      requires SlotsOk()
      ensures r == ScheduleWindow(Abs(), env, kind, payload, auth)
    {
      var refusal := CheckScheduleChange(kind, payload);
      if refusal.Some? { return Err(refusal.value); }
      r := CheckSpending(env, auth.fee);
    }

    method EnterChange(env: Env, window: Window, changeId: B256, kind: nat, dataHash: B256) returns (r: Option<Error>)
      requires SlotsOk() && 0 < env.now && changeId != ZERO_WORD && changeId !in Live(pending) && window.spent < TWO_128
      modifies this`spendDay, this`spentToday, this`pending, pendingIds
      ensures r == if |old(Live(pending))| >= MAX_PENDING then Some(TooManyPendingChanges) else None
      ensures r.None? ==> SlotsOk()
      ensures r.None? ==> Abs() == old(Abs()).(
                            window := window,
                            pending := old(Live(pending))[
                              changeId := Pending(kind, dataHash, env.now + Delay(old(Abs()), kind), ownerEpoch)])
    {
      RecordSpend(window);
      r := WriteEntry(env, changeId, kind, dataHash);
    }

    method ScheduleChangeNow(env: Env, kind: nat, payload: Payload, auth: Auth) returns (r: Option<Error>, id: B256)
      requires SlotsOk() && NewIdsAreFree(Live(pending), nonce) && 0 < env.now
      modifies this`nonce, this`spendDay, this`spentToday, this`pending, this`sent, pendingIds
      ensures Refines(r, id, DoScheduleChange(old(Abs()), env, kind, payload, auth), old(sent))
      ensures r.None? ==> SlotsOk()
    {
      hide CheckSchedule;
      id := ZERO_WORD;
      var window := CheckScheduled(env, kind, payload, auth);
      if window.Err? { return Some(window.error), id; }
      var dataHash := DataHash(kind, payload);
      var authorized := Authorize(env, SCHEDULE_CHANGE, 0, 0, dataHash, auth, None);
      if authorized.Err? { return Some(authorized.error), id; }
      id := authorized.value;
      r := EnterChange(env, window.value, id, kind, dataHash);
      if r.None? {
        r := PayFee(env, auth.fee);
      }
    }

    /** An owner's safety action: its authorization, and the part of its fee to pay. */
    method AuthorizeSafety(env: Env, kind: nat, dataHash: B256, auth: Auth) returns (r: Result<B256, Error>, charged: u256)
      modifies this`nonce, this`spendDay, this`spentToday
      ensures r == AccountSpec.Authorize(old(Abs()), env, kind, 0, 0, dataHash, auth, None)
      ensures r.Ok? ==> Abs() == Charged(old(Abs()), env, auth) && charged == FeeCharge(old(Abs()), env, auth).charged
    {
      charged := 0;
      r := Authorize(env, kind, 0, 0, dataHash, auth, None);
      if r.Ok? {
        charged := ChargeFee(env, auth);
      }
    }

    method RestrictNow(env: Env, kind: nat, payload: Payload, auth: Auth) returns (r: Option<Error>, id: B256)
      requires SlotsOk()
      modifies this, pendingIds
      ensures Refines(r, id, DoRestrict(old(Abs()), env, kind, payload, auth), old(sent))
      ensures r.None? ==> SlotsOk()
    {
      hide IsRestrictive, KeepsFeesPayable, Apply, AccountSpec.Authorize, Kept;
      id := ZERO_WORD;
      if !IsRestrictive(kind, payload, Limits(perTxCap, dailyCap, newPayeeCap)) { return Some(NotRestrictive), id; }
      if !KeepsFeesPayable(kind, payload, maxFee) { return Some(InvalidChange), id; }
      var authorized, charged := AuthorizeSafety(env, RESTRICT, DataHash(kind, payload), auth);
      if authorized.Err? { return Some(authorized.error), id; }
      id := authorized.value;
      r := ApplyRestriction(kind, payload);
      if r.None? {
        r := PayFee(env, charged);
      }
    }

    method ApplyRestriction(kind: nat, payload: Payload) returns (r: Option<Error>)
      requires SlotsOk()
      modifies this`owners, this`ownerCount, this`perTxCap, this`dailyCap, this`allowedRecipients, this`allowlistEnabled,
        this`guardianCommitment, this`recoveryNullifier, this`recoveryEta, this`newPayeeCap, this`paymentSheetRequired,
        this`frozen, this`pending, pendingIds
      ensures var applied := Apply(old(Abs()), kind, payload);
              if applied.Err? then r == Some(applied.error)
              else && r.None? && SlotsOk()
                   && Abs() == applied.value.(pending := if kind == FREEZE then Kept(old(Live(pending)), false) else old(Live(pending)))
    {
      r := ApplyNow(kind, payload);
      if r.None? && kind == FREEZE {
        CancelPendingChanges(false);
      }
    }

    method ApplyChangeNow(env: Env, changeId: B256, kind: nat, payload: Payload) returns (r: Option<Error>)
      requires SlotsOk()
      modifies this, pendingIds
      ensures Refines(r, ZERO_WORD, DoApplyChange(old(Abs()), env, changeId, kind, payload), old(sent))
      ensures r.None? ==> SlotsOk()
    {
      if !initialized { return Some(NotInitialized); }
      var entry := Read(pending, changeId);
      if entry.eta == 0 || entry.kind != kind || entry.payloadHash != DataHash(kind, payload) || entry.ownerEpoch != ownerEpoch {
        return Some(UnknownChange);
      }
      if env.now < entry.eta { return Some(ChangeNotReady); }
      ClearPending(changeId);
      r := ApplyNow(kind, payload);
    }

    method CancelChangeNow(env: Env, changeId: B256, auth: Auth) returns (r: Option<Error>, id: B256)
      requires SlotsOk()
      modifies this`nonce, this`spendDay, this`spentToday, this`pending, this`sent, pendingIds
      ensures Refines(r, id, DoCancelChange(old(Abs()), env, changeId, auth), old(sent))
      ensures r.None? ==> SlotsOk()
    {
      id := ZERO_WORD;
      if Read(pending, changeId).eta == 0 { return Some(UnknownChange), id; }
      var authorized, charged := AuthorizeSafety(env, CANCEL_CHANGE, changeId, auth);
      if authorized.Err? { return Some(authorized.error), id; }
      id := authorized.value;
      ClearPending(changeId);
      r := PayFee(env, charged);
    }

    method GuardianCancelChangeNow(env: Env, changeId: B256, salt: B256) returns (r: Option<Error>)
      requires SlotsOk()
      modifies this`pending, pendingIds
      ensures Refines(r, ZERO_WORD, DoGuardianCancelChange(old(Abs()), env, changeId, salt), old(sent))
      ensures r.None? ==> SlotsOk()
    {
      var isGuardian := RequireGuardian(env, salt);
      if !isGuardian { return Some(NotGuardian); }
      if Read(pending, changeId).eta == 0 { return Some(UnknownChange); }
      if Read(pending, changeId).kind == SET_GUARDIAN { return Some(CannotVetoGuardianChange); }
      ClearPending(changeId);
      return None;
    }

    method GuardianFreezeNow(env: Env, salt: B256) returns (r: Option<Error>)
      requires SlotsOk()
      modifies this`frozen, this`pending, pendingIds
      ensures Refines(r, ZERO_WORD, DoGuardianFreeze(old(Abs()), env, salt), old(sent))
      ensures r.None? ==> SlotsOk()
    {
      if !initialized { return Some(NotInitialized); }
      var isGuardian := RequireGuardian(env, salt);
      if !isGuardian { return Some(NotGuardian); }
      frozen := true;
      CancelPendingChanges(true);
      return None;
    }

    method InitiateRecoveryNow(env: Env, newNullifier: B256, salt: B256) returns (r: Option<Error>)
      modifies this`recoveryNullifier, this`recoveryEta
      ensures Refines(r, ZERO_WORD, DoInitiateRecovery(old(Abs()), env, newNullifier, salt), old(sent))
    {
      if !initialized { return Some(NotInitialized); }
      var isGuardian := RequireGuardian(env, salt);
      if !isGuardian { return Some(NotGuardian); }
      if newNullifier == ZERO_WORD || !IsFieldElement(newNullifier) { return Some(InvalidChange); }
      recoveryNullifier, recoveryEta := newNullifier, env.now + recoveryDelay;
      return None;
    }

    method InstallOwner(nullifier: B256)
      modifies this`ownerEpoch, this`owners, this`ownerCount
      ensures Abs() == old(Abs()).(
                ownership := Ownership(1, old(ownerEpoch) + 1, old(owners) + {OwnerKey(old(ownerEpoch) + 1, nullifier)}))
    {
      ownerEpoch := ownerEpoch + 1;
      owners := owners + {OwnerKey(ownerEpoch, nullifier)};
      ownerCount := 1;
    }

    method ExecuteRecoveryNow(env: Env) returns (r: Option<Error>)
      requires SlotsOk()
      modifies this`recoveryNullifier, this`recoveryEta, this`pending, this`ownerEpoch, this`owners, this`ownerCount, pendingIds
      ensures Refines(r, ZERO_WORD, DoExecuteRecovery(old(Abs()), env), old(sent))
      ensures r.None? ==> SlotsOk()
    {
      if recoveryEta == 0 { return Some(NoRecovery); }
      if env.now < recoveryEta { return Some(RecoveryNotReady); }
      var nullifier := ClearRecovery();
      CancelPendingChanges(false);
      InstallOwner(nullifier);
      return None;
    }

    method CancelRecoveryNow(env: Env, auth: Auth) returns (r: Option<Error>, id: B256)
      modifies this`nonce, this`spendDay, this`spentToday, this`recoveryNullifier, this`recoveryEta, this`sent
      ensures Refines(r, id, DoCancelRecovery(old(Abs()), env, auth), old(sent))
    {
      id := ZERO_WORD;
      if recoveryEta == 0 { return Some(NoRecovery), id; }
      var authorized, charged := AuthorizeSafety(env, CANCEL_RECOVERY, recoveryNullifier, auth);
      if authorized.Err? { return Some(authorized.error), id; }
      id := authorized.value;
      var _ := ClearRecovery();
      r := PayFee(env, charged);
    }

    method GuardianCancelRecoveryNow(env: Env, salt: B256) returns (r: Option<Error>)
      modifies this`recoveryNullifier, this`recoveryEta
      ensures Refines(r, ZERO_WORD, DoGuardianCancelRecovery(old(Abs()), env, salt), old(sent))
    {
      var isGuardian := RequireGuardian(env, salt);
      if !isGuardian { return Some(NotGuardian); }
      if recoveryEta == 0 { return Some(NoRecovery); }
      var _ := ClearRecovery();
      return None;
    }

    // Reverting.

    method Save() returns (saved: Saved)
      requires pendingIds.Length == MAX_PENDING
      ensures Holds(saved)
    {
      saved := Saved(
        initialized, Config(changeDelay, recoveryDelay, maxFee, feeRecipient),
        Rules(perTxCap, dailyCap, newPayeeCap, frozen, allowlistEnabled, paymentSheetRequired, allowedRecipients),
        Ownership(ownerCount, ownerEpoch, owners), guardianCommitment, Recovery(recoveryNullifier, recoveryEta), nonce,
        spendDay, spentToday, knownRecipients, pending, pendingIds[..], sent);
    }

    /** The storage is exactly what was saved. */
    ghost predicate Holds(saved: Saved)
      reads this, pendingIds
    {
      && saved.initialized == initialized && saved.config == ConfigNow() && saved.rules == RulesNow()
      && saved.ownership == OwnershipNow() && saved.guardian == guardianCommitment
      && saved.recovery == Recovery(recoveryNullifier, recoveryEta) && saved.nonce == nonce
      && saved.spendDay == spendDay && saved.spentToday == spentToday && saved.knownRecipients == knownRecipients
      && saved.pending == pending && saved.slots == pendingIds[..] && saved.sent == sent
    }

    method RestoreRules(rules: Rules)
      modifies this`perTxCap, this`dailyCap, this`newPayeeCap, this`frozen, this`allowlistEnabled, this`paymentSheetRequired,
        this`allowedRecipients
      ensures RulesNow() == rules
    {
      perTxCap, dailyCap, newPayeeCap := rules.perTxCap, rules.dailyCap, rules.newPayeeCap;
      frozen, allowlistEnabled, paymentSheetRequired := rules.frozen, rules.allowlistEnabled, rules.paymentSheetRequired;
      allowedRecipients := rules.allowedRecipients;
    }

    method RestoreConfig(config: Config, ownership: Ownership)
      modifies this`changeDelay, this`recoveryDelay, this`maxFee, this`feeRecipient, this`ownerCount, this`ownerEpoch, this`owners
      ensures ConfigNow() == config && OwnershipNow() == ownership
    {
      changeDelay, recoveryDelay, maxFee, feeRecipient := config.changeDelay, config.recoveryDelay, config.maxFee, config.feeRecipient;
      ownerCount, ownerEpoch, owners := ownership.count, ownership.epoch, ownership.keys;
    }

    method RestoreSlots(slots: seq<B256>)
      requires pendingIds.Length == |slots|
      modifies pendingIds
      ensures pendingIds[..] == slots
    {
      for i := 0 to |slots|
        invariant pendingIds[..i] == slots[..i]
      {
        pendingIds[i] := slots[i];
      }
    }

    method Restore(saved: Saved)
      requires pendingIds.Length == |saved.slots|
      modifies this, pendingIds
      ensures Holds(saved)
    {
      RestoreRules(saved.rules);
      RestoreConfig(saved.config, saved.ownership);
      RestoreSlots(saved.slots);
      RestoreRest(saved);
    }

    method RestoreRest(saved: Saved)
      modifies this`initialized, this`guardianCommitment, this`nonce, this`recoveryNullifier, this`recoveryEta,
        this`spendDay, this`spentToday, this`knownRecipients, this`pending, this`sent
      ensures && saved.initialized == initialized && saved.guardian == guardianCommitment && saved.nonce == nonce
              && saved.recovery == Recovery(recoveryNullifier, recoveryEta) && saved.knownRecipients == knownRecipients
              && saved.spendDay == spendDay && saved.spentToday == spentToday && saved.pending == pending && saved.sent == sent
    {
      initialized, guardianCommitment, nonce := saved.initialized, saved.guardian, saved.nonce;
      recoveryNullifier, recoveryEta := saved.recovery.nullifier, saved.recovery.eta;
      spendDay, spentToday, knownRecipients := saved.spendDay, saved.spentToday, saved.knownRecipients;
      pending, sent := saved.pending, saved.sent;
    }

    method Dispatch(env: Env, call: Call) returns (r: Option<Error>, id: B256)
      requires SlotsOk() && NewIdsAreFree(Live(pending), nonce) && 0 < env.now
      modifies this, pendingIds
      ensures Refines(r, id, Step(old(Abs()), env, call), old(sent))
      ensures r.None? ==> SlotsOk()
    {
      id := ZERO_WORD;
      match call {
        case Initialize(_, _, _, _, _, _) => r := InitializeAccount(call);
        case Pay(to, amount, auth) => r, id := PayNow(env, to, amount, auth);
        case ScheduleChange(kind, payload, auth) => r, id := ScheduleChangeNow(env, kind, payload, auth);
        case Restrict(kind, payload, auth) => r, id := RestrictNow(env, kind, payload, auth);
        case ApplyChange(changeId, kind, payload) => r := ApplyChangeNow(env, changeId, kind, payload);
        case CancelChange(changeId, auth) => r, id := CancelChangeNow(env, changeId, auth);
        case GuardianCancelChange(changeId, salt) => r := GuardianCancelChangeNow(env, changeId, salt);
        case GuardianFreeze(salt) => r := GuardianFreezeNow(env, salt);
        case InitiateRecovery(newNullifier, salt) => r := InitiateRecoveryNow(env, newNullifier, salt);
        case ExecuteRecovery => r := ExecuteRecoveryNow(env);
        case CancelRecovery(auth) => r, id := CancelRecoveryNow(env, auth);
        case GuardianCancelRecovery(salt) => r := GuardianCancelRecoveryNow(env, salt);
      }
    }

    /** One transaction: the call, and its revert when it fails. The account does exactly what its step says. */
    method Execute(env: Env, call: Call) returns (r: Option<Error>, id: B256)
      requires Valid() && 0 < env.now
      modifies this, pendingIds
      ensures Valid()
      ensures Abs() == Next(old(Abs()), env, call)
      ensures var outcome := Step(old(Abs()), env, call);
              if outcome.Err? then r == Some(outcome.error) && sent == old(sent)
              else r.None? && id == outcome.value.id && sent == old(sent) + outcome.value.transfers
    {
      ghost var s := Abs();
      var saved := Save();
      IdsAreFree(s);
      r, id := Dispatch(env, call);
      if r.Some? {
        Restore(saved);
      }
      InvStep(s, env, call);
    }
  }
}
