/**
 * What each field of the account reads as, from the calls alone: the last successful call that said something about it
 * (contracts/stylus/account/src/lib.rs).
 */
module AccountSettings {
  import opened Primitives
  import opened Changes
  import opened Spending
  import opened AccountSpec
  import opened AccountInvariant
  import opened AccountRuns
  import opened AccountReplay
  import opened AccountGuardian
  import opened AccountChanges

  /** One thing the account remembers; of its storage only the nonce, the day's window and the known recipients are not among them. */
  datatype Setting =
    | Initialized | ChangeDelay | RecoveryDelay | MaxFee | FeeRecipient
    | PerTxCap | DailyCap | NewPayeeCap
    | Frozen | Allowlist | SheetRequired | Allowed(to: Address)
    | OwnedBy(nullifier: B256) | Epoch | GuardedBy | Recovering | Waiting(id: B256)

  datatype Reading =
    | Number(n: nat) | Flag(on: bool) | Named(word: B256) | Standing(recovery: Recovery) | Entry(change: Option<Pending>)

  function Read(s: Account, setting: Setting): Reading {
    match setting
    case Initialized => Flag(s.initialized)
    case ChangeDelay => Number(s.config.changeDelay)
    case RecoveryDelay => Number(s.config.recoveryDelay)
    case MaxFee => Number(s.config.maxFee)
    case FeeRecipient => Number(s.config.feeRecipient)
    case PerTxCap => Number(s.rules.perTxCap)
    case DailyCap => Number(s.rules.dailyCap)
    case NewPayeeCap => Number(s.rules.newPayeeCap)
    case Frozen => Flag(s.rules.frozen)
    case Allowlist => Flag(s.rules.allowlistEnabled)
    case SheetRequired => Flag(s.rules.paymentSheetRequired)
    case Allowed(to) => Flag(to in s.rules.allowedRecipients)
    case OwnedBy(nullifier) => Flag(s.Owns(nullifier))
    case Epoch => Number(s.ownership.epoch)
    case GuardedBy => Named(s.guardian)
    case Recovering => Standing(s.recovery)
    case Waiting(id) => Entry(if id in s.pending then Some(s.pending[id]) else None)
  }

  /** The call makes a change of this kind take effect, at once or after its wait. */
  predicate Makes(call: Call, kind: nat) {
    (call.ApplyChange? || call.Restrict?) && call.kind == kind
  }

  /** The `i`-th word of the change a call makes. */
  function WordOf(call: Call, i: nat): B256
    requires call.ApplyChange? || call.Restrict?
  {
    if i < |call.payload.words| then call.payload.words[i] else ZERO_WORD
  }

  function NumberOf(call: Call, i: nat): nat
    requires call.ApplyChange? || call.Restrict?
  {
    Value(WordOf(call, i))
  }

  /** A waiting change leaves the table: it is applied or cancelled, or everything of its kind is. */
  ghost predicate Removes(s: Account, call: Call, id: B256) {
    || ((call.ApplyChange? || call.CancelChange? || call.GuardianCancelChange?) && call.changeId == id)
    || call.ExecuteRecovery?
    || (call.Restrict? && call.kind == FREEZE)
    || (call.GuardianFreeze? && id in s.pending && s.pending[id].kind != SET_GUARDIAN)
  }

  /** The entry a scheduled change waits as: ready after the change delay, a guardian only after the recovery delay more. */
  function Entered(s: Account, env: Env, call: Call): Pending
    requires call.ScheduleChange?
  {
    var wait := s.config.changeDelay + (if call.kind == SET_GUARDIAN then s.config.recoveryDelay else 0);
    Pending(call.kind, DataHash(call.kind, call.payload), env.now + wait, s.ownership.epoch)
  }

  /** What a successful call says a setting is from now on, if it says anything. */
  ghost function Says(s: Account, env: Env, call: Call, setting: Setting): Option<Reading> {
    match setting
    case Initialized => if call.Initialize? then Some(Flag(true)) else None
    case ChangeDelay => if call.Initialize? then Some(Number(call.policy.changeDelay)) else None
    case RecoveryDelay => if call.Initialize? then Some(Number(call.policy.recoveryDelay)) else None
    case MaxFee => if call.Initialize? then Some(Number(call.policy.maxFee)) else None
    case FeeRecipient => if call.Initialize? then Some(Number(call.feeRecipient)) else None
    case PerTxCap =>
      if call.Initialize? then Some(Number(call.policy.perTxCap))
      else if Makes(call, SET_LIMITS) then Some(Number(NumberOf(call, 0))) else None
    case DailyCap =>
      if call.Initialize? then Some(Number(call.policy.dailyCap))
      else if Makes(call, SET_LIMITS) then Some(Number(NumberOf(call, 1))) else None
    case NewPayeeCap =>
      if call.Initialize? then Some(Number(call.policy.newPayeeCap))
      else if Makes(call, SET_NEW_PAYEE_CAP) then Some(Number(NumberOf(call, 0))) else None
    case Frozen =>
      if call.GuardianFreeze? || Makes(call, FREEZE) then Some(Flag(true))
      else if Makes(call, UNFREEZE) then Some(Flag(false)) else None
    case Allowlist => if Makes(call, SET_ALLOWLIST) then Some(Flag(NumberOf(call, 0) == 1)) else None
    case SheetRequired => if Makes(call, SET_PAYMENT_SHEET) then Some(Flag(NumberOf(call, 0) == 1)) else None
    case Allowed(to) => if Makes(call, SET_RECIPIENT) && NumberOf(call, 0) == to then Some(Flag(NumberOf(call, 1) == 1)) else None
    case OwnedBy(nullifier) =>
      if call.ExecuteRecovery? then Some(Flag(nullifier == s.recovery.nullifier))
      else if (call.Initialize? && call.ownerNullifier == nullifier) || (Makes(call, ADD_OWNER) && WordOf(call, 0) == nullifier) then
        Some(Flag(true))
      else if Makes(call, REMOVE_OWNER) && WordOf(call, 0) == nullifier then Some(Flag(false)) else None
    case Epoch => if call.ExecuteRecovery? then Some(Number(s.ownership.epoch + 1)) else None
    case GuardedBy => if Makes(call, SET_GUARDIAN) then Some(Named(WordOf(call, 0))) else None
    case Recovering =>
      if call.InitiateRecovery? then Some(Standing(Recovery(call.newNullifier, env.now + s.config.recoveryDelay)))
      else if call.ExecuteRecovery? || call.CancelRecovery? || call.GuardianCancelRecovery? || Makes(call, SET_GUARDIAN) then
        Some(Standing(Recovery(ZERO_WORD, 0)))
      else None
    case Waiting(id) =>
      if Removes(s, call, id) then Some(Entry(None))
      else if call.ScheduleChange? && id == Keccak(ActionPreimage(Meaning(s, env, call))) then Some(Entry(Some(Entered(s, env, call))))
      else None
  }

  predicate AboutRules(setting: Setting) {
    setting.PerTxCap? || setting.DailyCap? || setting.NewPayeeCap? || setting.Frozen? || setting.Allowlist? || setting.SheetRequired?
    || setting.Allowed?
  }

  /** `t` reads as the call says where it says something, and as `s` did elsewhere. */
  ghost predicate Obeyed(s: Account, env: Env, call: Call, setting: Setting) {
    Read(Next(s, env, call), setting)
    == if Step(s, env, call).Ok? && Says(s, env, call, setting).Some? then Says(s, env, call, setting).value else Read(s, setting)
  }

  /** What a change does to the rules, by field and by what its words say. */
  lemma AppliedRules(s: Account, kind: nat, payload: Payload)
    requires Apply(s, kind, payload).Ok?
    ensures var a, b, w := s.rules, Apply(s, kind, payload).value.rules, payload.words;
            && b.perTxCap == (if kind == SET_LIMITS && |w| == 2 then Value(w[0]) else a.perTxCap)
            && b.dailyCap == (if kind == SET_LIMITS && |w| == 2 then Value(w[1]) else a.dailyCap)
            && b.newPayeeCap == (if kind == SET_NEW_PAYEE_CAP && |w| == 1 then Value(w[0]) else a.newPayeeCap)
            && b.frozen == (kind == FREEZE || (kind != UNFREEZE && a.frozen))
            && b.allowlistEnabled == (if kind == SET_ALLOWLIST && |w| == 1 then Value(w[0]) == 1 else a.allowlistEnabled)
            && b.paymentSheetRequired == (if kind == SET_PAYMENT_SHEET && |w| == 1 then Value(w[0]) == 1 else a.paymentSheetRequired)
            && (forall to :: to in b.allowedRecipients <==>
                  if kind == SET_RECIPIENT && |w| == 2 && Value(w[0]) == to then Value(w[1]) == 1 else to in a.allowedRecipients)
    ensures kind == SET_LIMITS || kind == SET_RECIPIENT ==> |payload.words| == 2
    ensures kind == SET_NEW_PAYEE_CAP || kind == SET_ALLOWLIST || kind == SET_PAYMENT_SHEET ==> |payload.words| == 1
  {
  }

  lemma AppliedOwners(s: Account, kind: nat, payload: Payload)
    requires Apply(s, kind, payload).Ok?
    ensures var t := Apply(s, kind, payload).value;
            && t.ownership.epoch == s.ownership.epoch
            && (kind == ADD_OWNER || kind == REMOVE_OWNER || kind == SET_GUARDIAN ==> |payload.words| == 1)
            && (forall n :: t.Owns(n) <==>
                  if kind == ADD_OWNER && n == payload.words[0] then true
                  else if kind == REMOVE_OWNER && n == payload.words[0] then false else s.Owns(n))
            && t.guardian == (if kind == SET_GUARDIAN then payload.words[0] else s.guardian)
            && (kind != SET_GUARDIAN ==> t.recovery == s.recovery)
            && (kind == SET_GUARDIAN ==> t.recovery == if s.recovery.eta != 0 then NO_RECOVERY else s.recovery)
            && t == s.(rules := t.rules, ownership := t.ownership, guardian := t.guardian, recovery := t.recovery)
  {
  }

  /** A call that makes a change leaves what the change leaves, but for its own bookkeeping. */
  lemma MadeByApply(s: Account, env: Env, call: Call)
    requires Step(s, env, call).Ok? && (call.ApplyChange? || call.Restrict?)
    ensures Apply(s, call.kind, call.payload).Ok?
    ensures var a, t := Apply(s, call.kind, call.payload).value, Next(s, env, call);
            t == a.(nonce := t.nonce, window := t.window, pending := t.pending)
  {
    if call.Restrict? {
      ApplyFrame(Charged(s, env, call.auth), s, call.kind, call.payload);
    } else {
      ApplyFrame(s.(pending := s.pending - {call.changeId}), s, call.kind, call.payload);
    }
    hide Apply;
  }

  lemma ApplyFrame(a: Account, b: Account, kind: nat, payload: Payload)
    requires a == b.(nonce := a.nonce, window := a.window, pending := a.pending)
    ensures Apply(a, kind, payload).Ok? <==> Apply(b, kind, payload).Ok?
    ensures Apply(a, kind, payload).Ok? ==>
              Apply(a, kind, payload).value
              == Apply(b, kind, payload).value.(nonce := a.nonce, window := a.window, pending := a.pending)
  {
  }

  /** What the calls do that make no change of the account's settings take effect. */
  lemma PlainCalls(s: Account, env: Env, call: Call)
    requires !call.ApplyChange? && !call.Restrict? && !call.Initialize?
    ensures var t := Next(s, env, call);
            && t.initialized == s.initialized && t.config == s.config && t.guardian == s.guardian
            && t.rules == s.rules.(frozen := s.rules.frozen || (Step(s, env, call).Ok? && call.GuardianFreeze?))
            && (!TouchesRecovery(call) ==> t.recovery == s.recovery && t.ownership == s.ownership)
            && (!call.ExecuteRecovery? ==> t.ownership == s.ownership)
  {
    if call.ScheduleChange? || call.Pay? {
      hide Authorize, PaymentWindow, ScheduleWindow, FeeCharge, Move, CheckSpend;
    } else {
      hide Authorize, FeeCharge, Move, Kept;
    }
  }

  lemma Initializes(s: Account, env: Env, call: Call)
    requires call.Initialize? && Step(s, env, call).Ok?
    ensures var t, p := Next(s, env, call), call.policy;
            && !s.initialized && t.initialized
            && t.config == Config(p.changeDelay, p.recoveryDelay, p.maxFee, call.feeRecipient)
            && t.rules == s.rules.(perTxCap := p.perTxCap, dailyCap := p.dailyCap, newPayeeCap := p.newPayeeCap)
            && t.ownership.epoch == s.ownership.epoch
            && t.ownership.keys == s.ownership.keys + {OwnerKey(s.ownership.epoch, call.ownerNullifier)}
            && t.guardian == s.guardian && t.recovery == s.recovery
  {
  }

  /** A recovery that executes, or is started or ended. */
  lemma RecoveryCalls(s: Account, env: Env, call: Call)
    requires TouchesRecovery(call) && Step(s, env, call).Ok?
    ensures call.ExecuteRecovery? ==> s.recovery.eta != 0
    ensures Next(s, env, call).recovery
            == if call.InitiateRecovery? then Recovery(call.newNullifier, env.now + s.config.recoveryDelay) else Recovery(ZERO_WORD, 0)
    ensures call.ExecuteRecovery? ==>
              var o := Next(s, env, call).ownership;
              o.epoch == s.ownership.epoch + 1 && o.keys == s.ownership.keys + {OwnerKey(s.ownership.epoch + 1, s.recovery.nullifier)}
  {
    hide Authorize;
  }

  lemma MadeRulesSay(s: Account, env: Env, call: Call, setting: Setting)
    requires AboutRules(setting) && Step(s, env, call).Ok? && (call.ApplyChange? || call.Restrict?)
    ensures Obeyed(s, env, call, setting)
  {
    hide Step, Apply;
    MadeByApply(s, env, call);
    AppliedRules(s, call.kind, call.payload);
  }

  lemma RulesSay(s: Account, env: Env, call: Call, setting: Setting)
    requires AboutRules(setting)
    ensures Obeyed(s, env, call, setting)
  {
    hide Step, Apply;
    if Step(s, env, call).Ok? && (call.ApplyChange? || call.Restrict?) {
      MadeRulesSay(s, env, call, setting);
    } else if Step(s, env, call).Ok? {
      if call.Initialize? {
        Initializes(s, env, call);
      } else {
        PlainCalls(s, env, call);
        if TouchesRecovery(call) {
          RecoveryCalls(s, env, call);
        }
      }
    }
  }

  lemma ConfigSays(s: Account, env: Env, call: Call, setting: Setting)
    requires setting.Initialized? || setting.ChangeDelay? || setting.RecoveryDelay? || setting.MaxFee? || setting.FeeRecipient?
    ensures Obeyed(s, env, call, setting)
  {
    hide Step, Apply;
    if Step(s, env, call).Ok? && (call.ApplyChange? || call.Restrict?) {
      MadeByApply(s, env, call);
      AppliedOwners(s, call.kind, call.payload);
    } else if Step(s, env, call).Ok? {
      if call.Initialize? {
        Initializes(s, env, call);
      } else {
        PlainCalls(s, env, call);
        if TouchesRecovery(call) {
          RecoveryCalls(s, env, call);
        }
      }
    }
  }

  lemma MadeOwnersSay(s: Account, env: Env, call: Call, setting: Setting)
    requires (setting.OwnedBy? || setting.Epoch? || setting.GuardedBy?) && Step(s, env, call).Ok?
    requires call.ApplyChange? || call.Restrict?
    ensures Obeyed(s, env, call, setting)
  {
    hide Step, Apply;
    MadeByApply(s, env, call);
    AppliedOwners(s, call.kind, call.payload);
    var a := Apply(s, call.kind, call.payload).value;
    assert forall n :: Next(s, env, call).Owns(n) <==> a.Owns(n);
  }

  lemma OwnersSay(s: Account, env: Env, call: Call, setting: Setting)
    requires Inv(s) && (setting.OwnedBy? || setting.Epoch? || setting.GuardedBy?)
    ensures Obeyed(s, env, call, setting)
  {
    hide Step, Apply, CapsOk, PendingOk;
    if Step(s, env, call).Ok? && (call.ApplyChange? || call.Restrict?) {
      MadeOwnersSay(s, env, call, setting);
    } else if Step(s, env, call).Ok? {
      if call.Initialize? {
        Initializes(s, env, call);
      } else {
        PlainCalls(s, env, call);
        if TouchesRecovery(call) {
          RecoveryCalls(s, env, call);
        }
      }
    }
  }

  lemma RecoverySays(s: Account, env: Env, call: Call)
    requires Inv(s)
    ensures Obeyed(s, env, call, Recovering)
  {
    hide Step, Apply, CapsOk, OwnersOk, PendingOk;
    if Step(s, env, call).Ok? {
      if call.ApplyChange? || call.Restrict? {
        MadeByApply(s, env, call);
        AppliedOwners(s, call.kind, call.payload);
      } else if call.Initialize? {
        Initializes(s, env, call);
      } else {
        PlainCalls(s, env, call);
        if TouchesRecovery(call) {
          RecoveryCalls(s, env, call);
        }
      }
    }
  }

  /** What a call does to the table of waiting changes. */
  lemma TableCalls(s: Account, env: Env, call: Call, id: B256)
    requires Step(s, env, call).Ok? && !call.ScheduleChange? && !call.ApplyChange? && !call.Restrict?
    ensures var t := Next(s, env, call).pending;
            && (id in t <==> id in s.pending && !Removes(s, call, id))
            && (id in t ==> t[id] == s.pending[id])
  {
    hide Authorize, PaymentWindow;
  }

  lemma MakingCalls(s: Account, env: Env, call: Call, id: B256)
    requires Step(s, env, call).Ok? && (call.ApplyChange? || call.Restrict?)
    ensures var t := Next(s, env, call).pending;
            && (id in t <==> id in s.pending && !Removes(s, call, id))
            && (id in t ==> t[id] == s.pending[id])
  {
    if call.Restrict? {
      ApplyKeepsPending(Charged(s, env, call.auth), call.kind, call.payload);
    } else {
      ApplyKeepsPending(s.(pending := s.pending - {call.changeId}), call.kind, call.payload);
    }
    hide Authorize, Apply;
  }

  lemma SchedulingCalls(s: Account, env: Env, call: Call, id: B256)
    requires Step(s, env, call).Ok? && call.ScheduleChange?
    ensures Next(s, env, call).pending == s.pending[Keccak(ActionPreimage(Meaning(s, env, call))) := Entered(s, env, call)]
  {
    NonceStep(s, env, call);
    hide Authorize, ScheduleWindow;
  }

  lemma WaitingSays(s: Account, env: Env, call: Call, id: B256)
    ensures Obeyed(s, env, call, Waiting(id))
  {
    hide Step;
    if Step(s, env, call).Ok? {
      if call.ScheduleChange? {
        SchedulingCalls(s, env, call, id);
      } else if call.ApplyChange? || call.Restrict? {
        MakingCalls(s, env, call, id);
      } else {
        TableCalls(s, env, call, id);
      }
    }
  }

  lemma StepSays(s: Account, env: Env, call: Call, setting: Setting)
    requires Inv(s)
    ensures Obeyed(s, env, call, setting)
  {
    hide Obeyed, Inv;
    match setting
    case OwnedBy(_) => OwnersSay(s, env, call, setting);
    case Epoch => OwnersSay(s, env, call, setting);
    case GuardedBy => OwnersSay(s, env, call, setting);
    case Recovering => RecoverySays(s, env, call);
    case Waiting(id) => WaitingSays(s, env, call, id);
    case _ =>
      if AboutRules(setting) {
        RulesSay(s, env, call, setting);
      } else {
        ConfigSays(s, env, call, setting);
      }
  }

  // ---------------------------------------------------------------------------------------------------------------
  // Over whole runs.

  /** What event `k` says about a setting. */
  ghost function Said(r: Run, k: nat, setting: Setting): Option<Reading>
    requires IsRun(r) && k < |r.events|
  {
    if Succeeds(r, k) then Says(r.states[k], r.events[k].env, r.events[k].call, setting) else None
  }

  lemma SaidAt(r: Run, k: nat, setting: Setting)
    requires IsRun(r) && k < |r.events|
    ensures Read(r.states[k + 1], setting) == if Said(r, k, setting).Some? then Said(r, k, setting).value else Read(r.states[k], setting)
  {
    Reachable(r, k);
    assert StepAt(r, k);
    StepSays(r.states[k], r.events[k].env, r.events[k].call, setting);
    hide Step, Inv, Says, Read;
  }

  /** Nothing changes of which no call speaks. */
  lemma {:induction false} UnsaidStays(r: Run, i: nat, n: nat, setting: Setting)
    requires IsRun(r) && i <= n < |r.states|
    requires forall k :: i <= k < n ==> Said(r, k, setting).None?
    ensures Read(r.states[n], setting) == Read(r.states[i], setting)
  {
    hide Said, Read;
    if i < n {
      UnsaidStays(r, i, n - 1, setting);
      SaidAt(r, n - 1, setting);
    }
  }

  /**
   * Every setting reads as the last successful call said that spoke of it: a change as its words do, whether it waited or
   * applied at once, an initialization as its policy does, a recovery as it was started, a scheduled change with its exact time.
   */
  lemma LastWordHolds(r: Run, k: nat, n: nat, setting: Setting)
    requires IsRun(r) && k < n < |r.states| && Said(r, k, setting).Some?
    requires forall j :: k < j < n ==> Said(r, j, setting).None?
    ensures Read(r.states[n], setting) == Said(r, k, setting).value
  {
    hide Said, Read;
    SaidAt(r, k, setting);
    UnsaidStays(r, k + 1, n, setting);
  }

  /** The account is as this change asks. */
  predicate Fulfils(s: Account, change: Change) {
    match change
    case Adds(n) => s.Owns(n)
    case Drops(n) => !s.Owns(n)
    case Caps(perTx, daily) => s.rules.perTxCap == perTx && s.rules.dailyCap == daily
    case Allows(to) => to in s.rules.allowedRecipients
    case Forbids(to) => to !in s.rules.allowedRecipients
    case Allowlists(on) => s.rules.allowlistEnabled == on
    case Entrusts(commitment) => s.guardian == commitment && s.recovery == Recovery(ZERO_WORD, 0)
    case CapsNewPayees(cap) => s.rules.newPayeeCap == cap
    case Stops => s.rules.frozen
    case Thaws => !s.rules.frozen
    case RequiresSheet(on) => s.rules.paymentSheetRequired == on
  }

  /** In every run a change that took effect, after its wait or at once, left the account as its payload asks. */
  lemma ChangesAreFulfilled(r: Run, i: nat)
    requires IsRun(r) && i < |r.events| && Succeeds(r, i) && (r.events[i].call.ApplyChange? || r.events[i].call.Restrict?)
    ensures IsValid(r.events[i].call.kind, r.events[i].call.payload)
    ensures Fulfils(r.states[i + 1], Meant(r.events[i].call.kind, r.events[i].call.payload))
  {
    var s, call := r.states[i], r.events[i].call;
    assert StepAt(r, i);
    MadeByApply(s, r.events[i].env, call);
    Reachable(r, i);
    ApplyFulfils(s, call.kind, call.payload);
    hide Step, Apply, Meant;
  }

  lemma ApplyFulfils(s: Account, kind: nat, payload: Payload)
    requires Apply(s, kind, payload).Ok? && RecoveryOk(s)
    ensures IsValid(kind, payload) && Fulfils(Apply(s, kind, payload).value, Meant(kind, payload))
  {
  }

  // ---------------------------------------------------------------------------------------------------------------
  // A guardian that was replaced.

  /** Event `k` put this commitment in office. */
  ghost predicate Appoints(r: Run, k: nat, commitment: B256)
    requires IsRun(r) && k < |r.events|
  {
    && Succeeds(r, k) && r.events[k].call.ApplyChange? && r.events[k].call.kind == SET_GUARDIAN
    && r.events[k].call.payload == Payload([commitment], [])
  }

  lemma {:induction false} CameIntoOffice(r: Run, i: nat, n: nat, commitment: B256)
    requires IsRun(r) && i <= n < |r.states| && r.states[i].guardian != commitment && r.states[n].guardian == commitment
    ensures exists k: nat :: i <= k < n && Appoints(r, k, commitment)
  {
    assert n > i;
    if r.states[n - 1].guardian == commitment {
      CameIntoOffice(r, i, n - 1, commitment);
    } else {
      SaidAt(r, n - 1, GuardedBy);
      AppointedBy(r, n - 1);
      assert Appoints(r, n - 1, commitment);
    }
  }

  lemma AppointedBy(r: Run, k: nat)
    requires IsRun(r) && k < |r.events| && r.states[k + 1].guardian != r.states[k].guardian
    ensures Appoints(r, k, r.states[k + 1].guardian)
  {
    SaidAt(r, k, GuardedBy);
    assert StepAt(r, k);
    var call := r.events[k].call;
    MadeByApply(r.states[k], r.events[k].env, call);
    AppliedWords(r.states[k], call.kind, call.payload);
    if call.Restrict? {
      RestrictiveTightens(r.states[k].rules, call.kind, call.payload);
    }
    hide Apply;
  }

  lemma AppliedWords(s: Account, kind: nat, payload: Payload)
    requires Apply(s, kind, payload).Ok? && kind == SET_GUARDIAN
    ensures payload == Payload([payload.words[0]], [])
  {
    assert payload.words == [payload.words[0]];
  }

  /** A guardian's call by someone whose commitment is not in office does nothing. */
  lemma StrangersAreRefused(s: Account, env: Env, call: Call)
    requires SaltOf(call).Some? && s.initialized
    requires s.guardian != Keccak(GuardianPreimage(env.self, env.sender, SaltOf(call).value))
    ensures Step(s, env, call) == Err(NotGuardian)
  {
  }

  /** Once another guardian is appointed, every call of the old one is refused, until it is appointed again. */
  lemma ReplacedGuardianIsOut(r: Run, k: nat, i: nat, commitment: B256)
    requires IsRun(r) && k < i < |r.events| && Appoints(r, k, commitment) && SaltOf(r.events[i].call).Some?
    requires var e := r.events[i]; Keccak(GuardianPreimage(e.env.self, e.env.sender, SaltOf(e.call).value)) != commitment
    ensures r.states[k + 1].guardian == commitment
    ensures var e := r.events[i];
            var old_ := Keccak(GuardianPreimage(e.env.self, e.env.sender, SaltOf(e.call).value));
            r.outcomes[i] == Err(NotGuardian) || exists j: nat :: k < j < i && Appoints(r, j, old_)
  {
    SaidAt(r, k, GuardedBy);
    AppliesWhenInitialized(r, k);
    ConfigNeverChanges(r, k, i);
    assert StepAt(r, i);
    var e := r.events[i];
    var old_ := Keccak(GuardianPreimage(e.env.self, e.env.sender, SaltOf(e.call).value));
    if r.states[i].guardian == old_ {
      CameIntoOffice(r, k + 1, i, old_);
    } else {
      StrangersAreRefused(r.states[i], e.env, e.call);
    }
    hide Step;
  }

  lemma AppliesWhenInitialized(r: Run, k: nat)
    requires IsRun(r) && k < |r.events| && Succeeds(r, k) && r.events[k].call.ApplyChange?
    ensures r.states[k].initialized
  {
    assert StepAt(r, k);
  }
}
