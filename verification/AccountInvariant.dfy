/** What every reachable account state satisfies, and why a waiting change can never get stuck. */
module AccountInvariant {
  import opened Primitives
  import opened Changes
  import opened Spending
  import opened AccountSpec

  /** The keys that own now. */
  ghost function Current(s: Account): set<OwnerKey> {
    set key | key in s.ownership.keys && key.epoch == s.ownership.epoch
  }

  ghost predicate CapsOk(s: Account) {
    && 0 < s.rules.perTxCap <= s.rules.dailyCap && s.config.maxFee <= s.rules.perTxCap
    && s.config.changeDelay <= MAX_DELAY && s.config.recoveryDelay <= MAX_DELAY
    && s.window.spent < TWO_128
  }

  ghost predicate OwnersOk(s: Account) {
    && s.ownership.count == |Current(s)|
    && 1 <= s.ownership.count
    && forall key <- s.ownership.keys :: key.epoch <= s.ownership.epoch && IsNullifier(key.nullifier)
  }

  /** `hash` is the digest of a change of kind `kind` that passed `check_schedule`'s payload tests. */
  ghost predicate Describes(s: Account, hash: B256, kind: nat) {
    && hash.Keccak? && hash.preimage.ChangePreimage? && hash.preimage.changeKind == kind
    && kind != FREEZE
    && IsValid(kind, hash.preimage.payload)
    && KeepsFeesPayable(kind, hash.preimage.payload, s.config.maxFee)
  }

  /** `id` is the digest of a schedule action over `dataHash` with a nonce already used. */
  ghost predicate Issued(id: B256, dataHash: B256, nonce: nat) {
    && id.Keccak? && id.preimage.ActionPreimage?
    && id.preimage.action.nonce < nonce
    && id.preimage.action.kind == SCHEDULE_CHANGE
    && id.preimage.action.dataHash == dataHash
  }

  ghost predicate EntryOk(s: Account, id: B256, p: Pending) {
    && Issued(id, p.payloadHash, s.nonce)
    && Describes(s, p.payloadHash, p.kind)
    && 0 < p.eta
    && p.ownerEpoch == s.ownership.epoch
    && (p.kind == ADD_OWNER ==> !s.Owns(PayloadOf(p).words[0]))
    && (p.kind == REMOVE_OWNER ==> s.Owns(PayloadOf(p).words[0]))
  }

  /** The payload a waiting change's hash commits to. */
  ghost function PayloadOf(p: Pending): Payload
    requires p.payloadHash.Keccak? && p.payloadHash.preimage.ChangePreimage?
  {
    p.payloadHash.preimage.payload
  }

  ghost predicate DistinctHashes(pending: map<B256, Pending>) {
    forall a, b :: a in pending && b in pending && a != b ==> pending[a].payloadHash != pending[b].payloadHash
  }

  ghost predicate PendingOk(s: Account) {
    && (forall id <- s.pending :: EntryOk(s, id, s.pending[id]))
    && DistinctHashes(s.pending)
    && |s.pending| <= MAX_PENDING
    && |Removals(s.pending)| < s.ownership.count
  }

  ghost predicate RecoveryOk(s: Account) {
    if s.recovery.eta == 0 then s.recovery == NO_RECOVERY
    else IsNullifier(s.recovery.nullifier) && s.guardian.Keccak?
  }

  /** The invariant: blank storage until `initialize`, and everything above from then on. */
  ghost predicate Inv(s: Account) {
    if s.initialized then CapsOk(s) && OwnersOk(s) && PendingOk(s) && RecoveryOk(s) else s == BLANK
  }

  lemma RemovalsOfSmaller(pending: map<B256, Pending>, fewer: map<B256, Pending>)
    requires fewer.Keys <= pending.Keys && forall id <- fewer :: fewer[id] == pending[id]
    ensures |fewer| <= |pending|
    ensures Removals(fewer) <= Removals(pending) && |Removals(fewer)| <= |Removals(pending)|
  {
    SubsetSize(fewer.Keys, pending.Keys);
    SubsetSize(Removals(fewer), Removals(pending));
  }

  lemma {:induction false} SubsetSize<T>(a: set<T>, b: set<T>)
    requires a <= b
    ensures |a| <= |b|
  {
    assert b == a + (b - a);
  }

  /** The invariant survives dropping waiting changes. */
  lemma FewerPending(s: Account, fewer: map<B256, Pending>)
    requires s.initialized && Inv(s)
    requires fewer.Keys <= s.pending.Keys && forall id <- fewer :: fewer[id] == s.pending[id]
    ensures Inv(s.(pending := fewer))
  {
    RemovalsOfSmaller(s.pending, fewer);
    var t := s.(pending := fewer);
    assert Current(t) == Current(s);
    forall id <- fewer ensures EntryOk(t, id, fewer[id]) {
      assert EntryOk(s, id, s.pending[id]);
    }
  }

  /** The owner and pending parts of the invariant look only at the owners, the waiting changes and the largest fee. */
  lemma InvFrame(s: Account, t: Account)
    requires s.initialized && Inv(s)
    requires t.initialized && s.nonce <= t.nonce && t.config.maxFee == s.config.maxFee
    requires t.ownership == s.ownership && t.pending == s.pending
    requires CapsOk(t) && RecoveryOk(t)
    ensures Inv(t)
  {
    assert Current(t) == Current(s);
    forall id <- t.pending ensures EntryOk(t, id, t.pending[id]) {
      assert EntryOk(s, id, s.pending[id]);
    }
  }

  lemma InvInitialize(s: Account, call: Call)
    requires Inv(s) && call.Initialize? && DoInitialize(s, call).Ok?
    ensures Inv(DoInitialize(s, call).value.post)
  {
    var t := DoInitialize(s, call).value.post;
    assert Current(t) == {OwnerKey(0, call.ownerNullifier)};
    assert Removals(t.pending) == {};
  }

  lemma PendingInsert(pending: map<B256, Pending>, id: B256, p: Pending)
    requires id !in pending && DistinctHashes(pending) && !HashWaits(pending, p.payloadHash)
    ensures DistinctHashes(pending[id := p]) && |pending[id := p]| == |pending| + 1
    ensures |Removals(pending[id := p])| == |Removals(pending)| + (if p.kind == REMOVE_OWNER then 1 else 0)
  {
    assert forall i <- pending :: pending[i].payloadHash != p.payloadHash;
    hide HashWaits;
    assert pending[id := p].Keys == pending.Keys + {id};
    RemovalsInsert(pending, id, p);
  }

  lemma RemovalsInsert(pending: map<B256, Pending>, id: B256, p: Pending)
    requires id !in pending
    ensures |Removals(pending[id := p])| == |Removals(pending)| + (if p.kind == REMOVE_OWNER then 1 else 0)
  {
    assert Removals(pending[id := p]) == Removals(pending) + (if p.kind == REMOVE_OWNER then {id} else {});
  }

  /** A new waiting change keeps the invariant when `check_schedule` let it in and its id is new. */
  lemma InvInsert(s: Account, id: B256, p: Pending)
    requires s.initialized && Inv(s) && id !in s.pending && EntryOk(s, id, p)
    requires !HashWaits(s.pending, p.payloadHash) && |s.pending| < MAX_PENDING
    requires p.kind == REMOVE_OWNER ==> 1 + |Removals(s.pending)| < s.ownership.count
    ensures Inv(s.(pending := s.pending[id := p]))
  {
    var t := s.(pending := s.pending[id := p]);
    assert OwnersOk(t) by {
      assert Current(t) == Current(s);
    }
    assert PendingOk(t) by {
      PendingInsert(s.pending, id, p);
      forall i <- t.pending ensures EntryOk(t, i, t.pending[i]) {
        if i != id { assert EntryOk(s, i, s.pending[i]); }
      }
    }
  }

  /** The id of an action over the current nonce is new. */
  lemma FreshId(s: Account, id: B256)
    requires Inv(s)
    requires id.Keccak? && id.preimage.ActionPreimage? && id.preimage.action.nonce == s.nonce
    ensures id !in s.pending
  {
    if s.initialized {
      assert forall i <- s.pending :: EntryOk(s, i, s.pending[i]);
    }
  }

  /** No action over nonce `nonce` has an entry waiting. */
  ghost predicate NewIdsAreFree(pending: map<B256, Pending>, nonce: nat) {
    forall id <- pending :: !(id.Keccak? && id.preimage.ActionPreimage? && id.preimage.action.nonce == nonce)
  }

  lemma IdsAreFree(s: Account)
    requires Inv(s)
    ensures NewIdsAreFree(s.pending, s.nonce)
  {
    forall id <- s.pending ensures !(id.Keccak? && id.preimage.ActionPreimage? && id.preimage.action.nonce == s.nonce) {
      assert EntryOk(s, id, s.pending[id]);
    }
  }

  lemma InvSchedule(s: Account, env: Env, kind: nat, payload: Payload, auth: Auth)
    requires Inv(s) && 0 < env.now && DoScheduleChange(s, env, kind, payload, auth).Ok?
    ensures DoScheduleChange(s, env, kind, payload, auth).value.id !in s.pending
    ensures Inv(DoScheduleChange(s, env, kind, payload, auth).value.post)
  {
    hide ClientDataFault, CheckSpend;
    var e := DoScheduleChange(s, env, kind, payload, auth).value;
    var id := e.id;
    var p := Pending(kind, DataHash(kind, payload), env.now + Delay(s, kind), s.ownership.epoch);
    FreshId(s, id);
    var t := e.post.(pending := s.pending);
    InvFrame(s, t);
    InvInsert(t, id, p);
    assert e.post == t.(pending := t.pending[id := p]);
  }

  lemma ApplyPlainFrame(s: Account, kind: nat, payload: Payload)
    requires CapsOk(s) && RecoveryOk(s)
    requires IsValid(kind, payload) && KeepsFeesPayable(kind, payload, s.config.maxFee) && kind != ADD_OWNER && kind != REMOVE_OWNER
    ensures Apply(s, kind, payload).Ok?
    ensures var t := Apply(s, kind, payload).value;
            && CapsOk(t) && RecoveryOk(t) && t == s.(rules := t.rules, guardian := t.guardian, recovery := t.recovery)
  {
  }

  /** A change other than an owner change keeps the invariant when applied. */
  lemma InvApplyPlain(s: Account, kind: nat, payload: Payload)
    requires s.initialized && Inv(s) && IsValid(kind, payload) && KeepsFeesPayable(kind, payload, s.config.maxFee)
    requires kind != ADD_OWNER && kind != REMOVE_OWNER
    ensures Apply(s, kind, payload).Ok? && Inv(Apply(s, kind, payload).value)
  {
    ApplyPlainFrame(s, kind, payload);
    InvFrame(s, Apply(s, kind, payload).value);
  }

  /** Two owner changes of one kind over the same nullifier are the same change. */
  lemma SameNullifier(kind: nat, a: Payload, b: Payload)
    requires kind == ADD_OWNER || kind == REMOVE_OWNER
    requires IsValid(kind, a) && IsValid(kind, b)
    ensures a.words[0] == b.words[0] ==> DataHash(kind, a) == DataHash(kind, b)
  {
    if a.words[0] == b.words[0] {
      assert a.words == b.words;
    }
  }

  lemma InvAddOwner(s: Account, payload: Payload)
    requires s.initialized && Inv(s) && IsValid(ADD_OWNER, payload)
    requires !s.Owns(payload.words[0]) && !HashWaits(s.pending, DataHash(ADD_OWNER, payload))
    ensures Apply(s, ADD_OWNER, payload).Ok? && Inv(Apply(s, ADD_OWNER, payload).value)
  {
    var t := Apply(s, ADD_OWNER, payload).value;
    assert Current(t) == Current(s) + {OwnerKey(s.ownership.epoch, payload.words[0])};
    forall id <- t.pending ensures EntryOk(t, id, t.pending[id]) {
      var p := s.pending[id];
      assert EntryOk(s, id, p);
      assert p.payloadHash != DataHash(ADD_OWNER, payload);
      if p.kind == ADD_OWNER { SameNullifier(p.kind, PayloadOf(p), payload); }
    }
  }

  lemma InvRemoveOwner(s: Account, payload: Payload)
    requires s.initialized && Inv(s) && IsValid(REMOVE_OWNER, payload)
    requires s.Owns(payload.words[0]) && !HashWaits(s.pending, DataHash(REMOVE_OWNER, payload))
    requires |Removals(s.pending)| + 1 < s.ownership.count
    ensures Apply(s, REMOVE_OWNER, payload).Ok? && Inv(Apply(s, REMOVE_OWNER, payload).value)
  {
    var t := Apply(s, REMOVE_OWNER, payload).value;
    assert Current(t) == Current(s) - {OwnerKey(s.ownership.epoch, payload.words[0])};
    forall id <- t.pending ensures EntryOk(t, id, t.pending[id]) {
      var p := s.pending[id];
      assert EntryOk(s, id, p);
      assert p.payloadHash != DataHash(REMOVE_OWNER, payload);
      if p.kind == REMOVE_OWNER { SameNullifier(p.kind, PayloadOf(p), payload); }
    }
  }

  lemma PendingErase(pending: map<B256, Pending>, id: B256)
    requires id in pending && DistinctHashes(pending)
    ensures !HashWaits(pending - {id}, pending[id].payloadHash)
    ensures |Removals(pending - {id})| + (if pending[id].kind == REMOVE_OWNER then 1 else 0) == |Removals(pending)|
  {
    var rest := pending - {id};
    assert forall other <- rest :: other != id && rest[other].payloadHash != pending[id].payloadHash;
    assert Removals(pending) == Removals(rest) + (if pending[id].kind == REMOVE_OWNER then {id} else {});
  }

  /** Without one of its waiting changes, the account still satisfies the invariant and could schedule it again. */
  lemma WithoutWaiting(s: Account, id: B256)
    requires s.initialized && Inv(s) && id in s.pending
    ensures EntryOk(s, id, s.pending[id])
    ensures var t := s.(pending := s.pending - {id});
            && Inv(t)
            && !HashWaits(t.pending, s.pending[id].payloadHash)
            && (s.pending[id].kind == REMOVE_OWNER ==> |Removals(t.pending)| + 1 < s.ownership.count)
  {
    FewerPending(s, s.pending - {id});
    PendingErase(s.pending, id);
  }

  /** A waiting change can be applied in any state that satisfies the invariant, and keeps it. */
  lemma InvApplyWaiting(s: Account, id: B256)
    requires s.initialized && Inv(s) && id in s.pending
    ensures EntryOk(s, id, s.pending[id])
    ensures var r := Apply(s.(pending := s.pending - {id}), s.pending[id].kind, PayloadOf(s.pending[id]));
            r.Ok? && Inv(r.value)
  {
    WithoutWaiting(s, id);
    var t := s.(pending := s.pending - {id});
    var p := s.pending[id];
    if p.kind == ADD_OWNER {
      InvAddOwner(t, PayloadOf(p));
    } else if p.kind == REMOVE_OWNER {
      InvRemoveOwner(t, PayloadOf(p));
    } else {
      InvApplyPlain(t, p.kind, PayloadOf(p));
    }
  }

  lemma InvExecuteRecovery(s: Account, env: Env)
    requires Inv(s) && DoExecuteRecovery(s, env).Ok?
    ensures Inv(DoExecuteRecovery(s, env).value.post)
  {
    var t := DoExecuteRecovery(s, env).value.post;
    assert Current(t) == {OwnerKey(t.ownership.epoch, s.recovery.nullifier)};
    assert Removals(t.pending) == {};
  }

  lemma InvRestrict(s: Account, env: Env, kind: nat, payload: Payload, auth: Auth)
    requires Inv(s) && DoRestrict(s, env, kind, payload, auth).Ok?
    ensures Inv(DoRestrict(s, env, kind, payload, auth).value.post)
  {
    var paid := Charged(s, env, auth);
    InvFrame(s, paid);
    InvApplyPlain(paid, kind, payload);
    var applied := Apply(paid, kind, payload).value;
    FewerPending(applied, Kept(applied.pending, false));
  }

  lemma InvGuardianFreeze(s: Account, env: Env, salt: B256)
    requires Inv(s) && DoGuardianFreeze(s, env, salt).Ok?
    ensures Inv(DoGuardianFreeze(s, env, salt).value.post)
  {
    FewerPending(s, Kept(s.pending, true));
    InvApplyPlain(s.(pending := Kept(s.pending, true)), FREEZE, Payload([], []));
  }

  lemma InvCancelChange(s: Account, env: Env, changeId: B256, auth: Auth)
    requires Inv(s) && DoCancelChange(s, env, changeId, auth).Ok?
    ensures Inv(DoCancelChange(s, env, changeId, auth).value.post)
  {
    var paid := Charged(s, env, auth);
    InvFrame(s, paid);
    FewerPending(paid, s.pending - {changeId});
  }

  lemma InvCancelRecovery(s: Account, env: Env, auth: Auth)
    requires Inv(s) && DoCancelRecovery(s, env, auth).Ok?
    ensures Inv(DoCancelRecovery(s, env, auth).value.post)
  {
    var paid := Charged(s, env, auth);
    InvFrame(s, paid.(recovery := NO_RECOVERY));
  }

  lemma InvPay(s: Account, env: Env, to: Address, amount: u256, auth: Auth)
    requires Inv(s) && DoPay(s, env, to, amount, auth).Ok?
    ensures Inv(DoPay(s, env, to, amount, auth).value.post)
  {
    InvFrame(s, DoPay(s, env, to, amount, auth).value.post);
  }

  lemma InvGuardianCancelChange(s: Account, env: Env, changeId: B256, salt: B256)
    requires Inv(s) && DoGuardianCancelChange(s, env, changeId, salt).Ok?
    ensures Inv(DoGuardianCancelChange(s, env, changeId, salt).value.post)
  {
    FewerPending(s, s.pending - {changeId});
  }

  lemma InvRecovery(s: Account, recovery: Recovery)
    requires s.initialized && Inv(s)
    requires recovery == NO_RECOVERY || (recovery.eta > 0 && IsNullifier(recovery.nullifier) && s.guardian.Keccak?)
    ensures Inv(s.(recovery := recovery))
  {
    InvFrame(s, s.(recovery := recovery));
  }

  lemma InvApplyChange(s: Account, env: Env, id: B256, kind: nat, payload: Payload)
    requires Inv(s) && DoApplyChange(s, env, id, kind, payload).Ok?
    ensures Inv(DoApplyChange(s, env, id, kind, payload).value.post)
  {
    InvApplyWaiting(s, id);
  }

  /** Every call keeps the invariant. */
  lemma InvStep(s: Account, env: Env, call: Call)
    requires Inv(s) && 0 < env.now
    ensures Inv(Next(s, env, call))
  {
    if Step(s, env, call).Err? { return; }
    match call
    case Initialize(_, _, _, _, _, _) => InvInitialize(s, call);
    case Pay(to, amount, auth) => InvPay(s, env, to, amount, auth);
    case ScheduleChange(kind, payload, auth) => InvSchedule(s, env, kind, payload, auth);
    case Restrict(kind, payload, auth) => InvRestrict(s, env, kind, payload, auth);
    case ApplyChange(changeId, kind, payload) => InvApplyChange(s, env, changeId, kind, payload);
    case CancelChange(changeId, auth) => InvCancelChange(s, env, changeId, auth);
    case GuardianCancelChange(changeId, salt) => InvGuardianCancelChange(s, env, changeId, salt);
    case GuardianFreeze(salt) => InvGuardianFreeze(s, env, salt);
    case InitiateRecovery(newNullifier, salt) => InvRecovery(s, Next(s, env, call).recovery);
    case ExecuteRecovery => InvExecuteRecovery(s, env);
    case CancelRecovery(auth) => InvCancelRecovery(s, env, auth);
    case GuardianCancelRecovery(salt) => InvRecovery(s, NO_RECOVERY);
  }
}
