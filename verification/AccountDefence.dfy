/**
 * Relayer and account together: how often an account can be defended (server/relayer.ts). A defence uses up a waiting change,
 * a recovery or an unfrozen account, so the number of defences is bounded by how often others made one of those.
 */
module AccountDefence {
  import opened Primitives
  import opened Changes
  import opened AccountSpec
  import opened AccountInvariant
  import opened AccountRuns
  import RelayerSpec

  function FunctionOf(call: Call): Option<RelayerSpec.Function> {
    match call
    case Pay(_, _, _) => Some(RelayerSpec.Pay)
    case ScheduleChange(_, _, _) => Some(RelayerSpec.ScheduleChange)
    case Restrict(_, _, _) => Some(RelayerSpec.Restrict)
    case ApplyChange(_, _, _) => Some(RelayerSpec.ApplyChange)
    case CancelChange(_, _) => Some(RelayerSpec.CancelChange)
    case CancelRecovery(_) => Some(RelayerSpec.CancelRecovery)
    case ExecuteRecovery => Some(RelayerSpec.ExecuteRecovery)
    case _ => None
  }

  /** The relayer takes this call, made in this state, as one that defends the account. */
  predicate IsDefence(s: Account, call: Call) {
    && FunctionOf(call).Some?
    && RelayerSpec.Defends(FunctionOf(call).value, if call.Restrict? then call.kind else 0, s.rules.frozen, s.pending != map[])
  }

  /** What there is to undo: the waiting changes, a pending recovery, and payments that a freeze could still stop. */
  function Undoable(s: Account): nat {
    |s.pending| + (if s.recovery.eta != 0 then 1 else 0) + (if s.rules.frozen then 0 else 1)
  }

  /** The calls that make something to undo. */
  predicate Makes(call: Call) {
    call.ScheduleChange? || call.InitiateRecovery?
  }

  lemma OneFewer(pending: map<B256, Pending>, id: B256)
    requires id in pending
    ensures |pending - {id}| == |pending| - 1
  {
    assert (pending - {id}).Keys == pending.Keys - {id};
    assert |(pending - {id}).Keys| == |pending.Keys| - 1;
  }

  lemma OneMore(pending: map<B256, Pending>, id: B256, p: Pending)
    ensures |pending[id := p]| <= |pending| + 1
  {
    assert pending[id := p].Keys == pending.Keys + {id};
    assert |pending.Keys + {id}| <= |pending.Keys| + 1;
  }

  lemma NoMore(pending: map<B256, Pending>, keepGuardianChanges: bool)
    ensures |Kept(pending, keepGuardianChanges)| <= |pending|
    ensures |Kept(pending, false)| == 0
    ensures pending != map[] ==> |pending| > 0
  {
    Fewer(Kept(pending, keepGuardianChanges).Keys, pending.Keys);
    assert Kept(pending, false) == map[];
    if pending != map[] {
      var id :| id in pending;
      assert id in pending.Keys;
    }
  }

  lemma {:induction false} Fewer(a: set<B256>, b: set<B256>)
    requires a <= b
    ensures |a| <= |b|
  {
    if a != {} {
      var x :| x in a;
      Fewer(a - {x}, b - {x});
    }
  }

  ghost predicate Bounded(s: Account, t: Account, call: Call) {
    Undoable(t) + (if IsDefence(s, call) then 1 else 0) <= Undoable(s) + (if Makes(call) then 1 else 0)
  }

  lemma RestrictBounded(s: Account, env: Env, kind: nat, payload: Payload, auth: Auth)
    requires DoRestrict(s, env, kind, payload, auth).Ok?
    ensures Bounded(s, DoRestrict(s, env, kind, payload, auth).value.post, Restrict(kind, payload, auth))
  {
    ApplyKeepsPending(Charged(s, env, auth), kind, payload);
    NoMore(s.pending, false);
  }

  lemma ApplyBounded(s: Account, env: Env, changeId: B256, kind: nat, payload: Payload)
    requires DoApplyChange(s, env, changeId, kind, payload).Ok?
    ensures Bounded(s, DoApplyChange(s, env, changeId, kind, payload).value.post, ApplyChange(changeId, kind, payload))
  {
    ApplyKeepsPending(s.(pending := s.pending - {changeId}), kind, payload);
    OneFewer(s.pending, changeId);
  }

  lemma ScheduleBounded(s: Account, env: Env, kind: nat, payload: Payload, auth: Auth)
    requires DoScheduleChange(s, env, kind, payload, auth).Ok?
    ensures Bounded(s, DoScheduleChange(s, env, kind, payload, auth).value.post, ScheduleChange(kind, payload, auth))
  {
    var effect := DoScheduleChange(s, env, kind, payload, auth).value;
    OneMore(s.pending, effect.id, effect.post.pending[effect.id]);
  }

  lemma CancelBounded(s: Account, env: Env, changeId: B256, auth: Auth)
    requires DoCancelChange(s, env, changeId, auth).Ok?
    ensures Bounded(s, DoCancelChange(s, env, changeId, auth).value.post, CancelChange(changeId, auth))
  {
    OneFewer(s.pending, changeId);
  }

  lemma VetoBounded(s: Account, env: Env, changeId: B256, salt: B256)
    requires DoGuardianCancelChange(s, env, changeId, salt).Ok?
    ensures Bounded(s, DoGuardianCancelChange(s, env, changeId, salt).value.post, GuardianCancelChange(changeId, salt))
  {
    OneFewer(s.pending, changeId);
  }

  lemma FreezeBounded(s: Account, env: Env, salt: B256)
    requires DoGuardianFreeze(s, env, salt).Ok?
    ensures Bounded(s, DoGuardianFreeze(s, env, salt).value.post, GuardianFreeze(salt))
  {
    NoMore(s.pending, true);
  }

  lemma TakeoverBounded(s: Account, env: Env)
    requires DoExecuteRecovery(s, env).Ok?
    ensures Bounded(s, DoExecuteRecovery(s, env).value.post, ExecuteRecovery)
  {
    NoMore(s.pending, false);
  }

  /** The calls that leave the waiting changes alone and cannot freeze. */
  predicate KeepsTable(call: Call) {
    call.Initialize? || call.Pay? || call.InitiateRecovery? || call.CancelRecovery? || call.GuardianCancelRecovery?
  }

  lemma OtherKeeps(s: Account, env: Env, call: Call)
    requires Step(s, env, call).Ok? && KeepsTable(call)
    ensures Next(s, env, call).pending == s.pending && Next(s, env, call).rules.frozen == s.rules.frozen
    ensures call.CancelRecovery? ==> s.recovery.eta != 0 && Next(s, env, call).recovery.eta == 0
    ensures !call.InitiateRecovery? && s.recovery.eta == 0 ==> Next(s, env, call).recovery.eta == 0
  {
  }

  lemma OtherBounded(s: Account, t: Account, call: Call)
    requires KeepsTable(call) && t.pending == s.pending && t.rules.frozen == s.rules.frozen
    requires call.CancelRecovery? ==> s.recovery.eta != 0 && t.recovery.eta == 0
    requires !call.InitiateRecovery? && s.recovery.eta == 0 ==> t.recovery.eta == 0
    ensures Bounded(s, t, call)
  {
  }

  lemma DefenceStep(s: Account, env: Env, call: Call)
    requires Step(s, env, call).Ok?
    ensures Bounded(s, Next(s, env, call), call)
  {
    match call
    case ScheduleChange(kind, payload, auth) => ScheduleBounded(s, env, kind, payload, auth);
    case Restrict(kind, payload, auth) => RestrictBounded(s, env, kind, payload, auth);
    case ApplyChange(changeId, kind, payload) => ApplyBounded(s, env, changeId, kind, payload);
    case CancelChange(changeId, auth) => CancelBounded(s, env, changeId, auth);
    case GuardianCancelChange(changeId, salt) => VetoBounded(s, env, changeId, salt);
    case GuardianFreeze(salt) => FreezeBounded(s, env, salt);
    case ExecuteRecovery => TakeoverBounded(s, env);
    case _ =>
      OtherKeeps(s, env, call);
      OtherBounded(s, Next(s, env, call), call);
  }

  predicate FreezesOrCancels(call: Call) {
    call.CancelChange? || call.CancelRecovery? || (call.Restrict? && call.kind == FREEZE)
  }

  /** A freeze or a cancellation that succeeds is taken as a defence exactly when it stops payments or undoes something. */
  lemma DefencesChangeSomething(s: Account, env: Env, call: Call)
    requires FreezesOrCancels(call) && Step(s, env, call).Ok?
    ensures var t := Next(s, env, call);
            IsDefence(s, call) <==>
            t.rules.frozen != s.rules.frozen || t.pending != s.pending || t.recovery != s.recovery
  {
    if call.CancelChange? {
      assert call.changeId in s.pending && call.changeId !in Next(s, env, call).pending;
    } else if call.Restrict? {
      assert Kept(s.pending, false) == map[];
    }
  }

  lemma DefenceAt(r: Run, i: nat)
    requires IsRun(r) && i < |r.events| && Succeeds(r, i)
    ensures Bounded(r.states[i], r.states[i + 1], r.events[i].call)
  {
    assert StepAt(r, i);
    DefenceStep(r.states[i], r.events[i].env, r.events[i].call);
  }

  /** The defending calls that succeeded among the first `n`. */
  ghost function Defences(r: Run, n: nat): nat
    requires IsRun(r) && n <= |r.events|
  {
    if n == 0 then 0
    else Defences(r, n - 1) + (if Succeeds(r, n - 1) && IsDefence(r.states[n - 1], r.events[n - 1].call) then 1 else 0)
  }

  /** The changes scheduled and the recoveries started among the first `n` calls. */
  ghost function Made(r: Run, n: nat): nat
    requires IsRun(r) && n <= |r.events|
  {
    if n == 0 then 0 else Made(r, n - 1) + (if Succeeds(r, n - 1) && Makes(r.events[n - 1].call) then 1 else 0)
  }

  lemma FailureChangesNothing(r: Run, i: nat)
    requires IsRun(r) && i < |r.events| && !Succeeds(r, i)
    ensures r.states[i + 1] == r.states[i]
  {
    assert StepAt(r, i);
  }

  /**
   * Over any run an account's defending calls succeed at most once more often than changes are scheduled and recoveries
   * started, so what the relayer sends outside its budgets is bounded by what others paid for.
   */
  lemma {:induction false} DefencesUndoWhatWasMade(r: Run, n: nat)
    requires IsRun(r) && n <= |r.events|
    ensures Defences(r, n) + Undoable(r.states[n]) <= Made(r, n) + 1
  {
    if n == 0 {
      assert r.states[0] == BLANK;
    } else {
      DefencesUndoWhatWasMade(r, n - 1);
      if Succeeds(r, n - 1) {
        DefenceAt(r, n - 1);
      } else {
        FailureChangesNothing(r, n - 1);
      }
    }
  }
}
