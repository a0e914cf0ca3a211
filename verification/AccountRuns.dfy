/** Whole runs of one account: any calls, by anyone, in any order, as time passes. */
module AccountRuns {
  import opened Primitives
  import opened Changes
  import opened Spending
  import opened AccountSpec
  import opened AccountInvariant

  datatype Event = Event(env: Env, call: Call)

  /** `states[i]` is the storage before `events[i]`, and `outcomes[i]` that call's outcome. */
  datatype Run = Run(states: seq<Account>, events: seq<Event>, outcomes: seq<Outcome>)

  ghost predicate Shape(r: Run) {
    |r.states| == |r.events| + 1 && |r.outcomes| == |r.events|
  }

  /** Call `i` does what the account does. */
  ghost predicate StepAt(r: Run, i: nat)
    requires Shape(r) && i < |r.events|
  {
    && r.outcomes[i] == Step(r.states[i], r.events[i].env, r.events[i].call)
    && r.states[i + 1] == Next(r.states[i], r.events[i].env, r.events[i].call)
  }

  /**
   * A run starts with a fresh proxy's storage. Every call sees the same chain and account; block time is positive and
   * never decreases.
   */
  ghost predicate IsRun(r: Run) {
    && Shape(r)
    && r.states[0] == BLANK
    && (forall i: nat :: i < |r.events| ==> StepAt(r, i))
    && (forall i :: 0 <= i < |r.events| ==> 0 < r.events[i].env.now)
    && (forall i, j :: 0 <= i <= j < |r.events| ==>
          && r.events[i].env.now <= r.events[j].env.now
          && r.events[i].env.chainId == r.events[j].env.chainId
          && r.events[i].env.self == r.events[j].env.self)
  }

  ghost predicate Succeeds(r: Run, i: nat)
    requires IsRun(r) && i < |r.events|
  {
    r.outcomes[i].Ok?
  }

  function Now(r: Run, i: nat): nat
    requires i < |r.events|
  {
    r.events[i].env.now
  }

  lemma InvAt(r: Run, i: nat)
    requires IsRun(r) && i < |r.events| && Inv(r.states[i])
    ensures Inv(r.states[i + 1])
  {
    assert StepAt(r, i);
    InvStep(r.states[i], r.events[i].env, r.events[i].call);
  }

  /** Every reachable state satisfies the invariant. */
  lemma {:induction false} Reachable(r: Run, i: nat)
    requires IsRun(r) && i < |r.states|
    ensures Inv(r.states[i])
  {
    if i == 0 {
      assert r.states[0] == BLANK;
    } else {
      Reachable(r, i - 1);
      InvAt(r, i - 1);
    }
  }

  /** What `initialize` fixes: no call changes it again. */
  ghost predicate SameConfig(s: Account, t: Account) {
    && s.initialized && t.initialized
    && t.config == s.config
  }

  lemma ConfigStep(s: Account, env: Env, call: Call)
    requires s.initialized
    ensures SameConfig(s, Next(s, env, call))
  {
  }

  lemma ConfigAt(r: Run, i: nat)
    requires IsRun(r) && i < |r.events| && r.states[i].initialized
    ensures SameConfig(r.states[i], r.states[i + 1])
  {
    assert StepAt(r, i);
    ConfigStep(r.states[i], r.events[i].env, r.events[i].call);
  }

  lemma {:induction false} ConfigNeverChanges(r: Run, i: nat, j: nat)
    requires IsRun(r) && i <= j < |r.states| && r.states[i].initialized
    ensures SameConfig(r.states[i], r.states[j])
  {
    if i < j {
      ConfigNeverChanges(r, i, j - 1);
      ConfigAt(r, j - 1);
    }
  }

  // ---------------------------------------------------------------------------------------------------------------
  // No waiting change can get stuck.

  /** A change applies exactly when it waits under that id, with that kind and payload, and its time has come. */
  lemma WaitingChangesNeverStick(r: Run, i: nat, env: Env, id: B256, kind: nat, payload: Payload)
    requires IsRun(r) && i < |r.states|
    ensures DoApplyChange(r.states[i], env, id, kind, payload).Ok? <==>
            && id in r.states[i].pending
            && r.states[i].pending[id].kind == kind
            && r.states[i].pending[id].payloadHash == DataHash(kind, payload)
            && r.states[i].pending[id].eta <= env.now
  {
    Reachable(r, i);
    var s := r.states[i];
    if id in s.pending {
      assert EntryOk(s, id, s.pending[id]);
      InvApplyWaiting(s, id);
    }
  }

  // ---------------------------------------------------------------------------------------------------------------
  // Where a waiting change comes from.

  /** Event `j` scheduled `id`, with an owner's authorization, and it has waited unchanged up to state `i`. */
  ghost predicate ScheduledAt(r: Run, j: nat, i: nat, id: B256)
    requires IsRun(r)
  {
    && j < i < |r.states|
    && Succeeds(r, j)
    && var s, e := r.states[j], r.events[j];
    && s.initialized
    && e.call.ScheduleChange?
    && r.outcomes[j].value.id == id
    && s.Owns(e.call.auth.nullifier)
    && WaitsSince(r, j + 1, i, id,
                  Pending(e.call.kind, DataHash(e.call.kind, e.call.payload), e.env.now + Delay(s, e.call.kind), s.ownership.epoch))
  }

  /** `p` waits under `id` in every state from `from` to `to`, all of them in the epoch it was scheduled in. */
  ghost predicate WaitsSince(r: Run, from: nat, to: nat, id: B256, p: Pending)
    requires to < |r.states|
  {
    forall k :: from <= k <= to ==>
      id in r.states[k].pending && r.states[k].pending[id] == p && r.states[k].ownership.epoch == p.ownerEpoch
  }

  ghost predicate Shrinks(s: Account, t: Account) {
    && t.pending.Keys <= s.pending.Keys
    && (forall id <- t.pending :: t.pending[id] == s.pending[id])
    && (t.ownership.epoch == s.ownership.epoch || t.pending == map[])
  }

  lemma ApplyKeepsPending(s: Account, kind: nat, payload: Payload)
    requires Apply(s, kind, payload).Ok?
    ensures var t := Apply(s, kind, payload).value;
            t == s.(rules := t.rules, ownership := t.ownership, guardian := t.guardian, recovery := t.recovery)
    ensures Apply(s, kind, payload).value.ownership.epoch == s.ownership.epoch
  {
  }

  /** Only `schedule_change` adds a waiting change; the other calls keep entries as they are or drop them. */
  lemma PendingShrinks(s: Account, env: Env, call: Call)
    requires !call.ScheduleChange?
    ensures Shrinks(s, Next(s, env, call))
  {
    if Step(s, env, call).Ok? {
      if call.Restrict? {
        ApplyKeepsPending(Charged(s, env, call.auth), call.kind, call.payload);
      } else if call.ApplyChange? {
        ApplyKeepsPending(s.(pending := s.pending - {call.changeId}), call.kind, call.payload);
      }
    }
  }

  ghost predicate SchedulesNow(s: Account, env: Env, call: Call, id: B256, p: Pending) {
    && call.ScheduleChange?
    && Step(s, env, call).Ok? && Step(s, env, call).value.id == id
    && s.initialized && s.Owns(call.auth.nullifier)
    && p == Pending(call.kind, DataHash(call.kind, call.payload), env.now + Delay(s, call.kind), s.ownership.epoch)
  }

  lemma PendingStep(s: Account, env: Env, call: Call, id: B256)
    requires Inv(s) && id in Next(s, env, call).pending
    ensures Next(s, env, call).ownership.epoch == s.ownership.epoch
    ensures (id in s.pending && s.pending[id] == Next(s, env, call).pending[id]) ||
            SchedulesNow(s, env, call, id, Next(s, env, call).pending[id])
  {
    if !call.ScheduleChange? {
      PendingShrinks(s, env, call);
    }
  }

  lemma SchedulesAt(r: Run, i: nat, id: B256)
    requires IsRun(r) && i < |r.events| && id in r.states[i + 1].pending && r.states[i + 1].ownership.epoch == r.states[i].ownership.epoch
    requires SchedulesNow(r.states[i], r.events[i].env, r.events[i].call, id, r.states[i + 1].pending[id])
    ensures ScheduledAt(r, i, i + 1, id)
  {
    assert StepAt(r, i);
  }

  lemma PendingAt(r: Run, i: nat, id: B256)
    requires IsRun(r) && i < |r.events| && id in r.states[i + 1].pending
    ensures r.states[i + 1].ownership.epoch == r.states[i].ownership.epoch
    ensures (id in r.states[i].pending && r.states[i].pending[id] == r.states[i + 1].pending[id]) || ScheduledAt(r, i, i + 1, id)
  {
    Reachable(r, i);
    assert StepAt(r, i);
    PendingStep(r.states[i], r.events[i].env, r.events[i].call, id);
    if !(id in r.states[i].pending && r.states[i].pending[id] == r.states[i + 1].pending[id]) {
      SchedulesAt(r, i, id);
    }
  }

  lemma {:induction false} WaitingWasScheduled(r: Run, i: nat, id: B256)
    requires IsRun(r) && i < |r.states| && id in r.states[i].pending
    ensures exists j: nat :: ScheduledAt(r, j, i, id)
  {
    assert i != 0;
    var k := i - 1;
    PendingAt(r, k, id);
    if id in r.states[k].pending && r.states[k].pending[id] == r.states[i].pending[id] {
      WaitingWasScheduled(r, k, id);
      var j :| ScheduledAt(r, j, k, id);
      assert ScheduledAt(r, j, i, id);
    } else {
      assert ScheduledAt(r, k, i, id);
    }
  }

  /**
   * Every applied change was scheduled by an owner, in the same epoch, with exactly this kind and payload, at least the
   * change delay earlier (plus the recovery delay for the guardian), and it waited uncancelled ever since.
   */
  lemma AppliedWasScheduled(r: Run, i: nat)
    requires IsRun(r) && i < |r.events| && r.events[i].call.ApplyChange? && Succeeds(r, i)
    ensures exists j: nat :: && ScheduledAt(r, j, i, r.events[i].call.changeId)
                        && r.events[j].call.kind == r.events[i].call.kind
                        && r.events[j].call.payload == r.events[i].call.payload
                        && Now(r, j) + r.states[i].config.changeDelay
                           + (if r.events[i].call.kind == SET_GUARDIAN then r.states[i].config.recoveryDelay else 0) <= Now(r, i)
  {
    var id := r.events[i].call.changeId;
    assert StepAt(r, i);
    WaitingWasScheduled(r, i, id);
    var j :| ScheduledAt(r, j, i, id);
    ConfigNeverChanges(r, j, i);
    assert id in r.states[i].pending;
  }

  // ---------------------------------------------------------------------------------------------------------------
  // Loosening always waits.

  /** `t` can do no more than `s`: caps no higher, no protection cleared, no recipient, owner or guardian gained or swapped. */
  ghost predicate NoLooser(s: Account, t: Account) {
    && NoLooserRules(s.rules, t.rules)
    && t.ownership == s.ownership
    && t.guardian == s.guardian
  }

  ghost predicate NoLooserRules(a: Rules, b: Rules) {
    && b.perTxCap <= a.perTxCap && b.dailyCap <= a.dailyCap && b.newPayeeCap <= a.newPayeeCap
    && (a.frozen ==> b.frozen)
    && (a.allowlistEnabled ==> b.allowlistEnabled)
    && (a.paymentSheetRequired ==> b.paymentSheetRequired)
    && b.allowedRecipients <= a.allowedRecipients
  }

  /** The only calls that may loosen the account. */
  ghost predicate MayLoosen(r: Run, k: nat)
    requires IsRun(r) && k < |r.events|
  {
    Succeeds(r, k) && (r.events[k].call.ApplyChange? || r.events[k].call.ExecuteRecovery?)
  }

  lemma RestrictiveTightens(rules: Rules, kind: nat, payload: Payload)
    requires IsRestrictive(kind, payload, Limits(rules.perTxCap, rules.dailyCap, rules.newPayeeCap))
    ensures NoLooserRules(rules, NewRules(rules, kind, payload))
    ensures kind != ADD_OWNER && kind != REMOVE_OWNER && kind != SET_GUARDIAN
  {
  }

  /** A valid change of the rules may apply at once exactly when it tightens whatever rules have these limits. */
  lemma RestrictiveMeansTighter(kind: nat, payload: Payload, limits: Limits)
    requires IsValid(kind, payload) && kind != ADD_OWNER && kind != REMOVE_OWNER && kind != SET_GUARDIAN
    requires limits.perTxCap < TWO_128 && limits.dailyCap < TWO_128 && limits.newPayeeCap < TWO_128
    ensures IsRestrictive(kind, payload, limits) <==>
            forall rules: Rules :: Limits(rules.perTxCap, rules.dailyCap, rules.newPayeeCap) == limits
              ==> NoLooserRules(rules, NewRules(rules, kind, payload))
  {
    var loosest := Rules(limits.perTxCap, limits.dailyCap, limits.newPayeeCap, true, true, true, {});
    if !IsRestrictive(kind, payload, limits) {
      assert !NoLooserRules(loosest, NewRules(loosest, kind, payload));
    }
  }

  lemma TightenStep(s: Account, env: Env, call: Call)
    requires s.initialized && Step(s, env, call).Ok? && !call.ApplyChange? && !call.ExecuteRecovery?
    ensures NoLooser(s, Next(s, env, call))
  {
    if call.Restrict? {
      RestrictiveTightens(s.rules, call.kind, call.payload);
    }
  }

  lemma TightenAt(r: Run, i: nat)
    requires IsRun(r) && i < |r.events| && r.states[i].initialized && !MayLoosen(r, i)
    ensures NoLooser(r.states[i], r.states[i + 1])
  {
    assert StepAt(r, i);
    if Succeeds(r, i) {
      TightenStep(r.states[i], r.events[i].env, r.events[i].call);
    }
  }

  /** Over a stretch of a run with no applied change and no executed recovery, the account only gets tighter. */
  lemma {:induction false} LooseningWaits(r: Run, i: nat, j: nat)
    requires IsRun(r) && i <= j < |r.states| && r.states[i].initialized
    requires forall k :: i <= k < j ==> !MayLoosen(r, k)
    ensures NoLooser(r.states[i], r.states[j])
  {
    if i < j {
      LooseningWaits(r, i, j - 1);
      ConfigNeverChanges(r, i, j - 1);
      assert !MayLoosen(r, j - 1);
      TightenAt(r, j - 1);
    }
  }
}
