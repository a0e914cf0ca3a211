/** The guardian over whole runs: recovery races, vetoes, freezes, and who owns the account afterwards. */
module AccountGuardian {
  import opened Primitives
  import opened Changes
  import opened Spending
  import opened AccountSpec
  import opened AccountInvariant
  import opened AccountRuns

  // ---------------------------------------------------------------------------------------------------------------
  // A pending recovery belongs to the guardian in force.

  /** Event `j` started the recovery that still waits in state `i`, and its guardian has been in force ever since. */
  ghost predicate StartedAt(r: Run, j: nat, i: nat)
    requires IsRun(r)
  {
    && j < i < |r.states|
    && Succeeds(r, j) && r.events[j].call.InitiateRecovery?
    && var e := r.events[j];
    && (forall k :: j < k <= i ==>
          r.states[k].recovery == Recovery(e.call.newNullifier, e.env.now + r.states[j].config.recoveryDelay))
    && (forall k :: j <= k <= i ==>
          r.states[k].guardian == Keccak(GuardianPreimage(e.env.self, e.env.sender, e.call.salt)))
  }

  ghost predicate InitiatesNow(s: Account, env: Env, call: Call) {
    && call.InitiateRecovery? && Step(s, env, call).Ok?
    && IsGuardian(s, env, call.salt)
    && Next(s, env, call) == s.(recovery := Recovery(call.newNullifier, env.now + s.config.recoveryDelay))
  }

  lemma RecoveryStep(s: Account, env: Env, call: Call)
    requires Next(s, env, call).recovery.eta != 0
    ensures var t := Next(s, env, call);
            (t.recovery == s.recovery && t.guardian == s.guardian) || InitiatesNow(s, env, call)
  {
  }

  lemma RecoveryAt(r: Run, i: nat)
    requires IsRun(r) && i < |r.events| && r.states[i + 1].recovery.eta != 0
    ensures || (r.states[i + 1].recovery == r.states[i].recovery && r.states[i + 1].guardian == r.states[i].guardian)
            || StartedAt(r, i, i + 1)
  {
    assert StepAt(r, i);
    RecoveryStep(r.states[i], r.events[i].env, r.events[i].call);
  }

  lemma {:induction false} RecoveryBelongsToTheGuardian(r: Run, i: nat)
    requires IsRun(r) && i < |r.states| && r.states[i].recovery.eta != 0
    ensures exists j: nat :: StartedAt(r, j, i)
  {
    assert i != 0;
    var k := i - 1;
    RecoveryAt(r, k);
    if !StartedAt(r, k, i) {
      RecoveryBelongsToTheGuardian(r, k);
      var j :| StartedAt(r, j, k);
      assert StartedAt(r, j, i);
    }
  }

  /** The salt a guardian's call reveals. */
  function SaltOf(call: Call): Option<B256> {
    match call
    case GuardianCancelChange(_, salt) => Some(salt)
    case GuardianFreeze(salt) => Some(salt)
    case InitiateRecovery(_, salt) => Some(salt)
    case GuardianCancelRecovery(salt) => Some(salt)
    case _ => None
  }

  /** Nobody acts as the guardian but the one address its commitment names, and for this account only. */
  lemma OneGuardian(s: Account, e: Env, c: Call, f: Env, d: Call)
    requires SaltOf(c).Some? && SaltOf(d).Some? && Step(s, e, c).Ok? && Step(s, f, d).Ok?
    ensures e.sender == f.sender && e.self == f.self && SaltOf(c) == SaltOf(d)
  {
    assert IsGuardian(s, e, SaltOf(c).value) && IsGuardian(s, f, SaltOf(d).value);
  }

  // ---------------------------------------------------------------------------------------------------------------
  // The race between a recovery and a change of guardian.

  /** Calls that end or restart a pending recovery, other than a change of guardian. */
  predicate TouchesRecovery(call: Call) {
    call.InitiateRecovery? || call.ExecuteRecovery? || call.CancelRecovery? || call.GuardianCancelRecovery?
  }

  /** Every waiting change of guardian becomes ready after `eta`, or at `eta` when changes need no delay at all. */
  ghost predicate GuardianChangesAfter(s: Account, eta: nat) {
    forall id <- s.pending :: s.pending[id].kind == SET_GUARDIAN ==>
      eta <= s.pending[id].eta && (s.config.changeDelay > 0 ==> eta < s.pending[id].eta)
  }

  lemma RaceRecoveryStep(s: Account, env: Env, call: Call)
    requires GuardianChangesAfter(s, s.recovery.eta) && env.now < s.recovery.eta
    requires Step(s, env, call).Ok? ==> !TouchesRecovery(call)
    ensures Next(s, env, call).recovery == s.recovery
  {
  }

  lemma RaceStep(s: Account, env: Env, call: Call)
    requires Inv(s) && s.initialized && GuardianChangesAfter(s, s.recovery.eta)
    requires env.now < s.recovery.eta <= env.now + s.config.recoveryDelay
    requires Step(s, env, call).Ok? ==> !TouchesRecovery(call)
    ensures Next(s, env, call).recovery == s.recovery
    ensures GuardianChangesAfter(Next(s, env, call), s.recovery.eta)
  {
    RaceRecoveryStep(s, env, call);
    ConfigStep(s, env, call);
    var t := Next(s, env, call);
    forall id <- t.pending ensures t.pending[id].kind == SET_GUARDIAN ==>
        s.recovery.eta <= t.pending[id].eta && (t.config.changeDelay > 0 ==> s.recovery.eta < t.pending[id].eta) {
      PendingStep(s, env, call, id);
    }
  }

  lemma RaceAt(r: Run, i: nat)
    requires IsRun(r) && i < |r.events| && r.states[i].initialized
    requires GuardianChangesAfter(r.states[i], r.states[i].recovery.eta)
    requires Now(r, i) < r.states[i].recovery.eta <= Now(r, i) + r.states[i].config.recoveryDelay
    requires Succeeds(r, i) ==> !TouchesRecovery(r.events[i].call)
    ensures r.states[i + 1].recovery == r.states[i].recovery
    ensures GuardianChangesAfter(r.states[i + 1], r.states[i].recovery.eta)
  {
    Reachable(r, i);
    assert StepAt(r, i);
    RaceStep(r.states[i], r.events[i].env, r.events[i].call);
  }

  lemma RecoveryStarts(r: Run, j: nat)
    requires IsRun(r) && j < |r.events| && Succeeds(r, j) && r.events[j].call.InitiateRecovery?
    ensures r.states[j].initialized
    ensures r.states[j + 1] == r.states[j].(
              recovery := Recovery(r.events[j].call.newNullifier, Now(r, j) + r.states[j].config.recoveryDelay))
  {
    assert StepAt(r, j);
  }

  /** Every guardian change that waits in state `j` was scheduled less than the change delay before `now`. */
  ghost predicate GuardianChangesAreRecent(r: Run, j: nat, now: nat)
    requires IsRun(r) && j < |r.states|
  {
    forall id, k: nat :: id in r.states[j].pending && r.states[j].pending[id].kind == SET_GUARDIAN && ScheduledAt(r, k, j, id)
      ==> now < Now(r, k) + r.states[j].config.changeDelay
  }

  lemma RecentChangesComeAfter(r: Run, j: nat)
    requires IsRun(r) && j < |r.events| && Succeeds(r, j) && r.events[j].call.InitiateRecovery?
    requires GuardianChangesAreRecent(r, j, Now(r, j))
    ensures GuardianChangesAfter(r.states[j], Now(r, j) + r.states[j].config.recoveryDelay)
  {
    var s := r.states[j];
    RecoveryStarts(r, j);
    forall id | id in s.pending && s.pending[id].kind == SET_GUARDIAN
      ensures Now(r, j) + s.config.recoveryDelay < s.pending[id].eta
    {
      WaitingWasScheduled(r, j, id);
      var k :| ScheduledAt(r, k, j, id);
      ConfigNeverChanges(r, k, j);
    }
  }

  /** Recovery `j` stands in state `i`: nothing but a change of guardian may end it, and time has not reached it. */
  ghost predicate RaceIsOn(r: Run, j: nat, i: nat, eta: nat)
    requires IsRun(r)
  {
    && j < i < |r.states|
    && Succeeds(r, j) && r.events[j].call.InitiateRecovery?
    && eta == Now(r, j) + r.states[j].config.recoveryDelay
    && forall k :: j < k < i ==> Now(r, k) < eta && (Succeeds(r, k) ==> !TouchesRecovery(r.events[k].call))
  }

  lemma {:induction false} RaceHolds(r: Run, j: nat, i: nat, eta: nat)
    requires IsRun(r) && RaceIsOn(r, j, i, eta) && GuardianChangesAreRecent(r, j, Now(r, j))
    ensures r.states[i].initialized
    ensures r.states[i].recovery == Recovery(r.events[j].call.newNullifier, eta)
    ensures GuardianChangesAfter(r.states[i], eta)
  {
    var k := i - 1;
    RecoveryStarts(r, j);
    if k == j {
      RecentChangesComeAfter(r, j);
    } else {
      RaceHolds(r, j, k, eta);
      ConfigNeverChanges(r, j, k);
      assert Now(r, j) <= Now(r, k);
      assert Succeeds(r, k) ==> !TouchesRecovery(r.events[k].call);
      RaceAt(r, k);
      ConfigAt(r, k);
    }
  }

  /**
   * When every guardian change waiting at the start of a recovery was scheduled less than the change delay before, the
   * recovery can execute at its eta, whatever happened meanwhile short of cancelling it, and gives the account to the
   * new nullifier alone.
   */
  lemma RecoveryWinsTheRace(r: Run, j: nat, i: nat, eta: nat, env: Env, n: B256)
    requires IsRun(r) && RaceIsOn(r, j, i, eta) && GuardianChangesAreRecent(r, j, Now(r, j)) && env.now == eta
    ensures DoExecuteRecovery(r.states[i], env).Ok?
    ensures DoExecuteRecovery(r.states[i], env).value.post.Owns(n) <==> n == r.events[j].call.newNullifier
  {
    RaceHolds(r, j, i, eta);
    Reachable(r, i);
  }

  /** Meanwhile no change of guardian can apply, and at that moment none that waited when the recovery started can. */
  lemma GuardianChangesComeTooLate(r: Run, j: nat, i: nat, eta: nat, env: Env, id: B256, payload: Payload)
    requires IsRun(r) && RaceIsOn(r, j, i, eta) && GuardianChangesAreRecent(r, j, Now(r, j))
    requires env.now < eta || (env.now == eta && id in r.states[j].pending)
    ensures DoApplyChange(r.states[i], env, id, SET_GUARDIAN, payload).Err?
  {
    RaceHolds(r, j, i, eta);
    RecoveryStarts(r, j);
    ConfigNeverChanges(r, j, i);
    if id in r.states[j].pending && id in r.states[i].pending && r.states[j].config.changeDelay == 0 {
      RecentNeedsDelay(r, j, i, id);
    }
  }

  /** Without a change delay nothing is recent: an id that waits before and after is no guardian change. */
  lemma RecentNeedsDelay(r: Run, j: nat, i: nat, id: B256)
    requires IsRun(r) && j <= i < |r.states| && j < |r.events| && r.states[j].initialized
    requires GuardianChangesAreRecent(r, j, Now(r, j)) && r.states[j].config.changeDelay == 0
    requires id in r.states[j].pending && id in r.states[i].pending
    ensures r.states[i].pending[id].kind != SET_GUARDIAN
  {
    WaitingWasScheduled(r, j, id);
    var k :| ScheduledAt(r, k, j, id);
    assert Now(r, k) <= Now(r, j);
    IdKeepsItsKind(r, j, i, id);
  }

  lemma IdKeepsItsKind(r: Run, j: nat, i: nat, id: B256)
    requires IsRun(r) && j < |r.states| && i < |r.states|
    requires id in r.states[j].pending && id in r.states[i].pending
    ensures r.states[i].pending[id].kind == r.states[j].pending[id].kind
  {
    Reachable(r, j);
    Reachable(r, i);
    assert EntryOk(r.states[i], id, r.states[i].pending[id]);
    assert EntryOk(r.states[j], id, r.states[j].pending[id]);
  }

  /** The condition is needed: a guardian change ready by the recovery's eta can apply at that moment and ends the recovery. */
  lemma OlderChangeEndsTheRecovery(r: Run, i: nat, env: Env, id: B256)
    requires IsRun(r) && i < |r.states| && r.states[i].recovery.eta != 0 && env.now == r.states[i].recovery.eta
    requires id in r.states[i].pending && r.states[i].pending[id].kind == SET_GUARDIAN
    ensures EntryOk(r.states[i], id, r.states[i].pending[id])
    ensures var applied := DoApplyChange(r.states[i], env, id, SET_GUARDIAN, PayloadOf(r.states[i].pending[id]));
            && (applied.Ok? <==> r.states[i].pending[id].eta <= r.states[i].recovery.eta)
            && (applied.Ok? ==> DoExecuteRecovery(applied.value.post, env) == Err(NoRecovery))
  {
    Reachable(r, i);
    assert EntryOk(r.states[i], id, r.states[i].pending[id]);
    InvApplyWaiting(r.states[i], id);
  }

  // ---------------------------------------------------------------------------------------------------------------
  // No guardian call removes a guardian change.

  /** The calls that can make a waiting guardian change leave: it applies, an owner cancels it or freezes, or a recovery executes. */
  ghost predicate EndsGuardianChange(call: Call, id: B256) {
    || (call.ApplyChange? && call.changeId == id)
    || (call.CancelChange? && call.changeId == id)
    || (call.Restrict? && call.kind == FREEZE)
    || call.ExecuteRecovery?
  }

  lemma ScheduleKeepsWaiting(s: Account, env: Env, call: Call, id: B256)
    requires Inv(s) && id in s.pending && call.ScheduleChange?
    ensures id in Next(s, env, call).pending && Next(s, env, call).pending[id] == s.pending[id]
  {
    if Step(s, env, call).Ok? {
      FreshId(s, Step(s, env, call).value.id);
    }
  }

  lemma GuardianChangeStep(s: Account, env: Env, call: Call, id: B256)
    requires id in s.pending && s.pending[id].kind == SET_GUARDIAN && !call.ScheduleChange?
    requires Step(s, env, call).Ok? ==> !EndsGuardianChange(call, id)
    ensures id in Next(s, env, call).pending && Next(s, env, call).pending[id] == s.pending[id]
  {
    if Step(s, env, call).Ok? {
      if call.ApplyChange? {
        ApplyKeepsPending(s.(pending := s.pending - {call.changeId}), call.kind, call.payload);
      } else if call.Restrict? {
        ApplyKeepsPending(Charged(s, env, call.auth), call.kind, call.payload);
      }
    }
  }

  lemma GuardianChangeAt(r: Run, i: nat, id: B256)
    requires IsRun(r) && i < |r.events| && id in r.states[i].pending && r.states[i].pending[id].kind == SET_GUARDIAN
    requires Succeeds(r, i) ==> !EndsGuardianChange(r.events[i].call, id)
    ensures id in r.states[i + 1].pending && r.states[i + 1].pending[id] == r.states[i].pending[id]
  {
    Reachable(r, i);
    assert StepAt(r, i);
    if r.events[i].call.ScheduleChange? {
      ScheduleKeepsWaiting(r.states[i], r.events[i].env, r.events[i].call, id);
    } else {
      GuardianChangeStep(r.states[i], r.events[i].env, r.events[i].call, id);
    }
  }

  lemma GuardianChangeApplies(r: Run, i: nat, id: B256, env: Env)
    requires IsRun(r) && i < |r.states| && id in r.states[i].pending && r.states[i].pending[id].kind == SET_GUARDIAN
    ensures EntryOk(r.states[i], id, r.states[i].pending[id])
    ensures r.states[i].pending[id].eta <= env.now ==>
              var applied := DoApplyChange(r.states[i], env, id, SET_GUARDIAN, PayloadOf(r.states[i].pending[id]));
              && applied.Ok? && applied.value.post.recovery.eta == 0
              && PayloadOf(r.states[i].pending[id]) == Payload([applied.value.post.guardian], [])
  {
    Reachable(r, i);
    var s := r.states[i];
    InvApplyWaiting(s, id);
    hide Apply, Inv;
    NewGuardianTakesOffice(s.(pending := s.pending - {id}), PayloadOf(s.pending[id]));
  }

  lemma NewGuardianTakesOffice(s: Account, payload: Payload)
    requires Apply(s, SET_GUARDIAN, payload).Ok?
    ensures var t := Apply(s, SET_GUARDIAN, payload).value;
            payload == Payload([t.guardian], []) && t.recovery.eta == 0
  {
    assert payload.words == [payload.words[0]];
  }

  /**
   * A guardian can delay its replacement but never stop it: unless an owner cancels the change or freezes, or a recovery
   * executes, the change is still there when its time comes, and anyone can put the new guardian in its place.
   */
  lemma {:induction false} GuardianCannotHoldTheAccount(r: Run, j: nat, i: nat, id: B256, env: Env)
    requires IsRun(r) && j <= i < |r.states| && id in r.states[j].pending && r.states[j].pending[id].kind == SET_GUARDIAN
    requires forall k :: j <= k < i && Succeeds(r, k) ==> !EndsGuardianChange(r.events[k].call, id)
    ensures id in r.states[i].pending && r.states[i].pending[id] == r.states[j].pending[id]
    ensures EntryOk(r.states[i], id, r.states[i].pending[id])
    ensures r.states[j].pending[id].eta <= env.now ==>
              var applied := DoApplyChange(r.states[i], env, id, SET_GUARDIAN, PayloadOf(r.states[i].pending[id]));
              && applied.Ok? && applied.value.post.recovery.eta == 0
              && PayloadOf(r.states[i].pending[id]) == Payload([applied.value.post.guardian], [])
  {
    if i > j {
      GuardianCannotHoldTheAccount(r, j, i - 1, id, env);
      GuardianChangeAt(r, i - 1, id);
    }
    GuardianChangeApplies(r, i, id, env);
  }

  // ---------------------------------------------------------------------------------------------------------------
  // A freeze holds for the change delay.

  ghost predicate Freezes(call: Call) {
    call.GuardianFreeze? || (call.Restrict? && call.kind == FREEZE)
  }

  /** Frozen, and no waiting change can unfreeze before `until`. */
  ghost predicate FrozenUntil(s: Account, until: nat) {
    s.initialized && s.rules.frozen && forall id <- s.pending :: s.pending[id].kind == UNFREEZE ==> until <= s.pending[id].eta
  }

  lemma FreezeStarts(s: Account, env: Env, call: Call, until: nat)
    requires Freezes(call) && Step(s, env, call).Ok?
    ensures FrozenUntil(Next(s, env, call), until)
  {
  }

  lemma FrozenRulesStep(s: Account, env: Env, call: Call, until: nat)
    requires FrozenUntil(s, until) && env.now < until
    ensures Next(s, env, call).rules.frozen && Next(s, env, call).initialized
  {
    if call.Restrict? && Step(s, env, call).Ok? {
      RestrictiveTightens(s.rules, call.kind, call.payload);
    }
  }

  lemma FrozenStep(s: Account, env: Env, call: Call, until: nat)
    requires Inv(s) && FrozenUntil(s, until) && env.now < until <= env.now + s.config.changeDelay
    ensures FrozenUntil(Next(s, env, call), until)
  {
    FrozenRulesStep(s, env, call, until);
    var t := Next(s, env, call);
    forall id <- t.pending ensures t.pending[id].kind == UNFREEZE ==> until <= t.pending[id].eta {
      PendingStep(s, env, call, id);
    }
  }

  lemma FreezeStartsAt(r: Run, j: nat, until: nat)
    requires IsRun(r) && j < |r.events| && Succeeds(r, j) && Freezes(r.events[j].call)
    ensures r.states[j].initialized && FrozenUntil(r.states[j + 1], until)
  {
    assert StepAt(r, j);
    FreezeStarts(r.states[j], r.events[j].env, r.events[j].call, until);
  }

  lemma FrozenAt(r: Run, i: nat, until: nat)
    requires IsRun(r) && i < |r.events| && FrozenUntil(r.states[i], until)
    requires Now(r, i) < until <= Now(r, i) + r.states[i].config.changeDelay
    ensures FrozenUntil(r.states[i + 1], until)
  {
    Reachable(r, i);
    assert StepAt(r, i);
    FrozenStep(r.states[i], r.events[i].env, r.events[i].call, until);
  }

  /** After a freeze at time t the account stays frozen, with no unfreeze ready, for as long as time is before t + the change delay. */
  lemma {:induction false} FreezeHolds(r: Run, j: nat, i: nat)
    requires IsRun(r) && j < i < |r.states| && Succeeds(r, j) && Freezes(r.events[j].call)
    requires forall k :: j < k < i ==> Now(r, k) < Now(r, j) + r.states[j].config.changeDelay
    ensures r.states[j].initialized
    ensures FrozenUntil(r.states[i], Now(r, j) + r.states[j].config.changeDelay)
  {
    var k := i - 1;
    var until := Now(r, j) + r.states[j].config.changeDelay;
    FreezeStartsAt(r, j, until);
    if k > j {
      FreezeHolds(r, j, k);
      ConfigNeverChanges(r, j, k);
      assert Now(r, j) <= Now(r, k);
      FrozenAt(r, k, until);
    }
  }

  /** A freeze by an owner leaves nothing waiting; one by the guardian leaves exactly the guardian changes. */
  lemma FreezeCancels(r: Run, j: nat, id: B256)
    requires IsRun(r) && j < |r.events| && Succeeds(r, j) && Freezes(r.events[j].call)
    ensures id in r.states[j + 1].pending <==>
            id in r.states[j].pending && r.events[j].call.GuardianFreeze? && r.states[j].pending[id].kind == SET_GUARDIAN
    ensures id in r.states[j + 1].pending ==> r.states[j + 1].pending[id] == r.states[j].pending[id]
  {
    assert StepAt(r, j);
    CancelStep(r.states[j], r.events[j].env, r.events[j].call);
  }

  lemma CancelStep(s: Account, env: Env, call: Call)
    requires Freezes(call) && Step(s, env, call).Ok?
    ensures Next(s, env, call).pending == Kept(s.pending, call.GuardianFreeze?)
  {
  }

  lemma PaymentsNeedAThaw(r: Run, i: nat)
    requires IsRun(r) && i < |r.events| && r.events[i].call.Pay? && Succeeds(r, i)
    ensures !r.states[i].rules.frozen
  {
    assert StepAt(r, i);
  }

  /** No payment succeeds before t + the change delay, in any continuation of the run. */
  lemma NoPaymentAfterAFreeze(r: Run, j: nat, i: nat)
    requires IsRun(r) && j < i < |r.events| && Succeeds(r, j) && Freezes(r.events[j].call)
    requires r.events[i].call.Pay? && Succeeds(r, i)
    ensures Now(r, j) + r.states[j].config.changeDelay <= Now(r, i)
  {
    PaymentsNeedAThaw(r, i);
    if Now(r, i) < Now(r, j) + r.states[j].config.changeDelay {
      forall k | j < k < i ensures Now(r, k) < Now(r, j) + r.states[j].config.changeDelay {
        assert Now(r, k) <= Now(r, i);
      }
      FreezeHolds(r, j, i);
    }
  }
}
