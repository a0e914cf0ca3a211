/** Who may act, and that no authorization acts twice, over whole runs. */
module AccountReplay {
  import opened Primitives
  import opened Changes
  import opened Spending
  import opened AccountSpec
  import opened AccountInvariant
  import opened AccountRuns

  // ---------------------------------------------------------------------------------------------------------------
  // Owners.

  /** Event `k` made `n` an owner: an applied change added it, or a recovery handed it the account. */
  ghost predicate AddedAt(r: Run, k: nat, n: B256)
    requires IsRun(r)
  {
    && k < |r.events| && Succeeds(r, k)
    && AddsNow(r.states[k], r.events[k].call, n)
  }

  ghost predicate AddsNow(s: Account, call: Call, n: B256) {
    || (call.ApplyChange? && call.kind == ADD_OWNER && call.payload == Payload([n], []))
    || (call.ExecuteRecovery? && s.recovery.nullifier == n)
    || (call.Initialize? && call.ownerNullifier == n)
  }

  lemma ApplyAddsOwner(s: Account, kind: nat, payload: Payload, n: B256)
    requires Apply(s, kind, payload).Ok? && !s.Owns(n) && Apply(s, kind, payload).value.Owns(n)
    ensures kind == ADD_OWNER && payload == Payload([n], [])
  {
    assert kind == ADD_OWNER ==> payload.words == [payload.words[0]];
  }

  lemma OwnerStep(s: Account, env: Env, call: Call, n: B256)
    requires OwnersOk(s) || s == BLANK
    requires !s.Owns(n) && Next(s, env, call).Owns(n)
    ensures Step(s, env, call).Ok? && AddsNow(s, call, n)
  {
    if call.ApplyChange? {
      ApplyAddsOwner(s.(pending := s.pending - {call.changeId}), call.kind, call.payload, n);
    } else if call.Restrict? {
      RestrictiveTightens(s.rules, call.kind, call.payload);
    }
  }

  /** Nobody comes to own the account but through an applied change, an executed recovery, or its initialization. */
  lemma {:induction false} OwnersAreAdded(r: Run, j: nat, i: nat, n: B256)
    requires IsRun(r) && j <= i < |r.states| && !r.states[j].Owns(n) && r.states[i].Owns(n)
    ensures exists k: nat :: j <= k < i && AddedAt(r, k, n)
  {
    var k := i - 1;
    if r.states[k].Owns(n) {
      OwnersAreAdded(r, j, k, n);
    } else {
      Reachable(r, k);
      assert StepAt(r, k);
      OwnerStep(r.states[k], r.events[k].env, r.events[k].call, n);
      assert AddedAt(r, k, n);
    }
  }

  /** A recovery leaves exactly the new nullifier in charge, with every change the old owners scheduled gone. */
  lemma RecoveryReplacesTheOwners(r: Run, j: nat, n: B256)
    requires IsRun(r) && j < |r.events| && Succeeds(r, j) && r.events[j].call.ExecuteRecovery?
    ensures r.states[j + 1].Owns(n) <==> n == r.states[j].recovery.nullifier
    ensures r.states[j + 1].ownership.count == 1 && r.states[j + 1].pending == map[]
  {
    Reachable(r, j);
    assert StepAt(r, j);
  }

  /** After a recovery no other passkey authorizes anything again unless it is added again. */
  lemma EarlierOwnersStayOut(r: Run, j: nat, i: nat)
    requires IsRun(r) && j < i < |r.events| && Succeeds(r, j) && r.events[j].call.ExecuteRecovery?
    requires Succeeds(r, i) && AuthOf(r.events[i].call).Some?
    requires AuthOf(r.events[i].call).value.nullifier != r.states[j].recovery.nullifier
    ensures exists k: nat :: j < k < i && AddedAt(r, k, AuthOf(r.events[i].call).value.nullifier)
  {
    var n := AuthOf(r.events[i].call).value.nullifier;
    RecoveryReplacesTheOwners(r, j, n);
    NonceAt(r, i);
    OwnersAreAdded(r, j + 1, i, n);
  }

  /** The locked implementation contract: initialized, and nothing else. */
  const LOCKED: Account := BLANK.(initialized := true)

  /** The implementation contract can do nothing: every call on it fails, so it never leaves the locked state. */
  lemma ImplementationIsInert(env: Env, call: Call)
    ensures Step(LOCKED, env, call).Err?
  {
  }

  // ---------------------------------------------------------------------------------------------------------------
  // Nonces and replay.

  /** The owner's authorization a call carries. */
  function AuthOf(call: Call): Option<Auth> {
    match call
    case Pay(_, _, auth) => Some(auth)
    case ScheduleChange(_, _, auth) => Some(auth)
    case Restrict(_, _, auth) => Some(auth)
    case CancelChange(_, auth) => Some(auth)
    case CancelRecovery(auth) => Some(auth)
    case _ => None
  }

  /** What an authorized call asks the account to do, each kind of call under its own number. */
  function Meaning(s: Account, env: Env, call: Call): Action
    requires AuthOf(call).Some?
  {
    match call
    case Pay(to, amount, auth) => Action(env.chainId, env.self, s.nonce, 1, to, amount, ZERO_WORD, auth.fee, auth.deadline)
    case ScheduleChange(kind, payload, auth) =>
      Action(env.chainId, env.self, s.nonce, 2, 0, 0, DataHash(kind, payload), auth.fee, auth.deadline)
    case CancelChange(changeId, auth) => Action(env.chainId, env.self, s.nonce, 3, 0, 0, changeId, auth.fee, auth.deadline)
    case CancelRecovery(auth) => Action(env.chainId, env.self, s.nonce, 4, 0, 0, s.recovery.nullifier, auth.fee, auth.deadline)
    case Restrict(kind, payload, auth) =>
      Action(env.chainId, env.self, s.nonce, 5, 0, 0, DataHash(kind, payload), auth.fee, auth.deadline)
  }

  /** An authorized step signed exactly what it does, over the current nonce, and consumes it; no other step moves the nonce. */
  lemma NonceStep(s: Account, env: Env, call: Call)
    ensures Step(s, env, call).Ok? && AuthOf(call).Some? ==>
              && Next(s, env, call).nonce == s.nonce + 1
              && Step(s, env, call).value.id == Keccak(ActionPreimage(Meaning(s, env, call)))
              && AuthOf(call).value.clientData.challenge == Step(s, env, call).value.id
              && s.Owns(AuthOf(call).value.nullifier)
              && env.now <= AuthOf(call).value.deadline <= env.now + MAX_DEADLINE_WINDOW
    ensures !(Step(s, env, call).Ok? && AuthOf(call).Some?) ==> Next(s, env, call).nonce == s.nonce
  {
    if Step(s, env, call).Ok? {
      match call
      case Restrict(kind, payload, auth) => ApplyKeepsPending(Charged(s, env, auth), kind, payload);
      case ApplyChange(changeId, kind, payload) => ApplyKeepsPending(s.(pending := s.pending - {changeId}), kind, payload);
      case _ =>
    }
  }

  ghost predicate Authorized(r: Run, i: nat)
    requires IsRun(r) && i < |r.events|
  {
    Succeeds(r, i) && AuthOf(r.events[i].call).Some?
  }

  lemma NonceAt(r: Run, i: nat)
    requires IsRun(r) && i < |r.events|
    ensures r.states[i + 1].nonce == r.states[i].nonce + (if Authorized(r, i) then 1 else 0)
    ensures Authorized(r, i) ==>
              && r.outcomes[i].value.id == Keccak(ActionPreimage(Meaning(r.states[i], r.events[i].env, r.events[i].call)))
              && AuthOf(r.events[i].call).value.clientData.challenge == r.outcomes[i].value.id
              && r.states[i].Owns(AuthOf(r.events[i].call).value.nullifier)
  {
    assert StepAt(r, i);
    NonceStep(r.states[i], r.events[i].env, r.events[i].call);
  }

  /** How many of the first `n` calls an owner authorized. */
  ghost function AuthorizedCount(r: Run, n: nat): nat
    requires IsRun(r) && n <= |r.events|
  {
    if n == 0 then 0 else AuthorizedCount(r, n - 1) + (if Authorized(r, n - 1) then 1 else 0)
  }

  /** The nonce counts the authorized steps: it rises by one at each of them and at no other. */
  lemma {:induction false} NonceCountsAuthorizations(r: Run, n: nat)
    requires IsRun(r) && n <= |r.events|
    ensures r.states[n].nonce == AuthorizedCount(r, n)
  {
    if n > 0 {
      NonceCountsAuthorizations(r, n - 1);
      NonceAt(r, n - 1);
    } else {
      assert r.states[0] == BLANK;
    }
  }

  lemma {:induction false} NonceNeverFalls(r: Run, i: nat, j: nat)
    requires IsRun(r) && i <= j <= |r.events|
    ensures r.states[i].nonce <= r.states[j].nonce
  {
    if i < j {
      NonceNeverFalls(r, i, j - 1);
      NonceAt(r, j - 1);
    }
  }

  /** No authorization is accepted twice, and no change or restriction id ever repeats, even after it was applied or cancelled. */
  lemma NothingReplays(r: Run, i: nat, j: nat)
    requires IsRun(r) && i < j < |r.events| && Authorized(r, i) && Authorized(r, j)
    ensures r.outcomes[i].value.id != r.outcomes[j].value.id
    ensures AuthOf(r.events[i].call).value.clientData != AuthOf(r.events[j].call).value.clientData
  {
    NonceAt(r, i);
    NonceAt(r, j);
    NonceNeverFalls(r, i + 1, j);
  }

  /** Two accepted calls with the same challenge, in any states of any accounts, are the same request on the same account and chain. */
  lemma ChallengeBindsEverything(s: Account, e: Env, c: Call, t: Account, f: Env, d: Call)
    requires AuthOf(c).Some? && AuthOf(d).Some? && Step(s, e, c).Ok? && Step(t, f, d).Ok?
    requires AuthOf(c).value.clientData.challenge == AuthOf(d).value.clientData.challenge
    ensures e.chainId == f.chainId && e.self == f.self && s.nonce == t.nonce
    ensures AuthOf(c).value.fee == AuthOf(d).value.fee && AuthOf(c).value.deadline == AuthOf(d).value.deadline
    ensures c.Pay? <==> d.Pay?
    ensures c.Pay? ==> c.to == d.to && c.amount == d.amount
    ensures c.ScheduleChange? <==> d.ScheduleChange?
    ensures c.ScheduleChange? ==> c.kind == d.kind && c.payload == d.payload
    ensures c.Restrict? <==> d.Restrict?
    ensures c.Restrict? ==> c.kind == d.kind && c.payload == d.payload
    ensures c.CancelChange? <==> d.CancelChange?
    ensures c.CancelChange? ==> c.changeId == d.changeId
    ensures c.CancelRecovery? ==> s.recovery.nullifier == t.recovery.nullifier
  {
    NonceStep(s, e, c);
    NonceStep(t, f, d);
    assert Meaning(s, e, c) == Meaning(t, f, d);
  }
}
