/** Where the account's USDG goes over a run, and how much of it a day and a run can spend. */
module AccountSpending {
  import opened Primitives
  import opened Changes
  import opened Spending
  import opened AccountSpec
  import opened AccountInvariant
  import opened AccountRuns

  function Total(transfers: seq<Transfer>): nat {
    if transfers == [] then 0 else transfers[0].amount + Total(transfers[1..])
  }

  lemma TotalOfMoves(a: Address, x: nat, b: Address, y: nat)
    ensures Total(Move(a, x)) == x
    ensures Total(Move(a, x) + Move(b, y)) == x + y
  {
    assert Total(Move(b, y)) == y;
    if x != 0 {
      assert (Move(a, x) + Move(b, y))[1..] == Move(b, y);
    } else {
      assert Move(a, x) + Move(b, y) == Move(b, y);
    }
  }

  /** The USDG one call moves out of the account. */
  function Moved(outcome: Outcome): nat {
    if outcome.Ok? then Total(outcome.value.transfers) else 0
  }

  ghost function OutAt(r: Run, i: nat): nat
    requires IsRun(r) && i < |r.events|
  {
    Moved(r.outcomes[i])
  }

  function DayOf(r: Run, i: nat): nat
    requires i < |r.events|
  {
    Now(r, i) / 86_400
  }

  /** The USDG that left on UTC day `day` in the first `n` calls: the ledger the stored window is compared with. */
  ghost function DaySpent(r: Run, n: nat, day: nat): nat
    requires IsRun(r) && n <= |r.events|
  {
    if n == 0 then 0 else DaySpent(r, n - 1, day) + (if DayOf(r, n - 1) == day then OutAt(r, n - 1) else 0)
  }

  /** All the USDG that left in the first `n` calls. */
  ghost function AllSpent(r: Run, n: nat): nat
    requires IsRun(r) && n <= |r.events|
  {
    if n == 0 then 0 else AllSpent(r, n - 1) + OutAt(r, n - 1)
  }

  ghost predicate WindowMoves(before: Window, after: Window, now: nat, out: nat, cap: nat) {
    && (after == before || after.day == now / 86_400)
    && after.Already(now) == before.Already(now) + out
    && (out > 0 ==> after.day == now / 86_400 && after.spent <= cap)
  }

  /** Every call counts in the window exactly what it moves, and what it moves stays within the cap it started under. */
  lemma WindowStep(s: Account, env: Env, call: Call)
    ensures WindowMoves(s.window, Next(s, env, call).window, env.now, Moved(Step(s, env, call)), s.rules.dailyCap)
  {
    hide Apply, IsRestrictive, KeepsFeesPayable, Authorize, CheckSchedule, IsValidPolicy;
    if Step(s, env, call).Ok? {
      match call
      case Pay(to, amount, auth) => TotalOfMoves(to, amount, s.config.feeRecipient, auth.fee);
      case ScheduleChange(kind, payload, auth) => TotalOfMoves(s.config.feeRecipient, auth.fee, 0, 0);
      case Restrict(kind, payload, auth) =>
        ApplyKeepsPending(Charged(s, env, auth), kind, payload);
        TotalOfMoves(s.config.feeRecipient, FeeCharge(s, env, auth).charged, 0, 0);
      case CancelChange(changeId, auth) => TotalOfMoves(s.config.feeRecipient, FeeCharge(s, env, auth).charged, 0, 0);
      case CancelRecovery(auth) => TotalOfMoves(s.config.feeRecipient, FeeCharge(s, env, auth).charged, 0, 0);
      case ApplyChange(changeId, kind, payload) => ApplyKeepsPending(s.(pending := s.pending - {changeId}), kind, payload);
      case _ =>
    }
  }

  lemma WindowAt(r: Run, i: nat)
    requires IsRun(r) && i < |r.events|
    ensures WindowMoves(r.states[i].window, r.states[i + 1].window, Now(r, i), OutAt(r, i), r.states[i].rules.dailyCap)
  {
    assert StepAt(r, i);
    WindowStep(r.states[i], r.events[i].env, r.events[i].call);
  }

  /** The window's day is never ahead of the clock. */
  lemma {:induction false} WindowDayIsPast(r: Run, n: nat, i: nat)
    requires IsRun(r) && n <= i < |r.events|
    ensures r.states[n].window.day <= DayOf(r, i)
  {
    if n > 0 {
      var k := n - 1;
      WindowDayIsPast(r, k, i);
      WindowAt(r, k);
      assert Now(r, k) <= Now(r, i);
    }
  }

  /** The stored window is the ledger of its own day, and no later day has spent anything. */
  lemma {:induction false} WindowIsTheLedger(r: Run, n: nat, day: nat)
    requires IsRun(r) && n <= |r.events| && r.states[n].window.day <= day
    ensures DaySpent(r, n, day) == if day == r.states[n].window.day then r.states[n].window.spent else 0
  {
    if n > 0 {
      var k := n - 1;
      WindowDayIsPast(r, k, k);
      WindowAt(r, k);
      WindowIsTheLedger(r, k, day);
    }
  }

  /** After any outflow, its day has spent no more than the daily cap in force when the call started. */
  lemma OutflowEndsWithinTheCap(r: Run, i: nat)
    requires IsRun(r) && i < |r.events| && OutAt(r, i) > 0
    ensures DaySpent(r, i + 1, DayOf(r, i)) <= r.states[i].rules.dailyCap
  {
    WindowAt(r, i);
    WindowIsTheLedger(r, i + 1, DayOf(r, i));
  }

  /** `cap` is at least every daily cap in force when something left on `day`. */
  ghost predicate CapsOfDay(r: Run, n: nat, day: nat, cap: nat)
    requires IsRun(r) && n <= |r.events|
  {
    forall k :: 0 <= k < n && DayOf(r, k) == day && OutAt(r, k) > 0 ==> r.states[k].rules.dailyCap <= cap
  }

  /** The day's ledger stays within any bound on the caps in force at its outflows. */
  lemma {:induction false} DailyBound(r: Run, n: nat, day: nat, cap: nat)
    requires IsRun(r) && n <= |r.events| && CapsOfDay(r, n, day, cap)
    ensures DaySpent(r, n, day) <= cap
  {
    if n > 0 {
      if DayOf(r, n - 1) == day && OutAt(r, n - 1) > 0 {
        OutflowEndsWithinTheCap(r, n - 1);
      } else {
        DailyBound(r, n - 1, day, cap);
      }
    }
  }

  ghost function DaysSpent(r: Run, n: nat, first: nat, end: nat): nat
    requires IsRun(r) && n <= |r.events| && first <= end
    decreases end
  {
    if first == end then 0 else DaysSpent(r, n, first, end - 1) + DaySpent(r, n, end - 1)
  }

  function CapSum(caps: nat -> nat, first: nat, end: nat): nat
    requires first <= end
    decreases end
  {
    if first == end then 0 else CapSum(caps, first, end - 1) + caps(end - 1)
  }

  lemma {:induction false} DaysSpentStep(r: Run, n: nat, first: nat, end: nat)
    requires IsRun(r) && 0 < n <= |r.events| && first <= end
    ensures DaysSpent(r, n, first, end)
            == DaysSpent(r, n - 1, first, end) + (if first <= DayOf(r, n - 1) < end then OutAt(r, n - 1) else 0)
    decreases end
  {
    if first < end {
      DaysSpentStep(r, n, first, end - 1);
    }
  }

  /** What left over the run is what left on its days. */
  lemma {:induction false} DaysAddUp(r: Run, n: nat, first: nat, end: nat)
    requires IsRun(r) && n <= |r.events| && first <= end
    requires forall k :: 0 <= k < n ==> first <= DayOf(r, k) < end
    ensures AllSpent(r, n) == DaysSpent(r, n, first, end)
  {
    if n > 0 {
      DaysAddUp(r, n - 1, first, end);
      DaysSpentStep(r, n, first, end);
    } else {
      NothingYet(r, first, end);
    }
  }

  lemma {:induction false} NothingYet(r: Run, first: nat, end: nat)
    requires IsRun(r) && first <= end
    ensures DaysSpent(r, 0, first, end) == 0
    decreases end
  {
    if first < end {
      NothingYet(r, first, end - 1);
    }
  }

  lemma {:induction false} DaysWithinCaps(r: Run, n: nat, first: nat, end: nat, caps: nat -> nat)
    requires IsRun(r) && n <= |r.events| && first <= end
    requires forall day :: first <= day < end ==> CapsOfDay(r, n, day, caps(day))
    ensures DaysSpent(r, n, first, end) <= CapSum(caps, first, end)
    decreases end
  {
    if first < end {
      DaysWithinCaps(r, n, first, end - 1, caps);
      DailyBound(r, n, end - 1, caps(end - 1));
    }
  }

  /** A run over the days `first` to `end - 1` spends at most the sum of those days' largest caps. */
  lemma RunBound(r: Run, first: nat, end: nat, caps: nat -> nat)
    requires IsRun(r) && first <= end
    requires forall k :: 0 <= k < |r.events| ==> first <= DayOf(r, k) < end
    requires forall day :: first <= day < end ==> CapsOfDay(r, |r.events|, day, caps(day))
    ensures AllSpent(r, |r.events|) <= CapSum(caps, first, end)
  {
    DaysAddUp(r, |r.events|, first, end);
    DaysWithinCaps(r, |r.events|, first, end, caps);
  }

  /** The fee an authorized call carries; other calls carry none. */
  function FeeOf(call: Call): nat {
    match call
    case Pay(_, _, auth) => auth.fee
    case ScheduleChange(_, _, auth) => auth.fee
    case Restrict(_, _, auth) => auth.fee
    case CancelChange(_, auth) => auth.fee
    case CancelRecovery(auth) => auth.fee
    case _ => 0
  }

  /**
   * USDG leaves only to the payee of a payment, with its amount, or to the fee recipient, with at most the signed fee,
   * which never passes the largest fee. A frozen account pays nobody but the fee recipient.
   */
  lemma WhereUsdgGoes(s: Account, env: Env, call: Call, transfer: Transfer)
    requires Step(s, env, call).Ok? && transfer in Step(s, env, call).value.transfers
    ensures && 0 < transfer.amount
            && (|| (call.Pay? && !s.rules.frozen && transfer == Transfer(call.to, call.amount))
                || (transfer.to == s.config.feeRecipient && transfer.amount <= FeeOf(call) <= s.config.maxFee))
    ensures s.rules.frozen ==> transfer.to == s.config.feeRecipient
  {
  }

  /** The actions a spent cap never stops. */
  predicate IsSafety(call: Call) {
    call.Restrict? || call.CancelChange? || call.CancelRecovery?
  }

  ghost predicate SameButWindow(a: Outcome, b: Outcome) {
    if a.Ok? && b.Ok? then
      a.value.post == b.value.post.(window := a.value.post.window) && a.value.id == b.value.id
    else a == b
  }

  /** What was spent, and when, decides nothing about a safety action but the part of its fee that is waived. */
  lemma SafetyIgnoresSpending(s: Account, env: Env, call: Call, window: Window)
    requires IsSafety(call) && env.tokenOk
    ensures SameButWindow(Step(s, env, call), Step(s.(window := window), env, call))
  {
    if call.Restrict? {
      ApplyIgnoresWindow(Charged(s, env, call.auth), Charged(s.(window := window), env, call.auth), call.kind, call.payload);
    }
  }

  lemma ApplyIgnoresWindow(s: Account, t: Account, kind: nat, payload: Payload)
    requires t == s.(window := t.window)
    ensures Apply(t, kind, payload)
            == if Apply(s, kind, payload).Ok? then Ok(Apply(s, kind, payload).value.(window := t.window)) else Apply(s, kind, payload)
  {
  }

  /** Past the day's cap a safety action is free, so not even a token that refuses transfers can stop it. */
  lemma SpentCapWaivesTheFee(s: Account, env: Env, call: Call)
    requires IsSafety(call) && s.window.Already(env.now) >= s.rules.dailyCap
    ensures SameButWindow(Step(s, env, call), Step(s, env.(tokenOk := true), call))
    ensures Moved(Step(s, env, call)) == 0
  {
    TotalOfMoves(0, 0, 0, 0);
  }

  /** In every reachable state each fee the account accepts fits the per-transaction cap. */
  lemma FeesStayPayable(r: Run, i: nat, env: Env, kind: nat, payload: Payload, auth: Auth)
    requires IsRun(r) && i < |r.states| && r.states[i].initialized && auth.fee <= r.states[i].config.maxFee
    ensures DoScheduleChange(r.states[i], env, kind, payload, auth) != Err(Error.PerTxCapExceeded)
  {
    Reachable(r, i);
    assert CapsOk(r.states[i]);
  }

  /** Nothing is charged, or the token lets it be moved. */
  predicate FeeGoesThrough(s: Account, env: Env, auth: Auth) {
    auth.fee == 0 || s.window.Already(env.now) >= s.rules.dailyCap || env.tokenOk
  }

  /** A restriction that an owner authorized and whose fee the token moves always applies: nothing in the account stops it. */
  lemma RestrictionsAlwaysApply(s: Account, env: Env, kind: nat, payload: Payload, auth: Auth)
    ensures DoRestrict(s, env, kind, payload, auth).Ok? <==>
            && IsRestrictive(kind, payload, Limits(s.rules.perTxCap, s.rules.dailyCap, s.rules.newPayeeCap))
            && KeepsFeesPayable(kind, payload, s.config.maxFee)
            && Authorize(s, env, RESTRICT, 0, 0, DataHash(kind, payload), auth, None).Ok?
            && FeeGoesThrough(s, env, auth)
  {
  }

  /** Nor a cancellation: it succeeds exactly when there is what it cancels, an owner authorized it and its fee can be moved. */
  lemma CancellationsAlwaysApply(s: Account, env: Env, id: B256, auth: Auth)
    ensures DoCancelChange(s, env, id, auth).Ok? <==>
            id in s.pending && Authorize(s, env, CANCEL_CHANGE, 0, 0, id, auth, None).Ok? && FeeGoesThrough(s, env, auth)
    ensures DoCancelRecovery(s, env, auth).Ok? <==>
            && s.recovery.eta != 0 && Authorize(s, env, CANCEL_RECOVERY, 0, 0, s.recovery.nullifier, auth, None).Ok?
            && FeeGoesThrough(s, env, auth)
  {
  }

  /** No cap, spent or not, decides whether an owner may cancel. */
  lemma CancellingIgnoresTheCaps(s: Account, env: Env, call: Call, rules: Rules, window: Window)
    requires call.CancelChange? || call.CancelRecovery?
    requires env.tokenOk
    ensures var a, b := Step(s, env, call), Step(s.(rules := rules, window := window), env, call);
            if a.Ok? && b.Ok? then
              a.value.id == b.value.id
              && a.value.post == b.value.post.(rules := a.value.post.rules, window := a.value.post.window)
            else a == b
  {
    hide ClientDataFault;
  }
}
