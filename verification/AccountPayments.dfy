/** What a payment may do, whom the account has paid before, and what the payer was shown. */
module AccountPayments {
  import opened Primitives
  import opened Changes
  import opened Spending
  import opened AccountSpec
  import opened AccountInvariant
  import opened AccountRuns
  import opened AccountSpending

  /** Event `k` paid `to`. */
  ghost predicate PaidAt(r: Run, k: nat, to: Address)
    requires IsRun(r)
  {
    k < |r.events| && Succeeds(r, k) && r.events[k].call.Pay? && r.events[k].call.to == to
  }

  lemma KnownStep(s: Account, env: Env, call: Call, to: Address)
    ensures to in Next(s, env, call).knownRecipients <==>
            to in s.knownRecipients || (Step(s, env, call).Ok? && call.Pay? && call.to == to)
  {
    if Step(s, env, call).Ok? {
      match call
      case Restrict(kind, payload, auth) => ApplyKeepsPending(Charged(s, env, auth), kind, payload);
      case ApplyChange(changeId, kind, payload) => ApplyKeepsPending(s.(pending := s.pending - {changeId}), kind, payload);
      case _ =>
    }
  }

  lemma KnownAt(r: Run, i: nat, to: Address)
    requires IsRun(r) && i < |r.events|
    ensures to in r.states[i + 1].knownRecipients <==> to in r.states[i].knownRecipients || PaidAt(r, i, to)
  {
    assert StepAt(r, i);
    KnownStep(r.states[i], r.events[i].env, r.events[i].call, to);
  }

  /** A recipient is known exactly when the account has paid it before. */
  lemma {:induction false} KnownWerePaid(r: Run, n: nat, to: Address)
    requires IsRun(r) && n < |r.states|
    ensures to in r.states[n].knownRecipients <==> exists k: nat :: k < n && PaidAt(r, k, to)
  {
    if n > 0 {
      KnownWerePaid(r, n - 1, to);
      KnownAt(r, n - 1, to);
      if PaidAt(r, n - 1, to) {
        assert n - 1 < n;
      }
    } else {
      assert r.states[0] == BLANK;
    }
  }

  /** The rules a payment obeys, in the state it starts from. */
  ghost predicate Obeys(s: Account, env: Env, to: Address, amount: nat, auth: Auth) {
    && !s.rules.frozen
    && 0 < amount && amount + auth.fee <= s.rules.perTxCap
    && s.window.Already(env.now) + amount + auth.fee <= s.rules.dailyCap
    && to != 0 && to != env.self
    && (s.rules.allowlistEnabled ==> to in s.rules.allowedRecipients)
    && (s.rules.paymentSheetRequired ==> auth.clientData.spc)
    && (to in s.knownRecipients || to in s.rules.allowedRecipients || amount <= s.rules.newPayeeCap)
  }

  /** A payment an owner authorized goes through exactly when it obeys the rules and the token moves. */
  lemma PaymentsObeyTheRules(s: Account, env: Env, to: Address, amount: u256, auth: Auth)
    requires s.rules.dailyCap < TWO_128
    ensures DoPay(s, env, to, amount, auth).Ok? <==>
            && Obeys(s, env, to, amount, auth) && env.tokenOk
            && Authorize(s, env, PAY, to, amount, ZERO_WORD, auth, Some(Payment(to, amount + auth.fee))).Ok?
  {
    hide Authorize;
  }

  lemma PayAt(r: Run, i: nat)
    requires IsRun(r) && i < |r.events| && Succeeds(r, i) && r.events[i].call.Pay?
    ensures var c := r.events[i].call; Obeys(r.states[i], r.events[i].env, c.to, c.amount, c.auth)
  {
    assert StepAt(r, i);
    var c := r.events[i].call;
    PaymentsObeyTheRules(r.states[i], r.events[i].env, c.to, c.amount, c.auth);
  }

  /** Unless its recipient is allowed by name, a run's first payment to it is no larger than the cap for new payees. */
  lemma FirstPaymentsAreCapped(r: Run, i: nat)
    requires IsRun(r) && i < |r.events| && Succeeds(r, i) && r.events[i].call.Pay?
    requires forall k: nat :: k < i ==> !PaidAt(r, k, r.events[i].call.to)
    ensures r.events[i].call.to in r.states[i].rules.allowedRecipients || r.events[i].call.amount <= r.states[i].rules.newPayeeCap
  {
    PayAt(r, i);
    KnownWerePaid(r, i, r.events[i].call.to);
  }

  /**
   * When the browser's payment sheet was shown, and always when it is required, it showed the payee the USDG goes to and,
   * as the total, all the USDG that leaves.
   */
  lemma TheSheetShowsWhatLeaves(s: Account, env: Env, to: Address, amount: u256, auth: Auth)
    requires DoPay(s, env, to, amount, auth).Ok?
    ensures s.rules.paymentSheetRequired ==> auth.clientData.spc
    ensures auth.clientData.spc ==>
              auth.clientData.payee == to && auth.clientData.total == Moved(DoPay(s, env, to, amount, auth))
  {
    TotalOfMoves(to, amount, s.config.feeRecipient, auth.fee);
  }

  /** The authorization a call other than a payment carries. */
  ghost predicate Carries(call: Call, auth: Auth) {
    match call
    case ScheduleChange(_, _, a) => a == auth
    case Restrict(_, _, a) => a == auth
    case CancelChange(_, a) => a == auth
    case CancelRecovery(a) => a == auth
    case _ => false
  }

  /** What a payment sheet signed authorizes nothing but the payment it showed. */
  lemma TheSheetOnlyPays(s: Account, env: Env, call: Call, auth: Auth)
    requires Carries(call, auth) && auth.clientData.spc
    ensures Step(s, env, call).Err?
  {
  }
}
