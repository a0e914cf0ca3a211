/** A payment from the click to the site's server (packages/sdk/src/session.ts): what the session makes of the answer. */
module ConnectSession {
  import opened Primitives
  import opened Text
  import opened ConnectSite
  import opened ConnectPopup

  // ---------------------------------------------------------------------------------------------------------------
  // What the session makes of the answer.

  /** How the server is told which payment to look for. */
  datatype SentPayment = ByHash(hash: string) | ByNonce(nonce: nat)

  /** What the site's own server answers when asked to accept a payment. */
  datatype ServerAnswer = Confirmed | Unauthorized | Refused | NoAnswer

  datatype SessionCode = FromConnect(code: Code) | Server | Network | SignedOut | BusyPaying

  datatype Outcome = Receipt(payment: SentPayment) | Nothing | Threw(code: SessionCode, kept: Option<SentPayment>)

  /** The payment the server is asked about. */
  function ToConfirm(answer: Answer): Option<SentPayment> {
    match answer
    case Resolved(hash) => Some(ByHash(hash))
    case Rejected(_, sent, pending) =>
      if sent.Some? then Some(ByHash(sent.value))
      else if pending.Some? then Some(ByNonce(pending.value.nonce))
      else None
  }

  predicate Quiet(code: Code) {
    code == Cancelled || code == Closed
  }

  function FinishPayment(answer: Answer, server: ServerAnswer): Outcome {
    var payment := ToConfirm(answer);
    if payment.None? then
      if Quiet(answer.code) then Nothing else Threw(FromConnect(answer.code), None)
    else
      match server
      case Confirmed => Receipt(payment.value)
      case Unauthorized => Threw(SignedOut, payment)
      case Refused => Threw(Server, payment)
      case NoAnswer => Threw(Network, payment)
  }

  /** The payment the popup is known to have sent or to have been sending, when a request ends as `answer` after these messages. */
  ghost function Known(answer: Answer, messages: seq<Message>): Option<SentPayment> {
    if answer.Resolved? then Some(ByHash(answer.hash))
    else if LastHash(messages).Some? then Some(ByHash(LastHash(messages).value))
    else if (answer.code == Closed || answer.code == Relay) && LastSending(messages).Some? then
      Some(ByNonce(LastSending(messages).value.nonce))
    else None
  }

  /**
   * For every order of events: `pay` resolves to nothing exactly when the player cancelled and no hash was reported, or the
   * window closed and neither a hash nor a payment on its way was.
   */
  lemma NothingMeansNothingReported(id: string, states: seq<Site>, events: seq<Event>, n: nat, server: ServerAnswer)
    requires IsHistory(id, states, events) && n < |states| && states[n].answer.Some?
    ensures var answer, heard := states[n].answer.value, Heard(id, events, n);
            FinishPayment(answer, server) == Nothing <==>
            && answer.Rejected? && LastHash(heard).None?
            && (answer.code == Cancelled || (answer.code == Closed && LastSending(heard).None?))
  {
    FailuresCarryTheReport(id, states, events, n);
  }

  /** A payment known to have been sent, or to have been on its way, is accepted by the server or kept in the error. */
  lemma KnownPaymentsAreKept(id: string, states: seq<Site>, events: seq<Event>, n: nat, server: ServerAnswer)
    requires IsHistory(id, states, events) && n < |states| && states[n].answer.Some?
    requires Known(states[n].answer.value, Heard(id, events, n)).Some?
    ensures var payment := Known(states[n].answer.value, Heard(id, events, n)).value;
            var outcome := FinishPayment(states[n].answer.value, server);
            if server.Confirmed? then outcome == Receipt(payment) else outcome.Threw? && outcome.kept == Some(payment)
  {
    FailuresCarryTheReport(id, states, events, n);
  }

  /** Every error says why: the popup's own code where nothing is known to be sent, otherwise what the site's server answered. */
  lemma ErrorsSayWhy(id: string, states: seq<Site>, events: seq<Event>, n: nat, server: ServerAnswer)
    requires IsHistory(id, states, events) && n < |states| && states[n].answer.Some?
    ensures var answer := states[n].answer.value;
            var payment := Known(answer, Heard(id, events, n));
            var outcome := FinishPayment(answer, server);
            && (payment.None? && answer.code != Cancelled && answer.code != Closed ==> outcome == Threw(FromConnect(answer.code), None))
            && (payment.Some? && server.Unauthorized? ==> outcome == Threw(SignedOut, payment))
            && (payment.Some? && server.Refused? ==> outcome == Threw(Server, payment))
            && (payment.Some? && server.NoAnswer? ==> outcome == Threw(Network, payment))
  {
    FailuresCarryTheReport(id, states, events, n);
  }

  /** The popup's report of a payment on its way reaches the site with its number intact. */
  lemma NonceSurvives(id: string, account: string, nonce: u64)
    ensures LastSending([ReplyOf(id, ReplySending(account, nonce))]) == Some(PendingPayment(account, nonce))
  {
    DecimalRoundTrip(nonce);
    DigitsAreEnough();
    DecimalLength(nonce, 20);
  }

  datatype Status = Loading | SignedOutOf | SigningIn | SignedIn

  class VeraKeySession {
    var status: Status
    var player: Option<string>
    var paying: bool
    var connected: bool
    var merchant: Option<string>

    /** A payment starts only for a signed-in player, one at a time, at a site that takes payments. */
    method StartPayment() returns (refusal: Option<SessionCode>)
      modifies this`paying
      ensures refusal.None? <==>
              old(status).SignedIn? && old(player).Some? && !old(paying) && connected && merchant.Some?
      ensures paying == (old(paying) || refusal.None?)
      ensures refusal == Some(SignedOut) <==> !(old(status).SignedIn? && old(player).Some?)
      ensures refusal == Some(BusyPaying) <==> old(status).SignedIn? && old(player).Some? && old(paying)
      ensures refusal == Some(Server) <==>
                old(status).SignedIn? && old(player).Some? && !old(paying) && !(connected && merchant.Some?)
    {
      if !status.SignedIn? || player.None? { return Some(SignedOut); }
      if paying { return Some(BusyPaying); }
      if !connected || merchant.None? { return Some(Server); }
      paying := true;
      return None;
    }

    /** The answer came, and the server's if it was asked: however it ends, the next payment may start. */
    method EndPayment(answer: Answer, server: ServerAnswer) returns (outcome: Outcome)
      requires paying
      modifies this`paying, this`status, this`player
      ensures outcome == FinishPayment(answer, server) && !paying
      ensures if ToConfirm(answer).Some? && server.Unauthorized? then status == SignedOutOf && player == None
              else status == old(status) && player == old(player)
    {
      var sent: SentPayment;
      if answer.Resolved? {
        sent := ByHash(answer.hash);
      } else if answer.sent.Some? {
        sent := ByHash(answer.sent.value);
      } else if answer.pending.Some? {
        sent := ByNonce(answer.pending.value.nonce);
      } else {
        paying := false;
        return if Quiet(answer.code) then Nothing else Threw(FromConnect(answer.code), None);
      }
      outcome := ConfirmPayment(sent, server);
      paying := false;
    }

    method ConfirmPayment(sent: SentPayment, server: ServerAnswer) returns (outcome: Outcome)
      modifies this`status, this`player
      ensures outcome == match server
                         case Confirmed => Receipt(sent)
                         case Unauthorized => Threw(SignedOut, Some(sent))
                         case Refused => Threw(Server, Some(sent))
                         case NoAnswer => Threw(Network, Some(sent))
      ensures if server.Unauthorized? then status == SignedOutOf && player == None
              else status == old(status) && player == old(player)
    {
      if server.Confirmed? { return Receipt(sent); }
      if server.Unauthorized? {
        status := SignedOutOf;
        player := None;
        return Threw(SignedOut, Some(sent));
      }
      return Threw(if server.Refused? then Server else Network, Some(sent));
    }
  }

  // ---------------------------------------------------------------------------------------------------------------
  // One request at a time.

  /** A connection and every request it was asked for; `pending` is its only guard. */
  datatype Connection = Connection(pending: bool, sites: map<nat, Site>)

  datatype ConnectionEvent =
    | Open(key: nat, id: string, popupOk: bool)
    | Within(key: nat, event: Event)

  predicate CanOccur(c: Connection, e: ConnectionEvent) {
    match e
    case Open(key, _, _) => key !in c.sites
    case Within(key, event) => key in c.sites && Enabled(c.sites[key], event)
  }

  function ConnectionStep(c: Connection, e: ConnectionEvent): Connection
    requires CanOccur(c, e)
  {
    match e
    case Open(key, id, popupOk) =>
      if c.pending || !popupOk then c else Connection(true, c.sites[key := Opened(id)])
    case Within(key, event) =>
      var t := Step(c.sites[key], event);
      Connection(c.pending && !(c.sites[key].answer.None? && t.answer.Some?), c.sites[key := t])
  }

  /** A request is opened exactly when none is open and the browser lets the window open; otherwise nothing changes. */
  lemma OpensWhenFree(c: Connection, key: nat, id: string, popupOk: bool)
    requires CanOccur(c, Open(key, id, popupOk)) && OneOpen(c)
    ensures var t := ConnectionStep(c, Open(key, id, popupOk));
            if popupOk && forall k <- c.sites :: c.sites[k].answer.Some? then t == Connection(true, c.sites[key := Opened(id)])
            else t == c
  {
  }

  /** The connection is busy exactly while some request is open, and no two are. */
  ghost predicate OneOpen(c: Connection) {
    && (c.pending <==> exists k :: k in c.sites && c.sites[k].answer.None?)
    && (forall j, k :: j in c.sites && k in c.sites && c.sites[j].answer.None? && c.sites[k].answer.None? ==> j == k)
  }

  lemma OneOpenStep(c: Connection, e: ConnectionEvent)
    requires CanOccur(c, e) && OneOpen(c)
    ensures OneOpen(ConnectionStep(c, e))
  {
    var t := ConnectionStep(c, e);
    if t.pending {
      if c.pending {
        var k :| k in c.sites && c.sites[k].answer.None?;
        assert k in t.sites && t.sites[k].answer.None?;
      } else {
        assert t.sites[e.key].answer.None?;
      }
    }
  }

  ghost predicate OccursAt(states: seq<Connection>, events: seq<ConnectionEvent>, i: nat)
    requires i < |events| && |states| == |events| + 1
  {
    CanOccur(states[i], events[i]) && states[i + 1] == ConnectionStep(states[i], events[i])
  }

  /** However requests overlap with the callbacks of earlier ones, a connection never has two of them open. */
  lemma {:induction false} OneRequestAtATime(states: seq<Connection>, events: seq<ConnectionEvent>, n: nat)
    requires |states| == |events| + 1 && states[0] == Connection(false, map[]) && n < |states|
    requires forall i :: 0 <= i < |events| ==> OccursAt(states, events, i)
    ensures OneOpen(states[n])
  {
    if n > 0 {
      OneRequestAtATime(states, events, n - 1);
      assert OccursAt(states, events, n - 1);
      OneOpenStep(states[n - 1], events[n - 1]);
    }
  }
}
