/**
 * The popup's half of the protocol (client/src/pages/connect/useConnectRequest.ts, and acceptRequest in
 * packages/sdk/src/connect.ts): one request accepted, one final answer given, both with the window that opened it.
 */
module ConnectPopup {
  import opened Primitives
  import opened Text
  import opened ConnectSite

  const MAX_ID: nat := 64
  const MAX_AMOUNT: nat := 0x1_0000_0000_0000_0000_0000_0000_0000_0000

  /** What a request message carries; `toOk` and `accountOk` say that those fields are addresses. */
  datatype Params = Params(nonce: Option<string>, payee: Option<string>, toOk: bool, amount: Option<string>,
                           account: Option<string>, accountOk: bool)

  datatype Data = Data(isEnvelope: bool, kind: string, id: Option<string>, method_: string, params: Option<Params>)

  datatype Request =
    | SignIn(id: string, nonce: string)
    | Pay(id: string, payee: string, amount: nat, account: Option<string>)

  /** A whole number of base units, as text: no sign, no leading zero, at most 39 digits. */
  predicate IsAmount(s: string) {
    1 <= |s| <= 39 && '1' <= s[0] <= '9' && forall i :: 0 <= i < |s| ==> '0' <= s[i] <= '9'
  }

  function ParseRequest(data: Data): (r: Option<Request>)
    ensures r.Some? ==> data.id == Some(r.value.id)
  {
    if data.id.None? || |data.id.value| == 0 || |data.id.value| > MAX_ID || data.params.None? then None
    else
      var p := data.params.value;
      if data.method_ == "signIn" then
        if p.nonce.Some? && IsHex(p.nonce.value) && |p.nonce.value| == 66 then Some(SignIn(data.id.value, p.nonce.value)) else None
      else if data.method_ == "pay" then
        if p.payee.None? || !p.toOk || p.amount.None? || !IsAmount(p.amount.value) then None
        else if p.account.Some? && !p.accountOk then None
        else if DecimalValue(p.amount.value) >= MAX_AMOUNT then None
        else Some(Pay(data.id.value, p.payee.value, DecimalValue(p.amount.value), p.account))
      else None
  }

  /** What the site's `pay` posts. */
  function PayData(id: string, payee: string, amount: nat, account: Option<string>): Data {
    Data(true, "request", Some(id), "pay", Some(Params(None, Some(payee), true, Some(Decimal(amount)), account, true)))
  }

  lemma AmountText(amount: nat)
    ensures DecimalValue(Decimal(amount)) == amount
    ensures IsAmount(Decimal(amount)) && amount < MAX_AMOUNT <==> 0 < amount < MAX_AMOUNT
  {
    DecimalRoundTrip(amount);
    if 0 < amount < MAX_AMOUNT {
      DigitsAreEnough();
      DecimalLength(amount, 39);
    }
  }

  /** The popup understands a site's payment request, amount and all, exactly when the amount is positive and fits 128 bits. */
  lemma PaymentsAreUnderstood(id: string, payee: string, amount: nat, account: Option<string>)
    requires 1 <= |id| <= MAX_ID
    ensures ParseRequest(PayData(id, payee, amount, account))
            == if 0 < amount < MAX_AMOUNT then Some(Pay(id, payee, amount, account)) else None
  {
    AmountText(amount);
    var data := PayData(id, payee, amount, account);
    assert data.method_[0] != "signIn"[0];
  }

  datatype Verdict =
    | Ignore
    | Reject(origin: string, id: string, code: Code)
    | Accept(origin: string, request: Request)

  /** The popup's gate; `allowed` says that the origin is https, or http on this computer. */
  function AcceptRequest(fromOpener: bool, origin: string, allowed: bool, data: Data, handled: bool): Verdict {
    var id := if data.id.Some? then data.id.value else "";
    if !fromOpener || !data.isEnvelope || data.kind != "request" then Ignore
    else if !allowed then Reject(origin, id, Code.Origin)
    else if handled then Reject(origin, id, Busy)
    else
      var request := ParseRequest(data);
      if request.Some? then Accept(origin, request.value) else Reject(origin, id, Code.Request)
  }

  /** The site and the request being served. */
  datatype Handling = Handling(origin: string, request: Request)

  /** A message posted to the opener; `reply` when the page itself answered, not the gate. */
  datatype Posted = Posted(origin: string, message: Message, reply: bool)

  datatype Popup = Popup(handled: Option<Handling>, answered: bool, outbox: seq<Posted>)

  datatype PopupEvent =
    | Incoming(fromOpener: bool, origin: string, allowed: bool, data: Data)
    | ReplySending(account: string, nonce: u64)
    | ReplyProgress(hash: string)
    | ReplyResult(hash: string)
    | ReplyError(code: Code)

  predicate CanHappen(p: Popup, e: PopupEvent) {
    e.Incoming? || p.handled.Some?
  }

  function ReplyOf(id: string, e: PopupEvent): Message
    requires !e.Incoming?
  {
    match e
    case ReplySending(account, nonce) => Message.Sending(id, account, true, Decimal(nonce))
    case ReplyProgress(hash) => Submitted(id, hash)
    case ReplyResult(hash) => Message.Result(id, hash)
    case ReplyError(code) => Error(id, code)
  }

  predicate IsFinal(m: Message) {
    m.Result? || m.Error?
  }

  /** `post`: nothing after the final answer, and only to the site that asked. */
  function Reply(p: Popup, e: PopupEvent): Popup
    requires !e.Incoming? && p.handled.Some?
  {
    var m := ReplyOf(p.handled.value.request.id, e);
    if p.answered then p
    else p.(answered := IsFinal(m), outbox := p.outbox + [Posted(p.handled.value.origin, m, true)])
  }

  function Hear(p: Popup, e: PopupEvent): Popup
    requires e.Incoming?
  {
    match AcceptRequest(e.fromOpener, e.origin, e.allowed, e.data, p.handled.Some?)
    case Ignore => p
    case Reject(origin, id, code) => p.(outbox := p.outbox + [Posted(origin, Error(id, code), false)])
    case Accept(origin, request) => p.(handled := Some(Handling(origin, request)), answered := false)
  }

  function PopupStep(p: Popup, e: PopupEvent): Popup
    requires CanHappen(p, e)
  {
    if e.Incoming? then Hear(p, e) else Reply(p, e)
  }

  ghost predicate PopupHappensAt(states: seq<Popup>, events: seq<PopupEvent>, i: nat)
    requires i < |events| && |states| == |events| + 1
  {
    CanHappen(states[i], events[i]) && states[i + 1] == PopupStep(states[i], events[i])
  }

  ghost predicate IsPopupHistory(states: seq<Popup>, events: seq<PopupEvent>) {
    && |states| == |events| + 1 && states[0] == Popup(None, false, [])
    && forall i :: 0 <= i < |events| ==> PopupHappensAt(states, events, i)
  }

  /** The page's own answers, in order. */
  function Replies(outbox: seq<Posted>): seq<Posted> {
    if outbox == [] then []
    else
      var last := outbox[|outbox| - 1];
      if last.reply then Replies(outbox[..|outbox| - 1]) + [last] else Replies(outbox[..|outbox| - 1])
  }

  lemma RepliesOneMore(outbox: seq<Posted>, more: Posted)
    ensures Replies(outbox + [more]) == if more.reply then Replies(outbox) + [more] else Replies(outbox)
  {
    assert (outbox + [more])[..|outbox|] == outbox;
  }

  /** The page answers only the site and request it accepted, with at most one final message, after which nothing follows. */
  ghost predicate AnswersOnce(p: Popup) {
    var replies := Replies(p.outbox);
    && (replies != [] ==> p.handled.Some?)
    && (forall i :: 0 <= i < |replies| ==>
          && replies[i].origin == p.handled.value.origin && !replies[i].message.Ready?
          && replies[i].message.id == p.handled.value.request.id)
    && (forall i :: 0 <= i < |replies| - 1 ==> !IsFinal(replies[i].message))
    && (p.answered <==> replies != [] && IsFinal(replies[|replies| - 1].message))
  }

  lemma ReplyKeepsOnce(p: Popup, e: PopupEvent)
    requires !e.Incoming? && p.handled.Some? && AnswersOnce(p)
    ensures AnswersOnce(Reply(p, e))
  {
    if !p.answered {
      RepliesOneMore(p.outbox, Posted(p.handled.value.origin, ReplyOf(p.handled.value.request.id, e), true));
    }
  }

  lemma HearKeepsOnce(p: Popup, e: PopupEvent)
    requires e.Incoming? && AnswersOnce(p)
    ensures AnswersOnce(Hear(p, e))
  {
    var t := Hear(p, e);
    if t.outbox != p.outbox {
      RepliesOneMore(p.outbox, t.outbox[|p.outbox|]);
    }
    assert Replies(t.outbox) == Replies(p.outbox);
  }

  lemma {:induction false} PopupAnswersOnce(states: seq<Popup>, events: seq<PopupEvent>, n: nat)
    requires IsPopupHistory(states, events) && n < |states|
    ensures AnswersOnce(states[n])
  {
    if n > 0 {
      PopupAnswersOnce(states, events, n - 1);
      assert PopupHappensAt(states, events, n - 1);
      if events[n - 1].Incoming? {
        HearKeepsOnce(states[n - 1], events[n - 1]);
      } else {
        ReplyKeepsOnce(states[n - 1], events[n - 1]);
      }
    }
  }

  /** The popup takes one request for good: every later one is turned away. */
  lemma {:induction false} PopupAcceptsOnce(states: seq<Popup>, events: seq<PopupEvent>, n: nat, m: nat)
    requires IsPopupHistory(states, events) && n <= m < |states| && states[n].handled.Some?
    ensures states[m].handled == states[n].handled
    ensures Replies(states[n].outbox) <= Replies(states[m].outbox)
  {
    if n < m {
      PopupAcceptsOnce(states, events, n, m - 1);
      assert PopupHappensAt(states, events, m - 1);
      var p, t := states[m - 1], states[m];
      if t.outbox != p.outbox {
        RepliesOneMore(p.outbox, t.outbox[|p.outbox|]);
        assert t.outbox == p.outbox + [t.outbox[|p.outbox|]];
      }
    }
  }

  /** Until its final answer, each thing the page says goes to the site it serves, about its request, as it said it. */
  lemma RepliesSayWhatThePageSaid(states: seq<Popup>, events: seq<PopupEvent>, n: nat)
    requires IsPopupHistory(states, events) && n < |events| && !events[n].Incoming?
    ensures states[n].handled.Some?
    ensures var origin, id, before := states[n].handled.value.origin, states[n].handled.value.request.id, states[n].outbox;
            var said := match events[n]
              case ReplySending(account, nonce) => Message.Sending(id, account, true, Decimal(nonce))
              case ReplyProgress(hash) => Submitted(id, hash)
              case ReplyResult(hash) => Message.Result(id, hash)
              case ReplyError(code) => Error(id, code)
              case _ => Ready;
            states[n + 1].outbox
            == if exists k :: 0 <= k < |before| && before[k].reply && IsFinal(before[k].message) then before
               else before + [Posted(origin, said, true)]
  {
    PopupAnswersOnce(states, events, n);
    assert PopupHappensAt(states, events, n);
    FinalReplies(states[n]);
  }

  lemma FinalReplies(p: Popup)
    requires AnswersOnce(p)
    ensures p.answered <==> exists k :: 0 <= k < |p.outbox| && p.outbox[k].reply && IsFinal(p.outbox[k].message)
  {
    RepliesAreThose(p.outbox);
    var replies := Replies(p.outbox);
    if p.answered {
      assert replies[|replies| - 1] in replies;
    }
    if k :| 0 <= k < |p.outbox| && p.outbox[k].reply && IsFinal(p.outbox[k].message) {
      assert p.outbox[k] in replies;
      var i :| 0 <= i < |replies| && replies[i] == p.outbox[k];
      assert i == |replies| - 1;
    }
  }

  lemma {:induction false} RepliesAreThose(outbox: seq<Posted>)
    ensures forall post :: post in Replies(outbox) <==> post.reply && post in outbox
  {
    if outbox != [] {
      RepliesAreThose(outbox[..|outbox| - 1]);
      assert outbox == outbox[..|outbox| - 1] + [outbox[|outbox| - 1]];
    }
  }

  // ---------------------------------------------------------------------------------------------------------------
  // Whom the gate lets in, and what it can be asked.

  /** A message the popup listens to: from its opener, in this protocol, a request. */
  predicate IsHeardBy(e: PopupEvent)
    requires e.Incoming?
  {
    e.fromOpener && e.data.isEnvelope && e.data.kind == "request"
  }

  /** An amount is written in one way only. */
  lemma AmountReads(s: string, amount: nat)
    ensures IsAmount(s) && DecimalValue(s) == amount && amount < MAX_AMOUNT <==> s == Decimal(amount) && 0 < amount < MAX_AMOUNT
  {
    AmountText(amount);
    if IsAmount(s) {
      DecimalIsItsText(s);
    }
  }

  /** What a site may ask a popup, by the message it sends. */
  predicate Asks(data: Data, request: Request) {
    && data.id == Some(request.id) && 1 <= |request.id| <= 64
    && data.params.Some?
    && var p := data.params.value;
       match request
       case SignIn(_, nonce) => data.method_ == "signIn" && p.nonce == Some(nonce) && IsHex(nonce) && |nonce| == 66
       case Pay(_, payee, amount, account) =>
         && data.method_ == "pay" && p.payee == Some(payee) && p.toOk
         && p.amount == Some(Decimal(amount)) && 0 < amount < 340282366920938463463374607431768211456
         && p.account == account && (account.Some? ==> p.accountOk)
  }

  /** The popup reads a message as a request exactly when it asks for just that: amounts have one text, and stay below 2^128. */
  lemma ParsesWhatIsAsked(data: Data, request: Request)
    ensures ParseRequest(data) == Some(request) <==> Asks(data, request)
  {
    assert "signIn"[0] != "pay"[0];
    if request.Pay? && data.params.Some? && data.params.value.amount.Some? {
      AmountReads(data.params.value.amount.value, request.amount);
    }
    hide IsAmount, IsHex;
  }

  /**
   * The gate's verdict on any message: ignored when it does not listen to it; otherwise refused for the sender's origin, then
   * because it is serving a request, then as malformed; otherwise accepted, with the sender's origin and what it asked.
   */
  lemma VerdictIsExact(e: PopupEvent, handled: bool)
    requires e.Incoming?
    ensures var verdict := AcceptRequest(e.fromOpener, e.origin, e.allowed, e.data, handled);
            var id := if e.data.id.Some? then e.data.id.value else "";
            && (verdict == Ignore <==> !IsHeardBy(e))
            && (verdict == Reject(e.origin, id, Code.Origin) <==> IsHeardBy(e) && !e.allowed)
            && (verdict == Reject(e.origin, id, Busy) <==> IsHeardBy(e) && e.allowed && handled)
            && (verdict == Reject(e.origin, id, Code.Request) <==>
                  IsHeardBy(e) && e.allowed && !handled && forall request :: !Asks(e.data, request))
            && (forall request :: verdict == Accept(e.origin, request) <==>
                  IsHeardBy(e) && e.allowed && !handled && Asks(e.data, request))
  {
    forall request ensures ParseRequest(e.data) == Some(request) <==> Asks(e.data, request) {
      ParsesWhatIsAsked(e.data, request);
    }
    hide ParseRequest, Asks;
    if ParseRequest(e.data).Some? {
      assert Asks(e.data, ParseRequest(e.data).value);
    }
  }

  /** The opener asks for this from an allowed origin. */
  predicate AskedBy(e: PopupEvent, handling: Handling) {
    e.Incoming? && IsHeardBy(e) && e.allowed && e.origin == handling.origin && Asks(e.data, handling.request)
  }

  lemma ServedNext(p: Popup, e: PopupEvent)
    requires e.Incoming?
    ensures p.handled.Some? ==> Hear(p, e).handled == p.handled
    ensures p.handled.None? ==> forall h :: Hear(p, e).handled == Some(h) <==> AskedBy(e, h)
  {
    VerdictIsExact(e, p.handled.Some?);
    hide AcceptRequest, Asks, IsHeardBy;
    if p.handled.None? {
      forall h: Handling
        ensures Hear(p, e).handled == Some(h) <==>
                AcceptRequest(e.fromOpener, e.origin, e.allowed, e.data, false) == Accept(h.origin, h.request)
      {
      }
      var verdict := AcceptRequest(e.fromOpener, e.origin, e.allowed, e.data, false);
      assert verdict.Accept? ==> verdict.origin == e.origin by {
        AcceptsFromOrigin(e);
      }
    }
  }

  lemma AcceptsFromOrigin(e: PopupEvent)
    requires e.Incoming?
    ensures var verdict := AcceptRequest(e.fromOpener, e.origin, e.allowed, e.data, false);
            verdict.Accept? ==> verdict.origin == e.origin
  {
  }

  /** What the popup serves is the first thing that its opener asked of it from an allowed origin, and it serves nothing before. */
  lemma {:induction false} ServesTheFirstAsked(states: seq<Popup>, events: seq<PopupEvent>, n: nat)
    requires IsPopupHistory(states, events) && n < |states|
    ensures states[n].handled.Some? ==>
              exists k :: 0 <= k < n && AskedBy(events[k], states[n].handled.value) && forall j, h :: 0 <= j < k ==> !AskedBy(events[j], h)
    ensures states[n].handled.None? ==> forall j, h :: 0 <= j < n ==> !AskedBy(events[j], h)
  {
    if n > 0 {
      ServesTheFirstAsked(states, events, n - 1);
      assert PopupHappensAt(states, events, n - 1);
      var p, e := states[n - 1], events[n - 1];
      if e.Incoming? {
        ServedNext(p, e);
      }
      assert !e.Incoming? ==> forall h :: !AskedBy(e, h);
      hide Hear, AskedBy;
    }
  }

  /** The hook as it runs: two flags, and what it posted. */
  class ConnectRequestHook {
    var handled: bool
    var answered: bool
    var accepted: Option<Handling>
    ghost var outbox: seq<Posted>

    ghost function Abs(): Popup
      reads this
    {
      Popup(accepted, answered, outbox)
    }

    ghost predicate Valid()
      reads this
    {
      handled == accepted.Some?
    }

    constructor ()
      ensures Valid() && Abs() == Popup(None, false, [])
    {
      handled, answered, accepted, outbox := false, false, None, [];
    }

    method OnMessage(fromOpener: bool, origin: string, allowed: bool, data: Data)
      requires Valid()
      modifies this
      ensures Valid() && Abs() == PopupStep(old(Abs()), Incoming(fromOpener, origin, allowed, data))
    {
      var verdict := AcceptRequest(fromOpener, origin, allowed, data, handled);
      if verdict.Ignore? { return; }
      if verdict.Reject? {
        outbox := outbox + [Posted(verdict.origin, Error(verdict.id, verdict.code), false)];
        return;
      }
      handled := true;
      accepted := Some(Handling(verdict.origin, verdict.request));
      answered := false;
    }

    method Post(e: PopupEvent)
      requires Valid() && !e.Incoming? && accepted.Some?
      modifies this`answered, this`outbox
      ensures Valid() && Abs() == PopupStep(old(Abs()), e)
    {
      if answered { return; }
      var message := ReplyOf(accepted.value.request.id, e);
      if IsFinal(message) {
        answered := true;
      }
      outbox := outbox + [Posted(accepted.value.origin, message, true)];
    }
  }
}
