/**
 * The site's side of "Sign in with VeraKey" (packages/sdk/src/connect.ts): one request, driven by the popup's messages, two
 * timers and the promise of what the request will carry.
 */
module ConnectSite {
  import opened Primitives
  import opened Text

  datatype Code =
    | Blocked | Unavailable | Closed | Busy | Origin | Request | Cancelled | Funds | Policy | Device | Proof | Relay

  predicate IsHexDigit(c: char) {
    '0' <= c <= '9' || 'a' <= c <= 'f' || 'A' <= c <= 'F'
  }

  predicate IsHex(s: string) {
    |s| >= 2 && s[0] == '0' && s[1] == 'x' && forall i :: 2 <= i < |s| ==> IsHexDigit(s[i])
  }

  /** A nonce as the popup reports it: up to 78 decimal digits. */
  predicate IsNonce(s: string) {
    1 <= |s| <= 78 && forall i :: 0 <= i < |s| ==> '0' <= s[i] <= '9'
  }

  /** A message from the popup; `accountOk` says that the account is an address. */
  datatype Message =
    | Ready
    | Sending(id: string, account: string, accountOk: bool, nonce: string)
    | Submitted(id: string, hash: string)
    | Result(id: string, hash: string)
    | Error(id: string, code: Code)

  /** What identifies a payment on its way: who pays, and the nonce it will use. */
  datatype PendingPayment = PendingPayment(account: string, nonce: nat)

  datatype Answer =
    | Resolved(hash: string)
    | Rejected(code: Code, sent: Option<string>, pending: Option<PendingPayment>)

  /** What the request carries, from the site's own callback. */
  datatype Values = Waiting | Fetched | Failed

  /** One request. `postDue` and `failDue` are the two callbacks on its values; `posts` and `closes` what was done to the popup. */
  datatype Site = Site(
    id: string,
    ready: bool,
    answer: Option<Answer>,
    sent: Option<string>,
    sending: Option<PendingPayment>,
    values: Values,
    postDue: bool,
    failDue: bool,
    posts: nat,
    closes: nat)

  function Opened(id: string): Site {
    Site(id, false, None, None, None, Waiting, false, true, 0, 0)
  }

  /** `genuine`: from VeraKey's origin, from this popup, in this protocol. */
  datatype Event =
    | FromPopup(genuine: bool, message: Message)
    | ValuesFetched
    | ValuesFailed
    | PostCallback
    | FailCallback
    | ReadyTimeout
    | ClosedPoll(closed: bool)

  /** Messages and timers reach the request only while it is open; the callbacks run once their promise has settled. */
  predicate Enabled(s: Site, e: Event) {
    match e
    case FromPopup(_, _) => s.answer.None?
    case ReadyTimeout => s.answer.None?
    case ClosedPoll(_) => s.answer.None?
    case ValuesFetched => s.values.Waiting?
    case ValuesFailed => s.values.Waiting?
    case PostCallback => s.values.Fetched? && s.postDue
    case FailCallback => s.values.Failed? && s.failDue
  }

  function Settle(s: Site, answer: Answer): Site {
    if s.answer.Some? then s else s.(answer := Some(answer))
  }

  /** A failure carries the hash the popup reported or, when the payment may still land, what is needed to find it. */
  function Fail(s: Site, code: Code): Site {
    Settle(s, Rejected(code, s.sent, if s.sent.Some? || (code != Closed && code != Relay) then None else s.sending))
  }

  function Receive(s: Site, message: Message): Site {
    if message.Ready? then
      if s.ready then s else s.(ready := true, postDue := true)
    else if message.id != s.id then s
    else
      match message
      case Submitted(_, hash) => if IsHex(hash) then s.(sent := Some(hash)) else s
      case Sending(_, account, accountOk, nonce) =>
        if accountOk && IsNonce(nonce) then s.(sending := Some(PendingPayment(account, DecimalValue(nonce)))) else s
      case Result(_, hash) => Settle(s, Resolved(hash))
      case Error(_, code) => Fail(s, code)
  }

  function Step(s: Site, e: Event): Site
    requires Enabled(s, e)
  {
    match e
    case FromPopup(genuine, message) => if genuine then Receive(s, message) else s
    case ValuesFetched => s.(values := Fetched)
    case ValuesFailed => s.(values := Failed)
    case PostCallback => s.(postDue := false, posts := s.posts + (if s.answer.None? then 1 else 0))
    case FailCallback =>
      if s.answer.Some? then s.(failDue := false) else Fail(s, Request).(failDue := false, closes := s.closes + 1)
    case ReadyTimeout => if s.ready then s else Fail(s, Unavailable)
    case ClosedPoll(closed) => if !closed then s else if s.ready then Fail(s, Closed) else Fail(s, Unavailable)
  }

  // ---------------------------------------------------------------------------------------------------------------
  // Every order of events.

  ghost predicate HappensAt(states: seq<Site>, events: seq<Event>, i: nat)
    requires i < |events| && |states| == |events| + 1
  {
    Enabled(states[i], events[i]) && states[i + 1] == Step(states[i], events[i])
  }

  ghost predicate IsHistory(id: string, states: seq<Site>, events: seq<Event>) {
    && |states| == |events| + 1 && states[0] == Opened(id)
    && forall i :: 0 <= i < |events| ==> HappensAt(states, events, i)
  }

  /** The popup's own messages for request `id`, in order, among the first `n` events. */
  function Heard(id: string, events: seq<Event>, n: nat): seq<Message>
    requires n <= |events|
  {
    if n == 0 then []
    else if IsHeard(id, events[n - 1]) then Heard(id, events, n - 1) + [events[n - 1].message]
    else Heard(id, events, n - 1)
  }

  /** The last hash reported among these messages. */
  function LastHash(messages: seq<Message>): Option<string> {
    if messages == [] then None
    else
      var m := messages[|messages| - 1];
      if m.Submitted? && IsHex(m.hash) then Some(m.hash) else LastHash(messages[..|messages| - 1])
  }

  /** The last payment reported as being sent among these messages. */
  function LastSending(messages: seq<Message>): Option<PendingPayment> {
    if messages == [] then None
    else
      var m := messages[|messages| - 1];
      if m.Sending? && m.accountOk && IsNonce(m.nonce) then Some(PendingPayment(m.account, DecimalValue(m.nonce)))
      else LastSending(messages[..|messages| - 1])
  }

  /** A failure says all the popup reported. */
  ghost predicate Carries(answer: Answer, messages: seq<Message>) {
    answer.Rejected? ==>
      && answer.sent == LastHash(messages)
      && answer.pending == if LastHash(messages).None? && (answer.code == Closed || answer.code == Relay) then LastSending(messages) else None
  }

  ghost predicate Remembers(s: Site, id: string, messages: seq<Message>) {
    && s.id == id
    && s.sent == LastHash(messages)
    && s.sending == LastSending(messages)
    && (s.answer.Some? ==> Carries(s.answer.value, messages))
  }

  lemma HeardOneMore(messages: seq<Message>, m: Message)
    ensures LastHash(messages + [m]) == if m.Submitted? && IsHex(m.hash) then Some(m.hash) else LastHash(messages)
    ensures LastSending(messages + [m])
            == if m.Sending? && m.accountOk && IsNonce(m.nonce) then Some(PendingPayment(m.account, DecimalValue(m.nonce)))
               else LastSending(messages)
  {
    assert (messages + [m])[..|messages|] == messages;
  }

  predicate IsHeard(id: string, e: Event) {
    e.FromPopup? && e.genuine && !e.message.Ready? && e.message.id == id
  }

  lemma HeardStep(s: Site, message: Message, messages: seq<Message>)
    requires s.answer.None? && Remembers(s, s.id, messages) && !message.Ready? && message.id == s.id
    ensures Remembers(Receive(s, message), s.id, messages + [message])
  {
    HeardOneMore(messages, message);
  }

  lemma OtherStep(s: Site, e: Event, messages: seq<Message>)
    requires Enabled(s, e) && Remembers(s, s.id, messages) && !IsHeard(s.id, e)
    ensures Remembers(Step(s, e), s.id, messages)
  {
  }

  /** For every order of events: a request remembers what the popup reported, and its failure carries it. */
  lemma {:induction false} FailuresCarryTheReport(id: string, states: seq<Site>, events: seq<Event>, n: nat)
    requires IsHistory(id, states, events) && n < |states|
    ensures Remembers(states[n], id, Heard(id, events, n))
  {
    if n > 0 {
      FailuresCarryTheReport(id, states, events, n - 1);
      assert HappensAt(states, events, n - 1);
      if IsHeard(id, events[n - 1]) {
        HeardStep(states[n - 1], events[n - 1].message, Heard(id, events, n - 1));
      } else {
        OtherStep(states[n - 1], events[n - 1], Heard(id, events, n - 1));
      }
    }
  }

  /** The popup has announced itself among the first `n` events. */
  ghost predicate HeardReady(events: seq<Event>, n: nat)
    requires n <= |events|
  {
    exists k :: 0 <= k < n && events[k].FromPopup? && events[k].genuine && events[k].message.Ready?
  }

  lemma {:induction false} ReadyIsHeard(id: string, states: seq<Site>, events: seq<Event>, n: nat)
    requires IsHistory(id, states, events) && n < |states|
    ensures states[n].ready <==> HeardReady(events, n)
  {
    if n > 0 {
      ReadyIsHeard(id, states, events, n - 1);
      assert HappensAt(states, events, n - 1);
      if HeardReady(events, n) && !HeardReady(events, n - 1) {
        assert events[n - 1].FromPopup?;
      }
    }
  }

  /** A window that closes, or stays silent, is blamed on the page's opener policy exactly when the popup never announced itself. */
  lemma SilenceIsUnavailable(id: string, states: seq<Site>, events: seq<Event>, n: nat)
    requires IsHistory(id, states, events) && n < |events| && states[n].answer.None?
    requires events[n] == ReadyTimeout || events[n] == ClosedPoll(true)
    ensures var answer := states[n + 1].answer;
            if !HeardReady(events, n) then answer.Some? && answer.value.Rejected? && answer.value.code == Unavailable
            else if events[n].ClosedPoll? then answer.Some? && answer.value.Rejected? && answer.value.code == Closed
            else answer.None?
  {
    ReadyIsHeard(id, states, events, n);
    assert HappensAt(states, events, n);
  }

  /** A request settles at most once: its answer never changes, whatever comes after. */
  lemma {:induction false} SettlesOnce(id: string, states: seq<Site>, events: seq<Event>, n: nat, m: nat)
    requires IsHistory(id, states, events) && n <= m < |states| && states[n].answer.Some?
    ensures states[m].answer == states[n].answer
  {
    if n < m {
      SettlesOnce(id, states, events, n, m - 1);
      assert HappensAt(states, events, m - 1);
    }
  }

  /** What was done to the popup: one request at most, only once it was ready and before the answer; closed at most once. */
  ghost predicate Restrained(s: Site) {
    && s.posts <= 1 && s.closes <= 1
    && (s.postDue ==> s.ready && s.posts == 0)
    && (!s.ready ==> s.posts == 0)
    && (s.failDue ==> s.closes == 0)
    && (s.posts > 0 ==> s.values.Fetched?)
    && (s.closes > 0 ==> s.values.Failed? && s.answer.Some? && s.answer.value.Rejected? && s.answer.value.code == Request)
  }

  /** The site posts at most one message, and never both posts its request and closes the window. */
  lemma {:induction false} PostsAtMostOnce(id: string, states: seq<Site>, events: seq<Event>, n: nat)
    requires IsHistory(id, states, events) && n < |states|
    ensures Restrained(states[n])
    ensures states[n].posts + states[n].closes <= 1
  {
    if n > 0 {
      PostsAtMostOnce(id, states, events, n - 1);
      assert HappensAt(states, events, n - 1);
    }
  }

  /** After its answer a request neither posts nor closes: the window may belong to the next request by then. */
  lemma {:induction false} EndedLeavesTheWindow(id: string, states: seq<Site>, events: seq<Event>, n: nat, m: nat)
    requires IsHistory(id, states, events) && n <= m < |states| && states[n].answer.Some?
    ensures states[m].posts == states[n].posts && states[m].closes == states[n].closes
  {
    if n < m {
      EndedLeavesTheWindow(id, states, events, n, m - 1);
      SettlesOnce(id, states, events, n, m - 1);
      assert HappensAt(states, events, m - 1);
    }
  }

  // ---------------------------------------------------------------------------------------------------------------
  // What each event does to an open request, and what is still to come.

  /** The answer's code, whatever else it carries. */
  predicate IsRefusedFor(s: Site, code: Code) {
    s.answer.Some? && s.answer.value.Rejected? && s.answer.value.code == code
  }

  /**
   * Exactly which events answer an open request, and how: the popup's result or error for this request, its values failing, a
   * popup that stays silent, and a window that closes. No other event answers it, and each that does is answered in its own way.
   */
  lemma EveryAnswerHasItsCause(id: string, states: seq<Site>, events: seq<Event>, n: nat)
    requires IsHistory(id, states, events) && n < |events| && states[n].answer.None?
    ensures var t := states[n + 1];
            match events[n]
            case FromPopup(genuine, message) =>
              if genuine && message.Result? && message.id == id then t.answer == Some(Resolved(message.hash))
              else if genuine && message.Error? && message.id == id then IsRefusedFor(t, message.code)
              else t.answer.None?
            case FailCallback => IsRefusedFor(t, Request) && t.closes == 1
            case ReadyTimeout => if HeardReady(events, n) then t.answer.None? else IsRefusedFor(t, Unavailable)
            case ClosedPoll(closed) =>
              if !closed then t.answer.None? else if HeardReady(events, n) then IsRefusedFor(t, Closed) else IsRefusedFor(t, Unavailable)
            case PostCallback => t.answer.None? && t.posts == 1
            case _ => t.answer.None?
  {
    ReadyIsHeard(id, states, events, n);
    PostsAtMostOnce(id, states, events, n);
    FailuresCarryTheReport(id, states, events, n);
    assert HappensAt(states, events, n);
  }

  ghost predicate Came(events: seq<Event>, n: nat, e: Event)
    requires n <= |events|
  {
    exists k :: 0 <= k < n && events[k] == e
  }

  /** The request is posted once the popup is ready and the values have come, and given up once they have failed. */
  lemma {:induction false} CallbacksAreDue(id: string, states: seq<Site>, events: seq<Event>, n: nat)
    requires IsHistory(id, states, events) && n < |states|
    ensures states[n].values.Fetched? <==> Came(events, n, ValuesFetched)
    ensures states[n].values.Failed? <==> Came(events, n, ValuesFailed)
    ensures states[n].postDue <==> HeardReady(events, n) && !Came(events, n, PostCallback)
    ensures states[n].failDue <==> !Came(events, n, FailCallback)
    ensures Came(events, n, PostCallback) ==> HeardReady(events, n)
  {
    if n > 0 {
      CallbacksAreDue(id, states, events, n - 1);
      ReadyIsHeard(id, states, events, n - 1);
      ReadyIsHeard(id, states, events, n);
      assert HappensAt(states, events, n - 1);
      CameOneMore(events, n - 1);
      DueNext(states[n - 1], events[n - 1]);
      hide Came, HeardReady, Step, IsHistory;
    }
  }

  lemma DueNext(s: Site, e: Event)
    requires Enabled(s, e)
    ensures var t := Step(s, e);
            && t.values == (if e.ValuesFetched? then Fetched else if e.ValuesFailed? then Failed else s.values)
            && (e.ValuesFetched? || e.ValuesFailed? ==> s.values.Waiting?)
            && t.postDue == ((s.postDue && !e.PostCallback?) || (t.ready && !s.ready))
            && t.failDue == (s.failDue && !e.FailCallback?)
            && (e.PostCallback? ==> s.postDue) && (s.ready ==> t.ready)
  {
  }

  lemma CameOneMore(events: seq<Event>, n: nat)
    requires n < |events|
    ensures forall e :: Came(events, n + 1, e) <==> Came(events, n, e) || events[n] == e
  {
    forall e ensures Came(events, n + 1, e) <==> Came(events, n, e) || events[n] == e {
      if Came(events, n + 1, e) && events[n] != e {
        var k :| 0 <= k < n + 1 && events[k] == e;
        assert k < n;
      }
    }
  }

  /** A site's request goes out exactly once its popup is ready and its values are there, if nothing has ended it. */
  lemma PostsWhenReady(id: string, states: seq<Site>, events: seq<Event>, n: nat)
    requires IsHistory(id, states, events) && n < |states|
    ensures Enabled(states[n], PostCallback) <==> HeardReady(events, n) && Came(events, n, ValuesFetched) && !Came(events, n, PostCallback)
    ensures Enabled(states[n], FailCallback) <==> Came(events, n, ValuesFailed) && !Came(events, n, FailCallback)
  {
    CallbacksAreDue(id, states, events, n);
  }

  /** The hexadecimal texts: `0x` and any number of digits, none included. */
  lemma HexTexts(s: string)
    ensures IsHex(s) <==> exists digits :: s == "0x" + digits && forall c <- digits :: c in "0123456789abcdefABCDEF"
  {
    if IsHex(s) {
      var digits := s[2..];
      assert s == "0x" + digits;
      forall c | c in digits ensures c in "0123456789abcdefABCDEF" {
        var k :| 0 <= k < |digits| && digits[k] == c;
        assert IsHexDigit(s[k + 2]);
        HexDigitIsOne(c);
      }
    }
    if digits :| s == "0x" + digits && forall c <- digits :: c in "0123456789abcdefABCDEF" {
      forall k | 2 <= k < |s| ensures IsHexDigit(s[k]) {
        assert s[k] == digits[k - 2] && digits[k - 2] in digits;
        HexDigitIsOne(s[k]);
      }
    }
  }

  lemma HexDigitIsOne(c: char)
    ensures IsHexDigit(c) <==> c in "0123456789abcdefABCDEF"
  {
    var all := "0123456789abcdefABCDEF";
    if '0' <= c <= '9' {
      assert all[c as int - '0' as int] == c;
    } else if 'a' <= c <= 'f' {
      assert all[10 + (c as int - 'a' as int)] == c;
    } else if 'A' <= c <= 'F' {
      assert all[16 + (c as int - 'A' as int)] == c;
    }
  }

  /** A nonce of up to 78 digits is taken, enough for any of 256 bits, and no longer one. */
  lemma NonceRange(n: nat)
    ensures IsNonce(Decimal(n)) <==> n < Pow10(78)
  {
    if n < Pow10(78) {
      DecimalLength(n, 78);
    } else {
      DecimalIsLong(n, 78);
    }
  }

  // ---------------------------------------------------------------------------------------------------------------
  // The request as it runs, and the connection that allows one at a time.

  class VeraKeyConnect {
    var pending: bool

    constructor ()
      ensures !pending
    {
      pending := false;
    }

    /** Opens the popup for a request, unless another request is open or the browser blocks the window. */
    method Open(id: string, popupOk: bool) returns (r: Result<PendingRequest, Code>)
      modifies this
      ensures r.Err? <==> old(pending) || !popupOk
      ensures r.Err? ==> r.error == (if old(pending) then Busy else Blocked) && pending == old(pending)
      ensures r.Ok? ==> pending && fresh(r.value) && r.value.Valid() && r.value.connect == this && r.value.Abs() == Opened(id)
    {
      if pending { return Err(Busy); }
      if !popupOk { return Err(Blocked); }
      pending := true;
      var request := new PendingRequest(id, this);
      return Ok(request);
    }
  }

  class PendingRequest {
    const id: string
    const connect: VeraKeyConnect
    var ready: bool
    var settled: Option<Answer>
    var sent: Option<string>
    var sending: Option<PendingPayment>
    var values: Values
    var postDue: bool
    var failDue: bool
    ghost var posts: nat
    ghost var closes: nat

    ghost function Abs(): Site
      reads this
    {
      Site(id, ready, settled, sent, sending, values, postDue, failDue, posts, closes)
    }

    /** While the request is open, it keeps the connection busy. */
    ghost predicate Valid()
      reads this, connect
    {
      settled.None? ==> connect.pending
    }

    constructor (id: string, connect: VeraKeyConnect)
      requires connect.pending
      ensures Valid() && this.connect == connect && Abs() == Opened(id)
    {
      this.id, this.connect := id, connect;
      ready, settled, sent, sending, values, postDue, failDue, posts, closes := false, None, None, None, Waiting, false, true, 0, 0;
    }

    /** Settles once, and frees the connection only then. */
    method SettleWith(answer: Answer)
      requires Valid()
      modifies this`settled, connect`pending
      ensures Valid() && Abs() == Settle(old(Abs()), answer)
      ensures connect.pending == if old(settled).None? then false else old(connect.pending)
    {
      if settled.Some? { return; }
      settled := Some(answer);
      connect.pending := false;
    }

    method FailWith(code: Code)
      requires Valid()
      modifies this`settled, connect`pending
      ensures Valid() && Abs() == Fail(old(Abs()), code)
      ensures connect.pending == if old(settled).None? then false else old(connect.pending)
    {
      var pending := sending;
      if sent.Some? || (code != Closed && code != Relay) {
        pending := None;
      }
      SettleWith(Rejected(code, sent, pending));
    }

    /** The connection is freed by exactly the step that settles the request. */
    twostate predicate Frees()
      reads this, connect
    {
      connect.pending == if old(settled).None? && settled.Some? then false else old(connect.pending)
    }

    method OnMessage(genuine: bool, message: Message)
      requires Valid() && settled.None?
      modifies this, connect`pending
      ensures Valid() && Abs() == Step(old(Abs()), FromPopup(genuine, message)) && Frees()
    {
      if !genuine { return; }
      if message.Ready? {
        if ready { return; }
        ready := true;
        postDue := true;
        return;
      }
      if message.id != id { return; }
      match message
      case Submitted(_, hash) =>
        if IsHex(hash) {
          sent := Some(hash);
        }
      case Sending(_, account, accountOk, nonce) =>
        if accountOk && IsNonce(nonce) {
          sending := Some(PendingPayment(account, DecimalValue(nonce)));
        }
      case Result(_, hash) => SettleWith(Resolved(hash));
      case Error(_, code) => FailWith(code);
    }

    method OnValues(ok: bool)
      requires Valid() && values.Waiting?
      modifies this`values
      ensures Valid() && Abs() == Step(old(Abs()), if ok then ValuesFetched else ValuesFailed)
    {
      values := if ok then Fetched else Failed;
    }

    /** Posts the request to the popup, unless it has ended meanwhile. */
    method OnPost()
      requires Valid() && Enabled(Abs(), PostCallback)
      modifies this
      ensures Valid() && Abs() == Step(old(Abs()), PostCallback)
    {
      postDue := false;
      if settled.None? {
        posts := posts + 1;
      }
    }

    /** The callback for the values failed: an open request fails and closes its window, an ended one does neither. */
    method OnFail()
      requires Valid() && Enabled(Abs(), FailCallback)
      modifies this, connect`pending
      ensures Valid() && Abs() == Step(old(Abs()), FailCallback) && Frees()
    {
      failDue := false;
      if settled.Some? { return; }
      FailWith(Request);
      closes := closes + 1;
    }

    method OnReadyTimeout()
      requires Valid() && settled.None?
      modifies this, connect`pending
      ensures Valid() && Abs() == Step(old(Abs()), ReadyTimeout) && Frees()
    {
      if !ready {
        FailWith(Unavailable);
      }
    }

    method OnClosedPoll(closed: bool)
      requires Valid() && settled.None?
      modifies this, connect`pending
      ensures Valid() && Abs() == Step(old(Abs()), ClosedPoll(closed)) && Frees()
    {
      if closed && !ready {
        FailWith(Unavailable);
      } else if closed {
        FailWith(Closed);
      }
    }
  }
}
