/**
 * Site and popup as one system: the site's request in packages/sdk/src/connect.ts, the popup's hook in
 * client/src/pages/connect/useConnectRequest.ts, and the messages on their way between the two windows.
 */
module ConnectJoint {
  import opened Primitives
  import opened ConnectSite
  import opened ConnectPopup

  /** What the site asks: the request's id, the site's origin, and the message it will post. */
  datatype Ask = Ask(id: string, origin: string, data: Data)
  {
    predicate Valid() {
      id != "" && data.isEnvelope && data.kind == "request" && data.id == Some(id)
    }
  }

  /** What became of the site's request at the popup. */
  datatype Fate = NotYet | Accepted | Turned

  /**
   * `requests` and `channel` are the messages under way to the popup and to the site; the browser delivers each direction in
   * order. `heard` and `fate` are history: what the site has taken in about its request, and what the popup made of it.
   */
  datatype Joint = Joint(site: Site, popup: Popup, requests: seq<Data>, channel: seq<Message>, heard: seq<Message>, fate: Fate)

  function Begin(ask: Ask): Joint {
    Joint(Opened(ask.id), Popup(None, false, []), [], [], [], NotYet)
  }

  /**
   * `AtSite` is any event of the site but a message from its popup; `Foreign` a message to the popup that is not the site's
   * request, from whatever window.
   */
  datatype JointEvent =
    | AtSite(e: Event)
    | Announce
    | DeliverRequest(allowed: bool)
    | Foreign(fromOpener: bool, origin: string, allowed: bool, data: Data)
    | PageReplies(reply: PopupEvent)
    | Deliver

  predicate CanDo(ask: Ask, j: Joint, e: JointEvent) {
    match e
    case AtSite(local) => Enabled(j.site, local) && (local.FromPopup? ==> !local.genuine)
    case Announce => true
    case DeliverRequest(_) => j.requests != []
    case Foreign(fromOpener, origin, _, data) => !(fromOpener && origin == ask.origin && data.id == Some(ask.id))
    case PageReplies(reply) => !reply.Incoming? && CanHappen(j.popup, reply)
    case Deliver => j.channel != []
  }

  /** What a step of the popup posts to the site's window: the browser gives it only what is meant for its origin. */
  function Reaching(origin: string, before: seq<Posted>, after: seq<Posted>): seq<Message> {
    if |after| > |before| && after[|after| - 1].origin == origin then [after[|after| - 1].message] else []
  }

  function PopupDoes(ask: Ask, j: Joint, e: PopupEvent): Joint
    requires CanHappen(j.popup, e)
  {
    var popup := PopupStep(j.popup, e);
    j.(popup := popup, channel := j.channel + Reaching(ask.origin, j.popup.outbox, popup.outbox))
  }

  predicate IsAbout(id: string, m: Message) {
    !m.Ready? && m.id == id
  }

  function JointStep(ask: Ask, j: Joint, e: JointEvent): Joint
    requires CanDo(ask, j, e)
  {
    match e
    case AtSite(local) =>
      var site := Step(j.site, local);
      j.(site := site, requests := if site.posts > j.site.posts then j.requests + [ask.data] else j.requests)
    case Announce => j.(channel := j.channel + [Ready])
    case DeliverRequest(allowed) =>
      var incoming := Incoming(true, ask.origin, allowed, j.requests[0]);
      var t := PopupDoes(ask, j, incoming);
      var verdict := AcceptRequest(true, ask.origin, allowed, j.requests[0], j.popup.handled.Some?);
      t.(requests := j.requests[1..], fate := if verdict.Accept? then Accepted else Turned)
    case Foreign(fromOpener, origin, allowed, data) => PopupDoes(ask, j, Incoming(fromOpener, origin, allowed, data))
    case PageReplies(reply) => PopupDoes(ask, j, reply)
    case Deliver =>
      var m := j.channel[0];
      if j.site.answer.Some? then j.(channel := j.channel[1..])
      else
        j.(site := Step(j.site, FromPopup(true, m)), channel := j.channel[1..],
           heard := if IsAbout(ask.id, m) then j.heard + [m] else j.heard)
  }

  // ---------------------------------------------------------------------------------------------------------------
  // What every order of events keeps.

  /** The messages about request `id` among these. */
  function ForId(id: string, ms: seq<Message>): seq<Message> {
    if ms == [] then []
    else ForId(id, ms[..|ms| - 1]) + (if IsAbout(id, ms[|ms| - 1]) then [ms[|ms| - 1]] else [])
  }

  /** All that the popup posted to the site about its request, in order. */
  function About(ask: Ask, outbox: seq<Posted>): seq<Message> {
    if outbox == [] then []
    else
      var last := outbox[|outbox| - 1];
      About(ask, outbox[..|outbox| - 1]) + (if last.origin == ask.origin && IsAbout(ask.id, last.message) then [last.message] else [])
  }

  lemma AboutOneMore(ask: Ask, outbox: seq<Posted>, more: Posted)
    ensures About(ask, outbox + [more])
            == About(ask, outbox) + (if more.origin == ask.origin && IsAbout(ask.id, more.message) then [more.message] else [])
  {
    assert (outbox + [more])[..|outbox|] == outbox;
  }

  lemma {:induction false} ForIdConcat(id: string, a: seq<Message>, b: seq<Message>)
    ensures ForId(id, a + b) == ForId(id, a) + ForId(id, b)
  {
    if b == [] {
      assert a + b == a;
    } else {
      var last := |b| - 1;
      assert (a + b)[..|a + b| - 1] == a + b[..last];
      ForIdConcat(id, a, b[..last]);
    }
  }

  lemma ForIdOne(id: string, m: Message)
    ensures ForId(id, [m]) == if IsAbout(id, m) then [m] else []
  {
    assert [m][..0] == [];
  }

  /** The first message under way is the next to be heard. */
  lemma ForIdFirst(id: string, ms: seq<Message>)
    requires ms != []
    ensures ForId(id, ms) == (if IsAbout(id, ms[0]) then [ms[0]] else []) + ForId(id, ms[1..])
  {
    ForIdConcat(id, [ms[0]], ms[1..]);
    ForIdOne(id, ms[0]);
    assert [ms[0]] + ms[1..] == ms;
  }

  /** A message that ends a request ends it with its own answer, and nothing is heard after one. */
  ghost predicate FinalAnswers(answer: Option<Answer>, heard: seq<Message>) {
    && (forall i :: 0 <= i < |heard| - 1 ==> !IsFinal(heard[i]))
    && (answer.None? ==> forall i :: 0 <= i < |heard| ==> !IsFinal(heard[i]))
    && (heard != [] && IsFinal(heard[|heard| - 1]) ==> AnswersTo(answer, heard[|heard| - 1]))
    && (answer.Some? && answer.value.Resolved? ==> heard != [] && IsFinal(heard[|heard| - 1]))
  }

  /** What a request's answer is right after an open one has taken in this message about it. */
  predicate AnswersTo(answer: Option<Answer>, m: Message) {
    match m
    case Result(_, hash) => answer == Some(Resolved(hash))
    case Error(_, code) => answer.Some? && answer.value.Rejected? && answer.value.code == code
    case _ => answer.None?
  }

  ghost predicate SiteSide(ask: Ask, j: Joint) {
    Remembers(j.site, ask.id, j.heard) && Restrained(j.site) && FinalAnswers(j.site.answer, j.heard)
  }

  /** The site has heard the first of what was posted to it, and while it listens the rest is under way. */
  ghost predicate AllUnderWay(ask: Ask, heard: seq<Message>, channel: seq<Message>, outbox: seq<Posted>, open: bool) {
    && heard <= About(ask, outbox)
    && (open ==> heard + ForId(ask.id, channel) == About(ask, outbox))
  }

  ghost predicate NothingLost(ask: Ask, j: Joint) {
    AllUnderWay(ask, j.heard, j.channel, j.popup.outbox, j.site.answer.None?)
  }

  /** The site's one request is under way, or the popup has decided about it. */
  ghost predicate AskedOnce(ask: Ask, j: Joint) {
    && |j.requests| + (if j.fate.NotYet? then 0 else 1) == j.site.posts
    && forall i :: 0 <= i < |j.requests| ==> j.requests[i] == ask.data
  }

  /** The popup is serving the site's request. */
  predicate Serves(ask: Ask, p: Popup) {
    p.handled.Some? && p.handled.value.origin == ask.origin && p.handled.value.request.id == ask.id
  }

  /** What the popup has said about the site's request: nothing before it came, its replies once accepted, one error otherwise. */
  ghost predicate PopupSide(ask: Ask, p: Popup, fate: Fate) {
    && AnswersOnce(p)
    && match fate
       case NotYet => !Serves(ask, p) && About(ask, p.outbox) == []
       case Accepted =>
         && Serves(ask, p) && Some(p.handled.value.request) == ParseRequest(ask.data)
         && About(ask, p.outbox) == Messages(Replies(p.outbox))
       case Turned => !Serves(ask, p) && |About(ask, p.outbox)| == 1 && About(ask, p.outbox)[0].Error?
  }

  /** The messages of these posts. */
  function Messages(posts: seq<Posted>): (ms: seq<Message>)
    ensures |ms| == |posts|
    ensures forall i :: 0 <= i < |posts| ==> ms[i] == posts[i].message
  {
    seq(|posts|, i requires 0 <= i < |posts| => posts[i].message)
  }

  ghost predicate JointOk(ask: Ask, j: Joint) {
    SiteSide(ask, j) && NothingLost(ask, j) && AskedOnce(ask, j) && PopupSide(ask, j.popup, j.fate)
  }

  // The site's side.

  lemma LocalStep(ask: Ask, j: Joint, local: Event)
    requires CanDo(ask, j, AtSite(local)) && SiteSide(ask, j)
    ensures SiteSide(ask, JointStep(ask, j, AtSite(local)))
  {
    OtherStep(j.site, local, j.heard);
    hide LastHash, LastSending, Carries, IsFinal;
  }

  lemma ReceiveAnswers(s: Site, m: Message)
    requires s.answer.None? && Restrained(s)
    ensures Restrained(Receive(s, m))
    ensures if IsAbout(s.id, m) then AnswersTo(Receive(s, m).answer, m) else Receive(s, m).answer.None?
  {
  }

  lemma FinalsGrow(heard: seq<Message>, m: Message, answer: Option<Answer>)
    requires FinalAnswers(None, heard) && !m.Ready? && AnswersTo(answer, m)
    ensures FinalAnswers(answer, heard + [m])
  {
  }

  lemma DeliverStep(ask: Ask, j: Joint)
    requires CanDo(ask, j, Deliver) && SiteSide(ask, j) && j.site.answer.None?
    ensures SiteSide(ask, JointStep(ask, j, Deliver))
  {
    var m := j.channel[0];
    assert j.site.id == ask.id;
    ReceiveAnswers(j.site, m);
    if IsAbout(ask.id, m) {
      HeardStep(j.site, m, j.heard);
      hide Remembers, Restrained, Receive, FinalAnswers;
      FinalsGrow(j.heard, m, Receive(j.site, m).answer);
    } else {
      OtherStep(j.site, FromPopup(true, m), j.heard);
      hide Remembers, Restrained, Receive, FinalAnswers;
    }
    hide Remembers, Restrained, Receive, FinalAnswers;
  }

  lemma SiteStep(ask: Ask, j: Joint, e: JointEvent)
    requires CanDo(ask, j, e) && SiteSide(ask, j)
    ensures SiteSide(ask, JointStep(ask, j, e))
  {
    match e
    case AtSite(local) =>
      LocalStep(ask, j, local);
    case Deliver =>
      if j.site.answer.None? {
        DeliverStep(ask, j);
      }
      hide Remembers, Restrained, Step;
    case _ =>
      hide Remembers, Restrained, PopupStep;
  }

  // The popup's side.

  lemma PageRepliesKeep(ask: Ask, p: Popup, fate: Fate, e: PopupEvent)
    requires !e.Incoming? && CanHappen(p, e) && PopupSide(ask, p, fate)
    ensures PopupSide(ask, PopupStep(p, e), fate)
  {
    ReplyKeepsOnce(p, e);
    hide AnswersOnce, About, Replies, ParseRequest;
    if !p.answered {
      var post := Posted(p.handled.value.origin, ReplyOf(p.handled.value.request.id, e), true);
      AboutOneMore(ask, p.outbox, post);
      RepliesOneMore(p.outbox, post);
      assert Messages(Replies(p.outbox) + [post]) == Messages(Replies(p.outbox)) + [post.message];
      assert PopupStep(p, e).outbox == p.outbox + [post];
    }
    hide Messages;
  }

  /** The gate posts nothing but errors, to the opener's origin, about the request they answer. */
  lemma GatePosts(p: Popup, e: PopupEvent)
    requires e.Incoming?
    ensures var t := Hear(p, e);
            && (t.outbox == p.outbox && t.handled != p.handled ==>
                  && p.handled.None? && t.handled.Some?
                  && t.handled.value.origin == e.origin && Some(t.handled.value.request.id) == e.data.id)
            && (t.outbox != p.outbox ==>
                  && t.handled == p.handled && |t.outbox| == |p.outbox| + 1
                  && var post := t.outbox[|p.outbox|];
                     t.outbox == p.outbox + [post] && post.origin == e.origin && !post.reply && post.message.Error?
                     && post.message.id == if e.data.id.Some? then e.data.id.value else "")
    ensures !e.fromOpener ==> Hear(p, e) == p
  {
    hide ParseRequest;
  }

  /** A message that is not the site's request gets the site no answer, and does not end what the popup serves. */
  lemma ForeignSaysNothing(ask: Ask, p: Popup, e: PopupEvent)
    requires e.Incoming? && ask.Valid() && !(e.fromOpener && e.origin == ask.origin && e.data.id == Some(ask.id))
    ensures var t := PopupStep(p, e);
            && About(ask, t.outbox) == About(ask, p.outbox) && Replies(t.outbox) == Replies(p.outbox)
            && (Serves(ask, t) <==> Serves(ask, p)) && (p.handled.Some? ==> t.handled == p.handled)
  {
    GatePosts(p, e);
    hide Hear, About, Replies;
    var t := PopupStep(p, e);
    if t.outbox != p.outbox {
      AboutOneMore(ask, p.outbox, t.outbox[|p.outbox|]);
      RepliesOneMore(p.outbox, t.outbox[|p.outbox|]);
    }
  }

  lemma ForeignKeeps(ask: Ask, p: Popup, fate: Fate, e: PopupEvent)
    requires e.Incoming? && PopupSide(ask, p, fate) && ask.Valid()
    requires !(e.fromOpener && e.origin == ask.origin && e.data.id == Some(ask.id))
    ensures PopupSide(ask, PopupStep(p, e), fate)
  {
    HearKeepsOnce(p, e);
    ForeignSaysNothing(ask, p, e);
    hide AnswersOnce, AcceptRequest, Hear;
  }

  lemma VerdictOnAsk(ask: Ask, allowed: bool, handled: bool)
    requires ask.Valid()
    ensures match AcceptRequest(true, ask.origin, allowed, ask.data, handled)
            case Ignore => false
            case Reject(origin, id, _) => origin == ask.origin && id == ask.id
            case Accept(origin, request) =>
              origin == ask.origin && request.id == ask.id && Some(request) == ParseRequest(ask.data) && !handled
  {
  }

  lemma RequestIsDecided(ask: Ask, p: Popup, allowed: bool)
    requires PopupSide(ask, p, NotYet) && ask.Valid()
    ensures var e := Incoming(true, ask.origin, allowed, ask.data);
            var verdict := AcceptRequest(true, ask.origin, allowed, ask.data, p.handled.Some?);
            PopupSide(ask, PopupStep(p, e), if verdict.Accept? then Accepted else Turned)
  {
    var e := Incoming(true, ask.origin, allowed, ask.data);
    HearKeepsOnce(p, e);
    VerdictOnAsk(ask, allowed, p.handled.Some?);
    hide AcceptRequest, ParseRequest, AnswersOnce;
    var t := PopupStep(p, e);
    if t.outbox != p.outbox {
      AboutOneMore(ask, p.outbox, t.outbox[|p.outbox|]);
      hide About, Replies;
    } else {
      NoRepliesYet(p);
      hide About, Replies;
    }
  }

  lemma NoRepliesYet(p: Popup)
    requires AnswersOnce(p) && p.handled.None?
    ensures Replies(p.outbox) == []
  {
  }

  lemma PopupSideStep(ask: Ask, j: Joint, e: JointEvent)
    requires CanDo(ask, j, e) && PopupSide(ask, j.popup, j.fate) && AskedOnce(ask, j) && Restrained(j.site) && ask.Valid()
    ensures PopupSide(ask, JointStep(ask, j, e).popup, JointStep(ask, j, e).fate)
  {
    match e
    case DeliverRequest(allowed) => RequestIsDecided(ask, j.popup, allowed);
    case Foreign(fromOpener, origin, allowed, data) => ForeignKeeps(ask, j.popup, j.fate, Incoming(fromOpener, origin, allowed, data));
    case PageReplies(reply) => PageRepliesKeep(ask, j.popup, j.fate, reply);
    case _ =>
  }

  lemma AskedOnceStep(ask: Ask, j: Joint, e: JointEvent)
    requires CanDo(ask, j, e) && AskedOnce(ask, j) && Restrained(j.site)
    ensures AskedOnce(ask, JointStep(ask, j, e))
  {
  }

  // The channel.

  /** What the popup posts to the site joins what is under way. */
  lemma PostsAreUnderWay(ask: Ask, j: Joint, e: PopupEvent)
    requires CanHappen(j.popup, e) && NothingLost(ask, j)
    ensures NothingLost(ask, PopupDoes(ask, j, e))
  {
    PostsOneAtMost(j.popup, e);
    hide PopupStep, AllUnderWay;
    var t := PopupDoes(ask, j, e);
    if t.popup.outbox != j.popup.outbox {
      PostIsUnderWay(ask, j.heard, j.channel, j.popup.outbox, t.popup.outbox[|j.popup.outbox|], j.site.answer.None?);
    } else {
      assert t.channel == j.channel;
    }
  }

  lemma PostIsUnderWay(ask: Ask, heard: seq<Message>, channel: seq<Message>, outbox: seq<Posted>, post: Posted, open: bool)
    requires AllUnderWay(ask, heard, channel, outbox, open)
    ensures AllUnderWay(ask, heard, channel + (if post.origin == ask.origin then [post.message] else []), outbox + [post], open)
  {
    AboutOneMore(ask, outbox, post);
    if post.origin == ask.origin {
      ForIdConcat(ask.id, channel, [post.message]);
      ForIdOne(ask.id, post.message);
    } else {
      assert channel + [] == channel;
    }
    hide About, ForId;
  }

  lemma PostsOneAtMost(p: Popup, e: PopupEvent)
    requires CanHappen(p, e)
    ensures var t := PopupStep(p, e);
            t.outbox == p.outbox || (|t.outbox| == |p.outbox| + 1 && t.outbox == p.outbox + [t.outbox[|p.outbox|]])
  {
    hide ParseRequest;
  }

  lemma DeliveryLosesNothing(ask: Ask, j: Joint)
    requires CanDo(ask, j, Deliver) && NothingLost(ask, j)
    ensures NothingLost(ask, JointStep(ask, j, Deliver))
  {
    hide Step, About, ForId;
    ForIdFirst(ask.id, j.channel);
    if j.site.answer.None? {
      assert j.heard + ForId(ask.id, j.channel)
             == JointStep(ask, j, Deliver).heard + ForId(ask.id, JointStep(ask, j, Deliver).channel);
    }
  }

  lemma NothingLostStep(ask: Ask, j: Joint, e: JointEvent)
    requires CanDo(ask, j, e) && NothingLost(ask, j)
    ensures NothingLost(ask, JointStep(ask, j, e))
  {
    match e
    case AtSite(_) => hide About, ForId;
    case Announce =>
      ForIdConcat(ask.id, j.channel, [Ready]);
      ForIdOne(ask.id, Ready);
      hide About, ForId;
    case Deliver => DeliveryLosesNothing(ask, j);
    case DeliverRequest(allowed) =>
      PostsAreUnderWay(ask, j, Incoming(true, ask.origin, allowed, j.requests[0]));
      hide About, ForId, PopupStep;
    case Foreign(fromOpener, origin, allowed, data) => PostsAreUnderWay(ask, j, Incoming(fromOpener, origin, allowed, data));
    case PageReplies(reply) => PostsAreUnderWay(ask, j, reply);
  }

  ghost predicate DoneAt(ask: Ask, states: seq<Joint>, events: seq<JointEvent>, i: nat)
    requires i < |events| && |states| == |events| + 1
  {
    CanDo(ask, states[i], events[i]) && states[i + 1] == JointStep(ask, states[i], events[i])
  }

  ghost predicate IsJointHistory(ask: Ask, states: seq<Joint>, events: seq<JointEvent>) {
    && ask.Valid() && |states| == |events| + 1 && states[0] == Begin(ask)
    && forall i :: 0 <= i < |events| ==> DoneAt(ask, states, events, i)
  }

  lemma JointOkStep(ask: Ask, j: Joint, e: JointEvent)
    requires ask.Valid() && CanDo(ask, j, e) && JointOk(ask, j)
    ensures JointOk(ask, JointStep(ask, j, e))
  {
    SiteStep(ask, j, e);
    NothingLostStep(ask, j, e);
    AskedOnceStep(ask, j, e);
    PopupSideStep(ask, j, e);
    hide JointStep, CanDo, SiteSide, NothingLost, AskedOnce, PopupSide;
  }

  lemma {:induction false} JointReachable(ask: Ask, states: seq<Joint>, events: seq<JointEvent>, n: nat)
    requires IsJointHistory(ask, states, events) && n < |states|
    ensures JointOk(ask, states[n])
  {
    if n > 0 {
      JointReachable(ask, states, events, n - 1);
      assert DoneAt(ask, states, events, n - 1);
      JointOkStep(ask, states[n - 1], events[n - 1]);
    }
  }

  // ---------------------------------------------------------------------------------------------------------------
  // What the two promise together.

  /** Once the site has its answer, it takes in nothing more. */
  lemma {:induction false} HeardStays(ask: Ask, states: seq<Joint>, events: seq<JointEvent>, n: nat, m: nat)
    requires IsJointHistory(ask, states, events) && n <= m < |states| && states[n].site.answer.Some?
    ensures states[m].site.answer == states[n].site.answer && states[m].heard == states[n].heard
  {
    if n < m {
      HeardStays(ask, states, events, n, m - 1);
      assert DoneAt(ask, states, events, m - 1);
    }
  }

  /** The popup itself ended the site's request: with a result, an error or a refusal of its gate. */
  ghost predicate EndedByPopup(j: Joint) {
    j.heard != [] && IsFinal(j.heard[|j.heard| - 1])
  }

  lemma FinalIsLast(ask: Ask, p: Popup, fate: Fate, i: nat)
    requires PopupSide(ask, p, fate) && i < |About(ask, p.outbox)| && IsFinal(About(ask, p.outbox)[i])
    ensures i == |About(ask, p.outbox)| - 1
  {
  }

  /**
   * When the popup itself ended a request, the site had heard everything the popup ever says to it about that request, by then
   * or at any later time; a failure carries the last hash, or the last payment on its way.
   */
  lemma NoReportIsLost(ask: Ask, states: seq<Joint>, events: seq<JointEvent>, n: nat, m: nat)
    requires IsJointHistory(ask, states, events) && n <= m < |states| && EndedByPopup(states[n])
    ensures states[n].heard == About(ask, states[m].popup.outbox)
    ensures states[n].site.answer.Some? && Carries(states[n].site.answer.value, About(ask, states[m].popup.outbox))
  {
    JointReachable(ask, states, events, n);
    JointReachable(ask, states, events, m);
    hide NothingLost, AskedOnce, PopupSide, Restrained;
    HeardStays(ask, states, events, n, m);
    HeardIsAll(ask, states[m]);
  }

  lemma HeardIsAll(ask: Ask, j: Joint)
    requires JointOk(ask, j) && EndedByPopup(j)
    ensures j.heard == About(ask, j.popup.outbox)
  {
    hide SiteSide, FinalAnswers;
    var heard, about := j.heard, About(ask, j.popup.outbox);
    assert heard[|heard| - 1] == about[|heard| - 1];
    FinalIsLast(ask, j.popup, j.fate, |heard| - 1);
    assert about[..|heard|] == about;
  }

  /** However a request ends, its failure tells what the site had heard: the first of what the popup said, in the popup's order. */
  lemma FailuresTellWhatWasHeard(ask: Ask, states: seq<Joint>, events: seq<JointEvent>, n: nat, m: nat)
    requires IsJointHistory(ask, states, events) && n <= m < |states| && states[n].site.answer.Some?
    ensures states[n].heard <= About(ask, states[m].popup.outbox)
    ensures Carries(states[n].site.answer.value, states[n].heard)
  {
    JointReachable(ask, states, events, n);
    JointReachable(ask, states, events, m);
    HeardStays(ask, states, events, n, m);
  }

  lemma FateStep(ask: Ask, j: Joint, e: JointEvent)
    requires CanDo(ask, j, e) && AskedOnce(ask, j) && Restrained(j.site) && !j.fate.NotYet?
    ensures JointStep(ask, j, e).fate == j.fate
  {
    hide Step;
  }

  /** The popup decides about the site's request once, and for good. */
  lemma {:induction false} DecidedOnce(ask: Ask, states: seq<Joint>, events: seq<JointEvent>, n: nat, m: nat)
    requires IsJointHistory(ask, states, events) && n <= m < |states| && !states[n].fate.NotYet?
    ensures states[m].fate == states[n].fate && states[m].requests == []
    ensures Serves(ask, states[m].popup) <==> states[n].fate.Accepted?
  {
    hide JointStep, CanDo, NothingLost, Remembers, FinalAnswers, AnswersOnce, Serves;
    JointReachable(ask, states, events, m);
    if n < m {
      DecidedOnce(ask, states, events, n, m - 1);
      assert DoneAt(ask, states, events, m - 1);
      JointReachable(ask, states, events, m - 1);
      FateStep(ask, states[m - 1], events[m - 1]);
    }
  }

  /** A site gets a result only for the very request it made: the popup was serving it, and answered it with that result. */
  lemma ResultsAreTheRequests(ask: Ask, states: seq<Joint>, events: seq<JointEvent>, n: nat, hash: string)
    requires IsJointHistory(ask, states, events) && n < |states| && states[n].site.answer == Some(Resolved(hash))
    ensures var p := states[n].popup;
            && p.handled.Some? && p.handled.value.origin == ask.origin && Some(p.handled.value.request) == ParseRequest(ask.data)
            && p.answered && Replies(p.outbox) != []
            && Replies(p.outbox)[|Replies(p.outbox)| - 1] == Posted(ask.origin, Message.Result(ask.id, hash), true)
  {
    JointReachable(ask, states, events, n);
    NoReportIsLost(ask, states, events, n, n);
    RepliesAreReplies(states[n].popup.outbox);
  }

  lemma {:induction false} RepliesAreReplies(outbox: seq<Posted>)
    ensures forall i :: 0 <= i < |Replies(outbox)| ==> Replies(outbox)[i].reply
  {
    if outbox != [] {
      RepliesAreReplies(outbox[..|outbox| - 1]);
    }
  }

  /** A payment that the site is told of is of exactly the amount, to exactly the payee, that the site asked for. */
  lemma PaidAsAsked(ask: Ask, payee: string, amount: nat, account: Option<string>,
                    states: seq<Joint>, events: seq<JointEvent>, n: nat, hash: string)
    requires IsJointHistory(ask, states, events) && n < |states| && states[n].site.answer == Some(Resolved(hash))
    requires |ask.id| <= MAX_ID && ask.data == PayData(ask.id, payee, amount, account)
    ensures states[n].popup.handled == Some(Handling(ask.origin, Pay(ask.id, payee, amount, account)))
    ensures 0 < amount < MAX_AMOUNT
    ensures exists k :: 0 <= k < n && events[k] == DeliverRequest(true)
  {
    JointReachable(ask, states, events, n);
    NoReportIsLost(ask, states, events, n, n);
    AcceptedWasAllowed(ask, states, events, n);
    ResultsAreTheRequests(ask, states, events, n, hash);
    PaymentsAreUnderstood(ask.id, payee, amount, account);
  }

  /** What the popup makes of the site's request when it comes, and the error it posts where it turns it away. */
  lemma FateIsExact(ask: Ask, states: seq<Joint>, events: seq<JointEvent>, n: nat, allowed: bool)
    requires IsJointHistory(ask, states, events) && n < |events| && events[n] == DeliverRequest(allowed)
    ensures var p := states[n].popup;
            var code := if !allowed then Code.Origin else if p.handled.Some? then Busy else Code.Request;
            if allowed && p.handled.None? && exists request :: Asks(ask.data, request) then
              states[n + 1].fate.Accepted? && states[n + 1].popup.outbox == p.outbox
            else states[n + 1].fate.Turned? && states[n + 1].popup.outbox == p.outbox + [Posted(ask.origin, Error(ask.id, code), false)]
  {
    JointReachable(ask, states, events, n);
    assert DoneAt(ask, states, events, n);
    VerdictIsExact(Incoming(true, ask.origin, allowed, ask.data), states[n].popup.handled.Some?);
    var request := ParseRequest(ask.data);
    if request.Some? {
      ParsesWhatIsAsked(ask.data, request.value);
    }
    VerdictOnAsk(ask, allowed, states[n].popup.handled.Some?);
    hide AcceptRequest, ParseRequest, Asks, SiteSide, NothingLost, PopupSide;
  }

  /** Only from an allowed origin is a request ever accepted, and so answered with a result. */
  lemma {:induction false} AcceptedWasAllowed(ask: Ask, states: seq<Joint>, events: seq<JointEvent>, n: nat)
    requires IsJointHistory(ask, states, events) && n < |states| && states[n].fate.Accepted?
    ensures exists k :: 0 <= k < n && events[k] == DeliverRequest(true)
  {
    var k := n - 1;
    assert DoneAt(ask, states, events, k);
    if states[k].fate.Accepted? {
      AcceptedWasAllowed(ask, states, events, k);
    } else {
      OnlyDeliveryDecides(ask, states[k], events[k]);
      FateIsExact(ask, states, events, k, events[k].allowed);
    }
    hide JointStep, CanDo;
  }

  lemma OnlyDeliveryDecides(ask: Ask, j: Joint, e: JointEvent)
    requires CanDo(ask, j, e) && JointStep(ask, j, e).fate != j.fate
    ensures e.DeliverRequest?
  {
    hide Step;
  }

  /** A message about the site's request was posted by the page that serves it, or by the gate that turned it away. */
  ghost predicate SaidBefore(ask: Ask, states: seq<Joint>, events: seq<JointEvent>, n: nat, m: Message)
    requires n <= |events| <= |states|
  {
    exists k :: 0 <= k < n && SaysAt(ask, states, events, k, m)
  }

  ghost predicate SaysAt(ask: Ask, states: seq<Joint>, events: seq<JointEvent>, k: nat, m: Message)
    requires k < |events| <= |states|
  {
    || (events[k].PageReplies? && Serves(ask, states[k].popup) && !events[k].reply.Incoming? && ReplyOf(ask.id, events[k].reply) == m)
    || (events[k].DeliverRequest? && m.Error? && m.id == ask.id)
  }

  lemma {:induction false} HeardWasSaid(ask: Ask, states: seq<Joint>, events: seq<JointEvent>, n: nat, m: Message)
    requires IsJointHistory(ask, states, events) && n < |states| && m in About(ask, states[n].popup.outbox)
    ensures SaidBefore(ask, states, events, n, m)
  {
    assert n > 0;
    var k := n - 1;
    JointReachable(ask, states, events, k);
    hide JointOk, JointStep, CanDo, SaysAt;
    assert DoneAt(ask, states, events, k);
    if m in About(ask, states[k].popup.outbox) {
      HeardWasSaid(ask, states, events, k, m);
      var j :| 0 <= j < k && SaysAt(ask, states, events, j, m);
      assert SaidBefore(ask, states, events, n, m);
    } else {
      NewlySaid(ask, states[k], events[k], m);
      SaidNow(ask, states, events, k, m);
    }
  }

  lemma SaidNow(ask: Ask, states: seq<Joint>, events: seq<JointEvent>, k: nat, m: Message)
    requires k < |events| <= |states|
    requires || (events[k].PageReplies? && Serves(ask, states[k].popup) && !events[k].reply.Incoming? && ReplyOf(ask.id, events[k].reply) == m)
             || (events[k].DeliverRequest? && m.Error? && m.id == ask.id)
    ensures SaidBefore(ask, states, events, k + 1, m)
  {
    assert SaysAt(ask, states, events, k, m);
  }

  lemma NewlySaid(ask: Ask, j: Joint, e: JointEvent, m: Message)
    requires ask.Valid() && CanDo(ask, j, e) && JointOk(ask, j)
    requires m !in About(ask, j.popup.outbox) && m in About(ask, JointStep(ask, j, e).popup.outbox)
    ensures || (e.PageReplies? && Serves(ask, j.popup) && !e.reply.Incoming? && ReplyOf(ask.id, e.reply) == m)
            || (e.DeliverRequest? && m.Error? && m.id == ask.id)
  {
    match e
    case PageReplies(reply) => NewlyReplied(ask, j.popup, reply, m);
    case DeliverRequest(allowed) => NewlyTurned(ask, j.popup, Incoming(true, ask.origin, allowed, j.requests[0]), m);
    case Foreign(fromOpener, origin, allowed, data) =>
      ForeignSaysNothing(ask, j.popup, Incoming(fromOpener, origin, allowed, data));
      hide About;
    case _ => hide Step;
  }

  lemma NewlyReplied(ask: Ask, p: Popup, reply: PopupEvent, m: Message)
    requires !reply.Incoming? && CanHappen(p, reply) && m !in About(ask, p.outbox) && m in About(ask, PopupStep(p, reply).outbox)
    ensures Serves(ask, p) && ReplyOf(ask.id, reply) == m
  {
    if !p.answered {
      AboutOneMore(ask, p.outbox, Posted(p.handled.value.origin, ReplyOf(p.handled.value.request.id, reply), true));
    }
    hide About;
  }

  lemma NewlyTurned(ask: Ask, p: Popup, incoming: PopupEvent, m: Message)
    requires incoming.Incoming? && m !in About(ask, p.outbox) && m in About(ask, PopupStep(p, incoming).outbox)
    ensures m.Error? && m.id == ask.id
  {
    GatePosts(p, incoming);
    var t := Hear(p, incoming);
    if t.outbox != p.outbox {
      AboutOneMore(ask, p.outbox, t.outbox[|p.outbox|]);
    }
    hide About, Hear;
  }

  /** The result a site gets is the one its popup's page gave. */
  lemma ResultsAreThePages(ask: Ask, states: seq<Joint>, events: seq<JointEvent>, n: nat, hash: string)
    requires IsJointHistory(ask, states, events) && n < |states| && states[n].site.answer == Some(Resolved(hash))
    ensures exists k :: 0 <= k < n && events[k] == PageReplies(ReplyResult(hash))
  {
    JointReachable(ask, states, events, n);
    hide JointOk, About, SaidBefore, SaysAt;
    ResolvedByTheLast(ask, states[n], hash);
    HeardWasSaid(ask, states, events, n, Message.Result(ask.id, hash));
    SaidByThePage(ask, states, events, n, hash);
  }

  lemma SaidByThePage(ask: Ask, states: seq<Joint>, events: seq<JointEvent>, n: nat, hash: string)
    requires n <= |events| <= |states| && SaidBefore(ask, states, events, n, Message.Result(ask.id, hash))
    ensures exists k :: 0 <= k < n && events[k] == PageReplies(ReplyResult(hash))
  {
    var k :| 0 <= k < n && SaysAt(ask, states, events, k, Message.Result(ask.id, hash));
    assert events[k] == PageReplies(ReplyResult(hash));
  }

  lemma ResolvedByTheLast(ask: Ask, j: Joint, hash: string)
    requires JointOk(ask, j) && j.site.answer == Some(Resolved(hash))
    ensures Message.Result(ask.id, hash) in About(ask, j.popup.outbox)
  {
    hide NothingLost, AskedOnce, PopupSide, Remembers, Restrained;
    HeardIsAll(ask, j);
    var last := j.heard[|j.heard| - 1];
    AboutIsAbout(ask, j.popup.outbox);
    assert last in j.heard;
  }

  lemma {:induction false} AboutIsAbout(ask: Ask, outbox: seq<Posted>)
    ensures forall m <- About(ask, outbox) :: IsAbout(ask.id, m)
  {
    if outbox != [] {
      AboutIsAbout(ask, outbox[..|outbox| - 1]);
    }
  }
}
