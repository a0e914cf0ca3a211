/**
 * Owner checks of sessions (packages/sdk/src/server.ts): what was found is remembered for a while, and checks of one session
 * never overlap. Times are in seconds.
 */
module KitOwners {
  import opened Primitives

  const OWNER_RETRY_SECONDS: nat := 60
  const MAX_OWNER_ENTRIES: nat := 10_000

  /** How long an answer is good for; with no limit the chain is never asked. */
  type Interval = Option<nat>

  /** What was last found of a session, and when to ask again. */
  datatype Seen = Seen(sid: string, owner: bool, next: nat)

  /** A check under way since `start`, or one that has answered and is about to be forgotten. */
  datatype Check = Running(start: nat) | Ended(owner: bool)

  /** `seen` is in order of insertion; `issued` are the sessions there are. */
  datatype Owners = Owners(seen: seq<Seen>, checks: map<string, Check>, issued: set<string>)

  const NONE_YET: Owners := Owners([], map[], {})

  /** `answer` is empty when the chain failed or took too long. */
  datatype Event =
    | SignIn(sid: string, now: nat)
    | Ask(sid: string, now: nat)
    | Ends(sid: string, answer: Option<bool>)
    | Cleared(sid: string)

  function Without(seen: seq<Seen>, sid: string): (rest: seq<Seen>)
    ensures |rest| <= |seen|
    ensures forall e :: e in rest <==> e in seen && e.sid != sid
  {
    if seen == [] then []
    else if seen[|seen| - 1].sid == sid then Without(seen[..|seen| - 1], sid)
    else Without(seen[..|seen| - 1], sid) + [seen[|seen| - 1]]
  }

  /** Remembers one session last, and forgets the oldest when there are too many. */
  function Remember(seen: seq<Seen>, sid: string, owner: bool, next: nat): seq<Seen> {
    var rest := Without(seen, sid);
    (if |rest| >= MAX_OWNER_ENTRIES then rest[1..] else rest) + [Seen(sid, owner, next)]
  }

  function Lookup(seen: seq<Seen>, sid: string): (r: Option<Seen>)
    ensures r.Some? ==> r.value in seen && r.value.sid == sid
    ensures r.None? ==> forall e <- seen :: e.sid != sid
  {
    if seen == [] then None
    else if seen[|seen| - 1].sid == sid then Some(seen[|seen| - 1])
    else Lookup(seen[..|seen| - 1], sid)
  }

  /** How `stillOwner` goes on: it knows, or it waits for the check under way, or it starts one. */
  datatype Verdict = Known(owner: bool) | Joins | Starts

  function VerdictOn(ownerCheck: Interval, s: Owners, sid: string, now: nat): Verdict {
    var seen := Lookup(s.seen, sid);
    if ownerCheck.None? then Known(true)
    else if seen.Some? && (!seen.value.owner || now < seen.value.next) then Known(seen.value.owner)
    else if sid in s.checks then Joins
    else Starts
  }

  predicate Enabled(s: Owners, e: Event) {
    match e
    case SignIn(sid, _) => sid !in s.issued
    case Ask(sid, _) => sid in s.issued
    case Ends(sid, _) => sid in s.checks && s.checks[sid].Running?
    case Cleared(sid) => sid in s.checks && s.checks[sid].Ended?
  }

  /** When to ask again after a check that started at `start`; one the chain did not answer is repeated sooner. */
  function NextAsk(start: nat, answer: Option<bool>, ownerCheck: nat): nat {
    start + (if answer.Some? then ownerCheck else Min(OWNER_RETRY_SECONDS, ownerCheck))
  }

  /** No answer counts as still owning. */
  function Finding(answer: Option<bool>): bool {
    answer.None? || answer.value
  }

  function SignedIn(ownerCheck: Interval, seen: seq<Seen>, sid: string, now: nat): seq<Seen> {
    if ownerCheck.None? then seen else Remember(seen, sid, true, now + ownerCheck.value)
  }

  function Step(ownerCheck: Interval, s: Owners, e: Event): Owners
    requires Enabled(s, e)
  {
    match e
    case SignIn(sid, now) => Owners(SignedIn(ownerCheck, s.seen, sid, now), s.checks, s.issued + {sid})
    case Ask(sid, now) => if VerdictOn(ownerCheck, s, sid, now).Starts? then s.(checks := s.checks[sid := Running(now)]) else s
    case Ends(sid, answer) =>
      var owner := Finding(answer);
      if ownerCheck.None? then s.(checks := s.checks[sid := Ended(owner)])
      else
        s.(seen := Remember(s.seen, sid, owner, NextAsk(s.checks[sid].start, answer, ownerCheck.value)),
           checks := s.checks[sid := Ended(owner)])
    case Cleared(sid) => s.(checks := s.checks - {sid})
  }

  ghost predicate HappensAt(ownerCheck: Interval, states: seq<Owners>, events: seq<Event>, i: nat)
    requires i < |events| && |states| == |events| + 1
  {
    Enabled(states[i], events[i]) && states[i + 1] == Step(ownerCheck, states[i], events[i])
  }

  ghost predicate IsHistory(ownerCheck: Interval, states: seq<Owners>, events: seq<Event>) {
    && |states| == |events| + 1 && states[0] == NONE_YET
    && forall i :: 0 <= i < |events| ==> HappensAt(ownerCheck, states, events, i)
  }

  // ---------------------------------------------------------------------------------------------------------------
  // What every order of events keeps.

  ghost predicate Distinct(seen: seq<Seen>) {
    forall i, j :: 0 <= i < j < |seen| ==> seen[i].sid != seen[j].sid
  }

  lemma {:induction false} WithoutIsDistinct(seen: seq<Seen>, sid: string)
    requires Distinct(seen)
    ensures Distinct(Without(seen, sid))
  {
    if seen != [] {
      WithoutIsDistinct(seen[..|seen| - 1], sid);
    }
  }

  /** One entry a session, and no more entries than the limit. */
  lemma RememberStaysSmall(seen: seq<Seen>, sid: string, owner: bool, next: nat)
    requires Distinct(seen) && |seen| <= MAX_OWNER_ENTRIES
    ensures var t := Remember(seen, sid, owner, next);
            && Distinct(t) && |t| <= MAX_OWNER_ENTRIES && Seen(sid, owner, next) in t
            && forall e <- t :: e == Seen(sid, owner, next) || (e in seen && e.sid != sid)
  {
    WithoutIsDistinct(seen, sid);
    var rest := Without(seen, sid);
    assert forall e <- rest :: e in seen && e.sid != sid;
    assert |rest| > 0 ==> forall e <- rest[1..] :: e in rest;
  }

  lemma {:induction false} LookupFinds(seen: seq<Seen>, entry: Seen)
    requires Distinct(seen) && entry in seen
    ensures Lookup(seen, entry.sid) == Some(entry)
  {
    var i :| 0 <= i < |seen| && seen[i] == entry;
    if i < |seen| - 1 {
      assert entry == seen[..|seen| - 1][i];
      LookupFinds(seen[..|seen| - 1], entry);
    }
  }

  /** While a session is known to have lost its account, no check of it is running that could say otherwise. */
  ghost predicate Inv(ownerCheck: Interval, s: Owners) {
    && Distinct(s.seen) && |s.seen| <= MAX_OWNER_ENTRIES
    && (forall e <- s.seen :: e.sid in s.issued)
    && (forall e <- s.seen :: !e.owner && e.sid in s.checks ==> s.checks[e.sid] == Ended(false))
    && (forall sid <- s.checks :: sid in s.issued)
    && (ownerCheck.None? ==> s.seen == [] && s.checks == map[])
  }

  lemma InvStep(ownerCheck: Interval, s: Owners, e: Event)
    requires Inv(ownerCheck, s) && Enabled(s, e)
    ensures Inv(ownerCheck, Step(ownerCheck, s, e))
  {
    if ownerCheck.Some? {
      if e.SignIn? {
        RememberStaysSmall(s.seen, e.sid, true, e.now + ownerCheck.value);
      } else if e.Ends? {
        RememberStaysSmall(s.seen, e.sid, Finding(e.answer), NextAsk(s.checks[e.sid].start, e.answer, ownerCheck.value));
      }
    }
  }

  lemma {:induction false} Reachable(ownerCheck: Interval, states: seq<Owners>, events: seq<Event>, n: nat)
    requires IsHistory(ownerCheck, states, events) && n < |states|
    ensures Inv(ownerCheck, states[n])
  {
    if n > 0 {
      Reachable(ownerCheck, states, events, n - 1);
      assert HappensAt(ownerCheck, states, events, n - 1);
      InvStep(ownerCheck, states[n - 1], events[n - 1]);
    }
  }

  /**
   * A session found to have lost its account is refused, without another question to the chain, until its entry is the
   * oldest of ten thousand and makes room.
   */
  lemma LostStaysLost(ownerCheck: Interval, states: seq<Owners>, events: seq<Event>, n: nat, sid: string, now: nat)
    requires IsHistory(ownerCheck, states, events) && n < |events|
    requires Lookup(states[n].seen, sid).Some? && !Lookup(states[n].seen, sid).value.owner
    ensures VerdictOn(ownerCheck, states[n], sid, now) == Known(false)
    ensures Lookup(states[n + 1].seen, sid) == Lookup(states[n].seen, sid) ||
            (|states[n].seen| == MAX_OWNER_ENTRIES && states[n].seen[0].sid == sid && Lookup(states[n + 1].seen, sid).None?)
  {
    Reachable(ownerCheck, states, events, n);
    assert HappensAt(ownerCheck, states, events, n);
    var s, e := states[n], events[n];
    var entry := Lookup(s.seen, sid).value;
    if e.SignIn? || e.Ends? {
      assert e.sid != sid;
      OthersAreKept(s.seen, e.sid, entry, states[n + 1].seen[|states[n + 1].seen| - 1]);
    }
  }

  /** Remembering one session keeps every other, except the oldest when there are too many. */
  lemma OthersAreKept(seen: seq<Seen>, sid: string, entry: Seen, more: Seen)
    requires Distinct(seen) && |seen| <= MAX_OWNER_ENTRIES && entry in seen && entry.sid != sid && more.sid == sid
    ensures var t := Remember(seen, sid, more.owner, more.next);
            Lookup(t, entry.sid) == Some(entry) ||
            (|seen| == MAX_OWNER_ENTRIES && seen[0] == entry && Lookup(t, entry.sid).None?)
  {
    var rest, t := Without(seen, sid), Remember(seen, sid, more.owner, more.next);
    RememberStaysSmall(seen, sid, more.owner, more.next);
    WithoutIsDistinct(seen, sid);
    if entry in t {
      LookupFinds(t, entry);
    } else {
      assert |rest| == MAX_OWNER_ENTRIES && rest[0] == entry by {
        var i :| 0 <= i < |rest| && rest[i] == entry;
        assert i > 0 ==> rest[1..][i - 1] == entry;
      }
      NothingDropped(seen, sid);
      assert forall k :: 1 <= k < |rest| ==> rest[k].sid != entry.sid;
      assert forall e <- t :: e.sid != entry.sid;
    }
  }

  lemma {:induction false} NothingDropped(seen: seq<Seen>, sid: string)
    requires |Without(seen, sid)| == |seen|
    ensures Without(seen, sid) == seen
  {
    if seen != [] {
      NothingDropped(seen[..|seen| - 1], sid);
    }
  }

  // ---------------------------------------------------------------------------------------------------------------
  // How old an answer may be.

  /** Event `k` is why `entry` is remembered: a sign-in, or the end of a check that started then. */
  ghost predicate Because(ownerCheck: Interval, states: seq<Owners>, events: seq<Event>, k: nat, entry: Seen)
    requires IsHistory(ownerCheck, states, events)
  {
    && k < |events| && ownerCheck.Some?
    && match events[k]
       case SignIn(sid, now) => entry == Seen(sid, true, now + ownerCheck.value)
       case Ends(sid, answer) =>
         && sid in states[k].checks && states[k].checks[sid].Running?
         && entry == Seen(sid, Finding(answer), NextAsk(states[k].checks[sid].start, answer, ownerCheck.value))
       case _ => false
  }

  lemma {:induction false} EntriesHaveReasons(ownerCheck: Interval, states: seq<Owners>, events: seq<Event>, n: nat, entry: Seen)
    requires IsHistory(ownerCheck, states, events) && n < |states| && entry in states[n].seen
    ensures exists k: nat :: k < n && Because(ownerCheck, states, events, k, entry)
  {
    assert n > 0;
    Reachable(ownerCheck, states, events, n - 1);
    assert HappensAt(ownerCheck, states, events, n - 1);
    var s, e := states[n - 1], events[n - 1];
    Reachable(ownerCheck, states, events, n);
    if e.SignIn? {
      RememberStaysSmall(s.seen, e.sid, true, e.now + ownerCheck.value);
    } else if e.Ends? {
      RememberStaysSmall(s.seen, e.sid, Finding(e.answer), NextAsk(s.checks[e.sid].start, e.answer, ownerCheck.value));
    }
    if entry in s.seen {
      EntriesHaveReasons(ownerCheck, states, events, n - 1, entry);
    } else {
      assert Because(ownerCheck, states, events, n - 1, entry);
    }
  }

  /**
   * A session kept without asking the chain signed in, or was found to own its account by a check that started, less than
   * `ownerCheck` seconds ago; or the chain did not answer one that started less than a minute ago (and `ownerCheck`).
   */
  lemma KeptAnswersAreFresh(ownerCheck: Interval, states: seq<Owners>, events: seq<Event>, n: nat, sid: string, now: nat)
    requires IsHistory(ownerCheck, states, events) && n < |states| && VerdictOn(ownerCheck, states[n], sid, now) == Known(true)
    requires ownerCheck.Some?
    ensures exists k: nat :: k < n && (events[k].SignIn? || events[k].Ends?) && events[k].sid == sid &&
              if events[k].SignIn? then now < events[k].now + ownerCheck.value
              else
                && sid in states[k].checks && states[k].checks[sid].Running?
                && (events[k].answer == Some(true) || events[k].answer == None)
                && now < states[k].checks[sid].start + ownerCheck.value
                && (events[k].answer == None ==> now < states[k].checks[sid].start + OWNER_RETRY_SECONDS)
  {
    var entry := Lookup(states[n].seen, sid).value;
    EntriesHaveReasons(ownerCheck, states, events, n, entry);
    var k: nat :| k < n && Because(ownerCheck, states, events, k, entry);
    assert events[k].sid == sid;
  }

  /** A sign-in or the end of a check tells whether a session owns its account, and until when that is not asked again. */
  predicate Tells(limit: nat, s: Owners, e: Event, told: Seen) {
    match e
    case SignIn(sid, now) => told == Seen(sid, true, now + limit)
    case Ends(sid, answer) =>
      && sid in s.checks && s.checks[sid].Running?
      && told == Seen(sid, answer != Some(false), s.checks[sid].start + if answer == None && limit > 60 then 60 else limit)
    case _ => false
  }

  /** Event `m` makes room by forgetting this session, the oldest of ten thousand. */
  ghost predicate Evicts(states: seq<Owners>, m: nat, sid: string)
    requires m < |states|
  {
    |states[m].seen| == 10_000 && states[m].seen[0].sid == sid
  }

  lemma TellingRemembers(limit: nat, s: Owners, e: Event, told: Seen)
    requires Inv(Some(limit), s) && Enabled(s, e) && Tells(limit, s, e, told)
    ensures Lookup(Step(Some(limit), s, e).seen, told.sid) == Some(told)
    ensures e.Ends? ==> Step(Some(limit), s, e).checks == s.checks[e.sid := Ended(told.owner)]
  {
    RememberStaysSmall(s.seen, told.sid, told.owner, told.next);
    LookupFinds(Remember(s.seen, told.sid, told.owner, told.next), told);
  }

  lemma OthersTellNothing(limit: nat, s: Owners, e: Event, told: Seen)
    requires Inv(Some(limit), s) && Enabled(s, e) && Lookup(s.seen, told.sid) == Some(told)
    requires e.Ends? ==> e.sid != told.sid
    ensures Lookup(Step(Some(limit), s, e).seen, told.sid) == Some(told) || (|s.seen| == 10_000 && s.seen[0].sid == told.sid)
  {
    if e.SignIn? || e.Ends? {
      var t := Step(Some(limit), s, e);
      assert told in s.seen by {
        LookupIsIn(s.seen, told.sid);
      }
      OthersAreKept(s.seen, e.sid, told, t.seen[|t.seen| - 1]);
    }
  }

  lemma {:induction false} LookupIsIn(seen: seq<Seen>, sid: string)
    requires Lookup(seen, sid).Some?
    ensures Lookup(seen, sid).value in seen && Lookup(seen, sid).value.sid == sid
  {
    if seen[|seen| - 1].sid != sid {
      LookupIsIn(seen[..|seen| - 1], sid);
    }
  }

  /**
   * What the kit was last told of a session is what it answers, without asking again, for as long as that is good: a session
   * that signed in or was confirmed is kept, one the chain did not answer for is kept a minute, one that lost is refused.
   */
  lemma {:induction false} WhatWasToldHolds(limit: nat, states: seq<Owners>, events: seq<Event>, k: nat, n: nat, told: Seen, now: nat)
    requires IsHistory(Some(limit), states, events) && k < n < |states| && Tells(limit, states[k], events[k], told)
    requires forall j :: k < j < n ==> !(events[j].Ends? && events[j].sid == told.sid)
    requires forall j :: k < j < n ==> !Evicts(states, j, told.sid)
    ensures Lookup(states[n].seen, told.sid) == Some(told)
    ensures now < told.next || !told.owner ==> VerdictOn(Some(limit), states[n], told.sid, now) == Known(told.owner)
    ensures told.owner && told.next <= now ==> !VerdictOn(Some(limit), states[n], told.sid, now).Known?
  {
    Reachable(Some(limit), states, events, n - 1);
    assert HappensAt(Some(limit), states, events, n - 1);
    if n == k + 1 {
      TellingRemembers(limit, states[k], events[k], told);
    } else {
      WhatWasToldHolds(limit, states, events, k, n - 1, told, now);
      assert !Evicts(states, n - 1, told.sid);
      OthersTellNothing(limit, states[n - 1], events[n - 1], told);
    }
  }

  /** Nobody waits for a check that is not there: a session about which nothing stands has its check under way, or starts it. */
  lemma WaitsOnlyForItsCheck(limit: nat, s: Owners, sid: string, now: nat)
    requires Lookup(s.seen, sid).None? || (Lookup(s.seen, sid).value.owner && Lookup(s.seen, sid).value.next <= now)
    ensures VerdictOn(Some(limit), s, sid, now) == (if sid in s.checks then Joins else Starts)
  {
  }

  /** Without a limit no check ever runs: every session is kept on the word of its sign-in. */
  lemma NeverAsked(states: seq<Owners>, events: seq<Event>, n: nat, sid: string, now: nat)
    requires IsHistory(None, states, events) && n < |states|
    ensures VerdictOn(None, states[n], sid, now) == Known(true) && states[n].checks == map[] && states[n].seen == []
  {
    Reachable(None, states, events, n);
  }

  /** A check starts only when the one before it for that session has ended and been cleared. */
  lemma {:induction false} OneCheckAtATime(ownerCheck: Interval, states: seq<Owners>, events: seq<Event>, j: nat, k: nat, sid: string)
    requires IsHistory(ownerCheck, states, events) && j < k <= |events|
    requires events[j].Ask? && events[j].sid == sid && VerdictOn(ownerCheck, states[j], sid, events[j].now).Starts?
    ensures sid !in states[k].checks ==> exists m: nat :: j < m < k && events[m] == Cleared(sid)
    ensures forall now :: VerdictOn(ownerCheck, states[k], sid, now).Starts? ==> exists m: nat :: j < m < k && events[m] == Cleared(sid)
  {
    assert HappensAt(ownerCheck, states, events, k - 1);
    if k - 1 > j {
      OneCheckAtATime(ownerCheck, states, events, j, k - 1, sid);
      if events[k - 1] == Cleared(sid) {
        assert j < k - 1 < k;
      }
    }
  }

  // ---------------------------------------------------------------------------------------------------------------
  // The kit's own maps.

  class OwnerChecks {
    const ownerCheck: Interval
    var ownerSeen: seq<Seen>
    var ownerChecks: map<string, Check>
    ghost var issued: set<string>

    ghost function Abs(): Owners
      reads this
    {
      Owners(ownerSeen, ownerChecks, issued)
    }

    constructor (ownerCheck: Interval)
      ensures Abs() == NONE_YET && this.ownerCheck == ownerCheck
    {
      this.ownerCheck := ownerCheck;
      ownerSeen, ownerChecks, issued := [], map[], {};
    }

    method RememberOwner(sid: string, owner: bool, next: nat)
      modifies this`ownerSeen
      ensures ownerSeen == Remember(old(ownerSeen), sid, owner, next)
    {
      ownerSeen := Without(ownerSeen, sid);
      if |ownerSeen| >= MAX_OWNER_ENTRIES {
        ownerSeen := ownerSeen[1..];
      }
      ownerSeen := ownerSeen + [Seen(sid, owner, next)];
    }

    method SignInSession(sid: string, now: nat)
      requires Enabled(Abs(), SignIn(sid, now))
      modifies this
      ensures Abs() == Step(ownerCheck, old(Abs()), SignIn(sid, now))
    {
      if ownerCheck.Some? {
        RememberOwner(sid, true, now + ownerCheck.value);
      }
      issued := issued + {sid};
    }

    method StillOwner(sid: string, now: nat) returns (verdict: Verdict)
      requires Enabled(Abs(), Ask(sid, now))
      modifies this`ownerChecks
      ensures verdict == VerdictOn(ownerCheck, old(Abs()), sid, now) && Abs() == Step(ownerCheck, old(Abs()), Ask(sid, now))
    {
      if ownerCheck.None? { return Known(true); }
      var seen := Lookup(ownerSeen, sid);
      if seen.Some? && (!seen.value.owner || now < seen.value.next) { return Known(seen.value.owner); }
      if sid in ownerChecks { return Joins; }
      ownerChecks := ownerChecks[sid := Running(now)];
      return Starts;
    }

    method EndCheck(sid: string, answer: Option<bool>)
      requires Enabled(Abs(), Ends(sid, answer))
      modifies this`ownerSeen, this`ownerChecks
      ensures Abs() == Step(ownerCheck, old(Abs()), Ends(sid, answer))
    {
      var start := ownerChecks[sid].start;
      if ownerCheck.None? {
        ownerChecks := ownerChecks[sid := Ended(Finding(answer))];
      } else if answer.Some? {
        RememberOwner(sid, answer.value, start + ownerCheck.value);
        ownerChecks := ownerChecks[sid := Ended(answer.value)];
      } else {
        RememberOwner(sid, true, start + Min(OWNER_RETRY_SECONDS, ownerCheck.value));
        ownerChecks := ownerChecks[sid := Ended(true)];
      }
    }

    method ClearCheck(sid: string)
      requires Enabled(Abs(), Cleared(sid))
      modifies this`ownerChecks
      ensures Abs() == Step(ownerCheck, old(Abs()), Cleared(sid))
    {
      ownerChecks := ownerChecks - {sid};
    }
  }
}
