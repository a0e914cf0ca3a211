/**
 * The payment route under concurrent requests (packages/sdk/src/server.ts). A request is cut at each await: between two of
 * its steps any other request may take any of its own.
 */
module KitPayments {
  import opened Primitives
  import opened Reservations
  import opened Text
  import KitStore

  const RECEIPT_RETRIES: nat := 5

  /** The key a payment is claimed under: hashes that differ only in case are one payment. */
  function PaymentKey(hash: string): string {
    "payment:" + Lower(hash)
  }

  predicate IsPaymentKey(key: string) {
    |key| >= 8 && key[..8] == "payment:"
  }

  /** Why a payment is refused (429, 400, 400, 409 and 400). */
  datatype Reason = StillChecking | NoPayment | NotVerified | AlreadyAccepted | SiteFailed

  datatype Result = Accepted(hash: string) | Refused(reason: Reason)

  /** Where a request for payment stands. Every phase but `Done` is waiting for something. */
  datatype Phase =
    | Looking(player: string)
    | Checking(player: string, hash: string, tries: nat)
    | Fulfilling(player: string, hash: string)
    | Ending(player: string, result: Result)
    | Done(result: Result)

  datatype Verdict = Verified | Rejected | NotFoundYet

  datatype Kit = Kit(claims: set<string>, paying: set<string>, requests: map<nat, Phase>)

  const EMPTY: Kit := Kit({}, {}, map[])

  datatype Event =
    | Enter(id: nat, player: string)
    | LookedUp(id: nat, found: Option<string>)
    | Checked(id: nat, verdict: Verdict)
    | Fulfilled(id: nat, ok: bool)
    | Finish(id: nat)

  /** Whether an event can happen now. */
  predicate Enabled(s: Kit, e: Event) {
    match e
    case Enter(id, _) => id !in s.requests
    case LookedUp(id, _) => id in s.requests && s.requests[id].Looking?
    case Checked(id, _) => id in s.requests && s.requests[id].Checking?
    case Fulfilled(id, _) => id in s.requests && s.requests[id].Fulfilling?
    case Finish(id) => id in s.requests && s.requests[id].Ending?
  }

  function Step(s: Kit, e: Event): Kit
    requires Enabled(s, e)
  {
    match e
    case Enter(id, player) =>
      if player in s.paying then s.(requests := s.requests[id := Done(Refused(StillChecking))])
      else s.(paying := s.paying + {player}, requests := s.requests[id := Looking(player)])
    case LookedUp(id, found) =>
      var player := s.requests[id].player;
      s.(requests := s.requests[id := if found.None? then Ending(player, Refused(NoPayment)) else Checking(player, found.value, 0)])
    case Checked(id, verdict) =>
      var Checking(player, hash, tries) := s.requests[id];
      if verdict == NotFoundYet && tries < RECEIPT_RETRIES then s.(requests := s.requests[id := Checking(player, hash, tries + 1)])
      else if verdict != Verified then s.(requests := s.requests[id := Ending(player, Refused(NotVerified))])
      else if PaymentKey(hash) in s.claims then s.(requests := s.requests[id := Ending(player, Refused(AlreadyAccepted))])
      else s.(claims := s.claims + {PaymentKey(hash)}, requests := s.requests[id := Fulfilling(player, hash)])
    case Fulfilled(id, ok) =>
      var Fulfilling(player, hash) := s.requests[id];
      if ok then s.(requests := s.requests[id := Ending(player, Accepted(hash))])
      else s.(claims := s.claims - {PaymentKey(hash)}, requests := s.requests[id := Ending(player, Refused(SiteFailed))])
    case Finish(id) =>
      var Ending(player, result) := s.requests[id];
      s.(paying := s.paying - {player}, requests := s.requests[id := Done(result)])
  }

  // ---------------------------------------------------------------------------------------------------------------
  // What every interleaving keeps.

  /** The key a request's claim holds: from the claim until its fulfilment fails, and for good once it succeeds. */
  function Held(phase: Phase): Option<string> {
    match phase
    case Fulfilling(_, hash) => Some(PaymentKey(hash))
    case Ending(_, Accepted(hash)) => Some(PaymentKey(hash))
    case Done(Accepted(hash)) => Some(PaymentKey(hash))
    case _ => None
  }

  /** The player a request has reserved. */
  function Reserved(phase: Phase): Option<string> {
    if phase.Done? then None else Some(phase.player)
  }

  function Holders(requests: map<nat, Phase>): map<nat, Option<string>> {
    map id | id in requests :: Held(requests[id])
  }

  function Reservers(requests: map<nat, Phase>): map<nat, Option<string>> {
    map id | id in requests :: Reserved(requests[id])
  }

  /** The claims, and the players with a check running, are each held by exactly one request. */
  ghost predicate Inv(s: Kit) {
    Exact(Holders(s.requests), s.claims) && Exact(Reservers(s.requests), s.paying)
  }

  lemma ViewsUpdate(requests: map<nat, Phase>, id: nat, phase: Phase)
    ensures Holders(requests[id := phase]) == Holders(requests)[id := Held(phase)]
    ensures Reservers(requests[id := phase]) == Reservers(requests)[id := Reserved(phase)]
  {
  }

  /** One request changes phase, and the two sets follow what it holds. */
  lemma InvUpdate(s: Kit, id: nat, phase: Phase, claims: set<string>, paying: set<string>)
    requires Inv(s)
    requires Follows(if id in s.requests then Held(s.requests[id]) else None, Held(phase), s.claims, claims)
    requires Follows(if id in s.requests then Reserved(s.requests[id]) else None, Reserved(phase), s.paying, paying)
    ensures Inv(Kit(claims, paying, s.requests[id := phase]))
  {
    ExactUpdate(Holders(s.requests), s.claims, id, Held(phase), claims);
    ExactUpdate(Reservers(s.requests), s.paying, id, Reserved(phase), paying);
    ViewsUpdate(s.requests, id, phase);
  }

  /** The claim a fulfilling request holds is among the claims, and so is the player of a request among those paying. */
  lemma HeldIsTaken(s: Kit, id: nat)
    requires Inv(s) && id in s.requests
    ensures Held(s.requests[id]).Some? ==> Held(s.requests[id]).value in s.claims
    ensures Reserved(s.requests[id]).Some? ==> Reserved(s.requests[id]).value in s.paying
  {
    assert id in Holders(s.requests) && Holders(s.requests)[id] == Held(s.requests[id]);
    assert id in Reservers(s.requests) && Reservers(s.requests)[id] == Reserved(s.requests[id]);
  }

  /** What a step does: one request moves to its next phase, and the sets follow. */
  lemma StepFollows(s: Kit, e: Event)
    requires Enabled(s, e)
    ensures var t := Step(s, e);
            && e.id in t.requests && t == Kit(t.claims, t.paying, s.requests[e.id := t.requests[e.id]])
            && Follows(if e.id in s.requests then Held(s.requests[e.id]) else None, Held(t.requests[e.id]), s.claims, t.claims)
            && Follows(if e.id in s.requests then Reserved(s.requests[e.id]) else None, Reserved(t.requests[e.id]), s.paying, t.paying)
  {
  }

  lemma InvStep(s: Kit, e: Event)
    requires Inv(s) && Enabled(s, e)
    ensures Inv(Step(s, e))
  {
    var t := Step(s, e);
    StepFollows(s, e);
    InvUpdate(s, e.id, t.requests[e.id], t.claims, t.paying);
  }

  /** The kit after a history of events; an event that cannot happen is not part of any history. */
  ghost predicate IsHistory(states: seq<Kit>, events: seq<Event>) {
    && |states| == |events| + 1 && states[0] == EMPTY
    && forall i :: 0 <= i < |events| ==> Enabled(states[i], events[i]) && states[i + 1] == Step(states[i], events[i])
  }

  lemma {:induction false} Reachable(states: seq<Kit>, events: seq<Event>, n: nat)
    requires IsHistory(states, events) && n < |states|
    ensures Inv(states[n])
  {
    if n > 0 {
      Reachable(states, events, n - 1);
      InvStep(states[n - 1], events[n - 1]);
    }
  }

  /** In every reachable state, of two requests for one payment at most one is being fulfilled or has been accepted. */
  lemma FulfilledAtMostOnce(states: seq<Kit>, events: seq<Event>, n: nat, i: nat, j: nat, hashI: string, hashJ: string)
    requires IsHistory(states, events) && n < |states| && i != j && i in states[n].requests && j in states[n].requests
    requires Held(states[n].requests[i]) == Some(PaymentKey(hashI)) && Held(states[n].requests[j]) == Some(PaymentKey(hashJ))
    ensures Lower(hashI) != Lower(hashJ)
  {
    Reachable(states, events, n);
    assert Holders(states[n].requests)[i] != Holders(states[n].requests)[j];
  }

  /** In every reachable state a player has at most one request in progress. */
  lemma OneCheckPerPlayer(states: seq<Kit>, events: seq<Event>, n: nat, i: nat, j: nat)
    requires IsHistory(states, events) && n < |states| && i != j && i in states[n].requests && j in states[n].requests
    requires !states[n].requests[i].Done? && !states[n].requests[j].Done?
    ensures states[n].requests[i].player != states[n].requests[j].player
  {
    Reachable(states, events, n);
    assert Reservers(states[n].requests)[i] != Reservers(states[n].requests)[j];
  }

  /** An accepted payment is accepted for good: no later request for it is ever fulfilled. */
  lemma {:induction false} AcceptedForGood(states: seq<Kit>, events: seq<Event>, n: nat, m: nat, i: nat, j: nat, hash: string, again: string)
    requires IsHistory(states, events) && n <= m < |states| && i != j
    requires i in states[n].requests && states[n].requests[i] == Done(Accepted(hash))
    requires j in states[m].requests && Lower(again) == Lower(hash)
    ensures i in states[m].requests && states[m].requests[i] == Done(Accepted(hash))
    ensures Held(states[m].requests[j]) != Some(PaymentKey(again))
  {
    DoneStays(states, events, n, m, i);
    Reachable(states, events, m);
    assert Holders(states[m].requests)[i] == Some(PaymentKey(hash)) && Holders(states[m].requests)[i] != Holders(states[m].requests)[j];
  }

  lemma {:induction false} DoneStays(states: seq<Kit>, events: seq<Event>, n: nat, m: nat, i: nat)
    requires IsHistory(states, events) && n <= m < |states|
    requires i in states[n].requests && states[n].requests[i].Done?
    ensures i in states[m].requests && states[m].requests[i] == states[n].requests[i]
  {
    if n < m {
      DoneStays(states, events, n, m - 1, i);
    }
  }

  /** No step of one request touches the claim or the reservation of another. */
  lemma OthersKeepTheirClaims(s: Kit, e: Event, other: nat)
    requires Inv(s) && Enabled(s, e) && other in s.requests && other != e.id
    ensures var t := Step(s, e);
            && other in t.requests && t.requests[other] == s.requests[other]
            && (Held(s.requests[other]).Some? ==> Held(s.requests[other]).value in t.claims)
            && (Reserved(s.requests[other]).Some? ==> Reserved(s.requests[other]).value in t.paying)
  {
    InvStep(s, e);
    StepFollows(s, e);
    HeldIsTaken(Step(s, e), other);
  }

  /** A verified payment is turned away exactly while another request fulfils it, or after one was accepted for it. */
  lemma RefusedOnlyWhenTaken(states: seq<Kit>, events: seq<Event>, n: nat, id: nat)
    requires IsHistory(states, events) && n < |states| && Enabled(states[n], Checked(id, Verified))
    ensures var s := states[n];
            Step(s, Checked(id, Verified)).requests[id].Fulfilling? <==>
            !exists other :: other in s.requests && Held(s.requests[other]) == Some(PaymentKey(s.requests[id].hash))
  {
    Reachable(states, events, n);
    var s := states[n];
    var key := PaymentKey(s.requests[id].hash);
    if key in s.claims {
      var other :| other in Holders(s.requests) && Holders(s.requests)[other] == Some(key);
      assert other in s.requests && Held(s.requests[other]) == Some(key);
    } else {
      forall other | other in s.requests ensures Held(s.requests[other]) != Some(key) {
        assert other in Holders(s.requests);
      }
    }
  }

  /** When the site fails to fulfil a payment it stays the player's: the next request for it can be fulfilled. */
  lemma FailureReleases(s: Kit, id: nat, other: nat)
    requires Inv(s) && Enabled(s, Fulfilled(id, false)) && other != id
    requires other in s.requests && s.requests[other].Checking? && Lower(s.requests[other].hash) == Lower(s.requests[id].hash)
    ensures var t := Step(s, Fulfilled(id, false));
            Enabled(t, Checked(other, Verified)) && Step(t, Checked(other, Verified)).requests[other].Fulfilling?
  {
  }

  // ---------------------------------------------------------------------------------------------------------------
  // The route itself, over the default store.

  class PaymentRoute {
    const store: KitStore.MemoryStore
    var paying: set<string>
    var requests: map<nat, Phase>

    ghost function Abs(): Kit
      reads this, store
    {
      Kit((set key | key in store.all && IsPaymentKey(key)), paying, requests)
    }

    /** Payment claims are kept for good: they have no end. */
    ghost predicate Valid()
      reads this, store
    {
      store.Valid() && forall key <- store.all :: IsPaymentKey(key) ==> store.all[key].Never?
    }

    constructor ()
      ensures Valid() && fresh(store) && Abs() == EMPTY
    {
      store := new KitStore.MemoryStore();
      paying, requests := {}, map[];
    }

    method EnterRequest(id: nat, player: string)
      requires Valid() && Enabled(Abs(), Enter(id, player))
      modifies this
      ensures Valid() && Abs() == Step(old(Abs()), Enter(id, player))
    {
      if player in paying {
        requests := requests[id := Done(Refused(StillChecking))];
        return;
      }
      paying := paying + {player};
      requests := requests[id := Looking(player)];
    }

    method LookUp(id: nat, found: Option<string>)
      requires Valid() && Enabled(Abs(), LookedUp(id, found))
      modifies this
      ensures Valid() && Abs() == Step(old(Abs()), LookedUp(id, found))
    {
      var player := requests[id].player;
      requests := requests[id := if found.None? then Ending(player, Refused(NoPayment)) else Checking(player, found.value, 0)];
    }

    method Check(id: nat, verdict: Verdict, now: nat)
      requires Valid() && store.last <= now && Enabled(Abs(), Checked(id, verdict))
      modifies this, store
      ensures Valid() && Abs() == Step(old(Abs()), Checked(id, verdict))
    {
      var Checking(player, hash, tries) := requests[id];
      if verdict == NotFoundYet && tries < RECEIPT_RETRIES {
        requests := requests[id := Checking(player, hash, tries + 1)];
        return;
      }
      if verdict != Verified {
        requests := requests[id := Ending(player, Refused(NotVerified))];
        return;
      }
      var claimed := store.Claim(PaymentKey(hash), None, now);
      if claimed {
        requests := requests[id := Fulfilling(player, hash)];
      } else {
        requests := requests[id := Ending(player, Refused(AlreadyAccepted))];
      }
    }

    method Fulfil(id: nat, ok: bool, now: nat)
      requires Valid() && store.last <= now && Enabled(Abs(), Fulfilled(id, ok))
      modifies this, store
      ensures Valid() && Abs() == Step(old(Abs()), Fulfilled(id, ok))
    {
      var Fulfilling(player, hash) := requests[id];
      if ok {
        requests := requests[id := Ending(player, Accepted(hash))];
      } else {
        store.Release(PaymentKey(hash), now);
        requests := requests[id := Ending(player, Refused(SiteFailed))];
      }
    }

    method FinishRequest(id: nat)
      requires Valid() && Enabled(Abs(), Finish(id))
      modifies this
      ensures Valid() && Abs() == Step(old(Abs()), Finish(id))
    {
      var Ending(player, result) := requests[id];
      paying := paying - {player};
      requests := requests[id := Done(result)];
    }
  }
}
