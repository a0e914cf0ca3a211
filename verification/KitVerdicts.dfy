/** What a payment request was told, and what came of it, in every interleaving (packages/sdk/src/server.ts). */
module KitVerdicts {
  import opened Primitives
  import opened Reservations
  import opened Text
  import opened KitPayments

  /** Among the first `n` events, request `id` was told that its payment verifies, while it was checking this hash and nobody held it. */
  ghost predicate WasVerified(states: seq<Kit>, events: seq<Event>, n: nat, id: nat, hash: string)
    requires n <= |events| <= |states|
  {
    exists k :: 0 <= k < n && VerifiedAt(states, events, k, id, hash)
  }

  ghost predicate VerifiedAt(states: seq<Kit>, events: seq<Event>, k: nat, id: nat, hash: string)
    requires k < |events| <= |states|
  {
    && events[k] == Checked(id, Verified)
    && id in states[k].requests && states[k].requests[id].Checking? && states[k].requests[id].hash == hash
    && PaymentKey(hash) !in states[k].claims
  }

  ghost predicate Happened(events: seq<Event>, n: nat, e: Event)
    requires n <= |events|
  {
    exists k :: 0 <= k < n && events[k] == e
  }

  /** How often request `id` was told that the node does not know its payment yet. */
  function NotFound(events: seq<Event>, n: nat, id: nat): nat
    requires n <= |events|
  {
    if n == 0 then 0 else NotFound(events, n - 1, id) + (if events[n - 1] == Checked(id, NotFoundYet) then 1 else 0)
  }

  /** How a request came to stand where it stands. */
  ghost predicate Story(states: seq<Kit>, events: seq<Event>, n: nat, id: nat)
    requires n <= |events| <= |states| && n < |states|
  {
    if id !in states[n].requests then NotFound(events, n, id) == 0
    else
      match states[n].requests[id]
      case Looking(player) => Happened(events, n, Enter(id, player)) && NotFound(events, n, id) == 0
      case Checking(player, hash, tries) =>
        && Happened(events, n, Enter(id, player)) && Happened(events, n, LookedUp(id, Some(hash)))
        && tries == NotFound(events, n, id) <= 5
      case Fulfilling(player, hash) =>
        Happened(events, n, Enter(id, player)) && Happened(events, n, LookedUp(id, Some(hash))) && WasVerified(states, events, n, id, hash)
      case Ending(player, result) => Happened(events, n, Enter(id, player)) && Earned(states, events, n, id, result)
      case Done(result) => Earned(states, events, n, id, result)
  }

  /** An accepted payment was looked up, verified, and then fulfilled. */
  ghost predicate Earned(states: seq<Kit>, events: seq<Event>, n: nat, id: nat, result: KitPayments.Result)
    requires n <= |events| <= |states|
  {
    result.Accepted? ==>
      && Happened(events, n, LookedUp(id, Some(result.hash)))
      && WasVerified(states, events, n, id, result.hash)
      && Happened(events, n, Fulfilled(id, true))
  }

  lemma HappenedLater(events: seq<Event>, n: nat, e: Event)
    requires n < |events|
    ensures Happened(events, n, e) ==> Happened(events, n + 1, e)
    ensures Happened(events, n + 1, events[n])
  {
  }

  lemma VerifiedLater(states: seq<Kit>, events: seq<Event>, n: nat, id: nat, hash: string)
    requires n < |events| <= |states|
    ensures WasVerified(states, events, n, id, hash) ==> WasVerified(states, events, n + 1, id, hash)
    ensures VerifiedAt(states, events, n, id, hash) ==> WasVerified(states, events, n + 1, id, hash)
  {
  }

  lemma OwnStep(states: seq<Kit>, events: seq<Event>, n: nat, id: nat)
    requires n < |events| && |states| == |events| + 1 && Enabled(states[n], events[n]) && states[n + 1] == Step(states[n], events[n])
    requires Story(states, events, n, id) && events[n].id == id
    ensures Story(states, events, n + 1, id)
  {
    HappenedLater(events, n, events[n]);
    if id in states[n].requests && !states[n].requests[id].Done? {
      HappenedLater(events, n, Enter(id, states[n].requests[id].player));
      if states[n].requests[id].Checking? || states[n].requests[id].Fulfilling? {
        HappenedLater(events, n, LookedUp(id, Some(states[n].requests[id].hash)));
        VerifiedLater(states, events, n, id, states[n].requests[id].hash);
      } else if states[n].requests[id].Ending? && states[n].requests[id].result.Accepted? {
        HappenedLater(events, n, LookedUp(id, Some(states[n].requests[id].result.hash)));
        HappenedLater(events, n, Fulfilled(id, true));
        VerifiedLater(states, events, n, id, states[n].requests[id].result.hash);
      }
    }
    hide WasVerified, Happened;
  }

  lemma OthersStep(states: seq<Kit>, events: seq<Event>, n: nat, id: nat)
    requires n < |events| && |states| == |events| + 1 && Enabled(states[n], events[n]) && states[n + 1] == Step(states[n], events[n])
    requires Story(states, events, n, id) && events[n].id != id
    ensures Story(states, events, n + 1, id)
  {
    StepFollows(states[n], events[n]);
    if id in states[n].requests {
      var phase := states[n].requests[id];
      if !phase.Done? {
        HappenedLater(events, n, Enter(id, phase.player));
      }
      if phase.Checking? || phase.Fulfilling? {
        HappenedLater(events, n, LookedUp(id, Some(phase.hash)));
        VerifiedLater(states, events, n, id, phase.hash);
      } else if (phase.Ending? || phase.Done?) && phase.result.Accepted? {
        HappenedLater(events, n, LookedUp(id, Some(phase.result.hash)));
        HappenedLater(events, n, Fulfilled(id, true));
        VerifiedLater(states, events, n, id, phase.result.hash);
      }
    }
    hide WasVerified, Happened, Step;
  }

  lemma {:induction false} EveryRequestHasItsStory(states: seq<Kit>, events: seq<Event>, n: nat, id: nat)
    requires IsHistory(states, events) && n < |states|
    ensures Story(states, events, n, id)
  {
    if n > 0 {
      EveryRequestHasItsStory(states, events, n - 1, id);
      if events[n - 1].id == id {
        OwnStep(states, events, n - 1, id);
      } else {
        OthersStep(states, events, n - 1, id);
      }
    }
  }

  /** Only a payment that verified, under the very hash that was looked up and checked, is ever being fulfilled or was accepted. */
  lemma OnlyVerifiedIsFulfilled(states: seq<Kit>, events: seq<Event>, n: nat, id: nat, hash: string)
    requires IsHistory(states, events) && n < |states| && id in states[n].requests
    requires var phase := states[n].requests[id];
             || (phase.Fulfilling? && phase.hash == hash)
             || ((phase.Ending? || phase.Done?) && phase.result == Accepted(hash))
    ensures Happened(events, n, LookedUp(id, Some(hash))) && WasVerified(states, events, n, id, hash)
    ensures !states[n].requests[id].Fulfilling? ==> Happened(events, n, Fulfilled(id, true))
  {
    EveryRequestHasItsStory(states, events, n, id);
  }

  /** Somebody in progress is this player's. */
  ghost predicate IsPaying(s: Kit, player: string) {
    exists other :: other in s.requests && !s.requests[other].Done? && s.requests[other].player == player
  }

  /** Some request is fulfilling this payment, or was accepted for it. */
  ghost predicate IsTaken(s: Kit, hash: string) {
    exists other :: other in s.requests && KitPayments.Held(s.requests[other]) == Some(PaymentKey(hash))
  }

  lemma TakenMeansClaimed(s: Kit, hash: string)
    requires Inv(s)
    ensures IsTaken(s, hash) <==> PaymentKey(hash) in s.claims
  {
    if PaymentKey(hash) in s.claims {
      var other :| other in Holders(s.requests) && Holders(s.requests)[other] == Some(PaymentKey(hash));
      assert other in s.requests && KitPayments.Held(s.requests[other]) == Some(PaymentKey(hash));
    }
    if IsTaken(s, hash) {
      var other :| other in s.requests && KitPayments.Held(s.requests[other]) == Some(PaymentKey(hash));
      HeldIsTaken(s, other);
    }
  }

  lemma PayingMeansReserved(s: Kit, player: string)
    requires Inv(s)
    ensures IsPaying(s, player) <==> player in s.paying
  {
    if player in s.paying {
      var other :| other in Reservers(s.requests) && Reservers(s.requests)[other] == Some(player);
      assert other in s.requests && !s.requests[other].Done? && s.requests[other].player == player;
    }
    if IsPaying(s, player) {
      var other :| other in s.requests && !s.requests[other].Done? && s.requests[other].player == player;
      HeldIsTaken(s, other);
    }
  }

  /**
   * What each verdict does, in every history: one that verifies is fulfilled unless its payment is taken; a rejected one is
   * refused; one not found yet is asked for again five times and then refused. Only a verified one claims anything.
   */
  lemma VerdictsDecide(states: seq<Kit>, events: seq<Event>, n: nat, id: nat, verdict: Verdict)
    requires IsHistory(states, events) && n < |events| && events[n] == Checked(id, verdict)
    ensures id in states[n].requests && states[n].requests[id].Checking?
    ensures var player, hash := states[n].requests[id].player, states[n].requests[id].hash;
            var phase := states[n + 1].requests[id];
            match verdict
            case Verified => phase == if IsTaken(states[n], hash) then Ending(player, Refused(AlreadyAccepted)) else Fulfilling(player, hash)
            case Rejected => phase == Ending(player, Refused(NotVerified)) && states[n + 1].claims == states[n].claims
            case NotFoundYet =>
              && states[n + 1].claims == states[n].claims
              && if NotFound(events, n, id) < 5 then phase == Checking(player, hash, NotFound(events, n, id) + 1)
                 else phase == Ending(player, Refused(NotVerified))
  {
    Reachable(states, events, n);
    EveryRequestHasItsStory(states, events, n, id);
    TakenMeansClaimed(states[n], states[n].requests[id].hash);
    hide Inv, IsTaken, Happened;
  }

  /** A player is turned away exactly while another request of theirs is in progress. */
  lemma TurnedAwayOnlyWhilePaying(states: seq<Kit>, events: seq<Event>, n: nat, id: nat, player: string)
    requires IsHistory(states, events) && n < |events| && events[n] == Enter(id, player)
    ensures states[n + 1].requests[id] == if IsPaying(states[n], player) then Done(Refused(StillChecking)) else Looking(player)
  {
    Reachable(states, events, n);
    PayingMeansReserved(states[n], player);
  }

  /** A payment that was found is checked next, from its first try; without one the request is refused. */
  lemma LookUpsDecide(states: seq<Kit>, events: seq<Event>, n: nat, id: nat, found: Option<string>)
    requires IsHistory(states, events) && n < |events| && events[n] == LookedUp(id, found)
    ensures id in states[n].requests && states[n].requests[id].Looking?
    ensures states[n + 1].requests[id]
            == if found.Some? then Checking(states[n].requests[id].player, found.value, 0) else Ending(states[n].requests[id].player, Refused(NoPayment))
  {
  }

  /** The site's answer decides: accepted with its payment kept for good, or refused with its payment free for another request. */
  lemma FulfilmentDecides(states: seq<Kit>, events: seq<Event>, n: nat, id: nat, ok: bool)
    requires IsHistory(states, events) && n < |events| && events[n] == Fulfilled(id, ok)
    ensures id in states[n].requests && states[n].requests[id].Fulfilling?
    ensures var player, hash := states[n].requests[id].player, states[n].requests[id].hash;
            && states[n + 1].requests[id] == Ending(player, if ok then Accepted(hash) else Refused(SiteFailed))
            && (IsTaken(states[n + 1], hash) <==> ok)
  {
    var hash := states[n].requests[id].hash;
    Reachable(states, events, n);
    Reachable(states, events, n + 1);
    HeldIsTaken(states[n], id);
    TakenMeansClaimed(states[n + 1], hash);
    hide Inv, IsTaken;
  }

  /** A request that ends keeps its answer and frees its player. */
  lemma EndsFreeThePlayer(states: seq<Kit>, events: seq<Event>, n: nat, id: nat)
    requires IsHistory(states, events) && n < |events| && events[n] == Finish(id)
    ensures id in states[n].requests && states[n].requests[id].Ending?
    ensures states[n + 1].requests[id] == Done(states[n].requests[id].result)
    ensures !IsPaying(states[n + 1], states[n].requests[id].player)
  {
    Reachable(states, events, n + 1);
    PayingMeansReserved(states[n + 1], states[n].requests[id].player);
  }
}
