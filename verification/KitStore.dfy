/** The kit's in-memory store of claims, and its pruning (packages/sdk/src/server.ts). */
module KitStore {
  import opened Primitives

  const PRUNE_ABOVE: nat := 10_000

  /** When a claim ends, in milliseconds; a claim without a time to live is kept for good. */
  datatype Expiry = At(ms: nat) | Never

  predicate After(expiry: Expiry, now: nat) {
    expiry.Never? || expiry.ms > now
  }

  /** `key` is claimed at `now`. */
  predicate Claimed(claims: map<string, Expiry>, key: string, now: nat) {
    key in claims && After(claims[key], now)
  }

  function ExpiryOf(ttlSeconds: Option<nat>, now: nat): Expiry {
    if ttlSeconds.None? then Never else At(now + ttlSeconds.value * 1000)
  }

  /** The claims after a `claim`, for a store that forgets nothing. */
  function Claiming(claims: map<string, Expiry>, key: string, ttlSeconds: Option<nat>, now: nat): map<string, Expiry> {
    if Claimed(claims, key, now) then claims else claims[key := ExpiryOf(ttlSeconds, now)]
  }

  /** `kept` is `all` without some claims that have ended by `now`. */
  ghost predicate PrunedFrom(kept: map<string, Expiry>, all: map<string, Expiry>, now: nat) {
    && (forall key <- kept :: key in all && all[key] == kept[key])
    && (forall key <- all :: Claimed(all, key, now) ==> key in kept)
  }

  class MemoryStore {
    var until: map<string, Expiry>
    /** The claims of a store that forgets nothing, and the time of the last call. */
    ghost var all: map<string, Expiry>
    ghost var last: nat

    ghost predicate Valid()
      reads this
    {
      PrunedFrom(until, all, last)
    }

    constructor ()
      ensures Valid() && all == map[] && last == 0
    {
      until, all, last := map[], map[], 0;
    }

    method Claim(key: string, ttlSeconds: Option<nat>, now: nat) returns (ok: bool)
      requires Valid() && last <= now
      modifies this
      ensures Valid() && last == now
      ensures ok <==> !Claimed(old(all), key, now)
      ensures all == Claiming(old(all), key, ttlSeconds, now)
    {
      last := now;
      if key in until && After(until[key], now) { return false; }
      until := until[key := ExpiryOf(ttlSeconds, now)];
      all := all[key := ExpiryOf(ttlSeconds, now)];
      if |until| > PRUNE_ABOVE {
        Prune(now);
      }
      return true;
    }

    method Prune(now: nat)
      requires Valid() && last == now
      modifies this`until
      ensures Valid()
      ensures forall key :: key in until <==> key in old(until) && After(old(until)[key], now)
    {
      var keys := until.Keys;
      while keys != {}
        invariant keys <= old(until.Keys)
        invariant forall key :: key in until <==> key in old(until) && (key in keys || After(old(until)[key], now))
        invariant forall key <- until :: until[key] == old(until)[key]
        decreases |keys|
      {
        var key :| key in keys;
        keys := keys - {key};
        if !After(until[key], now) {
          until := until - {key};
        }
      }
    }

    method Release(key: string, now: nat)
      requires Valid() && last <= now
      modifies this
      ensures Valid() && last == now
      ensures all == old(all) - {key}
    {
      last := now;
      until := until - {key};
      all := all - {key};
    }

    method Has(key: string, now: nat) returns (claimed: bool)
      requires Valid() && last <= now
      ensures claimed <==> Claimed(all, key, now)
    {
      claimed := key in until && After(until[key], now);
    }
  }

  // ---------------------------------------------------------------------------------------------------------------
  // Claims over a history of calls.

  datatype Op =
    | Claim(key: string, ttlSeconds: Option<nat>, now: nat)
    | Release(key: string, now: nat)
    | Has(key: string, now: nat)

  ghost predicate InOrder(ops: seq<Op>) {
    forall i, j :: 0 <= i <= j < |ops| ==> ops[i].now <= ops[j].now
  }

  /** The claims after the first `n` calls. */
  function ClaimsAfter(ops: seq<Op>, n: nat): map<string, Expiry>
    requires n <= |ops|
  {
    if n == 0 then map[]
    else
      match ops[n - 1]
      case Claim(key, ttl, now) => Claiming(ClaimsAfter(ops, n - 1), key, ttl, now)
      case Release(key, _) => ClaimsAfter(ops, n - 1) - {key}
      case Has(_, _) => ClaimsAfter(ops, n - 1)
  }

  /** Call `i` is a claim that is granted. */
  predicate Wins(ops: seq<Op>, i: nat)
    requires i < |ops|
  {
    ops[i].Claim? && !Claimed(ClaimsAfter(ops, i), ops[i].key, ops[i].now)
  }

  /** Whether call `i`, asking for `key`, finds it claimed. */
  predicate FindsClaimed(ops: seq<Op>, i: nat)
    requires i < |ops|
  {
    Claimed(ClaimsAfter(ops, i), ops[i].key, ops[i].now)
  }

  /** A granted claim that nobody releases is found by every call before it ends, and its entry is untouched until then. */
  lemma {:induction false} ClaimStands(ops: seq<Op>, i: nat, j: nat)
    requires InOrder(ops) && i < j < |ops| && Wins(ops, i)
    requires forall k :: i < k < j ==> ops[k] != Release(ops[i].key, ops[k].now)
    requires After(ExpiryOf(ops[i].ttlSeconds, ops[i].now), ops[j].now)
    ensures ops[i].key in ClaimsAfter(ops, j) && ClaimsAfter(ops, j)[ops[i].key] == ExpiryOf(ops[i].ttlSeconds, ops[i].now)
    ensures ops[j].key == ops[i].key ==> FindsClaimed(ops, j) && !Wins(ops, j)
  {
    if j > i + 1 {
      assert ops[j - 1].now <= ops[j].now;
      ClaimStands(ops, i, j - 1);
    }
  }
}
