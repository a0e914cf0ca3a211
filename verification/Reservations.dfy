/** Sets of reserved keys, each held by exactly one request: the shape of the server's in-progress sets. */
module Reservations {
  import opened Primitives

  /** `taken` is exactly what the holders hold, and no two hold the same key. */
  ghost predicate Exact(holders: map<nat, Option<string>>, taken: set<string>) {
    && (forall id <- holders :: holders[id].Some? ==> holders[id].value in taken)
    && (forall key <- taken :: exists id :: id in holders && holders[id] == Some(key))
    && (forall i, j :: i in holders && j in holders && i != j && holders[i].Some? ==> holders[i] != holders[j])
  }

  /** One holder takes a free key, gives its key back, or keeps things as they are; the set follows. */
  predicate Follows(was: Option<string>, now: Option<string>, taken: set<string>, after: set<string>) {
    || (now == was && after == taken)
    || (was.None? && now.Some? && now.value !in taken && after == taken + {now.value})
    || (was.Some? && now.None? && after == taken - {was.value})
  }

  lemma ExactUpdate(holders: map<nat, Option<string>>, taken: set<string>, id: nat, now: Option<string>, after: set<string>)
    requires Exact(holders, taken)
    requires Follows(if id in holders then holders[id] else None, now, taken, after)
    ensures Exact(holders[id := now], after)
  {
    var t := holders[id := now];
    assert id in t;
    forall key <- after ensures exists i :: i in t && t[i] == Some(key) {
      if key in taken {
        var i :| i in holders && holders[i] == Some(key);
        assert i in t && t[i] == Some(key);
      } else {
        assert t[id] == Some(key);
      }
    }
  }
}
