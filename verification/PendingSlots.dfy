/** The eight on-chain slots and the map of scheduled changes behind them, as one finite map of waiting changes. */
module PendingSlots {
  import opened Primitives
  import opened Changes
  import opened AccountSpec

  /** What the storage map reads at a key nobody wrote. */
  const EMPTY: Pending := Pending(0, ZERO_WORD, 0, 0)

  function Read(table: map<B256, Pending>, id: B256): Pending {
    if id in table then table[id] else EMPTY
  }

  /** The changes that wait: the entries with a non-zero eta. */
  function Live(table: map<B256, Pending>): map<B256, Pending> {
    map id | id in table && table[id].eta != 0 :: table[id]
  }

  /** The non-zero slots are distinct and are exactly the ids with a non-zero eta. */
  ghost predicate Tracks(slots: seq<B256>, live: map<B256, Pending>) {
    && |slots| == MAX_PENDING
    && (forall i, j :: 0 <= i < j < |slots| && slots[i] != ZERO_WORD ==> slots[i] != slots[j])
    && (forall id :: id in live <==> id in slots && id != ZERO_WORD)
  }

  function Occupied(slots: seq<B256>): set<B256> {
    set id | id in slots && id != ZERO_WORD
  }

  /** Distinct slots hold as many ids as there are slots exactly when none is free. */
  lemma {:induction false} OccupiedSize(slots: seq<B256>)
    requires forall i, j :: 0 <= i < j < |slots| && slots[i] != ZERO_WORD ==> slots[i] != slots[j]
    ensures |Occupied(slots)| <= |slots|
    ensures |Occupied(slots)| == |slots| <==> ZERO_WORD !in slots
  {
    if slots != [] {
      var rest := slots[..|slots| - 1];
      var last := slots[|slots| - 1];
      OccupiedSize(rest);
      assert slots == rest + [last];
      assert Occupied(slots) == Occupied(rest) + (if last == ZERO_WORD then {} else {last});
    }
  }

  /** At most eight changes wait, and eight wait exactly when no slot is free. */
  lemma TableIsFullAtEight(slots: seq<B256>, live: map<B256, Pending>)
    requires Tracks(slots, live)
    ensures |live| <= MAX_PENDING
    ensures |live| == MAX_PENDING <==> ZERO_WORD !in slots
  {
    OccupiedSize(slots);
    assert live.Keys == Occupied(slots);
  }

  /** Filling a free slot with a new id, once its entry is written, is insertion. */
  lemma TrackIsInsert(slots: seq<B256>, table: map<B256, Pending>, k: nat, id: B256, p: Pending)
    requires Tracks(slots, Live(table)) && k < |slots| && slots[k] == ZERO_WORD
    requires id != ZERO_WORD && id !in Live(table) && p.eta != 0
    ensures Live(table[id := p]) == Live(table)[id := p]
    ensures Tracks(slots[k := id], Live(table[id := p]))
  {
    var after := slots[k := id];
    assert after[k] == id;
    forall other ensures other in Live(table)[id := p] <==> other in after && other != ZERO_WORD {
      if other in slots && other != ZERO_WORD && other != id {
        var i :| 0 <= i < |slots| && slots[i] == other;
        assert after[i] == other;
      }
    }
  }

  /** Emptying an entry and the slot that holds its id is removal. */
  lemma ClearIsRemove(slots: seq<B256>, table: map<B256, Pending>, k: nat, id: B256)
    requires Tracks(slots, Live(table)) && k < |slots| && slots[k] == id && id != ZERO_WORD
    ensures Live(table[id := EMPTY]) == Live(table) - {id}
    ensures Tracks(slots[k := ZERO_WORD], Live(table[id := EMPTY]))
  {
    var after := slots[k := ZERO_WORD];
    forall other ensures other in Live(table) - {id} <==> other in after && other != ZERO_WORD {
      if other in slots && other != ZERO_WORD && other != id {
        var i :| 0 <= i < |slots| && slots[i] == other;
        assert after[i] == other;
      }
    }
  }

  /** The waiting changes after the first `n` slots of `slots` were cancelled (unless kept). */
  ghost function Cancelled(live: map<B256, Pending>, slots: seq<B256>, n: nat, keep: bool): map<B256, Pending>
    requires n <= |slots|
  {
    map id | id in live && (id !in slots[..n] || (keep && live[id].kind == SET_GUARDIAN)) :: live[id]
  }

  lemma CancelledStep(live: map<B256, Pending>, slots: seq<B256>, n: nat, keep: bool)
    requires Tracks(slots, live) && n < |slots|
    ensures var id := slots[n];
            Cancelled(live, slots, n + 1, keep)
            == if id == ZERO_WORD || (keep && id in live && live[id].kind == SET_GUARDIAN) then Cancelled(live, slots, n, keep)
               else Cancelled(live, slots, n, keep) - {id}
  {
    assert slots[..n + 1] == slots[..n] + [slots[n]];
  }

  lemma CancelledAll(live: map<B256, Pending>, slots: seq<B256>, keep: bool)
    requires Tracks(slots, live)
    ensures Cancelled(live, slots, 0, keep) == live
    ensures Cancelled(live, slots, |slots|, keep) == Kept(live, keep)
  {
    assert slots[..|slots|] == slots;
  }

  /** The removals among the first `n` slots, counted slot by slot. */
  ghost function RemovalsIn(slots: seq<B256>, live: map<B256, Pending>): set<B256> {
    set id | id in slots && id in live && live[id].kind == REMOVE_OWNER
  }

  lemma RemovalsInStep(slots: seq<B256>, live: map<B256, Pending>, n: nat)
    requires Tracks(slots, live) && n < |slots|
    ensures |RemovalsIn(slots[..n + 1], live)|
            == |RemovalsIn(slots[..n], live)| + (if slots[n] in live && live[slots[n]].kind == REMOVE_OWNER then 1 else 0)
  {
    assert slots[..n + 1] == slots[..n] + [slots[n]];
    assert slots[n] != ZERO_WORD ==> slots[n] !in slots[..n];
    assert RemovalsIn(slots[..n + 1], live)
        == RemovalsIn(slots[..n], live) + (if slots[n] in live && live[slots[n]].kind == REMOVE_OWNER then {slots[n]} else {});
  }

  lemma RemovalsInAll(slots: seq<B256>, live: map<B256, Pending>)
    requires Tracks(slots, live)
    ensures RemovalsIn(slots[..|slots|], live) == Removals(live)
  {
    assert slots[..|slots|] == slots;
  }
}
