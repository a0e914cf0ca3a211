/** The chunks and styles a prerendered docs page needs (client/src/docs/prerender.tsx). */
module ImportWalk {
  import opened Primitives

  datatype Chunk = Chunk(
    file: string,
    css: seq<string>,
    imports: seq<string>,
    dynamicImports: seq<string>,
    isEntry: bool)

  /** The build manifest: its chunks, and their keys in the order JSON lists them. */
  datatype Manifest = Manifest(chunks: map<string, Chunk>, order: seq<string>)

  ghost predicate IsManifest(m: Manifest) {
    (forall key :: key in m.chunks <==> key in m.order) && NoDuplicates(m.order)
  }

  ghost predicate NoDuplicates<T(!new)>(s: seq<T>) {
    forall i, j :: 0 <= i < j < |s| ==> s[i] != s[j]
  }

  ghost function Members(s: seq<string>): set<string> {
    set k | k in s
  }

  /** A path of imports from `key` to `target`. */
  ghost predicate IsPath(chunks: map<string, Chunk>, path: seq<string>, key: string, target: string) {
    && |path| > 0 && path[0] == key && path[|path| - 1] == target
    && forall i :: 0 <= i < |path| - 1 ==> path[i] in chunks && path[i + 1] in chunks[path[i]].imports
  }

  ghost predicate Reaches(chunks: map<string, Chunk>, key: string, target: string) {
    exists path :: IsPath(chunks, path, key, target)
  }

  lemma ReachesSelf(chunks: map<string, Chunk>, key: string)
    ensures Reaches(chunks, key, key)
  {
    assert IsPath(chunks, [key], key, key);
  }

  lemma ReachesThrough(chunks: map<string, Chunk>, key: string, next: string, target: string)
    requires key in chunks && next in chunks[key].imports && Reaches(chunks, next, target)
    ensures Reaches(chunks, key, target)
  {
    var path :| IsPath(chunks, path, next, target);
    assert IsPath(chunks, [key] + path, key, target);
  }

  /** Every import of a key in `keys` is in `keys`, except for keys still being expanded (`open`). */
  ghost predicate ClosedBut(chunks: map<string, Chunk>, keys: seq<string>, open: set<string>) {
    forall key :: key in keys && key !in open ==> key in chunks && forall d <- chunks[key].imports :: d in keys
  }

  /** A set of keys closed under imports holds everything its keys reach. */
  lemma {:induction false} ClosedHoldsReachable(chunks: map<string, Chunk>, keys: seq<string>, path: seq<string>, key: string, target: string)
    requires ClosedBut(chunks, keys, {}) && key in keys && IsPath(chunks, path, key, target)
    ensures target in keys
    decreases |path|
  {
    if |path| > 1 {
      assert path[1] in chunks[path[0]].imports;
      ClosedHoldsReachable(chunks, keys, path[1..], path[1], target);
    }
  }

  /** The keys after a visit, in order: each key before what it imports, imports in the order they are listed, none twice. */
  ghost function Visit(chunks: map<string, Chunk>, key: string, into: seq<string>): (r: Option<seq<string>>)
    ensures r.Some? ==> into <= r.value
    decreases chunks.Keys - Members(into), 1, 0
  {
    if key in into then Some(into)
    else if key !in chunks then None
    else
      assert key in Members(into + [key]) && forall k <- into :: k in Members(into + [key]);
      assert chunks.Keys - Members(into + [key]) < chunks.Keys - Members(into) by {
        assert key in chunks.Keys - Members(into);
      }
      VisitAll(chunks, chunks[key].imports, into + [key])
  }

  ghost function VisitAll(chunks: map<string, Chunk>, keys: seq<string>, into: seq<string>): (r: Option<seq<string>>)
    ensures r.Some? ==> into <= r.value
    decreases chunks.Keys - Members(into), 2, |keys|
  {
    if keys == [] then Some(into)
    else
      var first := Visit(chunks, keys[0], into);
      if first.None? then None
      else
        assert Members(into) <= Members(first.value) by {
          assert forall i :: 0 <= i < |into| ==> into[i] == first.value[i];
        }
        VisitAll(chunks, keys[1..], first.value)
  }

  /**
   * The recursive walk. `into` is the growing set (in the order its members were added); `open` are the keys whose
   * imports are still being walked. It fails exactly when it meets a key the manifest lacks, which `key` then reaches.
   */
  method Walk(chunks: map<string, Chunk>, key: string, into: seq<string>, ghost open: set<string>)
    returns (ok: bool, out: seq<string>)
    requires NoDuplicates(into) && (forall k <- into :: k in chunks) && ClosedBut(chunks, into, open)
    ensures NoDuplicates(out) && (forall k <- out :: k in chunks)
    ensures |out| >= |into| && out[..|into|] == into
    ensures forall k :: k in out && k !in into ==> Reaches(chunks, key, k)
    ensures ok ==> key in out && ClosedBut(chunks, out, open)
    ensures !ok ==> exists k :: Reaches(chunks, key, k) && k !in chunks
    ensures Visit(chunks, key, into) == if ok then Some(out) else None
    decreases chunks.Keys - Members(into)
  {
    VisitOpens(chunks, key, into);
    hide Reaches, Visit, VisitAll;
    if key in into { return true, into; }
    ReachesSelf(chunks, key);
    if key !in chunks { return false, into; }
    out := into + [key];
    assert key in out;
    var imports := chunks[key].imports;
    for i := 0 to |imports|
      invariant NoDuplicates(out) && (forall k <- out :: k in chunks)
      invariant |out| > |into| && out[..|into|] == into && key in out
      invariant forall k :: k in out && k !in into ==> Reaches(chunks, key, k)
      invariant ClosedBut(chunks, out, open + {key})
      invariant forall j :: 0 <= j < i ==> imports[j] in out
      invariant Visit(chunks, key, into) == VisitAll(chunks, imports[i..], out)
    {
      ghost var before := out;
      VisitsOneMore(chunks, imports, i, out);
      assert forall k <- into :: k in before by {
        assert forall j :: 0 <= j < |into| ==> into[j] == before[j];
      }
      assert chunks.Keys - Members(before) < chunks.Keys - Members(into) by {
        assert key in chunks.Keys - Members(into) && key in Members(before);
      }
      ok, out := Walk(chunks, imports[i], out, open + {key});
      forall k | k in out && k !in into ensures Reaches(chunks, key, k) {
        if k !in before { ReachesThrough(chunks, key, imports[i], k); }
      }
      assert out[..|into|] == before[..|into|];
      assert forall k <- before :: k in out by {
        assert forall j :: 0 <= j < |before| ==> before[j] == out[j];
      }
      if !ok {
        ghost var missing :| Reaches(chunks, imports[i], missing) && missing !in chunks;
        ReachesThrough(chunks, key, imports[i], missing);
        return false, out;
      }
    }
    ok := true;
    VisitsNoMore(chunks, imports, out);
  }

  lemma VisitOpens(chunks: map<string, Chunk>, key: string, into: seq<string>)
    ensures Visit(chunks, key, into)
            == if key in into then Some(into) else if key !in chunks then None else VisitAll(chunks, chunks[key].imports[0..], into + [key])
  {
    assert key in chunks ==> chunks[key].imports[0..] == chunks[key].imports;
  }

  lemma VisitsOneMore(chunks: map<string, Chunk>, imports: seq<string>, i: nat, into: seq<string>)
    requires i < |imports|
    ensures var first := Visit(chunks, imports[i], into);
            VisitAll(chunks, imports[i..], into) == if first.None? then None else VisitAll(chunks, imports[i + 1..], first.value)
  {
    assert imports[i..][1..] == imports[i + 1..];
  }

  lemma VisitsNoMore(chunks: map<string, Chunk>, imports: seq<string>, into: seq<string>)
    ensures VisitAll(chunks, imports[|imports|..], into) == Some(into)
  {
  }

  // ---------------------------------------------------------------------------------------------------------------
  // The assets of one page.

  datatype Assets = Assets(css: seq<string>, modules: seq<string>)

  /** The first key, in the manifest's order, whose chunk loads `page` dynamically. */
  function SiteOf(m: Manifest, page: string, from: nat): (site: Option<string>)
    requires from <= |m.order| && forall key <- m.order :: key in m.chunks
    ensures site.Some? ==> site.value in m.chunks && page in m.chunks[site.value].dynamicImports
    decreases |m.order| - from
  {
    if from == |m.order| then None
    else if page in m.chunks[m.order[from]].dynamicImports then Some(m.order[from])
    else SiteOf(m, page, from + 1)
  }

  /** That is the first key in order whose chunk loads the page, if any does. */
  lemma {:induction false} SiteIsTheFirst(m: Manifest, page: string, from: nat)
    requires from <= |m.order| && forall key <- m.order :: key in m.chunks
    ensures SiteOf(m, page, from).Some? <==> exists i :: from <= i < |m.order| && page in m.chunks[m.order[i]].dynamicImports
    ensures SiteOf(m, page, from).Some? ==>
              exists i :: from <= i < |m.order| && SiteOf(m, page, from).value == m.order[i]
                     && forall j :: from <= j < i ==> page !in m.chunks[m.order[j]].dynamicImports
    decreases |m.order| - from
  {
    if from < |m.order| {
      SiteIsTheFirst(m, page, from + 1);
    }
  }

  /** The stylesheets of `keys`, in order. */
  function CssOf(chunks: map<string, Chunk>, keys: seq<string>): (css: seq<string>)
    requires forall key <- keys :: key in chunks
    ensures forall file :: file in css <==> exists key :: key in keys && file in chunks[key].css
  {
    if keys == [] then []
    else
      assert keys == [keys[0]] + keys[1..];
      chunks[keys[0]].css + CssOf(chunks, keys[1..])
  }

  /** The stylesheets come in the order of their chunks, and in a chunk as it lists them. */
  lemma {:induction false} StylesInOrder(chunks: map<string, Chunk>, keys: seq<string>, more: seq<string>)
    requires (forall key <- keys :: key in chunks) && (forall key <- more :: key in chunks)
    ensures CssOf(chunks, keys + more) == CssOf(chunks, keys) + CssOf(chunks, more)
  {
    if keys != [] {
      assert (keys + more)[0] == keys[0] && (keys + more)[1..] == keys[1..] + more;
      StylesInOrder(chunks, keys[1..], more);
      assert CssOf(chunks, keys + more) == chunks[keys[0]].css + CssOf(chunks, keys[1..] + more);
      assert CssOf(chunks, keys) == chunks[keys[0]].css + CssOf(chunks, keys[1..]);
      hide CssOf;
    } else {
      assert keys + more == more;
    }
  }

  lemma StylesOfOne(chunks: map<string, Chunk>, key: string)
    requires key in chunks
    ensures CssOf(chunks, [key]) == chunks[key].css
  {
    assert [key][1..] == [] && CssOf(chunks, []) == [];
  }

  /** The members of `part` come in the order in which `whole` first has them. */
  ghost predicate InOrderOf(part: seq<string>, whole: seq<string>) {
    && (forall x <- part :: x in whole)
    && forall i, j :: 0 <= i < j < |part| && part[i] in whole && part[j] in whole ==> FirstAt(whole, part[i]) < FirstAt(whole, part[j])
  }

  ghost function FirstAt(s: seq<string>, x: string): (i: nat)
    requires x in s
    ensures i < |s| && s[i] == x && forall j :: 0 <= j < i ==> s[j] != x
  {
    if s[0] == x then 0 else FirstAt(s[1..], x) + 1
  }

  /** A JavaScript Set's view of a list: each member once, where it first occurs. */
  function Distinct(s: seq<string>): (d: seq<string>)
    ensures NoDuplicates(d) && forall x :: x in d <==> x in s
  {
    if s == [] then []
    else
      assert s == s[..|s| - 1] + [s[|s| - 1]];
      var rest := Distinct(s[..|s| - 1]);
      if s[|s| - 1] in rest then rest else rest + [s[|s| - 1]]
  }

  function Without(s: seq<string>, excluded: seq<string>): (r: seq<string>)
    ensures forall x :: x in r <==> x in s && x !in excluded
    ensures NoDuplicates(s) ==> NoDuplicates(r)
  {
    if s == [] then []
    else
      assert s == s[..|s| - 1] + [s[|s| - 1]];
      var rest := Without(s[..|s| - 1], excluded);
      if s[|s| - 1] in excluded then rest else rest + [s[|s| - 1]]
  }

  lemma FirstAtLater(s: seq<string>, more: string, x: string)
    requires x in s + [more]
    ensures x in s ==> FirstAt(s + [more], x) == FirstAt(s, x)
    ensures x !in s ==> FirstAt(s + [more], x) == |s|
  {
    var t := s + [more];
    var i := FirstAt(t, x);
    if x in s {
      assert t[FirstAt(s, x)] == x;
      assert i < |s| ==> s[i] == t[i];
    }
  }

  lemma OrderGrows(part: seq<string>, rest: seq<string>, last: string)
    requires InOrderOf(part, rest)
    ensures InOrderOf(part, rest + [last])
    ensures last !in rest ==> InOrderOf(part + [last], rest + [last])
  {
    forall x | x in rest + [last] ensures x in rest ==> FirstAt(rest + [last], x) == FirstAt(rest, x) < |rest| {
      FirstAtLater(rest, last, x);
    }
    if last !in rest {
      FirstAtLater(rest, last, last);
    }
  }

  lemma {:induction false} DistinctKeepsOrder(s: seq<string>)
    ensures InOrderOf(Distinct(s), s)
  {
    if s != [] {
      var rest, last := s[..|s| - 1], s[|s| - 1];
      DistinctKeepsOrder(rest);
      OrderGrows(Distinct(rest), rest, last);
      assert s == rest + [last];
      hide InOrderOf;
    }
  }

  lemma {:induction false} WithoutKeepsOrder(s: seq<string>, excluded: seq<string>)
    requires NoDuplicates(s)
    ensures InOrderOf(Without(s, excluded), s)
  {
    if s != [] {
      var rest, last := s[..|s| - 1], s[|s| - 1];
      WithoutKeepsOrder(rest, excluded);
      OrderGrows(Without(rest, excluded), rest, last);
      assert s == rest + [last];
      hide InOrderOf;
    }
  }

  /** Order is kept through two choices. */
  lemma OrderOfOrder(part: seq<string>, middle: seq<string>, whole: seq<string>)
    requires InOrderOf(part, middle) && InOrderOf(middle, whole)
    ensures InOrderOf(part, whole)
  {
    forall i, j | 0 <= i < j < |part| && part[i] in whole && part[j] in whole
      ensures FirstAt(whole, part[i]) < FirstAt(whole, part[j])
    {
      var a, b := FirstAt(middle, part[i]), FirstAt(middle, part[j]);
      assert middle[a] == part[i] && middle[b] == part[j];
    }
  }

  function Hrefs(files: seq<string>): (r: seq<string>)
    ensures |r| == |files| && forall i :: 0 <= i < |files| ==> r[i] == "/" + files[i]
  {
    if files == [] then [] else ["/" + files[0]] + Hrefs(files[1..])
  }

  function Files(chunks: map<string, Chunk>, keys: seq<string>): (r: seq<string>)
    requires forall key <- keys :: key in chunks
    ensures |r| == |keys| && forall i :: 0 <= i < |keys| ==> r[i] == chunks[keys[i]].file
  {
    if keys == [] then [] else [chunks[keys[0]].file] + Files(chunks, keys[1..])
  }

  /** `key` is loaded by index.html: some entry reaches it. */
  ghost predicate FromEntry(m: Manifest, key: string) {
    exists entry :: entry in m.chunks && m.chunks[entry].isEntry && Reaches(m.chunks, entry, key)
  }

  /** The page's site chunk or the page itself reaches `key`. */
  ghost predicate FromPage(m: Manifest, page: string, key: string)
    requires IsManifest(m)
  {
    (SiteOf(m, page, 0).Some? && Reaches(m.chunks, SiteOf(m, page, 0).value, key)) || Reaches(m.chunks, page, key)
  }

  /** What the page's build needs and the manifest lacks. */
  ghost predicate Lacks(m: Manifest, page: string)
    requires IsManifest(m)
  {
    || SiteOf(m, page, 0).None?
    || exists key :: key !in m.chunks && (FromEntry(m, key) || FromPage(m, page, key))
  }

  /** What the page needs, in the order it is found: what its site imports, then what it imports itself. */
  ghost function Needed(m: Manifest, page: string): Option<seq<string>>
    requires IsManifest(m)
  {
    var site := SiteOf(m, page, 0);
    if site.None? then None
    else
      var first := Visit(m.chunks, site.value, []);
      if first.None? then None else Visit(m.chunks, page, first.value)
  }

  method WalkEntries(m: Manifest) returns (ok: bool, loaded: seq<string>)
    requires IsManifest(m)
    ensures ok ==> NoDuplicates(loaded) && (forall k <- loaded :: k in m.chunks) && forall k :: k in loaded <==> FromEntry(m, k)
    ensures !ok ==> exists key :: key !in m.chunks && FromEntry(m, key)
  {
    loaded := [];
    for i := 0 to |m.order|
      invariant NoDuplicates(loaded) && (forall k <- loaded :: k in m.chunks) && ClosedBut(m.chunks, loaded, {})
      invariant forall k <- loaded :: FromEntry(m, k)
      invariant forall j :: 0 <= j < i && m.chunks[m.order[j]].isEntry ==> m.order[j] in loaded
    {
      var key := m.order[i];
      if m.chunks[key].isEntry {
        ghost var before := loaded;
        ok, loaded := Walk(m.chunks, key, loaded, {});
        assert forall j :: 0 <= j < |before| ==> before[j] == loaded[..|before|][j];
        if !ok {
          ghost var missing :| Reaches(m.chunks, key, missing) && missing !in m.chunks;
          assert FromEntry(m, missing);
          return;
        }
      }
    }
    ok := true;
    forall k | FromEntry(m, k) ensures k in loaded {
      var entry :| entry in m.chunks && m.chunks[entry].isEntry && Reaches(m.chunks, entry, k);
      var path :| IsPath(m.chunks, path, entry, k);
      ClosedHoldsReachable(m.chunks, loaded, path, entry, k);
    }
  }

  method WalkPage(m: Manifest, site: string, page: string) returns (ok: bool, needed: seq<string>)
    requires IsManifest(m) && SiteOf(m, page, 0) == Some(site)
    ensures ok ==> NoDuplicates(needed) && (forall k <- needed :: k in m.chunks)
                   && forall k :: k in needed <==> FromPage(m, page, k)
    ensures !ok ==> exists key :: key !in m.chunks && FromPage(m, page, key)
    ensures ok ==> Needed(m, page) == Some(needed)
  {
    ok, needed := Walk(m.chunks, site, [], {});
    if !ok { return; }
    ghost var first := needed;
    ok, needed := Walk(m.chunks, page, needed, {});
    if !ok { return; }
    assert site in needed by {
      assert needed[..|first|] == first;
    }
    forall k | FromPage(m, page, k) ensures k in needed {
      if Reaches(m.chunks, page, k) {
        var path :| IsPath(m.chunks, path, page, k);
        ClosedHoldsReachable(m.chunks, needed, path, page, k);
      } else {
        var path :| IsPath(m.chunks, path, site, k);
        ClosedHoldsReachable(m.chunks, needed, path, site, k);
      }
    }
  }

  /**
   * The page's modules are exactly the chunks its site or its own source reaches and no entry does, each once, and its
   * styles exactly theirs less what index.html already loads. It fails exactly when a chunk it needs is missing.
   */
  method DocsAssets(m: Manifest, page: string) returns (r: Option<Assets>, ghost keys: seq<string>)
    requires IsManifest(m)
    ensures r.None? <==> Lacks(m, page)
    ensures r.Some? ==>
              && NoDuplicates(keys)
              && (forall k :: k in keys <==> FromPage(m, page, k) && !FromEntry(m, k))
              && (forall k <- keys :: k in m.chunks)
              && Needed(m, page).Some? && InOrderOf(keys, Needed(m, page).value)
              && r.value.modules == Hrefs(Files(m.chunks, keys))
              && NoDuplicates(r.value.css)
              && InOrderOf(r.value.css, Hrefs(CssOf(m.chunks, keys)))
              && forall file :: "/" + file in r.value.css <==>
                   && (exists k :: k in keys && file in m.chunks[k].css)
                   && !exists k :: k in m.chunks && FromEntry(m, k) && file in m.chunks[k].css
  {
    keys := [];
    var walked, loaded := WalkEntries(m);
    if !walked { return None, keys; }
    var site := SiteOf(m, page, 0);
    if site.None? { return None, keys; }
    var ok, needed := WalkPage(m, site.value, page);
    if !ok { return None, keys; }
    var own := Without(needed, loaded);
    keys := own;
    var css := Without(Distinct(CssOf(m.chunks, own)), CssOf(m.chunks, loaded));
    WithoutKeepsOrder(needed, loaded);
    WithoutKeepsOrder(Distinct(CssOf(m.chunks, own)), CssOf(m.chunks, loaded));
    DistinctKeepsOrder(CssOf(m.chunks, own));
    OrderOfOrder(css, Distinct(CssOf(m.chunks, own)), CssOf(m.chunks, own));
    HrefsMembers(css);
    HrefsKeepOrder(css, CssOf(m.chunks, own));
    r := Some(Assets(Hrefs(css), Hrefs(Files(m.chunks, own))));
  }

  lemma HrefsMembers(files: seq<string>)
    requires NoDuplicates(files)
    ensures NoDuplicates(Hrefs(files))
    ensures forall file :: "/" + file in Hrefs(files) <==> file in files
  {
    forall i, j | 0 <= i < j < |files| ensures Hrefs(files)[i] != Hrefs(files)[j] {
      assert Hrefs(files)[i][1..] == files[i] && Hrefs(files)[j][1..] == files[j];
    }
    forall file ensures "/" + file in Hrefs(files) <==> file in files {
      if "/" + file in Hrefs(files) {
        var i :| 0 <= i < |files| && Hrefs(files)[i] == "/" + file;
        assert ("/" + file)[1..] == file && ("/" + files[i])[1..] == files[i];
      }
      if file in files {
        var i :| 0 <= i < |files| && files[i] == file;
        assert Hrefs(files)[i] == "/" + file;
      }
    }
  }

  lemma HrefsKeepOrder(part: seq<string>, whole: seq<string>)
    requires InOrderOf(part, whole)
    ensures InOrderOf(Hrefs(part), Hrefs(whole))
  {
    forall i | 0 <= i < |part| ensures Hrefs(part)[i] in Hrefs(whole) && FirstAt(Hrefs(whole), Hrefs(part)[i]) == FirstAt(whole, part[i]) {
      HrefFirst(whole, part[i]);
    }
  }

  lemma HrefFirst(whole: seq<string>, x: string)
    requires x in whole
    ensures "/" + x in Hrefs(whole) && FirstAt(Hrefs(whole), "/" + x) == FirstAt(whole, x)
  {
    var i := FirstAt(whole, x);
    assert Hrefs(whole)[i] == "/" + x;
    forall j | 0 <= j < i ensures Hrefs(whole)[j] != "/" + x {
      assert Hrefs(whole)[j][1..] == whole[j] && ("/" + x)[1..] == x;
    }
  }
}
