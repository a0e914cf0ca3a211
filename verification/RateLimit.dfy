/** Fixed-window counters (server/rate-limit.ts). */
module RateLimit {
  import opened Primitives

  const SWEEP_AT: nat := 10_000

  datatype Window = Window(start: nat, count: nat)

  /** `key` has a window still open at `now`. */
  predicate Open(windows: map<string, Window>, windowMs: nat, key: string, now: nat) {
    key in windows && now - windows[key].start < windowMs
  }

  /** A limiter's answer to `key` asking for `weight` at `now`, if it never forgets a window. */
  predicate Grants(windows: map<string, Window>, limit: nat, windowMs: nat, key: string, weight: nat, now: nat) {
    if Open(windows, windowMs, key, now) then windows[key].count + weight <= limit else weight <= limit
  }

  /** The counters after that call, for a limiter that never forgets. */
  function Counted(windows: map<string, Window>, limit: nat, windowMs: nat, key: string, weight: nat, now: nat): map<string, Window> {
    if !Grants(windows, limit, windowMs, key, weight, now) then windows
    else if Open(windows, windowMs, key, now) then windows[key := Window(windows[key].start, windows[key].count + weight)]
    else windows[key := Window(now, weight)]
  }

  /** `swept` is `full` without some windows that have closed by `now`. */
  ghost predicate SweptFrom(swept: map<string, Window>, full: map<string, Window>, windowMs: nat, now: nat) {
    && (forall key <- swept :: key in full && full[key] == swept[key])
    && (forall key <- full :: Open(full, windowMs, key, now) ==> key in swept)
  }

  class RateLimiter {
    const limit: nat
    const windowMs: nat
    var windows: map<string, Window>
    /** The counters of a limiter that never forgets, and the time of the last call. */
    ghost var full: map<string, Window>
    ghost var last: nat

    ghost predicate Valid()
      reads this
    {
      SweptFrom(windows, full, windowMs, last)
    }

    /** Nobody has asked it yet. */
    ghost predicate IsNew(limit: nat, windowMs: nat)
      reads this
    {
      Valid() && full == map[] && last == 0 && this.limit == limit && this.windowMs == windowMs
    }

    constructor (limit: nat, windowMs: nat)
      ensures IsNew(limit, windowMs)
    {
      this.limit, this.windowMs := limit, windowMs;
      windows, full, last := map[], map[], 0;
    }

    /** The answer, and every later answer, is the one of a limiter that never forgets. */
    method Take(key: string, weight: nat, now: nat) returns (ok: bool)
      requires Valid() && last <= now
      modifies this
      ensures Valid() && last == now
      ensures ok == Grants(old(full), limit, windowMs, key, weight, now)
      ensures full == Counted(old(full), limit, windowMs, key, weight, now)
    {
      last := now;
      if key !in windows || now - windows[key].start >= windowMs {
        assert !Open(full, windowMs, key, now);
        if weight > limit { return false; }
        windows := windows[key := Window(now, weight)];
        full := full[key := Window(now, weight)];
        Sweep(now);
        return true;
      }
      var window := windows[key];
      assert full[key] == window;
      if window.count + weight > limit { return false; }
      windows := windows[key := Window(window.start, window.count + weight)];
      full := full[key := Window(window.start, window.count + weight)];
      return true;
    }

    /** Drops every closed window once there are many. */
    method Sweep(now: nat)
      requires Valid() && last == now
      modifies this`windows
      ensures Valid()
      ensures forall key :: key in windows <==>
                key in old(windows) && (|old(windows)| < SWEEP_AT || now - old(windows)[key].start < windowMs)
      ensures forall key <- windows :: windows[key] == old(windows)[key]
    {
      if |windows| < SWEEP_AT { return; }
      var keys := windows.Keys;
      while keys != {}
        invariant keys <= old(windows.Keys)
        invariant forall key :: key in windows <==> key in old(windows) && (key in keys || now - old(windows)[key].start < windowMs)
        invariant forall key <- windows :: windows[key] == old(windows)[key]
        decreases |keys|
      {
        var key :| key in keys;
        keys := keys - {key};
        if now - windows[key].start >= windowMs {
          windows := windows - {key};
        }
      }
    }
  }

  // ---------------------------------------------------------------------------------------------------------------
  // How much a limiter grants.

  datatype Request = Request(key: string, weight: nat, now: nat)

  ghost predicate InOrder(calls: seq<Request>) {
    forall i, j :: 0 <= i <= j < |calls| ==> calls[i].now <= calls[j].now
  }

  /** The counters after the first `n` calls. */
  function After(calls: seq<Request>, limit: nat, windowMs: nat, n: nat): map<string, Window>
    requires n <= |calls|
  {
    if n == 0 then map[]
    else Counted(After(calls, limit, windowMs, n - 1), limit, windowMs, calls[n - 1].key, calls[n - 1].weight, calls[n - 1].now)
  }

  /** What call `i` was granted. */
  function Granted(calls: seq<Request>, limit: nat, windowMs: nat, i: nat): nat
    requires i < |calls|
  {
    if Grants(After(calls, limit, windowMs, i), limit, windowMs, calls[i].key, calls[i].weight, calls[i].now) then calls[i].weight
    else 0
  }

  /** What `key` was granted in the interval of `windowMs` from `t`, over the first `n` calls. */
  function GrantedWithin(calls: seq<Request>, limit: nat, windowMs: nat, key: string, t: nat, n: nat): nat
    requires n <= |calls|
  {
    if n == 0 then 0
    else GrantedWithin(calls, limit, windowMs, key, t, n - 1)
         + (if calls[n - 1].key == key && t <= calls[n - 1].now < t + windowMs then Granted(calls, limit, windowMs, n - 1) else 0)
  }

  /** What the grants in the interval from `t` may be, given the key's current window. */
  ghost predicate WithinBound(windows: map<string, Window>, limit: nat, windowMs: nat, key: string, t: nat, sum: nat) {
    if key !in windows then sum == 0
    else
      var w := windows[key];
      && w.count <= limit
      && if w.start < t then sum <= w.count
         else if w.start < t + windowMs then sum <= limit + w.count
         else sum <= 2 * limit
  }

  lemma BoundStep(windows: map<string, Window>, limit: nat, windowMs: nat, key: string, t: nat, sum: nat, call: Request)
    requires WithinBound(windows, limit, windowMs, key, t, sum)
    requires call.now < t ==> sum == 0
    requires key in windows ==> windows[key].start <= call.now
    ensures var granted := if Grants(windows, limit, windowMs, call.key, call.weight, call.now) then call.weight else 0;
            var counts := call.key == key && t <= call.now < t + windowMs;
            WithinBound(Counted(windows, limit, windowMs, call.key, call.weight, call.now), limit, windowMs, key, t,
                        sum + (if counts then granted else 0))
  {
  }

  lemma {:induction false} BoundHolds(calls: seq<Request>, limit: nat, windowMs: nat, key: string, t: nat, n: nat)
    requires InOrder(calls) && n <= |calls|
    ensures WithinBound(After(calls, limit, windowMs, n), limit, windowMs, key, t, GrantedWithin(calls, limit, windowMs, key, t, n))
    ensures n > 0 && calls[n - 1].now < t ==> GrantedWithin(calls, limit, windowMs, key, t, n) == 0
    ensures key in After(calls, limit, windowMs, n) ==> n > 0 && After(calls, limit, windowMs, n)[key].start <= calls[n - 1].now
  {
    if n > 0 {
      BoundHolds(calls, limit, windowMs, key, t, n - 1);
      if n > 1 {
        assert calls[n - 2].now <= calls[n - 1].now;
      }
      BoundStep(After(calls, limit, windowMs, n - 1), limit, windowMs, key, t,
                GrantedWithin(calls, limit, windowMs, key, t, n - 1), calls[n - 1]);
    }
  }

  /** Any interval as long as the window grants one key at most twice the limit. */
  lemma AtMostTwiceTheLimit(calls: seq<Request>, limit: nat, windowMs: nat, key: string, t: nat)
    requires InOrder(calls)
    ensures GrantedWithin(calls, limit, windowMs, key, t, |calls|) <= 2 * limit
  {
    BoundHolds(calls, limit, windowMs, key, t, |calls|);
  }

  /** What `key` was granted by calls `i` up to `n`. */
  function GrantedBetween(calls: seq<Request>, limit: nat, windowMs: nat, key: string, i: nat, n: nat): nat
    requires i <= n <= |calls|
    decreases n
  {
    if i == n then 0
    else GrantedBetween(calls, limit, windowMs, key, i, n - 1)
         + (if calls[n - 1].key == key then Granted(calls, limit, windowMs, n - 1) else 0)
  }

  /** Call `i` opens a window for its key. */
  predicate Opens(calls: seq<Request>, limit: nat, windowMs: nat, i: nat)
    requires i < |calls|
  {
    && Grants(After(calls, limit, windowMs, i), limit, windowMs, calls[i].key, calls[i].weight, calls[i].now)
    && !Open(After(calls, limit, windowMs, i), windowMs, calls[i].key, calls[i].now)
  }

  /**
   * From the call that opens a window until the next one that opens one for the same key, the count is exactly what was
   * granted, and never more than the limit.
   */
  lemma {:induction false} WindowGrantsAtMostTheLimit(calls: seq<Request>, limit: nat, windowMs: nat, i: nat, n: nat)
    requires i < n <= |calls| && Opens(calls, limit, windowMs, i)
    requires forall k :: i < k < n && calls[k].key == calls[i].key ==> !Opens(calls, limit, windowMs, k)
    ensures calls[i].key in After(calls, limit, windowMs, n)
    ensures GrantedBetween(calls, limit, windowMs, calls[i].key, i, n) == After(calls, limit, windowMs, n)[calls[i].key].count <= limit
  {
    if n == i + 1 {
      assert GrantedBetween(calls, limit, windowMs, calls[i].key, i, i) == 0;
    } else {
      WindowGrantsAtMostTheLimit(calls, limit, windowMs, i, n - 1);
    }
  }

  /** A call is refused only when it would pass the limit: alone, or on top of what its key was granted in the open window. */
  lemma RefusedOnlyOverTheLimit(calls: seq<Request>, limit: nat, windowMs: nat, i: nat, n: nat)
    requires i < n < |calls| && Opens(calls, limit, windowMs, i) && calls[n].key == calls[i].key && calls[n].weight > 0
    requires forall k :: i < k < n && calls[k].key == calls[i].key ==> !Opens(calls, limit, windowMs, k)
    requires Open(After(calls, limit, windowMs, n), windowMs, calls[i].key, calls[n].now)
    ensures Granted(calls, limit, windowMs, n) == calls[n].weight <==>
            GrantedBetween(calls, limit, windowMs, calls[i].key, i, n) + calls[n].weight <= limit
  {
    WindowGrantsAtMostTheLimit(calls, limit, windowMs, i, n);
  }

  /** Call `j` opened the latest window that `key` had among the first `n` calls. */
  ghost predicate LastOpener(calls: seq<Request>, limit: nat, windowMs: nat, key: string, n: nat, j: nat)
    requires n <= |calls|
  {
    && j < n && calls[j].key == key && Opens(calls, limit, windowMs, j)
    && forall k :: j < k < n && calls[k].key == key ==> !Opens(calls, limit, windowMs, k)
  }

  lemma {:induction false} WindowHasItsOpener(calls: seq<Request>, limit: nat, windowMs: nat, key: string, n: nat)
    requires n <= |calls|
    ensures key !in After(calls, limit, windowMs, n) ==> forall k :: 0 <= k < n && calls[k].key == key ==> !Opens(calls, limit, windowMs, k)
    ensures key in After(calls, limit, windowMs, n) ==>
              exists j :: 0 <= j < n && LastOpener(calls, limit, windowMs, key, n, j) && After(calls, limit, windowMs, n)[key].start == calls[j].now
  {
    if n > 0 {
      var m := n - 1;
      WindowHasItsOpener(calls, limit, windowMs, key, m);
      if calls[m].key == key && Opens(calls, limit, windowMs, m) {
        assert LastOpener(calls, limit, windowMs, key, n, m);
      } else if key in After(calls, limit, windowMs, m) {
        var j :| 0 <= j < m && LastOpener(calls, limit, windowMs, key, m, j) && After(calls, limit, windowMs, m)[key].start == calls[j].now;
        assert LastOpener(calls, limit, windowMs, key, n, j);
      }
    }
  }

  /** Call `j` opened a window for the key of call `n`, the latest before it, and it has not closed at call `n`. */
  ghost predicate InWindowOf(calls: seq<Request>, limit: nat, windowMs: nat, n: nat, j: nat)
    requires n < |calls|
  {
    LastOpener(calls, limit, windowMs, calls[n].key, n, j) && calls[n].now - calls[j].now < windowMs
  }

  predicate Passes(calls: seq<Request>, limit: nat, windowMs: nat, n: nat)
    requires n < |calls|
  {
    Grants(After(calls, limit, windowMs, n), limit, windowMs, calls[n].key, calls[n].weight, calls[n].now)
  }

  /** In an open window a call passes exactly when it and all that passed since the window opened fit the limit, and opens no other. */
  lemma InsideAWindow(calls: seq<Request>, limit: nat, windowMs: nat, n: nat, j: nat)
    requires j < n < |calls| && InWindowOf(calls, limit, windowMs, n, j)
    ensures Passes(calls, limit, windowMs, n) <==> GrantedBetween(calls, limit, windowMs, calls[n].key, j, n) + calls[n].weight <= limit
    ensures !Opens(calls, limit, windowMs, n)
  {
    var key := calls[n].key;
    WindowHasItsOpener(calls, limit, windowMs, key, n);
    WindowGrantsAtMostTheLimit(calls, limit, windowMs, j, n);
    hide After, GrantedBetween, Opens;
    var i :| 0 <= i < n && LastOpener(calls, limit, windowMs, key, n, i) && After(calls, limit, windowMs, n)[key].start == calls[i].now;
    assert i == j;
    assert Open(After(calls, limit, windowMs, n), windowMs, key, calls[n].now);
    OpenOpensNone(calls, limit, windowMs, n);
  }

  lemma OpenOpensNone(calls: seq<Request>, limit: nat, windowMs: nat, n: nat)
    requires n < |calls| && Open(After(calls, limit, windowMs, n), windowMs, calls[n].key, calls[n].now)
    ensures !Opens(calls, limit, windowMs, n)
  {
  }

  /** Outside one it passes exactly when it fits the limit alone, and then it opens the next: so earlier calls decide every answer. */
  lemma OutsideAWindow(calls: seq<Request>, limit: nat, windowMs: nat, n: nat)
    requires n < |calls| && forall j :: 0 <= j < n ==> !InWindowOf(calls, limit, windowMs, n, j)
    ensures Passes(calls, limit, windowMs, n) <==> calls[n].weight <= limit
    ensures Opens(calls, limit, windowMs, n) <==> Passes(calls, limit, windowMs, n)
  {
    var key := calls[n].key;
    WindowHasItsOpener(calls, limit, windowMs, key, n);
    assert !Open(After(calls, limit, windowMs, n), windowMs, key, calls[n].now) by {
      hide After, Opens;
      if key in After(calls, limit, windowMs, n) {
        var i :| 0 <= i < n && LastOpener(calls, limit, windowMs, key, n, i) && After(calls, limit, windowMs, n)[key].start == calls[i].now;
        assert !InWindowOf(calls, limit, windowMs, n, i);
      }
    }
    hide After;
  }
}
