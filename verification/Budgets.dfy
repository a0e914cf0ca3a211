/** What is spent of a limiter's grants: each granted call pays for at most one thing, so the limits bound the spending. */
module Budgets {
  import opened RateLimit

  /** `spent` are calls of a limiter, in order, that were granted and then paid for something. */
  ghost predicate ArePaid(calls: seq<Request>, limit: nat, windowMs: nat, spent: seq<nat>) {
    && (forall i :: 0 <= i < |spent| ==>
          spent[i] < |calls|
          && Grants(After(calls, limit, windowMs, spent[i]), limit, windowMs, calls[spent[i]].key, calls[spent[i]].weight, calls[spent[i]].now))
    && (forall i, j :: 0 <= i < j < |spent| ==> spent[i] < spent[j])
  }

  /** What was spent for `key` by calls made in the interval of `windowMs` from `t`. */
  ghost function SpentWithin(calls: seq<Request>, windowMs: nat, key: string, t: nat, spent: seq<nat>): nat
    requires forall i :: 0 <= i < |spent| ==> spent[i] < |calls|
  {
    if spent == [] then 0
    else
      var call := calls[spent[|spent| - 1]];
      SpentWithin(calls, windowMs, key, t, spent[..|spent| - 1])
      + (if call.key == key && t <= call.now < t + windowMs then call.weight else 0)
  }

  /** What was spent for `key` by the calls from `i` up to `n`. */
  ghost function SpentBetween(calls: seq<Request>, key: string, i: nat, n: nat, spent: seq<nat>): nat
    requires forall k :: 0 <= k < |spent| ==> spent[k] < |calls|
  {
    if spent == [] then 0
    else
      var c := spent[|spent| - 1];
      SpentBetween(calls, key, i, n, spent[..|spent| - 1]) + (if calls[c].key == key && i <= c < n then calls[c].weight else 0)
  }

  lemma {:induction false} SpentIsGranted(calls: seq<Request>, limit: nat, windowMs: nat, key: string, t: nat, spent: seq<nat>, n: nat)
    requires ArePaid(calls, limit, windowMs, spent) && n <= |calls|
    requires forall i :: 0 <= i < |spent| ==> spent[i] < n
    ensures SpentWithin(calls, windowMs, key, t, spent) <= GrantedWithin(calls, limit, windowMs, key, t, n)
    decreases n
  {
    if n > 0 {
      var last := |spent| - 1;
      if spent != [] && spent[last] == n - 1 {
        SpentIsGranted(calls, limit, windowMs, key, t, spent[..last], n - 1);
      } else {
        SpentIsGranted(calls, limit, windowMs, key, t, spent, n - 1);
      }
    }
  }

  lemma {:induction false} SpentBetweenIsGranted(calls: seq<Request>, limit: nat, windowMs: nat, key: string, i: nat, n: nat, spent: seq<nat>)
    requires ArePaid(calls, limit, windowMs, spent) && i <= n <= |calls|
    ensures SpentBetween(calls, key, i, n, spent) <= GrantedBetween(calls, limit, windowMs, key, i, n)
    decreases n, |spent|
  {
    if spent != [] {
      var last := |spent| - 1;
      if spent[last] >= n || spent[last] < i {
        SpentBetweenIsGranted(calls, limit, windowMs, key, i, n, spent[..last]);
      } else if spent[last] == n - 1 {
        NothingLater(calls, key, i, n - 1, n, spent[..last]);
        SpentBetweenIsGranted(calls, limit, windowMs, key, i, n - 1, spent[..last]);
      } else {
        NothingLater(calls, key, i, n - 1, n, spent);
        SpentBetweenIsGranted(calls, limit, windowMs, key, i, n - 1, spent);
      }
    }
  }

  /** Calls that were not spent add nothing. */
  lemma {:induction false} NothingLater(calls: seq<Request>, key: string, i: nat, m: nat, n: nat, spent: seq<nat>)
    requires forall k :: 0 <= k < |spent| ==> spent[k] < m <= n && spent[k] < |calls|
    ensures SpentBetween(calls, key, i, m, spent) == SpentBetween(calls, key, i, n, spent)
  {
    if spent != [] {
      NothingLater(calls, key, i, m, n, spent[..|spent| - 1]);
    }
  }

  /** Any interval as long as the window spends at most twice the limit on one key. */
  lemma SpentAtMostTwiceTheLimit(calls: seq<Request>, limit: nat, windowMs: nat, key: string, t: nat, spent: seq<nat>)
    requires InOrder(calls) && ArePaid(calls, limit, windowMs, spent)
    ensures SpentWithin(calls, windowMs, key, t, spent) <= 2 * limit
  {
    SpentIsGranted(calls, limit, windowMs, key, t, spent, |calls|);
    AtMostTwiceTheLimit(calls, limit, windowMs, key, t);
  }

  /** From the call that opens a window until the next one that does, at most the limit is spent. */
  lemma WindowSpendsAtMostTheLimit(calls: seq<Request>, limit: nat, windowMs: nat, i: nat, n: nat, spent: seq<nat>)
    requires ArePaid(calls, limit, windowMs, spent) && i < n <= |calls| && Opens(calls, limit, windowMs, i)
    requires forall k :: i < k < n && calls[k].key == calls[i].key ==> !Opens(calls, limit, windowMs, k)
    ensures SpentBetween(calls, calls[i].key, i, n, spent) <= limit
  {
    SpentBetweenIsGranted(calls, limit, windowMs, calls[i].key, i, n, spent);
    WindowGrantsAtMostTheLimit(calls, limit, windowMs, i, n);
  }

  /** A limiter's later calls change nothing about what its earlier ones granted. */
  lemma {:induction false} AfterPrefix(calls: seq<Request>, more: Request, limit: nat, windowMs: nat, n: nat)
    requires n <= |calls|
    ensures After(calls + [more], limit, windowMs, n) == After(calls, limit, windowMs, n)
  {
    if n > 0 {
      AfterPrefix(calls, more, limit, windowMs, n - 1);
    }
  }

  lemma PaidStays(calls: seq<Request>, more: Request, limit: nat, windowMs: nat, spent: seq<nat>)
    requires ArePaid(calls, limit, windowMs, spent)
    ensures ArePaid(calls + [more], limit, windowMs, spent)
  {
    forall i | 0 <= i < |spent| {
      AfterPrefix(calls, more, limit, windowMs, spent[i]);
    }
  }
}
