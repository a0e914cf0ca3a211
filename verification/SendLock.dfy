/**
 * The lock that serializes sends (server/rate-limit.ts): a chain of promises. A job is handed in behind whatever is the tail
 * then, and starts once that has settled, either way; the tail a job leaves behind catches its rejection.
 */
module SendLock {
  import opened Primitives

  datatype Status = Waiting | Running | Resolved | Rejected

  /** A job's promises: the tail it was handed in behind, how it is doing, and whether the tail it leaves has settled. */
  datatype Link = Link(prev: Option<nat>, status: Status, passed: bool)

  /**
   * The tail, if any job was handed in, and the promises. `order` and `settled` are history: the jobs as they were handed
   * in, and how many have settled. No step depends on them.
   */
  datatype Chain = Chain(tail: Option<nat>, links: map<nat, Link>, order: seq<nat>, settled: nat)

  const NO_JOBS: Chain := Chain(None, map[], [], 0)

  predicate IsSettled(status: Status) {
    status.Resolved? || status.Rejected?
  }

  function Marked(links: map<nat, Link>, job: nat, status: Status): map<nat, Link> {
    if job in links then links[job := links[job].(status := status)] else links
  }

  function HandIn(c: Chain, job: nat): Chain {
    Chain(Some(job), c.links[job := Link(c.tail, Waiting, false)], c.order + [job], c.settled)
  }

  /** The tail a job was handed in behind has settled. */
  predicate CanStart(c: Chain, job: nat) {
    && job in c.links && c.links[job].status.Waiting?
    && (c.links[job].prev.None? || (c.links[job].prev.value in c.links && c.links[c.links[job].prev.value].passed))
  }

  function Begin(c: Chain, job: nat): Chain {
    c.(links := Marked(c.links, job, Running))
  }

  function Settle(c: Chain, job: nat, ok: bool): Chain {
    c.(links := Marked(c.links, job, if ok then Resolved else Rejected), settled := c.settled + 1)
  }

  /** The job has settled but the tail it leaves has not yet. */
  predicate CanPass(c: Chain, job: nat) {
    job in c.links && IsSettled(c.links[job].status) && !c.links[job].passed
  }

  function Pass(c: Chain, job: nat): Chain {
    if job in c.links then c.(links := c.links[job := c.links[job].(passed := true)]) else c
  }

  // ---------------------------------------------------------------------------------------------------------------
  // What every order of steps keeps.

  /** Each job was handed in once. */
  ghost predicate HandedOnce(c: Chain) {
    && (forall i, j :: 0 <= i < j < |c.order| ==> c.order[i] != c.order[j])
    && (forall job :: job in c.links <==> job in c.order)
  }

  /** The jobs' promises, in the order they were handed in. */
  function Row(c: Chain): (row: seq<Link>)
    requires HandedOnce(c)
    ensures |row| == |c.order| && forall k :: 0 <= k < |row| ==> row[k] == c.links[c.order[k]]
  {
    seq(|c.order|, k requires 0 <= k < |c.order| && c.order[k] in c.links => c.links[c.order[k]])
  }

  /** Each job waits for the one before it, and the last one's tail is the tail. */
  ghost predicate LinkedUp(row: seq<Link>, order: seq<nat>, tail: Option<nat>)
    requires |row| == |order|
  {
    && tail == (if order == [] then None else Some(order[|order| - 1]))
    && (row != [] ==> row[0].prev == None)
    && forall i, k :: 0 <= i < k < |row| && k == i + 1 ==> row[k].prev == Some(order[i])
  }

  /** The jobs before the first unsettled one have settled, those after it wait; only settled jobs let the next one go. */
  ghost predicate Progress(row: seq<Link>, settled: nat) {
    && settled <= |row|
    && (forall k :: 0 <= k < settled ==> IsSettled(row[k].status))
    && (forall k :: settled < k < |row| ==> row[k].status.Waiting?)
    && (settled < |row| ==> !IsSettled(row[settled].status))
    && (forall k :: settled <= k < |row| ==> !row[k].passed)
  }

  ghost predicate ChainOk(c: Chain) {
    HandedOnce(c) && LinkedUp(Row(c), c.order, c.tail) && Progress(Row(c), c.settled)
  }

  lemma PlaceOf(c: Chain, job: nat) returns (k: nat)
    requires HandedOnce(c) && job in c.links
    ensures k < |c.order| && c.order[k] == job && Row(c)[k] == c.links[job]
  {
    k :| 0 <= k < |c.order| && c.order[k] == job;
  }

  /** A job may start only when it is the earliest handed in that has not settled. */
  lemma StartsInOrder(c: Chain, job: nat)
    requires ChainOk(c) && CanStart(c, job)
    ensures c.settled < |c.order| && c.order[c.settled] == job
  {
    var k := PlaceOf(c, job);
    if k > 0 {
      assert Row(c)[k].prev == Some(c.order[k - 1]);
      assert Row(c)[k - 1].passed;
    }
  }

  /** A job runs only while it is the earliest handed in that has not settled; so at most one runs. */
  lemma OneRuns(c: Chain, job: nat)
    requires ChainOk(c) && job in c.links && c.links[job].status.Running?
    ensures c.settled < |c.order| && c.order[c.settled] == job
  {
    var k := PlaceOf(c, job);
  }

  /** Unless a job runs or a settled one has still to let go, the next in order may start, rejections before it or not. */
  lemma NothingBlocks(c: Chain)
    requires ChainOk(c) && c.settled < |c.order| && c.links[c.order[c.settled]].status.Waiting?
    requires forall job :: !CanPass(c, job)
    ensures CanStart(c, c.order[c.settled])
  {
    var k := c.settled;
    assert Row(c)[k].prev == (if k == 0 then None else Some(c.order[k - 1]));
    if k > 0 {
      assert IsSettled(Row(c)[k - 1].status);
      assert !CanPass(c, c.order[k - 1]);
    }
  }

  lemma HandInKeeps(c: Chain, job: nat)
    requires ChainOk(c) && job !in c.links
    ensures ChainOk(HandIn(c, job))
  {
    var t := HandIn(c, job);
    assert job !in c.order;
    forall other ensures other in t.links <==> other in t.order {
      assert other in t.order <==> other in c.order || other == job;
    }
    assert HandedOnce(t);
    var link := Link(c.tail, Waiting, false);
    forall k | 0 <= k < |t.order| ensures Row(t)[k] == (Row(c) + [link])[k] {
      assert k < |c.order| ==> t.order[k] == c.order[k] && c.order[k] != job;
    }
    assert Row(t) == Row(c) + [link];
    RowGrows(Row(c), c.order, c.tail, c.settled, job);
  }

  lemma RowGrows(row: seq<Link>, order: seq<nat>, tail: Option<nat>, settled: nat, job: nat)
    requires |row| == |order| && LinkedUp(row, order, tail) && Progress(row, settled)
    ensures LinkedUp(row + [Link(tail, Waiting, false)], order + [job], Some(job))
    ensures Progress(row + [Link(tail, Waiting, false)], settled)
  {
  }

  /** The `k`-th job's promises change and no other's. */
  lemma OneChanges(c: Chain, k: nat, link: Link, settled: nat)
    requires HandedOnce(c) && k < |c.order|
    ensures var t := Chain(c.tail, c.links[c.order[k] := link], c.order, settled);
            HandedOnce(t) && Row(t) == Row(c)[k := link]
  {
    var t := Chain(c.tail, c.links[c.order[k] := link], c.order, settled);
    assert c.order[k] in c.links;
    forall other ensures other in t.links <==> other in t.order {
      assert other in c.links <==> other in c.order;
    }
    assert HandedOnce(t);
    forall i | 0 <= i < |t.order| ensures Row(t)[i] == Row(c)[k := link][i] {
      assert i != k ==> t.order[i] != t.order[k];
    }
  }

  lemma RowChanges(row: seq<Link>, order: seq<nat>, tail: Option<nat>, k: nat, link: Link)
    requires |row| == |order| && LinkedUp(row, order, tail) && k < |row| && link.prev == row[k].prev
    ensures LinkedUp(row[k := link], order, tail)
  {
  }

  lemma RowSettles(row: seq<Link>, settled: nat, link: Link)
    requires Progress(row, settled) && settled < |row| && IsSettled(link.status)
    ensures Progress(row[settled := link], settled + 1)
  {
  }

  lemma BeginKeeps(c: Chain, job: nat)
    requires ChainOk(c) && CanStart(c, job)
    ensures ChainOk(Begin(c, job))
  {
    StartsInOrder(c, job);
    OneChanges(c, c.settled, c.links[job].(status := Running), c.settled);
    hide HandedOnce;
  }

  lemma SettleKeeps(c: Chain, job: nat, ok: bool)
    requires ChainOk(c) && job in c.links && c.links[job].status.Running?
    ensures ChainOk(Settle(c, job, ok))
  {
    OneRuns(c, job);
    var link := c.links[job].(status := if ok then Resolved else Rejected);
    OneChanges(c, c.settled, link, c.settled + 1);
    RowChanges(Row(c), c.order, c.tail, c.settled, link);
    RowSettles(Row(c), c.settled, link);
    hide HandedOnce, LinkedUp, Progress;
  }

  lemma PassKeeps(c: Chain, job: nat)
    requires ChainOk(c) && CanPass(c, job)
    ensures ChainOk(Pass(c, job))
  {
    var k := PlaceOf(c, job);
    OneChanges(c, k, c.links[job].(passed := true), c.settled);
    hide HandedOnce;
  }

  // ---------------------------------------------------------------------------------------------------------------
  // Every history of a lock.

  datatype Event = HandsIn(job: nat) | Begins(job: nat) | Settles(job: nat, ok: bool) | Passes(job: nat)

  predicate Enabled(c: Chain, e: Event) {
    match e
    case HandsIn(job) => job !in c.links
    case Begins(job) => CanStart(c, job)
    case Settles(job, _) => job in c.links && c.links[job].status.Running?
    case Passes(job) => CanPass(c, job)
  }

  function Step(c: Chain, e: Event): Chain {
    match e
    case HandsIn(job) => HandIn(c, job)
    case Begins(job) => Begin(c, job)
    case Settles(job, ok) => Settle(c, job, ok)
    case Passes(job) => Pass(c, job)
  }

  ghost predicate IsHistory(chains: seq<Chain>, events: seq<Event>) {
    && |chains| == |events| + 1 && chains[0] == NO_JOBS
    && forall i :: 0 <= i < |events| ==> HappensAt(chains, events, i)
  }

  ghost predicate HappensAt(chains: seq<Chain>, events: seq<Event>, i: nat)
    requires i < |events| && |chains| == |events| + 1
  {
    Enabled(chains[i], events[i]) && chains[i + 1] == Step(chains[i], events[i])
  }

  lemma {:induction false} Reachable(chains: seq<Chain>, events: seq<Event>, n: nat)
    requires IsHistory(chains, events) && n < |chains|
    ensures ChainOk(chains[n])
  {
    if n > 0 {
      Reachable(chains, events, n - 1);
      assert HappensAt(chains, events, n - 1);
      var c := chains[n - 1];
      match events[n - 1]
      case HandsIn(job) => HandInKeeps(c, job);
      case Begins(job) => BeginKeeps(c, job);
      case Settles(job, ok) => SettleKeeps(c, job, ok);
      case Passes(job) => PassKeeps(c, job);
    }
  }

  /** However jobs are handed in, settle and fail, two of them never run at once. */
  lemma OneJobAtATime(chains: seq<Chain>, events: seq<Event>, n: nat, i: nat, j: nat)
    requires IsHistory(chains, events) && n < |chains| && i in chains[n].links && j in chains[n].links
    requires chains[n].links[i].status.Running? && chains[n].links[j].status.Running?
    ensures i == j
  {
    Reachable(chains, events, n);
    OneRuns(chains[n], i);
    OneRuns(chains[n], j);
  }

  /** The jobs handed in, and those begun, among the first `n` events, in order. */
  function Handed(events: seq<Event>, n: nat): seq<nat>
    requires n <= |events|
  {
    if n == 0 then [] else Handed(events, n - 1) + (if events[n - 1].HandsIn? then [events[n - 1].job] else [])
  }

  function Begun(events: seq<Event>, n: nat): seq<nat>
    requires n <= |events|
  {
    if n == 0 then [] else Begun(events, n - 1) + (if events[n - 1].Begins? then [events[n - 1].job] else [])
  }

  /** How many jobs have begun: those that settled and the one that runs. */
  function BegunCount(c: Chain): (n: nat) {
    if c.settled < |c.order| && c.order[c.settled] in c.links && c.links[c.order[c.settled]].status.Running? then c.settled + 1
    else c.settled
  }

  lemma BegunStep(c: Chain, e: Event)
    requires ChainOk(c) && Enabled(c, e)
    ensures Step(c, e).order == c.order + (if e.HandsIn? then [e.job] else [])
    ensures BegunCount(c) <= |c.order| && BegunCount(Step(c, e)) == BegunCount(c) + (if e.Begins? then 1 else 0) <= |Step(c, e).order|
    ensures e.Begins? ==> c.order[BegunCount(c)] == e.job
  {
    match e
    case HandsIn(job) => assert c.settled < |c.order| ==> c.order[c.settled] in c.links && c.order[c.settled] != job;
    case Begins(job) => StartsInOrder(c, job);
    case Settles(job, ok) =>
      OneRuns(c, job);
      var next := c.settled + 1;
      assert next < |c.order| ==> Row(c)[next].status.Waiting? && c.order[next] != job;
    case Passes(job) =>
  }

  ghost predicate Advances(c: Chain, t: Chain, e: Event) {
    && t.order == c.order + (if e.HandsIn? then [e.job] else [])
    && BegunCount(c) <= |c.order|
    && BegunCount(t) == BegunCount(c) + (if e.Begins? then 1 else 0)
    && (e.Begins? ==> BegunCount(c) < |c.order| && c.order[BegunCount(c)] == e.job)
  }

  lemma AdvancesAt(chains: seq<Chain>, events: seq<Event>, n: nat)
    requires IsHistory(chains, events) && n < |events|
    ensures Advances(chains[n], chains[n + 1], events[n])
  {
    Reachable(chains, events, n);
    assert HappensAt(chains, events, n);
    BegunStep(chains[n], events[n]);
  }

  /** `begun` stays a prefix of `handed` when a job is handed in, or when the next one begins. */
  lemma PrefixGrows(handed: seq<nat>, begun: seq<nat>, m: nat, e: Event)
    requires m <= |handed| && begun == handed[..m]
    requires e.Begins? ==> m < |handed| && handed[m] == e.job
    ensures var more := handed + (if e.HandsIn? then [e.job] else []);
            var n := m + (if e.Begins? then 1 else 0);
            n <= |more| && begun + (if e.Begins? then [e.job] else []) == more[..n]
  {
    if e.Begins? {
      assert handed[..m + 1] == handed[..m] + [handed[m]];
    }
  }

  /** The jobs begin in exactly the order they were handed in: what has begun is always a prefix of what was handed in. */
  lemma {:induction false} BegunInOrder(chains: seq<Chain>, events: seq<Event>, n: nat)
    requires IsHistory(chains, events) && n < |chains|
    ensures chains[n].order == Handed(events, n)
    ensures BegunCount(chains[n]) <= |Handed(events, n)| && Begun(events, n) == Handed(events, n)[..BegunCount(chains[n])]
  {
    if n == 0 {
      assert BegunCount(NO_JOBS) == 0;
    } else {
      hide BegunCount, HappensAt;
      BegunInOrder(chains, events, n - 1);
      AdvancesAt(chains, events, n - 1);
      PrefixGrows(Handed(events, n - 1), Begun(events, n - 1), BegunCount(chains[n - 1]), events[n - 1]);
    }
  }

  /** A job is done as its own outcome says, whatever became of those before it. */
  lemma {:induction false} SettlesAsItEnds(chains: seq<Chain>, events: seq<Event>, n: nat, job: nat)
    requires IsHistory(chains, events) && n < |chains|
    ensures forall k, ok :: 0 <= k < n && events[k] == Settles(job, ok) ==>
              job in chains[n].links && chains[n].links[job].status == if ok then Resolved else Rejected
  {
    if n > 0 {
      SettlesAsItEnds(chains, events, n - 1, job);
      assert HappensAt(chains, events, n - 1);
    }
  }

  /** A rejected job holds nobody up: once it has let go, the next one handed in may start. */
  lemma RejectionsPass(chains: seq<Chain>, events: seq<Event>, n: nat, job: nat, ok: bool)
    requires IsHistory(chains, events) && n < |chains| && Enabled(chains[n], Settles(job, ok))
    requires chains[n].settled + 1 < |chains[n].order|
    ensures var c := Pass(Settle(chains[n], job, ok), job);
            CanStart(c, chains[n].order[chains[n].settled + 1])
  {
    Reachable(chains, events, n);
    OneRuns(chains[n], job);
  }

  // ---------------------------------------------------------------------------------------------------------------
  // The lock itself.

  class Mutex {
    var tail: Option<nat>
    var links: map<nat, Link>
    ghost var order: seq<nat>
    ghost var settled: nat

    ghost function Abs(): Chain
      reads this
    {
      Chain(tail, links, order, settled)
    }

    constructor ()
      ensures Abs() == NO_JOBS
    {
      tail, links, order, settled := None, map[], [], 0;
    }

    /** `run`: the job goes behind the tail and leaves the new one. */
    method Run(job: nat)
      modifies this
      ensures Abs() == HandIn(old(Abs()), job)
    {
      links := links[job := Link(tail, Waiting, false)];
      tail := Some(job);
      order := order + [job];
    }

    /** The promise the job waited for has settled. */
    method Start(job: nat)
      requires CanStart(Abs(), job)
      modifies this`links
      ensures Abs() == Begin(old(Abs()), job)
    {
      links := links[job := links[job].(status := Running)];
    }

    method Finish(job: nat, ok: bool)
      requires job in links && links[job].status.Running?
      modifies this`links, this`settled
      ensures Abs() == Settle(old(Abs()), job, ok)
    {
      links := links[job := links[job].(status := if ok then Resolved else Rejected)];
      settled := settled + 1;
    }

    /** `catch`: the tail resolves however the job settled. */
    method LetGo(job: nat)
      requires CanPass(Abs(), job)
      modifies this`links
      ensures Abs() == Pass(old(Abs()), job)
    {
      links := links[job := links[job].(passed := true)];
    }
  }
}
