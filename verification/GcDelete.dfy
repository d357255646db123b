/** The delete loop of a collection pass (`Collector._delete`): groups of 100,
    a refused group rechecked and bisected, one more lap for single refusals.
    The daemon is an adversary: it may delete, refuse, time out or drop the
    connection at every request, and a recheck may fail as well. */
module GcDelete {
  import opened Ordering
  import ReferrerFirst

  type Path = string

  const BATCH_SIZE: nat := 100

  /** What a validity query answers about the paths it names. */
  datatype Recheck = Valid(paths: set<Path>) | RecheckFailed

  datatype Answer =
    | Deleted(got: set<Path>, freed: nat)
    | Refused(recheck: Recheck)
    | Interrupted(timeout: bool)

  /** One delete request with its answer; `conn` numbers the connections. */
  datatype Request = Request(conn: nat, group: seq<Path>, answer: Answer)

  function Filter(s: seq<Path>, keep: set<Path>): (r: seq<Path>)
    ensures Elements(r) == Elements(s) * keep
    ensures |r| <= |s|
  {
    if |s| == 0 then [] else
      var front, last := s[..|s| - 1], s[|s| - 1];
      assert s == front + [last];
      ElementsConcat(front, [last]);
      var r := Filter(front, keep);
      ElementsConcat(r, [last]);
      if last in keep then r + [last] else r
  }

  // ---- what one request does ----

  /** Paths of a refused group that a recheck still finds. */
  function Remaining(req: Request): (r: seq<Path>)
    ensures |r| <= |req.group|
    ensures Elements(r) <= Elements(req.group)
  {
    match req.answer
    case Refused(Valid(valid)) => Filter(req.group, valid)
    case _ => []
  }

  /** Known deleted: the daemon said so, or a recheck found them gone. */
  function Gone(req: Request): set<Path> {
    match req.answer
    case Deleted(got, _) => got
    case Refused(Valid(valid)) => Elements(req.group) - valid
    case _ => {}
  }

  /** Named, not deleted, not refused: Nix skipped them silently. */
  function Spared(req: Request): set<Path> {
    match req.answer
    case Deleted(got, _) => Elements(req.group) - got
    case _ => {}
  }

  /** Outcome unknown: the request was interrupted, or its recheck failed. */
  function Lost(req: Request): set<Path> {
    if Dirty(req) then Elements(req.group) else {}
  }

  predicate Dirty(req: Request) {
    req.answer.Interrupted? || req.answer == Refused(RecheckFailed)
  }

  /** A single path that was refused waits for the next lap. */
  function Retried(req: Request): seq<Path> {
    if |req.group| == 1 then Remaining(req) else []
  }

  /** A larger refused group goes back to the front of the queue, in halves. */
  function Requeued(req: Request): (r: seq<seq<Path>>)
    ensures Flat(r) == if |req.group| == 1 then [] else Remaining(req)
    ensures forall g :: g in r ==> |g| > 0
    ensures |req.group| > 0 ==> Cost(r) < Cost([req.group])
  {
    var rest := Remaining(req);
    if |req.group| == 1 || |rest| == 0 then []
    else
      var middle := if |rest| / 2 > 1 then |rest| / 2 else 1;
      assert rest == rest[..middle] + rest[middle..];
      FlatPair(rest[..middle], rest[middle..]);
      if |rest| > middle then [rest[..middle], rest[middle..]] else [rest[..middle]]
  }

  /** The paths the request takes out of the queue. */
  function Settled(req: Request): set<Path> {
    Elements(req.group) - Elements(Flat(Requeued(req)))
  }

  predicate Honest(req: Request) {
    Gone(req) <= Elements(req.group)
  }

  // ---- a lap ----

  function Flat(queue: seq<seq<Path>>): seq<Path> {
    if |queue| == 0 then [] else queue[0] + Flat(queue[1..])
  }

  /** A bound on the requests a queue can still cause. */
  function Cost(queue: seq<seq<Path>>): int {
    if |queue| == 0 then 0 else 2 * |queue[0]| - 1 + Cost(queue[1..])
  }

  lemma {:induction false} FlatConcat(a: seq<seq<Path>>, b: seq<seq<Path>>)
    ensures Flat(a + b) == Flat(a) + Flat(b)
    ensures Cost(a + b) == Cost(a) + Cost(b)
  {
    if |a| == 0 {
      assert a + b == b;
    } else {
      assert (a + b)[1..] == a[1..] + b;
      FlatConcat(a[1..], b);
    }
  }

  lemma FlatPair(a: seq<Path>, b: seq<Path>)
    ensures Flat([a, b]) == a + b && Flat([a]) == a
    ensures Cost([a, b]) == 2 * |a| + 2 * |b| - 2 && Cost([a]) == 2 * |a| - 1
  {
    assert [a, b][1..] == [b] && [a][1..] == [] && [b][1..] == [];
    assert Flat([a]) == a + Flat([]) && Flat([b]) == b + Flat([]);
    assert Cost([a]) == 2 * |a| - 1 + Cost([]) && Cost([b]) == 2 * |b| - 1 + Cost([]);
  }

  /** `batched(pending, 100)` */
  function Batched(pending: seq<Path>): (r: seq<seq<Path>>)
    ensures Flat(r) == pending
    ensures forall g :: g in r ==> 0 < |g| <= BATCH_SIZE
    ensures |pending| > 0 ==> Cost(r) <= 2 * |pending| - 1
    ensures |pending| == 0 ==> r == []
  {
    if |pending| == 0 then []
    else if |pending| <= BATCH_SIZE then [pending]
    else
      assert pending == pending[..BATCH_SIZE] + pending[BATCH_SIZE..];
      [pending[..BATCH_SIZE]] + Batched(pending[BATCH_SIZE..])
  }

  /** The queue after the requests of a trace. */
  function QueueAfter(queue: seq<seq<Path>>, trace: seq<Request>): seq<seq<Path>> {
    if |trace| == 0 then queue else
      var q := QueueAfter(queue, trace[..|trace| - 1]);
      if |q| == 0 then q else Requeued(trace[|trace| - 1]) + q[1..]
  }

  /** Every request of the trace named the group at the front of the queue. */
  ghost predicate Follows(queue: seq<seq<Path>>, trace: seq<Request>) {
    |trace| == 0 ||
    (var front, last := trace[..|trace| - 1], trace[|trace| - 1];
     && Follows(queue, front)
     && |QueueAfter(queue, front)| > 0
     && last.group == QueueAfter(queue, front)[0])
  }

  function SettledBy(trace: seq<Request>): set<Path> {
    if |trace| == 0 then {} else SettledBy(trace[..|trace| - 1]) + Settled(trace[|trace| - 1])
  }

  function RetriedBy(trace: seq<Request>): seq<Path> {
    if |trace| == 0 then [] else RetriedBy(trace[..|trace| - 1]) + Retried(trace[|trace| - 1])
  }

  ghost predicate Before(s: seq<Path>, a: Path, b: Path) {
    exists i, j :: 0 <= i < j < |s| && s[i] == a && s[j] == b
  }

  /** `s` holds paths of `base` in the order `base` has them. */
  ghost predicate InOrderOf(base: seq<Path>, s: seq<Path>) {
    forall i, j :: 0 <= i < j < |s| ==> Before(base, s[i], s[j])
  }

  lemma BeforeOnce(s: seq<Path>, a: Path, b: Path)
    requires NoDuplicates(s) && Before(s, a, b)
    ensures !Before(s, b, a) && a != b
  {
  }

  lemma InOrderDistinct(base: seq<Path>, s: seq<Path>)
    requires NoDuplicates(base) && InOrderOf(base, s)
    ensures NoDuplicates(s)
  {
    forall i, j | 0 <= i < j < |s|
      ensures s[i] != s[j]
    { BeforeOnce(base, s[i], s[j]); }
  }

  lemma {:induction false} FilterInOrder(base: seq<Path>, s: seq<Path>, keep: set<Path>)
    requires InOrderOf(base, s)
    ensures InOrderOf(base, Filter(s, keep))
  {
    if |s| > 0 {
      var front, last := s[..|s| - 1], s[|s| - 1];
      FilterInOrder(base, front, keep);
      var r := Filter(front, keep);
      forall i | 0 <= i < |r|
        ensures Before(base, r[i], last)
      {
        assert r[i] in Elements(r);
        var k :| 0 <= k < |front| && front[k] == r[i];
        assert s[k] == r[i] && Before(base, s[k], s[|s| - 1]);
      }
    }
  }

  ghost predicate AllBefore(base: seq<Path>, a: seq<Path>, b: seq<Path>) {
    forall x, y :: x in a && y in b ==> Before(base, x, y)
  }

  lemma SplitInOrder(base: seq<Path>, a: seq<Path>, b: seq<Path>)
    requires InOrderOf(base, a + b)
    ensures InOrderOf(base, a) && InOrderOf(base, b) && AllBefore(base, a, b)
  {
    forall i, j | 0 <= i < j < |a|
      ensures Before(base, a[i], a[j])
    { assert (a + b)[i] == a[i] && (a + b)[j] == a[j]; }
    forall i, j | 0 <= i < j < |b|
      ensures Before(base, b[i], b[j])
    { assert (a + b)[|a| + i] == b[i] && (a + b)[|a| + j] == b[j]; }
    forall x, y | x in a && y in b
      ensures Before(base, x, y)
    {
      var i :| 0 <= i < |a| && a[i] == x;
      var j :| 0 <= j < |b| && b[j] == y;
      assert (a + b)[i] == x && (a + b)[|a| + j] == y;
    }
  }

  lemma ConcatInOrder(base: seq<Path>, a: seq<Path>, b: seq<Path>)
    requires InOrderOf(base, a) && InOrderOf(base, b) && AllBefore(base, a, b)
    ensures InOrderOf(base, a + b)
  {
    forall i, j | 0 <= i < j < |a + b|
      ensures Before(base, (a + b)[i], (a + b)[j])
    {
      if i < |a| <= j {
        assert a[i] in a && b[j - |a|] in b;
      } else if j < |a| {
        assert Before(base, a[i], a[j]);
      } else {
        assert Before(base, b[i - |a|], b[j - |a|]);
      }
    }
  }

  lemma AllBeforeDisjoint(base: seq<Path>, a: seq<Path>, b: seq<Path>)
    requires NoDuplicates(base) && AllBefore(base, a, b)
    ensures Elements(a) !! Elements(b)
  {
    forall x | x in a && x in b
      ensures false
    { BeforeOnce(base, x, x); }
  }

  /** One request leaves the rest of the queue in order. */
  lemma StepKeepsOrder(base: seq<Path>, queue: seq<seq<Path>>, req: Request)
    requires NoDuplicates(base) && InOrderOf(base, Flat(queue))
    requires |queue| > 0 && req.group == queue[0]
    ensures InOrderOf(base, Flat(Requeued(req) + queue[1..]))
    ensures Elements(req.group) !! Elements(Flat(queue[1..]))
  {
    var group, tail, back := queue[0], Flat(queue[1..]), Flat(Requeued(req));
    FlatConcat(Requeued(req), queue[1..]);
    SplitInOrder(base, group, tail);
    AllBeforeDisjoint(base, group, tail);
    RemainingInOrder(base, req);
    assert AllBefore(base, back, tail) by {
      forall x, y | x in back && y in tail
        ensures Before(base, x, y)
      { assert x in Elements(back) && x in group; }
    }
    ConcatInOrder(base, back, tail);
  }

  /** One request: the paths of the queue are those left and those settled. */
  lemma StepSettles(queue: seq<seq<Path>>, req: Request)
    requires |queue| > 0 && req.group == queue[0]
    requires Elements(req.group) !! Elements(Flat(queue[1..]))
    ensures Elements(Flat(queue)) == Elements(Flat(Requeued(req) + queue[1..])) + Settled(req)
    ensures Elements(Flat(Requeued(req) + queue[1..])) !! Settled(req)
  {
    var tail, back := Flat(queue[1..]), Flat(Requeued(req));
    FlatConcat(Requeued(req), queue[1..]);
    ElementsConcat(req.group, tail);
    ElementsConcat(back, tail);
  }

  lemma RemainingInOrder(base: seq<Path>, req: Request)
    requires InOrderOf(base, req.group)
    ensures InOrderOf(base, Flat(Requeued(req))) && InOrderOf(base, Remaining(req))
  {
    match req.answer
    case Refused(Valid(valid)) => FilterInOrder(base, req.group, valid);
    case _ =>
  }

  /** The state of a lap between two requests: the queue holds its paths in
      order, and the paths of the lap are queued or settled, not both. */
  ghost predicate LapState(pending: seq<Path>, queue: seq<seq<Path>>, settled: set<Path>, requests: nat) {
    && InOrderOf(pending, Flat(queue))
    && Elements(pending) == Elements(Flat(queue)) + settled
    && Elements(Flat(queue)) !! settled
    && (forall g :: g in queue ==> |g| > 0)
    && requests + Cost(queue) <= Cost(Batched(pending))
  }

  lemma LapStart(pending: seq<Path>)
    ensures LapState(pending, Batched(pending), {}, 0)
  {
    forall i, j | 0 <= i < j < |pending|
      ensures Before(pending, pending[i], pending[j])
    {}
  }

  lemma LapStep(pending: seq<Path>, queue: seq<seq<Path>>, settled: set<Path>, requests: nat, req: Request)
    requires NoDuplicates(pending) && LapState(pending, queue, settled, requests)
    requires |queue| > 0 && req.group == queue[0]
    ensures LapState(pending, Requeued(req) + queue[1..], settled + Settled(req), requests + 1)
  {
    StepKeepsOrder(pending, queue, req);
    StepSettles(queue, req);
    FlatConcat(Requeued(req), queue[1..]);
    FlatConcat([queue[0]], queue[1..]);
    assert queue == [queue[0]] + queue[1..];
    assert queue[0] in queue;
  }

  lemma {:induction false} LapInvariant(pending: seq<Path>, trace: seq<Request>)
    requires NoDuplicates(pending) && Follows(Batched(pending), trace)
    ensures LapState(pending, QueueAfter(Batched(pending), trace), SettledBy(trace), |trace|)
  {
    if |trace| == 0 {
      LapStart(pending);
    } else {
      var front, last := trace[..|trace| - 1], trace[|trace| - 1];
      LapInvariant(pending, front);
      LapStep(pending, QueueAfter(Batched(pending), front), SettledBy(front), |front|, last);
    }
  }

  lemma {:induction false} FollowsPrefix(queue: seq<seq<Path>>, trace: seq<Request>, n: nat)
    requires Follows(queue, trace) && n <= |trace|
    ensures Follows(queue, trace[..n])
    ensures n < |trace| ==> |QueueAfter(queue, trace[..n])| > 0 && trace[n].group == QueueAfter(queue, trace[..n])[0]
  {
    if n == |trace| {
      assert trace[..n] == trace;
    } else if n < |trace| - 1 {
      var front := trace[..|trace| - 1];
      FollowsPrefix(queue, front, n);
      assert front[..n] == trace[..n];
    }
  }

  /** A lap of n paths ends after at most 2n - 1 delete requests, whatever the
      daemon answers. */
  lemma LapRequestBound(pending: seq<Path>, trace: seq<Request>)
    requires NoDuplicates(pending) && |pending| > 0 && Follows(Batched(pending), trace)
    ensures |trace| <= 2 * |pending| - 1
  {
    LapInvariant(pending, trace);
    CostNonNegative(QueueAfter(Batched(pending), trace));
  }

  lemma {:induction false} CostNonNegative(queue: seq<seq<Path>>)
    requires forall g :: g in queue ==> |g| > 0
    ensures Cost(queue) >= |queue|
  {
    if |queue| > 0 {
      assert queue[0] in queue;
      CostNonNegative(queue[1..]);
    }
  }

  /** At every request, a path of the lap that stands before a named one is in
      the same request or was settled earlier in the lap. */
  lemma NamedInOrder(pending: seq<Path>, trace: seq<Request>, k: nat, p: Path, q: Path)
    requires NoDuplicates(pending) && Follows(Batched(pending), trace)
    requires k < |trace| && p in trace[k].group && Before(pending, q, p)
    ensures q in trace[k].group || q in SettledBy(trace[..k])
  {
    FollowsPrefix(Batched(pending), trace, k);
    LapInvariant(pending, trace[..k]);
    var queue := QueueAfter(Batched(pending), trace[..k]);
    var group, tail := queue[0], Flat(queue[1..]);
    assert q in Elements(pending) by {
      var i, j :| 0 <= i < j < |pending| && pending[i] == q && pending[j] == p;
    }
    SplitInOrder(pending, group, tail);
    ElementsConcat(group, tail);
    BeforeOnce(pending, q, p);
    assert q in tail ==> Before(pending, p, q);
  }

  /** No request names a path that an earlier request of the lap settled. */
  lemma NeverNamedAgain(pending: seq<Path>, trace: seq<Request>, k: nat)
    requires NoDuplicates(pending) && Follows(Batched(pending), trace) && k < |trace|
    ensures Elements(trace[k].group) !! SettledBy(trace[..k])
    ensures Elements(trace[k].group) <= Elements(pending)
  {
    FollowsPrefix(Batched(pending), trace, k);
    LapInvariant(pending, trace[..k]);
    var queue := QueueAfter(Batched(pending), trace[..k]);
    ElementsConcat(queue[0], Flat(queue[1..]));
  }

  ghost predicate Named(trace: seq<Request>, p: Path) {
    exists k :: 0 <= k < |trace| && p in trace[k].group
  }

  lemma {:induction false} SettledWasNamed(trace: seq<Request>, p: Path)
    requires p in SettledBy(trace)
    ensures Named(trace, p)
    decreases |trace|
  {
    var front, last := trace[..|trace| - 1], trace[|trace| - 1];
    if p in SettledBy(front) {
      SettledWasNamed(front, p);
      var k :| 0 <= k < |front| && p in front[k].group;
      assert trace[k] == front[k];
    } else {
      assert p in last.group;
    }
  }

  /** A lap that has emptied its queue has named exactly its paths, in groups of
      a hundred at most. */
  lemma LapNamesExactly(pending: seq<Path>, trace: seq<Request>, p: Path)
    requires NoDuplicates(pending) && Follows(Batched(pending), trace) && QueueAfter(Batched(pending), trace) == []
    ensures Named(trace, p) <==> p in pending
    ensures forall k :: 0 <= k < |trace| ==> 0 < |trace[k].group| <= 100
    ensures |trace| > 0 ==> trace[0].group == if |pending| <= 100 then pending else pending[..100]
  {
    LapInvariant(pending, trace);
    if |trace| > 0 {
      FollowsPrefix(Batched(pending), trace, 0);
      assert trace[..0] == [];
    }
    if p in pending {
      assert p in Elements(pending);
      SettledWasNamed(trace, p);
    }
    if Named(trace, p) {
      var k :| 0 <= k < |trace| && p in trace[k].group;
      NeverNamedAgain(pending, trace, k);
      assert p in Elements(trace[k].group) && p in Elements(pending);
    }
    forall k | 0 <= k < |trace|
      ensures 0 < |trace[k].group| <= 100
    {
      FollowsPrefix(Batched(pending), trace, k);
      GroupsAreSmall(pending, trace[..k]);
    }
  }

  lemma {:induction false} GroupsAreSmall(pending: seq<Path>, trace: seq<Request>)
    requires Follows(Batched(pending), trace)
    ensures forall g :: g in QueueAfter(Batched(pending), trace) ==> 0 < |g| <= BATCH_SIZE
    decreases |trace|
  {
    if |trace| > 0 {
      var front, last := trace[..|trace| - 1], trace[|trace| - 1];
      GroupsAreSmall(pending, front);
      assert last.group in QueueAfter(Batched(pending), front);
      RequeuedAreSmaller(last);
    }
  }

  lemma RequeuedAreSmaller(req: Request)
    ensures forall g :: g in Requeued(req) ==> 0 < |g| <= |req.group|
  {
  }

  /** What is still valid of a refused group. */
  ghost predicate RefusedWith(req: Request, valid: set<Path>) {
    req.answer == Refused(Valid(valid))
  }

  /** After a refusal of several paths the next request names the first half of
      those that are still valid, one at least. */
  lemma RefusalHalves(pending: seq<Path>, trace: seq<Request>, k: nat, valid: set<Path>)
    requires NoDuplicates(pending) && Follows(Batched(pending), trace) && k + 1 < |trace|
    requires |trace[k].group| > 1 && RefusedWith(trace[k], valid) && Elements(trace[k].group) * valid != {}
    ensures var left, next := Elements(trace[k].group) * valid, trace[k + 1].group;
            && |next| == (if |left| / 2 > 1 then |left| / 2 else 1) && Elements(next) <= left
            && forall x, y :: x in next && y in left && Before(pending, y, x) ==> y in next
  {
    var req, left, next := trace[k], Elements(trace[k].group) * valid, trace[k + 1].group;
    FollowsPrefix(Batched(pending), trace, k);
    FollowsPrefix(Batched(pending), trace, k + 1);
    LapInvariant(pending, trace[..k]);
    assert trace[..k + 1][..k] == trace[..k] && trace[..k + 1][k] == req;
    var queue := QueueAfter(Batched(pending), trace[..k]);
    assert QueueAfter(Batched(pending), trace[..k + 1]) == Requeued(req) + queue[1..];
    SplitInOrder(pending, req.group, Flat(queue[1..]));
    HalfOf(pending, req, valid);
    assert next == Requeued(req)[0];
  }

  lemma HalfOf(pending: seq<Path>, req: Request, valid: set<Path>)
    requires NoDuplicates(pending) && InOrderOf(pending, req.group) && |req.group| > 1 && RefusedWith(req, valid)
    requires Elements(req.group) * valid != {}
    ensures var left := Elements(req.group) * valid;
            && |Requeued(req)| > 0
            && var next := Requeued(req)[0];
               && |next| == (if |left| / 2 > 1 then |left| / 2 else 1) && Elements(next) <= left
               && forall x, y :: x in next && y in left && Before(pending, y, x) ==> y in next
  {
    var rest, left := Remaining(req), Elements(req.group) * valid;
    assert Elements(rest) == left;
    RemainingInOrder(pending, req);
    InOrderDistinct(pending, rest);
    ElementsSize(rest);
    var middle := if |rest| / 2 > 1 then |rest| / 2 else 1;
    FirstsAreFirst(pending, rest, middle);
  }

  lemma FirstsAreFirst(pending: seq<Path>, rest: seq<Path>, n: nat)
    requires NoDuplicates(pending) && InOrderOf(pending, rest) && n <= |rest|
    ensures Elements(rest[..n]) <= Elements(rest)
    ensures forall x, y :: x in rest[..n] && y in Elements(rest) && Before(pending, y, x) ==> y in rest[..n]
  {
    forall x, y | x in rest[..n] && y in Elements(rest) && Before(pending, y, x)
      ensures y in rest[..n]
    {
      var i :| 0 <= i < n && rest[i] == x;
      var j :| 0 <= j < |rest| && rest[j] == y;
      if j > i { BeforeOnce(pending, x, y); }
      if j < n { assert rest[..n][j] == y; }
      if j == i { BeforeOnce(pending, y, x); }
    }
  }

  /** The second lap keeps the order of the first: single refusals come back
      in the order the lap had them. */
  lemma {:induction false} RetryInOrder(pending: seq<Path>, trace: seq<Request>)
    requires NoDuplicates(pending) && Follows(Batched(pending), trace)
    ensures InOrderOf(pending, RetriedBy(trace))
    ensures AllBefore(pending, RetriedBy(trace), Flat(QueueAfter(Batched(pending), trace)))
  {
    if |trace| > 0 {
      var front, last := trace[..|trace| - 1], trace[|trace| - 1];
      RetryInOrder(pending, front);
      LapInvariant(pending, front);
      RetryStep(pending, RetriedBy(front), QueueAfter(Batched(pending), front), last);
    }
  }

  lemma RetryStep(pending: seq<Path>, retry: seq<Path>, queue: seq<seq<Path>>, req: Request)
    requires NoDuplicates(pending) && InOrderOf(pending, Flat(queue))
    requires InOrderOf(pending, retry) && AllBefore(pending, retry, Flat(queue))
    requires |queue| > 0 && req.group == queue[0]
    ensures InOrderOf(pending, retry + Retried(req))
    ensures AllBefore(pending, retry + Retried(req), Flat(Requeued(req) + queue[1..]))
  {
    var tail, back, more := Flat(queue[1..]), Flat(Requeued(req)), Retried(req);
    FlatConcat(Requeued(req), queue[1..]);
    SplitInOrder(pending, req.group, tail);
    RemainingInOrder(pending, req);
    RetriedSubset(req);
    assert Flat(queue) == req.group + tail;
    AllBeforeParts(pending, retry, req.group, tail, back, more);
    ConcatInOrder(pending, retry, more);
  }

  lemma RetriedSubset(req: Request)
    ensures forall x :: x in Flat(Requeued(req)) ==> x in req.group
    ensures forall x :: x in Retried(req) ==> x in req.group
    ensures |req.group| > 0 && Retried(req) != [] ==> Requeued(req) == []
  {
    assert forall x :: x in Remaining(req) ==> x in Elements(Remaining(req));
  }

  lemma AllBeforeParts(base: seq<Path>, retry: seq<Path>, group: seq<Path>, tail: seq<Path>, back: seq<Path>, more: seq<Path>)
    requires AllBefore(base, retry, group + tail) && AllBefore(base, group, tail)
    requires forall x :: x in back || x in more ==> x in group
    requires back == [] || more == []
    ensures AllBefore(base, retry, more) && AllBefore(base, retry + more, back + tail)
  {
    assert forall x :: x in group || x in tail ==> x in group + tail;
  }

  // ---- the sets a pass reports ----

  datatype Ledger = Ledger(deleted: set<Path>, recovered: set<Path>, spared: set<Path>,
                           uncertain: set<Path>, timedOut: set<Path>, freed: nat)

  const EMPTY := Ledger({}, {}, {}, {}, {}, 0)

  function Note(l: Ledger, req: Request): Ledger {
    match req.answer
    case Deleted(got, freed) =>
      l.(deleted := l.deleted + Gone(req), spared := l.spared + Spared(req), freed := l.freed + freed)
    case Refused(Valid(_)) =>
      l.(deleted := l.deleted + Gone(req), recovered := l.recovered + Gone(req))
    case Refused(RecheckFailed) =>
      l.(uncertain := l.uncertain + Lost(req))
    case Interrupted(timeout) =>
      l.(uncertain := l.uncertain + Lost(req), timedOut := l.timedOut + if timeout then Lost(req) else {})
  }

  function Tally(l: Ledger, trace: seq<Request>): Ledger {
    if |trace| == 0 then l else Note(Tally(l, trace[..|trace| - 1]), trace[|trace| - 1])
  }

  ghost predicate AllHonest(trace: seq<Request>) {
    forall k :: 0 <= k < |trace| ==> Honest(trace[k])
  }

  /** A request settles each path in exactly one way. */
  lemma SettledParts(req: Request)
    requires |req.group| > 0
    ensures Settled(req) <= Gone(req) + Spared(req) + Lost(req) + Elements(Retried(req))
    ensures Spared(req) !! Lost(req) !! Elements(Retried(req))
    ensures Honest(req) ==> Settled(req) == Gone(req) + Spared(req) + Lost(req) + Elements(Retried(req))
    ensures Honest(req) ==> Gone(req) !! Spared(req) !! Lost(req) !! Elements(Retried(req))
  {
  }

  /** The reported sets of a lap are disjoint, and together they are the paths
      the lap settled. */
  ghost predicate Split(settled: set<Path>, deleted: set<Path>, spared: set<Path>, lost: set<Path>, retry: set<Path>) {
    && settled == deleted + spared + lost + retry
    && deleted !! spared !! lost !! retry
  }

  lemma SplitStep(settled: set<Path>, l: Ledger, retry: seq<Path>, req: Request)
    requires Split(settled, l.deleted, l.spared, l.uncertain, Elements(retry))
    requires Honest(req) && |req.group| > 0 && Elements(req.group) !! settled
    ensures var n := Note(l, req);
            Split(settled + Settled(req), n.deleted, n.spared, n.uncertain, Elements(retry + Retried(req)))
  {
    SettledParts(req);
    ElementsConcat(retry, Retried(req));
    assert Settled(req) <= Elements(req.group);
    var n := Note(l, req);
    assert n.deleted == l.deleted + Gone(req);
    assert n.spared == l.spared + Spared(req);
    assert n.uncertain == l.uncertain + Lost(req);
  }

  lemma {:induction false} LapSplit(pending: seq<Path>, trace: seq<Request>)
    requires NoDuplicates(pending) && Follows(Batched(pending), trace) && AllHonest(trace)
    ensures var l := Tally(EMPTY, trace);
            Split(SettledBy(trace), l.deleted, l.spared, l.uncertain, Elements(RetriedBy(trace)))
  {
    if |trace| > 0 {
      var front, last := trace[..|trace| - 1], trace[|trace| - 1];
      LapSplit(pending, front);
      LapInvariant(pending, front);
      NeverNamedAgain(pending, trace, |front|);
      var queue := QueueAfter(Batched(pending), front);
      assert queue[0] in queue;
      SplitStep(SettledBy(front), Tally(EMPTY, front), RetriedBy(front), last);
    }
  }

  /** Every settled path is reported, whatever the daemon claims. */
  lemma {:induction false} LapReported(pending: seq<Path>, trace: seq<Request>)
    requires NoDuplicates(pending) && Follows(Batched(pending), trace)
    ensures var l := Tally(EMPTY, trace);
            SettledBy(trace) <= l.deleted + l.spared + l.uncertain + Elements(RetriedBy(trace))
  {
    if |trace| > 0 {
      var front, last := trace[..|trace| - 1], trace[|trace| - 1];
      LapReported(pending, front);
      LapInvariant(pending, front);
      var queue := QueueAfter(Batched(pending), front);
      assert queue[0] in queue;
      ReportedStep(SettledBy(front), Tally(EMPTY, front), RetriedBy(front), last);
    }
  }

  lemma ReportedStep(settled: set<Path>, l: Ledger, retry: seq<Path>, req: Request)
    requires settled <= l.deleted + l.spared + l.uncertain + Elements(retry) && |req.group| > 0
    ensures var n := Note(l, req);
            settled + Settled(req) <= n.deleted + n.spared + n.uncertain + Elements(retry + Retried(req))
  {
    SettledParts(req);
    ElementsConcat(retry, Retried(req));
  }

  lemma {:induction false} TallyShift(l: Ledger, trace: seq<Request>)
    ensures var a, b := Tally(l, trace), Tally(EMPTY, trace);
            && a.deleted == l.deleted + b.deleted
            && a.recovered == l.recovered + b.recovered
            && a.spared == l.spared + b.spared
            && a.uncertain == l.uncertain + b.uncertain
            && a.timedOut == l.timedOut + b.timedOut
            && a.freed == l.freed + b.freed
  {
    if |trace| > 0 {
      TallyShift(l, trace[..|trace| - 1]);
    }
  }

  // ---- the loop ----

  /** A connection whose request was interrupted carries no further request. */
  ghost predicate CleanConnections(trace: seq<Request>) {
    forall j, k :: 0 <= j < k < |trace| && trace[j].conn == trace[k].conn ==> !Dirty(trace[j])
  }

  lemma FollowsStep(queue: seq<seq<Path>>, trace: seq<Request>, req: Request, l: Ledger)
    requires Follows(queue, trace)
    requires |QueueAfter(queue, trace)| > 0 && req.group == QueueAfter(queue, trace)[0]
    ensures Follows(queue, trace + [req])
    ensures QueueAfter(queue, trace + [req]) == Requeued(req) + QueueAfter(queue, trace)[1..]
    ensures RetriedBy(trace + [req]) == RetriedBy(trace) + Retried(req)
    ensures Tally(l, trace + [req]) == Note(Tally(l, trace), req)
  {
    assert (trace + [req])[..|trace|] == trace;
  }

  type Daemon = (nat, seq<Path>) -> Answer

  /** Where the lap stands between two requests. */
  ghost predicate LapRun(daemon: Daemon, asked: nat, conn0: nat, start: seq<seq<Path>>, ledger0: Ledger,
                         trace: seq<Request>, queue: seq<seq<Path>>, retry: seq<Path>, ledger: Ledger, conn: nat) {
    && Follows(start, trace) && queue == QueueAfter(start, trace)
    && retry == RetriedBy(trace) && ledger == Tally(ledger0, trace)
    && (forall k :: 0 <= k < |trace| ==> trace[k].answer == daemon(asked + k, trace[k].group))
    && (forall k :: 0 <= k < |trace| ==> conn0 < trace[k].conn <= conn)
    && conn0 <= conn
    && CleanConnections(trace)
  }

  lemma LapRunStep(daemon: Daemon, asked: nat, conn0: nat, start: seq<seq<Path>>, ledger0: Ledger,
                   trace: seq<Request>, queue: seq<seq<Path>>, retry: seq<Path>, ledger: Ledger, conn: nat, req: Request)
    requires LapRun(daemon, asked, conn0, start, ledger0, trace, queue, retry, ledger, conn)
    requires |queue| > 0 && conn0 < conn && req == Request(conn, queue[0], daemon(asked + |trace|, queue[0]))
    requires forall k :: 0 <= k < |trace| && trace[k].conn == conn ==> !Dirty(trace[k])
    ensures LapRun(daemon, asked, conn0, start, ledger0, trace + [req], Requeued(req) + queue[1..],
                   retry + Retried(req), Note(ledger, req), conn)
  {
    FollowsStep(start, trace, req, ledger0);
    RecordStep(daemon, asked, conn0, trace, conn, req);
  }

  lemma RecordStep(daemon: Daemon, asked: nat, conn0: nat, trace: seq<Request>, conn: nat, req: Request)
    requires forall k :: 0 <= k < |trace| ==> trace[k].answer == daemon(asked + k, trace[k].group)
    requires forall k :: 0 <= k < |trace| ==> conn0 < trace[k].conn <= conn
    requires CleanConnections(trace)
    requires forall k :: 0 <= k < |trace| && trace[k].conn == conn ==> !Dirty(trace[k])
    requires conn0 < conn == req.conn && req.answer == daemon(asked + |trace|, req.group)
    ensures var longer := trace + [req];
            && (forall k :: 0 <= k < |longer| ==> longer[k].answer == daemon(asked + k, longer[k].group))
            && (forall k :: 0 <= k < |longer| ==> conn0 < longer[k].conn <= conn)
            && CleanConnections(longer)
  {
  }

  /** What a refusal sends back: halves to the front of the queue, a single
      path to the next lap. */
  method Absorb(queue0: seq<seq<Path>>, retry0: seq<Path>, req: Request) returns (queue: seq<seq<Path>>, retry: seq<Path>)
    ensures queue == Requeued(req) + queue0
    ensures retry == retry0 + Retried(req)
  {
    queue, retry := queue0, retry0;
    var remaining := Remaining(req);
    if |req.group| == 1 {
      retry := retry + remaining;
    } else if |remaining| > 0 {
      var middle := if |remaining| / 2 > 1 then |remaining| / 2 else 1;
      if |remaining[middle..]| > 0 {
        queue := [remaining[middle..]] + queue;
      }
      queue := [remaining[..middle]] + queue;
    }
  }

  method RunLap(daemon: Daemon, asked: nat, conn0: nat, pending: seq<Path>, ledger0: Ledger)
      returns (trace: seq<Request>, retry: seq<Path>, ledger: Ledger, conn: nat)
    requires NoDuplicates(pending)
    ensures LapRun(daemon, asked, conn0, Batched(pending), ledger0, trace, [], retry, ledger, conn)
  {
    var queue := Batched(pending);
    ghost var start := queue;
    trace, retry, ledger, conn := [], [], ledger0, conn0;
    while |queue| > 0
      invariant LapRun(daemon, asked, conn0, start, ledger0, trace, queue, retry, ledger, conn)
      decreases Cost(start) - |trace|
    {
      conn := conn + 1;
      ghost var before := |trace|;
      LapRoom(pending, trace);
      while |queue| > 0
        invariant LapRun(daemon, asked, conn0, start, ledger0, trace, queue, retry, ledger, conn)
        invariant forall k :: 0 <= k < |trace| && trace[k].conn == conn ==> !Dirty(trace[k])
        invariant before <= |trace| && (|trace| > before || |queue| > 0)
        decreases Cost(start) - |trace|
      {
        LapRoom(pending, trace);
        var req := Request(conn, queue[0], daemon(asked + |trace|, queue[0]));
        LapRunStep(daemon, asked, conn0, start, ledger0, trace, queue, retry, ledger, conn, req);
        queue, retry := Absorb(queue[1..], retry, req);
        ledger := Note(ledger, req);
        trace := trace + [req];
        if Dirty(req) {
          break;
        }
      }
    }
  }

  lemma LapRoom(pending: seq<Path>, trace: seq<Request>)
    requires NoDuplicates(pending) && Follows(Batched(pending), trace)
    requires |QueueAfter(Batched(pending), trace)| > 0
    ensures |trace| < Cost(Batched(pending))
  {
    LapInvariant(pending, trace);
    CostNonNegative(QueueAfter(Batched(pending), trace));
  }

  // ---- the whole pass ----

  /** The two laps: the second takes the single refusals of the first that
      nothing found deleted since. */
  ghost predicate Laps(pending: seq<Path>, first: seq<Request>, again: seq<Path>, second: seq<Request>) {
    && Follows(Batched(pending), first) && QueueAfter(Batched(pending), first) == []
    && again == StillRefused(RetriedBy(first), Tally(EMPTY, first))
    && Follows(Batched(again), second) && QueueAfter(Batched(again), second) == []
  }

  function StillRefused(retry: seq<Path>, ledger: Ledger): (r: seq<Path>)
    ensures Elements(r) == Elements(retry) - ledger.deleted
  {
    Filter(retry, Elements(retry) - ledger.deleted)
  }

  lemma SecondLapPaths(pending: seq<Path>, first: seq<Request>, again: seq<Path>, second: seq<Request>)
    requires NoDuplicates(pending) && Laps(pending, first, again, second)
    ensures NoDuplicates(again) && InOrderOf(pending, again)
    ensures |again| <= |pending| && Elements(again) <= Elements(pending)
  {
    RetryInOrder(pending, first);
    var retry := RetriedBy(first);
    FilterInOrder(pending, retry, Elements(retry) - Tally(EMPTY, first).deleted);
    InOrderDistinct(pending, again);
    InOrderDistinct(pending, retry);
    RetriedOfLap(pending, first);
    ElementsSize(again);
    ElementsSize(pending);
    ReferrerFirst.Closure.SubsetSizeLe(Elements(again), Elements(pending));
  }

  lemma {:induction false} RetriedOfLap(pending: seq<Path>, trace: seq<Request>)
    requires NoDuplicates(pending) && Follows(Batched(pending), trace)
    ensures Elements(RetriedBy(trace)) <= Elements(pending)
  {
    if |trace| > 0 {
      var front, last := trace[..|trace| - 1], trace[|trace| - 1];
      RetriedOfLap(pending, front);
      NeverNamedAgain(pending, trace, |front|);
      RetriedSubset(last);
      ElementsConcat(RetriedBy(front), Retried(last));
    }
  }

  /** A pass over n paths makes at most 2n - 1 delete requests in each lap. */
  lemma PassRequestBound(pending: seq<Path>, first: seq<Request>, again: seq<Path>, second: seq<Request>)
    requires NoDuplicates(pending) && |pending| > 0 && Laps(pending, first, again, second)
    ensures |first| <= 2 * |pending| - 1
    ensures |again| > 0 ==> |second| <= 2 * |again| - 1
    ensures |again| == 0 ==> |second| == 0
    ensures |again| <= |pending|
  {
    SecondLapPaths(pending, first, again, second);
    LapRequestBound(pending, first);
    if |again| > 0 {
      LapRequestBound(again, second);
    } else {
      LapInvariant(again, second);
    }
  }

  /** The lap ended with an outcome for the path that is not a refusal. */
  predicate HadOutcome(trace: seq<Request>, q: Path) {
    var l := Tally(EMPTY, trace);
    q in l.deleted || q in l.spared || q in l.uncertain
  }

  lemma NotAgainHadOutcome(pending: seq<Path>, first: seq<Request>, again: seq<Path>, second: seq<Request>, q: Path)
    requires NoDuplicates(pending) && Laps(pending, first, again, second) && q in pending && q !in again
    ensures HadOutcome(first, q)
  {
    LapDone(pending, first);
    assert q in Elements(pending) && q !in Elements(again);
  }

  /** At every request of either lap, a batch path that stands before a named
      one is in the same request, was settled earlier in that lap, or had its
      outcome in the first lap. */
  lemma PassKeepsOrder(pending: seq<Path>, first: seq<Request>, again: seq<Path>, second: seq<Request>,
                       k: nat, p: Path, q: Path)
    requires NoDuplicates(pending) && Laps(pending, first, again, second)
    requires Before(pending, q, p)
    ensures k < |first| && p in first[k].group ==> q in first[k].group || q in SettledBy(first[..k])
    ensures k < |second| && p in second[k].group ==>
              q in second[k].group || q in SettledBy(second[..k]) || HadOutcome(first, q)
  {
    if k < |first| && p in first[k].group {
      NamedInOrder(pending, first, k, p, q);
    }
    SecondLapPaths(pending, first, again, second);
    assert q in pending;
    if q !in again { NotAgainHadOutcome(pending, first, again, second, q); }
    if k < |second| && p in second[k].group && q in again {
      NeverNamedAgain(again, second, k);
      assert p in Elements(again);
      OrderWithin(pending, again, q, p);
      NamedInOrder(again, second, k, p, q);
    }
  }

  lemma OrderWithin(base: seq<Path>, s: seq<Path>, q: Path, p: Path)
    requires NoDuplicates(base) && InOrderOf(base, s)
    requires q in s && p in s && Before(base, q, p)
    ensures Before(s, q, p)
  {
    var i :| 0 <= i < |s| && s[i] == q;
    var j :| 0 <= j < |s| && s[j] == p;
    BeforeOnce(base, q, p);
    forall a, b | 0 <= a < b < |s|
      ensures !(s[a] == p && s[b] == q)
    { assert Before(base, s[a], s[b]); }
    assert i < j;
  }

  /** When the batch is in referrer-first order, no request names a path ahead
      of an in-batch referrer whose turn in that lap is still to come. */
  lemma ReferrersNamedFirst(paths: seq<Path>, children: ReferrerFirst.Batch, batch: seq<Path>,
                            first: seq<Request>, again: seq<Path>, second: seq<Request>, k: nat, p: Path, q: Path)
    requires ReferrerFirst.GreedyOrder(paths, children, batch)
    requires Laps(batch, first, again, second)
    requires p in batch && q in children && p in children[q]
    ensures k < |first| && p in first[k].group ==> q in first[k].group || q in SettledBy(first[..k])
    ensures k < |second| && p in second[k].group ==>
              q in second[k].group || q in SettledBy(second[..k]) || HadOutcome(first, q)
  {
    ReferrerFirst.GreedyNoDuplicates(paths, children, batch);
    var j :| 0 <= j < |batch| && batch[j] == p;
    ReferrerFirst.ReferrersComeFirst(paths, children, batch, j, q);
    assert Before(batch, q, p);
    PassKeepsOrder(batch, first, again, second, k, p, q);
  }

  /** The report of an honest daemon: the sets are disjoint and they are the
      batch. `refused` is what both laps refused. */
  lemma PassSplit(pending: seq<Path>, first: seq<Request>, again: seq<Path>, second: seq<Request>)
    requires NoDuplicates(pending) && Laps(pending, first, again, second)
    requires AllHonest(first) && AllHonest(second)
    ensures var l := Tally(Tally(EMPTY, first), second);
            && Split(Elements(pending), l.deleted, l.spared, l.uncertain, Elements(RetriedBy(second)))
            && Elements(StillRefused(RetriedBy(second), l)) == Elements(RetriedBy(second))
    ensures Elements(again) == Elements(RetriedBy(first))
  {
    SecondLapPaths(pending, first, again, second);
    LapDone(pending, first);
    LapDone(again, second);
    TallyShift(Tally(EMPTY, first), second);
    var a, b := Tally(EMPTY, first), Tally(EMPTY, second);
    SplitTwice(Elements(pending), a.deleted, a.spared, a.uncertain, Elements(RetriedBy(first)),
               b.deleted, b.spared, b.uncertain, Elements(RetriedBy(second)));
  }

  lemma LapDone(pending: seq<Path>, trace: seq<Request>)
    requires NoDuplicates(pending) && Follows(Batched(pending), trace)
    requires QueueAfter(Batched(pending), trace) == []
    ensures var l := Tally(EMPTY, trace);
            && Elements(pending) <= l.deleted + l.spared + l.uncertain + Elements(RetriedBy(trace))
            && (AllHonest(trace) ==>
                  Split(Elements(pending), l.deleted, l.spared, l.uncertain, Elements(RetriedBy(trace))))
  {
    LapInvariant(pending, trace);
    LapReported(pending, trace);
    if AllHonest(trace) {
      LapSplit(pending, trace);
    }
  }

  /** Splitting what is left over splits the whole. */
  lemma SplitTwice(all: set<Path>, d: set<Path>, s: set<Path>, u: set<Path>, r: set<Path>,
                   d': set<Path>, s': set<Path>, u': set<Path>, r': set<Path>)
    requires Split(all, d, s, u, r) && Split(r, d', s', u', r')
    ensures Split(all, d + d', s + s', u + u', r')
  {
  }

  /** Whatever the daemon claims, every batch path is in some reported set. */
  lemma PassReported(pending: seq<Path>, first: seq<Request>, again: seq<Path>, second: seq<Request>)
    requires NoDuplicates(pending) && Laps(pending, first, again, second)
    ensures var l := Tally(Tally(EMPTY, first), second);
            Elements(pending) <= l.deleted + l.spared + l.uncertain + Elements(StillRefused(RetriedBy(second), l))
  {
    SecondLapPaths(pending, first, again, second);
    LapDone(pending, first);
    LapDone(again, second);
    TallyShift(Tally(EMPTY, first), second);
    var a, b := Tally(EMPTY, first), Tally(EMPTY, second);
    CoverTwice(Elements(pending), a.deleted, a.spared, a.uncertain, Elements(RetriedBy(first)),
               b.deleted, b.spared, b.uncertain, Elements(RetriedBy(second)));
  }

  lemma CoverTwice(all: set<Path>, d: set<Path>, s: set<Path>, u: set<Path>, r: set<Path>,
                   d': set<Path>, s': set<Path>, u': set<Path>, r': set<Path>)
    requires all <= d + s + u + r && r - d <= d' + s' + u' + r'
    ensures all <= (d + d') + (s + s') + (u + u') + (r' - (d + d'))
  {
    forall x | x in all
      ensures x in d + d' || x in s + s' || x in u + u' || x in r' - (d + d')
    { assert x in r - d ==> x in d' + s' + u' + r'; }
  }

  /** No request of the first lap names a path that is known deleted, was
      spared, or was in an interrupted group. */
  lemma FirstLapNamesUnfinished(pending: seq<Path>, trace: seq<Request>, k: nat)
    requires NoDuplicates(pending) && Follows(Batched(pending), trace) && AllHonest(trace)
    requires k < |trace|
    ensures var l := Tally(EMPTY, trace[..k]);
            Elements(trace[k].group) !! l.deleted + l.spared + l.uncertain
  {
    NeverNamedAgain(pending, trace, k);
    FollowsPrefix(Batched(pending), trace, k);
    LapSplit(pending, trace[..k]);
  }

  /** Nor does a request of the second lap. */
  lemma SecondLapNamesUnfinished(pending: seq<Path>, first: seq<Request>, again: seq<Path>, second: seq<Request>, k: nat)
    requires NoDuplicates(pending) && Laps(pending, first, again, second)
    requires AllHonest(first) && AllHonest(second)
    requires k < |second|
    ensures var l := Tally(Tally(EMPTY, first), second[..k]);
            Elements(second[k].group) !! l.deleted + l.spared + l.uncertain
  {
    SecondLapPaths(pending, first, again, second);
    FirstLapNamesUnfinished(again, second, k);
    NeverNamedAgain(again, second, k);
    SecondLapUnfinished(pending, first, again, second);
    TallyShift(Tally(EMPTY, first), second[..k]);
    var group, a, b := Elements(second[k].group), Tally(EMPTY, first), Tally(EMPTY, second[..k]);
    DisjointUnion(group, a.deleted, a.spared, a.uncertain, b.deleted, b.spared, b.uncertain);
  }

  lemma SecondLapUnfinished(pending: seq<Path>, first: seq<Request>, again: seq<Path>, second: seq<Request>)
    requires NoDuplicates(pending) && Laps(pending, first, again, second) && AllHonest(first)
    ensures var l := Tally(EMPTY, first); Elements(again) !! l.deleted + l.spared + l.uncertain
  {
    LapDone(pending, first);
  }

  lemma DisjointUnion(g: set<Path>, d: set<Path>, s: set<Path>, u: set<Path>, d': set<Path>, s': set<Path>, u': set<Path>)
    requires g !! d + s + u && g !! d' + s' + u'
    ensures g !! (d + d') + (s + s') + (u + u')
  {
  }

  /** What rechecks of the groups find gone. */
  function Confirmed(groups: seq<seq<Path>>, confirm: Confirm, n: nat): (gone: set<Path>)
    requires n <= |groups|
    ensures gone <= Elements(Flat(groups))
  {
    if n == 0 then {} else
      var answer := confirm(n - 1, groups[n - 1]);
      InFlat(groups, n - 1);
      Confirmed(groups, confirm, n - 1) + (if answer.Valid? then Elements(groups[n - 1]) - answer.paths else {})
  }

  lemma {:induction false} InFlat(groups: seq<seq<Path>>, n: nat)
    requires n < |groups|
    ensures Elements(groups[n]) <= Elements(Flat(groups))
  {
    ElementsConcat(groups[0], Flat(groups[1..]));
    if n > 0 {
      InFlat(groups[1..], n - 1);
    }
  }

  type Confirm = (nat, seq<Path>) -> Recheck

  method RecheckGroups(groups: seq<seq<Path>>, confirm: Confirm) returns (gone: set<Path>)
    ensures gone == Confirmed(groups, confirm, |groups|)
  {
    gone := {};
    for i := 0 to |groups|
      invariant gone == Confirmed(groups, confirm, i)
    {
      var answer := confirm(i, groups[i]);
      if answer.Valid? {
        gone := gone + (Elements(groups[i]) - answer.paths);
      }
    }
  }

  /** One last recheck of the paths whose outcome is unknown, 100 at a time. */
  function ConfirmedLost(uncertain: set<Path>, confirm: Confirm): (gone: set<Path>)
    ensures gone <= uncertain
  {
    var groups := Batched(Sorted(uncertain));
    Confirmed(groups, confirm, |groups|)
  }

  /** What the pass reports: `spared` is as the laps left it, and the last
      recheck moves paths from `uncertain` to `deleted` only. */
  datatype Outcome = Outcome(first: seq<Request>, again: seq<Path>, second: seq<Request>,
                             ledger: Ledger, lost: set<Path>, refused: set<Path>)

  /** The trace is what the daemon answered, and no connection was used again
      after an interruption. */
  ghost predicate Recorded(daemon: Daemon, first: seq<Request>, second: seq<Request>) {
    && (forall k :: 0 <= k < |first| ==> first[k].answer == daemon(k, first[k].group))
    && (forall k :: 0 <= k < |second| ==> second[k].answer == daemon(|first| + k, second[k].group))
    && CleanConnections(first + second)
  }

  // ---- what the report means, answer by answer ----

  /** What an answer can say of a path. */
  datatype Saying = ToldDeleted | FoundGone | LeftOut | InDoubt | TimedOut | RefusedAlone

  predicate Says(what: Saying, req: Request, p: Path) {
    match what
    case ToldDeleted => req.answer.Deleted? && p in req.answer.got
    case FoundGone => p in req.group && req.answer.Refused? && req.answer.recheck.Valid? && p !in req.answer.recheck.paths
    case LeftOut => p in req.group && req.answer.Deleted? && p !in req.answer.got
    case InDoubt => p in req.group && (req.answer.Interrupted? || (req.answer.Refused? && req.answer.recheck.RecheckFailed?))
    case TimedOut => p in req.group && req.answer.Interrupted? && req.answer.timeout
    case RefusedAlone => req.group == [p] && req.answer.Refused? && req.answer.recheck.Valid? && p in req.answer.recheck.paths
  }

  ghost predicate Ever(what: Saying, trace: seq<Request>, p: Path) {
    exists k :: 0 <= k < |trace| && Says(what, trace[k], p)
  }

  /** The bytes the daemon reported in all. */
  function BytesReported(trace: seq<Request>): nat {
    if |trace| == 0 then 0
    else (if trace[0].answer.Deleted? then trace[0].answer.freed else 0) + BytesReported(trace[1..])
  }

  /** The recheck at the end, 100 paths at a time in path order, finds it gone. */
  ghost predicate GoneAtLast(doubtful: seq<Path>, confirm: Confirm, p: Path) {
    exists i :: 0 <= i < |doubtful| && doubtful[i] == p && FoundGoneAt(doubtful, confirm, i)
  }

  predicate FoundGoneAt(doubtful: seq<Path>, confirm: Confirm, i: nat)
    requires i < |doubtful|
  {
    var answer := confirm(i / BATCH_SIZE, Hundred(doubtful, i / BATCH_SIZE));
    answer.Valid? && doubtful[i] !in answer.paths
  }

  /** The paths from place 100n up to place 100(n + 1). */
  function Hundred(s: seq<Path>, n: nat): seq<Path>
    requires n * BATCH_SIZE <= |s|
  {
    if (n + 1) * BATCH_SIZE < |s| then s[n * BATCH_SIZE..(n + 1) * BATCH_SIZE] else s[n * BATCH_SIZE..]
  }

  /** The report, from the answers alone. */
  ghost predicate Reports(o: Outcome, confirm: Confirm) {
    var all := o.first + o.second;
    && (forall p :: p in o.ledger.deleted <==>
          Ever(ToldDeleted, all, p) || Ever(FoundGone, all, p) || GoneAtLast(Sorted(o.ledger.uncertain), confirm, p))
    && (forall p :: p in o.ledger.recovered <==>
          Ever(FoundGone, all, p) || GoneAtLast(Sorted(o.ledger.uncertain), confirm, p))
    && (forall p :: p in o.ledger.spared <==> Ever(LeftOut, all, p))
    && (forall p :: p in o.ledger.uncertain <==> Ever(InDoubt, all, p))
    && (forall p :: p in o.ledger.timedOut <==> Ever(TimedOut, all, p))
    && (forall p :: p in o.lost <==> Ever(InDoubt, all, p) && p !in o.ledger.deleted)
    && (forall p :: p in o.refused <==> Ever(RefusedAlone, o.second, p) && p !in o.ledger.deleted)
    && (forall p :: p in o.again <==>
          Ever(RefusedAlone, o.first, p) && !Ever(ToldDeleted, o.first, p) && !Ever(FoundGone, o.first, p))
    && o.ledger.freed == BytesReported(all)
  }

  lemma EverLast(what: Saying, trace: seq<Request>, p: Path)
    requires |trace| > 0
    ensures Ever(what, trace, p) <==> Ever(what, trace[..|trace| - 1], p) || Says(what, trace[|trace| - 1], p)
  {
    var front := trace[..|trace| - 1];
    if Ever(what, trace, p) && !Says(what, trace[|trace| - 1], p) {
      var k :| 0 <= k < |trace| && Says(what, trace[k], p);
      assert front[k] == trace[k];
    }
    if Ever(what, front, p) {
      var k :| 0 <= k < |front| && Says(what, front[k], p);
      assert trace[k] == front[k];
    }
  }

  lemma EverConcat(what: Saying, a: seq<Request>, b: seq<Request>, p: Path)
    ensures Ever(what, a + b, p) <==> Ever(what, a, p) || Ever(what, b, p)
  {
    if Ever(what, a, p) {
      var k :| 0 <= k < |a| && Says(what, a[k], p);
      assert (a + b)[k] == a[k];
    }
    if Ever(what, b, p) {
      var k :| 0 <= k < |b| && Says(what, b[k], p);
      assert (a + b)[|a| + k] == b[k];
    }
    if Ever(what, a + b, p) {
      var k :| 0 <= k < |a + b| && Says(what, (a + b)[k], p);
      assert (a + b)[k] == if k < |a| then a[k] else b[k - |a|];
    }
  }

  lemma {:induction false} BytesLast(trace: seq<Request>)
    requires |trace| > 0
    ensures BytesReported(trace) == BytesReported(trace[..|trace| - 1])
            + if trace[|trace| - 1].answer.Deleted? then trace[|trace| - 1].answer.freed else 0
    decreases |trace|
  {
    if |trace| > 1 {
      BytesLast(trace[1..]);
      assert trace[1..][..|trace| - 2] == trace[..|trace| - 1][1..];
    }
  }

  /** One request, set by set. */
  lemma NoteMeans(l: Ledger, req: Request, p: Path)
    ensures var n := Note(l, req);
            && (p in n.deleted <==> p in l.deleted || Says(ToldDeleted, req, p) || Says(FoundGone, req, p))
            && (p in n.recovered <==> p in l.recovered || Says(FoundGone, req, p))
            && (p in n.spared <==> p in l.spared || Says(LeftOut, req, p))
            && (p in n.uncertain <==> p in l.uncertain || Says(InDoubt, req, p))
            && (p in n.timedOut <==> p in l.timedOut || Says(TimedOut, req, p))
            && n.freed == l.freed + (if req.answer.Deleted? then req.answer.freed else 0)
  {
  }

  lemma {:induction false} TallyMeans(trace: seq<Request>, p: Path)
    ensures var l := Tally(EMPTY, trace);
            && (p in l.deleted <==> Ever(ToldDeleted, trace, p) || Ever(FoundGone, trace, p))
            && (p in l.recovered <==> Ever(FoundGone, trace, p))
            && (p in l.spared <==> Ever(LeftOut, trace, p))
            && (p in l.uncertain <==> Ever(InDoubt, trace, p))
            && (p in l.timedOut <==> Ever(TimedOut, trace, p))
            && l.freed == BytesReported(trace)
    decreases |trace|
  {
    if |trace| > 0 {
      var front, last := trace[..|trace| - 1], trace[|trace| - 1];
      TallyMeans(front, p);
      NoteMeans(Tally(EMPTY, front), last, p);
      EverLast(ToldDeleted, trace, p);
      EverLast(FoundGone, trace, p);
      EverLast(LeftOut, trace, p);
      EverLast(InDoubt, trace, p);
      EverLast(TimedOut, trace, p);
      BytesLast(trace);
    }
  }

  lemma RetriedMeans(req: Request, p: Path)
    ensures p in Retried(req) <==> Says(RefusedAlone, req, p)
  {
    if |req.group| == 1 {
      assert p in Remaining(req) <==> p in Elements(Remaining(req));
      assert p in Elements(req.group) <==> req.group == [p];
    }
  }

  lemma {:induction false} RetriedByMeans(trace: seq<Request>, p: Path)
    ensures p in RetriedBy(trace) <==> Ever(RefusedAlone, trace, p)
    decreases |trace|
  {
    if |trace| > 0 {
      RetriedByMeans(trace[..|trace| - 1], p);
      RetriedMeans(trace[|trace| - 1], p);
      EverLast(RefusedAlone, trace, p);
    }
  }

  lemma {:induction false} TalliesConcat(first: seq<Request>, second: seq<Request>)
    ensures Tally(Tally(EMPTY, first), second) == Tally(EMPTY, first + second)
    decreases |second|
  {
    if |second| == 0 {
      assert first + second == first;
    } else {
      var front := second[..|second| - 1];
      TalliesConcat(first, front);
      assert (first + second)[..|first + second| - 1] == first + front;
    }
  }

  lemma {:induction false} BatchedAt(pending: seq<Path>, n: nat)
    requires n < |Batched(pending)|
    ensures n * BATCH_SIZE < |pending| && Batched(pending)[n] == Hundred(pending, n)
    decreases |pending|
  {
    if |pending| > BATCH_SIZE && n > 0 {
      BatchedAt(pending[BATCH_SIZE..], n - 1);
      HundredShift(pending, n);
    }
  }

  lemma HundredShift(s: seq<Path>, n: nat)
    requires 0 < n && n * BATCH_SIZE <= |s|
    ensures Hundred(s[BATCH_SIZE..], n - 1) == Hundred(s, n)
  {
  }

  lemma HundredHolds(s: seq<Path>, n: nat, j: nat)
    requires n * BATCH_SIZE <= |s| && j < |Hundred(s, n)|
    ensures n * BATCH_SIZE + j < |s| && s[n * BATCH_SIZE + j] == Hundred(s, n)[j] && (n * BATCH_SIZE + j) / BATCH_SIZE == n
  {
  }

  lemma HundredOf(s: seq<Path>, i: nat)
    requires i < |s|
    ensures s[i] in Hundred(s, i / BATCH_SIZE)
  {
    var n := i / BATCH_SIZE;
    assert Hundred(s, n)[i - n * BATCH_SIZE] == s[i];
  }

  lemma {:induction false} BatchedCount(pending: seq<Path>)
    ensures |pending| <= |Batched(pending)| * BATCH_SIZE
    decreases |pending|
  {
    if |pending| > BATCH_SIZE { BatchedCount(pending[BATCH_SIZE..]); }
  }

  lemma {:induction false} ConfirmedMeans(groups: seq<seq<Path>>, confirm: Confirm, n: nat, p: Path)
    requires n <= |groups|
    ensures p in Confirmed(groups, confirm, n) <==>
              exists k :: 0 <= k < n && p in groups[k] && confirm(k, groups[k]).Valid? && p !in confirm(k, groups[k]).paths
    decreases n
  {
    if n > 0 { ConfirmedMeans(groups, confirm, n - 1, p); }
  }

  lemma ConfirmedLostMeans(uncertain: set<Path>, confirm: Confirm, p: Path)
    ensures p in ConfirmedLost(uncertain, confirm) <==> GoneAtLast(Sorted(uncertain), confirm, p)
  {
    var s := Sorted(uncertain);
    var groups := Batched(s);
    ConfirmedMeans(groups, confirm, |groups|, p);
    if p in ConfirmedLost(uncertain, confirm) {
      var k :| 0 <= k < |groups| && p in groups[k] && confirm(k, groups[k]).Valid? && p !in confirm(k, groups[k]).paths;
      BatchedAt(s, k);
      var j :| 0 <= j < |groups[k]| && groups[k][j] == p;
      HundredHolds(s, k, j);
      assert FoundGoneAt(s, confirm, k * BATCH_SIZE + j);
    }
    if GoneAtLast(s, confirm, p) {
      var i :| 0 <= i < |s| && s[i] == p && FoundGoneAt(s, confirm, i);
      GroupIsThere(s, i);
      BatchedAt(s, i / BATCH_SIZE);
      HundredOf(s, i);
    }
  }

  lemma GroupIsThere(s: seq<Path>, i: nat)
    requires i < |s|
    ensures i / BATCH_SIZE < |Batched(s)|
  {
    BatchedCount(s);
  }

  lemma ReportMeans(o: Outcome, confirm: Confirm, l: Ledger, gone: set<Path>, refused: seq<Path>)
    requires l == Tally(Tally(EMPTY, o.first), o.second) && gone == ConfirmedLost(l.uncertain, confirm)
    requires o.again == StillRefused(RetriedBy(o.first), Tally(EMPTY, o.first)) && refused == StillRefused(RetriedBy(o.second), l)
    requires o.ledger == l.(deleted := l.deleted + gone, recovered := l.recovered + gone)
    requires o.lost == l.uncertain - o.ledger.deleted && o.refused == Elements(refused) - o.ledger.deleted
    ensures Reports(o, confirm)
  {
    var all := o.first + o.second;
    TalliesConcat(o.first, o.second);
    TallyMeans(all, "");
    forall p
      ensures p in l.deleted <==> Ever(ToldDeleted, all, p) || Ever(FoundGone, all, p)
      ensures p in l.recovered <==> Ever(FoundGone, all, p)
      ensures p in l.spared <==> Ever(LeftOut, all, p)
      ensures p in l.uncertain <==> Ever(InDoubt, all, p)
      ensures p in l.timedOut <==> Ever(TimedOut, all, p)
      ensures p in gone <==> GoneAtLast(Sorted(l.uncertain), confirm, p)
      ensures p in RetriedBy(o.second) <==> Ever(RefusedAlone, o.second, p)
    {
      TallyMeans(all, p);
      ConfirmedLostMeans(l.uncertain, confirm, p);
      RetriedByMeans(o.second, p);
    }
    forall p
      ensures p in o.again <==>
                Ever(RefusedAlone, o.first, p) && !Ever(ToldDeleted, o.first, p) && !Ever(FoundGone, o.first, p)
    {
      TallyMeans(o.first, p);
      RetriedByMeans(o.first, p);
      assert p in o.again <==> p in Elements(o.again);
    }
  }

  /** The answers leave no choice: two reports of the same requests are equal. */
  lemma ReportedOnce(o: Outcome, o': Outcome, confirm: Confirm)
    requires Reports(o, confirm) && Reports(o', confirm) && o.first == o'.first && o.second == o'.second
    ensures o.ledger == o'.ledger && o.lost == o'.lost && o.refused == o'.refused
  {
    assert o.ledger.uncertain == o'.ledger.uncertain;
    assert o.ledger.deleted == o'.ledger.deleted;
    assert o.ledger.recovered == o'.ledger.recovered;
    assert o.ledger.spared == o'.ledger.spared && o.ledger.timedOut == o'.ledger.timedOut;
  }

  method RunLaps(pending: seq<Path>, daemon: Daemon)
      returns (first: seq<Request>, again: seq<Path>, second: seq<Request>, ledger: Ledger, refused: seq<Path>)
    requires NoDuplicates(pending)
    ensures Laps(pending, first, again, second) && Recorded(daemon, first, second)
    ensures ledger == Tally(Tally(EMPTY, first), second)
    ensures refused == StillRefused(RetriedBy(second), ledger)
  {
    var retry, conn;
    first, retry, ledger, conn := RunLap(daemon, 0, 0, pending, EMPTY);
    again := StillRefused(retry, ledger);
    SecondLap(pending, first);
    var retry2, conn2;
    second, retry2, ledger, conn2 := RunLap(daemon, |first|, conn, again, ledger);
    ConcatClean(first, second, conn);
    refused := StillRefused(retry2, ledger);
  }

  lemma ReportSplit(pending: seq<Path>, first: seq<Request>, again: seq<Path>, second: seq<Request>,
                    l: Ledger, gone: set<Path>, refused: set<Path>)
    requires NoDuplicates(pending) && Laps(pending, first, again, second)
    requires l == Tally(Tally(EMPTY, first), second) && gone <= l.uncertain
    requires refused == Elements(StillRefused(RetriedBy(second), l))
    ensures Elements(pending)
         <= (l.deleted + gone) + l.spared + (l.uncertain - (l.deleted + gone)) + (refused - (l.deleted + gone))
    ensures AllHonest(first) && AllHonest(second) ==>
              Split(Elements(pending), l.deleted + gone, l.spared, l.uncertain - (l.deleted + gone), refused - (l.deleted + gone))
  {
    PassReported(pending, first, again, second);
    if AllHonest(first) && AllHonest(second) {
      PassSplit(pending, first, again, second);
      ConfirmSplit(Elements(pending), l.deleted, l.spared, l.uncertain, refused, gone);
    }
  }

  /** Moving unknown paths to the deleted ones keeps the split. */
  lemma ConfirmSplit(all: set<Path>, d: set<Path>, s: set<Path>, u: set<Path>, r: set<Path>, gone: set<Path>)
    requires Split(all, d, s, u, r) && gone <= u
    ensures Split(all, d + gone, s, u - (d + gone), r - (d + gone))
  {
  }

  /** Delete a batch. Every run ends, every path is reported, the report says what
      the answers said, and with a daemon that reports only named paths as deleted
      it splits the batch. */
  method Delete(batch: seq<Path>, daemon: Daemon, confirm: Confirm) returns (o: Outcome)
    ensures Laps(ReferrerFirst.FirstOccurrences(batch), o.first, o.again, o.second)
    ensures Recorded(daemon, o.first, o.second)
    ensures Elements(batch) <= o.ledger.deleted + o.ledger.spared + o.lost + o.refused
    ensures AllHonest(o.first) && AllHonest(o.second) ==>
              Split(Elements(batch), o.ledger.deleted, o.ledger.spared, o.lost, o.refused)
    ensures Reports(o, confirm)
  {
    var pending := ReferrerFirst.FirstOccurrences(batch);
    var first, again, second, ledger, refused := RunLaps(pending, daemon);
    var gone := RecheckGroups(Batched(Sorted(ledger.uncertain)), confirm);
    assert gone == ConfirmedLost(ledger.uncertain, confirm);
    ReportSplit(pending, first, again, second, ledger, gone, Elements(refused));
    var deleted := ledger.deleted + gone;
    o := Outcome(first, again, second, ledger.(deleted := deleted, recovered := ledger.recovered + gone),
                 ledger.uncertain - deleted, Elements(refused) - deleted);
    ReportMeans(o, confirm, ledger, gone, refused);
  }

  lemma SecondLap(pending: seq<Path>, first: seq<Request>)
    requires NoDuplicates(pending) && Follows(Batched(pending), first)
    ensures NoDuplicates(StillRefused(RetriedBy(first), Tally(EMPTY, first)))
  {
    RetryInOrder(pending, first);
    var retry := RetriedBy(first);
    FilterInOrder(pending, retry, Elements(retry) - Tally(EMPTY, first).deleted);
    InOrderDistinct(pending, StillRefused(retry, Tally(EMPTY, first)));
  }

  lemma ConcatClean(first: seq<Request>, second: seq<Request>, conn: nat)
    requires CleanConnections(first) && CleanConnections(second)
    requires forall k :: 0 <= k < |first| ==> first[k].conn <= conn
    requires forall k :: 0 <= k < |second| ==> conn < second[k].conn
    ensures CleanConnections(first + second)
  {
  }
}
