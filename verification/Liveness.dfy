/** The liveness mirror (`RootsTracker`): it recomputes the live closure only
    when the roots, the volatile set or the fingerprint of the store moved. */
module Liveness {
  import opened Wrappers
  import opened StoreDb
  import Closure
  import Ordering

  type Link = string

  datatype Root = Root(target: Path, kind: string)

  /** The roots table: link to target. */
  type Roots = map<Link, Root>

  function Targets(roots: Roots): (r: set<Path>)
    ensures forall p :: p in r <==> exists link :: link in roots && roots[link].target == p
  {
    set link | link in roots :: roots[link].target
  }

  // ---- the store over time ----

  /** The rows, and a number above every id ever handed out. */
  datatype Store = Store(rows: Db, next: Id)

  datatype Write = Insert(id: Id, row: Row) | Delete(id: Id)

  /** A new row has an id above all earlier ones and a path of its own. */
  predicate Legal(s: Store, w: Write) {
    w.Insert? ==> w.id >= s.next && forall i :: i in s.rows ==> s.rows[i].path != w.row.path
  }

  function Apply(s: Store, w: Write): Store
    requires Legal(s, w)
  {
    match w
    case Insert(id, row) => Store(s.rows[id := row], id + 1)
    case Delete(id) => Store(s.rows - {id}, s.next)
  }

  ghost predicate AllLegal(s: Store, ws: seq<Write>)
    decreases |ws|
  {
    |ws| == 0 || (Legal(s, ws[0]) && AllLegal(Apply(s, ws[0]), ws[1..]))
  }

  function ApplyAll(s: Store, ws: seq<Write>): Store
    requires AllLegal(s, ws)
    decreases |ws|
  {
    if |ws| == 0 then s else ApplyAll(Apply(s, ws[0]), ws[1..])
  }

  ghost predicate UniquePaths(db: Db) {
    forall i, j :: i in db && j in db && db[i].path == db[j].path ==> i == j
  }

  ghost predicate ValidStore(s: Store) {
    UniquePaths(s.rows) && forall i :: i in s.rows ==> i < s.next
  }

  /** What every history of inserts with growing ids and deletes leaves: a row
      of `b` is a row of `a`, or its id is newer than all of `a`. */
  ghost predicate Descends(a: Store, b: Store) {
    && a.next <= b.next
    && forall i :: i in b.rows ==> (i in a.rows && a.rows[i] == b.rows[i]) || i >= a.next
  }

  lemma {:induction false} HistoryDescends(s: Store, ws: seq<Write>)
    requires ValidStore(s) && AllLegal(s, ws)
    ensures Descends(s, ApplyAll(s, ws)) && ValidStore(ApplyAll(s, ws))
    decreases |ws|
  {
    if |ws| > 0 {
      HistoryDescends(Apply(s, ws[0]), ws[1..]);
    }
  }

  lemma DescendsTransitive(a: Store, b: Store, c: Store)
    requires Descends(a, b) && Descends(b, c)
    ensures Descends(a, c)
  {
  }

  // ---- the fingerprint ----

  function MaxId(rows: Db): (m: Id)
    ensures forall i :: i in rows ==> i <= m
    ensures rows == map[] ==> m == 0
    ensures rows != map[] ==> m in rows
  {
    if rows == map[] then 0 else
      var i := Ordering.Smallest(rows.Keys);
      var rest := rows - {i};
      var m := MaxId(rest);
      assert forall j :: j in rows ==> j == i || j in rest;
      if i >= m then i else m
  }

  type Fingerprint = (nat, Id)

  /** `(row count, max id)` */
  function FingerprintOf(rows: Db): Fingerprint {
    (|rows|, MaxId(rows))
  }

  ghost predicate SubDb(a: Db, b: Db) {
    forall i :: i in a ==> i in b && a[i] == b[i]
  }

  lemma SubDbSameSize(a: Db, b: Db)
    requires SubDb(a, b) && |a| == |b|
    ensures a == b
  {
    assert a.Keys <= b.Keys && |a.Keys| == |a| && |b.Keys| == |b|;
    if a.Keys != b.Keys {
      Closure.SubsetSize(a.Keys, b.Keys);
      assert false;
    }
  }

  /** Over any history, an unchanged fingerprint means unchanged rows. */
  lemma FingerprintSound(a: Store, b: Store)
    requires ValidStore(a) && Descends(a, b)
    ensures FingerprintOf(a.rows) == FingerprintOf(b.rows) <==> a.rows == b.rows
  {
    if FingerprintOf(a.rows) == FingerprintOf(b.rows) {
      if b.rows != map[] {
        assert a.rows != map[] by { assert |b.rows| == |a.rows|; MapSize(b.rows); }
        assert MaxId(a.rows) < a.next;
      }
      SubDbSameSize(b.rows, a.rows);
    }
  }

  lemma MapSize(m: Db)
    requires m != map[]
    ensures |m| > 0
  {
    assert m.Keys != {};
  }

  /** A row that is back at the end of a history never left it. */
  lemma SurvivorsStay(a: Store, m: Store, b: Store)
    requires ValidStore(a) && Descends(a, m) && Descends(m, b) && a.rows == b.rows
    ensures SubDb(a.rows, m.rows)
  {
  }

  /** With ids that SQLite may hand out again, the fingerprint is blind to a
      delete of the newest row and an insert after it. */
  lemma ReusedIdFoolsFingerprint()
    ensures var a: Db := map[1 := Row("a", {}, None), 2 := Row("b", {}, None)];
            var b: Db := (a - {2})[2 := Row("c", {}, None)];
            && MaxId(a - {2}) + 1 == 2
            && FingerprintOf(a) == FingerprintOf(b)
            && a != b
  {
    var a: Db := map[1 := Row("a", {}, None), 2 := Row("b", {}, None)];
    var rest := a - {2};
    var b: Db := rest[2 := Row("c", {}, None)];
    assert 1 in rest && forall i :: i in rest ==> i == 1;
    assert rest.Keys == {1} && a.Keys == {1, 2} && b.Keys == {1, 2};
    assert |a.Keys| == |a| && |b.Keys| == |b|;
    assert 2 in a && 2 in b;
    assert a[2].path != b[2].path;
  }

  // ---- the live set grows with the store ----

  lemma LiveEdgesMonotone(a: Db, b: Db, i: Id)
    requires SubDb(a, b) && i in a
    ensures LiveEdges(a)[i] <= Closure.Succ(LiveEdges(b), i)
  {
    assert DeriverOf(a, i) <= DeriverOf(b, i);
    forall r | r in Closure.Next(ReferenceEdges(a), DeriverOf(a, i))
      ensures r in Closure.Next(ReferenceEdges(b), DeriverOf(b, i))
    {
      var d :| d in DeriverOf(a, i) && d in ReferenceEdges(a) && r in ReferenceEdges(a)[d];
      assert d in DeriverOf(b, i) && d in ReferenceEdges(b) && r in ReferenceEdges(b)[d];
    }
  }

  lemma LiveMonotone(a: Db, b: Db, roots: set<Path>, volatile: set<Path>)
    requires SubDb(a, b)
    ensures QueryLiveSet(a, roots, volatile) <= QueryLiveSet(b, roots, volatile)
  {
    var small, large := LiveEdges(a), LiveEdges(b);
    forall i | i in small
      ensures small[i] <= Closure.Succ(large, i)
    { LiveEdgesMonotone(a, b, i); }
    Closure.CloseEdgesMonotone(small, large, IdsOf(a, roots + volatile), IdsOf(b, roots + volatile));
  }

  // ---- the tracker ----

  /** The fields `refresh` keeps between passes. */
  datatype Cache = Cache(fingerprint: Option<Fingerprint>, lastVolatile: set<Path>, live: set<Path>)

  const EMPTY := Cache(None, {}, {})

  predicate Hit(c: Cache, dirty: bool, volatile: set<Path>, fingerprint: Fingerprint) {
    !dirty && volatile == c.lastVolatile && c.fingerprint == Some(fingerprint) && c.live != {}
  }

  /** A pass: `before` is the store the fingerprint reads, `after` the one the
      closure query reads. */
  function Refreshed(c: Cache, dirty: bool, before: Db, after: Db, stable: Roots, volatile: set<Path>): Cache {
    if Hit(c, dirty, volatile, FingerprintOf(before)) then c
    else Cache(Some(FingerprintOf(before)), volatile, QueryLiveSet(after, Targets(stable), volatile))
  }

  /** The cached set was computed at store `queried`, from these roots and
      volatile paths, and is marked with the fingerprint of store `read`, which
      came first. */
  ghost predicate Explains(c: Cache, seeds: set<Path>, read: Store, queried: Store, now: Store) {
    && ValidStore(read) && ValidStore(queried) && ValidStore(now)
    && Descends(read, queried) && Descends(queried, now)
    && c.fingerprint == Some(FingerprintOf(read.rows))
    && c.live == QueryLiveSet(queried.rows, seeds, {})
  }

  lemma HitMeansSameRows(c: Cache, seeds: set<Path>, read: Store, queried: Store, now: Store)
    requires Explains(c, seeds, read, queried, now) && c.fingerprint == Some(FingerprintOf(now.rows))
    ensures read.rows == now.rows && SubDb(now.rows, queried.rows)
  {
    DescendsTransitive(read, queried, now);
    FingerprintSound(read, now);
    SurvivorsStay(read, queried, now);
  }

  // ---- which seeds give which live set ----

  /** Every seed that is a valid path is in the set. */
  predicate SeedsIn(db: Db, seeds: set<Path>, live: set<Path>) {
    seeds * AllPaths(db) <= live
  }

  lemma LiveOfUnion(db: Db, roots: set<Path>, volatile: set<Path>)
    ensures QueryLiveSet(db, roots, volatile) == QueryLiveSet(db, roots + volatile, {})
  {
    assert roots + volatile + {} == roots + volatile;
  }

  lemma SeedsAreLive(db: Db, seeds: set<Path>)
    ensures SeedsIn(db, seeds, QueryLiveSet(db, seeds, {}))
  {
    forall p | p in seeds * AllPaths(db)
      ensures p in QueryLiveSet(db, seeds, {})
    {
      var i :| i in db && db[i].path == p;
      assert i in IdsOf(db, seeds + {});
    }
  }

  lemma SeedRowsKept(db: Db, more: Db, seeds: set<Path>, ids: set<Id>)
    requires SubDb(db, more) && UniquePaths(more) && SeedsIn(db, seeds, PathsOf(more, ids))
    ensures IdsOf(db, seeds) <= ids
  {
    forall i | i in IdsOf(db, seeds)
      ensures i in ids
    {
      assert db[i].path in seeds * AllPaths(db);
      var j :| j in ids && j in more && more[j].path == db[i].path;
    }
  }

  /** A live set over more rows holds the live set of other seeds exactly when it
      holds those seeds. */
  lemma CoversIff(db: Db, more: Db, seeds: set<Path>, cached: set<Path>)
    requires SubDb(db, more) && UniquePaths(more)
    ensures QueryLiveSet(db, seeds, {}) <= QueryLiveSet(more, cached, {})
       <==> SeedsIn(db, seeds, QueryLiveSet(more, cached, {}))
  {
    SeedsAreLive(db, seeds);
    var ids := Closure.Close(LiveEdges(more), IdsOf(more, cached + {}));
    if SeedsIn(db, seeds, PathsOf(more, ids)) {
      assert seeds + {} == seeds;
      SeedRowsKept(db, more, seeds, ids);
      forall i | i in LiveEdges(db)
        ensures LiveEdges(db)[i] <= Closure.Succ(LiveEdges(more), i)
      { LiveEdgesMonotone(db, more, i); }
      Closure.CloseLeast(LiveEdges(db), IdsOf(db, seeds + {}), ids);
    }
  }

  /** A row of the larger store whose path is valid in the smaller is a row of
      the smaller. */
  lemma ValidRowIsKept(db: Db, more: Db, i: Id)
    requires SubDb(db, more) && UniquePaths(more) && i in more && more[i].path in AllPaths(db)
    ensures i in db && db[i] == more[i]
  {
    var j :| j in db && db[j].path == more[i].path;
  }

  /** The rows that are live over the larger store, as far as they are live over
      the smaller or no rows at all. */
  function StillLive(db: Db, more: Db, seeds: set<Path>): set<Id> {
    set i | i in Closure.Close(LiveEdges(more), IdsOf(more, seeds)) && (i in Closure.Close(LiveEdges(db), IdsOf(db, seeds)) || i !in more)
  }

  /** An edge between rows of the smaller store, whose deriver rows are too. */
  lemma EdgeIsKept(db: Db, more: Db, x: Id, y: Id)
    requires SubDb(db, more) && x in db && x in more && y in db && DeriverOf(more, x) <= DeriverOf(db, x)
    requires y in Closure.Succ(LiveEdges(more), x)
    ensures y in Closure.Succ(LiveEdges(db), x)
  {
    if y in Closure.Next(ReferenceEdges(more), DeriverOf(more, x)) {
      var d :| d in DeriverOf(more, x) && d in ReferenceEdges(more) && y in ReferenceEdges(more)[d];
      assert d in DeriverOf(db, x) && d in ReferenceEdges(db) && y in ReferenceEdges(db)[d];
    }
  }

  lemma DerivedRowsKept(db: Db, more: Db, seeds: set<Path>, x: Id)
    requires SubDb(db, more) && UniquePaths(more) && QueryLiveSet(more, seeds, {}) <= AllPaths(db)
    requires x in Closure.Close(LiveEdges(more), IdsOf(more, seeds)) && x in more && x in db
    ensures DeriverOf(more, x) <= DeriverOf(db, x)
  {
    forall d | d in DeriverOf(more, x)
      ensures d in DeriverOf(db, x)
    {
      assert d in Closure.Succ(LiveEdges(more), x);
      LiveRowIsKept(db, more, seeds, d);
    }
  }

  lemma LiveStepIsKept(db: Db, more: Db, seeds: set<Path>, x: Id, y: Id)
    requires SubDb(db, more) && UniquePaths(more) && QueryLiveSet(more, seeds, {}) <= AllPaths(db)
    requires x in StillLive(db, more, seeds) && y in Closure.Succ(LiveEdges(more), x)
    ensures y in StillLive(db, more, seeds)
  {
    if y in more {
      LiveRowIsKept(db, more, seeds, x);
      LiveRowIsKept(db, more, seeds, y);
      DerivedRowsKept(db, more, seeds, x);
      EdgeIsKept(db, more, x, y);
    }
  }

  lemma LiveRowIsKept(db: Db, more: Db, seeds: set<Path>, i: Id)
    requires SubDb(db, more) && UniquePaths(more) && QueryLiveSet(more, seeds, {}) <= AllPaths(db)
    requires i in Closure.Close(LiveEdges(more), IdsOf(more, seeds)) && i in more
    ensures i in db && db[i] == more[i]
  {
    assert seeds + {} == seeds;
    assert more[i].path in QueryLiveSet(more, seeds, {});
    ValidRowIsKept(db, more, i);
  }

  /** When every path that is live over more rows is still valid over fewer, it is
      live over the fewer. */
  lemma ValidLiveSetIsLive(db: Db, more: Db, seeds: set<Path>)
    requires SubDb(db, more) && UniquePaths(more) && QueryLiveSet(more, seeds, {}) <= AllPaths(db)
    ensures QueryLiveSet(more, seeds, {}) <= QueryLiveSet(db, seeds, {})
  {
    assert seeds + {} == seeds;
    forall i | i in IdsOf(more, seeds)
      ensures i in StillLive(db, more, seeds)
    { LiveRowIsKept(db, more, seeds, i); }
    forall x, y | x in StillLive(db, more, seeds) && y in Closure.Succ(LiveEdges(more), x)
      ensures y in StillLive(db, more, seeds)
    { LiveStepIsKept(db, more, seeds, x, y); }
    Closure.CloseLeast(LiveEdges(more), IdsOf(more, seeds), StillLive(db, more, seeds));
    forall p | p in QueryLiveSet(more, seeds, {})
      ensures p in QueryLiveSet(db, seeds, {})
    {
      var i :| i in Closure.Close(LiveEdges(more), IdsOf(more, seeds)) && i in more && more[i].path == p;
      LiveRowIsKept(db, more, seeds, i);
    }
  }

  /** A live set over more rows is the live set of other seeds exactly when it
      holds those seeds, its own are live now, and its paths are all valid. */
  lemma SameLiveIff(db: Db, more: Db, seeds: set<Path>, cached: set<Path>)
    requires SubDb(db, more) && UniquePaths(more)
    ensures var now, live := QueryLiveSet(db, seeds, {}), QueryLiveSet(more, cached, {});
            now == live <==> SeedsIn(db, seeds, live) && SeedsIn(db, cached, now) && live <= AllPaths(db)
  {
    var now, live := QueryLiveSet(db, seeds, {}), QueryLiveSet(more, cached, {});
    CoversIff(db, more, seeds, cached);
    CoversIff(db, db, cached, seeds);
    SeedsAreLive(db, cached);
    LiveMonotone(db, more, cached, {});
    if live <= AllPaths(db) { ValidLiveSetIsLive(db, more, cached); }
  }

  // ---- runs ----

  /** What happens to the store and the tracker: a write of Nix; a pass, with the
      writes that land between its fingerprint and its closure query; a pass that
      raises after it wrote the roots table and before it has a new live set; a
      pass that raises while it writes the snapshot; and a pass of another
      tracker, which writes the same roots table. */
  datatype Event =
    | Wrote(write: Write)
    | Refresh(stable: Roots, volatile: set<Path>, during: seq<Write>)
    | FailedEarly(stable: Roots)
    | FailedLate(stable: Roots, volatile: set<Path>, during: seq<Write>)
    | OtherTracker(stable: Roots)

  /** `read`, `queried` and `seeds` remember where the cached set comes from;
      `whole` says that since it was recomputed no pass failed late, and none
      that failed early, or of another tracker, changed the roots. */
  datatype World = World(store: Store, roots: Roots, cache: Cache, read: Store, queried: Store, seeds: set<Path>, whole: bool)

  ghost predicate Possible(w: World, e: Event) {
    match e
    case Wrote(write) => Legal(w.store, write)
    case Refresh(_, _, during) => AllLegal(w.store, during)
    case FailedEarly(_) => true
    case OtherTracker(_) => true
    case FailedLate(stable, volatile, during) =>
      AllLegal(w.store, during) && !Hit(w.cache, w.roots != stable, volatile, FingerprintOf(w.store.rows))
  }

  /** A hit makes no query, so nothing happens during it. */
  function Step(w: World, e: Event): World
    requires Possible(w, e)
  {
    match e
    case Wrote(write) => w.(store := Apply(w.store, write))
    case Refresh(stable, volatile, during) =>
      var dirty := w.roots != stable;
      if Hit(w.cache, dirty, volatile, FingerprintOf(w.store.rows)) then w
      else
        var after := ApplyAll(w.store, during);
        World(after, stable, Refreshed(w.cache, dirty, w.store.rows, after.rows, stable, volatile), w.store, after,
              Targets(stable) + volatile, true)
    case FailedEarly(stable) => w.(roots := stable, whole := w.whole && stable == w.roots)
    case OtherTracker(stable) => w.(roots := stable, whole := w.whole && stable == w.roots)
    case FailedLate(stable, volatile, during) =>
      var after := ApplyAll(w.store, during);
      w.(store := after, roots := stable, cache := w.cache.(live := QueryLiveSet(after.rows, Targets(stable), volatile)),
         queried := after, seeds := Targets(stable) + volatile, whole := false)
  }

  ghost predicate Sound(w: World) {
    && ValidStore(w.store)
    && (w.cache.fingerprint.Some? ==> Explains(w.cache, w.seeds, w.read, w.queried, w.store))
    && (w.cache.fingerprint.Some? && w.whole ==> w.seeds == Targets(w.roots) + w.cache.lastVolatile)
  }

  lemma StepSound(w: World, e: Event)
    requires Sound(w) && Possible(w, e)
    ensures Sound(Step(w, e))
  {
    match e
    case Wrote(write) =>
      assert Descends(w.store, Apply(w.store, write)) && ValidStore(Apply(w.store, write));
    case Refresh(stable, volatile, during) =>
      HistoryDescends(w.store, during);
      LiveOfUnion(ApplyAll(w.store, during).rows, Targets(stable), volatile);
    case FailedEarly(_) =>
    case OtherTracker(_) =>
    case FailedLate(stable, volatile, during) =>
      HistoryDescends(w.store, during);
      LiveOfUnion(ApplyAll(w.store, during).rows, Targets(stable), volatile);
      if w.cache.fingerprint.Some? { DescendsTransitive(w.read, w.queried, w.store); }
      if w.cache.fingerprint.Some? { DescendsTransitive(w.read, w.store, ApplyAll(w.store, during)); }
  }

  ghost predicate AllPossible(w: World, es: seq<Event>)
    decreases |es|
  {
    |es| == 0 || (Possible(w, es[0]) && AllPossible(Step(w, es[0]), es[1..]))
  }

  function Run(w: World, es: seq<Event>): World
    requires AllPossible(w, es)
    decreases |es|
  {
    if |es| == 0 then w else Run(Step(w, es[0]), es[1..])
  }

  lemma {:induction false} RunSound(w: World, es: seq<Event>)
    requires Sound(w) && AllPossible(w, es)
    ensures Sound(Run(w, es))
    decreases |es|
  {
    if |es| > 0 {
      StepSound(w, es[0]);
      RunSound(Step(w, es[0]), es[1..]);
    }
  }

  /** No write lands inside a pass. */
  ghost predicate Undisturbed(es: seq<Event>) {
    forall k :: 0 <= k < |es| && es[k].Refresh? ==> es[k].during == []
  }

  lemma {:induction false} UndisturbedReadsOnce(w: World, es: seq<Event>)
    requires AllPossible(w, es) && Undisturbed(es) && (w.whole ==> w.read.rows == w.queried.rows)
    ensures Run(w, es).whole ==> Run(w, es).read.rows == Run(w, es).queried.rows
    decreases |es|
  {
    if |es| > 0 {
      assert es[0].Refresh? ==> es[0].during == [];
      forall k | 0 <= k < |es[1..]| && es[1..][k].Refresh?
        ensures es[1..][k].during == []
      { assert es[1..][k] == es[k + 1]; }
      UndisturbedReadsOnce(Step(w, es[0]), es[1..]);
    }
  }

  function Fresh(store: Store, roots: Roots): World {
    World(store, roots, EMPTY, store, store, {}, true)
  }

  /** A cached answer holds every live path exactly when it holds the roots and
      volatile paths of now that are valid. */
  lemma HitCoversIff(w: World, volatile: set<Path>)
    requires Sound(w) && Hit(w.cache, false, volatile, FingerprintOf(w.store.rows))
    ensures QueryLiveSet(w.store.rows, Targets(w.roots), volatile) <= w.cache.live
       <==> SeedsIn(w.store.rows, Targets(w.roots) + volatile, w.cache.live)
  {
    HitMeansSameRows(w.cache, w.seeds, w.read, w.queried, w.store);
    LiveOfUnion(w.store.rows, Targets(w.roots), volatile);
    CoversIff(w.store.rows, w.queried.rows, Targets(w.roots) + volatile, w.seeds);
  }

  /** It is the live set exactly when besides every seed it was computed from is
      live now and all its paths are still valid. */
  predicate HitIsExact(w: World, volatile: set<Path>) {
    && SeedsIn(w.store.rows, Targets(w.roots) + volatile, w.cache.live)
    && SeedsIn(w.store.rows, w.seeds, QueryLiveSet(w.store.rows, Targets(w.roots), volatile))
    && w.cache.live <= AllPaths(w.store.rows)
  }

  lemma HitExactIff(w: World, volatile: set<Path>)
    requires Sound(w) && Hit(w.cache, false, volatile, FingerprintOf(w.store.rows))
    ensures QueryLiveSet(w.store.rows, Targets(w.roots), volatile) == w.cache.live <==> HitIsExact(w, volatile)
  {
    HitMeansSameRows(w.cache, w.seeds, w.read, w.queried, w.store);
    LiveOfUnion(w.store.rows, Targets(w.roots), volatile);
    SameLiveIff(w.store.rows, w.queried.rows, Targets(w.roots) + volatile, w.seeds);
  }

  /** When the set was recomputed for the roots and volatile paths of now, only a
      path that is gone can make it wrong. */
  lemma WholeHitExactIff(w: World, volatile: set<Path>)
    requires Sound(w) && Hit(w.cache, false, volatile, FingerprintOf(w.store.rows)) && w.whole
    ensures QueryLiveSet(w.store.rows, Targets(w.roots), volatile) == w.cache.live <==> w.cache.live <= AllPaths(w.store.rows)
  {
    HitExactIff(w, volatile);
    HitMeansSameRows(w.cache, w.seeds, w.read, w.queried, w.store);
    LiveOfUnion(w.store.rows, Targets(w.roots), volatile);
    SeedsAreLive(w.store.rows, w.seeds);
    LiveMonotone(w.store.rows, w.queried.rows, w.seeds, {});
  }

  lemma PassExactIff(w: World, stable: Roots, volatile: set<Path>, during: seq<Write>)
    requires Sound(w) && Possible(w, Refresh(stable, volatile, during))
    ensures var w' := Step(w, Refresh(stable, volatile, during));
            var hit := Hit(w.cache, w.roots != stable, volatile, FingerprintOf(w.store.rows));
            && w'.roots == stable
            && (w'.cache.live == QueryLiveSet(w'.store.rows, Targets(stable), volatile) <==> (hit ==> HitIsExact(w, volatile)))
            && (w.whole ==>
                  (w'.cache.live == QueryLiveSet(w'.store.rows, Targets(stable), volatile) <==>
                     (hit ==> w.cache.live <= AllPaths(w.store.rows))))
  {
    if Hit(w.cache, w.roots != stable, volatile, FingerprintOf(w.store.rows)) {
      HitExactIff(w, volatile);
      if w.whole { WholeHitExactIff(w, volatile); }
    }
  }

  /** After any run, with disturbed and failed passes and other trackers, a pass
      answers the live set of a fresh computation exactly when it recomputes or
      the cached set holds the seeds of now, came from seeds that are live, and
      names no path that is gone. When nothing but completed passes came since
      the last recomputation, the last of these decides. */
  lemma RefreshExactIff(s: Store, roots: Roots, es: seq<Event>, stable: Roots, volatile: set<Path>, during: seq<Write>)
    requires ValidStore(s) && AllPossible(Fresh(s, roots), es)
    requires Possible(Run(Fresh(s, roots), es), Refresh(stable, volatile, during))
    ensures var w := Run(Fresh(s, roots), es);
            var w' := Step(w, Refresh(stable, volatile, during));
            var hit := Hit(w.cache, w.roots != stable, volatile, FingerprintOf(w.store.rows));
            && w'.roots == stable
            && (w'.cache.live == QueryLiveSet(w'.store.rows, Targets(stable), volatile) <==> (hit ==> HitIsExact(w, volatile)))
            && (w.whole ==>
                  (w'.cache.live == QueryLiveSet(w'.store.rows, Targets(stable), volatile) <==>
                     (hit ==> w.cache.live <= AllPaths(w.store.rows))))
  {
    RunSound(Fresh(s, roots), es);
    PassExactIff(Run(Fresh(s, roots), es), stable, volatile, during);
  }

  /** After any run, failed passes included, a pass answers at least the live set
      of a fresh computation, except exactly for a cached answer that lacks a
      valid root or volatile path of now. */
  lemma RefreshCoversIff(s: Store, roots: Roots, es: seq<Event>, stable: Roots, volatile: set<Path>, during: seq<Write>)
    requires ValidStore(s) && AllPossible(Fresh(s, roots), es)
    requires Possible(Run(Fresh(s, roots), es), Refresh(stable, volatile, during))
    ensures var w := Run(Fresh(s, roots), es);
            var w' := Step(w, Refresh(stable, volatile, during));
            && w'.roots == stable
            && (QueryLiveSet(w'.store.rows, Targets(stable), volatile) <= w'.cache.live <==>
                  (Hit(w.cache, w.roots != stable, volatile, FingerprintOf(w.store.rows)) ==>
                     SeedsIn(w.store.rows, Targets(stable) + volatile, w.cache.live)))
  {
    RunSound(Fresh(s, roots), es);
    var w := Run(Fresh(s, roots), es);
    if Hit(w.cache, w.roots != stable, volatile, FingerprintOf(w.store.rows)) { HitCoversIff(w, volatile); }
  }

  /** So when since the last recomputation no pass failed and no other tracker
      changed the roots, a pass misses no live path. */
  lemma RefreshNeverMissesALivePath(s: Store, roots: Roots, es: seq<Event>, stable: Roots, volatile: set<Path>, during: seq<Write>)
    requires ValidStore(s) && AllPossible(Fresh(s, roots), es) && Run(Fresh(s, roots), es).whole
    requires Possible(Run(Fresh(s, roots), es), Refresh(stable, volatile, during))
    ensures var w := Step(Run(Fresh(s, roots), es), Refresh(stable, volatile, during));
            && w.roots == stable
            && QueryLiveSet(w.store.rows, Targets(stable), volatile) <= w.cache.live
  {
    RunSound(Fresh(s, roots), es);
    var w := Run(Fresh(s, roots), es);
    if Hit(w.cache, w.roots != stable, volatile, FingerprintOf(w.store.rows)) {
      HitMeansSameRows(w.cache, w.seeds, w.read, w.queried, w.store);
      LiveOfUnion(w.store.rows, Targets(stable), volatile);
      LiveMonotone(w.store.rows, w.queried.rows, w.seeds, {});
    }
  }

  /** Of rows that were read once, no path is gone when the fingerprint is back. */
  lemma NothingGone(w: World)
    requires Sound(w) && w.read.rows == w.queried.rows && w.cache.fingerprint == Some(FingerprintOf(w.store.rows))
    ensures w.cache.live <= AllPaths(w.store.rows)
  {
    HitMeansSameRows(w.cache, w.seeds, w.read, w.queried, w.store);
  }

  /** When besides no write lands inside a pass, it answers exactly the live set
      of the store, whether it recomputes or not. */
  lemma RefreshIsExact(s: Store, roots: Roots, es: seq<Event>, stable: Roots, volatile: set<Path>)
    requires ValidStore(s) && AllPossible(Fresh(s, roots), es) && Undisturbed(es) && Run(Fresh(s, roots), es).whole
    ensures var w := Step(Run(Fresh(s, roots), es), Refresh(stable, volatile, []));
            && w.roots == stable
            && w.cache.live == QueryLiveSet(w.store.rows, Targets(stable), volatile)
  {
    RunSound(Fresh(s, roots), es);
    UndisturbedReadsOnce(Fresh(s, roots), es);
    RefreshExactIff(s, roots, es, stable, volatile, []);
    var w := Run(Fresh(s, roots), es);
    if Hit(w.cache, w.roots != stable, volatile, FingerprintOf(w.store.rows)) { NothingGone(w); }
  }

  // ---- where the hypotheses matter ----

  lemma RootedRowIsLive(db: Db, roots: set<Path>, i: Id)
    requires i in db && db[i].path in roots
    ensures db[i].path in QueryLiveSet(db, roots, {})
  {
    assert i in IdsOf(db, roots + {});
  }

  /** A pass in which a row lands between the fingerprint and the query. */
  lemma DisturbedPass(s: Store, roots: Roots, row: Row)
    requires row.path !in AllPaths(s.rows)
    ensures var e := Refresh(roots, {}, [Insert(s.next, row)]);
            var more := Store(s.rows[s.next := row], s.next + 1);
            && Possible(Fresh(s, map[]), e)
            && Step(Fresh(s, map[]), e)
               == World(more, roots,
                        Cache(Some(FingerprintOf(s.rows)), {}, QueryLiveSet(more.rows, Targets(roots), {})), s, more,
                        Targets(roots) + {}, true)
  {
    var insert := Insert(s.next, row);
    assert Legal(s, insert);
    assert [insert][1..] == [];
    assert AllLegal(Apply(s, insert), []) && AllLegal(s, [insert]);
    assert ApplyAll(s, [insert]) == ApplyAll(Apply(s, insert), []) == Apply(s, insert);
  }

  lemma HitChangesNothing(w: World)
    requires Hit(w.cache, false, w.cache.lastVolatile, FingerprintOf(w.store.rows))
    ensures Possible(w, Refresh(w.roots, w.cache.lastVolatile, []))
    ensures Step(w, Refresh(w.roots, w.cache.lastVolatile, [])) == w
  {
  }

  lemma OutsideStoreIsNotLive(db: Db, roots: set<Path>, p: Path)
    requires p !in AllPaths(db)
    ensures p !in QueryLiveSet(db, roots, {})
  {
  }

  /** When that row is a root and goes again, the next pass finds its
      fingerprint unchanged and answers a path that is gone. */
  lemma DisturbedRefreshKeepsAGonePath(s: Store, roots: Roots, row: Row)
    requires ValidStore(s) && row.path in Targets(roots) && row.path !in AllPaths(s.rows)
    ensures Possible(Fresh(s, map[]), Refresh(roots, {}, [Insert(s.next, row)]))
    ensures var inserted := Step(Fresh(s, map[]), Refresh(roots, {}, [Insert(s.next, row)]));
            var deleted := Step(inserted, Wrote(Delete(s.next)));
            && deleted.store.rows == s.rows
            && row.path in Step(deleted, Refresh(roots, {}, [])).cache.live
            && row.path !in QueryLiveSet(deleted.store.rows, Targets(roots), {})
  {
    DisturbedPass(s, roots, row);
    var inserted := Step(Fresh(s, map[]), Refresh(roots, {}, [Insert(s.next, row)]));
    var deleted := Step(inserted, Wrote(Delete(s.next)));
    var more := inserted.store.rows;
    assert more[s.next].path == row.path;
    RootedRowIsLive(more, Targets(roots), s.next);
    OutsideStoreIsNotLive(s.rows, Targets(roots), row.path);
    assert deleted.store.rows == s.rows;
    HitChangesNothing(deleted);
  }

  /** A pass writes the new roots and then fails. The next one finds nothing
      dirty and answers without a path that is a root now. */
  lemma FailedPassHidesARoot(s: Store, was: Roots, now: Roots, i: Id)
    requires i in s.rows && s.rows[i].path in Targets(now)
    requires s.rows[i].path !in QueryLiveSet(s.rows, Targets(was), {})
    requires QueryLiveSet(s.rows, Targets(was), {}) != {}
    ensures var first := Step(Fresh(s, map[]), Refresh(was, {}, []));
            var failed := Step(first, FailedEarly(now));
            var answer := Step(failed, Refresh(now, {}, [])).cache.live;
            s.rows[i].path !in answer && s.rows[i].path in QueryLiveSet(s.rows, Targets(now), {})
  {
    RootedRowIsLive(s.rows, Targets(now), i);
    assert ApplyAll(s, []) == s;
  }

  /** A pass replaces the live set and fails at the snapshot: the volatile set it
      was computed for is not remembered. When the earlier volatile set returns,
      the next pass answers without a path of it. */
  lemma FailedSnapshotHidesAVolatilePath(s: Store, roots: Roots, i: Id)
    requires i in s.rows && s.rows[i].path !in QueryLiveSet(s.rows, Targets(roots), {})
    requires QueryLiveSet(s.rows, Targets(roots), {}) != {}
    ensures var p := s.rows[i].path;
            var first := Step(Fresh(s, map[]), Refresh(roots, {p}, []));
            && Possible(first, FailedLate(roots, {}, []))
            && var failed := Step(first, FailedLate(roots, {}, []));
               var answer := Step(failed, Refresh(roots, {p}, [])).cache.live;
               p !in answer && p in QueryLiveSet(s.rows, Targets(roots), {p})
  {
    var p := s.rows[i].path;
    assert ApplyAll(s, []) == s;
    assert p in {p} && {p} != {};
    assert i in IdsOf(s.rows, Targets(roots) + {p});
  }

  /** A second tracker writes the same table: the first finds nothing dirty and
      answers with the old roots, missing a path that is a root now. */
  lemma SecondTrackerHidesARoot(s: Store, was: Roots, now: Roots, i: Id)
    requires i in s.rows && s.rows[i].path in Targets(now)
    requires s.rows[i].path !in QueryLiveSet(s.rows, Targets(was), {})
    requires QueryLiveSet(s.rows, Targets(was), {}) != {}
    ensures var mine := Step(Fresh(s, map[]), Refresh(was, {}, []));
            var answer := Step(Step(mine, OtherTracker(now)), Refresh(now, {}, [])).cache.live;
            s.rows[i].path !in answer && s.rows[i].path in QueryLiveSet(s.rows, Targets(now), {})
  {
    RootedRowIsLive(s.rows, Targets(now), i);
    assert ApplyAll(s, []) == s;
  }

  // ---- the tables and the tracker as objects ----

  class Database {
    var rows: Db
    var roots: Roots
    var snapshot: map<Path, int>

    constructor (rows: Db, roots: Roots)
      ensures this.rows == rows && this.roots == roots && snapshot == map[]
    {
      this.rows, this.roots, snapshot := rows, roots, map[];
    }

    /** Reconcile the roots table with the walked links; answers dirtiness. */
    method RefreshRoots(stable: Roots) returns (dirty: bool)
      modifies this`roots
      ensures roots == stable
      ensures dirty == (old(roots) != stable)
    {
      var current := roots;
      if current == stable {
        return false;
      }
      var kept := DropLinks(current, stable);
      roots := PutLinks(kept, current, stable);
      return true;
    }
  }

  /** Links the walk no longer sees leave. */
  method DropLinks(current: Roots, stable: Roots) returns (kept: Roots)
    ensures kept == map link | link in current && link in stable :: current[link]
  {
    kept := current;
    var todo := current.Keys;
    while todo != {}
      invariant todo <= current.Keys
      invariant kept == map link | link in current && (link in stable || link in todo) :: current[link]
      decreases |todo|
    {
      var link :| link in todo;
      if link !in stable {
        kept := kept - {link};
      }
      todo := todo - {link};
    }
  }

  /** New and retargeted links land; unchanged ones are untouched. */
  method PutLinks(kept: Roots, current: Roots, stable: Roots) returns (roots: Roots)
    requires kept == map link | link in current && link in stable :: current[link]
    ensures roots == stable
  {
    roots := kept;
    var todo := stable.Keys;
    while todo != {}
      invariant todo <= stable.Keys && stable.Keys - todo <= roots.Keys <= stable.Keys
      invariant forall link :: link in stable.Keys - todo ==> roots[link] == stable[link]
      invariant forall link :: link in todo && link in current ==> link in roots && roots[link] == current[link]
      decreases |todo|
    {
      var link :| link in todo;
      if link !in current || current[link] != stable[link] {
        roots := roots[link := stable[link]];
      }
      todo := todo - {link};
    }
  }

  /** Where a pass raises, if it does. */
  datatype Fault = NoFault | BeforeQuery | AtSnapshot

  class RootsTracker {
    var fingerprint: Option<Fingerprint>
    var lastVolatile: set<Path>
    var live: set<Path>
    var epoch: int

    constructor ()
      ensures State() == EMPTY && epoch == 0
    {
      fingerprint, lastVolatile, live, epoch := None, {}, {}, 0;
    }

    ghost function State(): Cache
      reads this
    {
      Cache(fingerprint, lastVolatile, live)
    }

    /** A liveness pass: sync roots, recompute on change, snapshot. The snapshot
        and the epoch belong to the last set that was computed, unless writing
        it failed; a pass that raises has written the roots all the same. */
    method Refresh(db: Database, stable: Roots, volatile: set<Path>, clock: int, fault: Fault) returns (answer: Option<set<Path>>)
      modifies this, db`roots, db`snapshot
      ensures db.roots == stable
      ensures fault == BeforeQuery ==> answer == None && State() == old(State()) && epoch == old(epoch) && db.snapshot == old(db.snapshot)
      ensures var hit := Hit(old(State()), old(db.roots) != stable, volatile, FingerprintOf(db.rows));
              && (fault != BeforeQuery && hit ==>
                    && answer == Some(live) && State() == old(State())
                    && epoch == old(epoch) && db.snapshot == old(db.snapshot))
              && (fault == AtSnapshot && !hit ==>
                    && answer == None && epoch == clock && db.snapshot == old(db.snapshot)
                    && State() == old(State()).(live := QueryLiveSet(db.rows, Targets(stable), volatile)))
              && (fault == NoFault && !hit ==>
                    && answer == Some(live) && epoch == clock && db.snapshot == (map p | p in live :: clock)
                    && State() == Refreshed(old(State()), old(db.roots) != stable, db.rows, db.rows, stable, volatile))
    {
      var dirty := db.RefreshRoots(stable);
      if fault == BeforeQuery { return None; }
      var mark := FingerprintOf(db.rows);
      if !dirty && volatile == lastVolatile && fingerprint == Some(mark) && live != {} {
        return Some(live);
      }
      live := QueryLiveSet(db.rows, Targets(db.roots), volatile);
      epoch := clock;
      if fault == AtSnapshot { return None; }
      db.snapshot := map p | p in live :: clock;
      lastVolatile := volatile;
      fingerprint := Some(mark);
      return Some(live);
    }
  }
}
