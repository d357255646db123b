/** The tables the collector reads, and its recursive queries over them. */
module StoreDb {
  import opened Wrappers
  import opened Closure

  type Id = nat
  type Path = string

  /** A row of `ValidPaths` with its rows of `Refs`. */
  datatype Row = Row(path: Path, references: set<Id>, deriver: Option<Path>)

  type Db = map<Id, Row>

  /** What the schema keeps: a path has one row, a reference names a row. */
  ghost predicate WellFormed(db: Db) {
    && (forall i, j :: i in db && j in db && db[i].path == db[j].path ==> i == j)
    && (forall i :: i in db ==> db[i].references <= db.Keys)
  }

  function AllPaths(db: Db): set<Path> {
    PathsOf(db, db.Keys)
  }

  function IdsOf(db: Db, paths: set<Path>): set<Id> {
    set i | i in db && db[i].path in paths
  }

  function PathsOf(db: Db, ids: set<Id>): set<Path> {
    set i | i in ids && i in db :: db[i].path
  }

  function ReferenceEdges(db: Db): Edges<Id> {
    map i | i in db :: db[i].references
  }

  function ReferrerEdges(db: Db): Edges<Id> {
    map j | j in db :: Referring(db, j)
  }

  function Referring(db: Db, j: Id): set<Id> {
    set i | i in db && j in db[i].references
  }

  function DeriverOf(db: Db, i: Id): set<Id>
    requires i in db
  {
    match db[i].deriver
    case None => {}
    case Some(drv) => IdsOf(db, {drv})
  }

  /** References, the deriver, and what the deriver references. */
  function LiveEdges(db: Db): Edges<Id> {
    map i | i in db ::
      db[i].references + DeriverOf(db, i) + Next(ReferenceEdges(db), DeriverOf(db, i))
  }

  /** The paths `seeds` reference, transitively, seeds included. */
  function QueryClosure(db: Db, seeds: set<Path>): set<Path> {
    PathsOf(db, Close(ReferenceEdges(db), IdsOf(db, seeds)))
  }

  /** The paths that reference `seeds`, transitively, seeds included. */
  function QueryReferrerClosure(db: Db, seeds: set<Path>): set<Path> {
    PathsOf(db, Close(ReferrerEdges(db), IdsOf(db, seeds)))
  }

  /** One closure over the table roots plus the volatile ones. */
  function QueryLiveSet(db: Db, roots: set<Path>, volatile: set<Path>): set<Path> {
    PathsOf(db, Close(LiveEdges(db), IdsOf(db, roots + volatile)))
  }

  // ---- the same relations on paths ----

  ghost predicate References(db: Db, p: Path, q: Path) {
    exists i, j :: i in db && j in db && db[i].path == p && db[j].path == q && j in db[i].references
  }

  ghost predicate ClosedUnderReferences(db: Db, s: set<Path>) {
    forall p, q :: References(db, p, q) && p in s ==> q in s
  }

  ghost predicate ClosedUnderReferrers(db: Db, s: set<Path>) {
    forall p, q :: References(db, p, q) && q in s ==> p in s
  }

  lemma PathIn(db: Db, ids: set<Id>, i: Id)
    requires WellFormed(db) && i in db
    ensures db[i].path in PathsOf(db, ids) <==> i in ids
  {
  }

  lemma ClosureContainsSeeds(db: Db, seeds: set<Path>)
    requires WellFormed(db)
    ensures seeds * AllPaths(db) <= QueryClosure(db, seeds) <= AllPaths(db)
    ensures seeds * AllPaths(db) <= QueryReferrerClosure(db, seeds) <= AllPaths(db)
  {
    forall p | p in seeds * AllPaths(db)
      ensures p in QueryClosure(db, seeds) && p in QueryReferrerClosure(db, seeds)
    {
      var i :| i in db && db[i].path == p;
      assert i in IdsOf(db, seeds);
    }
  }

  /** A set of rows closed under some edges that include the references is, as
      paths, closed under references. */
  lemma ClosedRowsKeepReferences(db: Db, edges: Edges<Id>, ids: set<Id>)
    requires WellFormed(db) && Closed(edges, ids)
    requires forall i :: i in db ==> db[i].references <= Succ(edges, i)
    ensures ClosedUnderReferences(db, PathsOf(db, ids))
  {
    forall p, q | References(db, p, q) && p in PathsOf(db, ids)
      ensures q in PathsOf(db, ids)
    {
      var i, j :| i in db && j in db && db[i].path == p && db[j].path == q && j in db[i].references;
      PathIn(db, ids, i);
      assert j in Succ(edges, i);
    }
  }

  lemma ClosureClosed(db: Db, seeds: set<Path>)
    requires WellFormed(db)
    ensures ClosedUnderReferences(db, QueryClosure(db, seeds))
  {
    ClosedRowsKeepReferences(db, ReferenceEdges(db), Close(ReferenceEdges(db), IdsOf(db, seeds)));
  }

  /** The live set is closed under references. */
  lemma LiveClosed(db: Db, roots: set<Path>, volatile: set<Path>)
    requires WellFormed(db)
    ensures ClosedUnderReferences(db, QueryLiveSet(db, roots, volatile))
  {
    ClosedRowsKeepReferences(db, LiveEdges(db), Close(LiveEdges(db), IdsOf(db, roots + volatile)));
  }

  lemma ReferrerClosureClosed(db: Db, seeds: set<Path>)
    requires WellFormed(db)
    ensures ClosedUnderReferrers(db, QueryReferrerClosure(db, seeds))
  {
    var ids := Close(ReferrerEdges(db), IdsOf(db, seeds));
    forall p, q | References(db, p, q) && q in PathsOf(db, ids)
      ensures p in PathsOf(db, ids)
    {
      var i, j :| i in db && j in db && db[i].path == p && db[j].path == q && j in db[i].references;
      PathIn(db, ids, j);
      assert i in Succ(ReferrerEdges(db), j);
    }
  }

  /** The referrer closure is inside every referrer-closed set that holds the
      valid seeds. */
  lemma ReferrerClosureLeast(db: Db, seeds: set<Path>, s: set<Path>)
    requires WellFormed(db) && ClosedUnderReferrers(db, s) && seeds * AllPaths(db) <= s
    ensures QueryReferrerClosure(db, seeds) <= s
  {
    var within := IdsOf(db, s);
    forall j, i | j in within && i in Succ(ReferrerEdges(db), j)
      ensures i in within
    { assert References(db, db[i].path, db[j].path); }
    CloseLeast(ReferrerEdges(db), IdsOf(db, seeds), within);
  }

  lemma ClosureLeast(db: Db, seeds: set<Path>, s: set<Path>)
    requires WellFormed(db) && ClosedUnderReferences(db, s) && seeds * AllPaths(db) <= s
    ensures QueryClosure(db, seeds) <= s
  {
    var within := IdsOf(db, s);
    forall j, i | j in within && i in Succ(ReferenceEdges(db), j)
      ensures i in within
    { assert References(db, db[j].path, db[i].path); }
    CloseLeast(ReferenceEdges(db), IdsOf(db, seeds), within);
  }

  /** Everything that references a dead path is dead: the referrer closure of
      paths outside a reference-closed set stays outside it. */
  lemma ReferrersOfDeadAreDead(db: Db, seeds: set<Path>, live: set<Path>)
    requires WellFormed(db) && ClosedUnderReferences(db, live) && seeds !! live
    ensures QueryReferrerClosure(db, seeds) !! live
  {
    assert ClosedUnderReferrers(db, AllPaths(db) - live) by {
      forall p, q | References(db, p, q) && q in AllPaths(db) - live
        ensures p in AllPaths(db) - live
      {}
    }
    ReferrerClosureLeast(db, seeds, AllPaths(db) - live);
  }

  /** The set holds the derivation of each of its paths, when that is valid. */
  ghost predicate KeepsDerivers(db: Db, s: set<Path>) {
    forall i, j :: i in db && j in db && db[i].deriver == Some(db[j].path) && db[i].path in s ==> db[j].path in s
  }

  lemma LiveKeepsDerivers(db: Db, roots: set<Path>, volatile: set<Path>)
    requires WellFormed(db)
    ensures KeepsDerivers(db, QueryLiveSet(db, roots, volatile))
  {
    var ids := Close(LiveEdges(db), IdsOf(db, roots + volatile));
    forall i, j | i in db && j in db && db[i].deriver == Some(db[j].path) && db[i].path in PathsOf(db, ids)
      ensures db[j].path in PathsOf(db, ids)
    {
      PathIn(db, ids, i);
      assert j in Succ(LiveEdges(db), i);
    }
  }

  lemma LiveLeast(db: Db, roots: set<Path>, volatile: set<Path>, s: set<Path>)
    requires WellFormed(db) && ClosedUnderReferences(db, s) && KeepsDerivers(db, s) && (roots + volatile) * AllPaths(db) <= s
    ensures QueryLiveSet(db, roots, volatile) <= s
  {
    var within := IdsOf(db, s);
    forall i, j | i in within && j in Succ(PlainLiveEdges(db), i)
      ensures j in within
    { if j in db[i].references { assert References(db, db[i].path, db[j].path); } }
    DeriverReferencesRedundant(db, IdsOf(db, roots + volatile));
    CloseLeast(PlainLiveEdges(db), IdsOf(db, roots + volatile), within);
  }

  /** The live set is the least set that holds the valid roots and volatile
      paths, what its paths reference, and the valid derivation of each. */
  lemma LiveExactly(db: Db, roots: set<Path>, volatile: set<Path>)
    requires WellFormed(db)
    ensures var live := QueryLiveSet(db, roots, volatile);
            && (roots + volatile) * AllPaths(db) <= live <= AllPaths(db)
            && ClosedUnderReferences(db, live) && KeepsDerivers(db, live)
            && forall s :: ClosedUnderReferences(db, s) && KeepsDerivers(db, s) && (roots + volatile) * AllPaths(db) <= s ==> live <= s
  {
    LiveClosed(db, roots, volatile);
    LiveKeepsDerivers(db, roots, volatile);
    forall p | p in (roots + volatile) * AllPaths(db)
      ensures p in QueryLiveSet(db, roots, volatile)
    {
      var i :| i in db && db[i].path == p;
      assert i in IdsOf(db, roots + volatile);
    }
    forall s | ClosedUnderReferences(db, s) && KeepsDerivers(db, s) && (roots + volatile) * AllPaths(db) <= s
      ensures QueryLiveSet(db, roots, volatile) <= s
    { LiveLeast(db, roots, volatile, s); }
  }

  /** The third arm of the live query adds nothing: a deriver is reached, and
      then its references are. */
  function PlainLiveEdges(db: Db): Edges<Id> {
    map i | i in db :: db[i].references + set j | j in db && db[i].deriver == Some(db[j].path)
  }

  lemma DeriverReferencesRedundant(db: Db, seeds: set<Id>)
    ensures Close(LiveEdges(db), seeds) == Close(PlainLiveEdges(db), seeds)
  {
    CloseEdgesMonotone(PlainLiveEdges(db), LiveEdges(db), seeds, seeds);
    var plain := Close(PlainLiveEdges(db), seeds);
    forall i, j | i in plain && j in Succ(LiveEdges(db), i)
      ensures j in plain
    { TwoPlainSteps(db, plain, i, j); }
    CloseLeast(LiveEdges(db), seeds, plain);
  }

  lemma TwoPlainSteps(db: Db, ids: set<Id>, i: Id, j: Id)
    requires Closed(PlainLiveEdges(db), ids) && i in ids && j in Succ(LiveEdges(db), i)
    ensures j in ids
  {
    if j in Next(ReferenceEdges(db), DeriverOf(db, i)) {
      var d :| d in DeriverOf(db, i) && d in db && j in db[d].references;
      assert d in Succ(PlainLiveEdges(db), i) && j in Succ(PlainLiveEdges(db), d);
    } else {
      assert j in Succ(PlainLiveEdges(db), i);
    }
  }
}
