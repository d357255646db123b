/** Where the parenthesis counter ends a written tree. A name or a target that
    is a parenthesis is read as structure, and so is the target `contents`; the
    name `contents` only hides the keyword `node`. */
module NarEnd {
  import opened Bytes
  import opened Nar
  import opened NarScan

  /** What a name adds to the counter. */
  function Weight(name: string): int {
    if name == "(" then 1 else if name == ")" then -1 else 0
  }

  /** What a target adds: behind `contents` the closing parenthesis is missed. */
  function LinkWeight(target: string): int {
    if target == "(" || target == "contents" then 1 else if target == ")" then -1 else 0
  }

  /** The counter behind a node, relative to the counter before it. */
  function Drift(n: Node): int {
    match n
    case Directory(entries) => EntriesDrift(entries)
    case Regular(_, _) => 0
    case Symlink(target) => LinkWeight(target)
  }

  function EntriesDrift(es: seq<Entry>): int {
    if |es| == 0 then 0 else Weight(es[0].name) + Drift(es[0].node) + EntriesDrift(es[1..])
  }

  /** The lowest counter inside a node, relative to the one behind its opening
      parenthesis. */
  function InnerLow(n: Node): (low: int)
    ensures low <= 0
    decreases n, 0
  {
    match n
    case Directory(entries) => EntriesLow(entries)
    case Regular(_, _) => 0
    case Symlink(target) => if target == ")" then -1 else 0
  }

  /** The lowest counter in or right behind a node, relative to the one before. */
  function Low(n: Node): int
    decreases n, 1
  {
    Min(1 + InnerLow(n), Drift(n))
  }

  function EntryLow(e: Entry): int {
    var w := Weight(e.name);
    Min(Min(0, 1 + w + Low(e.node)), w + Drift(e.node))
  }

  function EntriesLow(es: seq<Entry>): (low: int)
    ensures low <= 0
  {
    if |es| == 0 then 0 else Min(EntryLow(es[0]), Weight(es[0].name) + Drift(es[0].node) + EntriesLow(es[1..]))
  }

  /** The names and targets that are read as structure cancel out, and nowhere
      before the end do the closing ones outnumber what is open. */
  predicate EndsWell(n: Node) {
    Drift(n) == 0 && InnerLow(n) == 0
  }

  // ---- the counter follows these numbers ----

  lemma NothingMoves()
    ensures Moves([], 0, 0)
  {
    forall d: int | d >= 1
      ensures MovesFrom(d, [], 0, 0)
    { assert Through(State(d, false, false), []) == State(d, false, false); }
  }

  lemma EncodeInjective(a: string, b: string)
    requires IsAscii(a) && IsAscii(b) && Encode(a) == Encode(b)
    ensures a == b
  {
    DecodeEncode(a);
    DecodeEncode(b);
  }

  lemma TextMoves(s: string)
    requires IsAscii(s) && s != "contents"
    ensures Moves([Encode(s)], Weight(s), Weight(s))
  {
    if s == "(" {
      OpenMoves();
    } else if s == ")" {
      CloseMoves();
    } else {
      if Encode(s) == Encode("(") { EncodeInjective(s, "("); }
      if Encode(s) == Encode(")") { EncodeInjective(s, ")"); }
      if Encode(s) == Encode("contents") { EncodeInjective(s, "contents"); }
      PlainMoves(Encode(s));
    }
  }

  /** A keyword in front changes nothing. */
  lemma KeywordFirst(s: string, bodies: seq<seq<Byte>>, low: int, net: int)
    requires IsAscii(s) && s != "contents" && Weight(s) == 0 && Moves(bodies, low, net)
    ensures Moves([Encode(s)] + bodies, Min(0, low), net)
  {
    TextMoves(s);
    MovesConcat([Encode(s)], 0, 0, bodies, low, net);
  }

  /** Parentheses around fields. */
  lemma Enclosed(bodies: seq<seq<Byte>>, low: int, net: int)
    requires Moves(bodies, low, net) && low <= 0
    ensures Moves([Encode("(")] + bodies + [Encode(")")], Min(1 + low, net), net)
  {
    OpenMoves();
    CloseMoves();
    MovesConcat([Encode("(")], 1, 1, bodies, low, net);
    MovesConcat([Encode("(")] + bodies, 1 + low, 1 + net, [Encode(")")], -1, -1);
  }

  function Body(n: Node): seq<seq<Byte>> {
    [Encode("type")] + Kind(n)
  }

  lemma TokensOfBody(n: Node)
    ensures Tokens(n) == [Encode("(")] + Body(n) + [Encode(")")]
  {
  }

  lemma RegularMoves(n: Node)
    requires n.Regular?
    ensures Moves(Body(n), 0, 0)
  {
    var file := [Encode("contents"), n.contents];
    ContentsMoves(n.contents);
    if n.executable {
      KeywordFirst("", file, 0, 0);
      KeywordFirst("executable", [Encode("")] + file, 0, 0);
      KeywordFirst("regular", [Encode("executable")] + ([Encode("")] + file), 0, 0);
      KeywordFirst("type", [Encode("regular")] + ([Encode("executable")] + ([Encode("")] + file)), 0, 0);
      assert Body(n) == [Encode("type")] + ([Encode("regular")] + ([Encode("executable")] + ([Encode("")] + file)));
    } else {
      KeywordFirst("regular", file, 0, 0);
      KeywordFirst("type", [Encode("regular")] + file, 0, 0);
      assert Body(n) == [Encode("type")] + ([Encode("regular")] + file);
    }
  }

  lemma LinkHead(bodies: seq<seq<Byte>>, low: int, net: int)
    requires Moves(bodies, low, net)
    ensures Moves([Encode("type"), Encode("symlink"), Encode("target")] + bodies, Min(0, low), net)
  {
    KeywordFirst("target", bodies, low, net);
    KeywordFirst("symlink", [Encode("target")] + bodies, Min(0, low), net);
    KeywordFirst("type", [Encode("symlink")] + ([Encode("target")] + bodies), Min(0, low), net);
    assert [Encode("type"), Encode("symlink"), Encode("target")] + bodies
        == [Encode("type")] + ([Encode("symlink")] + ([Encode("target")] + bodies));
  }

  lemma SymlinkMoves(n: Node)
    requires n.Symlink? && Writable(n) && n.target != "contents"
    ensures Moves(Body(n), InnerLow(n), Drift(n))
  {
    TextMoves(n.target);
    LinkHead([Encode(n.target)], Weight(n.target), Weight(n.target));
    assert Body(n) == [Encode("type"), Encode("symlink"), Encode("target")] + [Encode(n.target)];
  }

  lemma HidingLinkMoves()
    ensures Moves(Tokens(Symlink("contents")), 1, 1)
  {
    var n := Symlink("contents");
    var tail := [Encode("contents"), Encode(")")];
    ContentsMoves(Encode(")"));
    LinkHead(tail, 0, 0);
    OpenMoves();
    MovesConcat([Encode("(")], 1, 1, [Encode("type"), Encode("symlink"), Encode("target")] + tail, 0, 0);
    assert Tokens(n) == [Encode("(")] + ([Encode("type"), Encode("symlink"), Encode("target")] + tail);
  }

  /** A name and the keyword behind it; the name `contents` hides that keyword. */
  lemma NameMoves(name: string)
    requires IsAscii(name)
    ensures Moves([Encode(name), Encode("node")], Weight(name), Weight(name))
  {
    if name == "contents" {
      ContentsMoves(Encode("node"));
    } else {
      TextMoves(name);
      TextMoves("node");
      MovesConcat([Encode(name)], Weight(name), Weight(name), [Encode("node")], 0, 0);
      assert [Encode(name), Encode("node")] == [Encode(name)] + [Encode("node")];
    }
  }

  lemma EntryParts(e: Entry)
    ensures EntryTokens(e)
         == [Encode("entry")] + ([Encode("(")] + ([Encode("name")] + ([Encode(e.name), Encode("node")] + Tokens(e.node)))
                                 + [Encode(")")])
  {
  }

  lemma {:induction false} EntryMoves(e: Entry)
    requires IsAscii(e.name) && Writable(e.node)
    ensures Moves(EntryTokens(e), EntryLow(e), Weight(e.name) + Drift(e.node))
    decreases e
  {
    var w, low, net := Weight(e.name), Low(e.node), Drift(e.node);
    NodeMoves(e.node);
    NameMoves(e.name);
    var inner := [Encode(e.name), Encode("node")] + Tokens(e.node);
    MovesConcat([Encode(e.name), Encode("node")], w, w, Tokens(e.node), low, net);
    KeywordFirst("name", inner, Min(w, w + low), w + net);
    var named := [Encode("name")] + inner;
    var namedLow := Min(0, Min(w, w + low));
    Enclosed(named, namedLow, w + net);
    KeywordFirst("entry", [Encode("(")] + named + [Encode(")")], Min(1 + namedLow, w + net), w + net);
    EntryParts(e);
    assert Min(0, Min(1 + namedLow, w + net)) == EntryLow(e);
  }

  lemma {:induction false} EntriesMove(es: seq<Entry>)
    requires WritableEntries(es)
    ensures Moves(EntriesTokens(es), EntriesLow(es), EntriesDrift(es))
    decreases es
  {
    if |es| == 0 {
      NothingMoves();
    } else {
      EntryMoves(es[0]);
      EntriesMove(es[1..]);
      MovesConcat(EntryTokens(es[0]), EntryLow(es[0]), Weight(es[0].name) + Drift(es[0].node),
                  EntriesTokens(es[1..]), EntriesLow(es[1..]), EntriesDrift(es[1..]));
    }
  }

  lemma {:induction false} BodyMoves(n: Node)
    requires Writable(n) && n != Symlink("contents")
    ensures Moves(Body(n), InnerLow(n), Drift(n))
    decreases n, 0
  {
    match n {
      case Directory(es) =>
        EntriesMove(es);
        KeywordFirst("directory", EntriesTokens(es), EntriesLow(es), EntriesDrift(es));
        KeywordFirst("type", [Encode("directory")] + EntriesTokens(es), EntriesLow(es), EntriesDrift(es));
      case Regular(_, _) => RegularMoves(n);
      case Symlink(_) => SymlinkMoves(n);
    }
  }

  lemma {:induction false} NodeMoves(n: Node)
    requires Writable(n)
    ensures Moves(Tokens(n), Low(n), Drift(n))
    decreases n, 1
  {
    if n == Symlink("contents") {
      HidingLinkMoves();
    } else {
      BodyMoves(n);
      Enclosed(Body(n), InnerLow(n), Drift(n));
      TokensOfBody(n);
    }
  }

  // ---- the end of the whole archive ----

  lemma {:induction false} UsedToTheEnd(st: State, bodies: seq<seq<Byte>>, last: seq<Byte>)
    ensures !Through(st, bodies).complete <==> Used(st, bodies + [last]) == |bodies| + 1
    decreases |bodies|
  {
    if |bodies| == 0 {
      assert bodies + [last] == [last];
      assert Used(Update(st, last), [last][1..]) == 0;
    } else if !st.complete {
      assert (bodies + [last])[1..] == bodies[1..] + [last];
      UsedToTheEnd(Update(st, bodies[0]), bodies[1..], last);
    }
  }

  function Head(): seq<seq<Byte>> {
    [Encode(MAGIC), Encode("(")]
  }

  lemma HeadOpens()
    ensures Through(START, Head()) == State(1, false, false)
  {
    assert |Encode(MAGIC)| == 13 && |Encode("contents")| == 8;
    assert Head() == [Encode(MAGIC)] + [Encode("(")];
    ThroughConcat(START, [Encode(MAGIC)], [Encode("(")]);
    OneStep(START, Encode(MAGIC));
    OneStep(START, Encode("("));
  }

  /** The counter ends the archive at the last field. */
  predicate EndsAtTheEnd(bodies: seq<seq<Byte>>) {
    Through(START, bodies) == State(0, false, true) && Used(START, bodies) == |bodies|
  }

  lemma ArchiveParts(n: Node)
    ensures [Encode(MAGIC)] + Tokens(n) == Head() + Body(n) + [Encode(")")]
  {
  }

  lemma LastField(n: Node)
    ensures EndsAtTheEnd([Encode(MAGIC)] + Tokens(n)) <==> Through(State(1, false, false), Body(n)) == State(1, false, false)
  {
    var front := Head() + Body(n);
    ArchiveParts(n);
    HeadOpens();
    ThroughConcat(START, Head(), Body(n));
    ThroughConcat(START, front, [Encode(")")]);
    UsedToTheEnd(START, front, Encode(")"));
    var st := Through(START, front);
    Keywords();
    if !st.complete { OneStep(st, Encode(")")); }
  }

  lemma HidingLinkNeverEnds()
    ensures Through(State(1, false, false), Body(Symlink("contents"))) == State(1, true, false)
  {
    var head := [Encode("type"), Encode("symlink"), Encode("target")];
    NothingMoves();
    LinkHead([], 0, 0);
    assert head + [] == head;
    assert MovesFrom(1, head, 0, 0);
    assert Body(Symlink("contents")) == head + [Encode("contents")];
    ThroughConcat(State(1, false, false), head, [Encode("contents")]);
    Keywords();
    OneStep(State(1, false, false), Encode("contents"));
  }

  lemma EndsIff(n: Node)
    requires Writable(n)
    ensures EndsAtTheEnd([Encode(MAGIC)] + Tokens(n)) <==> EndsWell(n)
  {
    LastField(n);
    if n == Symlink("contents") {
      HidingLinkNeverEnds();
    } else {
      BodyMoves(n);
      assert MovesFrom(1, Body(n), InnerLow(n), Drift(n));
    }
  }

  lemma {:induction false} TokensFit(n: Node)
    requires Writable(n)
    ensures Fitting(Tokens(n))
    decreases n, 1
  {
    if n.Directory? { EntriesFit(n.entries); }
  }

  lemma {:induction false} EntriesFit(es: seq<Entry>)
    requires WritableEntries(es)
    ensures Fitting(EntriesTokens(es))
    decreases es
  {
    if |es| > 0 {
      TokensFit(es[0].node);
      EntriesFit(es[1..]);
    }
  }

  /** The scan finds the end of the archive, whatever follows it. */
  ghost predicate FindsEnd(n: Node) {
    forall suffix :: Scan(START, NarBytes(n) + suffix) == Scanned(NarBytes(n), State(0, false, true), suffix)
  }

  /** Exactly when the scan finds the end of a written tree. */
  lemma FindsEndIff(n: Node)
    requires Writable(n)
    ensures FindsEnd(n) <==> EndsWell(n)
  {
    var bodies := [Encode(MAGIC)] + Tokens(n);
    EndsIff(n);
    TokensFit(n);
    if EndsWell(n) {
      forall suffix
        ensures Scan(START, NarBytes(n) + suffix) == Scanned(NarBytes(n), State(0, false, true), suffix)
      { EndFound(bodies, suffix); }
    } else {
      EndMissed(bodies);
      assert NarBytes(n) + [] == NarBytes(n);
    }
  }

  lemma EndFound(bodies: seq<seq<Byte>>, suffix: seq<Byte>)
    requires Fitting(bodies) && EndsAtTheEnd(bodies)
    ensures Scan(START, Fields(bodies) + suffix) == Scanned(Fields(bodies), State(0, false, true), suffix)
  {
    ScanFields(START, bodies, suffix);
    assert bodies[|bodies|..] == [] && bodies[..|bodies|] == bodies;
    assert Fields([]) + suffix == suffix;
    assert Fields(bodies) + [] == Fields(bodies);
  }

  lemma FewerFieldsAreShorter(bodies: seq<seq<Byte>>, k: nat)
    requires k < |bodies|
    ensures |Fields(bodies[..k])| < |Fields(bodies)|
  {
    assert bodies == bodies[..k] + bodies[k..];
    FieldsConcat(bodies[..k], bodies[k..]);
    assert |Fields(bodies[k..])| >= |Field(bodies[k..][0])|;
  }

  lemma CompleteScanStops(st: State, buf: seq<Byte>)
    requires st.complete
    ensures Scan(st, buf) == Scanned([], st, buf)
  {
  }

  lemma AllTaken(bodies: seq<seq<Byte>>)
    ensures bodies[|bodies|..] == [] && bodies[..|bodies|] == bodies && Fields([]) + [] == []
  {
  }

  lemma EndMissed(bodies: seq<seq<Byte>>)
    requires Fitting(bodies) && !EndsAtTheEnd(bodies)
    ensures Scan(START, Fields(bodies)) != Scanned(Fields(bodies), State(0, false, true), [])
  {
    var k, st := Used(START, bodies), Through(START, bodies);
    ScanFields(START, bodies, []);
    NothingBehind(Fields(bodies));
    NothingBehind(Fields(bodies[..k]));
    if st.complete {
      CompleteScanStops(st, Fields(bodies[k..]) + []);
      if k < |bodies| { FewerFieldsAreShorter(bodies, k); }
    } else {
      AllTaken(bodies);
    }
  }

  lemma NothingBehind<T>(s: seq<T>)
    ensures s + [] == s
  {
  }

  // ---- simpler conditions ----

  /** No name or target opens or hides a parenthesis. */
  predicate NoOpenings(n: Node) {
    match n
    case Directory(es) => NoOpeningsIn(es)
    case Regular(_, _) => true
    case Symlink(target) => LinkWeight(target) <= 0
  }

  predicate NoOpeningsIn(es: seq<Entry>) {
    |es| == 0 || (Weight(es[0].name) <= 0 && NoOpenings(es[0].node) && NoOpeningsIn(es[1..]))
  }

  /** No name or target closes one. */
  predicate NoClosings(n: Node) {
    match n
    case Directory(es) => NoClosingsIn(es)
    case Regular(_, _) => true
    case Symlink(target) => LinkWeight(target) >= 0
  }

  predicate NoClosingsIn(es: seq<Entry>) {
    |es| == 0 || (Weight(es[0].name) >= 0 && NoClosings(es[0].node) && NoClosingsIn(es[1..]))
  }

  lemma {:induction false} NoClosingsNeverEndEarly(n: Node)
    requires NoClosings(n)
    ensures InnerLow(n) == 0 && Drift(n) >= 0 && (Drift(n) == 0 <==> NoOpenings(n))
    decreases n
  {
    if n.Directory? { NoClosingsInOrder(n.entries); }
  }

  lemma {:induction false} NoClosingsInOrder(es: seq<Entry>)
    requires NoClosingsIn(es)
    ensures EntriesLow(es) == 0 && EntriesDrift(es) >= 0 && (EntriesDrift(es) == 0 <==> NoOpeningsIn(es))
    decreases es
  {
    if |es| > 0 {
      NoClosingsNeverEndEarly(es[0].node);
      assert Low(es[0].node) >= 0 && EntryLow(es[0]) == 0;
      NoClosingsInOrder(es[1..]);
    }
  }

  lemma {:induction false} NoOpeningsLoseCount(n: Node)
    requires NoOpenings(n)
    ensures Drift(n) <= 0 && (Drift(n) == 0 <==> NoClosings(n))
    decreases n
  {
    if n.Directory? { NoOpeningsInLoseCount(n.entries); }
  }

  lemma {:induction false} NoOpeningsInLoseCount(es: seq<Entry>)
    requires NoOpeningsIn(es)
    ensures EntriesDrift(es) <= 0 && (EntriesDrift(es) == 0 <==> NoClosingsIn(es))
    decreases es
  {
    if |es| > 0 {
      NoOpeningsLoseCount(es[0].node);
      NoOpeningsInLoseCount(es[1..]);
    }
  }

  /** When no name or target is read as structure, the end is found. */
  lemma CleanTreeFindsEnd(n: Node, suffix: seq<Byte>)
    requires Writable(n) && NoOpenings(n) && NoClosings(n)
    ensures Scan(START, NarBytes(n) + suffix) == Scanned(NarBytes(n), State(0, false, true), suffix)
  {
    NoClosingsNeverEndEarly(n);
    FindsEndIff(n);
  }

  /** In a tree with names and targets of one kind only, one of them is enough
      to miss the end. */
  lemma OneKindMissesEnd(n: Node)
    requires Writable(n) && (NoOpenings(n) || NoClosings(n))
    ensures FindsEnd(n) <==> NoOpenings(n) && NoClosings(n)
  {
    FindsEndIff(n);
    if NoClosings(n) { NoClosingsNeverEndEarly(n); } else { NoOpeningsLoseCount(n); }
  }

  function Pair(first: string, second: string): Node {
    Directory([Entry(first, Directory([])), Entry(second, Directory([]))])
  }

  /** Of both kinds the order decides. */
  lemma OrderDecides()
    ensures EndsWell(Pair("(", ")")) && !EndsWell(Pair(")", "("))
  {
    PairNumbers("(", ")");
    PairNumbers(")", "(");
  }

  lemma PairNumbers(first: string, second: string)
    ensures var v, w := Weight(first), Weight(second);
            && Drift(Pair(first, second)) == v + w
            && InnerLow(Pair(first, second)) == Min(Min(0, v), v + Min(0, w))
  {
    var empty := Directory([]);
    assert Drift(empty) == 0 && Low(empty) == 0;
    var es := [Entry(first, empty), Entry(second, empty)];
    assert es[1..] == [es[1]] && es[1..][1..] == [];
    assert EntriesLow(es[1..]) == Min(0, Weight(second)) && EntriesDrift(es[1..]) == Weight(second);
    assert EntryLow(es[0]) == Min(0, Weight(first));
  }
}
