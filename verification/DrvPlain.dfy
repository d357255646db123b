/** Only a derivation whose unescaped fields are plain comes back from its text.
    What the parser reads is paid for in quotes and backslashes of the text; the
    text has just enough of both for a plain derivation. */
module DrvPlain {
  import opened Wrappers
  import opened Sequences
  import opened Ordering
  import opened DrvText
  import opened Drv
  import opened DrvRoundTrip
  import opened DrvCounts
  import DrvPrint

  // ---- paying for what is read ----

  predicate EndsIn(s: string, rest: string) {
    |rest| <= |s| && s[|s| - |rest|..] == rest
  }

  /** What stands in front of `rest` has the quotes and backslashes for these
      counts; when it has no backslash to spare, `calm` holds. */
  ghost predicate Pays(s: string, rest: string, marks: int, hards: int, calm: bool) {
    && EndsIn(s, rest)
    && Count('\"', s) >= Count('\"', rest) + marks
    && Count('\\', s) >= Count('\\', rest) + hards
    && (Count('\\', s) == Count('\\', rest) + hards ==> calm)
  }

  lemma EndsInTransitive(a: string, b: string, c: string)
    requires EndsIn(a, b) && EndsIn(b, c)
    ensures EndsIn(a, c)
  {
    assert a[|a| - |b|..][|b| - |c|..] == a[|a| - |c|..];
  }

  lemma PaysChain(a: string, b: string, c: string, m: int, h: int, p: bool, m': int, h': int, p': bool)
    requires Pays(a, b, m, h, p) && Pays(b, c, m', h', p')
    ensures Pays(a, c, m + m', h + h', p && p')
  {
    EndsInTransitive(a, b, c);
  }

  lemma PaysLess(a: string, b: string, m: int, h: int, p: bool, m': int, h': int, p': bool)
    requires Pays(a, b, m, h, p) && m' <= m && h' <= h && (p ==> p')
    ensures Pays(a, b, m', h', p')
  {
  }

  lemma Skips(s: string, rest: string)
    requires EndsIn(s, rest)
    ensures Pays(s, rest, 0, 0, true)
  {
    var lead := s[..|s| - |rest|];
    assert s == lead + rest;
    CountConcat('\"', lead, rest);
    CountConcat('\\', lead, rest);
  }

  lemma ExpectSkips(s: string, lead: string)
    requires Expect(s, lead).Some?
    ensures Pays(s, Expect(s, lead).value, 0, 0, true)
  {
    Skips(s, Expect(s, lead).value);
  }

  lemma {:induction false} SkipSpaceEnds(s: string)
    ensures EndsIn(s, SkipSpace(s))
  {
    if |s| > 0 && IsSpace(s[0]) {
      SkipSpaceEnds(s[1..]);
      EndsInTransitive(s, s[1..], SkipSpace(s[1..]));
    }
  }

  lemma SpaceSkips(s: string)
    ensures Pays(s, SkipSpace(s), 0, 0, true)
  {
    SkipSpaceEnds(s);
    Skips(s, SkipSpace(s));
  }

  lemma CommaSkips(s: string)
    requires Comma(s).Some?
    ensures Pays(s, Comma(s).value, 0, 0, true)
  {
    var rest := Expect(s, ",").value;
    ExpectSkips(s, ",");
    SpaceSkips(rest);
    PaysChain(s, rest, SkipSpace(rest), 0, 0, true, 0, 0, true);
  }

  lemma NextSkips(s: string, any: bool)
    requires NextItem(s, any).Some?
    ensures Pays(s, NextItem(s, any).value.rest, 0, 0, true)
  {
    if s[0] == ']' {
      Skips(s, s[1..]);
    } else if any {
      CommaSkips(s);
    } else {
      SpaceSkips(s);
    }
  }

  // ---- strings ----

  /** One character of a string, or one escape. */
  lemma StepPays(s: string, n: nat, got: string, x: string, rest: string)
    requires n <= |s| && Pays(s[n..], rest, Count('\"', x) + 1, Of(Hards, x), Calm(x))
    requires Count('\"', s[..n]) >= Count('\"', got) && Count('\\', s[..n]) >= Of(Hards, got)
    requires Count('\\', s[..n]) == Of(Hards, got) && Calm(x) ==> Calm(got + x)
    ensures Pays(s, rest, Count('\"', got + x) + 1, Of(Hards, got + x), Calm(got + x))
  {
    assert s == s[..n] + s[n..];
    CountConcat('\"', s[..n], s[n..]);
    CountConcat('\\', s[..n], s[n..]);
    CountConcat('\"', got, x);
    CountConcat('\\', got, x);
    EndsInTransitive(s, s[n..], rest);
  }

  lemma OneChar(c: char)
    ensures Count('\"', [c]) == (if c == '\"' then 1 else 0) && Count('\\', [c]) == if c == '\\' then 1 else 0
  {
    assert [c][1..] == "";
  }

  lemma TwoChars(a: char, b: char)
    ensures Count('\"', [a, b]) == (if a == '\"' then 1 else 0) + if b == '\"' then 1 else 0
    ensures Count('\\', [a, b]) == (if a == '\\' then 1 else 0) + if b == '\\' then 1 else 0
  {
    assert [a, b][1..] == [b];
    OneChar(b);
  }

  /** What an escape stands for is paid by its two characters, exactly when the
      escape is not known or is a quote. */
  lemma EscapePays(c: char, x: string)
    ensures Count('\"', ['\\', c]) >= Count('\"', Unescape(c)) && Count('\\', ['\\', c]) >= Of(Hards, Unescape(c))
    ensures Count('\\', ['\\', c]) == Of(Hards, Unescape(c)) && Calm(x) ==> Calm(Unescape(c) + x)
  {
    TwoChars('\\', c);
    var u := Unescape(c);
    if c in KNOWN_ESCAPES {
      OneChar(u[0]);
      assert u == [u[0]];
      if c == '\"' { CountConcat('\"', u, x); }
    } else {
      CountConcat('\"', u, x);
      assert (u + x)[2..] == x && (u + x)[0] == '\\' && (u + x)[1] == c;
    }
  }

  lemma PlainCharCalm(c: char, x: string)
    requires c != '\"' && c != '\\' && Calm(x)
    ensures Calm([c] + x)
  {
    CountConcat('\"', [c], x);
    OneChar(c);
    assert ([c] + x)[1..] == x;
  }

  lemma CharStep(s: string, x: string, rest: string)
    requires |s| > 0 && s[0] != '\"' && s[0] != '\\'
    requires Pays(s[1..], rest, Count('\"', x) + 1, Of(Hards, x), Calm(x))
    ensures Pays(s, rest, Count('\"', [s[0]] + x) + 1, Of(Hards, [s[0]] + x), Calm([s[0]] + x))
  {
    assert s[..1] == [s[0]];
    OneChar(s[0]);
    if Calm(x) { PlainCharCalm(s[0], x); }
    StepPays(s, 1, [s[0]], x, rest);
  }

  lemma EscapeStepPays(s: string, x: string, rest: string)
    requires |s| > 1 && s[0] == '\\' && Pays(s[2..], rest, Count('\"', x) + 1, Of(Hards, x), Calm(x))
    ensures Pays(s, rest, Count('\"', Unescape(s[1]) + x) + 1, Of(Hards, Unescape(s[1]) + x), Calm(Unescape(s[1]) + x))
  {
    assert s[..2] == ['\\', s[1]];
    EscapePays(s[1], x);
    StepPays(s, 2, Unescape(s[1]), x, rest);
  }

  lemma {:induction false} BodyPays(s: string, read: string) returns (x: string)
    requires ReadBody(s, read).Some?
    ensures ReadBody(s, read).value.value == read + x
    ensures Pays(s, ReadBody(s, read).value.rest, Count('\"', x) + 1, Of(Hards, x), Calm(x))
    decreases |s|
  {
    var rest := ReadBody(s, read).value.rest;
    if s[0] == '\"' {
      x := "";
      Skips(s, rest);
      assert read + x == read;
    } else if s[0] != '\\' {
      var more := BodyPays(s[1..], read + [s[0]]);
      x := [s[0]] + more;
      Associate(read, [s[0]], more);
      CharStep(s, more, rest);
    } else {
      var more := BodyPays(s[2..], read + Unescape(s[1]));
      x := Unescape(s[1]) + more;
      Associate(read, Unescape(s[1]), more);
      EscapeStepPays(s, more, rest);
    }
  }

  lemma StringPays(s: string)
    requires ReadString(s).Some?
    ensures var r := ReadString(s).value; Pays(s, r.rest, Of(Marks, r.value), Of(Hards, r.value), Calm(r.value))
  {
    var body := Expect(s, "\"").value;
    var x := BodyPays(body, "");
    assert "" + x == x;
    assert s == "\"" + body;
    CountConcat('\"', "\"", body);
    CountConcat('\\', "\"", body);
    OneChar('\"');
    EndsInTransitive(s, body, ReadString(s).value.rest);
  }

  predicate CalmPath(base: string) {
    Count('\"', base) == 0 ==> PlainField(PathText(base))
  }

  lemma {:induction false} LeadStaysPlain(lead: string, s: string)
    requires Unmarked(lead)
    ensures PlainField(lead + s) == PlainField(s)
  {
    if |lead| == 0 {
      assert lead + s == s;
    } else {
      assert (lead + s)[1..] == lead[1..] + s;
      LeadStaysPlain(lead[1..], s);
    }
  }

  lemma PathIsCalm(text: string)
    requires ReadPath(text).Some? && Calm(text)
    ensures CalmPath(ReadPath(text).value)
  {
    var base := ReadPath(text).value;
    PrefixIsUnmarked();
    LeadStaysPlain(STORE_PREFIX, base);
    if StartsWith(text, STORE_PREFIX) {
      assert text == STORE_PREFIX + base;
      PathCounts(Marks, base);
    }
  }

  lemma PathKeepsCounts(k: Kind, text: string)
    requires ReadPath(text).Some?
    ensures Of(k, ReadPath(text).value) == Of(k, text)
  {
    if StartsWith(text, STORE_PREFIX) {
      assert text == STORE_PREFIX + ReadPath(text).value;
      PathCounts(k, ReadPath(text).value);
    }
  }

  lemma PathPays(s: string)
    requires ReadPathString(s).Some?
    ensures var r := ReadPathString(s).value; Pays(s, r.rest, Of(Marks, r.value), Of(Hards, r.value), CalmPath(r.value))
  {
    var text := ReadString(s).value.value;
    StringPays(s);
    PathKeepsCounts(Marks, text);
    PathKeepsCounts(Hards, text);
    if Calm(text) { PathIsCalm(text); }
  }

  // ---- lists ----

  ghost predicate ItemPays<T(!new)>(item: string -> Option<Parsed<T>>, size: (Kind, T) -> nat, calm: T -> bool) {
    forall s :: item(s).Some? ==>
      Pays(s, item(s).value.rest, size(Marks, item(s).value.value), size(Hards, item(s).value.value), calm(item(s).value.value))
  }

  ghost predicate All<T>(calm: T -> bool, vs: seq<T>) {
    forall v :: v in vs ==> calm(v)
  }

  /** Something is skipped, one thing read, and the rest read. */
  lemma OneMore(s: string, at: string, behind: string, go: string, rest: string, m: int, h: int, p: bool, m': int, h': int, p': bool)
    requires Pays(s, at, 0, 0, true) && Pays(at, behind, m, h, p) && Pays(behind, go, 0, 0, true) && Pays(go, rest, m', h', p')
    ensures Pays(s, rest, m + m', h + h', p && p')
  {
    PaysChain(behind, go, rest, 0, 0, true, m', h', p');
    PaysChain(at, behind, rest, m, h, p, m', h', p');
    PaysChain(s, at, rest, 0, 0, true, m + m', h + h', p && p');
  }

  lemma AllAppend<T>(calm: T -> bool, read: seq<T>, x: T)
    ensures All(calm, read) && calm(x) ==> All(calm, read + [x])
  {
  }

  lemma ItemsStep<T(!new)>(item: string -> Option<Parsed<T>>, s: string, read: seq<T>)
    requires Consumes(item) && Items(item, s, read).Some?
    ensures NextItem(s, |read| > 0).Some?
    ensures var next := NextItem(s, |read| > 0).value;
            && (!next.value ==> Items(item, s, read) == Some(Parsed(read, next.rest)))
            && (next.value ==>
                  && item(next.rest).Some?
                  && var x := item(next.rest).value;
                     Items(item, s, read) == Items(item, SkipSpace(x.rest), read + [x.value]))
  {
  }

  lemma {:induction false} ItemsPay<T(!new)>(item: string -> Option<Parsed<T>>, size: (Kind, T) -> nat, calm: T -> bool,
                                             s: string, read: seq<T>)
    requires Consumes(item) && ItemPays(item, size, calm) && Items(item, s, read).Some?
    ensures var r := Items(item, s, read).value;
            Pays(s, r.rest, Total(size, Marks, r.value) - Total(size, Marks, read),
                 Total(size, Hards, r.value) - Total(size, Hards, read), All(calm, read) ==> All(calm, r.value))
    decreases |s|
  {
    var next := NextItem(s, |read| > 0).value;
    NextSkips(s, |read| > 0);
    ItemsStep(item, s, read);
    if next.value {
      var x := item(next.rest).value;
      ItemsPay(item, size, calm, SkipSpace(x.rest), read + [x.value]);
      ItemPaid(item, size, calm, s, read);
    }
  }

  lemma ItemPaid<T(!new)>(item: string -> Option<Parsed<T>>, size: (Kind, T) -> nat, calm: T -> bool, s: string, read: seq<T>)
    requires Consumes(item) && ItemPays(item, size, calm)
    requires NextItem(s, |read| > 0).Some? && item(NextItem(s, |read| > 0).value.rest).Some?
    requires var x := item(NextItem(s, |read| > 0).value.rest).value;
             var more, go := read + [x.value], SkipSpace(x.rest);
             Items(item, go, more).Some?
             && var r := Items(item, go, more).value;
                Pays(go, r.rest, Total(size, Marks, r.value) - Total(size, Marks, more),
                     Total(size, Hards, r.value) - Total(size, Hards, more), All(calm, more) ==> All(calm, r.value))
    ensures var x := item(NextItem(s, |read| > 0).value.rest).value;
            var r := Items(item, SkipSpace(x.rest), read + [x.value]).value;
            Pays(s, r.rest, Total(size, Marks, r.value) - Total(size, Marks, read),
                 Total(size, Hards, r.value) - Total(size, Hards, read), All(calm, read) ==> All(calm, r.value))
  {
    var at := NextItem(s, |read| > 0).value.rest;
    var x := item(at).value;
    var more, go := read + [x.value], SkipSpace(x.rest);
    var r := Items(item, go, more).value;
    NextSkips(s, |read| > 0);
    SpaceSkips(x.rest);
    TotalAppend(size, Marks, read, x.value);
    TotalAppend(size, Hards, read, x.value);
    AllAppend(calm, read, x.value);
    var p := All(calm, more) ==> All(calm, r.value);
    OneMore(s, at, x.rest, go, r.rest, size(Marks, x.value), size(Hards, x.value), calm(x.value),
            Total(size, Marks, r.value) - Total(size, Marks, more), Total(size, Hards, r.value) - Total(size, Hards, more), p);
    PaysLess(s, r.rest, Total(size, Marks, r.value) - Total(size, Marks, read), Total(size, Hards, r.value) - Total(size, Hards, read),
             calm(x.value) && p, Total(size, Marks, r.value) - Total(size, Marks, read),
             Total(size, Hards, r.value) - Total(size, Hards, read), All(calm, read) ==> All(calm, r.value));
  }

  lemma ListPays<T(!new)>(item: string -> Option<Parsed<T>>, size: (Kind, T) -> nat, calm: T -> bool, s: string)
    requires Consumes(item) && ItemPays(item, size, calm) && ReadList(item, s).Some?
    ensures var r := ReadList(item, s).value;
            Pays(s, r.rest, Total(size, Marks, r.value), Total(size, Hards, r.value), All(calm, r.value))
  {
    var r := ReadList(item, s).value;
    var s1 := Expect(s, "[").value;
    ExpectSkips(s, "[");
    SpaceSkips(s1);
    ItemsPay(item, size, calm, SkipSpace(s1), []);
    var m, h := Total(size, Marks, r.value), Total(size, Hards, r.value);
    PaysChain(s1, SkipSpace(s1), r.rest, 0, 0, true, m, h, All(calm, []) ==> All(calm, r.value));
    PaysChain(s, s1, r.rest, 0, 0, true, m, h, All(calm, []) ==> All(calm, r.value));
  }

  lemma StringItemPays()
    ensures ItemPays(ReadString, Of, Calm)
  {
    forall s | ReadString(s).Some?
      ensures Pays(s, ReadString(s).value.rest, Of(Marks, ReadString(s).value.value), Of(Hards, ReadString(s).value.value),
                   Calm(ReadString(s).value.value))
    { StringPays(s); }
  }

  lemma StringsPay(s: string)
    requires ReadStrings(s).Some?
    ensures var r := ReadStrings(s).value;
            Pays(s, r.rest, StringsSize(Marks, r.value), StringsSize(Hards, r.value), All(Calm, r.value))
  {
    StringItemPays();
    ListPays(ReadString, Of, Calm, s);
  }

  // ---- inputs ----

  ghost predicate CalmNode(n: Node) {
    All(Calm, n.outputs) && forall name :: name in n.children ==> Calm(name) && CalmNode(n.children[name])
  }

  ghost predicate CalmChildren(m: map<string, Node>) {
    forall name :: name in m ==> Calm(name) && CalmNode(m[name])
  }

  /** A part that is read between two that are skipped. */
  lemma Between(s: string, at: string, behind: string, rest: string, m: int, h: int, p: bool)
    requires Pays(s, at, 0, 0, true) && Pays(at, behind, m, h, p) && Pays(behind, rest, 0, 0, true)
    ensures Pays(s, rest, m, h, p)
  {
    PaysChain(s, at, behind, 0, 0, true, m, h, p);
    PaysChain(s, behind, rest, m, h, p, 0, 0, true);
  }

  /** Two parts with something skipped before, between and behind. */
  lemma TwoParts(s: string, a: string, a': string, b: string, b': string, rest: string,
                 m: int, h: int, p: bool, m': int, h': int, p': bool)
    requires Pays(s, a, 0, 0, true) && Pays(a, a', m, h, p) && Pays(a', b, 0, 0, true)
    requires Pays(b, b', m', h', p') && Pays(b', rest, 0, 0, true)
    ensures Pays(s, rest, m + m', h + h', p && p')
  {
    Between(s, a, a', b, m, h, p);
    PaysChain(b, b', rest, m', h', p', 0, 0, true);
    PaysChain(s, b, rest, m, h, p, m', h', p');
  }

  lemma NodeText(s: string) returns (outputs: Parsed<seq<string>>, at: string, kids: string, children: Parsed<map<string, Node>>)
    requires |s| > 0 && ReadNode(s).Some?
    ensures at == SkipSpace(s[1..]) && ReadStrings(at) == Some(outputs) && Pays(s, at, 0, 0, true)
    ensures Pays(outputs.rest, kids, 0, 0, true) && |kids| < |s| && ReadChildren(kids, map[]) == Some(children)
    ensures Pays(children.rest, ReadNode(s).value.rest, 0, 0, true)
    ensures ReadNode(s).value.value == Node(outputs.value, children.value)
  {
    at := SkipSpace(s[1..]);
    Skips(s, s[1..]);
    SpaceSkips(s[1..]);
    PaysChain(s, s[1..], at, 0, 0, true, 0, 0, true);
    outputs := ReadStrings(at).value;
    var s1 := Expect(outputs.rest, ",").value;
    var s2 := Expect(s1, "[").value;
    ExpectSkips(outputs.rest, ",");
    ExpectSkips(s1, "[");
    PaysChain(outputs.rest, s1, s2, 0, 0, true, 0, 0, true);
    kids := SkipSpace(s2);
    SpaceSkips(s2);
    PaysChain(outputs.rest, s2, kids, 0, 0, true, 0, 0, true);
    children := ReadChildren(kids, map[]).value;
    ExpectSkips(children.rest, ")");
  }

  lemma NodeParts(outputs: seq<string>, children: map<string, Node>, k: Kind)
    ensures NodeSize(k, Node(outputs, children)) == StringsSize(k, outputs) + MapSum(NodeSize, k, children)
  {
    NodeIs(k, Node(outputs, children));
  }

  lemma {:induction false} NodePays(s: string)
    requires |s| > 0 && ReadNode(s).Some?
    ensures var r := ReadNode(s).value; Pays(s, r.rest, NodeSize(Marks, r.value), NodeSize(Hards, r.value), CalmNode(r.value))
    decreases |s|, 1
  {
    var outputs, at, kids, children := NodeText(s);
    StringsPay(at);
    ChildrenPay(kids, map[]);
    EmptySum(NodeSize, Marks);
    EmptySum(NodeSize, Hards);
    NodeParts(outputs.value, children.value, Marks);
    NodeParts(outputs.value, children.value, Hards);
    TwoParts(s, at, outputs.rest, kids, children.rest, ReadNode(s).value.rest,
             StringsSize(Marks, outputs.value), StringsSize(Hards, outputs.value), All(Calm, outputs.value),
             MapSum(NodeSize, Marks, children.value), MapSum(NodeSize, Hards, children.value), CalmChildren(children.value));
    assert All(Calm, outputs.value) && CalmChildren(children.value) ==> CalmNode(ReadNode(s).value.value);
  }

  lemma {:induction false} ChildValuePays(s: string)
    requires ReadChildValue(s).Some?
    ensures var r := ReadChildValue(s).value; Pays(s, r.rest, NodeSize(Marks, r.value), NodeSize(Hards, r.value), CalmNode(r.value))
    decreases |s|, 2
  {
    if s[0] == '[' {
      var outputs := ReadStrings(s).value;
      StringsPay(s);
      EmptySum(NodeSize, Marks);
      EmptySum(NodeSize, Hards);
      NodeParts(outputs.value, map[], Marks);
      NodeParts(outputs.value, map[], Hards);
    } else {
      NodePays(s);
    }
  }

  ghost predicate CalmChild(c: (string, Node)) {
    Calm(c.0) && CalmNode(c.1)
  }

  function ChildCount(k: Kind, c: (string, Node)): nat {
    Of(k, c.0) + NodeSize(k, c.1)
  }

  lemma {:induction false} ChildPays(s: string)
    requires ReadChild(s).Some?
    ensures var r := ReadChild(s).value; Pays(s, r.rest, ChildCount(Marks, r.value), ChildCount(Hards, r.value), CalmChild(r.value))
    decreases |s|, 3
  {
    var s1 := Expect(s, "(").value;
    var name := ReadString(s1).value;
    var s2 := Expect(name.rest, ",").value;
    var child := ReadChildValue(s2).value;
    ExpectSkips(s, "(");
    StringPays(s1);
    ExpectSkips(name.rest, ",");
    ChildValuePays(s2);
    ExpectSkips(child.rest, ")");
    TwoParts(s, s1, name.rest, s2, child.rest, ReadChild(s).value.rest, Of(Marks, name.value), Of(Hards, name.value), Calm(name.value),
             NodeSize(Marks, child.value), NodeSize(Hards, child.value), CalmNode(child.value));
  }

  lemma {:induction false} ChildrenPay(s: string, read: map<string, Node>)
    requires ReadChildren(s, read).Some?
    ensures var r := ReadChildren(s, read).value;
            Pays(s, r.rest, MapSum(NodeSize, Marks, r.value) - MapSum(NodeSize, Marks, read),
                 MapSum(NodeSize, Hards, r.value) - MapSum(NodeSize, Hards, read), CalmChildren(read) ==> CalmChildren(r.value))
    decreases |s|, 4
  {
    var next := NextItem(s, read != map[]).value;
    NextSkips(s, read != map[]);
    if next.value {
      var child := ReadChild(next.rest).value;
      ChildPays(next.rest);
      ChildrenPay(SkipSpace(child.rest), read[child.value.0 := child.value.1]);
      ChildPaid(s, next.rest, child, read, ReadChildren(s, read).value);
    }
  }

  lemma ChildPaid(s: string, at: string, child: Parsed<(string, Node)>, read: map<string, Node>, r: Parsed<map<string, Node>>)
    requires Pays(s, at, 0, 0, true)
    requires Pays(at, child.rest, ChildCount(Marks, child.value), ChildCount(Hards, child.value), CalmChild(child.value))
    requires var more := read[child.value.0 := child.value.1];
             Pays(SkipSpace(child.rest), r.rest, MapSum(NodeSize, Marks, r.value) - MapSum(NodeSize, Marks, more),
                  MapSum(NodeSize, Hards, r.value) - MapSum(NodeSize, Hards, more), CalmChildren(more) ==> CalmChildren(r.value))
    ensures Pays(s, r.rest, MapSum(NodeSize, Marks, r.value) - MapSum(NodeSize, Marks, read),
                 MapSum(NodeSize, Hards, r.value) - MapSum(NodeSize, Hards, read), CalmChildren(read) ==> CalmChildren(r.value))
  {
    var more := read[child.value.0 := child.value.1];
    SpaceSkips(child.rest);
    MapUpdate(NodeSize, Marks, read, child.value.0, child.value.1);
    MapUpdate(NodeSize, Hards, read, child.value.0, child.value.1);
    var m := MapSum(NodeSize, Marks, r.value) - MapSum(NodeSize, Marks, more);
    var h := MapSum(NodeSize, Hards, r.value) - MapSum(NodeSize, Hards, more);
    var p := CalmChildren(more) ==> CalmChildren(r.value);
    OneMore(s, at, child.rest, SkipSpace(child.rest), r.rest, ChildCount(Marks, child.value), ChildCount(Hards, child.value),
            CalmChild(child.value), m, h, p);
    assert CalmChildren(read) && CalmChild(child.value) ==> CalmChildren(more);
    PaysLess(s, r.rest, ChildCount(Marks, child.value) + m, ChildCount(Hards, child.value) + h, CalmChild(child.value) && p,
             MapSum(NodeSize, Marks, r.value) - MapSum(NodeSize, Marks, read),
             MapSum(NodeSize, Hards, r.value) - MapSum(NodeSize, Hards, read), CalmChildren(read) ==> CalmChildren(r.value));
  }

  ghost predicate CalmInputNode(n: InputNode) {
    match n
    case Flat(outputs) => All(Calm, outputs)
    case Deep(node) => CalmNode(node)
  }

  ghost predicate CalmRow(i: InputRow) {
    CalmPath(i.path) && CalmInputNode(i.node)
  }

  lemma InputNodePays(s: string)
    requires ReadInputNode(s).Some?
    ensures var r := ReadInputNode(s).value;
            Pays(s, r.rest, InputNodeSize(Marks, r.value), InputNodeSize(Hards, r.value), CalmInputNode(r.value))
  {
    if s[0] == '[' { StringsPay(s); } else { NodePays(s); }
  }

  lemma DynamicInputPays(s: string)
    requires ReadDynamicInput(s).Some?
    ensures var r := ReadDynamicInput(s).value; Pays(s, r.rest, RowSize(Marks, r.value), RowSize(Hards, r.value), CalmRow(r.value))
  {
    var s0 := Expect(s, "(").value;
    var path := ReadPathString(s0).value;
    var s1 := Comma(path.rest).value;
    var node := ReadInputNode(s1).value;
    ExpectSkips(s, "(");
    PathPays(s0);
    CommaSkips(path.rest);
    InputNodePays(s1);
    ExpectSkips(node.rest, ")");
    TwoParts(s, s0, path.rest, s1, node.rest, ReadDynamicInput(s).value.rest, Of(Marks, path.value), Of(Hards, path.value),
             CalmPath(path.value), InputNodeSize(Marks, node.value), InputNodeSize(Hards, node.value), CalmInputNode(node.value));
  }

  lemma SimpleInputPays(s: string)
    requires ReadSimpleInput(s).Some?
    ensures var r := ReadSimpleInput(s).value; Pays(s, r.rest, RowSize(Marks, r.value), RowSize(Hards, r.value), CalmRow(r.value))
  {
    var s0 := Expect(s, "(").value;
    var path := ReadPathString(s0).value;
    var s1 := Expect(path.rest, ",").value;
    var outputs := ReadStrings(s1).value;
    ExpectSkips(s, "(");
    PathPays(s0);
    ExpectSkips(path.rest, ",");
    StringsPay(s1);
    ExpectSkips(outputs.rest, ")");
    TwoParts(s, s0, path.rest, s1, outputs.rest, ReadSimpleInput(s).value.rest, Of(Marks, path.value), Of(Hards, path.value),
             CalmPath(path.value), StringsSize(Marks, outputs.value), StringsSize(Hards, outputs.value), All(Calm, outputs.value));
  }

  lemma InputItemsPay()
    ensures ItemPays(ReadSimpleInput, RowSize, CalmRow) && ItemPays(ReadDynamicInput, RowSize, CalmRow)
  {
    forall s | ReadSimpleInput(s).Some?
      ensures var r := ReadSimpleInput(s).value; Pays(s, r.rest, RowSize(Marks, r.value), RowSize(Hards, r.value), CalmRow(r.value))
    { SimpleInputPays(s); }
    forall s | ReadDynamicInput(s).Some?
      ensures var r := ReadDynamicInput(s).value; Pays(s, r.rest, RowSize(Marks, r.value), RowSize(Hards, r.value), CalmRow(r.value))
    { DynamicInputPays(s); }
  }

  lemma InputsPay(s: string, dynamic: bool)
    requires ReadInputs(s, dynamic).Some?
    ensures var r := ReadInputs(s, dynamic).value;
            Pays(s, r.rest, Total(RowSize, Marks, r.value), Total(RowSize, Hards, r.value), All(CalmRow, r.value))
  {
    InputItemsPay();
    if dynamic { ListPays(ReadDynamicInput, RowSize, CalmRow, s); } else { ListPays(ReadSimpleInput, RowSize, CalmRow, s); }
  }

  lemma SourcesPay(s: string)
    requires ReadList(ReadPathString, s).Some?
    ensures var r := ReadList(ReadPathString, s).value;
            Pays(s, r.rest, Total(Of, Marks, r.value), Total(Of, Hards, r.value), All(CalmPath, r.value))
  {
    forall t | ReadPathString(t).Some?
      ensures var r := ReadPathString(t).value; Pays(t, r.rest, Of(Marks, r.value), Of(Hards, r.value), CalmPath(r.value))
    { PathPays(t); }
    ListPays(ReadPathString, Of, CalmPath, s);
  }

  // ---- what dictionaries and sets keep of the rows ----

  lemma {:induction false} RowsHold(k: Kind, rows: seq<InputRow>)
    ensures MapSum(StringsSize, k, SimpleOf(rows)) + MapSum(NodeSize, k, DynamicOf(rows)) <= Total(RowSize, k, rows)
    decreases |rows|
  {
    if |rows| == 0 {
      EmptySum(StringsSize, k);
      EmptySum(NodeSize, k);
    } else {
      var front, last := rows[..|rows| - 1], rows[|rows| - 1];
      RowsHold(k, front);
      TotalLast(RowSize, k, rows);
      match last.node {
        case Flat(outputs) => MapUpdate(StringsSize, k, SimpleOf(front), last.path, outputs);
        case Deep(node) => MapUpdate(NodeSize, k, DynamicOf(front), last.path, node);
      }
    }
  }

  lemma {:induction false} RowsCalm(rows: seq<InputRow>)
    requires All(CalmRow, rows)
    ensures forall p :: p in SimpleOf(rows) ==> CalmPath(p) && All(Calm, SimpleOf(rows)[p])
    ensures forall p :: p in DynamicOf(rows) ==> CalmPath(p) && CalmNode(DynamicOf(rows)[p])
    decreases |rows|
  {
    if |rows| > 0 {
      assert rows[|rows| - 1] in rows && CalmRow(rows[|rows| - 1]);
      RowsCalm(rows[..|rows| - 1]);
    }
  }

  lemma {:induction false} EnvHolds(k: Kind, rows: seq<EnvRow>)
    ensures MapSum(Of, k, EnvOf(rows)) <= Total(EnvRowSize, k, rows)
    decreases |rows|
  {
    if |rows| == 0 {
      EmptySum(Of, k);
    } else {
      var front, last := rows[..|rows| - 1], rows[|rows| - 1];
      EnvHolds(k, front);
      TotalLast(EnvRowSize, k, rows);
      MapUpdate(Of, k, EnvOf(front), last.key, last.value);
    }
  }

  lemma {:induction false} ElementsHold(k: Kind, vs: seq<string>)
    ensures Sum(x => Of(k, x), Elements(vs)) <= Total(Of, k, vs)
    decreases |vs|
  {
    if |vs| > 0 {
      var f := x => Of(k, x);
      ElementsHold(k, vs[1..]);
      assert Elements(vs) == Elements(vs[1..]) + {vs[0]} by { assert vs == [vs[0]] + vs[1..]; }
      assert Elements(vs) - {vs[0]} == Elements(vs[1..]) - {vs[0]};
      SumRemove(f, Elements(vs), vs[0]);
      SumDrop(f, Elements(vs[1..]), vs[0]);
    }
  }

  // ---- no quote to spare ----

  lemma {:induction false} StringsTight(vs: seq<string>)
    ensures StringsSize(Slashes, vs) <= StringsSize(Hards, vs)
    ensures All(Calm, vs) && StringsSize(Hards, vs) == StringsSize(Slashes, vs) ==> AllPlain(vs)
    decreases |vs|
  {
    if |vs| > 0 {
      StringsTight(vs[1..]);
      assert All(Calm, vs) ==> Calm(vs[0]) && All(Calm, vs[1..]);
      assert vs == [vs[0]] + vs[1..];
    }
  }

  lemma {:induction false} NodeTight(n: Node)
    ensures NodeSize(Slashes, n) <= NodeSize(Hards, n)
    ensures CalmNode(n) && NodeSize(Hards, n) == NodeSize(Slashes, n) ==> PlainNode(n)
    decreases n
  {
    forall x | x in n.children
      ensures NodeSize(Slashes, n.children[x]) <= NodeSize(Hards, n.children[x])
      ensures CalmNode(n.children[x]) && NodeSize(Hards, n.children[x]) == NodeSize(Slashes, n.children[x]) ==> PlainNode(n.children[x])
    { NodeTight(n.children[x]); }
    StringsTight(n.outputs);
    NodeIs(Hards, n);
    NodeIs(Slashes, n);
    EntriesTight(NodeSize, n.children);
  }

  /** When a map counts no more with its quotes than without, no entry does. */
  lemma EntriesTight<V>(size: (Kind, V) -> nat, m: map<string, V>)
    requires forall x :: x in m ==> size(Slashes, m[x]) <= size(Hards, m[x])
    ensures MapSum(size, Slashes, m) <= MapSum(size, Hards, m)
    ensures MapSum(size, Hards, m) == MapSum(size, Slashes, m) ==>
              forall x :: x in m ==> Count('\"', x) == 0 && size(Hards, m[x]) == size(Slashes, m[x])
  {
    var f, g := x => Entry(size, Slashes, m, x), x => Entry(size, Hards, m, x);
    SumLe(f, g, m.Keys);
    if MapSum(size, Hards, m) == MapSum(size, Slashes, m) {
      forall x | x in m
        ensures Count('\"', x) == 0 && size(Hards, m[x]) == size(Slashes, m[x])
      { assert f(x) == g(x); }
    }
  }

  lemma SourcesTight(d: Derivation)
    ensures SourcesSize(Slashes, d) <= SourcesSize(Hards, d)
    ensures SourcesSize(Hards, d) == SourcesSize(Slashes, d) ==> forall p :: p in d.inputSrcs ==> Count('\"', p) == 0
  {
    var f, g := x => Of(Slashes, x), x => Of(Hards, x);
    SumLe(f, g, d.inputSrcs);
    if SourcesSize(Hards, d) == SourcesSize(Slashes, d) {
      forall p | p in d.inputSrcs
        ensures Count('\"', p) == 0
      { assert f(p) == g(p); }
    }
  }

  ghost predicate InputsAreCalm(d: Derivation) {
    && (forall p :: p in d.inputDrvs ==> CalmPath(p) && All(Calm, d.inputDrvs[p]))
    && (forall p :: p in d.dynamicInputs ==> CalmPath(p) && CalmNode(d.dynamicInputs[p]))
    && (forall p :: p in d.inputSrcs ==> CalmPath(p))
  }

  lemma InputsTight(d: Derivation)
    ensures InputsSize(Slashes, d) <= InputsSize(Hards, d)
    ensures InputsAreCalm(d) && InputsSize(Hards, d) == InputsSize(Slashes, d) && SourcesSize(Hards, d) == SourcesSize(Slashes, d) ==>
              InputsArePlain(d)
  {
    forall p | p in d.inputDrvs
      ensures StringsSize(Slashes, d.inputDrvs[p]) <= StringsSize(Hards, d.inputDrvs[p])
      ensures All(Calm, d.inputDrvs[p]) && StringsSize(Hards, d.inputDrvs[p]) == StringsSize(Slashes, d.inputDrvs[p]) ==>
                AllPlain(d.inputDrvs[p])
    { StringsTight(d.inputDrvs[p]); }
    forall p | p in d.dynamicInputs
      ensures NodeSize(Slashes, d.dynamicInputs[p]) <= NodeSize(Hards, d.dynamicInputs[p])
      ensures CalmNode(d.dynamicInputs[p]) && NodeSize(Hards, d.dynamicInputs[p]) == NodeSize(Slashes, d.dynamicInputs[p]) ==>
                PlainNode(d.dynamicInputs[p])
    { NodeTight(d.dynamicInputs[p]); }
    EntriesTight(StringsSize, d.inputDrvs);
    EntriesTight(NodeSize, d.dynamicInputs);
    SourcesTight(d);
  }

  // ---- platform, builder, arguments, environment ----

  function ProgramMarks(p: Program): nat {
    Of(Marks, p.platform) + Of(Marks, p.builder) + StringsSize(Marks, p.args) + MapSum(Of, Marks, p.env)
  }

  lemma {:induction false} EscapeKeepsQuotes(s: string)
    ensures Count('\"', Escape(s)) == Count('\"', s)
    decreases |s|
  {
    if |s| > 0 {
      EscapeStep(s);
      CountConcat('\"', EscapeChar(s[0]), Escape(s[1..]));
      EscapeKeepsQuotes(s[1..]);
      EscapedCharQuotes(s[0]);
    }
  }

  lemma EscapedCharQuotes(c: char)
    ensures Count('\"', EscapeChar(c)) == if c == '\"' then 1 else 0
  {
    if |EscapeChar(c)| == 1 {
      OneChar(c);
    } else {
      assert EscapeChar(c) == [EscapeChar(c)[0], EscapeChar(c)[1]];
      TwoChars(EscapeChar(c)[0], EscapeChar(c)[1]);
    }
  }

  lemma EscapedCosts(s: string, rest: string)
    ensures Count('\"', Quoted(Escape(s), rest)) == Of(Marks, s) + Count('\"', rest)
  {
    QuotedCosts(Marks, Escape(s), rest);
    EscapeKeepsQuotes(s);
  }

  lemma EnvRowCosts(e: EnvRow)
    ensures Costs(PrintEnvRow, EnvRowSize, Marks, e)
  {
    forall rest
      ensures Count('\"', PrintEnvRow(e, rest)) == EnvRowSize(Marks, e) + Count('\"', rest)
    {
      var value := Quoted(Escape(e.value), ")" + rest);
      LeadIsFree(Marks, "(", Quoted(Escape(e.key), "," + value));
      EscapedCosts(e.key, "," + value);
      LeadIsFree(Marks, ",", value);
      EscapedCosts(e.value, ")" + rest);
      LeadIsFree(Marks, ")", rest);
    }
  }

  lemma EnvCosts(d: Derivation, rest: string)
    ensures Count('\"', PrintEnv(d, rest)) == MapSum(Of, Marks, d.env) + Count('\"', rest)
  {
    forall e | e in EnvRows(d.env)
      ensures Costs(PrintEnvRow, EnvRowSize, Marks, e)
    { EnvRowCosts(e); }
    ListedCosts(PrintEnvRow, EnvRowSize, Marks, EnvRows(d.env), ")" + rest);
    LeadIsFree(Marks, ")", rest);
    SortedHolds(d.env.Keys);
    EnvTotal(Marks, d.env, d.env.Keys);
  }

  lemma ArgsCost(args: seq<string>, rest: string)
    ensures Count('\"', Listed(PrintEscaped, args, rest)) == StringsSize(Marks, args) + Count('\"', rest)
  {
    forall v | v in args
      ensures Costs(PrintEscaped, Of, Marks, v)
    {
      forall more
        ensures Count('\"', PrintEscaped(v, more)) == Of(Marks, v) + Count('\"', more)
      { EscapedCosts(v, more); }
    }
    ListedCosts(PrintEscaped, Of, Marks, args, rest);
  }

  function ProgramOf(d: Derivation): Program {
    Program(d.platform, d.builder, d.args, d.env)
  }

  lemma ProgramCosts(d: Derivation, rest: string)
    ensures Count('\"', PrintProgram(d, rest)) == ProgramMarks(ProgramOf(d)) + Count('\"', rest)
  {
    var env := PrintEnv(d, rest);
    var args := Listed(PrintEscaped, d.args, "," + env);
    var builder := Quoted(Escape(d.builder), "," + args);
    QuotedCosts(Marks, d.platform, "," + builder);
    LeadIsFree(Marks, ",", builder);
    EscapedCosts(d.builder, "," + args);
    LeadIsFree(Marks, ",", args);
    ArgsCost(d.args, "," + env);
    LeadIsFree(Marks, ",", env);
    EnvCosts(d, rest);
  }

  predicate Anything(e: EnvRow) {
    true
  }

  lemma EnvRowPays(s: string)
    requires ReadEnvRow(s).Some?
    ensures var r := ReadEnvRow(s).value; Pays(s, r.rest, EnvRowSize(Marks, r.value), EnvRowSize(Hards, r.value), true)
  {
    var s0 := Expect(s, "(").value;
    var key := ReadString(s0).value;
    var s1 := Expect(key.rest, ",").value;
    var value := ReadString(s1).value;
    ExpectSkips(s, "(");
    StringPays(s0);
    ExpectSkips(key.rest, ",");
    StringPays(s1);
    ExpectSkips(value.rest, ")");
    TwoParts(s, s0, key.rest, s1, value.rest, ReadEnvRow(s).value.rest, Of(Marks, key.value), Of(Hards, key.value), Calm(key.value),
             Of(Marks, value.value), Of(Hards, value.value), Calm(value.value));
  }

  lemma EnvPays(s: string)
    requires ReadList(ReadEnvRow, s).Some?
    ensures var r := ReadList(ReadEnvRow, s).value; Count('\"', s) >= Count('\"', r.rest) + MapSum(Of, Marks, EnvOf(r.value))
  {
    forall t | ReadEnvRow(t).Some?
      ensures var r := ReadEnvRow(t).value; Pays(t, r.rest, EnvRowSize(Marks, r.value), EnvRowSize(Hards, r.value), Anything(r.value))
    { EnvRowPays(t); }
    ListPays(ReadEnvRow, EnvRowSize, Anything, s);
    EnvHolds(Marks, ReadList(ReadEnvRow, s).value.value);
  }

  lemma ArgsAndEnvPay(s: string, args: Parsed<seq<string>>, s1: string, env: Parsed<seq<EnvRow>>, end: string)
    requires ReadStrings(s) == Some(args) && Comma(args.rest) == Some(s1)
    requires ReadList(ReadEnvRow, s1) == Some(env) && Expect(SkipSpace(env.rest), ")") == Some(end)
    ensures Count('\"', s) >= Count('\"', end) + StringsSize(Marks, args.value) + MapSum(Of, Marks, EnvOf(env.value))
  {
    StringsPay(s);
    CommaSkips(args.rest);
    EnvPays(s1);
    SpaceSkips(env.rest);
    ExpectSkips(SkipSpace(env.rest), ")");
  }

  lemma StringStarts(s: string)
    requires ReadString(s).Some?
    ensures |s| > 0 && s[0] == '\"'
  {
    assert s[..1] == "\"" && s[0] == s[..1][0];
  }

  lemma NameAndBuilderPay(s: string, platform: Parsed<string>, s1: string, builder: Parsed<string>, s2: string)
    requires ReadString(s) == Some(platform) && Comma(platform.rest) == Some(s1)
    requires ReadString(s1) == Some(builder) && Comma(builder.rest) == Some(s2)
    ensures Count('\"', s) >= Count('\"', s2) + Of(Marks, platform.value) + Of(Marks, builder.value)
  {
    StringPays(s);
    CommaSkips(platform.rest);
    StringPays(s1);
    CommaSkips(builder.rest);
  }

  lemma ProgramPays(s: string)
    requires ReadProgram(s).Some?
    ensures var r := ReadProgram(s).value; Count('\"', s) >= Count('\"', r.rest) + ProgramMarks(r.value)
    ensures |s| > 0 && s[0] == '\"'
  {
    var platform := ReadString(s).value;
    var s1 := Comma(platform.rest).value;
    var builder := ReadString(s1).value;
    var s2 := Comma(builder.rest).value;
    StringStarts(s);
    NameAndBuilderPay(s, platform, s1, builder, s2);
    var args := ReadStrings(s2).value;
    var s3 := Comma(args.rest).value;
    var env := ReadList(ReadEnvRow, s3).value;
    ArgsAndEnvPay(s2, args, s3, env, Expect(SkipSpace(env.rest), ")").value);
  }

  // ---- the theorem ----

  /** Two ends of one text that begin with a quote and have as many quotes are
      the same. */
  lemma SameEnd(t: string, a: string, b: string)
    requires EndsIn(t, a) && EndsIn(t, b) && Count('\"', a) == Count('\"', b) && |a| <= |b|
    requires |b| > 0 && b[0] == '\"'
    ensures a == b
  {
    assert b[|b| - |a|..] == a by { assert t[|t| - |b|..][|b| - |a|..] == t[|t| - |a|..]; }
    LeadingQuote(b, a);
  }

  lemma LeadingQuote(b: string, a: string)
    requires EndsIn(b, a) && |b| > 0 && b[0] == '\"'
    ensures Count('\"', b) > Count('\"', a) || b == a
  {
    var lead := b[..|b| - |a|];
    assert b == lead + a;
    CountConcat('\"', lead, a);
    if |lead| > 0 { assert lead[0] == b[0]; }
  }

  /** The text of the inputs and of what follows them. */
  function InputsText(d: Derivation, rest: string): string {
    Listed(PrintInput, InputRows(d), "," + Listed(PrintPath, Sorted(d.inputSrcs), "," + PrintProgram(d, rest)))
  }

  lemma InputsTextCosts(k: Kind, d: Derivation, rest: string)
    requires !k.Hards?
    ensures Count(Coin(k), InputsText(d, rest))
            == Total(RowSize, k, InputRows(d)) + SourcesSize(k, d) + Count(Coin(k), PrintProgram(d, rest))
  {
    var program := PrintProgram(d, rest);
    var srcs := Listed(PrintPath, Sorted(d.inputSrcs), "," + program);
    forall i | i in InputRows(d)
      ensures Costs(PrintInput, RowSize, k, i)
    { InputCosts(k, i); }
    ListedCosts(PrintInput, RowSize, k, InputRows(d), "," + srcs);
    LeadIsFree(k, ",", srcs);
    forall p | p in Sorted(d.inputSrcs)
      ensures Costs(PrintPath, Of, k, p)
    { PathCosts(k, p); }
    ListedCosts(PrintPath, Of, k, Sorted(d.inputSrcs), "," + program);
    LeadIsFree(k, ",", program);
    SortedTotal(k, d.inputSrcs);
  }

  lemma ListEnds<T(!new)>(show: (T, string) -> string, vs: seq<T>, more: string)
    requires forall v :: v in vs ==> DrvPrint.Appends(show, v)
    ensures EndsIn(Listed(show, vs, "," + more), more)
  {
    DrvPrint.ListedAppends(show, vs, "", "," + more);
    assert "" + ("," + more) == "," + more;
    var text := Listed(show, vs, "," + more);
    assert text == Listed(show, vs, "") + "," + more;
  }

  lemma ProgramIsTheEnd(d: Derivation, rest: string)
    ensures EndsIn(InputsText(d, rest), PrintProgram(d, rest))
    ensures PrintProgram(d, rest) != "" && PrintProgram(d, rest)[0] == '\"'
  {
    var srcs := Listed(PrintPath, Sorted(d.inputSrcs), "," + PrintProgram(d, rest));
    forall i | i in InputRows(d)
      ensures DrvPrint.Appends(PrintInput, i)
    { DrvPrint.InputAppends(i); }
    forall p | p in Sorted(d.inputSrcs)
      ensures DrvPrint.Appends(PrintPath, p)
    { DrvPrint.PathAppends(p); }
    ListEnds(PrintInput, InputRows(d), srcs);
    ListEnds(PrintPath, Sorted(d.inputSrcs), PrintProgram(d, rest));
    EndsInTransitive(InputsText(d, rest), srcs, PrintProgram(d, rest));
  }

  /** The fields behind the outputs. */
  lemma FieldParts(s: string, dynamic: bool, s1: string)
    returns (rows: Parsed<seq<InputRow>>, s2: string, srcs: Parsed<seq<string>>, s3: string, p: Parsed<Program>)
    requires ReadFields(s, dynamic).Some? && ReadList(ReadOutput, s).Some? && Comma(ReadList(ReadOutput, s).value.rest) == Some(s1)
    ensures ReadInputs(s1, dynamic) == Some(rows) && Comma(rows.rest) == Some(s2)
    ensures ReadList(ReadPathString, s2) == Some(srcs) && Comma(srcs.rest) == Some(s3) && ReadProgram(s3) == Some(p)
    ensures var r := ReadFields(s, dynamic).value;
            && r.rest == p.rest && ProgramOf(r.value) == p.value && r.value.inputSrcs == Elements(srcs.value)
            && r.value.inputDrvs == SimpleOf(rows.value) && r.value.dynamicInputs == DynamicOf(rows.value)
  {
    rows := ReadInputs(s1, dynamic).value;
    s2 := Comma(rows.rest).value;
    srcs := ReadList(ReadPathString, s2).value;
    s3 := Comma(srcs.rest).value;
    p := ReadProgram(s3).value;
  }

  /** Behind the outputs, which are plain, the parser is at the inputs. */
  lemma AtTheInputs(d: Derivation, rest: string)
    requires OutputsArePlain(d)
    ensures ReadList(ReadOutput, PrintFields(d, rest)).Some?
    ensures Comma(ReadList(ReadOutput, PrintFields(d, rest)).value.rest) == Some(InputsText(d, rest))
  {
    OutputsRead(d, "," + InputsText(d, rest));
    LeadSolid('[', InputsText(d, rest)[1..]);
    assert InputsText(d, rest) == ['['] + InputsText(d, rest)[1..];
    CommaThen(InputsText(d, rest));
  }

  /** Up to the program, the text pays for the rows and the sources. */
  lemma RowsArePaid(t: string, dynamic: bool, rows: Parsed<seq<InputRow>>, s2: string, srcs: Parsed<seq<string>>, s3: string)
    requires ReadInputs(t, dynamic) == Some(rows) && Comma(rows.rest) == Some(s2)
    requires ReadList(ReadPathString, s2) == Some(srcs) && Comma(srcs.rest) == Some(s3)
    ensures Pays(t, s3, Total(RowSize, Marks, rows.value) + Total(Of, Marks, srcs.value),
                 Total(RowSize, Hards, rows.value) + Total(Of, Hards, srcs.value), All(CalmRow, rows.value) && All(CalmPath, srcs.value))
  {
    Skips(t, t);
    InputsPay(t, dynamic);
    CommaSkips(rows.rest);
    SourcesPay(s2);
    CommaSkips(srcs.rest);
    TwoParts(t, t, rows.rest, s2, srcs.rest, s3, Total(RowSize, Marks, rows.value), Total(RowSize, Hards, rows.value),
             All(CalmRow, rows.value), Total(Of, Marks, srcs.value), Total(Of, Hards, srcs.value), All(CalmPath, srcs.value));
  }

  /** The rows hold at least what the derivation they make holds, and that at
      least what its own rows hold. */
  lemma RowsAreEnough(k: Kind, d: Derivation, rows: seq<InputRow>, srcs: seq<string>)
    requires SimpleOf(rows) == d.inputDrvs && DynamicOf(rows) == d.dynamicInputs && Elements(srcs) == d.inputSrcs
    ensures Total(RowSize, k, InputRows(d)) <= InputsSize(k, d) <= Total(RowSize, k, rows)
    ensures SourcesSize(k, d) <= Total(Of, k, srcs)
  {
    RowsHold(k, rows);
    RowsAtMost(k, d);
    ElementsHold(k, srcs);
  }

  /** The parser is back in step at the program. */
  lemma BackInStep(d: Derivation, rest: string, rows: seq<InputRow>, srcs: seq<string>, s3: string, hards: int, calm: bool)
    requires SimpleOf(rows) == d.inputDrvs && DynamicOf(rows) == d.dynamicInputs && Elements(srcs) == d.inputSrcs
    requires Pays(InputsText(d, rest), s3, Total(RowSize, Marks, rows) + Total(Of, Marks, srcs), hards, calm)
    requires ReadProgram(s3) == Some(Parsed(ProgramOf(d), rest))
    ensures s3 == PrintProgram(d, rest)
  {
    var t, program := InputsText(d, rest), PrintProgram(d, rest);
    RowsAreEnough(Marks, d, rows, srcs);
    InputsTextCosts(Marks, d, rest);
    ProgramCosts(d, rest);
    ProgramPays(s3);
    ProgramIsTheEnd(d, rest);
    if |s3| <= |program| { SameEnd(t, s3, program); } else { SameEnd(t, program, s3); }
  }

  lemma CalmInputs(d: Derivation, rows: seq<InputRow>, srcs: seq<string>)
    requires SimpleOf(rows) == d.inputDrvs && DynamicOf(rows) == d.dynamicInputs && Elements(srcs) == d.inputSrcs
    requires All(CalmRow, rows) && All(CalmPath, srcs)
    ensures InputsAreCalm(d)
  {
    RowsCalm(rows);
    assert forall p :: p in d.inputSrcs ==> p in srcs;
  }

  /** Then it had no backslash to spare, and read no quote. */
  lemma PaidExactly(d: Derivation, rest: string, rows: seq<InputRow>, srcs: seq<string>, marks: int)
    requires SimpleOf(rows) == d.inputDrvs && DynamicOf(rows) == d.dynamicInputs && Elements(srcs) == d.inputSrcs
    requires Pays(InputsText(d, rest), PrintProgram(d, rest), marks, Total(RowSize, Hards, rows) + Total(Of, Hards, srcs),
                  All(CalmRow, rows) && All(CalmPath, srcs))
    ensures InputsArePlain(d)
  {
    RowsAreEnough(Hards, d, rows, srcs);
    RowsAtMost(Slashes, d);
    InputsTextCosts(Slashes, d, rest);
    InputsTight(d);
    SourcesTight(d);
    CalmInputs(d, rows, srcs);
  }

  /** When a derivation comes back from its text, every field that is written
      without escapes is plain. */
  lemma ComesBackOnlyIfPlain(d: Derivation, rest: string)
    requires ParseDerivation(Unparse(d, rest)) == Some(Parsed(d.(outputs := ByName(d.outputs)), rest))
    ensures PlainDerivation(d)
  {
    OutputsComeBackOnlyIfPlain(d, rest);
    FormatReads(d, rest);
    AtTheInputs(d, rest);
    var rows, s2, srcs, s3, p := FieldParts(PrintFields(d, rest), d.dynamicInputs != map[], InputsText(d, rest));
    RowsArePaid(InputsText(d, rest), d.dynamicInputs != map[], rows, s2, srcs, s3);
    var hards := Total(RowSize, Hards, rows.value) + Total(Of, Hards, srcs.value);
    BackInStep(d, rest, rows.value, srcs.value, s3, hards, All(CalmRow, rows.value) && All(CalmPath, srcs.value));
    PaidExactly(d, rest, rows.value, srcs.value, Total(RowSize, Marks, rows.value) + Total(Of, Marks, srcs.value));
    PlatformComesBack(d, rest);
  }

  /** A derivation comes back as it was, with its outputs in name order, exactly
      when every field that is written without escapes is plain, no input is both
      plain and dynamic, and the flag tells the truth. */
  lemma RoundTripIff(d: Derivation, rest: string)
    ensures ParseDerivation(Unparse(d, rest)) == Some(Parsed(d.(outputs := ByName(d.outputs)), rest)) <==>
              && PlainDerivation(d)
              && d.inputDrvs.Keys !! d.dynamicInputs.Keys && d.isDynamic == (d.dynamicInputs != map[])
  {
    if PlainDerivation(d) {
      ParseUnparse(d, rest);
      NormalIff(d);
    } else if ParseDerivation(Unparse(d, rest)) == Some(Parsed(d.(outputs := ByName(d.outputs)), rest)) {
      ComesBackOnlyIfPlain(d, rest);
    }
  }
}
