/** Reading a NAR: what a reader finds at each offset, and the round trip. */
module NarRead {
  import opened Wrappers
  import opened Sequences
  import opened Bytes
  import opened Nar

  /** Something read, and the offset behind it. The offset may lie beyond the
      data: the last field may lack its padding. */
  datatype At<T> = At(value: T, next: nat)

  /** A Python slice: bounds beyond the end are the end. */
  function Slice(data: seq<Byte>, lo: nat, hi: nat): (s: seq<Byte>)
    requires lo <= hi
    ensures |s| <= hi - lo
    ensures hi <= |data| ==> s == data[lo..hi]
  {
    if lo >= |data| then [] else if hi > |data| then data[lo..] else data[lo..hi]
  }

  function Left(data: seq<Byte>, o: nat): nat {
    if o <= |data| then |data| - o else 0
  }

  function ReadText(data: seq<Byte>, o: nat): (r: Option<At<string>>)
    ensures r.Some? ==> o + 8 <= |data| && o + 8 <= r.value.next && WritableText(r.value.value)
  {
    if o + 8 > |data| then None else
      var n := UnpackU64(data[o..o + 8]);
      var body := Slice(data, o + 8, o + 8 + n);
      if AllAscii(body) then Some(At(Decode(body), o + 8 + n + Pad(n))) else None
  }

  function ReadContents(data: seq<Byte>, o: nat): (r: Option<At<seq<Byte>>>)
    ensures r.Some? ==> o + 8 <= |data| && o + 8 <= r.value.next && |r.value.value| < U64
  {
    if o + 8 > |data| then None else
      var n := UnpackU64(data[o..o + 8]);
      Some(At(Slice(data, o + 8, o + 8 + n), o + 8 + n + Pad(n)))
  }

  function Expect(data: seq<Byte>, o: nat, expected: string): (r: Option<nat>)
    ensures r.Some? ==> o + 8 <= |data| && o + 8 <= r.value
  {
    var text :- ReadText(data, o);
    if text.value == expected then Some(text.next) else None
  }

  /** The attributes of a file up to its contents: is it executable? */
  function ReadAttributes(data: seq<Byte>, o: nat, executable: bool): (r: Option<At<bool>>)
    ensures r.Some? ==> o < r.value.next
    decreases Left(data, o)
  {
    var key :- ReadText(data, o);
    if key.value == "contents" then Some(At(executable, key.next))
    else if key.value != "executable" then None
    else
      var ignored :- ReadText(data, key.next);
      ReadAttributes(data, ignored.next, true)
  }

  function ReadRegular(data: seq<Byte>, o: nat): (r: Option<At<Node>>)
    ensures r.Some? ==> o < r.value.next && Writable(r.value.value)
  {
    var executable :- ReadAttributes(data, o, false);
    var contents :- ReadContents(data, executable.next);
    var end :- Expect(data, contents.next, ")");
    Some(At(Regular(contents.value, executable.value), end))
  }

  function ReadSymlink(data: seq<Byte>, o: nat): (r: Option<At<Node>>)
    ensures r.Some? ==> o < r.value.next && Writable(r.value.value)
  {
    var o1 :- Expect(data, o, "target");
    var target :- ReadText(data, o1);
    var end :- Expect(data, target.next, ")");
    Some(At(Symlink(target.value), end))
  }

  /** `_read_node`. What it reads can be written again. */
  function ReadNode(data: seq<Byte>, o: nat): (r: Option<At<Node>>)
    ensures r.Some? ==> o < r.value.next && Writable(r.value.value)
    decreases Left(data, o), 2
  {
    var o1 :- Expect(data, o, "(");
    var o2 :- Expect(data, o1, "type");
    var kind :- ReadText(data, o2);
    ReadKind(data, kind.value, kind.next)
  }

  function ReadKind(data: seq<Byte>, kind: string, o: nat): (r: Option<At<Node>>)
    ensures r.Some? ==> o < r.value.next && Writable(r.value.value)
    decreases Left(data, o), 3
  {
    match kind
    case "directory" =>
      var entries :- ReadEntries(data, o, []);
      Some(At(Directory(entries.value), entries.next))
    case "regular" => ReadRegular(data, o)
    case "symlink" => ReadSymlink(data, o)
    case _ => None
  }

  /** The name of an entry, up to its node. */
  function ReadEntryName(data: seq<Byte>, o: nat): (r: Option<At<string>>)
    ensures r.Some? ==> o < r.value.next && o < |data| && WritableText(r.value.value)
  {
    var o1 :- Expect(data, o, "(");
    var o2 :- Expect(data, o1, "name");
    var name :- ReadText(data, o2);
    var o3 :- Expect(data, name.next, "node");
    Some(At(name.value, o3))
  }

  /** One entry, behind its keyword. */
  function ReadEntry(data: seq<Byte>, o: nat): (r: Option<At<Entry>>)
    ensures r.Some? ==> o < r.value.next && WritableText(r.value.value.name) && Writable(r.value.value.node)
    decreases Left(data, o), 0
  {
    var name :- ReadEntryName(data, o);
    var child :- ReadNode(data, name.next);
    var end :- Expect(data, child.next, ")");
    Some(At(Entry(name.value, child.value), end))
  }

  function ReadEntries(data: seq<Byte>, o: nat, read: seq<Entry>): (r: Option<At<seq<Entry>>>)
    requires WritableEntries(read)
    ensures r.Some? ==> o < r.value.next && WritableEntries(r.value.value)
    decreases Left(data, o), 1
  {
    var kind :- ReadText(data, o);
    if kind.value == ")" then Some(At(read, kind.next))
    else if kind.value != "entry" then None
    else
      var e :- ReadEntry(data, kind.next);
      WritableSnoc(read, e.value);
      ReadEntries(data, e.next, read + [e.value])
  }

  lemma {:induction false} WritableSnoc(es: seq<Entry>, e: Entry)
    requires WritableEntries(es) && WritableText(e.name) && Writable(e.node)
    ensures WritableEntries(es + [e])
  {
    if |es| > 0 {
      WritableSnoc(es[1..], e);
      assert (es + [e])[1..] == es[1..] + [e];
    } else {
      assert (es + [e])[1..] == [];
    }
  }

  /** `parse_nar`: the whole data is one archive. */
  function ParseNar(data: seq<Byte>): (r: Option<Node>)
    ensures r.Some? ==> Writable(r.value)
  {
    if |data| < 8 then None else
      var o :- Expect(data, 0, MAGIC);
      var node :- ReadNode(data, o);
      if node.next == |data| then Some(node.value) else None
  }

  // ---- the loops of the source ----

  method FindContents(data: seq<Byte>, o: nat) returns (r: Option<At<bool>>)
    ensures r == ReadAttributes(data, o, false)
  {
    var executable, offset := false, o;
    while true
      invariant ReadAttributes(data, o, false) == ReadAttributes(data, offset, executable)
      decreases Left(data, offset)
    {
      var key :- ReadText(data, offset);
      if key.value == "contents" { return Some(At(executable, key.next)); }
      if key.value != "executable" { return None; }
      var ignored :- ReadText(data, key.next);
      executable, offset := true, ignored.next;
    }
  }

  method ParseEntry(data: seq<Byte>, o: nat) returns (r: Option<At<Entry>>)
    ensures r == ReadEntry(data, o)
    decreases Left(data, o), 0
  {
    var name :- ReadEntryName(data, o);
    var child :- ParseNode(data, name.next);
    var end :- Expect(data, child.next, ")");
    return Some(At(Entry(name.value, child.value), end));
  }

  method ParseEntries(data: seq<Byte>, o: nat) returns (r: Option<At<seq<Entry>>>)
    ensures r == ReadEntries(data, o, [])
    decreases Left(data, o), 1
  {
    var entries, offset := [], o;
    while true
      invariant WritableEntries(entries) && Left(data, offset) <= Left(data, o)
      invariant ReadEntries(data, o, []) == ReadEntries(data, offset, entries)
      decreases Left(data, offset)
    {
      var kind :- ReadText(data, offset);
      if kind.value == ")" { return Some(At(entries, kind.next)); }
      if kind.value != "entry" { return None; }
      var e :- ParseEntry(data, kind.next);
      WritableSnoc(entries, e.value);
      entries, offset := entries + [e.value], e.next;
    }
  }

  method ParseNode(data: seq<Byte>, o: nat) returns (r: Option<At<Node>>)
    ensures r == ReadNode(data, o)
    decreases Left(data, o), 2
  {
    var o1 :- Expect(data, o, "(");
    var o2 :- Expect(data, o1, "type");
    var kind :- ReadText(data, o2);
    if kind.value == "directory" {
      var entries :- ParseEntries(data, kind.next);
      return Some(At(Directory(entries.value), entries.next));
    } else if kind.value == "regular" {
      var executable :- FindContents(data, kind.next);
      var contents :- ReadContents(data, executable.next);
      var end :- Expect(data, contents.next, ")");
      return Some(At(Regular(contents.value, executable.value), end));
    } else if kind.value == "symlink" {
      r := ReadSymlink(data, kind.next);
    } else {
      r := None;
    }
  }

  method Parse(data: seq<Byte>) returns (r: Option<Node>)
    ensures r == ParseNar(data)
  {
    if |data| < 8 { return None; }
    var o :- Expect(data, 0, MAGIC);
    var node :- ParseNode(data, o);
    return if node.next == |data| then Some(node.value) else None;
  }

  // ---- the round trip ----

  /** From `o` to `end` the data holds exactly these fields. */
  ghost predicate Ahead(data: seq<Byte>, o: nat, bodies: seq<seq<Byte>>, end: nat) {
    o + |Fields(bodies)| == end <= |data| && data[o..end] == Fields(bodies)
  }

  lemma NextField(data: seq<Byte>, o: nat, body: seq<Byte>, rest: seq<seq<Byte>>, end: nat)
    requires Ahead(data, o, [body] + rest, end) && |body| < U64
    ensures var o' := o + 8 + |body| + Pad(|body|);
            && o' <= |data| && Ahead(data, o', rest, end)
            && UnpackU64(data[o..o + 8]) == |body| && data[o + 8..o + 8 + |body|] == body
  {
    assert ([body] + rest)[1..] == rest;
    var f, after := Field(body), Fields(rest);
    var s := data[o..end];
    assert s == f + after;
    Part(data, o, end, 0, 8);
    Part(data, o, end, 8, 8 + |body|);
    Part(data, o, end, |f|, |s|);
    Prefix(f, after, 0, 8);
    Prefix(f, after, 8, 8 + |body|);
    assert (f + after)[|f|..] == after;
    UnpackPack(|body|);
  }

  lemma NextText(data: seq<Byte>, o: nat, s: string, rest: seq<seq<Byte>>, end: nat) returns (o': nat)
    requires Ahead(data, o, [Encode(s)] + rest, end) && WritableText(s)
    ensures ReadText(data, o) == Some(At(s, o')) && Ahead(data, o', rest, end)
  {
    NextField(data, o, Encode(s), rest, end);
    DecodeEncode(s);
    o' := o + 8 + |s| + Pad(|s|);
  }

  lemma NextTwo(data: seq<Byte>, o: nat, s: string, t: string, rest: seq<seq<Byte>>, end: nat) returns (o1: nat, o2: nat)
    requires Ahead(data, o, [Encode(s)] + ([Encode(t)] + rest), end) && WritableText(s) && WritableText(t)
    ensures ReadText(data, o) == Some(At(s, o1)) && ReadText(data, o1) == Some(At(t, o2)) && Ahead(data, o2, rest, end)
  {
    o1 := NextText(data, o, s, [Encode(t)] + rest, end);
    o2 := NextText(data, o1, t, rest, end);
  }

  lemma NextContents(data: seq<Byte>, o: nat, body: seq<Byte>, rest: seq<seq<Byte>>, end: nat) returns (o': nat)
    requires Ahead(data, o, [body] + rest, end) && |body| < U64
    ensures ReadContents(data, o) == Some(At(body, o')) && Ahead(data, o', rest, end)
  {
    NextField(data, o, body, rest, end);
    o' := o + 8 + |body| + Pad(|body|);
  }

  lemma AttributesAhead(data: seq<Byte>, o: nat, executable: bool, rest: seq<seq<Byte>>, end: nat) returns (o': nat)
    requires Ahead(data, o, (if executable then [Encode("executable"), Encode("")] else []) + ([Encode("contents")] + rest), end)
    ensures ReadAttributes(data, o, false) == Some(At(executable, o')) && Ahead(data, o', rest, end)
  {
    var tail := [Encode("contents")] + rest;
    if executable {
      assert [Encode("executable"), Encode("")] + tail == [Encode("executable")] + ([Encode("")] + tail);
      var o1, o2 := NextTwo(data, o, "executable", "", tail, end);
      o' := NextText(data, o2, "contents", rest, end);
    } else {
      assert [] + tail == tail;
      o' := NextText(data, o, "contents", rest, end);
    }
  }

  lemma RegularShape(n: Node, rest: seq<seq<Byte>>)
    requires n.Regular?
    ensures Kind(n)[1..] + [Encode(")")] + rest
         == (if n.executable then [Encode("executable"), Encode("")] else [])
            + ([Encode("contents")] + ([n.contents] + ([Encode(")")] + rest)))
  {
  }

  lemma RegularAhead(data: seq<Byte>, o: nat, n: Node, rest: seq<seq<Byte>>, end: nat) returns (o': nat)
    requires n.Regular? && Writable(n) && Ahead(data, o, Kind(n)[1..] + [Encode(")")] + rest, end)
    ensures ReadRegular(data, o) == Some(At(n, o')) && Ahead(data, o', rest, end)
  {
    RegularShape(n, rest);
    var o1 := AttributesAhead(data, o, n.executable, [n.contents] + ([Encode(")")] + rest), end);
    var o2 := NextContents(data, o1, n.contents, [Encode(")")] + rest, end);
    o' := NextText(data, o2, ")", rest, end);
  }

  lemma SymlinkAhead(data: seq<Byte>, o: nat, n: Node, rest: seq<seq<Byte>>, end: nat) returns (o': nat)
    requires n.Symlink? && Writable(n) && Ahead(data, o, Kind(n)[1..] + [Encode(")")] + rest, end)
    ensures ReadSymlink(data, o) == Some(At(n, o')) && Ahead(data, o', rest, end)
  {
    var close := [Encode(")")] + rest;
    assert Kind(n)[1..] + [Encode(")")] + rest == [Encode("target")] + ([Encode(n.target)] + close);
    var o1 := NextText(data, o, "target", [Encode(n.target)] + close, end);
    var o2 := NextText(data, o1, n.target, close, end);
    o' := NextText(data, o2, ")", rest, end);
  }

  lemma HeadAhead(data: seq<Byte>, o: nat, kind: string, body: seq<seq<Byte>>, end: nat) returns (o': nat)
    requires WritableText(kind)
    requires Ahead(data, o, [Encode("(")] + ([Encode("type")] + ([Encode(kind)] + body)), end)
    ensures ReadNode(data, o) == ReadKind(data, kind, o') && Ahead(data, o', body, end)
  {
    var o1, o2 := NextTwo(data, o, "(", "type", [Encode(kind)] + body, end);
    o' := NextText(data, o2, kind, body, end);
  }

  function KindName(n: Node): string {
    match n
    case Directory(_) => "directory"
    case Regular(_, _) => "regular"
    case Symlink(_) => "symlink"
  }

  lemma KindShape(n: Node)
    ensures |Kind(n)| > 0 && Kind(n)[0] == Encode(KindName(n))
    ensures n.Directory? ==> Kind(n)[1..] == EntriesTokens(n.entries)
  {
  }

  lemma RegroupNode<T>(a: T, b: T, s: seq<T>, c: T, rest: seq<T>)
    requires |s| > 0
    ensures [a, b] + s + [c] + rest == [a] + ([b] + ([s[0]] + (s[1..] + [c] + rest)))
  {
  }

  lemma NodeShape(n: Node, rest: seq<seq<Byte>>)
    ensures |Kind(n)| > 0
    ensures Tokens(n) + rest
         == [Encode("(")] + ([Encode("type")] + ([Encode(KindName(n))] + (Kind(n)[1..] + [Encode(")")] + rest)))
    ensures n.Directory? ==> Kind(n)[1..] == EntriesTokens(n.entries)
  {
    KindShape(n);
    RegroupNode(Encode("("), Encode("type"), Kind(n), Encode(")"), rest);
  }

  lemma {:induction false} KindAhead(data: seq<Byte>, o: nat, n: Node, rest: seq<seq<Byte>>, end: nat) returns (o': nat)
    requires Writable(n) && |Kind(n)| > 0 && Ahead(data, o, Kind(n)[1..] + [Encode(")")] + rest, end)
    ensures ReadKind(data, KindName(n), o) == Some(At(n, o')) && Ahead(data, o', rest, end)
    decreases n, 0
  {
    if n.Directory? {
      KindShape(n);
      o' := EntriesAhead(data, o, [], n.entries, rest, end);
      assert [] + n.entries == n.entries;
    } else if n.Regular? {
      o' := RegularAhead(data, o, n, rest, end);
    } else {
      o' := SymlinkAhead(data, o, n, rest, end);
    }
  }

  lemma {:induction false} NodeAhead(data: seq<Byte>, o: nat, n: Node, rest: seq<seq<Byte>>, end: nat) returns (o': nat)
    requires Writable(n) && Ahead(data, o, Tokens(n) + rest, end)
    ensures ReadNode(data, o) == Some(At(n, o')) && Ahead(data, o', rest, end)
    decreases n, 1
  {
    NodeShape(n, rest);
    var o1 := HeadAhead(data, o, KindName(n), Kind(n)[1..] + [Encode(")")] + rest, end);
    o' := KindAhead(data, o1, n, rest, end);
  }

  lemma EntryShape(e: Entry, rest: seq<seq<Byte>>)
    ensures EntryTokens(e) + rest
         == [Encode("entry")] + ([Encode("(")] + ([Encode("name")] + ([Encode(e.name)]
            + ([Encode("node")] + (Tokens(e.node) + ([Encode(")")] + rest))))))
  {
  }

  lemma NameAhead(data: seq<Byte>, o: nat, name: string, rest: seq<seq<Byte>>, end: nat) returns (o': nat)
    requires WritableText(name)
    requires Ahead(data, o, [Encode("(")] + ([Encode("name")] + ([Encode(name)] + ([Encode("node")] + rest))), end)
    ensures ReadEntryName(data, o) == Some(At(name, o')) && Ahead(data, o', rest, end)
  {
    var o1, o2 := NextTwo(data, o, "(", "name", [Encode(name)] + ([Encode("node")] + rest), end);
    var o3, o4 := NextTwo(data, o2, name, "node", rest, end);
    o' := o4;
  }

  lemma {:induction false} EntryAhead(data: seq<Byte>, o: nat, e: Entry, rest: seq<seq<Byte>>, end: nat)
    returns (o1: nat, o': nat)
    requires WritableText(e.name) && Writable(e.node) && Ahead(data, o, EntryTokens(e) + rest, end)
    ensures ReadText(data, o) == Some(At("entry", o1))
    ensures ReadEntry(data, o1) == Some(At(e, o')) && Ahead(data, o', rest, end)
    decreases e
  {
    var node := Tokens(e.node) + ([Encode(")")] + rest);
    EntryShape(e, rest);
    o1 := NextText(data, o, "entry",
                   [Encode("(")] + ([Encode("name")] + ([Encode(e.name)] + ([Encode("node")] + node))), end);
    var o2 := NameAhead(data, o1, e.name, node, end);
    var o3 := NodeAhead(data, o2, e.node, [Encode(")")] + rest, end);
    o' := NextText(data, o3, ")", rest, end);
  }

  lemma EntriesStep(data: seq<Byte>, o: nat, o1: nat, o2: nat, read: seq<Entry>, e: Entry)
    requires WritableEntries(read)
    requires ReadText(data, o) == Some(At("entry", o1)) && ReadEntry(data, o1) == Some(At(e, o2))
    ensures WritableEntries(read + [e]) && ReadEntries(data, o, read) == ReadEntries(data, o2, read + [e])
  {
    WritableSnoc(read, e);
  }

  lemma EntriesShape(es: seq<Entry>, rest: seq<seq<Byte>>)
    ensures EntriesTokens(es) + [Encode(")")] + rest
         == if |es| == 0 then [Encode(")")] + rest
            else EntryTokens(es[0]) + (EntriesTokens(es[1..]) + [Encode(")")] + rest)
  {
    if |es| == 0 {
      NothingBefore([Encode(")")]);
    } else {
      Associate(EntryTokens(es[0]), EntriesTokens(es[1..]), [Encode(")")]);
      Associate(EntryTokens(es[0]), EntriesTokens(es[1..]) + [Encode(")")], rest);
    }
  }

  lemma NothingBefore<T>(s: seq<T>)
    ensures [] + s == s
  {
  }

  lemma {:induction false} EntriesAhead(data: seq<Byte>, o: nat, read: seq<Entry>, es: seq<Entry>, rest: seq<seq<Byte>>, end: nat)
    returns (o': nat)
    requires WritableEntries(read) && WritableEntries(es)
    requires Ahead(data, o, EntriesTokens(es) + [Encode(")")] + rest, end)
    ensures ReadEntries(data, o, read) == Some(At(read + es, o')) && Ahead(data, o', rest, end)
    decreases es
  {
    EntriesShape(es, rest);
    Shift(read, es);
    if |es| == 0 {
      o' := NextText(data, o, ")", rest, end);
    } else {
      var o1, o2 := EntryAhead(data, o, es[0], EntriesTokens(es[1..]) + [Encode(")")] + rest, end);
      EntriesStep(data, o, o1, o2, read, es[0]);
      o' := EntriesAhead(data, o2, read + [es[0]], es[1..], rest, end);
    }
  }

  /** Reading back what was written gives the same tree. */
  lemma ParseWrite(n: Node)
    requires Writable(n)
    ensures ParseNar(NarBytes(n)) == Some(n)
  {
    var data := NarBytes(n);
    var end := |data|;
    assert Ahead(data, 0, [Encode(MAGIC)] + Tokens(n), end);
    var o := NextText(data, 0, MAGIC, Tokens(n), end);
    assert Tokens(n) + [] == Tokens(n);
    var o' := NodeAhead(data, o, n, [], end);
  }

  /** Whatever parses can be written, and then parses to the same tree. */
  lemma ParsedCanBeWritten(data: seq<Byte>)
    requires ParseNar(data).Some?
    ensures Writable(ParseNar(data).value) && ParseNar(NarBytes(ParseNar(data).value)) == ParseNar(data)
  {
    ParseWrite(ParseNar(data).value);
  }
}
