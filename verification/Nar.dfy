/** The Nix Archive: writing a tree and reading one back. */
module Nar {
  import opened Wrappers
  import opened Bytes

  datatype Entry = Entry(name: string, node: Node)

  datatype Node =
    | Directory(entries: seq<Entry>)
    | Regular(contents: seq<Byte>, executable: bool)
    | Symlink(target: string)

  const MAGIC: string := "nix-archive-1"

  // ---- writing ----

  predicate WritableText(s: string) {
    IsAscii(s) && |s| < U64
  }

  /** Every name and target is ASCII, and every length fits its field. */
  predicate Writable(n: Node) {
    match n
    case Directory(entries) => WritableEntries(entries)
    case Regular(contents, _) => |contents| < U64
    case Symlink(target) => WritableText(target)
  }

  predicate WritableEntries(es: seq<Entry>) {
    |es| == 0 || (WritableText(es[0].name) && Writable(es[0].node) && WritableEntries(es[1..]))
  }

  /** The fields of a node after its type keyword. */
  function Kind(n: Node): seq<seq<Byte>>
    decreases n, 0
  {
    match n
    case Directory(entries) => [Encode("directory")] + EntriesTokens(entries)
    case Regular(contents, executable) =>
      [Encode("regular")] + (if executable then [Encode("executable"), Encode("")] else []) + [Encode("contents"), contents]
    case Symlink(target) => [Encode("symlink"), Encode("target"), Encode(target)]
  }

  function Tokens(n: Node): seq<seq<Byte>>
    decreases n, 1
  {
    [Encode("("), Encode("type")] + Kind(n) + [Encode(")")]
  }

  function EntryTokens(e: Entry): seq<seq<Byte>> {
    [Encode("entry"), Encode("("), Encode("name"), Encode(e.name), Encode("node")] + Tokens(e.node) + [Encode(")")]
  }

  function EntriesTokens(es: seq<Entry>): seq<seq<Byte>> {
    if |es| == 0 then [] else EntryTokens(es[0]) + EntriesTokens(es[1..])
  }

  /** The fields of a file, one after the other; the executable mark is a keyword
      and an empty field. */
  lemma RegularFormat(contents: seq<Byte>, executable: bool)
    ensures Tokens(Regular(contents, executable))
            == [Encode("("), Encode("type"), Encode("regular")]
               + (if executable then [Encode("executable"), []] else [])
               + [Encode("contents"), contents, Encode(")")]
  {
    assert Encode("") == [];
  }

  /** `write_nar`, of a tree it can write. */
  function NarBytes(n: Node): seq<Byte> {
    Fields([Encode(MAGIC)] + Tokens(n))
  }

  /** An output buffer; `fields` are the bodies of the fields written to it. */
  class ByteBuffer {
    var data: seq<Byte>
    ghost var fields: seq<seq<Byte>>

    ghost predicate Valid()
      reads this
    {
      data == Fields(fields)
    }

    constructor ()
      ensures Valid() && fields == []
    {
      data, fields := [], [];
    }

    method WriteBytes(body: seq<Byte>) returns (ok: bool)
      requires Valid()
      modifies this
      ensures ok == (|body| < U64)
      ensures ok ==> Valid() && fields == old(fields) + [body]
    {
      if |body| >= U64 { return false; }
      ghost var before := data;
      data := data + PackU64(|body|);
      data := data + body;
      data := data + Zeros(Pad(|body|));
      assert data == before + Field(body);
      OneMoreField(fields, body);
      fields := fields + [body];
      return true;
    }

    method WriteText(s: string) returns (ok: bool)
      requires Valid()
      modifies this
      ensures ok == WritableText(s)
      ensures ok ==> Valid() && fields == old(fields) + [Encode(s)]
    {
      if !IsAscii(s) { return false; }
      ok := WriteBytes(Encode(s));
    }

    method WriteKeyword(s: string)
      requires Valid() && WritableText(s)
      modifies this
      ensures Valid() && fields == old(fields) + [Encode(s)]
    {
      var _ := WriteText(s);
    }
  }

  lemma OneMoreField(bodies: seq<seq<Byte>>, body: seq<Byte>)
    ensures Fields(bodies + [body]) == Fields(bodies) + Field(body)
  {
    FieldsConcat(bodies, [body]);
    assert [body][1..] == [];
    assert Fields([body]) == Field(body);
  }

  method WriteEntry(buf: ByteBuffer, e: Entry) returns (ok: bool)
    requires buf.Valid()
    modifies buf
    ensures ok == (WritableText(e.name) && Writable(e.node))
    ensures ok ==> buf.Valid() && buf.fields == old(buf.fields) + EntryTokens(e)
    decreases e
  {
    buf.WriteKeyword("entry");
    buf.WriteKeyword("(");
    buf.WriteKeyword("name");
    ok := buf.WriteText(e.name);
    if !ok { return; }
    buf.WriteKeyword("node");
    ok := WriteNode(buf, e.node);
    if !ok { return; }
    buf.WriteKeyword(")");
    RegroupEntry(old(buf.fields), Encode("entry"), Encode("("), Encode("name"), Encode(e.name), Encode("node"),
            Tokens(e.node), Encode(")"));
  }

  lemma RegroupEntry<T>(s: seq<T>, a: T, b: T, c: T, d: T, e: T, t: seq<T>, f: T)
    ensures s + [a] + [b] + [c] + [d] + [e] + t + [f] == s + ([a, b, c, d, e] + t + [f])
  {
  }

  method WriteEntries(buf: ByteBuffer, es: seq<Entry>) returns (ok: bool)
    requires buf.Valid()
    modifies buf
    ensures ok == WritableEntries(es)
    ensures ok ==> buf.Valid() && buf.fields == old(buf.fields) + EntriesTokens(es)
    decreases es
  {
    assert es[0..] == es;
    for i := 0 to |es|
      invariant buf.Valid()
      invariant WritableEntries(es) == WritableEntries(es[i..])
      invariant buf.fields + EntriesTokens(es[i..]) == old(buf.fields) + EntriesTokens(es)
    {
      assert es[i..][0] == es[i] && es[i..][1..] == es[i + 1..];
      ok := WriteEntry(buf, es[i]);
      if !ok { return false; }
    }
    return true;
  }

  method WriteRegular(buf: ByteBuffer, contents: seq<Byte>, executable: bool) returns (ok: bool)
    requires buf.Valid()
    modifies buf
    ensures ok == (|contents| < U64)
    ensures ok ==> buf.Valid() && buf.fields == old(buf.fields) + Kind(Regular(contents, executable))
  {
    buf.WriteKeyword("regular");
    if executable {
      buf.WriteKeyword("executable");
      buf.WriteKeyword("");
    }
    buf.WriteKeyword("contents");
    ok := buf.WriteBytes(contents);
  }

  /** What `_write_node` writes after the type keyword. */
  method WriteKind(buf: ByteBuffer, n: Node) returns (ok: bool)
    requires buf.Valid()
    modifies buf
    ensures ok == Writable(n)
    ensures ok ==> buf.Valid() && buf.fields == old(buf.fields) + Kind(n)
    decreases n, 0
  {
    match n {
      case Directory(entries) =>
        buf.WriteKeyword("directory");
        ok := WriteEntries(buf, entries);
      case Regular(contents, executable) =>
        ok := WriteRegular(buf, contents, executable);
      case Symlink(target) =>
        buf.WriteKeyword("symlink");
        buf.WriteKeyword("target");
        ok := buf.WriteText(target);
    }
  }

  method WriteNode(buf: ByteBuffer, n: Node) returns (ok: bool)
    requires buf.Valid()
    modifies buf
    ensures ok == Writable(n)
    ensures ok ==> buf.Valid() && buf.fields == old(buf.fields) + Tokens(n)
    decreases n, 1
  {
    buf.WriteKeyword("(");
    buf.WriteKeyword("type");
    ok := WriteKind(buf, n);
    if !ok { return; }
    buf.WriteKeyword(")");
  }

  /** `write_nar` refuses exactly the trees that are not writable. */
  method WriteNar(n: Node) returns (r: Option<seq<Byte>>)
    ensures r == if Writable(n) then Some(NarBytes(n)) else None
  {
    var buf := new ByteBuffer();
    buf.WriteKeyword(MAGIC);
    var ok := WriteNode(buf, n);
    return if ok then Some(buf.data) else None;
  }
}
