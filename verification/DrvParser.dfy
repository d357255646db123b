/** The parser of the source: a position that moves through a text. Each method
    reads what the function of the same construct reads. */
module DrvParser {
  import opened Wrappers
  import opened Sequences
  import opened Ordering
  import opened DrvText
  import opened Drv

  /** A method answered what the function says, and stands behind it. After an
      error the position does not matter. */
  ghost predicate Follows<T(!new)>(said: Option<Parsed<T>>, r: Option<T>, rest: string) {
    match said
    case None => r.None?
    case Some(p) => r == Some(p.value) && rest == p.rest
  }

  /** Plain characters are taken as they are. */
  lemma {:induction false} PlainRun(s: string, k: nat, read: string)
    requires k <= |s| && forall i :: 0 <= i < k ==> s[i] != '\"' && s[i] != '\\'
    ensures ReadBody(s, read) == ReadBody(s[k..], read + s[..k])
    decreases k
  {
    if k == 0 {
      assert s[0..] == s && read + s[..0] == read;
    } else {
      PlainRun(s[1..], k - 1, read + [s[0]]);
      assert s[1..][k - 1..] == s[k..] && read + [s[0]] + s[1..][..k - 1] == read + s[..k];
    }
  }

  lemma {:induction false} NoEnd(s: string, read: string)
    requires forall i :: 0 <= i < |s| ==> s[i] != '\"' && s[i] != '\\'
    ensures ReadBody(s, read).None?
    decreases |s|
  {
    if |s| > 0 { NoEnd(s[1..], read + [s[0]]); }
  }

  lemma ChunkReads(text: string, pos: nat, at: nat, read: string)
    requires pos <= at <= |text|
    requires forall i :: pos <= i < at ==> text[i] != '\"' && text[i] != '\\'
    ensures at == |text| ==> ReadBody(text[pos..], read).None?
    ensures at < |text| ==> ReadBody(text[pos..], read) == ReadBody([text[at]] + text[at + 1..], read + text[pos..at])
  {
    var s := text[pos..];
    assert forall i :: 0 <= i < at - pos ==> s[i] == text[pos + i];
    if at == |text| {
      NoEnd(s, read);
    } else {
      PlainRun(s, at - pos, read);
      Within(text, pos, at - pos);
      assert text[at..] == [text[at]] + text[at + 1..];
    }
  }

  lemma OneMoreRow(rows: seq<InputRow>, x: InputRow)
    ensures var all := rows + [x];
            && SimpleOf(all) == (if x.node.Flat? then SimpleOf(rows)[x.path := x.node.outputs] else SimpleOf(rows))
            && DynamicOf(all) == (if x.node.Deep? then DynamicOf(rows)[x.path := x.node.node] else DynamicOf(rows))
            && (if x.node.Flat? then SimpleOf(all) != map[] else DynamicOf(all) != map[])
  {
    assert (rows + [x])[..|rows|] == rows;
    assert x.node.Flat? ==> x.path in SimpleOf(rows + [x]);
    assert x.node.Deep? ==> x.path in DynamicOf(rows + [x]);
  }

  lemma OneMoreVariable(rows: seq<EnvRow>, x: EnvRow)
    ensures EnvOf(rows + [x]) == EnvOf(rows)[x.key := x.value] && EnvOf(rows + [x]) != map[]
  {
    assert (rows + [x])[..|rows|] == rows;
    assert x.key in EnvOf(rows + [x]);
  }

  class Parser {
    const text: string
    var pos: nat

    ghost predicate Valid()
      reads this
    {
      pos <= |text|
    }

    ghost function Rest(): string
      requires Valid()
      reads this
    {
      text[pos..]
    }

    constructor (text: string)
      ensures Valid() && Rest() == text
    {
      this.text, pos := text, 0;
    }

    method Advance() returns (c: Option<char>)
      requires Valid()
      modifies this`pos
      ensures Valid()
      ensures c.Some? <==> |old(Rest())| > 0
      ensures c.Some? ==> c.value == old(Rest())[0] && Rest() == old(Rest())[1..]
    {
      if pos >= |text| { return None; }
      c := Some(text[pos]);
      pos := pos + 1;
    }

    method ExpectWord(s: string) returns (ok: bool)
      requires Valid()
      modifies this`pos
      ensures Valid()
      ensures ok <==> Expect(old(Rest()), s).Some?
      ensures ok ==> Rest() == Expect(old(Rest()), s).value
    {
      ghost var was := Rest();
      for i := 0 to |s|
        invariant Valid() && i <= |was| && Rest() == was[i..] && was[..i] == s[..i]
      {
        var got := Advance();
        if got.None? || got.value != s[i] {
          assert |s| <= |was| ==> was[..|s|][i] == was[i];
          return false;
        }
        assert was[i..][1..] == was[i + 1..];
      }
      assert s[..|s|] == s;
      return true;
    }

    method SkipWs()
      requires Valid()
      modifies this`pos
      ensures Valid() && Rest() == SkipSpace(old(Rest()))
    {
      while pos < |text| && IsSpace(text[pos])
        invariant Valid() && SkipSpace(Rest()) == SkipSpace(old(Rest()))
      {
        assert Rest()[1..] == text[pos + 1..];
        pos := pos + 1;
      }
    }

    method ReadComma() returns (ok: bool)
      requires Valid()
      modifies this`pos
      ensures Valid() && (ok <==> Comma(old(Rest())).Some?)
      ensures ok ==> Rest() == Comma(old(Rest())).value
    {
      ok := ExpectWord(",");
      if ok { SkipWs(); }
    }

    /** The search for the next quote or backslash. */
    method FindSpecial() returns (at: nat)
      requires Valid()
      ensures pos <= at <= |text|
      ensures forall i :: pos <= i < at ==> text[i] != '\"' && text[i] != '\\'
      ensures at < |text| ==> text[at] == '\"' || text[at] == '\\'
    {
      at := pos;
      while at < |text| && text[at] != '\"' && text[at] != '\\'
        invariant pos <= at <= |text|
        invariant forall i :: pos <= i < at ==> text[i] != '\"' && text[i] != '\\'
      {
        at := at + 1;
      }
    }

    /** Take a run of plain characters and the quote or backslash behind it. */
    method TakeChunk(parts: string) returns (r: Option<(string, char)>)
      requires Valid()
      modifies this`pos
      ensures Valid()
      ensures r.None? ==> ReadBody(old(Rest()), parts).None?
      ensures r.Some? ==> r.value.1 in {'\"', '\\'} && |Rest()| < |old(Rest())|
      ensures r.Some? ==> ReadBody(old(Rest()), parts) == ReadBody([r.value.1] + Rest(), r.value.0)
    {
      var at := FindSpecial();
      ChunkReads(text, pos, at, parts);
      if at == |text| { return None; }
      var content := text[pos..at];
      pos := at + 1;
      return Some((parts + content, text[at]));
    }

    method ParseString() returns (r: Option<string>)
      requires Valid()
      modifies this`pos
      ensures Valid() && Follows(ReadString(old(Rest())), r, Rest())
    {
      var ok := ExpectWord("\"");
      if !ok { return None; }
      ghost var body := Rest();
      var parts := "";
      while true
        invariant Valid() && ReadBody(body, "") == ReadBody(Rest(), parts)
        decreases |Rest()|
      {
        var chunk := TakeChunk(parts);
        if chunk.None? { return None; }
        parts := chunk.value.0;
        ghost var after := [chunk.value.1] + Rest();
        assert after[1..] == Rest();
        if chunk.value.1 == '\"' { return Some(parts); }
        var esc := Advance();
        if esc.None? { return None; }
        assert after[2..] == Rest() && after[1] == esc.value;
        parts := parts + Unescape(esc.value);
      }
    }

    /** The head of every list loop: stop at the bracket, or take the comma. */
    method AnotherItem(any: bool) returns (r: Option<bool>)
      requires Valid()
      modifies this`pos
      ensures Valid() && Follows(NextItem(old(Rest()), any), r, Rest())
    {
      if pos >= |text| { return None; }
      if text[pos] == ']' {
        pos := pos + 1;
        return Some(false);
      }
      if any {
        var ok := ReadComma();
        return if ok then Some(true) else None;
      }
      SkipWs();
      return Some(true);
    }

    method ParseStringList() returns (r: Option<seq<string>>)
      requires Valid()
      modifies this`pos
      ensures Valid() && Follows(ReadStrings(old(Rest())), r, Rest())
    {
      var ok := ExpectWord("[");
      if !ok { return None; }
      SkipWs();
      ghost var start := Rest();
      var result := [];
      while true
        invariant Valid() && Items(ReadString, start, []) == Items(ReadString, Rest(), result)
        decreases |Rest()|
      {
        var more := AnotherItem(|result| > 0);
        if more.None? { return None; }
        if !more.value { return Some(result); }
        var x := ParseString();
        if x.None? { return None; }
        result := result + [x.value];
        SkipWs();
      }
    }

    method ParsePath() returns (r: Option<string>)
      requires Valid()
      modifies this`pos
      ensures Valid() && Follows(ReadPathString(old(Rest())), r, Rest())
    {
      var s := ParseString();
      if s.None? { return None; }
      r := ReadPath(s.value);
    }

    method ParsePathList() returns (r: Option<seq<string>>)
      requires Valid()
      modifies this`pos
      ensures Valid() && Follows(ReadList(ReadPathString, old(Rest())), r, Rest())
    {
      var ok := ExpectWord("[");
      if !ok { return None; }
      SkipWs();
      ghost var start := Rest();
      var result := [];
      while true
        invariant Valid() && Items(ReadPathString, start, []) == Items(ReadPathString, Rest(), result)
        decreases |Rest()|
      {
        var more := AnotherItem(|result| > 0);
        if more.None? { return None; }
        if !more.value { return Some(result); }
        var x := ParsePath();
        if x.None? { return None; }
        result := result + [x.value];
        SkipWs();
      }
    }

    method ParseOutput() returns (r: Option<Output>)
      requires Valid()
      modifies this`pos
      ensures Valid() && Follows(ReadOutput(old(Rest())), r, Rest())
    {
      var ok := ExpectWord("(");
      if !ok { return None; }
      var name := ParseString();
      if name.None? { return None; }
      ok := ExpectWord(",");
      if !ok { return None; }
      var path := ParseString();
      if path.None? { return None; }
      ok := ExpectWord(",");
      if !ok { return None; }
      var algo := ParseString();
      if algo.None? { return None; }
      ok := ExpectWord(",");
      if !ok { return None; }
      var hash := ParseString();
      if hash.None? { return None; }
      ok := ExpectWord(")");
      if !ok { return None; }
      return Some(Output(name.value, path.value, algo.value, hash.value));
    }

    method ParseOutputs() returns (r: Option<seq<Output>>)
      requires Valid()
      modifies this`pos
      ensures Valid() && Follows(ReadList(ReadOutput, old(Rest())), r, Rest())
    {
      var ok := ExpectWord("[");
      if !ok { return None; }
      SkipWs();
      ghost var start := Rest();
      var result := [];
      while true
        invariant Valid() && Items(ReadOutput, start, []) == Items(ReadOutput, Rest(), result)
        decreases |Rest()|
      {
        var more := AnotherItem(|result| > 0);
        if more.None? { return None; }
        if !more.value { return Some(result); }
        var x := ParseOutput();
        if x.None? { return None; }
        result := result + [x.value];
        SkipWs();
      }
    }

    method ParseChildValue() returns (r: Option<Node>)
      requires Valid()
      modifies this`pos
      ensures Valid() && Follows(ReadChildValue(old(Rest())), r, Rest())
      decreases |Rest()|, 2
    {
      if pos >= |text| { return None; }
      if text[pos] == '[' {
        var outputs := ParseStringList();
        return if outputs.None? then None else Some(Node(outputs.value, map[]));
      }
      if text[pos] == '(' {
        r := ParseChildMapNode();
        return;
      }
      return None;
    }

    method ParseChildMapNode() returns (r: Option<Node>)
      requires Valid() && |Rest()| > 0
      modifies this`pos
      ensures Valid() && Follows(ReadNode(old(Rest())), r, Rest())
      decreases |Rest()|, 1
    {
      var _ := Advance();
      SkipWs();
      var outputs := ParseStringList();
      if outputs.None? { return None; }
      var ok := ExpectWord(",");
      if !ok { return None; }
      ok := ExpectWord("[");
      if !ok { return None; }
      SkipWs();
      var children := ParseChildren();
      if children.None? { return None; }
      ok := ExpectWord(")");
      if !ok { return None; }
      return Some(Node(outputs.value, children.value));
    }

    method ParseChild() returns (r: Option<(string, Node)>)
      requires Valid()
      modifies this`pos
      ensures Valid() && Follows(ReadChild(old(Rest())), r, Rest())
      decreases |Rest()|, 3
    {
      var ok := ExpectWord("(");
      if !ok { return None; }
      var name := ParseString();
      if name.None? { return None; }
      ok := ExpectWord(",");
      if !ok { return None; }
      var child := ParseChildValue();
      if child.None? { return None; }
      ok := ExpectWord(")");
      if !ok { return None; }
      return Some((name.value, child.value));
    }

    method ParseChildren() returns (r: Option<map<string, Node>>)
      requires Valid()
      modifies this`pos
      ensures Valid() && Follows(ReadChildren(old(Rest()), map[]), r, Rest())
      decreases |Rest()|, 4
    {
      ghost var start := Rest();
      var children: map<string, Node> := map[];
      while true
        invariant Valid() && ReadChildren(start, map[]) == ReadChildren(Rest(), children)
        invariant |Rest()| <= |start|
        decreases |Rest()|
      {
        var more := AnotherItem(children != map[]);
        if more.None? { return None; }
        if !more.value { return Some(children); }
        var child := ParseChild();
        if child.None? { return None; }
        children := children[child.value.0 := child.value.1];
        SkipWs();
      }
    }

    method ParseSimpleInput() returns (r: Option<InputRow>)
      requires Valid()
      modifies this`pos
      ensures Valid() && Follows(ReadSimpleInput(old(Rest())), r, Rest())
    {
      var ok := ExpectWord("(");
      if !ok { return None; }
      var path := ParsePath();
      if path.None? { return None; }
      ok := ExpectWord(",");
      if !ok { return None; }
      var outputs := ParseStringList();
      if outputs.None? { return None; }
      ok := ExpectWord(")");
      if !ok { return None; }
      return Some(InputRow(path.value, Flat(outputs.value)));
    }

    /** The traditional format: a dictionary filled in a loop. */
    method ParseInputDrvsSimple() returns (r: Option<map<string, seq<string>>>, ghost rows: seq<InputRow>)
      requires Valid()
      modifies this`pos
      ensures Valid()
      ensures var said := ReadList(ReadSimpleInput, old(Rest()));
              && (r.Some? <==> said.Some?)
              && (r.Some? ==> rows == said.value.value && Rest() == said.value.rest
                              && r.value == SimpleOf(rows) && DynamicOf(rows) == map[])
    {
      rows := [];
      var ok := ExpectWord("[");
      if !ok { return None, rows; }
      SkipWs();
      ghost var start := Rest();
      var result: map<string, seq<string>> := map[];
      while true
        invariant Valid() && Items(ReadSimpleInput, start, []) == Items(ReadSimpleInput, Rest(), rows)
        invariant result == SimpleOf(rows) && DynamicOf(rows) == map[] && (result == map[] <==> rows == [])
        decreases |Rest()|
      {
        var more := AnotherItem(result != map[]);
        if more.None? { return None, rows; }
        if !more.value { return Some(result), rows; }
        var x := ParseSimpleInput();
        if x.None? { return None, rows; }
        OneMoreRow(rows, x.value);
        result := result[x.value.path := x.value.node.outputs];
        rows := rows + [x.value];
        SkipWs();
      }
    }

    method ParseDynamicInput() returns (r: Option<InputRow>)
      requires Valid()
      modifies this`pos
      ensures Valid() && Follows(ReadDynamicInput(old(Rest())), r, Rest())
    {
      var ok := ExpectWord("(");
      if !ok { return None; }
      var path := ParsePath();
      if path.None? { return None; }
      ok := ReadComma();
      if !ok { return None; }
      if pos >= |text| { return None; }
      var node: InputNode;
      if text[pos] == '[' {
        var outputs := ParseStringList();
        if outputs.None? { return None; }
        node := Flat(outputs.value);
      } else if text[pos] == '(' {
        var deep := ParseChildMapNode();
        if deep.None? { return None; }
        node := Deep(deep.value);
      } else {
        return None;
      }
      ok := ExpectWord(")");
      if !ok { return None; }
      return Some(InputRow(path.value, node));
    }

    /** The dynamic format: two dictionaries filled in one loop. */
    method ParseInputDrvsDynamic()
      returns (r: Option<(map<string, seq<string>>, map<string, Node>)>, ghost rows: seq<InputRow>)
      requires Valid()
      modifies this`pos
      ensures Valid()
      ensures var said := ReadList(ReadDynamicInput, old(Rest()));
              && (r.Some? <==> said.Some?)
              && (r.Some? ==> rows == said.value.value && Rest() == said.value.rest
                              && r.value == (SimpleOf(rows), DynamicOf(rows)))
    {
      rows := [];
      var ok := ExpectWord("[");
      if !ok { return None, rows; }
      SkipWs();
      ghost var start := Rest();
      var simple: map<string, seq<string>>, dynamic: map<string, Node> := map[], map[];
      while true
        invariant Valid() && Items(ReadDynamicInput, start, []) == Items(ReadDynamicInput, Rest(), rows)
        invariant simple == SimpleOf(rows) && dynamic == DynamicOf(rows)
        invariant simple == map[] && dynamic == map[] <==> rows == []
        decreases |Rest()|
      {
        var more := AnotherItem(simple != map[] || dynamic != map[]);
        if more.None? { return None, rows; }
        if !more.value { return Some((simple, dynamic)), rows; }
        var x := ParseDynamicInput();
        if x.None? { return None, rows; }
        OneMoreRow(rows, x.value);
        match x.value.node {
          case Flat(outputs) => simple := simple[x.value.path := outputs];
          case Deep(node) => dynamic := dynamic[x.value.path := node];
        }
        rows := rows + [x.value];
        SkipWs();
      }
    }

    method ParseEnvRow() returns (r: Option<EnvRow>)
      requires Valid()
      modifies this`pos
      ensures Valid() && Follows(ReadEnvRow(old(Rest())), r, Rest())
    {
      var ok := ExpectWord("(");
      if !ok { return None; }
      var key := ParseString();
      if key.None? { return None; }
      ok := ExpectWord(",");
      if !ok { return None; }
      var value := ParseString();
      if value.None? { return None; }
      ok := ExpectWord(")");
      if !ok { return None; }
      return Some(EnvRow(key.value, value.value));
    }

    method ParseEnv() returns (r: Option<map<string, string>>)
      requires Valid()
      modifies this`pos
      ensures Valid()
      ensures var said := ReadList(ReadEnvRow, old(Rest()));
              && (r.Some? <==> said.Some?)
              && (r.Some? ==> Rest() == said.value.rest && r.value == EnvOf(said.value.value))
    {
      var ok := ExpectWord("[");
      if !ok { return None; }
      SkipWs();
      ghost var start := Rest();
      var result: map<string, string> := map[];
      ghost var rows: seq<EnvRow> := [];
      while true
        invariant Valid() && Items(ReadEnvRow, start, []) == Items(ReadEnvRow, Rest(), rows)
        invariant result == EnvOf(rows) && (result == map[] <==> rows == [])
        decreases |Rest()|
      {
        var more := AnotherItem(result != map[]);
        if more.None? { return None; }
        if !more.value { return Some(result); }
        var x := ParseEnvRow();
        if x.None? { return None; }
        OneMoreVariable(rows, x.value);
        result := result[x.value.key := x.value.value];
        rows := rows + [x.value];
        SkipWs();
      }
    }

    method ParseProgram() returns (r: Option<Program>)
      requires Valid()
      modifies this`pos
      ensures Valid() && Follows(ReadProgram(old(Rest())), r, Rest())
    {
      var platform := ParseString();
      if platform.None? { return None; }
      var ok := ReadComma();
      if !ok { return None; }
      var builder := ParseString();
      if builder.None? { return None; }
      ok := ReadComma();
      if !ok { return None; }
      var args := ParseStringList();
      if args.None? { return None; }
      ok := ReadComma();
      if !ok { return None; }
      var env := ParseEnv();
      if env.None? { return None; }
      SkipWs();
      ok := ExpectWord(")");
      if !ok { return None; }
      return Some(Program(platform.value, builder.value, args.value, env.value));
    }

    method ParseInputs(dynamic: bool) returns (r: Option<(map<string, seq<string>>, map<string, Node>)>)
      requires Valid()
      modifies this`pos
      ensures Valid()
      ensures var said := ReadInputs(old(Rest()), dynamic);
              && (r.Some? <==> said.Some?)
              && (r.Some? ==> Rest() == said.value.rest && r.value == (SimpleOf(said.value.value), DynamicOf(said.value.value)))
    {
      ghost var rows;
      if dynamic {
        r, rows := ParseInputDrvsDynamic();
      } else {
        var simple;
        simple, rows := ParseInputDrvsSimple();
        r := if simple.None? then None else Some((simple.value, map[]));
      }
    }

    /** The fields both formats share. */
    method ParseFields(dynamic: bool) returns (r: Option<Derivation>)
      requires Valid()
      modifies this`pos
      ensures Valid() && Follows(ReadFields(old(Rest()), dynamic), r, Rest())
    {
      var outputs := ParseOutputs();
      if outputs.None? { return None; }
      var ok := ReadComma();
      if !ok { return None; }
      var inputs := ParseInputs(dynamic);
      if inputs.None? { return None; }
      ok := ReadComma();
      if !ok { return None; }
      var srcs := ParsePathList();
      if srcs.None? { return None; }
      ok := ReadComma();
      if !ok { return None; }
      var p := ParseProgram();
      if p.None? { return None; }
      return Some(Derivation(outputs.value, inputs.value.0, Elements(srcs.value), p.value.platform, p.value.builder,
                             p.value.args, p.value.env, dynamic, inputs.value.1));
    }

    method ParseTerm() returns (r: Option<Derivation>)
      requires Valid()
      modifies this`pos
      ensures Valid() && Follows(ParseDerivation(old(Rest())), r, Rest())
    {
      SkipWs();
      if StartsWith(text[pos..], "DrvWithVersion(") {
        var ok := ExpectWord("DrvWithVersion(");
        if !ok { return None; }
        SkipWs();
        var version := ParseString();
        if version.None? || version.value != VERSION { return None; }
        ok := ReadComma();
        if !ok { return None; }
        r := ParseFields(true);
      } else {
        var ok := ExpectWord("Derive(");
        if !ok { return None; }
        SkipWs();
        r := ParseFields(false);
      }
    }
  }

  /** `parse_drv`. */
  method ParseDrv(content: string) returns (r: Option<Derivation>)
    ensures r == if ParseDerivation(content).None? then None else Some(ParseDerivation(content).value.value)
  {
    var parser := new Parser(content);
    r := parser.ParseTerm();
  }
}
