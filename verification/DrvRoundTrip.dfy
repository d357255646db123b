/** Printing a derivation and parsing the text gives the derivation back. */
module DrvRoundTrip {
  import opened Wrappers
  import opened Sequences
  import opened Ordering
  import opened DrvText
  import opened Drv

  // ---- lists ----

  /** Text that is not space and does not close a list. */
  predicate Solid(s: string) {
    |s| > 0 && !IsSpace(s[0]) && s[0] != ']'
  }

  ghost predicate ReadsBack<T(!new)>(item: string -> Option<Parsed<T>>, show: (T, string) -> string, v: T) {
    forall rest :: item(show(v, rest)) == Some(Parsed(v, rest)) && Solid(show(v, rest))
  }

  lemma LeadSolid(c: char, s: string)
    requires !IsSpace(c)
    ensures [c] + s != "" && SkipSpace([c] + s) == [c] + s && ([c] + s)[0] == c && ([c] + s)[1..] == s
  {
  }

  lemma {:induction false} ItemsRead<T(!new)>(item: string -> Option<Parsed<T>>, show: (T, string) -> string, vs: seq<T>,
                                              read: seq<T>, rest: string)
    requires Consumes(item) && forall v :: v in vs ==> ReadsBack(item, show, v)
    ensures Items(item, if |read| == 0 then Joined(show, vs, "]" + rest) else Tail(show, vs, "]" + rest), read)
         == Some(Parsed(read + vs, rest))
    decreases |vs|
  {
    var close := "]" + rest;
    LeadSolid(']', rest);
    if |vs| == 0 {
      assert read + vs == read;
    } else {
      var more := Tail(show, vs[1..], close);
      var text := show(vs[0], more);
      assert ReadsBack(item, show, vs[0]);
      assert item(text) == Some(Parsed(vs[0], more)) && Solid(text) && SkipSpace(text) == text;
      LeadSolid(',', text);
      ExpectLead(",", text);
      TailStarts(show, vs[1..], rest);
      ItemsRead(item, show, vs[1..], read + [vs[0]], rest);
      Shift(read, vs);
    }
  }

  lemma TailStarts<T>(show: (T, string) -> string, vs: seq<T>, rest: string)
    ensures SkipSpace(Tail(show, vs, "]" + rest)) == Tail(show, vs, "]" + rest)
  {
    if |vs| == 0 {
      LeadSolid(']', rest);
    } else {
      LeadSolid(',', show(vs[0], Tail(show, vs[1..], "]" + rest)));
    }
  }

  lemma ListReads<T(!new)>(item: string -> Option<Parsed<T>>, show: (T, string) -> string, vs: seq<T>, rest: string)
    requires Consumes(item) && forall v :: v in vs ==> ReadsBack(item, show, v)
    ensures ReadList(item, Listed(show, vs, rest)) == Some(Parsed(vs, rest))
    ensures Solid(Listed(show, vs, rest))
  {
    var inner := Joined(show, vs, "]" + rest);
    LeadSolid('[', inner);
    ExpectLead("[", inner);
    assert SkipSpace(inner) == inner by {
      if |vs| == 0 {
        LeadSolid(']', rest);
      } else {
        assert ReadsBack(item, show, vs[0]);
        assert Solid(inner);
      }
    }
    ItemsRead(item, show, vs, [], rest);
    assert [] + vs == vs;
  }

  // ---- the rows ----

  lemma QuotedSolid(s: string, rest: string)
    ensures Solid(Quoted(s, rest)) && SkipSpace(Quoted(s, rest)) == Quoted(s, rest)
  {
    LeadSolid('\"', s + ("\"" + rest));
  }

  lemma PlainReadsBack(s: string)
    requires PlainField(s)
    ensures ReadsBack(ReadString, PrintPlain, s)
  {
    forall rest
      ensures ReadString(PrintPlain(s, rest)) == Some(Parsed(s, rest)) && Solid(PrintPlain(s, rest))
    {
      ReadPlain(s, rest);
      QuotedSolid(s, rest);
    }
  }

  lemma EscapedReadsBack(s: string)
    ensures ReadsBack(ReadString, PrintEscaped, s)
  {
    forall rest
      ensures ReadString(PrintEscaped(s, rest)) == Some(Parsed(s, rest)) && Solid(PrintEscaped(s, rest))
    {
      ReadEscaped(s, rest);
      QuotedSolid(Escape(s), rest);
    }
  }

  lemma PathStringReadsBack(base: string)
    requires PlainField(PathText(base))
    ensures ReadsBack(ReadPathString, PrintPath, base)
  {
    forall rest
      ensures ReadPathString(PrintPath(base, rest)) == Some(Parsed(base, rest)) && Solid(PrintPath(base, rest))
    {
      ReadPlain(PathText(base), rest);
      PathReadsBack(base);
      QuotedSolid(PathText(base), rest);
    }
  }

  predicate PlainOutput(o: Output) {
    PlainField(o.name) && PlainField(o.path) && PlainField(o.hashAlgo) && PlainField(o.hashValue)
  }

  lemma OutputReads(o: Output, rest: string)
    requires PlainOutput(o)
    ensures ReadOutput(PrintOutput(o, rest)) == Some(Parsed(o, rest)) && Solid(PrintOutput(o, rest))
  {
    var t4 := ")" + rest;
    var t3 := "," + Quoted(o.hashValue, t4);
    var t2 := "," + Quoted(o.hashAlgo, t3);
    var t1 := "," + Quoted(o.path, t2);
    LeadSolid('(', Quoted(o.name, t1));
    ExpectLead("(", Quoted(o.name, t1));
    ReadPlain(o.name, t1);
    ExpectLead(",", Quoted(o.path, t2));
    ReadPlain(o.path, t2);
    ExpectLead(",", Quoted(o.hashAlgo, t3));
    ReadPlain(o.hashAlgo, t3);
    ExpectLead(",", Quoted(o.hashValue, t4));
    ReadPlain(o.hashValue, t4);
    ExpectLead(")", rest);
  }

  lemma OutputReadsBack(o: Output)
    requires PlainOutput(o)
    ensures ReadsBack(ReadOutput, PrintOutput, o)
  {
    forall rest
      ensures ReadOutput(PrintOutput(o, rest)) == Some(Parsed(o, rest)) && Solid(PrintOutput(o, rest))
    { OutputReads(o, rest); }
  }

  lemma EnvRowReads(e: EnvRow, rest: string)
    ensures ReadEnvRow(PrintEnvRow(e, rest)) == Some(Parsed(e, rest)) && Solid(PrintEnvRow(e, rest))
  {
    var t2 := ")" + rest;
    var t1 := "," + Quoted(Escape(e.value), t2);
    LeadSolid('(', Quoted(Escape(e.key), t1));
    ExpectLead("(", Quoted(Escape(e.key), t1));
    ReadEscaped(e.key, t1);
    ExpectLead(",", Quoted(Escape(e.value), t2));
    ReadEscaped(e.value, t2);
    ExpectLead(")", rest);
  }

  lemma EnvRowReadsBack(e: EnvRow)
    ensures ReadsBack(ReadEnvRow, PrintEnvRow, e)
  {
    forall rest
      ensures ReadEnvRow(PrintEnvRow(e, rest)) == Some(Parsed(e, rest)) && Solid(PrintEnvRow(e, rest))
    { EnvRowReads(e, rest); }
  }

  ghost predicate AllPlain(ss: seq<string>) {
    forall s :: s in ss ==> PlainField(s)
  }

  lemma PlainStringsRead(ss: seq<string>, rest: string)
    requires AllPlain(ss)
    ensures ReadStrings(Listed(PrintPlain, ss, rest)) == Some(Parsed(ss, rest)) && Solid(Listed(PrintPlain, ss, rest))
  {
    forall s | s in ss
      ensures ReadsBack(ReadString, PrintPlain, s)
    { PlainReadsBack(s); }
    ListReads(ReadString, PrintPlain, ss, rest);
  }

  // ---- nodes ----

  ghost predicate PlainNode(n: Node) {
    AllPlain(n.outputs) && forall name :: name in n.children ==> PlainField(name) && PlainNode(n.children[name])
  }

  function Filled(n: Node, names: seq<string>, read: map<string, Node>): map<string, Node>
    requires forall name :: name in names ==> name in n.children
  {
    if |names| == 0 then read else Filled(n, names[1..], read[names[0] := n.children[names[0]]])
  }

  lemma {:induction false} FilledIs(n: Node, names: seq<string>, read: map<string, Node>)
    requires forall name :: name in names ==> name in n.children
    requires forall name :: name in read ==> name in n.children && read[name] == n.children[name]
    ensures Filled(n, names, read).Keys == read.Keys + Elements(names)
    ensures forall name :: name in Filled(n, names, read) ==> name in n.children && Filled(n, names, read)[name] == n.children[name]
    decreases |names|
  {
    if |names| > 0 {
      FilledIs(n, names[1..], read[names[0] := n.children[names[0]]]);
      assert names == [names[0]] + names[1..];
    }
  }

  lemma NodeShape(n: Node, rest: string)
    ensures forall name :: name in Sorted(n.children.Keys) ==> name in n.children
    ensures PrintNode(n, rest)
         == "(" + Listed(PrintPlain, n.outputs, "," + ("[" + PrintChildren(n, Sorted(n.children.Keys), "]" + (")" + rest))))
  {
    var names := Sorted(n.children.Keys);
    assert forall name :: name in names ==> name in Elements(names);
    assert "])" + rest == "]" + (")" + rest);
    var list := PrintChildren(n, names, "]" + (")" + rest));
    assert ",[" + list == "," + ("[" + list);
  }

  /** A node whose list of children reads back. */
  lemma NodeTextReads(n: Node, list: string, rest: string)
    requires AllPlain(n.outputs) && SkipSpace(list) == list
    requires ReadChildren(list, map[]) == Some(Parsed(n.children, ")" + rest))
    ensures var text := "(" + Listed(PrintPlain, n.outputs, "," + ("[" + list));
            Solid(text) && text[0] == '(' && ReadNode(text) == Some(Parsed(n, rest))
  {
    var middle := "," + ("[" + list);
    var text := Listed(PrintPlain, n.outputs, middle);
    LeadSolid('(', text);
    PlainStringsRead(n.outputs, middle);
    assert SkipSpace(text) == text;
    ExpectLead(",", "[" + list);
    ExpectLead("[", list);
    ExpectLead(")", rest);
  }

  lemma NamesAre(n: Node)
    ensures forall name :: name in Sorted(n.children.Keys) <==> name in n.children
  {
    var names := Sorted(n.children.Keys);
    assert forall name :: name in names <==> name in Elements(names);
  }

  lemma FilledAll(n: Node, names: seq<string>)
    requires forall name :: name in names <==> name in n.children
    ensures Filled(n, names, map[]) == n.children
  {
    FilledIs(n, names, map[]);
    var filled := Filled(n, names, map[]);
    assert forall name :: name in filled.Keys <==> name in Elements(names);
    SameMap(filled, n.children);
  }

  lemma {:induction false} ChildListReads(n: Node, rest: string)
    requires PlainNode(n) && forall name :: name in Sorted(n.children.Keys) ==> name in n.children
    ensures var list := PrintChildren(n, Sorted(n.children.Keys), "]" + rest);
            SkipSpace(list) == list && ReadChildren(list, map[]) == Some(Parsed(n.children, rest))
    decreases n, 0, |Sorted(n.children.Keys)| + 2
  {
    var names := Sorted(n.children.Keys);
    ChildrenStart(n, names, rest);
    ChildrenRead(n, names, map[], rest);
    NamesAre(n);
    FilledAll(n, names);
  }

  lemma {:induction false} NodeReads(n: Node, rest: string)
    requires PlainNode(n)
    ensures Solid(PrintNode(n, rest)) && PrintNode(n, rest)[0] == '('
    ensures ReadNode(PrintNode(n, rest)) == Some(Parsed(n, rest))
    decreases n, 1
  {
    NodeShape(n, rest);
    ChildListReads(n, ")" + rest);
    NodeTextReads(n, PrintChildren(n, Sorted(n.children.Keys), "]" + (")" + rest)), rest);
  }

  lemma ChildrenStart(n: Node, names: seq<string>, rest: string)
    requires forall name :: name in names ==> name in n.children
    ensures SkipSpace(PrintChildren(n, names, "]" + rest)) == PrintChildren(n, names, "]" + rest)
    ensures SkipSpace(PrintMoreChildren(n, names, "]" + rest)) == PrintMoreChildren(n, names, "]" + rest)
  {
    LeadSolid(']', rest);
    if |names| > 0 {
      var more := PrintMoreChildren(n, names[1..], "]" + rest);
      LeadSolid('(', Quoted(names[0], "," + PrintNode(n.children[names[0]], ")" + more)));
      LeadSolid(',', PrintChild(n, names[0], more));
    }
  }

  lemma {:induction false} ChildReads(n: Node, name: string, rest: string)
    requires PlainNode(n) && name in n.children
    ensures Solid(PrintChild(n, name, rest))
    ensures ReadChild(PrintChild(n, name, rest)) == Some(Parsed((name, n.children[name]), rest))
    decreases n, 0, 0
  {
    var child := PrintNode(n.children[name], ")" + rest);
    LeadSolid('(', Quoted(name, "," + child));
    ExpectLead("(", Quoted(name, "," + child));
    ReadPlain(name, "," + child);
    ExpectLead(",", child);
    NodeReads(n.children[name], ")" + rest);
    ExpectLead(")", rest);
  }

  lemma {:induction false} ChildrenRead(n: Node, names: seq<string>, read: map<string, Node>, rest: string)
    requires PlainNode(n) && forall name :: name in names ==> name in n.children
    ensures ReadChildren(if read == map[] then PrintChildren(n, names, "]" + rest) else PrintMoreChildren(n, names, "]" + rest), read)
         == Some(Parsed(Filled(n, names, read), rest))
    decreases n, 0, |names| + 1
  {
    LeadSolid(']', rest);
    if |names| > 0 {
      var more := PrintMoreChildren(n, names[1..], "]" + rest);
      var text := PrintChild(n, names[0], more);
      ChildReads(n, names[0], more);
      LeadSolid(',', text);
      ExpectLead(",", text);
      ChildrenStart(n, names[1..], rest);
      assert SkipSpace(text) == text;
      var read' := read[names[0] := n.children[names[0]]];
      assert names[0] in read';
      ChildrenRead(n, names[1..], read', rest);
    }
  }

  // ---- inputs ----

  ghost predicate PlainInputNode(n: InputNode) {
    match n
    case Flat(outputs) => AllPlain(outputs)
    case Deep(node) => PlainNode(node)
  }

  ghost predicate PlainInput(i: InputRow) {
    PlainField(PathText(i.path)) && PlainInputNode(i.node)
  }

  lemma InputNodeReads(n: InputNode, rest: string)
    requires PlainInputNode(n)
    ensures Solid(PrintInputNode(n, rest)) && ReadInputNode(PrintInputNode(n, rest)) == Some(Parsed(n, rest))
    ensures n.Flat? ==> ReadStrings(PrintInputNode(n, rest)) == Some(Parsed(n.outputs, rest))
  {
    match n {
      case Flat(outputs) =>
        PlainStringsRead(outputs, rest);
        LeadSolid('[', Joined(PrintPlain, outputs, "]" + rest));
      case Deep(node) => NodeReads(node, rest);
    }
  }

  lemma DynamicInputReads(i: InputRow, rest: string)
    requires PlainInput(i)
    ensures ReadDynamicInput(PrintInput(i, rest)) == Some(Parsed(i, rest)) && Solid(PrintInput(i, rest))
    ensures i.node.Flat? ==> ReadSimpleInput(PrintInput(i, rest)) == Some(Parsed(i, rest))
  {
    var node := PrintInputNode(i.node, ")" + rest);
    var text := PrintPath(i.path, "," + node);
    LeadSolid('(', text);
    ExpectLead("(", text);
    PathStringReadsBack(i.path);
    assert ReadPathString(text) == Some(Parsed(i.path, "," + node));
    ExpectLead(",", node);
    InputNodeReads(i.node, ")" + rest);
    assert SkipSpace(node) == node;
    ExpectLead(")", rest);
  }

  lemma InputReadsBack(i: InputRow)
    requires PlainInput(i)
    ensures ReadsBack(ReadDynamicInput, PrintInput, i)
    ensures i.node.Flat? ==> ReadsBack(ReadSimpleInput, PrintInput, i)
  {
    forall rest
      ensures ReadDynamicInput(PrintInput(i, rest)) == Some(Parsed(i, rest)) && Solid(PrintInput(i, rest))
      ensures i.node.Flat? ==> ReadSimpleInput(PrintInput(i, rest)) == Some(Parsed(i, rest))
    { DynamicInputReads(i, rest); }
  }

  // ---- the whole derivation ----

  ghost predicate OutputsArePlain(d: Derivation) {
    forall o :: o in d.outputs ==> PlainOutput(o)
  }

  /** Every printed path of an input, every output named of one and every node is
      plain. */
  ghost predicate InputsArePlain(d: Derivation) {
    && (forall p :: p in d.inputDrvs ==> PlainField(PathText(p)) && AllPlain(d.inputDrvs[p]))
    && (forall p :: p in d.dynamicInputs ==> PlainField(PathText(p)) && PlainNode(d.dynamicInputs[p]))
    && (forall p :: p in d.inputSrcs ==> PlainField(PathText(p)))
  }

  /** The fields that are written without escapes survive it. */
  ghost predicate PlainDerivation(d: Derivation) {
    OutputsArePlain(d) && InputsArePlain(d) && PlainField(d.platform)
  }

  /** What comes back: the outputs in name order, the format told by the inputs,
      and the plain outputs of a dynamic input in front of its own. */
  function Normalised(d: Derivation): Derivation {
    d.(outputs := ByName(d.outputs),
       inputDrvs := map p | p in d.inputDrvs && p !in d.dynamicInputs :: d.inputDrvs[p],
       isDynamic := d.dynamicInputs != map[],
       dynamicInputs := map p | p in d.dynamicInputs :: InputNodeOf(d, p).node)
  }

  lemma PlainRow(d: Derivation, path: string)
    requires InputsArePlain(d) && path in InputPaths(d)
    ensures PlainInput(InputRow(path, InputNodeOf(d, path)))
  {
    assert AllPlain(PlainOutputs(d, path));
  }

  lemma PathsAre(d: Derivation)
    ensures forall p :: p in Sorted(InputPaths(d)) <==> p in InputPaths(d)
  {
    var paths := Sorted(InputPaths(d));
    assert forall p :: p in paths <==> p in Elements(paths);
  }

  lemma RowAt(d: Derivation, paths: seq<string>, i: InputRow)
    requires i in RowsOf(d, paths)
    ensures i.path in paths && i == InputRow(i.path, InputNodeOf(d, i.path))
  {
    var k :| 0 <= k < |paths| && RowsOf(d, paths)[k] == i;
    assert paths[k] in paths;
  }

  lemma RowsPlain(d: Derivation)
    requires InputsArePlain(d)
    ensures forall i :: i in InputRows(d) ==> PlainInput(i) && (i.path !in d.dynamicInputs ==> i.node.Flat?)
  {
    PathsAre(d);
    forall i | i in InputRows(d)
      ensures PlainInput(i) && (i.path !in d.dynamicInputs ==> i.node.Flat?)
    {
      RowAt(d, Sorted(InputPaths(d)), i);
      PlainRow(d, i.path);
    }
  }

  lemma InputsRead(d: Derivation, rest: string)
    requires InputsArePlain(d)
    ensures Solid(Listed(PrintInput, InputRows(d), rest))
    ensures ReadInputs(Listed(PrintInput, InputRows(d), rest), d.dynamicInputs != map[]) == Some(Parsed(InputRows(d), rest))
  {
    RowsPlain(d);
    var rows := InputRows(d);
    forall i | i in rows
      ensures ReadsBack(ReadDynamicInput, PrintInput, i)
      ensures d.dynamicInputs == map[] ==> ReadsBack(ReadSimpleInput, PrintInput, i)
    { InputReadsBack(i); }
    if d.dynamicInputs != map[] {
      ListReads(ReadDynamicInput, PrintInput, rows, rest);
    } else {
      ListReads(ReadSimpleInput, PrintInput, rows, rest);
    }
  }

  lemma {:induction false} MapsOfRows(d: Derivation, paths: seq<string>)
    ensures forall p :: p in SimpleOf(RowsOf(d, paths)) <==> p in paths && p !in d.dynamicInputs
    ensures forall p :: p in SimpleOf(RowsOf(d, paths)) ==> SimpleOf(RowsOf(d, paths))[p] == PlainOutputs(d, p)
    ensures forall p :: p in DynamicOf(RowsOf(d, paths)) <==> p in paths && p in d.dynamicInputs
    ensures forall p :: p in DynamicOf(RowsOf(d, paths)) ==> DynamicOf(RowsOf(d, paths))[p] == InputNodeOf(d, p).node
    decreases |paths|
  {
    if |paths| > 0 {
      var front := paths[..|paths| - 1];
      assert RowsOf(d, paths)[..|paths| - 1] == RowsOf(d, front);
      assert paths == front + [paths[|paths| - 1]];
      MapsOfRows(d, front);
    }
  }

  lemma InputMaps(d: Derivation)
    ensures SimpleOf(InputRows(d)) == Normalised(d).inputDrvs
    ensures DynamicOf(InputRows(d)) == Normalised(d).dynamicInputs
  {
    PathsAre(d);
    MapsOfRows(d, Sorted(InputPaths(d)));
    var simple, dynamic := SimpleOf(InputRows(d)), DynamicOf(InputRows(d));
    assert forall p :: p in simple <==> p in d.inputDrvs && p !in d.dynamicInputs;
    assert forall p :: p in dynamic <==> p in d.dynamicInputs;
    SameMap(simple, Normalised(d).inputDrvs);
    SameMap(dynamic, Normalised(d).dynamicInputs);
  }

  lemma SameMap<K, V>(a: map<K, V>, b: map<K, V>)
    requires (forall k :: k in a <==> k in b) && forall k :: k in a && k in b ==> a[k] == b[k]
    ensures a == b
  {
  }

  lemma {:induction false} EnvOfRows(env: map<string, string>, keys: seq<string>)
    requires forall k :: k in keys ==> k in env
    ensures forall k :: k in EnvOf(EnvRowsOf(env, keys)) <==> k in keys
    ensures forall k :: k in keys ==> EnvOf(EnvRowsOf(env, keys))[k] == env[k]
    decreases |keys|
  {
    if |keys| > 0 {
      var front := keys[..|keys| - 1];
      assert EnvRowsOf(env, keys)[..|keys| - 1] == EnvRowsOf(env, front);
      assert keys == front + [keys[|keys| - 1]];
      EnvOfRows(env, front);
    }
  }

  lemma EnvMap(env: map<string, string>)
    ensures EnvOf(EnvRows(env)) == env
  {
    var keys := Sorted(env.Keys);
    assert forall k :: k in keys <==> k in Elements(keys);
    EnvOfRows(env, keys);
  }

  lemma EnvReads(d: Derivation, rest: string)
    ensures Solid(PrintEnv(d, rest))
    ensures ReadList(ReadEnvRow, PrintEnv(d, rest)) == Some(Parsed(EnvRows(d.env), ")" + rest))
  {
    forall e | e in EnvRows(d.env)
      ensures ReadsBack(ReadEnvRow, PrintEnvRow, e)
    { EnvRowReadsBack(e); }
    ListReads(ReadEnvRow, PrintEnvRow, EnvRows(d.env), ")" + rest);
  }

  lemma ArgsRead(d: Derivation, rest: string)
    ensures Solid(Listed(PrintEscaped, d.args, rest))
    ensures ReadStrings(Listed(PrintEscaped, d.args, rest)) == Some(Parsed(d.args, rest))
  {
    forall a | a in d.args
      ensures ReadsBack(ReadString, PrintEscaped, a)
    { EscapedReadsBack(a); }
    ListReads(ReadString, PrintEscaped, d.args, rest);
  }

  lemma CommaThen(text: string)
    requires Solid(text)
    ensures Comma("," + text) == Some(text)
  {
    ExpectLead(",", text);
  }

  lemma ProgramReads(d: Derivation, rest: string)
    requires PlainField(d.platform)
    ensures Solid(PrintProgram(d, rest))
    ensures ReadProgram(PrintProgram(d, rest)) == Some(Parsed(Program(d.platform, d.builder, d.args, d.env), rest))
  {
    var env := PrintEnv(d, rest);
    var args := Listed(PrintEscaped, d.args, "," + env);
    var builder := Quoted(Escape(d.builder), "," + args);
    ReadPlain(d.platform, "," + builder);
    QuotedSolid(d.platform, "," + builder);
    QuotedSolid(Escape(d.builder), "," + args);
    CommaThen(builder);
    ReadEscaped(d.builder, "," + args);
    ArgsRead(d, "," + env);
    CommaThen(args);
    EnvReads(d, rest);
    CommaThen(env);
    LeadSolid(')', rest);
    ExpectLead(")", rest);
    EnvMap(d.env);
  }

  lemma OutputsRead(d: Derivation, rest: string)
    requires OutputsArePlain(d)
    ensures Solid(Listed(PrintOutput, ByName(d.outputs), rest))
    ensures ReadList(ReadOutput, Listed(PrintOutput, ByName(d.outputs), rest)) == Some(Parsed(ByName(d.outputs), rest))
  {
    SameElements(ByName(d.outputs), d.outputs);
    forall o | o in ByName(d.outputs)
      ensures ReadsBack(ReadOutput, PrintOutput, o)
    {
      assert o in Elements(ByName(d.outputs));
      OutputReadsBack(o);
    }
    ListReads(ReadOutput, PrintOutput, ByName(d.outputs), rest);
  }

  lemma SourcesRead(d: Derivation, rest: string)
    requires InputsArePlain(d)
    ensures Solid(Listed(PrintPath, Sorted(d.inputSrcs), rest))
    ensures ReadList(ReadPathString, Listed(PrintPath, Sorted(d.inputSrcs), rest)) == Some(Parsed(Sorted(d.inputSrcs), rest))
  {
    var srcs := Sorted(d.inputSrcs);
    forall p | p in srcs
      ensures ReadsBack(ReadPathString, PrintPath, p)
    {
      assert p in Elements(srcs);
      PathStringReadsBack(p);
    }
    ListReads(ReadPathString, PrintPath, srcs, rest);
  }

  function Assembled(d: Derivation, p: Program): Derivation {
    Normalised(d).(platform := p.platform, builder := p.builder, args := p.args, env := p.env)
  }

  /** The fields before the platform read back; the rest is as it reads. */
  lemma FieldsUpToProgram(d: Derivation, rest: string)
    requires InputsArePlain(d) && OutputsArePlain(d)
    ensures Solid(PrintFields(d, rest))
    ensures var p := ReadProgram(PrintProgram(d, rest));
            ReadFields(PrintFields(d, rest), d.dynamicInputs != map[])
            == if p.None? then None else Some(Parsed(Assembled(d, p.value.value), p.value.rest))
  {
    var program := PrintProgram(d, rest);
    var srcs := Listed(PrintPath, Sorted(d.inputSrcs), "," + program);
    var inputs := Listed(PrintInput, InputRows(d), "," + srcs);
    OutputsRead(d, "," + inputs);
    InputsRead(d, "," + srcs);
    CommaThen(inputs);
    SourcesRead(d, "," + program);
    CommaThen(srcs);
    QuotedSolid(d.platform, "," + Quoted(Escape(d.builder), "," + Listed(PrintEscaped, d.args, "," + PrintEnv(d, rest))));
    CommaThen(program);
    InputMaps(d);
  }

  lemma FieldsRead(d: Derivation, rest: string)
    requires PlainDerivation(d)
    ensures ReadFields(PrintFields(d, rest), d.dynamicInputs != map[]) == Some(Parsed(Normalised(d), rest))
  {
    FieldsUpToProgram(d, rest);
    ProgramReads(d, rest);
  }

  lemma DynamicFormatReads(fields: string)
    requires Solid(fields)
    ensures ParseDerivation("DrvWithVersion(" + Quoted(VERSION, "," + fields)) == ReadFields(fields, true)
  {
    var text := Quoted(VERSION, "," + fields);
    LeadWord("DrvWithVersion(", text);
    QuotedSolid(VERSION, "," + fields);
    UnmarkedIsPlain(VERSION);
    ReadPlain(VERSION, "," + fields);
    CommaThen(fields);
  }

  lemma PlainFormatReads(fields: string)
    requires Solid(fields)
    ensures ParseDerivation("Derive(" + fields) == ReadFields(fields, false)
  {
    LeadWord("Derive(", fields);
    assert ("Derive(" + fields)[1] == 'e' && "DrvWithVersion("[1] == 'r';
    assert !StartsWith("Derive(" + fields, "DrvWithVersion(");
  }

  lemma FieldsAreSolid(d: Derivation, rest: string)
    ensures Solid(PrintFields(d, rest))
  {
    var behind := "," + Listed(PrintInput, InputRows(d), "," + Listed(PrintPath, Sorted(d.inputSrcs), "," + PrintProgram(d, rest)));
    LeadSolid('[', Joined(PrintOutput, ByName(d.outputs), "]" + behind));
  }

  lemma FormatReads(d: Derivation, rest: string)
    ensures ParseDerivation(Unparse(d, rest)) == ReadFields(PrintFields(d, rest), d.dynamicInputs != map[])
  {
    FieldsAreSolid(d, rest);
    if d.dynamicInputs != map[] {
      DynamicFormatReads(PrintFields(d, rest));
    } else {
      PlainFormatReads(PrintFields(d, rest));
    }
  }

  /** What the parser makes of a printed derivation, whatever text follows. */
  lemma ParseUnparse(d: Derivation, rest: string)
    requires PlainDerivation(d)
    ensures ParseDerivation(Unparse(d, rest)) == Some(Parsed(Normalised(d), rest))
  {
    FormatReads(d, rest);
    FieldsRead(d, rest);
  }

  lemma LeadWord(lead: string, text: string)
    requires Solid(lead)
    ensures SkipSpace(lead + text) == lead + text && StartsWith(lead + text, lead) && Expect(lead + text, lead) == Some(text)
  {
    assert (lead + text)[0] == lead[0];
    ExpectLead(lead, text);
  }

  lemma NothingInFront(d: Derivation)
    requires d.inputDrvs.Keys !! d.dynamicInputs.Keys
    ensures Normalised(d).inputDrvs == d.inputDrvs && Normalised(d).dynamicInputs == d.dynamicInputs
  {
    forall p | p in d.dynamicInputs
      ensures InputNodeOf(d, p).node == d.dynamicInputs[p]
    {
      assert p !in d.inputDrvs;
      assert [] + d.dynamicInputs[p].outputs == d.dynamicInputs[p].outputs;
    }
  }

  lemma NormalIff(d: Derivation)
    ensures Normalised(d) == d.(outputs := ByName(d.outputs)) <==>
              d.inputDrvs.Keys !! d.dynamicInputs.Keys && d.isDynamic == (d.dynamicInputs != map[])
  {
    if d.inputDrvs.Keys !! d.dynamicInputs.Keys {
      NothingInFront(d);
    } else {
      var p :| p in d.inputDrvs.Keys && p in d.dynamicInputs.Keys;
      assert p !in Normalised(d).inputDrvs;
    }
  }

  // ---- fields that are not plain ----

  lemma OutputReadAsItself(o: Output, rest: string)
    requires ReadOutput(PrintOutput(o, rest)).Some? && ReadOutput(PrintOutput(o, rest)).value.value == o
    ensures PlainOutput(o)
  {
    var t4 := ")" + rest;
    var t3 := "," + Quoted(o.hashValue, t4);
    var t2 := "," + Quoted(o.hashAlgo, t3);
    var t1 := "," + Quoted(o.path, t2);
    ExpectLead("(", Quoted(o.name, t1));
    PlainIff(o.name, t1);
    ExpectLead(",", Quoted(o.path, t2));
    PlainIff(o.path, t2);
    ExpectLead(",", Quoted(o.hashAlgo, t3));
    PlainIff(o.hashAlgo, t3);
    ExpectLead(",", Quoted(o.hashValue, t4));
    PlainIff(o.hashValue, t4);
  }

  lemma {:induction false} ItemsKeepPrefix<T(!new)>(item: string -> Option<Parsed<T>>, s: string, read: seq<T>)
    requires Consumes(item) && Items(item, s, read).Some?
    ensures read <= Items(item, s, read).value.value
    decreases |s|
  {
    var next := NextItem(s, |read| > 0).value;
    if next.value {
      var x := item(next.rest).value;
      ItemsKeepPrefix(item, SkipSpace(x.rest), read + [x.value]);
    }
  }

  lemma PrintedOutputIsSolid(o: Output, rest: string)
    ensures Solid(PrintOutput(o, rest)) && SkipSpace(PrintOutput(o, rest)) == PrintOutput(o, rest)
  {
    LeadSolid('(', PrintOutput(o, rest)[1..]);
    assert PrintOutput(o, rest) == ['('] + PrintOutput(o, rest)[1..];
  }

  /** The first item of a list of outputs that is left to read. */
  lemma NextOutput(vs: seq<Output>, read: seq<Output>, rest: string)
    requires |vs| > 0
    ensures var text := if |read| == 0 then Joined(PrintOutput, vs, "]" + rest) else Tail(PrintOutput, vs, "]" + rest);
            NextItem(text, |read| > 0) == Some(Parsed(true, PrintOutput(vs[0], Tail(PrintOutput, vs[1..], "]" + rest))))
  {
    var text := PrintOutput(vs[0], Tail(PrintOutput, vs[1..], "]" + rest));
    PrintedOutputIsSolid(vs[0], Tail(PrintOutput, vs[1..], "]" + rest));
    LeadSolid(',', text);
    ExpectLead(",", text);
  }

  lemma {:induction false} OutputsReadAsThemselves(vs: seq<Output>, read: seq<Output>, rest: string)
    requires var text := if |read| == 0 then Joined(PrintOutput, vs, "]" + rest) else Tail(PrintOutput, vs, "]" + rest);
             Items(ReadOutput, text, read).Some? && Items(ReadOutput, text, read).value.value == read + vs
    ensures forall o :: o in vs ==> PlainOutput(o)
    decreases |vs|
  {
    if |vs| > 0 {
      var more := Tail(PrintOutput, vs[1..], "]" + rest);
      NextOutput(vs, read, rest);
      var x := ReadOutput(PrintOutput(vs[0], more)).value;
      ItemsKeepPrefix(ReadOutput, SkipSpace(x.rest), read + [x.value]);
      SameNext(read, x.value, vs);
      OutputReadAsItself(vs[0], more);
      OutputReads(vs[0], more);
      TailStarts(PrintOutput, vs[1..], rest);
      Shift(read, vs);
      OutputsReadAsThemselves(vs[1..], read + [vs[0]], rest);
    }
  }

  lemma SameNext<T>(read: seq<T>, x: T, vs: seq<T>)
    requires read + [x] <= read + vs && |vs| > 0
    ensures x == vs[0]
  {
    assert (read + [x])[|read|] == x && (read + vs)[|read|] == vs[0];
  }

  lemma OutputsComeBack(d: Derivation, rest: string)
    requires var r := ReadList(ReadOutput, Listed(PrintOutput, ByName(d.outputs), rest));
             r.Some? && r.value.value == ByName(d.outputs)
    ensures forall o :: o in d.outputs ==> PlainOutput(o)
  {
    var vs := ByName(d.outputs);
    var inner := Joined(PrintOutput, vs, "]" + rest);
    ExpectLead("[", inner);
    assert SkipSpace(inner) == inner by {
      if |vs| == 0 { LeadSolid(']', rest); } else { PrintedOutputIsSolid(vs[0], Tail(PrintOutput, vs[1..], "]" + rest)); }
    }
    assert [] + vs == vs;
    OutputsReadAsThemselves(vs, [], rest);
    SameElements(vs, d.outputs);
    forall o | o in d.outputs
      ensures PlainOutput(o)
    { assert o in Elements(vs) && o in vs; }
  }

  lemma PlatformComesBack(d: Derivation, rest: string)
    requires ReadProgram(PrintProgram(d, rest)).Some? && ReadProgram(PrintProgram(d, rest)).value.value.platform == d.platform
    ensures PlainField(d.platform)
  {
    PlainIff(d.platform, "," + Quoted(Escape(d.builder), "," + Listed(PrintEscaped, d.args, "," + PrintEnv(d, rest))));
  }

  lemma FieldsGiveOutputs(s: string, dynamic: bool)
    requires ReadFields(s, dynamic).Some?
    ensures ReadList(ReadOutput, s).Some? && ReadList(ReadOutput, s).value.value == ReadFields(s, dynamic).value.value.outputs
  {
  }

  /** When the outputs come back, they are plain; this needs nothing of the other
      fields. */
  lemma OutputsComeBackOnlyIfPlain(d: Derivation, rest: string)
    requires var r := ParseDerivation(Unparse(d, rest)); r.Some? && r.value.value.outputs == ByName(d.outputs)
    ensures OutputsArePlain(d)
  {
    FormatReads(d, rest);
    FieldsGiveOutputs(PrintFields(d, rest), d.dynamicInputs != map[]);
    OutputsComeBack(d, "," + Listed(PrintInput, InputRows(d),
      "," + Listed(PrintPath, Sorted(d.inputSrcs), "," + PrintProgram(d, rest))));
  }

  /** The outputs come back in name order, equal names in the order they had. */
  lemma OutputsInNameOrder(d: Derivation)
    ensures InOrder(NameLe, ByName(d.outputs)) && multiset(ByName(d.outputs)) == multiset(d.outputs)
  {
    forall a: Output, b: Output
      ensures NameLe(a, b) || NameLe(b, a)
    { LeTotal(a.name, b.name); }
    forall a: Output, b: Output, c: Output | NameLe(a, b) && NameLe(b, c)
      ensures NameLe(a, c)
    { LeTransitive(a.name, b.name, c.name); }
    SortByInOrder(NameLe, d.outputs);
  }
}
