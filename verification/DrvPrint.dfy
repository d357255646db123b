/** `Derivation.unparse` as the source writes it: parts appended in loops. */
module DrvPrint {
  import opened Wrappers
  import opened Sequences
  import opened Ordering
  import opened DrvText
  import opened Drv

  /** The printed item does not depend on what follows it. */
  ghost predicate Appends<T(!new)>(show: (T, string) -> string, v: T) {
    forall rest :: show(v, rest) == show(v, "") + rest
  }

  lemma After(a: string, b: string, rest: string)
    ensures a + (b + rest) == a + b + rest
  {
  }

  lemma Last(a: string)
    ensures a + "" == a
  {
  }

  lemma QuotedAppends(s: string, t: string, rest: string)
    ensures Quoted(s, t + rest) == Quoted(s, t) + rest
  {
    After("\"", t, rest);
    After(s, "\"" + t, rest);
    After("\"", s + ("\"" + t), rest);
  }

  lemma {:induction false} TailAppends<T(!new)>(show: (T, string) -> string, vs: seq<T>, t: string, rest: string)
    requires forall v :: v in vs ==> Appends(show, v)
    ensures Tail(show, vs, t + rest) == Tail(show, vs, t) + rest
    decreases |vs|
  {
    if |vs| > 0 {
      TailAppends(show, vs[1..], t, rest);
      var more := Tail(show, vs[1..], t);
      ItemAppends(show, vs[0], more, rest);
      After(",", show(vs[0], more), rest);
    }
  }

  lemma ItemAppends<T(!new)>(show: (T, string) -> string, v: T, t: string, rest: string)
    requires Appends(show, v)
    ensures show(v, t + rest) == show(v, t) + rest
  {
    assert show(v, t + rest) == show(v, "") + (t + rest);
    assert show(v, t) == show(v, "") + t;
    After(show(v, ""), t, rest);
  }

  lemma ListedAppends<T(!new)>(show: (T, string) -> string, vs: seq<T>, t: string, rest: string)
    requires forall v :: v in vs ==> Appends(show, v)
    ensures Listed(show, vs, t + rest) == Listed(show, vs, t) + rest
  {
    After("]", t, rest);
    var close := "]" + t;
    if |vs| > 0 {
      TailAppends(show, vs[1..], close, rest);
      ItemAppends(show, vs[0], Tail(show, vs[1..], close), rest);
    }
    After("[", Joined(show, vs, close), rest);
  }

  // ---- the items ----

  lemma PlainAppends(s: string)
    ensures Appends(PrintPlain, s)
  {
    forall rest
      ensures PrintPlain(s, rest) == PrintPlain(s, "") + rest
    {
      QuotedAppends(s, "", rest);
      assert "" + rest == rest;
    }
  }

  lemma EscapedAppends(s: string)
    ensures Appends(PrintEscaped, s)
  {
    forall rest
      ensures PrintEscaped(s, rest) == PrintEscaped(s, "") + rest
    {
      QuotedAppends(Escape(s), "", rest);
      assert "" + rest == rest;
    }
  }

  lemma PathAppends(base: string)
    ensures Appends(PrintPath, base)
  {
    forall rest
      ensures PrintPath(base, rest) == PrintPath(base, "") + rest
    {
      QuotedAppends(PathText(base), "", rest);
      assert "" + rest == rest;
    }
  }

  lemma OutputText(o: Output, t: string, rest: string)
    ensures PrintOutput(o, t + rest) == PrintOutput(o, t) + rest
  {
    After(")", t, rest);
    var t4 := ")" + t;
    var t3 := "," + Quoted(o.hashValue, t4);
    var t2 := "," + Quoted(o.hashAlgo, t3);
    var t1 := "," + Quoted(o.path, t2);
    QuotedAppends(o.hashValue, t4, rest);
    After(",", Quoted(o.hashValue, t4), rest);
    QuotedAppends(o.hashAlgo, t3, rest);
    After(",", Quoted(o.hashAlgo, t3), rest);
    QuotedAppends(o.path, t2, rest);
    After(",", Quoted(o.path, t2), rest);
    QuotedAppends(o.name, t1, rest);
    After("(", Quoted(o.name, t1), rest);
  }

  lemma OutputAppends(o: Output)
    ensures Appends(PrintOutput, o)
  {
    forall rest
      ensures PrintOutput(o, rest) == PrintOutput(o, "") + rest
    {
      OutputText(o, "", rest);
      assert "" + rest == rest;
    }
  }

  lemma EnvRowText(e: EnvRow, t: string, rest: string)
    ensures PrintEnvRow(e, t + rest) == PrintEnvRow(e, t) + rest
  {
    After(")", t, rest);
    var t2 := ")" + t;
    var t1 := "," + Quoted(Escape(e.value), t2);
    QuotedAppends(Escape(e.value), t2, rest);
    After(",", Quoted(Escape(e.value), t2), rest);
    QuotedAppends(Escape(e.key), t1, rest);
    After("(", Quoted(Escape(e.key), t1), rest);
  }

  lemma EnvRowAppends(e: EnvRow)
    ensures Appends(PrintEnvRow, e)
  {
    forall rest
      ensures PrintEnvRow(e, rest) == PrintEnvRow(e, "") + rest
    {
      EnvRowText(e, "", rest);
      assert "" + rest == rest;
    }
  }

  lemma StringsText(ss: seq<string>, t: string, rest: string)
    ensures Listed(PrintPlain, ss, t + rest) == Listed(PrintPlain, ss, t) + rest
  {
    forall s | s in ss
      ensures Appends(PrintPlain, s)
    { PlainAppends(s); }
    ListedAppends(PrintPlain, ss, t, rest);
  }

  lemma {:induction false} NodeText(n: Node, t: string, rest: string)
    ensures PrintNode(n, t + rest) == PrintNode(n, t) + rest
    decreases n, 1
  {
    var names := Sorted(n.children.Keys);
    assert forall name :: name in names ==> name in Elements(names);
    After("])", t, rest);
    ChildrenText(n, names, "])" + t, rest);
    var list := PrintChildren(n, names, "])" + t);
    After(",[", list, rest);
    StringsText(n.outputs, ",[" + list, rest);
    After("(", Listed(PrintPlain, n.outputs, ",[" + list), rest);
  }

  lemma {:induction false} ChildText(n: Node, name: string, t: string, rest: string)
    requires name in n.children
    ensures PrintChild(n, name, t + rest) == PrintChild(n, name, t) + rest
    decreases n, 0, 0
  {
    After(")", t, rest);
    var child := PrintNode(n.children[name], ")" + t);
    NodeText(n.children[name], ")" + t, rest);
    After(",", child, rest);
    QuotedAppends(name, "," + child, rest);
    After("(", Quoted(name, "," + child), rest);
  }

  lemma {:induction false} ChildrenText(n: Node, names: seq<string>, t: string, rest: string)
    requires forall name :: name in names ==> name in n.children
    ensures PrintChildren(n, names, t + rest) == PrintChildren(n, names, t) + rest
    ensures PrintMoreChildren(n, names, t + rest) == PrintMoreChildren(n, names, t) + rest
    decreases n, 0, |names| + 1
  {
    if |names| > 0 {
      ChildrenText(n, names[1..], t, rest);
      var more := PrintMoreChildren(n, names[1..], t);
      ChildText(n, names[0], more, rest);
      After(",", PrintChild(n, names[0], more), rest);
    }
  }

  lemma InputText(i: InputRow, t: string, rest: string)
    ensures PrintInput(i, t + rest) == PrintInput(i, t) + rest
  {
    After(")", t, rest);
    var close := ")" + t;
    match i.node {
      case Flat(outputs) => StringsText(outputs, close, rest);
      case Deep(node) => NodeText(node, close, rest);
    }
    var node := PrintInputNode(i.node, close);
    After(",", node, rest);
    QuotedAppends(PathText(i.path), "," + node, rest);
    After("(", Quoted(PathText(i.path), "," + node), rest);
  }

  lemma InputAppends(i: InputRow)
    ensures Appends(PrintInput, i)
  {
    forall rest
      ensures PrintInput(i, rest) == PrintInput(i, "") + rest
    {
      InputText(i, "", rest);
      assert "" + rest == rest;
    }
  }

  // ---- the loops ----

  lemma {:induction false} TailSnoc<T(!new)>(show: (T, string) -> string, vs: seq<T>, v: T)
    requires forall w :: w in vs + [v] ==> Appends(show, w)
    ensures Tail(show, vs + [v], "") == Tail(show, vs, "") + ("," + show(v, ""))
    decreases |vs|
  {
    if |vs| == 0 {
      assert vs + [v] == [v] && [v][1..] == [];
      assert Tail(show, [v], "") == "," + show(v, "");
    } else {
      assert (vs + [v])[1..] == vs[1..] + [v];
      assert forall w :: w in vs[1..] + [v] ==> w in vs + [v];
      TailSnoc(show, vs[1..], v);
      var more, item := Tail(show, vs[1..], ""), "," + show(v, "");
      assert vs[0] in vs + [v];
      ItemAppends(show, vs[0], more, item);
      After(",", show(vs[0], more), item);
    }
  }

  lemma JoinedSnoc<T(!new)>(show: (T, string) -> string, vs: seq<T>, v: T)
    requires forall w :: w in vs + [v] ==> Appends(show, w)
    ensures Joined(show, vs + [v], "")
         == if |vs| == 0 then show(v, "") else Joined(show, vs, "") + "," + show(v, "")
  {
    if |vs| == 0 {
      assert vs + [v] == [v] && [v][1..] == [];
    } else {
      assert (vs + [v])[1..] == vs[1..] + [v];
      assert forall w :: w in vs[1..] + [v] ==> w in vs + [v];
      TailSnoc(show, vs[1..], v);
      var more, item := Tail(show, vs[1..], ""), "," + show(v, "");
      assert vs[0] in vs + [v];
      ItemAppends(show, vs[0], more, item);
      After(show(vs[0], more), ",", show(v, ""));
    }
  }

  /** A list appended item by item, a comma in front of all but the first. */
  method AppendList<T(!new)>(parts: string, show: (T, string) -> string, vs: seq<T>) returns (out: string)
    requires forall v :: v in vs ==> Appends(show, v)
    ensures out == parts + Listed(show, vs, "")
  {
    out := parts + "[";
    var first := true;
    ghost var start := out;
    for i := 0 to |vs|
      invariant first == (i == 0) && out == start + Joined(show, vs[..i], "")
    {
      assert vs[..i + 1] == vs[..i] + [vs[i]];
      assert forall w :: w in vs[..i] + [vs[i]] ==> w in vs;
      JoinedSnoc(show, vs[..i], vs[i]);
      ghost var done := Joined(show, vs[..i], "");
      if first {
        first := false;
        Last(start);
      } else {
        out := out + ",";
        After(start, done, ",");
      }
      After(start, if i == 0 then "" else done + ",", show(vs[i], ""));
      assert "" + show(vs[i], "") == show(vs[i], "");
      out := out + show(vs[i], "");
    }
    assert vs[..|vs|] == vs;
    out := out + "]";
    Closed(parts, show, vs);
  }

  lemma Closed<T(!new)>(parts: string, show: (T, string) -> string, vs: seq<T>)
    requires forall v :: v in vs ==> Appends(show, v)
    ensures parts + "[" + Joined(show, vs, "") + "]" == parts + Listed(show, vs, "")
  {
    assert "]" + "" == "]" && "" + "]" == "]";
    if |vs| > 0 {
      TailAppends(show, vs[1..], "", "]");
      ItemAppends(show, vs[0], Tail(show, vs[1..], ""), "]");
    }
    assert Joined(show, vs, "]") == Joined(show, vs, "") + "]";
    After("[", Joined(show, vs, ""), "]");
    After(parts, "[", Joined(show, vs, "") + "]");
    After(parts + "[", Joined(show, vs, ""), "]");
  }

  lemma MoveList<T(!new)>(out: string, show: (T, string) -> string, vs: seq<T>, sep: string, rest: string)
    requires forall v :: v in vs ==> Appends(show, v)
    ensures out + Listed(show, vs, sep + rest) == out + Listed(show, vs, "") + sep + rest
  {
    ListedAppends(show, vs, "", sep + rest);
    assert "" + (sep + rest) == sep + rest;
    After(out, Listed(show, vs, ""), sep + rest);
    After(out + Listed(show, vs, ""), sep, rest);
  }

  lemma MoveQuoted(out: string, s: string, sep: string, rest: string)
    ensures out + Quoted(s, sep + rest) == out + ("\"" + s + "\"") + sep + rest
  {
    Associate("\"", s, "\"" + (sep + rest));
    Associate("\"" + s, "\"", sep + rest);
    After(out, "\"" + s + "\"", sep + rest);
    After(out + ("\"" + s + "\""), sep, rest);
  }

  /** Platform, builder, arguments and environment. */
  method AppendProgram(parts: string, d: Derivation) returns (out: string)
    ensures out == parts + PrintProgram(d, "")
  {
    ghost var env := PrintEnv(d, "");
    ghost var args := Listed(PrintEscaped, d.args, "," + env);
    ghost var builder := Quoted(Escape(d.builder), "," + args);
    MoveQuoted(parts, d.platform, ",", builder);
    out := parts + ("\"" + d.platform + "\"") + ",";
    MoveQuoted(out, Escape(d.builder), ",", args);
    out := out + ("\"" + Escape(d.builder) + "\"") + ",";
    forall a | a in d.args
      ensures Appends(PrintEscaped, a)
    { EscapedAppends(a); }
    MoveList(out, PrintEscaped, d.args, ",", env);
    out := AppendList(out, PrintEscaped, d.args);
    out := out + ",";
    forall e | e in EnvRows(d.env)
      ensures Appends(PrintEnvRow, e)
    { EnvRowAppends(e); }
    MoveList(out, PrintEnvRow, EnvRows(d.env), ")", "");
    out := AppendList(out, PrintEnvRow, EnvRows(d.env));
    out := out + ")";
    Last(out);
  }

  lemma MaskedOutputAppends(o: Output)
    ensures Appends(PrintMaskedOutput, o)
  {
    forall rest
      ensures PrintMaskedOutput(o, rest) == PrintMaskedOutput(o, "") + rest
    {
      OutputText(o.(path := ""), "", rest);
      assert "" + rest == rest;
    }
  }

  lemma InputNodeText(n: InputNode, t: string, rest: string)
    ensures PrintInputNode(n, t + rest) == PrintInputNode(n, t) + rest
  {
    match n {
      case Flat(outputs) => StringsText(outputs, t, rest);
      case Deep(node) => NodeText(node, t, rest);
    }
  }

  lemma ActualAppends(i: InputRow)
    ensures Appends(PrintActual, i)
  {
    forall rest
      ensures PrintActual(i, rest) == PrintActual(i, "") + rest
    {
      var node := PrintInputNode(i.node, ")" + "");
      After(")", "", rest);
      InputNodeText(i.node, ")" + "", rest);
      After(",", node, rest);
      QuotedAppends(i.path, "," + node, rest);
      After("(", Quoted(i.path, "," + node), rest);
      assert "" + rest == rest;
    }
  }

  /** The loop over the inputs, or over what replaces them. */
  method AppendInputs(parts: string, d: Derivation, actual: Option<map<string, InputNode>>, ghost rest: string)
    returns (out: string)
    ensures out + "," + rest == parts + PrintInputs(d, actual, "," + rest)
  {
    match actual {
      case None =>
        forall i | i in InputRows(d)
          ensures Appends(PrintInput, i)
        { InputAppends(i); }
        MoveList(parts, PrintInput, InputRows(d), ",", rest);
        out := AppendList(parts, PrintInput, InputRows(d));
      case Some(m) =>
        forall i | i in ActualRows(m)
          ensures Appends(PrintActual, i)
        { ActualAppends(i); }
        MoveList(parts, PrintActual, ActualRows(m), ",", rest);
        out := AppendList(parts, PrintActual, ActualRows(m));
    }
  }

  method AppendOutputs(parts: string, d: Derivation, mask: bool, ghost rest: string) returns (out: string)
    ensures out + "," + rest == parts + Listed(if mask then PrintMaskedOutput else PrintOutput, ByName(d.outputs), "," + rest)
  {
    var outputs := ByName(d.outputs);
    if mask {
      forall o | o in outputs
        ensures Appends(PrintMaskedOutput, o)
      { MaskedOutputAppends(o); }
      MoveList(parts, PrintMaskedOutput, outputs, ",", rest);
      out := AppendList(parts, PrintMaskedOutput, outputs);
    } else {
      forall o | o in outputs
        ensures Appends(PrintOutput, o)
      { OutputAppends(o); }
      MoveList(parts, PrintOutput, outputs, ",", rest);
      out := AppendList(parts, PrintOutput, outputs);
    }
  }

  method AppendSources(parts: string, srcs: seq<string>, ghost rest: string) returns (out: string)
    ensures out + "," + rest == parts + Listed(PrintPath, srcs, "," + rest)
  {
    forall p | p in srcs
      ensures Appends(PrintPath, p)
    { PathAppends(p); }
    MoveList(parts, PrintPath, srcs, ",", rest);
    out := AppendList(parts, PrintPath, srcs);
  }

  method AppendFields(parts: string, d: Derivation, mask: bool, actual: Option<map<string, InputNode>>)
    returns (out: string)
    ensures out == parts + FieldsFor(d, mask, actual, "")
  {
    var named := if mask then d.(env := MaskedEnv(d)) else d;
    ghost var program := PrintProgram(named, "");
    ghost var srcs := Listed(PrintPath, Sorted(d.inputSrcs), "," + program);
    ghost var inputs := PrintInputs(d, actual, "," + srcs);
    out := AppendOutputs(parts, d, mask, inputs);
    out := out + ",";
    out := AppendInputs(out, d, actual, srcs);
    out := out + ",";
    out := AppendSources(out, Sorted(d.inputSrcs), program);
    out := out + ",";
    out := AppendProgram(out, named);
  }

  /** `unparse`: the loops give the printed text. */
  method UnparseDerivation(d: Derivation, mask: bool, actual: Option<map<string, InputNode>>) returns (out: string)
    ensures out == UnparseFor(d, mask, actual, "")
  {
    if d.dynamicInputs != map[] {
      MoveQuoted("DrvWithVersion(", VERSION, ",", FieldsFor(d, mask, actual, ""));
      out := "DrvWithVersion(" + ("\"" + VERSION + "\"") + ",";
    } else {
      out := "Derive(";
    }
    out := AppendFields(out, d, mask, actual);
  }

  // ---- what masking means ----

  lemma BlankedTail(s: seq<Output>)
    requires |s| > 0
    ensures Blanked(s)[0] == s[0].(path := "")
    ensures Blanked(s)[1..] == Blanked(s[1..])
  {
  }

  lemma BlankedCons(x: Output, s: seq<Output>)
    ensures Blanked([x] + s) == [x.(path := "")] + Blanked(s)
  {
    BlankedTail([x] + s);
    assert ([x] + s)[1..] == s;
  }

  lemma {:induction false} InsertBlanked(x: Output, s: seq<Output>)
    ensures Insert(NameLe, x.(path := ""), Blanked(s)) == Blanked(Insert(NameLe, x, s))
    decreases |s|
  {
    if |s| == 0 || NameLe(x, s[0]) {
      BlankedCons(x, s);
    } else {
      BlankedTail(s);
      InsertBlanked(x, s[1..]);
      BlankedCons(s[0], Insert(NameLe, x, s[1..]));
    }
  }

  lemma {:induction false} SortBlanked(s: seq<Output>)
    ensures ByName(Blanked(s)) == Blanked(ByName(s))
    decreases |s|
  {
    if |s| > 0 {
      BlankedTail(s);
      SortBlanked(s[1..]);
      InsertBlanked(s[0], ByName(s[1..]));
    }
  }

  lemma {:induction false} TailBlanked(vs: seq<Output>, rest: string)
    ensures Tail(PrintOutput, Blanked(vs), rest) == Tail(PrintMaskedOutput, vs, rest)
    decreases |vs|
  {
    if |vs| > 0 {
      BlankedTail(vs);
      TailBlanked(vs[1..], rest);
    }
  }

  lemma ListedBlanked(vs: seq<Output>, rest: string)
    ensures Listed(PrintOutput, Blanked(vs), rest) == Listed(PrintMaskedOutput, vs, rest)
  {
    if |vs| > 0 {
      BlankedTail(vs);
      TailBlanked(vs[1..], "]" + rest);
    }
  }

  lemma SameInputs(d: Derivation)
    ensures InputRows(Masked(d)) == InputRows(d)
  {
    RowsIgnoreTheRest(d, Masked(d), Sorted(InputPaths(d)));
  }

  lemma RowsIgnoreTheRest(d: Derivation, e: Derivation, paths: seq<string>)
    requires e.inputDrvs == d.inputDrvs && e.dynamicInputs == d.dynamicInputs
    ensures RowsOf(e, paths) == RowsOf(d, paths)
  {
    assert forall p :: InputNodeOf(e, p) == InputNodeOf(d, p);
  }

  lemma SameProgram(d: Derivation, rest: string)
    ensures PrintProgram(d.(env := MaskedEnv(d)), rest) == PrintProgram(Masked(d), rest)
  {
  }

  /** The masked text is the text of the derivation with its output paths
      blanked, so it does not depend on them. */
  lemma MaskingBlanks(d: Derivation, rest: string)
    ensures UnparseFor(d, true, None, rest) == Unparse(Masked(d), rest)
    ensures UnparseFor(d, false, None, rest) == Unparse(d, rest)
  {
    SortBlanked(d.outputs);
    SameInputs(d);
    ListedBlanked(ByName(d.outputs), "," + Listed(PrintInput, InputRows(d), "," + Listed(PrintPath, Sorted(d.inputSrcs),
      "," + PrintProgram(d.(env := MaskedEnv(d)), rest))));
    SameProgram(d, rest);
  }
}
