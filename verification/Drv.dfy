/** Derivations, their text, and what the recursive-descent parser reads. The
    printing functions take the text that follows. Store paths are held as
    their base names. */
module Drv {
  import opened Wrappers
  import opened Ordering
  import opened DrvText

  datatype Output = Output(name: string, path: string, hashAlgo: string, hashValue: string)

  /** A node of a dynamic input: outputs of its own, and children by name. */
  datatype Node = Node(outputs: seq<string>, children: map<string, Node>)

  datatype Derivation = Derivation(
    outputs: seq<Output>,
    inputDrvs: map<string, seq<string>>,
    inputSrcs: set<string>,
    platform: string,
    builder: string,
    args: seq<string>,
    env: map<string, string>,
    isDynamic: bool,
    dynamicInputs: map<string, Node>)

  /** One input in the text: plain outputs, or a node. */
  datatype InputNode = Flat(outputs: seq<string>) | Deep(node: Node)
  datatype InputRow = InputRow(path: string, node: InputNode)
  datatype EnvRow = EnvRow(key: string, value: string)

  // ---- store paths ----

  const STORE_PREFIX: string := "/nix/store/"

  function PathText(base: string): string {
    if base == "" then "" else STORE_PREFIX + base
  }

  predicate StartsWith(s: string, lead: string) {
    |lead| <= |s| && s[..|lead|] == lead
  }

  /** The base name; an absolute path of another store is refused. */
  function ReadPath(s: string): Option<string> {
    if StartsWith(s, STORE_PREFIX) then Some(s[|STORE_PREFIX|..])
    else if StartsWith(s, "/") then None
    else Some(s)
  }

  /** What a path text may be read as: the base name behind the store directory,
      or a text that is no absolute path. */
  lemma PathReadIff(s: string, base: string)
    ensures ReadPath(s) == Some(base) <==>
              s == "/nix/store/" + base || (s == base && (s == "" || s[0] != '/'))
  {
    if ReadPath(s) == Some(base) && StartsWith(s, STORE_PREFIX) { assert s == STORE_PREFIX + base; }
    if s == STORE_PREFIX + base { Cut(STORE_PREFIX, base); }
    assert StartsWith(s, STORE_PREFIX) ==> s[0] == s[..|STORE_PREFIX|][0];
    assert StartsWith(s, "/") <==> s != "" && s[0] == '/' by {
      if s != "" { assert s[..1] == [s[0]]; }
    }
  }

  lemma PathReadsBack(base: string)
    ensures ReadPath(PathText(base)) == Some(base)
  {
    if base != "" { Cut(STORE_PREFIX, base); }
  }

  lemma Cut(a: string, b: string)
    ensures StartsWith(a + b, a) && (a + b)[|a|..] == b
  {
  }

  /** Sorting by the whole path is sorting by the base name. */
  lemma PathsKeepOrder(a: string, b: string)
    ensures Le(PathText(a), PathText(b)) <==> Le(a, b)
  {
    if a != "" && b != "" { SamePrefix(STORE_PREFIX, a, b); }
  }

  lemma {:induction false} SamePrefix(p: string, a: string, b: string)
    ensures Le(p + a, p + b) <==> Le(a, b)
  {
    if |p| == 0 {
      assert p + a == a && p + b == b;
    } else {
      assert (p + a)[1..] == p[1..] + a && (p + b)[1..] == p[1..] + b;
      SamePrefix(p[1..], a, b);
    }
  }

  // ---- printing ----

  function Tail<T>(show: (T, string) -> string, vs: seq<T>, rest: string): string {
    if |vs| == 0 then rest else "," + show(vs[0], Tail(show, vs[1..], rest))
  }

  /** The items with commas between them. */
  function Joined<T>(show: (T, string) -> string, vs: seq<T>, rest: string): string {
    if |vs| == 0 then rest else show(vs[0], Tail(show, vs[1..], rest))
  }

  function Listed<T>(show: (T, string) -> string, vs: seq<T>, rest: string): string {
    "[" + Joined(show, vs, "]" + rest)
  }

  function PrintPlain(s: string, rest: string): string {
    Quoted(s, rest)
  }

  function PrintEscaped(s: string, rest: string): string {
    Quoted(Escape(s), rest)
  }

  function PrintPath(base: string, rest: string): string {
    Quoted(PathText(base), rest)
  }

  function PrintOutput(o: Output, rest: string): string {
    "(" + Quoted(o.name, "," + Quoted(o.path, "," + Quoted(o.hashAlgo, "," + Quoted(o.hashValue, ")" + rest))))
  }

  function PrintEnvRow(e: EnvRow, rest: string): string {
    "(" + Quoted(Escape(e.key), "," + Quoted(Escape(e.value), ")" + rest))
  }

  /** `_unparse_derived_path_node` of a dynamic entry. */
  function PrintNode(n: Node, rest: string): string
    decreases n, 1
  {
    "(" + Listed(PrintPlain, n.outputs, ",[" + PrintChildren(n, Sorted(n.children.Keys), "])" + rest))
  }

  function PrintChild(n: Node, name: string, rest: string): string
    requires name in n.children
    decreases n, 0, 0
  {
    "(" + Quoted(name, "," + PrintNode(n.children[name], ")" + rest))
  }

  function PrintChildren(n: Node, names: seq<string>, rest: string): string
    requires forall name :: name in names ==> name in n.children
    decreases n, 0, |names|
  {
    if |names| == 0 then rest else PrintChild(n, names[0], PrintMoreChildren(n, names[1..], rest))
  }

  function PrintMoreChildren(n: Node, names: seq<string>, rest: string): string
    requires forall name :: name in names ==> name in n.children
    decreases n, 0, |names|
  {
    if |names| == 0 then rest else "," + PrintChild(n, names[0], PrintMoreChildren(n, names[1..], rest))
  }

  function PrintInputNode(n: InputNode, rest: string): string {
    match n
    case Flat(outputs) => Listed(PrintPlain, outputs, rest)
    case Deep(node) => PrintNode(node, rest)
  }

  function PrintInput(i: InputRow, rest: string): string {
    "(" + Quoted(PathText(i.path), "," + PrintInputNode(i.node, ")" + rest))
  }

  predicate NameLe(a: Output, b: Output) {
    Le(a.name, b.name)
  }

  function ByName(outputs: seq<Output>): seq<Output> {
    SortBy(NameLe, outputs)
  }

  function InputPaths(d: Derivation): set<string> {
    d.inputDrvs.Keys + d.dynamicInputs.Keys
  }

  function PlainOutputs(d: Derivation, path: string): seq<string> {
    if path in d.inputDrvs then d.inputDrvs[path] else []
  }

  /** `_child_map_to_drv_node`: the plain outputs go in front. */
  function InputNodeOf(d: Derivation, path: string): InputNode {
    if path in d.dynamicInputs then
      var n := d.dynamicInputs[path];
      Deep(n.(outputs := PlainOutputs(d, path) + n.outputs))
    else Flat(PlainOutputs(d, path))
  }

  function RowsOf(d: Derivation, paths: seq<string>): (rows: seq<InputRow>)
    ensures |rows| == |paths|
  {
    seq(|paths|, i requires 0 <= i < |paths| => InputRow(paths[i], InputNodeOf(d, paths[i])))
  }

  function InputRows(d: Derivation): seq<InputRow> {
    RowsOf(d, Sorted(InputPaths(d)))
  }

  function EnvRowsOf(env: map<string, string>, keys: seq<string>): (rows: seq<EnvRow>)
    requires forall k :: k in keys ==> k in env
    ensures |rows| == |keys|
  {
    seq(|keys|, i requires 0 <= i < |keys| => EnvRow(keys[i], env[keys[i]]))
  }

  function EnvRows(env: map<string, string>): seq<EnvRow> {
    var keys := Sorted(env.Keys);
    assert forall k :: k in keys ==> k in Elements(keys);
    EnvRowsOf(env, keys)
  }

  function PrintEnv(d: Derivation, rest: string): string {
    Listed(PrintEnvRow, EnvRows(d.env), ")" + rest)
  }

  function PrintProgram(d: Derivation, rest: string): string {
    Quoted(d.platform, "," + Quoted(Escape(d.builder), "," + Listed(PrintEscaped, d.args, "," + PrintEnv(d, rest))))
  }

  function PrintFields(d: Derivation, rest: string): string {
    Listed(PrintOutput, ByName(d.outputs), "," + Listed(PrintInput, InputRows(d),
      "," + Listed(PrintPath, Sorted(d.inputSrcs), "," + PrintProgram(d, rest))))
  }

  const VERSION: string := "xp-dyn-drv"

  /** `Derivation.unparse`, and the text behind it. */
  function Unparse(d: Derivation, rest: string): string {
    if d.dynamicInputs != map[] then "DrvWithVersion(" + Quoted(VERSION, "," + PrintFields(d, rest))
    else "Derive(" + PrintFields(d, rest)
  }

  // ---- the text that is hashed ----

  function PrintMaskedOutput(o: Output, rest: string): string {
    PrintOutput(o.(path := ""), rest)
  }

  function OutputNames(d: Derivation): set<string> {
    set o | o in d.outputs :: o.name
  }

  function MaskedEnv(d: Derivation): map<string, string> {
    map k | k in d.env :: if k in OutputNames(d) then "" else d.env[k]
  }

  /** A replacement input: its key is printed as it is. */
  function PrintActual(i: InputRow, rest: string): string {
    "(" + Quoted(i.path, "," + PrintInputNode(i.node, ")" + rest))
  }

  function ActualRowsOf(actual: map<string, InputNode>, keys: seq<string>): (rows: seq<InputRow>)
    requires forall k :: k in keys ==> k in actual
    ensures |rows| == |keys|
  {
    seq(|keys|, i requires 0 <= i < |keys| => InputRow(keys[i], actual[keys[i]]))
  }

  function ActualRows(actual: map<string, InputNode>): seq<InputRow> {
    var keys := Sorted(actual.Keys);
    assert forall k :: k in keys ==> k in Elements(keys);
    ActualRowsOf(actual, keys)
  }

  function PrintInputs(d: Derivation, actual: Option<map<string, InputNode>>, rest: string): string {
    match actual
    case None => Listed(PrintInput, InputRows(d), rest)
    case Some(m) => Listed(PrintActual, ActualRows(m), rest)
  }

  function FieldsFor(d: Derivation, mask: bool, actual: Option<map<string, InputNode>>, rest: string): string {
    Listed(if mask then PrintMaskedOutput else PrintOutput, ByName(d.outputs),
      "," + PrintInputs(d, actual, "," + Listed(PrintPath, Sorted(d.inputSrcs),
      "," + PrintProgram(if mask then d.(env := MaskedEnv(d)) else d, rest))))
  }

  /** `unparse` with its two arguments: masked output paths, and inputs that
      replace those of the derivation. The format is still its own. */
  function UnparseFor(d: Derivation, mask: bool, actual: Option<map<string, InputNode>>, rest: string): string {
    var fields := FieldsFor(d, mask, actual, rest);
    if d.dynamicInputs != map[] then "DrvWithVersion(" + Quoted(VERSION, "," + fields) else "Derive(" + fields
  }

  /** The derivation with its output paths blanked, in the outputs and in the
      environment. */
  function Masked(d: Derivation): (e: Derivation)
    ensures forall k :: k in e.env <==> k in d.env
    ensures forall k :: k in d.env ==> e.env[k] == if exists o :: o in d.outputs && o.name == k then "" else d.env[k]
  {
    d.(outputs := Blanked(d.outputs), env := MaskedEnv(d))
  }

  function Blanked(outputs: seq<Output>): (r: seq<Output>)
    ensures |r| == |outputs|
  {
    seq(|outputs|, i requires 0 <= i < |outputs| => outputs[i].(path := ""))
  }

  // ---- reading ----

  predicate IsSpace(c: char) {
    c in {' ', '\t', '\n', '\r'}
  }

  function SkipSpace(s: string): (r: string)
    ensures |r| <= |s|
  {
    if |s| > 0 && IsSpace(s[0]) then SkipSpace(s[1..]) else s
  }

  function Comma(s: string): (r: Option<string>)
    ensures r.Some? ==> |r.value| < |s|
  {
    var rest :- Expect(s, ",");
    Some(SkipSpace(rest))
  }

  /** In a list: does another item follow, and where? `any` says that one came
      before, so that a comma has to come first. */
  function NextItem(s: string, any: bool): (r: Option<Parsed<bool>>)
    ensures r.Some? ==> |r.value.rest| <= |s| && (!r.value.value ==> |r.value.rest| < |s|)
  {
    if |s| == 0 then None
    else if s[0] == ']' then Some(Parsed(false, s[1..]))
    else if any then
      var rest :- Comma(s);
      Some(Parsed(true, rest))
    else Some(Parsed(true, SkipSpace(s)))
  }

  ghost predicate Consumes<T(!new)>(item: string -> Option<Parsed<T>>) {
    forall s :: item(s).Some? ==> |item(s).value.rest| < |s|
  }

  function Items<T(!new)>(item: string -> Option<Parsed<T>>, s: string, read: seq<T>): (r: Option<Parsed<seq<T>>>)
    requires Consumes(item)
    ensures r.Some? ==> |r.value.rest| < |s|
    decreases |s|
  {
    var next :- NextItem(s, |read| > 0);
    if !next.value then Some(Parsed(read, next.rest)) else
      var x :- item(next.rest);
      Items(item, SkipSpace(x.rest), read + [x.value])
  }

  function ReadList<T(!new)>(item: string -> Option<Parsed<T>>, s: string): (r: Option<Parsed<seq<T>>>)
    requires Consumes(item)
    ensures r.Some? ==> |r.value.rest| < |s|
  {
    var rest :- Expect(s, "[");
    Items(item, SkipSpace(rest), [])
  }

  function ReadStrings(s: string): (r: Option<Parsed<seq<string>>>)
    ensures r.Some? ==> |r.value.rest| < |s|
  {
    ReadList(ReadString, s)
  }

  function ReadPathString(s: string): (r: Option<Parsed<string>>)
    ensures r.Some? ==> |r.value.rest| < |s|
  {
    var text :- ReadString(s);
    var base :- ReadPath(text.value);
    Some(Parsed(base, text.rest))
  }

  function ReadOutput(s: string): (r: Option<Parsed<Output>>)
    ensures r.Some? ==> |r.value.rest| < |s|
  {
    var s0 :- Expect(s, "(");
    var name :- ReadString(s0);
    var s1 :- Expect(name.rest, ",");
    var path :- ReadString(s1);
    var s2 :- Expect(path.rest, ",");
    var algo :- ReadString(s2);
    var s3 :- Expect(algo.rest, ",");
    var hash :- ReadString(s3);
    var end :- Expect(hash.rest, ")");
    Some(Parsed(Output(name.value, path.value, algo.value, hash.value), end))
  }

  function ReadEnvRow(s: string): (r: Option<Parsed<EnvRow>>)
    ensures r.Some? ==> |r.value.rest| < |s|
  {
    var s0 :- Expect(s, "(");
    var key :- ReadString(s0);
    var s1 :- Expect(key.rest, ",");
    var value :- ReadString(s1);
    var end :- Expect(value.rest, ")");
    Some(Parsed(EnvRow(key.value, value.value), end))
  }

  /** `_parse_child_value`: a leaf or a nested node. */
  function ReadChildValue(s: string): (r: Option<Parsed<Node>>)
    ensures r.Some? ==> |r.value.rest| < |s|
    decreases |s|, 2
  {
    if |s| == 0 then None
    else if s[0] == '[' then
      var outputs :- ReadStrings(s);
      Some(Parsed(Node(outputs.value, map[]), outputs.rest))
    else if s[0] == '(' then ReadNode(s)
    else None
  }

  /** `_parse_child_map_node`, at its parenthesis. */
  function ReadNode(s: string): (r: Option<Parsed<Node>>)
    requires |s| > 0
    ensures r.Some? ==> |r.value.rest| < |s|
    decreases |s|, 1
  {
    var outputs :- ReadStrings(SkipSpace(s[1..]));
    var s1 :- Expect(outputs.rest, ",");
    var s2 :- Expect(s1, "[");
    var children :- ReadChildren(SkipSpace(s2), map[]);
    var end :- Expect(children.rest, ")");
    Some(Parsed(Node(outputs.value, children.value), end))
  }

  function ReadChild(s: string): (r: Option<Parsed<(string, Node)>>)
    ensures r.Some? ==> |r.value.rest| < |s|
    decreases |s|, 3
  {
    var s1 :- Expect(s, "(");
    var name :- ReadString(s1);
    var s2 :- Expect(name.rest, ",");
    var child :- ReadChildValue(s2);
    var end :- Expect(child.rest, ")");
    Some(Parsed((name.value, child.value), end))
  }

  function ReadChildren(s: string, read: map<string, Node>): (r: Option<Parsed<map<string, Node>>>)
    ensures r.Some? ==> |r.value.rest| < |s|
    decreases |s|, 4
  {
    var next :- NextItem(s, read != map[]);
    if !next.value then Some(Parsed(read, next.rest)) else
      var child :- ReadChild(next.rest);
      ReadChildren(SkipSpace(child.rest), read[child.value.0 := child.value.1])
  }

  function ReadSimpleInput(s: string): (r: Option<Parsed<InputRow>>)
    ensures r.Some? ==> |r.value.rest| < |s| && r.value.value.node.Flat?
  {
    var s0 :- Expect(s, "(");
    var path :- ReadPathString(s0);
    var s1 :- Expect(path.rest, ",");
    var outputs :- ReadStrings(s1);
    var end :- Expect(outputs.rest, ")");
    Some(Parsed(InputRow(path.value, Flat(outputs.value)), end))
  }

  function ReadInputNode(s: string): (r: Option<Parsed<InputNode>>)
    ensures r.Some? ==> |r.value.rest| < |s|
  {
    if |s| == 0 then None
    else if s[0] == '[' then
      var outputs :- ReadStrings(s);
      Some(Parsed(Flat(outputs.value), outputs.rest))
    else if s[0] == '(' then
      var node :- ReadNode(s);
      Some(Parsed(Deep(node.value), node.rest))
    else None
  }

  function ReadDynamicInput(s: string): (r: Option<Parsed<InputRow>>)
    ensures r.Some? ==> |r.value.rest| < |s|
  {
    var s0 :- Expect(s, "(");
    var path :- ReadPathString(s0);
    var s1 :- Comma(path.rest);
    var node :- ReadInputNode(s1);
    var end :- Expect(node.rest, ")");
    Some(Parsed(InputRow(path.value, node.value), end))
  }

  /** A dictionary filled row by row: a later row replaces an earlier one. */
  function EnvOf(rows: seq<EnvRow>): map<string, string> {
    if |rows| == 0 then map[] else
      var last := rows[|rows| - 1];
      EnvOf(rows[..|rows| - 1])[last.key := last.value]
  }

  function SimpleOf(rows: seq<InputRow>): map<string, seq<string>> {
    if |rows| == 0 then map[] else
      var last, before := rows[|rows| - 1], SimpleOf(rows[..|rows| - 1]);
      if last.node.Flat? then before[last.path := last.node.outputs] else before
  }

  function DynamicOf(rows: seq<InputRow>): map<string, Node> {
    if |rows| == 0 then map[] else
      var last, before := rows[|rows| - 1], DynamicOf(rows[..|rows| - 1]);
      if last.node.Deep? then before[last.path := last.node.node] else before
  }

  /** The last row of a key decides, in each of the three dictionaries. */
  lemma {:induction false} LastEnvRowWins(rows: seq<EnvRow>, i: nat)
    requires i < |rows| && forall j :: i < j < |rows| ==> rows[j].key != rows[i].key
    ensures rows[i].key in EnvOf(rows) && EnvOf(rows)[rows[i].key] == rows[i].value
    decreases |rows|
  {
    if i < |rows| - 1 { LastEnvRowWins(rows[..|rows| - 1], i); }
  }

  lemma {:induction false} LastInputRowWins(rows: seq<InputRow>, i: nat)
    requires i < |rows| && forall j :: i < j < |rows| ==> rows[j].path != rows[i].path
    ensures rows[i].node.Flat? ==> rows[i].path in SimpleOf(rows) && SimpleOf(rows)[rows[i].path] == rows[i].node.outputs
    ensures rows[i].node.Deep? ==> rows[i].path in DynamicOf(rows) && DynamicOf(rows)[rows[i].path] == rows[i].node.node
    decreases |rows|
  {
    if i < |rows| - 1 { LastInputRowWins(rows[..|rows| - 1], i); }
  }

  datatype Program = Program(platform: string, builder: string, args: seq<string>, env: map<string, string>)

  /** Platform, builder, arguments and environment, to the end of the term. */
  function ReadProgram(s: string): Option<Parsed<Program>> {
    var platform :- ReadString(s);
    var s1 :- Comma(platform.rest);
    var builder :- ReadString(s1);
    var s2 :- Comma(builder.rest);
    var args :- ReadStrings(s2);
    var s3 :- Comma(args.rest);
    var env :- ReadList(ReadEnvRow, s3);
    var end :- Expect(SkipSpace(env.rest), ")");
    Some(Parsed(Program(platform.value, builder.value, args.value, EnvOf(env.value)), end))
  }

  function ReadInputs(s: string, dynamic: bool): Option<Parsed<seq<InputRow>>> {
    if dynamic then ReadList(ReadDynamicInput, s) else ReadList(ReadSimpleInput, s)
  }

  function ReadFields(s: string, dynamic: bool): Option<Parsed<Derivation>> {
    var outputs :- ReadList(ReadOutput, s);
    var s1 :- Comma(outputs.rest);
    var inputs :- ReadInputs(s1, dynamic);
    var s2 :- Comma(inputs.rest);
    var srcs :- ReadList(ReadPathString, s2);
    var s3 :- Comma(srcs.rest);
    var p :- ReadProgram(s3);
    Some(Parsed(Derivation(outputs.value, SimpleOf(inputs.value), Elements(srcs.value), p.value.platform, p.value.builder,
                           p.value.args, p.value.env, dynamic, DynamicOf(inputs.value)), p.rest))
  }

  /** `parse_derivation`. Text behind the term is not looked at. */
  function ParseDerivation(text: string): Option<Parsed<Derivation>> {
    var s := SkipSpace(text);
    if StartsWith(s, "DrvWithVersion(") then
      var s1 :- Expect(s, "DrvWithVersion(");
      var version :- ReadString(SkipSpace(s1));
      if version.value != VERSION then None else
        var s2 :- Comma(version.rest);
        ReadFields(s2, true)
    else
      var s1 :- Expect(s, "Derive(");
      ReadFields(SkipSpace(s1), false)
  }
}
