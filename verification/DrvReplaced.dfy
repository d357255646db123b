/** The text that is hashed: the order of its rows, and the inputs that stand for
    the derivation's own. */
module DrvReplaced {
  import opened Wrappers
  import opened Ordering
  import opened DrvText
  import opened Drv
  import opened DrvRoundTrip
  import DrvPrint

  lemma SortedAscends(keys: set<string>, i: nat, j: nat)
    requires i < j < |Sorted(keys)|
    ensures Le(Sorted(keys)[i], Sorted(keys)[j]) && Sorted(keys)[i] != Sorted(keys)[j]
  {
  }

  lemma SortedFrom(keys: set<string>, i: nat)
    requires i < |Sorted(keys)|
    ensures Sorted(keys)[i] in keys
  {
    assert Sorted(keys)[i] in Elements(Sorted(keys));
  }

  /** Inputs are printed in strictly ascending order, one row for each path. */
  lemma InputRowsAscend(d: Derivation, i: nat, j: nat)
    requires i < j < |InputRows(d)|
    ensures Le(InputRows(d)[i].path, InputRows(d)[j].path) && InputRows(d)[i].path != InputRows(d)[j].path
    ensures InputRows(d)[i].path in d.inputDrvs || InputRows(d)[i].path in d.dynamicInputs
    ensures |InputRows(d)| == |d.inputDrvs.Keys + d.dynamicInputs.Keys|
  {
    SortedAscends(InputPaths(d), i, j);
    SortedFrom(InputPaths(d), i);
  }

  /** So is the environment, each key with its value. */
  lemma EnvRowsAscend(env: map<string, string>, i: nat, j: nat)
    requires i < j < |EnvRows(env)|
    ensures Le(EnvRows(env)[i].key, EnvRows(env)[j].key) && EnvRows(env)[i].key != EnvRows(env)[j].key
    ensures EnvRows(env)[i].key in env && EnvRows(env)[i].value == env[EnvRows(env)[i].key]
    ensures |EnvRows(env)| == |env.Keys|
  {
    SortedAscends(env.Keys, i, j);
    SortedFrom(env.Keys, i);
  }

  lemma ReplacementsAscend(m: map<string, InputNode>, i: nat, j: nat)
    requires i < j < |ActualRows(m)|
    ensures Le(ActualRows(m)[i].path, ActualRows(m)[j].path) && ActualRows(m)[i].path != ActualRows(m)[j].path
  {
    SortedAscends(m.Keys, i, j);
  }

  /** Replacement inputs as the hash builds them: a name that is no absolute path,
      with plain output names. */
  ghost predicate Replaces(m: map<string, InputNode>) {
    forall k :: k in m ==> m[k].Flat? && AllPlain(m[k].outputs) && PlainField(k) && !StartsWith(k, "/")
  }

  lemma SlashLeads(k: string)
    ensures StartsWith(k, STORE_PREFIX) ==> StartsWith(k, "/")
  {
    if StartsWith(k, STORE_PREFIX) { assert k[0] == k[..|STORE_PREFIX|][0] == '/'; }
  }

  lemma ActualReads(i: InputRow, rest: string)
    requires i.node.Flat? && AllPlain(i.node.outputs) && PlainField(i.path) && !StartsWith(i.path, "/")
    ensures ReadSimpleInput(PrintActual(i, rest)) == Some(Parsed(i, rest)) && Solid(PrintActual(i, rest))
  {
    var node := PrintInputNode(i.node, ")" + rest);
    var text := Quoted(i.path, "," + node);
    LeadSolid('(', text);
    ExpectLead("(", text);
    ReadPlain(i.path, "," + node);
    SlashLeads(i.path);
    assert ReadPathString(text) == Some(Parsed(i.path, "," + node));
    ExpectLead(",", node);
    InputNodeReads(i.node, ")" + rest);
    ExpectLead(")", rest);
  }

  lemma ActualRowIs(m: map<string, InputNode>, i: InputRow)
    requires i in ActualRows(m)
    ensures i.path in m && i.node == m[i.path]
  {
    var keys := Sorted(m.Keys);
    assert forall k :: k in keys ==> k in Elements(keys);
    var n :| 0 <= n < |keys| && ActualRows(m)[n] == i;
    assert keys[n] in keys;
  }

  lemma ActualListReads(m: map<string, InputNode>, rest: string)
    requires Replaces(m)
    ensures ReadList(ReadSimpleInput, Listed(PrintActual, ActualRows(m), rest)) == Some(Parsed(ActualRows(m), rest))
    ensures Solid(Listed(PrintActual, ActualRows(m), rest))
  {
    forall i | i in ActualRows(m)
      ensures ReadsBack(ReadSimpleInput, PrintActual, i)
    {
      ActualRowIs(m, i);
      forall more
        ensures ReadSimpleInput(PrintActual(i, more)) == Some(Parsed(i, more)) && Solid(PrintActual(i, more))
      { ActualReads(i, more); }
    }
    ListReads(ReadSimpleInput, PrintActual, ActualRows(m), rest);
  }

  function Outputs(m: map<string, InputNode>): map<string, seq<string>>
    requires Replaces(m)
  {
    map k | k in m :: m[k].outputs
  }

  lemma ActualFront(m: map<string, InputNode>, front: seq<string>, last: string)
    requires last in m && forall k :: k in front ==> k in m
    ensures forall k :: k in front + [last] ==> k in m
    ensures ActualRowsOf(m, front + [last])[..|front|] == ActualRowsOf(m, front)
    ensures ActualRowsOf(m, front + [last])[|front|] == InputRow(last, m[last])
  {
  }

  lemma {:induction false} ActualMaps(m: map<string, InputNode>, keys: seq<string>)
    requires Replaces(m) && NoDuplicates(keys) && forall k :: k in keys ==> k in m
    ensures DynamicOf(ActualRowsOf(m, keys)) == map[]
    ensures SimpleOf(ActualRowsOf(m, keys)).Keys == Elements(keys)
    ensures forall k :: k in keys ==> SimpleOf(ActualRowsOf(m, keys))[k] == m[k].outputs
    decreases |keys|
  {
    if |keys| > 0 {
      var front, last := keys[..|keys| - 1], keys[|keys| - 1];
      assert keys == front + [last];
      ActualMaps(m, front);
      ActualFront(m, front, last);
      ElementsConcat(front, [last]);
      assert SimpleOf(ActualRowsOf(m, keys)) == SimpleOf(ActualRowsOf(m, front))[last := m[last].outputs];
    }
  }

  lemma ActualMap(m: map<string, InputNode>)
    requires Replaces(m)
    ensures SimpleOf(ActualRows(m)) == Outputs(m) && DynamicOf(ActualRows(m)) == map[]
  {
    var keys := Sorted(m.Keys);
    assert forall k :: k in keys <==> k in Elements(keys);
    ActualMaps(m, keys);
    var s := SimpleOf(ActualRows(m));
    assert forall k :: k in s <==> k in m;
    SameMap(s, Outputs(m));
  }

  /** What the text with replacement inputs says. */
  function Standing(d: Derivation, m: map<string, InputNode>): Derivation
    requires Replaces(m)
  {
    d.(outputs := ByName(d.outputs), inputDrvs := Outputs(m), dynamicInputs := map[], isDynamic := false)
  }

  lemma ReplacedFieldsRead(d: Derivation, m: map<string, InputNode>, rest: string)
    requires Replaces(m) && OutputsArePlain(d) && PlainField(d.platform) && forall p :: p in d.inputSrcs ==> PlainField(PathText(p))
    ensures var fields := Listed(PrintOutput, ByName(d.outputs), "," + Listed(PrintActual, ActualRows(m),
              "," + Listed(PrintPath, Sorted(d.inputSrcs), "," + PrintProgram(d, rest))));
            ReadFields(fields, false) == Some(Parsed(Standing(d, m), rest)) && Solid(fields)
  {
    var program := PrintProgram(d, rest);
    var srcs := Listed(PrintPath, Sorted(d.inputSrcs), "," + program);
    var inputs := Listed(PrintActual, ActualRows(m), "," + srcs);
    OutputsRead(d, "," + inputs);
    ActualListReads(m, "," + srcs);
    CommaThen(inputs);
    SourcesRead(d.(inputDrvs := map[], dynamicInputs := map[]), "," + program);
    CommaThen(srcs);
    ProgramReads(d, rest);
    QuotedSolid(d.platform, "," + Quoted(Escape(d.builder), "," + Listed(PrintEscaped, d.args, "," + PrintEnv(d, rest))));
    CommaThen(program);
    ActualMap(m);
  }

  lemma SamePathsBlank(d: Derivation, e: Derivation)
    requires |d.outputs| == |e.outputs|
    requires forall i :: 0 <= i < |d.outputs| ==>
               d.outputs[i].name == e.outputs[i].name && d.outputs[i].hashAlgo == e.outputs[i].hashAlgo
               && d.outputs[i].hashValue == e.outputs[i].hashValue
    requires d.env.Keys == e.env.Keys
    requires forall k :: k in d.env && (forall i :: 0 <= i < |d.outputs| ==> d.outputs[i].name != k) ==> d.env[k] == e.env[k]
    ensures Blanked(d.outputs) == Blanked(e.outputs) && MaskedEnv(d) == MaskedEnv(e)
  {
    forall k
      ensures k in OutputNames(d) <==> exists i :: 0 <= i < |d.outputs| && d.outputs[i].name == k
      ensures k in OutputNames(e) <==> exists i :: 0 <= i < |d.outputs| && d.outputs[i].name == k
    {
      NamedAt(d, k);
      NamedAt(e, k);
      assert forall i :: 0 <= i < |d.outputs| ==> d.outputs[i].name == e.outputs[i].name;
    }
  }

  lemma NamedAt(d: Derivation, k: string)
    ensures k in OutputNames(d) <==> exists i :: 0 <= i < |d.outputs| && d.outputs[i].name == k
  {
    if k in OutputNames(d) {
      var o :| o in d.outputs && o.name == k;
      var i :| 0 <= i < |d.outputs| && d.outputs[i] == o;
      assert d.outputs[i].name == k;
    }
    forall i | 0 <= i < |d.outputs| && d.outputs[i].name == k
      ensures k in OutputNames(d)
    { assert d.outputs[i] in d.outputs; }
  }

  /** The masked text does not depend on the output paths, neither in the outputs
      nor in the environment. */
  lemma MaskedIgnoresPaths(d: Derivation, e: Derivation, actual: Option<map<string, InputNode>>, rest: string)
    requires |d.outputs| == |e.outputs|
    requires forall i :: 0 <= i < |d.outputs| ==>
               d.outputs[i].name == e.outputs[i].name && d.outputs[i].hashAlgo == e.outputs[i].hashAlgo
               && d.outputs[i].hashValue == e.outputs[i].hashValue
    requires d.env.Keys == e.env.Keys
    requires forall k :: k in d.env && (forall i :: 0 <= i < |d.outputs| ==> d.outputs[i].name != k) ==> d.env[k] == e.env[k]
    requires e.inputDrvs == d.inputDrvs && e.dynamicInputs == d.dynamicInputs && e.inputSrcs == d.inputSrcs
    requires e.platform == d.platform && e.builder == d.builder && e.args == d.args
    ensures UnparseFor(d, true, actual, rest) == UnparseFor(e, true, actual, rest)
  {
    SamePathsBlank(d, e);
    DrvPrint.RowsIgnoreTheRest(d, e, Sorted(InputPaths(d)));
    SameMaskedProgram(d, e, rest);
    var more := "," + PrintInputs(d, actual, "," + Listed(PrintPath, Sorted(d.inputSrcs),
      "," + PrintProgram(d.(env := MaskedEnv(d)), rest)));
    DrvPrint.SortBlanked(d.outputs);
    DrvPrint.SortBlanked(e.outputs);
    DrvPrint.ListedBlanked(ByName(d.outputs), more);
    DrvPrint.ListedBlanked(ByName(e.outputs), more);
  }

  lemma SameMaskedProgram(d: Derivation, e: Derivation, rest: string)
    requires MaskedEnv(d) == MaskedEnv(e) && e.platform == d.platform && e.builder == d.builder && e.args == d.args
    ensures PrintProgram(d.(env := MaskedEnv(d)), rest) == PrintProgram(e.(env := MaskedEnv(e)), rest)
  {
  }

  /** The text that is hashed for a derivation without dynamic inputs: read back,
      it is the derivation with the replacements as its inputs, and with its
      output paths blanked when it is masked. */
  lemma ReplacedComesBack(d: Derivation, mask: bool, m: map<string, InputNode>, rest: string)
    requires d.dynamicInputs == map[] && Replaces(m)
    requires OutputsArePlain(d) && PlainField(d.platform) && forall p :: p in d.inputSrcs ==> PlainField(PathText(p))
    ensures ParseDerivation(UnparseFor(d, mask, Some(m), rest))
         == Some(Parsed(Standing(if mask then Masked(d) else d, m), rest))
  {
    var e := if mask then Masked(d) else d;
    if mask {
      DrvPrint.SortBlanked(d.outputs);
      DrvPrint.SameProgram(d, rest);
      DrvPrint.ListedBlanked(ByName(d.outputs), "," + Listed(PrintActual, ActualRows(m),
        "," + Listed(PrintPath, Sorted(d.inputSrcs), "," + PrintProgram(d.(env := MaskedEnv(d)), rest))));
      BlankedArePlain(d);
    }
    ReplacedFieldsRead(e, m, rest);
    PlainFormatReads(FieldsFor(d, mask, Some(m), rest));
  }

  lemma BlankedArePlain(d: Derivation)
    requires OutputsArePlain(d)
    ensures OutputsArePlain(Masked(d))
  {
    forall o | o in Masked(d).outputs
      ensures PlainOutput(o)
    {
      var k :| 0 <= k < |d.outputs| && Masked(d).outputs[k] == o;
      assert d.outputs[k] in d.outputs;
    }
  }
}
