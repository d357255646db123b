/** Counting quotes and backslashes. Whatever text the parser reads, each string
    it finds costs two quotes, and one more quote and backslash for each quote in
    the string. So a derivation that comes back from its own text can hold
    neither in a field that is written without escapes, but for backslashes that
    stand for themselves. */
module DrvCounts {
  import opened Wrappers
  import opened Ordering
  import opened DrvText
  import opened Drv

  // ---- characters ----

  function Count(c: char, s: string): nat {
    if |s| == 0 then 0 else (if s[0] == c then 1 else 0) + Count(c, s[1..])
  }

  lemma {:induction false} CountConcat(c: char, a: string, b: string)
    ensures Count(c, a + b) == Count(c, a) + Count(c, b)
  {
    if |a| == 0 {
      assert a + b == b;
    } else {
      assert (a + b)[1..] == a[1..] + b;
      CountConcat(c, a[1..], b);
    }
  }

  /** What is counted of a string: the quotes of its text, the backslashes it
      takes at least to read it, the backslashes in it. */
  datatype Kind = Marks | Hards | Slashes

  function Of(k: Kind, s: string): nat {
    match k
    case Marks => 2 + Count('\"', s)
    case Hards => Count('\"', s) + Count('\\', s)
    case Slashes => Count('\\', s)
  }

  /** The character of a text that pays for a kind. */
  function Coin(k: Kind): char {
    if k.Marks? then '\"' else '\\'
  }

  predicate Unmarked(s: string) {
    forall i :: 0 <= i < |s| ==> s[i] != '\"' && s[i] != '\\'
  }

  lemma {:induction false} UnmarkedCounts(c: char, s: string)
    requires Unmarked(s) && c in {'\"', '\\'}
    ensures Count(c, s) == 0
  {
    if |s| > 0 { UnmarkedCounts(c, s[1..]); }
  }

  lemma LeadIsFree(k: Kind, lead: string, rest: string)
    requires Unmarked(lead)
    ensures Count(Coin(k), lead + rest) == Count(Coin(k), rest)
  {
    CountConcat(Coin(k), lead, rest);
    UnmarkedCounts(Coin(k), lead);
  }

  /** No quote in it means that it is plain. */
  predicate Calm(s: string) {
    Count('\"', s) == 0 ==> PlainField(s)
  }

  // ---- sums ----

  function Total<T>(size: (Kind, T) -> nat, k: Kind, vs: seq<T>): nat {
    if |vs| == 0 then 0 else size(k, vs[0]) + Total(size, k, vs[1..])
  }

  lemma {:induction false} TotalAppend<T>(size: (Kind, T) -> nat, k: Kind, vs: seq<T>, x: T)
    ensures Total(size, k, vs + [x]) == Total(size, k, vs) + size(k, x)
    decreases |vs|
  {
    if |vs| == 0 {
      assert (vs + [x])[1..] == [];
    } else {
      assert (vs + [x])[1..] == vs[1..] + [x];
      TotalAppend(size, k, vs[1..], x);
    }
  }

  lemma TotalLast<T>(size: (Kind, T) -> nat, k: Kind, vs: seq<T>)
    requires |vs| > 0
    ensures Total(size, k, vs) == Total(size, k, vs[..|vs| - 1]) + size(k, vs[|vs| - 1])
  {
    assert vs == vs[..|vs| - 1] + [vs[|vs| - 1]];
    TotalAppend(size, k, vs[..|vs| - 1], vs[|vs| - 1]);
  }

  function Sum(f: string -> nat, keys: set<string>): nat {
    if keys == {} then 0 else f(Least(keys)) + Sum(f, keys - {Least(keys)})
  }

  lemma LeastUnique(keys: set<string>, m: string)
    requires m in keys && forall x :: x in keys ==> Le(m, x)
    ensures Least(keys) == m
  {
    LeAntisymmetric(m, Least(keys));
  }

  lemma {:induction false} SumRemove(f: string -> nat, keys: set<string>, x: string)
    requires x in keys
    ensures Sum(f, keys) == f(x) + Sum(f, keys - {x})
    decreases |keys|
  {
    var m := Least(keys);
    if x != m {
      SumRemove(f, keys - {m}, x);
      LeastUnique(keys - {x}, m);
      assert keys - {m} - {x} == keys - {x} - {m};
    }
  }

  lemma {:induction false} SumLe(f: string -> nat, g: string -> nat, keys: set<string>)
    requires forall x :: x in keys ==> f(x) <= g(x)
    ensures Sum(f, keys) <= Sum(g, keys)
    ensures Sum(f, keys) == Sum(g, keys) ==> forall x :: x in keys ==> f(x) == g(x)
    decreases |keys|
  {
    if keys != {} {
      SumLe(f, g, keys - {Least(keys)});
      assert forall x :: x in keys ==> x == Least(keys) || x in keys - {Least(keys)};
    }
  }

  lemma SumSame(f: string -> nat, g: string -> nat, keys: set<string>)
    requires forall x :: x in keys ==> f(x) == g(x)
    ensures Sum(f, keys) == Sum(g, keys)
  {
    SumLe(f, g, keys);
    SumLe(g, f, keys);
  }

  lemma SumDrop(f: string -> nat, keys: set<string>, x: string)
    ensures Sum(f, keys - {x}) <= Sum(f, keys)
  {
    if x in keys { SumRemove(f, keys, x); } else { assert keys - {x} == keys; }
  }

  function Share(f: string -> nat, keys: set<string>, x: string): nat {
    if x in keys then f(x) else 0
  }

  lemma {:induction false} SumUnion(h: string -> nat, f: string -> nat, g: string -> nat, a: set<string>, b: set<string>)
    requires forall x :: x in a + b ==> h(x) <= Share(f, a, x) + Share(g, b, x)
    ensures Sum(h, a + b) <= Sum(f, a) + Sum(g, b)
    decreases |a + b|
  {
    if a + b != {} {
      var m := Least(a + b);
      assert (a + b) - {m} == (a - {m}) + (b - {m});
      SumUnion(h, f, g, a - {m}, b - {m});
      ShareOut(f, a, m);
      ShareOut(g, b, m);
    }
  }

  lemma ShareOut(f: string -> nat, keys: set<string>, x: string)
    ensures Sum(f, keys) == Share(f, keys, x) + Sum(f, keys - {x})
  {
    if x in keys { SumRemove(f, keys, x); } else { assert keys - {x} == keys; }
  }

  /** What an entry of a map counts. */
  function Entry<V>(size: (Kind, V) -> nat, k: Kind, m: map<string, V>, x: string): nat {
    if x in m then Of(k, x) + size(k, m[x]) else 0
  }

  function MapSum<V>(size: (Kind, V) -> nat, k: Kind, m: map<string, V>): nat {
    Sum(x => Entry(size, k, m, x), m.Keys)
  }

  lemma EmptySum<V>(size: (Kind, V) -> nat, k: Kind)
    ensures MapSum(size, k, map[]) == 0
  {
  }

  lemma MapUpdate<V>(size: (Kind, V) -> nat, k: Kind, m: map<string, V>, x: string, v: V)
    ensures MapSum(size, k, m[x := v]) <= MapSum(size, k, m) + Of(k, x) + size(k, v)
  {
    var m' := m[x := v];
    var f, f' := (y: string) => Entry(size, k, m, y), (y: string) => Entry(size, k, m', y);
    SumRemove(f', m'.Keys, x);
    assert m'.Keys - {x} == m.Keys - {x};
    SumLe(f', f, m.Keys - {x});
    SumDrop(f, m.Keys, x);
  }

  // ---- sizes ----

  function NodeSize(k: Kind, n: Node): nat
    decreases n
  {
    Total(Of, k, n.outputs) + Sum(x => if x in n.children then Of(k, x) + NodeSize(k, n.children[x]) else 0, n.children.Keys)
  }

  lemma NodeIs(k: Kind, n: Node)
    ensures NodeSize(k, n) == Total(Of, k, n.outputs) + MapSum(NodeSize, k, n.children)
  {
    SumSame(x => if x in n.children then Of(k, x) + NodeSize(k, n.children[x]) else 0,
            x => Entry(NodeSize, k, n.children, x), n.children.Keys);
  }

  function StringsSize(k: Kind, vs: seq<string>): nat {
    Total(Of, k, vs)
  }

  function InputNodeSize(k: Kind, n: InputNode): nat {
    match n
    case Flat(outputs) => StringsSize(k, outputs)
    case Deep(node) => NodeSize(k, node)
  }

  function RowSize(k: Kind, i: InputRow): nat {
    Of(k, i.path) + InputNodeSize(k, i.node)
  }

  function EnvRowSize(k: Kind, e: EnvRow): nat {
    Of(k, e.key) + Of(k, e.value)
  }

  function InputsSize(k: Kind, d: Derivation): nat {
    MapSum(StringsSize, k, d.inputDrvs) + MapSum(NodeSize, k, d.dynamicInputs)
  }

  function SourcesSize(k: Kind, d: Derivation): nat {
    Sum(x => Of(k, x), d.inputSrcs)
  }

  // ---- what printing costs ----

  ghost predicate Costs<T(!new)>(show: (T, string) -> string, size: (Kind, T) -> nat, k: Kind, v: T) {
    forall rest :: Count(Coin(k), show(v, rest)) == size(k, v) + Count(Coin(k), rest)
  }

  lemma QuotedCosts(k: Kind, s: string, rest: string)
    requires !k.Hards?
    ensures Count(Coin(k), Quoted(s, rest)) == Of(k, s) + Count(Coin(k), rest)
  {
    var c := Coin(k);
    CountConcat(c, "\"", s + ("\"" + rest));
    CountConcat(c, s, "\"" + rest);
    CountConcat(c, "\"", rest);
  }

  lemma {:induction false} TailCosts<T(!new)>(show: (T, string) -> string, size: (Kind, T) -> nat, k: Kind, vs: seq<T>, rest: string)
    requires forall v :: v in vs ==> Costs(show, size, k, v)
    ensures Count(Coin(k), Tail(show, vs, rest)) == Total(size, k, vs) + Count(Coin(k), rest)
    decreases |vs|
  {
    if |vs| > 0 {
      var more := Tail(show, vs[1..], rest);
      LeadIsFree(k, ",", show(vs[0], more));
      assert Costs(show, size, k, vs[0]);
      TailCosts(show, size, k, vs[1..], rest);
    }
  }

  lemma ListedCosts<T(!new)>(show: (T, string) -> string, size: (Kind, T) -> nat, k: Kind, vs: seq<T>, rest: string)
    requires forall v :: v in vs ==> Costs(show, size, k, v)
    ensures Count(Coin(k), Listed(show, vs, rest)) == Total(size, k, vs) + Count(Coin(k), rest)
  {
    LeadIsFree(k, "[", Joined(show, vs, "]" + rest));
    LeadIsFree(k, "]", rest);
    if |vs| > 0 {
      assert Costs(show, size, k, vs[0]);
      TailCosts(show, size, k, vs[1..], "]" + rest);
    }
  }

  lemma PlainCosts(k: Kind, s: string)
    requires !k.Hards?
    ensures Costs(PrintPlain, Of, k, s)
  {
    forall rest
      ensures Count(Coin(k), PrintPlain(s, rest)) == Of(k, s) + Count(Coin(k), rest)
    { QuotedCosts(k, s, rest); }
  }

  lemma StringsCost(k: Kind, vs: seq<string>, rest: string)
    requires !k.Hards?
    ensures Count(Coin(k), Listed(PrintPlain, vs, rest)) == StringsSize(k, vs) + Count(Coin(k), rest)
  {
    forall v | v in vs
      ensures Costs(PrintPlain, Of, k, v)
    { PlainCosts(k, v); }
    ListedCosts(PrintPlain, Of, k, vs, rest);
  }

  lemma PrefixIsFree(c: char, lead: string, base: string)
    requires Unmarked(lead) && c in {'\"', '\\'}
    ensures Count(c, lead + base) == Count(c, base)
  {
    CountConcat(c, lead, base);
    UnmarkedCounts(c, lead);
  }

  lemma PrefixIsUnmarked()
    ensures Unmarked(STORE_PREFIX)
  {
  }

  lemma PathCounts(k: Kind, base: string)
    ensures Of(k, STORE_PREFIX + base) == Of(k, base)
    ensures Of(k, PathText(base)) == Of(k, base)
  {
    PrefixIsUnmarked();
    PrefixIsFree('\"', STORE_PREFIX, base);
    PrefixIsFree('\\', STORE_PREFIX, base);
  }

  lemma PathCosts(k: Kind, base: string)
    requires !k.Hards?
    ensures Costs(PrintPath, Of, k, base)
  {
    PathCounts(k, base);
    forall rest
      ensures Count(Coin(k), PrintPath(base, rest)) == Of(k, base) + Count(Coin(k), rest)
    { QuotedCosts(k, PathText(base), rest); }
  }

  lemma SortedStep(keys: set<string>)
    requires keys != {}
    ensures Sorted(keys) == [Least(keys)] + Sorted(keys - {Least(keys)})
    ensures Sorted(keys)[0] == Least(keys) && Sorted(keys)[1..] == Sorted(keys - {Least(keys)})
  {
  }

  lemma SortedHolds(keys: set<string>)
    ensures forall x :: x in Sorted(keys) ==> x in keys
  {
    assert forall x :: x in Sorted(keys) ==> x in Elements(Sorted(keys));
  }

  lemma ChildrenStep(n: Node, keys: set<string>)
    requires keys != {} && keys <= n.children.Keys
    ensures Sorted(keys)[0] == Least(keys) && Sorted(keys)[1..] == Sorted(keys - {Least(keys)})
    ensures forall name :: name in Sorted(keys) ==> name in n.children
  {
    SortedStep(keys);
    SortedHolds(keys);
  }

  function ChildSize(k: Kind, n: Node, x: string): nat {
    if x in n.children then Of(k, x) + NodeSize(k, n.children[x]) else 0
  }

  function KidSum(k: Kind, n: Node, keys: set<string>): nat {
    Sum(x => ChildSize(k, n, x), keys)
  }

  lemma KidSumStep(k: Kind, n: Node, keys: set<string>)
    requires keys != {}
    ensures KidSum(k, n, keys) == ChildSize(k, n, Least(keys)) + KidSum(k, n, keys - {Least(keys)})
  {
  }

  lemma {:induction false} NodeCosts(k: Kind, n: Node, rest: string)
    requires !k.Hards?
    ensures Count(Coin(k), PrintNode(n, rest)) == NodeSize(k, n) + Count(Coin(k), rest)
    decreases n, 1
  {
    SortedHolds(n.children.Keys);
    ChildrenCost(k, n, n.children.Keys, "])" + rest);
    LeadIsFree(k, "])", rest);
    ChildSizes(k, n);
    NodeTextCosts(k, n.outputs, PrintChildren(n, Sorted(n.children.Keys), "])" + rest));
  }

  lemma NodeTextCosts(k: Kind, outputs: seq<string>, kids: string)
    requires !k.Hards?
    ensures Count(Coin(k), "(" + Listed(PrintPlain, outputs, ",[" + kids)) == Total(Of, k, outputs) + Count(Coin(k), kids)
  {
    LeadIsFree(k, "(", Listed(PrintPlain, outputs, ",[" + kids));
    StringsCost(k, outputs, ",[" + kids);
    LeadIsFree(k, ",[", kids);
  }

  lemma ChildSizes(k: Kind, n: Node)
    ensures NodeSize(k, n) == Total(Of, k, n.outputs) + KidSum(k, n, n.children.Keys)
  {
    SumSame(x => if x in n.children then Of(k, x) + NodeSize(k, n.children[x]) else 0, x => ChildSize(k, n, x), n.children.Keys);
  }

  lemma {:induction false} ChildCosts(k: Kind, n: Node, name: string, rest: string)
    requires !k.Hards? && name in n.children
    ensures Count(Coin(k), PrintChild(n, name, rest)) == ChildSize(k, n, name) + Count(Coin(k), rest)
    decreases n, 0, 0
  {
    var child := PrintNode(n.children[name], ")" + rest);
    LeadIsFree(k, "(", Quoted(name, "," + child));
    QuotedCosts(k, name, "," + child);
    LeadIsFree(k, ",", child);
    NodeCosts(k, n.children[name], ")" + rest);
    LeadIsFree(k, ")", rest);
  }

  lemma {:induction false} ChildrenCost(k: Kind, n: Node, keys: set<string>, rest: string)
    requires !k.Hards? && keys <= n.children.Keys && forall name :: name in Sorted(keys) ==> name in n.children
    ensures Count(Coin(k), PrintChildren(n, Sorted(keys), rest)) == KidSum(k, n, keys) + Count(Coin(k), rest)
    decreases n, 0, |keys| + 2
  {
    if keys != {} {
      ChildrenStep(n, keys);
      KidSumStep(k, n, keys);
      MoreChildrenCost(k, n, keys - {Least(keys)}, rest);
      ChildCosts(k, n, Least(keys), PrintMoreChildren(n, Sorted(keys - {Least(keys)}), rest));
    }
  }

  lemma {:induction false} MoreChildrenCost(k: Kind, n: Node, keys: set<string>, rest: string)
    requires !k.Hards? && keys <= n.children.Keys && forall name :: name in Sorted(keys) ==> name in n.children
    ensures Count(Coin(k), PrintMoreChildren(n, Sorted(keys), rest)) == KidSum(k, n, keys) + Count(Coin(k), rest)
    decreases n, 0, |keys| + 1
  {
    if keys != {} {
      ChildrenStep(n, keys);
      KidSumStep(k, n, keys);
      MoreChildrenCost(k, n, keys - {Least(keys)}, rest);
      ChildCosts(k, n, Least(keys), PrintMoreChildren(n, Sorted(keys - {Least(keys)}), rest));
      LeadIsFree(k, ",", PrintChild(n, Least(keys), PrintMoreChildren(n, Sorted(keys - {Least(keys)}), rest)));
    }
  }

  lemma InputCosts(k: Kind, i: InputRow)
    requires !k.Hards?
    ensures Costs(PrintInput, RowSize, k, i)
  {
    forall rest
      ensures Count(Coin(k), PrintInput(i, rest)) == RowSize(k, i) + Count(Coin(k), rest)
    {
      var node := PrintInputNode(i.node, ")" + rest);
      LeadIsFree(k, "(", Quoted(PathText(i.path), "," + node));
      QuotedCosts(k, PathText(i.path), "," + node);
      PathCounts(k, i.path);
      LeadIsFree(k, ",", node);
      InputNodeCosts(k, i.node, ")" + rest);
      LeadIsFree(k, ")", rest);
    }
  }

  lemma InputNodeCosts(k: Kind, n: InputNode, rest: string)
    requires !k.Hards?
    ensures Count(Coin(k), PrintInputNode(n, rest)) == InputNodeSize(k, n) + Count(Coin(k), rest)
  {
    match n
    case Flat(outputs) => StringsCost(k, outputs, rest);
    case Deep(node) => NodeCosts(k, node, rest);
  }

  // ---- what the rows of a derivation count ----

  function InputAt(k: Kind, d: Derivation, path: string): nat {
    RowSize(k, InputRow(path, InputNodeOf(d, path)))
  }

  lemma {:induction false} RowsTotal(k: Kind, d: Derivation, keys: set<string>)
    ensures Total(RowSize, k, RowsOf(d, Sorted(keys))) == Sum(x => InputAt(k, d, x), keys)
    decreases |keys|
  {
    if keys != {} {
      SortedStep(keys);
      RowsCons(d, Least(keys), Sorted(keys - {Least(keys)}));
      RowsTotal(k, d, keys - {Least(keys)});
    }
  }

  lemma RowsCons(d: Derivation, path: string, paths: seq<string>)
    ensures |RowsOf(d, [path] + paths)| > 0 && RowsOf(d, [path] + paths)[0] == InputRow(path, InputNodeOf(d, path))
    ensures RowsOf(d, [path] + paths)[1..] == RowsOf(d, paths)
  {
  }

  lemma {:induction false} TotalConcat(k: Kind, a: seq<string>, b: seq<string>)
    ensures Total(Of, k, a + b) == Total(Of, k, a) + Total(Of, k, b)
  {
    if |a| == 0 {
      assert a + b == b;
    } else {
      assert (a + b)[1..] == a[1..] + b;
      TotalConcat(k, a[1..], b);
    }
  }

  /** The text merges an input that is both plain and dynamic. */
  lemma InputAtMost(k: Kind, d: Derivation, path: string)
    ensures InputAt(k, d, path) <= Of(k, path) + StringsSize(k, PlainOutputs(d, path))
                                   + if path in d.dynamicInputs then NodeSize(k, d.dynamicInputs[path]) else 0
  {
    if path in d.dynamicInputs {
      var n := d.dynamicInputs[path];
      var merged := n.(outputs := PlainOutputs(d, path) + n.outputs);
      TotalConcat(k, PlainOutputs(d, path), n.outputs);
      NodeIs(k, n);
      NodeIs(k, merged);
    }
  }

  lemma RowsAtMost(k: Kind, d: Derivation)
    ensures Total(RowSize, k, InputRows(d)) <= InputsSize(k, d)
  {
    var simple, dynamic := d.inputDrvs.Keys, d.dynamicInputs.Keys;
    var f, g := x => Entry(StringsSize, k, d.inputDrvs, x), x => Entry(NodeSize, k, d.dynamicInputs, x);
    RowsTotal(k, d, InputPaths(d));
    forall x | x in simple + dynamic
      ensures InputAt(k, d, x) <= Share(f, simple, x) + Share(g, dynamic, x)
    { InputAtMost(k, d, x); }
    SumUnion(x => InputAt(k, d, x), f, g, simple, dynamic);
  }

  lemma {:induction false} SortedTotal(k: Kind, keys: set<string>)
    ensures Total(Of, k, Sorted(keys)) == Sum(x => Of(k, x), keys)
    decreases |keys|
  {
    if keys != {} {
      SortedStep(keys);
      SortedTotal(k, keys - {Least(keys)});
    }
  }

  lemma EnvRowsCons(env: map<string, string>, key: string, keys: seq<string>)
    requires key in env && forall x :: x in keys ==> x in env
    ensures |EnvRowsOf(env, [key] + keys)| > 0 && EnvRowsOf(env, [key] + keys)[0] == EnvRow(key, env[key])
    ensures EnvRowsOf(env, [key] + keys)[1..] == EnvRowsOf(env, keys)
  {
  }

  lemma {:induction false} EnvTotal(k: Kind, env: map<string, string>, keys: set<string>)
    requires keys <= env.Keys && forall x :: x in Sorted(keys) ==> x in env
    ensures Total(EnvRowSize, k, EnvRowsOf(env, Sorted(keys))) == Sum(x => Entry(Of, k, env, x), keys)
    decreases |keys|
  {
    if keys != {} {
      SortedStep(keys);
      SortedHolds(keys - {Least(keys)});
      EnvRowsCons(env, Least(keys), Sorted(keys - {Least(keys)}));
      EnvTotal(k, env, keys - {Least(keys)});
    }
  }
}
