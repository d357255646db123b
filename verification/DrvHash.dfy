/** `hashDerivationModulo` over the closure of a derivation: the walk that keeps
    and evicts answers gives what plain recursion gives. The hash of one
    derivation is a parameter. */
module DrvHash {
  import opened Wrappers
  import opened Ordering

  type Path = string
  type Hashes = map<string, string>

  /** `{hash: [output name, ...]}`, as the hash of one derivation takes it. */
  type InputHashes = map<string, seq<string>>

  /** An input derivation and the outputs that are read of it. */
  datatype Input = Input(path: Path, outputs: seq<string>)

  /** A derivation: its plain inputs and the direct outputs of its dynamic
      inputs, in order, and the rest as text. */
  datatype Drv = Drv(inputs: seq<Input>, dynamicInputs: seq<Input>, text: string)

  /** The derivations that can be read, the hash of one derivation (with its
      output paths masked or not), and the height of each path. */
  datatype World = World(store: map<Path, Drv>, hash: (Drv, bool, InputHashes) -> Hashes, height: Path -> nat)

  function Wanted(d: Drv): seq<Input> {
    d.inputs + d.dynamicInputs
  }

  ghost predicate Acyclic(w: World) {
    forall p, i :: p in w.store && i in Wanted(w.store[p]) ==> w.height(i.path) < w.height(p)
  }

  // ---- plain recursion ----

  function AddOutputs(found: InputHashes, hashes: Hashes, names: seq<string>): Option<InputHashes>
    decreases |names|
  {
    if |names| == 0 then Some(found)
    else if names[0] !in hashes then None
    else
      var digest := hashes[names[0]];
      var before := if digest in found then found[digest] else [];
      AddOutputs(found[digest := before + [names[0]]], hashes, names[1..])
  }

  ghost predicate Below(w: World, wanted: seq<Input>, bound: nat) {
    forall i :: i in wanted ==> w.height(i.path) < bound
  }

  function ClosureHashes(w: World, p: Path): Option<Hashes>
    requires Acyclic(w)
    decreases w.height(p), 1
  {
    if p !in w.store then None else
      var d := w.store[p];
      var inputs :- Collect(w, Wanted(d), map[], w.height(p));
      Some(w.hash(d, false, inputs))
  }

  function Collect(w: World, wanted: seq<Input>, found: InputHashes, bound: nat): Option<InputHashes>
    requires Acyclic(w) && Below(w, wanted, bound)
    decreases bound, 0, |wanted|
  {
    if |wanted| == 0 then Some(found) else
      var hashes :- ClosureHashes(w, wanted[0].path);
      var more :- AddOutputs(found, hashes, wanted[0].outputs);
      Collect(w, wanted[1..], more, bound)
  }

  /** The bound is only there for the recursion to end. */
  lemma {:induction false} AnyBound(w: World, wanted: seq<Input>, found: InputHashes, b: nat, c: nat)
    requires Acyclic(w) && Below(w, wanted, b) && Below(w, wanted, c)
    ensures Collect(w, wanted, found, b) == Collect(w, wanted, found, c)
    decreases |wanted|
  {
    if |wanted| > 0 {
      var hashes := ClosureHashes(w, wanted[0].path);
      if hashes.Some? {
        var more := AddOutputs(found, hashes.value, wanted[0].outputs);
        if more.Some? { AnyBound(w, wanted[1..], more.value, b, c); }
      }
    }
  }

  // ---- the cache ----

  const CACHE_LIMIT: nat := 20000

  /** A dictionary that remembers the order its keys came in. */
  class Cache {
    var entries: map<Path, Hashes>
    var order: seq<Path>

    ghost predicate Valid()
      reads this
    {
      NoDuplicates(order) && Elements(order) == entries.Keys && |order| <= CACHE_LIMIT
    }

    /** Every answer kept is the one plain recursion gives. */
    ghost predicate Sound(w: World)
      requires Acyclic(w)
      reads this
    {
      forall p :: p in entries ==> ClosureHashes(w, p) == Some(entries[p])
    }

    constructor ()
      ensures Valid() && entries == map[]
    {
      entries, order := map[], [];
    }

    /** Keep an answer; a full cache first drops its oldest quarter. */
    method Remember(p: Path, hashes: Hashes)
      requires Valid()
      modifies this
      ensures Valid() && p in entries && entries[p] == hashes
      ensures forall q :: q in entries && q != p ==> q in old(entries) && entries[q] == old(entries)[q]
      ensures var kept := if |old(order)| >= CACHE_LIMIT then old(order)[CACHE_LIMIT / 4..] else old(order);
              order == kept + if p in kept then [] else [p]
    {
      if |order| >= CACHE_LIMIT {
        DropOldest(CACHE_LIMIT / 4);
      }
      assert p in entries <==> p in Elements(order);
      if p !in entries {
        Appended(order, p);
        order := order + [p];
      }
      entries := entries[p := hashes];
    }

    method DropOldest(k: nat)
      requires Valid() && k <= |order|
      modifies this
      ensures Valid() && order == old(order)[k..]
      ensures forall q :: q in entries <==> q in old(order)[k..]
      ensures forall q :: q in entries ==> q in old(entries) && entries[q] == old(entries)[q]
    {
      var oldest := order[..k];
      for i := 0 to k
        invariant order == old(order)
        invariant forall q :: q in entries <==> q in old(order)[i..]
        invariant forall q :: q in entries ==> q in old(entries) && entries[q] == old(entries)[q]
      {
        entries := entries - {oldest[i]};
        assert old(order)[i..] == [oldest[i]] + old(order)[i + 1..];
      }
      order := order[k..];
    }
  }

  lemma Appended<T>(s: seq<T>, x: T)
    requires NoDuplicates(s) && x !in s
    ensures NoDuplicates(s + [x]) && Elements(s + [x]) == Elements(s) + {x}
  {
  }

  // ---- the walk ----

  lemma KeptSound(w: World, before: map<Path, Hashes>, after: map<Path, Hashes>, p: Path, hashes: Hashes)
    requires Acyclic(w) && ClosureHashes(w, p) == Some(hashes) && p in after && after[p] == hashes
    requires forall q :: q in before ==> ClosureHashes(w, q) == Some(before[q])
    requires forall q :: q in after && q != p ==> q in before && after[q] == before[q]
    ensures forall q :: q in after ==> ClosureHashes(w, q) == Some(after[q])
  {
  }

  /** While a walk waits for a read, other walks over the same store may keep
      any answers of theirs, and drop any of the walk's own. */
  method Pause(w: World, cache: Cache)
    requires Acyclic(w) && cache.Valid() && cache.Sound(w)
    modifies cache
    ensures cache.Valid() && cache.Sound(w)
  {
    var n: nat :| true;
    for i := 0 to n
      invariant cache.Valid() && cache.Sound(w)
    {
      var q: Path :| true;
      var answer := ClosureHashes(w, q);
      if answer.Some? {
        ghost var before := cache.entries;
        cache.Remember(q, answer.value);
        KeptSound(w, before, cache.entries, q, answer.value);
      }
    }
  }

  method AddNames(found: InputHashes, hashes: Hashes, names: seq<string>) returns (r: Option<InputHashes>)
    ensures r == AddOutputs(found, hashes, names)
  {
    var inputs := found;
    assert names[0..] == names;
    for i := 0 to |names|
      invariant AddOutputs(found, hashes, names) == AddOutputs(inputs, hashes, names[i..])
    {
      assert names[i..][0] == names[i] && names[i..][1..] == names[i + 1..];
      if names[i] !in hashes { return None; }
      var digest := hashes[names[i]];
      inputs := inputs[digest := (if digest in inputs then inputs[digest] else []) + [names[i]]];
    }
    return Some(inputs);
  }

  /** `_closure_hashes`: whatever sound answers the cache holds, and whatever
      other walks do to it, the answer is that of plain recursion. */
  method WalkClosure(w: World, p: Path, cache: Cache) returns (r: Option<Hashes>)
    requires Acyclic(w) && cache.Valid() && cache.Sound(w)
    modifies cache
    ensures cache.Valid() && cache.Sound(w)
    ensures r == ClosureHashes(w, p)
    decreases w.height(p), 1
  {
    if p in cache.entries { return Some(cache.entries[p]); }
    Pause(w, cache);
    if p !in w.store { return None; }
    var d := w.store[p];
    var inputs := WalkInputs(w, Wanted(d), cache, w.height(p));
    if inputs.None? { return None; }
    var hashes := w.hash(d, false, inputs.value);
    ghost var before := cache.entries;
    cache.Remember(p, hashes);
    KeptSound(w, before, cache.entries, p, hashes);
    return Some(hashes);
  }

  /** `_input_hashes`. */
  method WalkInputs(w: World, wanted: seq<Input>, cache: Cache, ghost bound: nat) returns (r: Option<InputHashes>)
    requires Acyclic(w) && cache.Valid() && cache.Sound(w) && Below(w, wanted, bound)
    modifies cache
    ensures cache.Valid() && cache.Sound(w)
    ensures r == Collect(w, wanted, map[], bound)
    decreases bound, 0
  {
    var inputs: InputHashes := map[];
    assert wanted[0..] == wanted;
    for i := 0 to |wanted|
      invariant cache.Valid() && cache.Sound(w) && Below(w, wanted[i..], bound)
      invariant Collect(w, wanted, map[], bound) == Collect(w, wanted[i..], inputs, bound)
    {
      assert wanted[i..][0] == wanted[i] && wanted[i..][1..] == wanted[i + 1..];
      var hashes := WalkClosure(w, wanted[i].path, cache);
      if hashes.None? { return None; }
      var more := AddNames(inputs, hashes.value, wanted[i].outputs);
      if more.None? { return None; }
      inputs := more.value;
    }
    return Some(inputs);
  }

  function Bound(w: World, wanted: seq<Input>): (b: nat)
    ensures Below(w, wanted, b)
  {
    if |wanted| == 0 then 0 else
      var rest := Bound(w, wanted[1..]);
      assert wanted == [wanted[0]] + wanted[1..];
      if w.height(wanted[0].path) < rest then rest else w.height(wanted[0].path) + 1
  }

  /** What plain recursion gives for the outermost derivation. */
  function PlainHashes(w: World, d: Drv): Option<Hashes>
    requires Acyclic(w)
  {
    var inputs :- Collect(w, Wanted(d), map[], Bound(w, Wanted(d)));
    Some(w.hash(d, true, inputs))
  }

  // ---- what the answer is ----

  function Under(found: InputHashes, digest: string): seq<string> {
    if digest in found then found[digest] else []
  }

  /** The names, in order, whose output has this hash. */
  function NamesWith(hashes: Hashes, names: seq<string>, digest: string): seq<string> {
    if |names| == 0 then []
    else (if names[0] in hashes && hashes[names[0]] == digest then [names[0]] else [])
         + NamesWith(hashes, names[1..], digest)
  }

  /** For each derivation of a closure, what its inputs hash to. */
  type Table = map<Path, InputHashes>

  /** The hashes of a derivation below the outermost one: it is not masked. */
  function HashesAt(w: World, t: Table, p: Path): Hashes
    requires p in t && p in w.store
  {
    w.hash(w.store[p], false, t[p])
  }

  /** The names read of these inputs, in order, whose output has this hash. */
  function NamesRead(w: World, t: Table, inputs: seq<Input>, digest: string): seq<string>
    requires forall i :: i in inputs ==> i.path in t && i.path in w.store
  {
    if |inputs| == 0 then []
    else NamesWith(HashesAt(w, t, inputs[0].path), inputs[0].outputs, digest) + NamesRead(w, t, inputs[1..], digest)
  }

  ghost predicate CanRead(w: World, t: Table, inputs: seq<Input>) {
    forall i :: i in inputs ==>
      i.path in t && i.path in w.store && forall name :: name in i.outputs ==> name in HashesAt(w, t, i.path)
  }

  /** `m` lists, for every hash, exactly the output names that have it: those of
      the plain inputs in order, and then those of the dynamic ones. */
  ghost predicate Lists(w: World, t: Table, d: Drv, m: InputHashes) {
    && CanRead(w, t, d.inputs) && CanRead(w, t, d.dynamicInputs)
    && (forall digest :: Under(m, digest) == NamesRead(w, t, d.inputs, digest) + NamesRead(w, t, d.dynamicInputs, digest))
    && (forall digest :: digest in m ==> m[digest] != [])
  }

  ghost predicate Explains(w: World, t: Table) {
    forall p :: p in t ==> p in w.store && Lists(w, t, w.store[p], t[p])
  }

  lemma {:induction false} NamesReadConcat(w: World, t: Table, a: seq<Input>, b: seq<Input>, digest: string)
    requires CanRead(w, t, a) && CanRead(w, t, b)
    ensures CanRead(w, t, a + b) && NamesRead(w, t, a + b, digest) == NamesRead(w, t, a, digest) + NamesRead(w, t, b, digest)
    decreases |a|
  {
    if |a| == 0 {
      assert a + b == b;
    } else {
      assert (a + b)[0] == a[0] && (a + b)[1..] == a[1..] + b;
      NamesReadConcat(w, t, a[1..], b, digest);
    }
  }

  ghost predicate NoEmptyList(m: InputHashes) {
    forall digest :: digest in m ==> m[digest] != []
  }

  lemma {:induction false} AddedKeepsLists(found: InputHashes, hashes: Hashes, names: seq<string>)
    requires AddOutputs(found, hashes, names).Some? && NoEmptyList(found)
    ensures NoEmptyList(AddOutputs(found, hashes, names).value)
    decreases |names|
  {
    if |names| > 0 {
      var d := hashes[names[0]];
      AddedKeepsLists(found[d := Under(found, d) + [names[0]]], hashes, names[1..]);
    }
  }

  /** One input: its names are added. */
  lemma AddReads(found: InputHashes, hashes: Hashes, names: seq<string>, digest: string)
    requires NoEmptyList(found) && forall name :: name in names ==> name in hashes
    ensures var r := AddOutputs(found, hashes, names);
            r.Some? && NoEmptyList(r.value) && Under(r.value, digest) == Under(found, digest) + NamesWith(hashes, names, digest)
  {
    AddsIff(found, hashes, names);
    AddedNames(found, hashes, names, digest);
    AddedKeepsLists(found, hashes, names);
  }

  lemma CollectStep(w: World, wanted: seq<Input>, found: InputHashes, more: InputHashes, hashes: Hashes, bound: nat)
    requires Acyclic(w) && Below(w, wanted, bound) && |wanted| > 0
    requires ClosureHashes(w, wanted[0].path) == Some(hashes) && AddOutputs(found, hashes, wanted[0].outputs) == Some(more)
    ensures Below(w, wanted[1..], bound) && Collect(w, wanted, found, bound) == Collect(w, wanted[1..], more, bound)
  {
  }

  lemma TableTail(w: World, t: Table, wanted: seq<Input>, digest: string)
    requires CanRead(w, t, wanted) && |wanted| > 0
    ensures CanRead(w, t, wanted[1..]) && wanted[0] in wanted
    ensures NamesRead(w, t, wanted, digest)
            == NamesWith(HashesAt(w, t, wanted[0].path), wanted[0].outputs, digest) + NamesRead(w, t, wanted[1..], digest)
  {
  }

  lemma Behind(a: seq<string>, b: seq<string>, c: seq<string>)
    ensures a + b + c == a + (b + c) && a + [] == a
  {
  }

  /** When the table holds what recursion gives for the inputs, collecting reads
      the names off it. */
  lemma {:induction false} CollectReads(w: World, t: Table, wanted: seq<Input>, found: InputHashes, bound: nat, digest: string)
    requires Acyclic(w) && Below(w, wanted, bound) && CanRead(w, t, wanted) && NoEmptyList(found)
    requires forall i :: i in wanted ==> ClosureHashes(w, i.path) == Some(HashesAt(w, t, i.path))
    ensures var r := Collect(w, wanted, found, bound);
            r.Some? && NoEmptyList(r.value) && Under(r.value, digest) == Under(found, digest) + NamesRead(w, t, wanted, digest)
    decreases |wanted|
  {
    if |wanted| == 0 {
      Behind(Under(found, digest), [], []);
    } else {
      TableTail(w, t, wanted, digest);
      var hashes := HashesAt(w, t, wanted[0].path);
      AddReads(found, hashes, wanted[0].outputs, digest);
      var more := AddOutputs(found, hashes, wanted[0].outputs).value;
      CollectStep(w, wanted, found, more, hashes, bound);
      CollectReads(w, t, wanted[1..], more, bound, digest);
      Behind(Under(found, digest), NamesWith(hashes, wanted[0].outputs, digest), NamesRead(w, t, wanted[1..], digest));
    }
  }

  lemma SameLists(a: InputHashes, b: InputHashes)
    requires NoEmptyList(a) && NoEmptyList(b) && forall digest :: Under(a, digest) == Under(b, digest)
    ensures a == b
  {
    forall digest
      ensures digest in a <==> digest in b
      ensures digest in a ==> a[digest] == b[digest]
    { assert Under(a, digest) == Under(b, digest); }
  }

  lemma CollectIsListed(w: World, t: Table, d: Drv, bound: nat, m: InputHashes)
    requires Acyclic(w) && Below(w, Wanted(d), bound) && Lists(w, t, d, m)
    requires forall i :: i in Wanted(d) ==> ClosureHashes(w, i.path) == Some(HashesAt(w, t, i.path))
    ensures Collect(w, Wanted(d), map[], bound) == Some(m)
  {
    NamesReadConcat(w, t, d.inputs, d.dynamicInputs, "");
    CollectReads(w, t, Wanted(d), map[], bound, "");
    var r := Collect(w, Wanted(d), map[], bound).value;
    forall digest
      ensures Under(r, digest) == Under(m, digest)
    {
      NamesReadConcat(w, t, d.inputs, d.dynamicInputs, digest);
      CollectReads(w, t, Wanted(d), map[], bound, digest);
    }
    SameLists(r, m);
  }

  /** Whatever table explains a path, its hashes are those of recursion. */
  lemma {:induction false} ExplainedIsUnique(w: World, t: Table, p: Path)
    requires Acyclic(w) && Explains(w, t) && p in t
    ensures p in w.store && ClosureHashes(w, p) == Some(HashesAt(w, t, p))
    decreases w.height(p)
  {
    var d := w.store[p];
    forall i | i in Wanted(d)
      ensures ClosureHashes(w, i.path) == Some(HashesAt(w, t, i.path))
    {
      assert i in d.inputs || i in d.dynamicInputs;
      ExplainedIsUnique(w, t, i.path);
    }
    CollectIsListed(w, t, d, w.height(p), t[p]);
  }

  /** The table of every derivation that recursion answers for. */
  function Answered(w: World): Table
    requires Acyclic(w)
  {
    map p | p in w.store && ClosureHashes(w, p).Some? :: InputsAt(w, p)
  }

  function InputsAt(w: World, p: Path): InputHashes
    requires Acyclic(w) && p in w.store && ClosureHashes(w, p).Some?
  {
    Collect(w, Wanted(w.store[p]), map[], w.height(p)).value
  }

  lemma AnsweredReads(w: World, wanted: seq<Input>, bound: nat)
    requires Acyclic(w) && Below(w, wanted, bound) && Collect(w, wanted, map[], bound).Some?
    ensures CanRead(w, Answered(w), wanted)
    ensures forall i :: i in wanted ==> ClosureHashes(w, i.path) == Some(HashesAt(w, Answered(w), i.path))
  {
    CollectsIff(w, wanted, map[], bound);
    forall i | i in wanted
      ensures i.path in Answered(w) && i.path in w.store && ClosureHashes(w, i.path) == Some(HashesAt(w, Answered(w), i.path))
    { assert ClosureHashes(w, i.path).Some?; }
  }

  lemma CollectLists(w: World, d: Drv, bound: nat)
    requires Acyclic(w) && Below(w, Wanted(d), bound) && Collect(w, Wanted(d), map[], bound).Some?
    ensures Lists(w, Answered(w), d, Collect(w, Wanted(d), map[], bound).value)
  {
    var t, m := Answered(w), Collect(w, Wanted(d), map[], bound).value;
    AnsweredReads(w, Wanted(d), bound);
    assert forall i :: i in d.inputs || i in d.dynamicInputs ==> i in Wanted(d);
    forall digest
      ensures Under(m, digest) == NamesRead(w, t, d.inputs, digest) + NamesRead(w, t, d.dynamicInputs, digest)
      ensures NoEmptyList(m)
    {
      NamesReadConcat(w, t, d.inputs, d.dynamicInputs, digest);
      CollectReads(w, t, Wanted(d), map[], bound, digest);
      Behind([], NamesRead(w, t, Wanted(d), digest), []);
    }
    CollectReads(w, t, Wanted(d), map[], bound, "");
  }

  lemma AnsweredExplains(w: World)
    requires Acyclic(w)
    ensures Explains(w, Answered(w))
  {
    forall p | p in Answered(w)
      ensures Lists(w, Answered(w), w.store[p], Answered(w)[p])
    { CollectLists(w, w.store[p], w.height(p)); }
  }

  /** The answer for the outermost derivation is its masked hash over what its
      inputs hash to, unmasked, all the way down; and there is one exactly when
      some table explains what it reads. */
  lemma PlainHashesAre(w: World, d: Drv)
    requires Acyclic(w)
    ensures forall t, m :: Explains(w, t) && Lists(w, t, d, m) ==> PlainHashes(w, d) == Some(w.hash(d, true, m))
    ensures PlainHashes(w, d).Some? ==> exists t, m :: Explains(w, t) && Lists(w, t, d, m)
  {
    var bound := Bound(w, Wanted(d));
    forall t, m | Explains(w, t) && Lists(w, t, d, m)
      ensures PlainHashes(w, d) == Some(w.hash(d, true, m))
    {
      forall i | i in Wanted(d)
        ensures i.path in t && ClosureHashes(w, i.path) == Some(HashesAt(w, t, i.path))
      {
        assert i in d.inputs || i in d.dynamicInputs;
        ExplainedIsUnique(w, t, i.path);
      }
      CollectIsListed(w, t, d, bound, m);
    }
    if PlainHashes(w, d).Some? {
      AnsweredExplains(w);
      CollectLists(w, d, bound);
    }
  }

  /** `output_hashes`. */
  method OutputHashes(w: World, d: Drv, cache: Cache) returns (r: Option<Hashes>)
    requires Acyclic(w) && cache.Valid() && cache.Sound(w)
    modifies cache
    ensures cache.Valid() && cache.Sound(w)
    ensures forall t, m :: Explains(w, t) && Lists(w, t, d, m) ==> r == Some(w.hash(d, true, m))
    ensures r.Some? ==> exists t, m :: Explains(w, t) && Lists(w, t, d, m)
  {
    PlainHashesAre(w, d);
    var inputs := WalkInputs(w, Wanted(d), cache, Bound(w, Wanted(d)));
    if inputs.None? { return None; }
    return Some(w.hash(d, true, inputs.value));
  }

  // ---- what plain recursion answers ----

  /** The answer is missing exactly when something it needs is: an input that
      cannot be read, or an output an input does not have. */
  ghost predicate Complete(w: World, p: Path)
    requires Acyclic(w)
    decreases w.height(p)
  {
    && p in w.store
    && forall i :: i in Wanted(w.store[p]) ==>
         && Complete(w, i.path)
         && ClosureHashes(w, i.path).Some?
         && forall name :: name in i.outputs ==> name in ClosureHashes(w, i.path).value
  }

  lemma {:induction false} AnswersIff(w: World, p: Path)
    requires Acyclic(w)
    ensures ClosureHashes(w, p).Some? <==> Complete(w, p)
    decreases w.height(p)
  {
    if p in w.store {
      var wanted := Wanted(w.store[p]);
      forall i | i in wanted
        ensures ClosureHashes(w, i.path).Some? <==> Complete(w, i.path)
      { AnswersIff(w, i.path); }
      CollectsIff(w, wanted, map[], w.height(p));
    }
  }

  lemma {:induction false} CollectsIff(w: World, wanted: seq<Input>, found: InputHashes, bound: nat)
    requires Acyclic(w) && Below(w, wanted, bound)
    ensures Collect(w, wanted, found, bound).Some? <==>
              forall i :: i in wanted ==> ClosureHashes(w, i.path).Some?
                                          && forall name :: name in i.outputs ==> name in ClosureHashes(w, i.path).value
    decreases |wanted|
  {
    if |wanted| > 0 {
      assert wanted == [wanted[0]] + wanted[1..];
      var hashes := ClosureHashes(w, wanted[0].path);
      if hashes.Some? {
        AddsIff(found, hashes.value, wanted[0].outputs);
        var more := AddOutputs(found, hashes.value, wanted[0].outputs);
        if more.Some? { CollectsIff(w, wanted[1..], more.value, bound); }
      }
    }
  }

  lemma {:induction false} AddsIff(found: InputHashes, hashes: Hashes, names: seq<string>)
    ensures AddOutputs(found, hashes, names).Some? <==> forall name :: name in names ==> name in hashes
    decreases |names|
  {
    if |names| > 0 {
      assert names == [names[0]] + names[1..];
      if names[0] in hashes {
        var digest := hashes[names[0]];
        AddsIff(found[digest := (if digest in found then found[digest] else []) + [names[0]]], hashes, names[1..]);
      }
    }
  }

  /** Each hash collects exactly the names of the outputs that have it, behind
      those it already had. */
  lemma {:induction false} AddedNames(found: InputHashes, hashes: Hashes, names: seq<string>, digest: string)
    requires AddOutputs(found, hashes, names).Some?
    ensures Under(AddOutputs(found, hashes, names).value, digest) == Under(found, digest) + NamesWith(hashes, names, digest)
    decreases |names|
  {
    if |names| > 0 {
      var d := hashes[names[0]];
      var next := found[d := Under(found, d) + [names[0]]];
      AddedNames(next, hashes, names[1..], digest);
      var later := NamesWith(hashes, names[1..], digest);
      assert Under(found, digest) + [names[0]] + later == Under(found, digest) + ([names[0]] + later);
      assert [] + later == later;
    }
  }
}
