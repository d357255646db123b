/** Finding the end of a NAR without parsing it: the parenthesis counter that
    `NarForwarder` and `stream_parse_nar` share. */
module NarScan {
  import opened Wrappers
  import opened Sequences
  import opened Bytes

  /** The counter, whether the next field is file data, and whether the archive
      ended. */
  datatype State = State(depth: int, afterContents: bool, complete: bool)

  const START := State(0, false, false)

  /** One field, as `_update_depth` reads it. */
  function Update(st: State, body: seq<Byte>): State {
    if st.afterContents then st.(afterContents := false)
    else if body == Encode("(") then st.(depth := st.depth + 1)
    else if body == Encode(")") then st.(depth := st.depth - 1, complete := st.complete || st.depth - 1 == 0)
    else if body == Encode("contents") then st.(afterContents := true)
    else st
  }

  datatype Scanned = Scanned(out: seq<Byte>, state: State, rest: seq<Byte>)

  /** The bytes of the field at the front, if they are all there. */
  function FieldSize(buf: seq<Byte>): (need: Option<nat>)
    ensures need.Some? ==> 8 <= need.value <= |buf|
  {
    if |buf| < 8 then None else
      var n := UnpackU64(buf[..8]);
      var need := 8 + n + Pad(n);
      if |buf| < need then None else Some(need)
  }

  function FieldBody(buf: seq<Byte>): seq<Byte>
    requires FieldSize(buf).Some?
  {
    buf[8..8 + UnpackU64(buf[..8])]
  }

  /** Take whole fields off the front until the archive ends or a field is not
      all there. */
  function Scan(st: State, buf: seq<Byte>): Scanned
    decreases |buf|
  {
    if st.complete || FieldSize(buf).None? then Scanned([], st, buf) else
      var need := FieldSize(buf).value;
      var r := Scan(Update(st, FieldBody(buf)), buf[need..]);
      Scanned(buf[..need] + r.out, r.state, r.rest)
  }

  /** Nothing is lost or invented: what went out and what is left are the input. */
  lemma {:induction false} ScanConserves(st: State, buf: seq<Byte>)
    ensures Scan(st, buf).out + Scan(st, buf).rest == buf
    decreases |buf|
  {
    if !st.complete && FieldSize(buf).Some? {
      var need, next := FieldSize(buf).value, Update(st, FieldBody(buf));
      var r := Scan(next, buf[need..]);
      ScanConserves(next, buf[need..]);
      assert Scan(st, buf) == Scanned(buf[..need] + r.out, r.state, r.rest);
      Glue(buf, need, r.out, r.rest);
    }
  }

  lemma FieldSizeExtends(a: seq<Byte>, b: seq<Byte>)
    requires FieldSize(a).Some?
    ensures FieldSize(a + b) == FieldSize(a) && FieldBody(a + b) == FieldBody(a)
  {
    assert (a + b)[..8] == a[..8];
    var n := UnpackU64(a[..8]);
    assert (a + b)[8..8 + n] == a[8..8 + n];
  }

  /** Scanning in two pieces is scanning the whole: the first piece may end in
      the middle of a field. */
  lemma {:induction false} ScanSplit(st: State, a: seq<Byte>, b: seq<Byte>)
    ensures var r := Scan(st, a);
            var r' := Scan(r.state, r.rest + b);
            Scan(st, a + b) == Scanned(r.out + r'.out, r'.state, r'.rest)
    decreases |a|
  {
    if st.complete || FieldSize(a).None? {
      assert Scan(st, a) == Scanned([], st, a);
      assert [] + Scan(st, a + b).out == Scan(st, a + b).out;
    } else {
      FieldSizeExtends(a, b);
      var need, next := FieldSize(a).value, Update(st, FieldBody(a));
      CutSum(a, b, need);
      ScanSplit(next, a[need..], b);
      var r := Scan(next, a[need..]);
      var r' := Scan(r.state, r.rest + b);
      assert Scan(st, a) == Scanned(a[..need] + r.out, r.state, r.rest);
      assert Scan(st, a + b) == Scanned(a[..need] + (r.out + r'.out), r'.state, r'.rest);
      Associate(a[..need], r.out, r'.out);
    }
  }

  /** What a scan leaves holds no whole field it could take. */
  lemma {:induction false} ScanSettles(st: State, buf: seq<Byte>)
    ensures var r := Scan(st, buf); Scan(r.state, r.rest) == Scanned([], r.state, r.rest)
    decreases |buf|
  {
    if !st.complete && FieldSize(buf).Some? {
      ScanSettles(Update(st, FieldBody(buf)), buf[FieldSize(buf).value..]);
    }
  }

  // ---- the end of a written tree ----

  /** The counter after some fields; it stops where the archive ends. */
  function Through(st: State, bodies: seq<seq<Byte>>): State
    decreases |bodies|
  {
    if st.complete || |bodies| == 0 then st else Through(Update(st, bodies[0]), bodies[1..])
  }

  lemma {:induction false} ThroughConcat(st: State, a: seq<seq<Byte>>, b: seq<seq<Byte>>)
    ensures Through(st, a + b) == Through(Through(st, a), b)
    decreases |a|
  {
    if |a| == 0 {
      assert a + b == b;
    } else if !st.complete {
      assert (a + b)[1..] == a[1..] + b;
      ThroughConcat(Update(st, a[0]), a[1..], b);
    }
  }

  /** How many of the fields are taken. */
  function Used(st: State, bodies: seq<seq<Byte>>): (k: nat)
    ensures k <= |bodies|
    ensures !Through(st, bodies).complete ==> k == |bodies|
    decreases |bodies|
  {
    if st.complete || |bodies| == 0 then 0 else 1 + Used(Update(st, bodies[0]), bodies[1..])
  }

  ghost predicate Fitting(bodies: seq<seq<Byte>>) {
    forall body :: body in bodies ==> |body| < U64
  }

  lemma FieldInFront(body: seq<Byte>, suffix: seq<Byte>)
    requires |body| < U64
    ensures FieldSize(Field(body) + suffix) == Some(|Field(body)|) && FieldBody(Field(body) + suffix) == body
  {
    var f := Field(body);
    CutSum(f, suffix, 8);
    UnpackPack(|body|);
    assert (f + suffix)[8..8 + |body|] == f[8..8 + |body|];
  }

  lemma ScanField(st: State, body: seq<Byte>, suffix: seq<Byte>)
    requires !st.complete && |body| < U64
    ensures var r := Scan(Update(st, body), suffix);
            Scan(st, Field(body) + suffix) == Scanned(Field(body) + r.out, r.state, r.rest)
  {
    FieldInFront(body, suffix);
    CutSum(Field(body), suffix, |Field(body)|);
    assert Field(body)[|Field(body)|..] + suffix == suffix;
    assert Field(body)[..|Field(body)|] == Field(body);
  }

  /** The scan takes fields off until the counter ends the archive, and scans on
      behind them when it does not. */
  lemma {:induction false} ScanFields(st: State, bodies: seq<seq<Byte>>, suffix: seq<Byte>)
    requires Fitting(bodies)
    ensures var k := Used(st, bodies);
            var r := Scan(Through(st, bodies), Fields(bodies[k..]) + suffix);
            Scan(st, Fields(bodies) + suffix) == Scanned(Fields(bodies[..k]) + r.out, r.state, r.rest)
    decreases |bodies|
  {
    var k := Used(st, bodies);
    if k == 0 {
      assert bodies[k..] == bodies && Fields(bodies[..k]) == [];
      assert [] + Scan(st, Fields(bodies) + suffix).out == Scan(st, Fields(bodies) + suffix).out;
    } else {
      var next := Update(st, bodies[0]);
      var tail := Fields(bodies[1..]) + suffix;
      ScanFields(next, bodies[1..], suffix);
      Associate(Field(bodies[0]), Fields(bodies[1..]), suffix);
      ScanField(st, bodies[0], tail);
      assert bodies[1..][k - 1..] == bodies[k..] && bodies[..k][1..] == bodies[1..][..k - 1];
      var r := Scan(Through(st, bodies), Fields(bodies[k..]) + suffix);
      Associate(Field(bodies[0]), Fields(bodies[1..][..k - 1]), r.out);
      assert Fields(bodies[..k]) == Field(bodies[0]) + Fields(bodies[..k][1..]);
    }
  }

  // ---- the counter over a tree ----

  function Min(a: int, b: int): int {
    if a < b then a else b
  }

  ghost predicate MovesFrom(d: int, bodies: seq<seq<Byte>>, low: int, net: int) {
    var st := Through(State(d, false, false), bodies);
    if d + low >= 1 then st == State(d + net, false, false) else st.complete
  }

  /** From any counter of one or more, the fields move it by `net` and reach
      `low` on the way; the archive ends there exactly when that is zero. */
  ghost predicate Moves(bodies: seq<seq<Byte>>, low: int, net: int) {
    low <= net && forall d: int :: d >= 1 ==> MovesFrom(d, bodies, low, net)
  }

  lemma MovesConcat(a: seq<seq<Byte>>, lowA: int, netA: int, b: seq<seq<Byte>>, lowB: int, netB: int)
    requires Moves(a, lowA, netA) && Moves(b, lowB, netB)
    ensures Moves(a + b, Min(lowA, netA + lowB), netA + netB)
  {
    var low, net := Min(lowA, netA + lowB), netA + netB;
    forall d: int | d >= 1
      ensures MovesFrom(d, a + b, low, net)
    {
      ThroughConcat(State(d, false, false), a, b);
      assert MovesFrom(d, a, lowA, netA);
      assert d + lowA >= 1 ==> MovesFrom(d + netA, b, lowB, netB);
    }
  }

  predicate Plain(body: seq<Byte>) {
    body != Encode("(") && body != Encode(")") && body != Encode("contents")
  }

  lemma OneStep(st: State, body: seq<Byte>)
    requires !st.complete
    ensures Through(st, [body]) == Update(st, body)
  {
    assert [body][1..] == [];
    assert Through(Update(st, body), []) == Update(st, body);
  }

  /** The three fields the counter reads are different. */
  lemma Keywords()
    ensures Encode("(") != Encode(")") && !Plain(Encode("contents")) && Encode("contents") != Encode("(")
    ensures Encode("contents") != Encode(")")
  {
    assert Encode("(")[0] == 40 && Encode(")")[0] == 41;
    assert |Encode("contents")| == 8;
  }

  lemma OpenMoves()
    ensures Moves([Encode("(")], 1, 1)
  {
    forall d: int | d >= 1
      ensures MovesFrom(d, [Encode("(")], 1, 1)
    { OneStep(State(d, false, false), Encode("(")); }
  }

  lemma CloseMoves()
    ensures Moves([Encode(")")], -1, -1)
  {
    Keywords();
    forall d: int | d >= 1
      ensures MovesFrom(d, [Encode(")")], -1, -1)
    { OneStep(State(d, false, false), Encode(")")); }
  }

  lemma PlainMoves(body: seq<Byte>)
    requires Plain(body)
    ensures Moves([body], 0, 0)
  {
    forall d: int | d >= 1
      ensures MovesFrom(d, [body], 0, 0)
    { OneStep(State(d, false, false), body); }
  }

  /** The field behind `contents` is not read. */
  lemma ContentsMoves(body: seq<Byte>)
    ensures Moves([Encode("contents"), body], 0, 0)
  {
    Keywords();
    assert [Encode("contents"), body] == [Encode("contents")] + [body];
    forall d: int | d >= 1
      ensures MovesFrom(d, [Encode("contents"), body], 0, 0)
    {
      ThroughConcat(State(d, false, false), [Encode("contents")], [body]);
      OneStep(State(d, false, false), Encode("contents"));
      OneStep(State(d, true, false), body);
    }
  }
}
