/** Copying a NAR from a reader to a writer by its structure. */
module NarStream {
  import opened Wrappers
  import opened Sequences
  import opened Bytes
  import opened NarScan
  import opened NarForwarder
  import opened Wire

  lemma FieldPieces(s: seq<Byte>, n: nat)
    requires 8 + n + Pad(n) <= |s| && n == UnpackU64(s[..8])
    ensures PackU64(n) + s[8..][..n] + s[8..][n..][..Pad(n)] == s[..8 + n + Pad(n)]
    ensures s[8..][n..][Pad(n)..] == s[8 + n + Pad(n)..]
    ensures s[8..][..n] == s[8..8 + n]
  {
    PackUnpack(s[..8]);
    Pieces(s, n, Pad(n));
  }

  lemma Pieces<T>(s: seq<T>, n: nat, pad: nat)
    requires 8 + n + pad <= |s|
    ensures s[..8] + s[8..][..n] + s[8..][n..][..pad] == s[..8 + n + pad]
    ensures s[8..][n..][pad..] == s[8 + n + pad..]
    ensures s[8..][..n] == s[8..8 + n]
  {
    Within(s, 8, n);
    Within(s, 8 + n, pad);
  }

  /** Read `n` bytes and write them; none are asked for when `n` is zero. */
  method ForwardBytes(src: StreamReader, dst: Sink, n: nat) returns (r: Option<seq<Byte>>)
    requires src.Valid()
    modifies src, src.transport, dst
    ensures src.Valid()
    ensures r.Some? <==> n <= |old(src.Unread())|
    ensures r.Some? ==> r.value == old(src.Unread())[..n] && src.Unread() == old(src.Unread())[n..]
    ensures r.Some? ==> dst.data == old(dst.data) + r.value
    ensures r.None? ==> dst.data == old(dst.data)
  {
    if n == 0 {
      assert dst.data + [] == dst.data;
      return Some([]);
    }
    r := src.ReadExactly(n);
    if r.Some? { dst.Write(r.value); }
  }

  /** The body of a field and its padding. */
  method ForwardPadded(src: StreamReader, dst: Sink, n: nat) returns (body: Option<seq<Byte>>, pad: seq<Byte>)
    requires src.Valid()
    modifies src, src.transport, dst
    ensures src.Valid()
    ensures body.Some? <==> n + Pad(n) <= |old(src.Unread())|
    ensures body.Some? ==>
              var s := old(src.Unread());
              && body.value == s[..n] && pad == s[n..][..Pad(n)] && src.Unread() == s[n..][Pad(n)..]
              && dst.data == old(dst.data) + body.value + pad
    ensures body.None? ==> old(dst.data) <= dst.data
  {
    body := ForwardBytes(src, dst, n);
    if body.None? { return None, []; }
    var rest := ForwardBytes(src, dst, Pad(n));
    if rest.None? { return None, []; }
    pad := rest.value;
  }

  /** Read one field and write it unchanged. A field that is not all there may
      have its first bytes written. */
  method ForwardToken(src: StreamReader, dst: Sink) returns (body: Option<seq<Byte>>, token: seq<Byte>)
    requires src.Valid()
    modifies src, src.transport, dst
    ensures src.Valid()
    ensures body.Some? <==> FieldSize(old(src.Unread())).Some?
    ensures body.Some? ==>
              var s, need := old(src.Unread()), FieldSize(old(src.Unread())).value;
              && body.value == FieldBody(s) && src.Unread() == s[need..]
              && token == s[..need] && dst.data == old(dst.data) + token
    ensures body.None? ==> old(dst.data) <= dst.data
  {
    ghost var s := src.Unread();
    var length := src.ReadUint64();
    if length.None? { return None, []; }
    var n := length.value;
    dst.Write(PackU64(n));
    var pad;
    body, pad := ForwardPadded(src, dst, n);
    if body.None? { return None, []; }
    FieldPieces(s, n);
    token := PackU64(n) + body.value + pad;
    ThreeWrites(old(dst.data), PackU64(n), body.value, pad);
  }

  lemma ThreeWrites<T>(a: seq<T>, b: seq<T>, c: seq<T>, d: seq<T>)
    ensures a + b + c + d == a + (b + c + d)
  {
  }

  /** What a field does to the counter, as the loop of `stream_parse_nar` reads
      it. */
  method Interpret(depth: int, afterContents: bool, raw: seq<Byte>) returns (depth': int, after': bool, ended: bool)
    ensures State(depth', after', ended) == Update(State(depth, afterContents, false), raw)
  {
    if afterContents { return depth, false, false; }
    Spelled(raw);
    if !AllAscii(raw) { return depth, false, false; }
    var tok := Decode(raw);
    if tok == "(" { return depth + 1, false, false; }
    if tok == ")" { return depth - 1, false, depth - 1 == 0; }
    return depth, tok == "contents", false;
  }

  /** `stream_parse_nar`: it takes and forwards exactly what the scan takes, and
      succeeds exactly when the scan finds the end. */
  method StreamParseNar(src: StreamReader, dst: Sink) returns (captured: Option<seq<Byte>>)
    requires src.Valid()
    modifies src, src.transport, dst
    ensures src.Valid()
    ensures var r := Scan(START, old(src.Unread()));
            && (captured.Some? <==> r.state.complete)
            && (captured.Some? ==> captured.value == r.out && src.Unread() == r.rest && dst.data == old(dst.data) + r.out)
            && (captured.None? ==> old(dst.data) + r.out <= dst.data)
  {
    var depth, afterContents, chunks := 0, false, [];
    ghost var r := Scan(START, src.Unread());
    assert [] + r.out == r.out && dst.data + [] == dst.data;
    while true
      invariant src.Valid() && dst.data == old(dst.data) + chunks
      invariant var now := Scan(State(depth, afterContents, false), src.Unread());
                r == Scanned(chunks + now.out, now.state, now.rest)
      decreases |src.Unread()|
    {
      ghost var s, st := src.Unread(), State(depth, afterContents, false);
      var raw, token := ForwardToken(src, dst);
      if raw.None? {
        assert chunks + [] == chunks;
        return None;
      }
      ghost var need := FieldSize(s).value;
      ghost var next := Update(st, raw.value);
      ghost var later := Scan(next, s[need..]);
      Associate(chunks, s[..need], later.out);
      Associate(old(dst.data), chunks, s[..need]);
      chunks := chunks + token;
      var ended;
      depth, afterContents, ended := Interpret(depth, afterContents, raw.value);
      if ended {
        assert chunks + [] == chunks;
        break;
      }
    }
    return Some(chunks);
  }
}
