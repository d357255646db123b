/** The stateful forwarder: bytes in, whole fields out, until the archive ends. */
module NarForwarder {
  import opened Wrappers
  import opened Sequences
  import opened Bytes
  import opened NarScan

  class Forwarder {
    var buf: seq<Byte>
    var depth: int
    var afterContents: bool
    var bodyLen: nat
    var inBody: bool
    var complete: bool

    /** A length that was read belongs to the field at the front. */
    ghost predicate Valid()
      reads this
    {
      inBody ==> |buf| >= 8 && bodyLen == UnpackU64(buf[..8])
    }

    ghost function Now(): State
      reads this
    {
      State(depth, afterContents, complete)
    }

    constructor ()
      ensures Valid() && buf == [] && Now() == START
    {
      buf, depth, afterContents, bodyLen, inBody, complete := [], 0, false, 0, false, false;
    }

    method ConsumeToken() returns (token: Option<seq<Byte>>)
      requires Valid()
      modifies this`buf, this`bodyLen, this`inBody
      ensures Valid()
      ensures FieldSize(old(buf)).None? ==> token.None? && buf == old(buf)
      ensures FieldSize(old(buf)).Some? ==>
                var need := FieldSize(old(buf)).value;
                token == Some(old(buf)[..need]) && buf == old(buf)[need..] && bodyLen == UnpackU64(old(buf)[..8])
    {
      if !inBody {
        if |buf| < 8 { return None; }
        bodyLen := UnpackU64(buf[..8]);
        inBody := true;
      }
      var need := 8 + bodyLen + Pad(bodyLen);
      if |buf| < need { return None; }
      token := Some(buf[..need]);
      buf := buf[need..];
      inBody := false;
    }

    method UpdateDepth(body: seq<Byte>)
      requires !complete
      modifies this`depth, this`afterContents, this`complete
      ensures Now() == Update(old(Now()), body)
    {
      if afterContents {
        afterContents := false;
        return;
      }
      Spelled(body);
      if !AllAscii(body) { return; }
      var tok := Decode(body);
      if tok == "(" {
        depth := depth + 1;
      } else if tok == ")" {
        depth := depth - 1;
        if depth == 0 { complete := true; }
      } else if tok == "contents" {
        afterContents := true;
      }
    }

    /** The fields that go out are those of one scan over what was buffered and
        what came in; a forwarder that is done takes nothing. */
    method Feed(data: seq<Byte>) returns (out: seq<seq<Byte>>)
      requires Valid()
      modifies this
      ensures Valid()
      ensures old(complete) ==> out == [] && Now() == old(Now()) && buf == old(buf)
      ensures !old(complete) ==> Scan(old(Now()), old(buf) + data) == Scanned(Concat(out), Now(), buf)
    {
      out := [];
      if complete { return; }
      ghost var whole := buf + data;
      buf := buf + data;
      assert inBody ==> buf[..8] == old(buf)[..8];
      assert Concat([]) + Scan(Now(), buf).out == Scan(Now(), buf).out;
      while true
        invariant Valid() && !complete
        invariant var r := Scan(Now(), buf); Scan(old(Now()), whole) == Scanned(Concat(out) + r.out, r.state, r.rest)
        decreases |buf|
      {
        ghost var before, st := buf, Now();
        ghost var r := Scan(st, before);
        var token := ConsumeToken();
        if token.None? {
          assert Concat(out) + [] == Concat(out);
          return;
        }
        ConcatSnoc(out, token.value);
        out := out + [token.value];
        var body := token.value[8..8 + bodyLen];
        assert body == FieldBody(before);
        UpdateDepth(body);
        ghost var next := Scan(Now(), buf);
        Associate(Concat(out[..|out| - 1]), token.value, next.out);
        assert out[..|out| - 1] + [token.value] == out;
        if complete {
          assert Concat(out) + [] == Concat(out);
          return;
        }
      }
    }
  }

  /** A field is one of the three keywords exactly when its text is. */
  lemma Spelled(body: seq<Byte>)
    ensures body in {Encode("("), Encode(")"), Encode("contents")} ==> AllAscii(body)
    ensures AllAscii(body) ==>
              && (Decode(body) == "(" <==> body == Encode("("))
              && (Decode(body) == ")" <==> body == Encode(")"))
              && (Decode(body) == "contents" <==> body == Encode("contents"))
  {
    DecodeEncode("(");
    DecodeEncode(")");
    DecodeEncode("contents");
    if AllAscii(body) { EncodeDecode(body); }
  }

  /** `nar_size`. */
  method NarSize(data: seq<Byte>) returns (size: Option<nat>)
    ensures var r := Scan(START, data); size == if r.state.complete then Some(|r.out|) else None
  {
    var forwarder := new Forwarder();
    var tokens := forwarder.Feed(data);
    assert [] + data == data;
    var offset := TotalLength(tokens);
    return if forwarder.complete then Some(offset) else None;
  }

  method TotalLength(tokens: seq<seq<Byte>>) returns (n: nat)
    ensures n == |Concat(tokens)|
  {
    n := 0;
    for i := 0 to |tokens|
      invariant n == |Concat(tokens[..i])|
    {
      ConcatSnoc(tokens[..i], tokens[i]);
      assert tokens[..i] + [tokens[i]] == tokens[..i + 1];
      n := n + |tokens[i]|;
    }
    assert tokens[..|tokens|] == tokens;
  }

  /** `forward_nar`, over whatever pieces the source is read in: what goes out
      depends on the bytes alone. */
  method ForwardNar(chunks: seq<seq<Byte>>) returns (out: seq<Byte>, complete: bool)
    ensures var r := Scan(START, Concat(chunks)); out == r.out && complete == r.state.complete
  {
    var forwarder := new Forwarder();
    out := [];
    assert chunks[0..] == chunks && [] + Concat(chunks) == Concat(chunks);
    assert [] + Scan(START, Concat(chunks)).out == Scan(START, Concat(chunks)).out;
    for i := 0 to |chunks|
      invariant forwarder.Valid() && !forwarder.complete
      invariant var r := Scan(forwarder.Now(), forwarder.buf + Concat(chunks[i..]));
                Scan(START, Concat(chunks)) == Scanned(out + r.out, r.state, r.rest)
      invariant Scan(forwarder.Now(), forwarder.buf) == Scanned([], forwarder.Now(), forwarder.buf)
    {
      ghost var st, held, later := forwarder.Now(), forwarder.buf, Concat(chunks[i + 1..]);
      assert chunks[i..][1..] == chunks[i + 1..];
      Associate(held, chunks[i], later);
      ScanSplit(st, held + chunks[i], later);
      ScanSettles(st, held + chunks[i]);
      ghost var sent := out;
      var tokens := forwarder.Feed(chunks[i]);
      out := out + Concat(tokens);
      Associate(sent, Concat(tokens), Scan(forwarder.Now(), forwarder.buf + later).out);
      if forwarder.complete {
        assert out + [] == out;
        return out, true;
      }
    }
    complete := false;
    assert forwarder.buf + [] == forwarder.buf && out + [] == out;
  }
}
