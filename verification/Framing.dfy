/** Framed streams: frames of a length and that many bytes, closed by a zero
    length. A frame boundary carries no meaning. */
module Framing {
  import opened Wrappers
  import opened Sequences
  import opened Bytes
  import opened Wire

  /** What a framed stream holds: the bytes of its whole frames, whether it is
      closed, and what lies behind. */
  datatype Unframed = Unframed(payload: seq<Byte>, closed: bool, rest: seq<Byte>)

  function Unframe(s: seq<Byte>): Unframed
    decreases |s|
  {
    if |s| < 8 then Unframed([], false, s) else
      var size := UnpackU64(s[..8]);
      if size == 0 then Unframed([], true, s[8..])
      else if |s| < 8 + size then Unframed([], false, s)
      else
        var u := Unframe(s[8 + size..]);
        Unframed(s[8..8 + size] + u.payload, u.closed, u.rest)
  }

  function FrameBytes(frames: seq<seq<Byte>>): seq<Byte> {
    if |frames| == 0 then [] else PackU64(|frames[0]|) + frames[0] + FrameBytes(frames[1..])
  }

  /** Frames a reader takes as frames. */
  ghost predicate Proper(frames: seq<seq<Byte>>) {
    forall f :: f in frames ==> 0 < |f| < U64
  }

  lemma OneFrame(frame: seq<Byte>, tail: seq<Byte>)
    requires 0 < |frame| < U64
    ensures var u := Unframe(tail);
            Unframe(PackU64(|frame|) + frame + tail) == Unframed(frame + u.payload, u.closed, u.rest)
  {
    var s := PackU64(|frame|) + frame + tail;
    UnpackPack(|frame|);
    assert s[..8] == PackU64(|frame|);
    assert s[8..8 + |frame|] == frame && s[8 + |frame|..] == tail;
  }

  lemma {:induction false} UnframeFrames(frames: seq<seq<Byte>>, tail: seq<Byte>)
    requires Proper(frames)
    ensures var u := Unframe(tail);
            Unframe(FrameBytes(frames) + tail) == Unframed(Concat(frames) + u.payload, u.closed, u.rest)
  {
    var u := Unframe(tail);
    if |frames| == 0 {
      assert [] + tail == tail && [] + u.payload == u.payload;
    } else {
      UnframeFrames(frames[1..], tail);
      Associate(PackU64(|frames[0]|) + frames[0], FrameBytes(frames[1..]), tail);
      OneFrame(frames[0], FrameBytes(frames[1..]) + tail);
      Associate(frames[0], Concat(frames[1..]), u.payload);
    }
  }

  lemma Closing(tail: seq<Byte>)
    ensures Unframe(PackU64(0) + tail) == Unframed([], true, tail)
  {
    UnpackPack(0);
    assert (PackU64(0) + tail)[..8] == PackU64(0) && (PackU64(0) + tail)[8..] == tail;
  }

  /** A reader finds the same bytes, and the same end, in any two proper
      framings of one payload. */
  lemma FramingCarriesNoMeaning(frames: seq<seq<Byte>>, others: seq<seq<Byte>>, tail: seq<Byte>)
    requires Proper(frames) && Proper(others) && Concat(frames) == Concat(others)
    ensures Unframe(FrameBytes(frames) + (PackU64(0) + tail)) == Unframe(FrameBytes(others) + (PackU64(0) + tail))
    ensures Unframe(FrameBytes(frames) + (PackU64(0) + tail)) == Unframed(Concat(frames), true, tail)
  {
    UnframeFrames(frames, PackU64(0) + tail);
    UnframeFrames(others, PackU64(0) + tail);
    Closing(tail);
    assert Concat(frames) + [] == Concat(frames);
  }

  lemma {:induction false} FrameBytesSnoc(frames: seq<seq<Byte>>, last: seq<Byte>)
    ensures FrameBytes(frames + [last]) == FrameBytes(frames) + (PackU64(|last|) + last)
  {
    if |frames| == 0 {
      assert frames + [last] == [last] && [last][1..] == [];
    } else {
      assert (frames + [last])[1..] == frames[1..] + [last];
      FrameBytesSnoc(frames[1..], last);
      Associate(PackU64(|frames[0]|) + frames[0], FrameBytes(frames[1..]), PackU64(|last|) + last);
    }
  }

  function Sizes(frames: seq<seq<Byte>>): seq<nat> {
    seq(|frames|, i requires 0 <= i < |frames| => |frames[i]|)
  }

  lemma OneMoreFrame(before: seq<Byte>, frames: seq<seq<Byte>>, last: seq<Byte>)
    ensures before + FrameBytes(frames) + PackU64(|last|) + last == before + FrameBytes(frames + [last])
    ensures Sizes(frames + [last]) == Sizes(frames) + [|last|]
    ensures Concat(frames + [last]) == Concat(frames) + last
  {
    FrameBytesSnoc(frames, last);
    ConcatSnoc(frames, last);
    Associate(before, FrameBytes(frames), PackU64(|last|) + last);
    Associate(before + FrameBytes(frames), PackU64(|last|), last);
  }

  /** A whole frame at the front. */
  lemma UnframeStep(s: seq<Byte>)
    requires |s| >= 8 && 0 < UnpackU64(s[..8]) <= |s| - 8
    ensures var size := UnpackU64(s[..8]);
            var u := Unframe(s[8..][size..]);
            Unframe(s) == Unframed(s[8..][..size] + u.payload, u.closed, u.rest)
  {
    Within(s, 8, UnpackU64(s[..8]));
  }

  /** One step along a framed stream. */
  datatype Piece = Broken | End | Data(bytes: seq<Byte>)

  method ReadFrame(src: StreamReader) returns (p: Piece)
    requires src.Valid()
    modifies src, src.transport
    ensures src.Valid()
    ensures p.Broken? ==> Unframe(old(src.Unread())) == Unframed([], false, old(src.Unread())) && src.Unread() == []
    ensures p.End? ==> Unframe(old(src.Unread())) == Unframed([], true, src.Unread())
    ensures p.Data? ==>
              var u := Unframe(src.Unread());
              && 0 < |p.bytes| && |src.Unread()| < |old(src.Unread())|
              && Unframe(old(src.Unread())) == Unframed(p.bytes + u.payload, u.closed, u.rest)
  {
    ghost var s := src.Unread();
    var size := src.ReadUint64();
    if size.None? { return Broken; }
    if size.value == 0 { return End; }
    var data := src.ReadExactly(size.value);
    if data.None? { return Broken; }
    UnframeStep(s);
    return Data(data.value);
  }

  // ---- forward_framed ----

  /** The frames sent so far and the bytes that wait for the next one. */
  class Gatherer {
    const dst: Sink
    const chunkSize: int
    var pending: seq<Byte>
    var sent: seq<nat>
    ghost const before: seq<Byte>
    ghost var frames: seq<seq<Byte>>

    ghost predicate Valid()
      reads this, dst
    {
      dst.data == before + FrameBytes(frames) && Proper(frames) && sent == Sizes(frames)
    }

    ghost predicate Large()
      reads this
    {
      forall f :: f in frames ==> |f| >= chunkSize
    }

    /** All bytes taken, in order. */
    ghost function Taken(): seq<Byte>
      reads this
    {
      Concat(frames) + pending
    }

    constructor (dst: Sink, chunkSize: int)
      ensures Valid() && Large() && this.dst == dst && this.chunkSize == chunkSize
      ensures Taken() == [] && before == dst.data
    {
      this.dst, this.chunkSize := dst, chunkSize;
      pending, sent, before, frames := [], [], dst.data, [];
      new;
      assert dst.data + [] == dst.data;
    }

    /** Send what waits as one frame; nothing waits, nothing is sent. A length
        of 2^64 or more cannot be written. */
    method Flush() returns (ok: bool)
      requires Valid()
      modifies this, dst
      ensures Valid()
      ensures ok == (|old(pending)| < U64)
      ensures ok ==> frames == old(frames) + (if old(pending) == [] then [] else [old(pending)]) && pending == []
      ensures ok ==> Concat(frames) == Taken() == old(Taken())
      ensures !ok ==> frames == old(frames) && pending == old(pending)
    {
      if pending == [] {
        assert frames + [] == frames && Concat(frames) + [] == Concat(frames);
        return true;
      }
      if |pending| >= U64 { return false; }
      OneMoreFrame(before, frames, pending);
      dst.Write(PackU64(|pending|));
      dst.Write(pending);
      sent := sent + [|pending|];
      frames := frames + [pending];
      pending := [];
      assert Concat(frames) + [] == Concat(frames);
      return true;
    }

    method Add(data: seq<Byte>) returns (ok: bool)
      requires Valid() && Large()
      modifies this, dst
      ensures Valid() && Large()
      ensures Taken() == old(Taken()) + data
      ensures |Taken()| < U64 ==> ok
    {
      Associate(Concat(frames), pending, data);
      pending := pending + data;
      if |pending| < chunkSize { return true; }
      ghost var old_ := frames;
      ok := Flush();
      assert forall f :: f in frames ==> f in old_ || f == old(pending) + data;
    }
  }

  /** Take frames until the stream closes or breaks. */
  method Gather(src: StreamReader, gather: Gatherer) returns (closed: bool)
    requires src.Valid() && gather.Valid() && gather.Large() && gather.Taken() == []
    modifies src, src.transport, gather, gather.dst
    ensures src.Valid() && gather.Valid() && gather.Large()
    ensures var u := Unframe(old(src.Unread()));
            && (closed ==> u == Unframed(gather.Taken(), true, src.Unread()))
            && (!closed ==> Concat(gather.frames) <= u.payload && (u.closed ==> |u.payload| >= U64))
  {
    ghost var u := Unframe(src.Unread());
    assert [] + u.payload == u.payload;
    while true
      invariant src.Valid() && gather.Valid() && gather.Large()
      invariant var v := Unframe(src.Unread()); u == Unframed(gather.Taken() + v.payload, v.closed, v.rest)
      decreases |src.Unread()|
    {
      ghost var taken := gather.Taken();
      var piece := ReadFrame(src);
      if piece.Broken? { return false; }
      if piece.End? {
        assert taken + [] == taken;
        return true;
      }
      Associate(taken, piece.bytes, Unframe(src.Unread()).payload);
      var added := gather.Add(piece.bytes);
      if !added { return false; }
    }
  }

  lemma AllButTheLast(before: seq<seq<Byte>>, frames: seq<seq<Byte>>, chunkSize: int)
    requires forall f :: f in before ==> |f| >= chunkSize
    requires |frames| <= |before| + 1 && before <= frames
    ensures forall i :: 0 <= i < |frames| - 1 ==> |frames[i]| >= chunkSize
  {
    assert forall i :: 0 <= i < |before| ==> frames[i] == before[i];
  }

  /** The last frame and the closing zero. */
  method CloseFrames(gather: Gatherer) returns (ok: bool, sent: seq<nat>, ghost frames: seq<seq<Byte>>)
    requires gather.Valid() && gather.Large()
    modifies gather, gather.dst
    ensures Proper(frames) && sent == Sizes(frames)
    ensures forall i :: 0 <= i < |frames| - 1 ==> |frames[i]| >= gather.chunkSize
    ensures |old(gather.Taken())| < U64 ==> ok
    ensures ok ==> Concat(frames) == old(gather.Taken()) && gather.dst.data == gather.before + FrameBytes(frames) + PackU64(0)
    ensures !ok ==> Concat(frames) <= old(gather.Taken()) && gather.dst.data == gather.before + FrameBytes(frames)
  {
    ghost var before := gather.frames;
    ok := gather.Flush();
    sent, frames := gather.sent, gather.frames;
    AllButTheLast(before, frames, gather.chunkSize);
    if ok { gather.dst.Write(PackU64(0)); }
  }

  /** `forward_framed`: the payload goes out in non-empty frames and one closing
      zero, whatever the frames that came in and the chunk size. */
  method ForwardFramed(src: StreamReader, dst: Sink, chunkSize: int)
    returns (ok: bool, sent: seq<nat>, ghost frames: seq<seq<Byte>>)
    requires src.Valid()
    modifies src, src.transport, dst
    ensures src.Valid() && Proper(frames) && sent == Sizes(frames)
    ensures forall i :: 0 <= i < |frames| - 1 ==> |frames[i]| >= chunkSize
    ensures var u := Unframe(old(src.Unread()));
            && (u.closed && |u.payload| < U64 ==> ok)
            && (ok ==> u.closed && src.Unread() == u.rest && Concat(frames) == u.payload
                       && dst.data == old(dst.data) + FrameBytes(frames) + PackU64(0))
            && (!ok ==> dst.data == old(dst.data) + FrameBytes(frames) && Concat(frames) <= u.payload)
  {
    var gather := new Gatherer(dst, chunkSize);
    ok := Gather(src, gather);
    sent, frames := gather.sent, gather.frames;
    if ok { ok, sent, frames := CloseFrames(gather); }
  }

  // ---- FramedReader ----

  lemma Refill<T>(buf: seq<T>, pos: nat, bytes: seq<T>, later: seq<T>)
    requires pos <= |buf|
    ensures (buf + bytes)[pos..] + later == buf[pos..] + (bytes + later)
  {
    CutSum(buf, bytes, pos);
    Associate(buf[pos..], bytes, later);
  }

  const COMPACT_ABOVE: nat := 64 * 1024

  /** Exact reads of the bytes inside the frames. */
  class FramedReader {
    const src: StreamReader
    var buf: seq<Byte>
    var pos: nat
    var eof: bool

    ghost predicate Valid()
      reads this, src, src.transport
    {
      pos <= |buf| && src.Valid()
    }

    /** The bytes the reader can still give. */
    ghost function Logical(): seq<Byte>
      requires Valid()
      reads this, src, src.transport
    {
      buf[pos..] + if eof then [] else Unframe(src.Unread()).payload
    }

    ghost predicate Closed()
      requires Valid()
      reads this, src, src.transport
    {
      eof || Unframe(src.Unread()).closed
    }

    /** What lies behind the framed stream. */
    ghost function Rest(): seq<Byte>
      requires Valid()
      reads this, src, src.transport
    {
      if eof then src.Unread() else Unframe(src.Unread()).rest
    }

    constructor (src: StreamReader)
      requires src.Valid()
      ensures Valid() && this.src == src && !eof && Logical() == Unframe(src.Unread()).payload
    {
      this.src := src;
      buf, pos, eof := [], 0, false;
      new;
      assert [] + Unframe(src.Unread()).payload == Unframe(src.Unread()).payload;
    }

    method Compact()
      requires pos <= |buf|
      modifies this`buf, this`pos
      ensures pos == 0 && buf == old(buf)[old(pos)..]
    {
      buf, pos := buf[pos..], 0;
    }

    method Take(n: nat) returns (result: seq<Byte>)
      requires pos + n <= |buf|
      modifies this`buf, this`pos
      ensures pos <= |buf| && result == old(buf[pos..])[..n] && buf[pos..] == old(buf[pos..])[n..]
    {
      result := buf[pos..pos + n];
      Within(buf, pos, n);
      pos := pos + n;
      if pos > COMPACT_ABOVE { Compact(); }
    }

    /** Take one more frame, or note the end; `false` when the stream breaks. */
    method Fill() returns (ok: bool)
      requires Valid() && !eof
      modifies this`buf, this`eof, src, src.transport
      ensures Valid() && Logical() == old(Logical())
      ensures old(Closed()) ==> ok && Closed() && Rest() == old(Rest())
      ensures ok && !eof ==> |src.Unread()| < |old(src.Unread())|
      ensures ok && eof ==> buf == old(buf) && old(Closed())
      ensures !ok ==> buf == old(buf) && !eof && src.Unread() == []
    {
      var piece := ReadFrame(src);
      if piece.Broken? {
        assert Unframe([]).payload == [];
        return false;
      }
      if piece.End? {
        eof := true;
        return true;
      }
      Refill(buf, pos, piece.bytes, Unframe(src.Unread()).payload);
      buf := buf + piece.bytes;
      return true;
    }

    /** Take frames until `n` bytes are there. */
    method FillTo(n: nat) returns (ok: bool)
      requires Valid()
      modifies this`buf, this`eof, src, src.transport
      ensures Valid() && Logical() == old(Logical())
      ensures ok ==> n <= |buf| - pos
      ensures !ok ==> |Logical()| < n
      ensures old(Closed()) ==> Closed() && Rest() == old(Rest())
    {
      while |buf| - pos < n
        invariant Valid() && Logical() == old(Logical())
        invariant old(Closed()) ==> Closed() && Rest() == old(Rest())
        decreases !eof, |src.Unread()|
      {
        if eof { return false; }
        ok := Fill();
        if !ok || eof { return false; }
      }
      return true;
    }

    /** It succeeds exactly when the frames still hold `n` bytes; a call that
        fails takes none of them. */
    method ReadExactly(n: nat) returns (r: Option<seq<Byte>>)
      requires Valid()
      modifies this, src, src.transport
      ensures Valid()
      ensures r.Some? <==> n <= |old(Logical())|
      ensures r.Some? ==> r.value == old(Logical())[..n] && Logical() == old(Logical())[n..]
      ensures r.None? ==> Logical() == old(Logical())
      ensures old(Closed()) ==> Closed() && Rest() == old(Rest())
    {
      var ok := FillTo(n);
      if !ok { return None; }
      CutSum(buf[pos..], if eof then [] else Unframe(src.Unread()).payload, n);
      var result := Take(n);
      return Some(result);
    }

    /** Skip to the end of the framed stream. */
    method EnsureEof() returns (ok: bool)
      requires Valid()
      modifies this`eof, src, src.transport
      ensures Valid() && ok == old(Closed()) == eof
      ensures ok ==> src.Unread() == old(Rest())
    {
      if eof { return true; }
      while true
        invariant Valid() && !eof && Closed() == old(Closed()) && Rest() == old(Rest())
        decreases |src.Unread()|
      {
        var piece := ReadFrame(src);
        if piece.Broken? { return false; }
        if piece.End? {
          eof := true;
          return true;
        }
      }
    }
  }
}
