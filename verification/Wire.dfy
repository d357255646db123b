/** Exact reads over a transport that delivers whatever pieces it likes. */
module Wire {
  import opened Wrappers
  import opened Sequences
  import opened Bytes

  /** The other side: the bytes still to come before it closes. */
  class Transport {
    var pending: seq<Byte>

    constructor (stream: seq<Byte>)
      ensures pending == stream
    {
      pending := stream;
    }

    /** One read: some bytes, as many as the transport likes up to `max`, and
        none only at the end. */
    method Read(max: nat) returns (chunk: seq<Byte>)
      requires max > 0
      modifies this
      ensures old(pending) == chunk + pending
      ensures |chunk| <= max && (chunk == [] <==> old(pending) == [])
    {
      if pending == [] { return []; }
      var k: nat :| 1 <= k <= max && k <= |pending|;
      chunk := pending[..k];
      pending := pending[k..];
    }

    /** The transport's own exact read, which loses what it has at the end. */
    method ReadExactly(n: nat) returns (r: Option<seq<Byte>>)
      modifies this
      ensures r.Some? <==> n <= |old(pending)|
      ensures r.Some? ==> r.value == old(pending)[..n] && pending == old(pending)[n..]
      ensures r.None? ==> pending == []
    {
      if n > |pending| {
        pending := [];
        return None;
      }
      r := Some(pending[..n]);
      pending := pending[n..];
    }
  }

  /** `UnixNixReader` and `SSHNixReader`, which differ in the read-ahead: 16 KiB
      and 256 KiB.
      `stream` is all the transport ever sends, `delivered` what the calls
      returned, and `lost` the counted bytes a failed call dropped. */
  class StreamReader {
    const transport: Transport
    const readAhead: nat
    var buf: seq<Byte>
    var pos: nat
    var bytesRead: nat
    ghost const stream: seq<Byte>
    ghost var delivered: seq<Byte>
    ghost var failed: bool
    ghost var lost: nat

    /** Until a call fails, the calls return consecutive slices of the stream
        and every counted byte is delivered or buffered. */
    ghost predicate Valid()
      reads this, transport
    {
      && pos <= |buf| && readAhead > 0
      && bytesRead == |delivered| + (|buf| - pos) + lost
      && (!failed ==> delivered + Unread() == stream && lost == 0)
      && (failed ==> Unread() == [])
    }

    ghost function Unread(): seq<Byte>
      requires pos <= |buf|
      reads this, transport
    {
      buf[pos..] + transport.pending
    }

    constructor (transport: Transport, readAhead: nat)
      requires readAhead > 0
      ensures Valid() && this.transport == transport && this.readAhead == readAhead
      ensures Unread() == transport.pending && delivered == [] && !failed && bytesRead == 0
    {
      this.transport, this.readAhead := transport, readAhead;
      buf, pos, bytesRead := [], 0, 0;
      stream, delivered, failed, lost := transport.pending, [], false, 0;
    }

    /** It succeeds exactly when the stream still holds `n` bytes. */
    method ReadExactly(n: nat) returns (r: Option<seq<Byte>>)
      requires Valid()
      modifies this, transport
      ensures Valid()
      ensures r.Some? <==> n <= |old(Unread())|
      ensures r.Some? ==> r.value == old(Unread())[..n] && Unread() == old(Unread())[n..]
      ensures r.Some? ==> delivered == old(delivered) + r.value && failed == old(failed) && lost == old(lost)
      ensures r.None? ==> failed && Unread() == [] && delivered == old(delivered)
    {
      if |buf| - pos >= n {
        r := ServeFromBuffer(n);
        return;
      }
      ghost var whole := Unread();
      var head := buf[pos..];
      buf, pos := [], 0;
      var need := n - |head|;
      assert whole == head + transport.pending;
      if need >= readAhead {
        r := ReadThrough(head, need, whole);
      } else {
        r := ReadAhead(head, need, whole);
      }
    }

    method ServeFromBuffer(n: nat) returns (r: Option<seq<Byte>>)
      requires Valid() && n <= |buf| - pos
      modifies this
      ensures Valid()
      ensures r.Some? && r.value == old(Unread())[..n] && Unread() == old(Unread())[n..] && n <= |old(Unread())|
      ensures delivered == old(delivered) + r.value && failed == old(failed) && lost == old(lost)
    {
      var out := buf[pos..pos + n];
      CutSum(buf[pos..], transport.pending, n);
      assert buf[pos..][..n] == out && buf[pos..][n..] == buf[pos + n..];
      Glue(Unread(), n, Unread()[n..], []);
      Moved(delivered, Unread(), n);
      pos := pos + n;
      delivered := delivered + out;
      r := Some(out);
    }

    /** A large read goes straight through. */
    method ReadThrough(head: seq<Byte>, need: nat, ghost whole: seq<Byte>) returns (r: Option<seq<Byte>>)
      requires buf == [] && pos == 0 && readAhead > 0
      requires whole == head + transport.pending
      requires bytesRead == |delivered| + |head| + lost
      requires !failed ==> delivered + whole == stream && lost == 0
      requires failed ==> whole == []
      requires need > 0
      modifies this, transport
      ensures Valid()
      ensures r.Some? <==> |head| + need <= |whole|
      ensures r.Some? ==> r.value == whole[..|head| + need] && Unread() == whole[|head| + need..]
      ensures r.Some? ==> delivered == old(delivered) + r.value && failed == old(failed) && lost == old(lost)
      ensures r.None? ==> failed && Unread() == [] && delivered == old(delivered)
    {
      var data := transport.ReadExactly(need);
      if data.None? {
        failed, lost := true, lost + |head|;
        return None;
      }
      bytesRead := bytesRead + need;
      HeadAndMore(head, old(transport.pending), need);
      Moved(delivered, whole, |head| + need);
      delivered := delivered + (head + data.value);
      return Some(head + data.value);
    }

    /** A small read fills the buffer and keeps what it did not need. */
    method ReadAhead(head: seq<Byte>, n: nat, ghost whole: seq<Byte>) returns (r: Option<seq<Byte>>)
      requires buf == [] && pos == 0 && readAhead > 0
      requires whole == head + transport.pending
      requires bytesRead == |delivered| + |head| + lost
      requires !failed ==> delivered + whole == stream && lost == 0
      requires failed ==> whole == []
      requires n > 0
      modifies this, transport
      ensures Valid()
      ensures r.Some? <==> |head| + n <= |whole|
      ensures r.Some? ==> r.value == whole[..|head| + n] && Unread() == whole[|head| + n..]
      ensures r.Some? ==> delivered == old(delivered) + r.value && failed == old(failed) && lost == old(lost)
      ensures r.None? ==> failed && Unread() == [] && delivered == old(delivered)
    {
      var got, need: nat := head, n;
      while need > 0
        invariant |got| + need == |head| + n
        invariant pos <= |buf| && delivered == old(delivered) && failed == old(failed) && lost == old(lost)
        invariant bytesRead == |delivered| + |got| + (|buf| - pos) + lost
        invariant need > 0 ==> buf == [] && pos == 0
        invariant whole == got + (buf[pos..] + transport.pending)
        decreases need
      {
        ghost var before := transport.pending;
        var chunk := transport.Read(readAhead);
        if chunk == [] {
          assert whole == got + [];
          failed, lost := true, lost + |got|;
          return None;
        }
        bytesRead := bytesRead + |chunk|;
        if |chunk| >= need {
          Served(got, chunk, need, transport.pending);
          got := got + chunk[..need];
          buf, pos, need := chunk, need, 0;
        } else {
          Associate(got, chunk, transport.pending);
          assert [] + before == before && [] + transport.pending == transport.pending;
          got, need := got + chunk, need - |chunk|;
        }
      }
      assert whole[..|got|] == got && whole[|got|..] == buf[pos..] + transport.pending;
      Moved(delivered, whole, |got|);
      delivered := delivered + got;
      return Some(got);
    }

    method ReadUint64() returns (r: Option<nat>)
      requires Valid()
      modifies this, transport
      ensures Valid()
      ensures r.Some? <==> 8 <= |old(Unread())|
      ensures r.Some? ==> r.value == UnpackU64(old(Unread())[..8]) && Unread() == old(Unread())[8..]
      ensures r.None? ==> Unread() == []
    {
      var bytes :- ReadExactly(8);
      return Some(UnpackU64(bytes));
    }
  }

  lemma Moved<T>(done: seq<T>, ahead: seq<T>, n: nat)
    requires n <= |ahead|
    ensures done + ahead[..n] + ahead[n..] == done + ahead
  {
    assert ahead[..n] + ahead[n..] == ahead;
    Associate(done, ahead[..n], ahead[n..]);
  }

  lemma HeadAndMore<T>(head: seq<T>, more: seq<T>, need: nat)
    requires need <= |more|
    ensures (head + more)[..|head| + need] == head + more[..need]
    ensures (head + more)[|head| + need..] == more[need..]
  {
  }

  lemma Served<T>(got: seq<T>, chunk: seq<T>, need: nat, pending: seq<T>)
    requires need <= |chunk|
    ensures got + ([] + (chunk + pending)) == got + chunk[..need] + (chunk[need..] + pending)
  {
  }

  /** Where a writer's bytes go. */
  class Sink {
    var data: seq<Byte>

    constructor ()
      ensures data == []
    {
      data := [];
    }

    method Write(bytes: seq<Byte>)
      modifies this
      ensures data == old(data) + bytes
    {
      data := data + bytes;
    }
  }
}
