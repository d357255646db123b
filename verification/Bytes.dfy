/** Bytes, little-endian numbers and the padded fields of the Nix wire formats. */
module Bytes {
  type Byte = b: nat | b < 256

  const U64: nat := 0x1_0000_0000_0000_0000

  function Power(base: nat, k: nat): (p: nat)
    ensures base > 0 ==> p > 0
  {
    if k == 0 then 1 else base * Power(base, k - 1)
  }

  /** The number whose base-256 digits are `s`, least significant first. */
  function Value(s: seq<Byte>): nat {
    if |s| == 0 then 0 else s[0] + 256 * Value(s[1..])
  }

  /** The `k` low base-256 digits of `n`, least significant first. */
  function LittleEndian(n: nat, k: nat): (s: seq<Byte>)
    ensures |s| == k
  {
    if k == 0 then [] else [n % 256] + LittleEndian(n / 256, k - 1)
  }

  lemma {:induction false} ValueBelow(s: seq<Byte>)
    ensures Value(s) < Power(256, |s|)
  {
    if |s| > 0 { ValueBelow(s[1..]); }
  }

  lemma {:induction false} LittleEndianValue(n: nat, k: nat)
    requires n < Power(256, k)
    ensures Value(LittleEndian(n, k)) == n
  {
    if k > 0 {
      LittleEndianValue(n / 256, k - 1);
      assert LittleEndian(n, k)[1..] == LittleEndian(n / 256, k - 1);
    }
  }

  lemma {:induction false} ValueLittleEndian(s: seq<Byte>)
    ensures LittleEndian(Value(s), |s|) == s
  {
    if |s| > 0 { ValueLittleEndian(s[1..]); }
  }

  lemma EightBytes()
    ensures Power(256, 8) == U64
  {
    assert Power(256, 4) == 0x1_0000_0000;
    assert Power(256, 5) == 0x100_0000_0000;
    assert Power(256, 6) == 0x1_0000_0000_0000;
    assert Power(256, 7) == 0x100_0000_0000_0000;
  }

  /** `struct.pack("<Q", n)` of a number that fits. */
  function PackU64(n: nat): (s: seq<Byte>)
    ensures |s| == 8
  {
    LittleEndian(n, 8)
  }

  function UnpackU64(s: seq<Byte>): (n: nat)
    requires |s| == 8
    ensures n < U64
  {
    ValueBelow(s);
    EightBytes();
    Value(s)
  }

  lemma UnpackPack(n: nat)
    requires n < U64
    ensures UnpackU64(PackU64(n)) == n
  {
    EightBytes();
    LittleEndianValue(n, 8);
  }

  lemma PackUnpack(s: seq<Byte>)
    requires |s| == 8
    ensures PackU64(UnpackU64(s)) == s
  {
    ValueLittleEndian(s);
  }

  /** The padding that makes a length a multiple of eight. */
  function Pad(n: nat): (p: nat)
    ensures p < 8 && (n + p) % 8 == 0
  {
    (8 - n % 8) % 8
  }

  function Zeros(n: nat): (s: seq<Byte>)
    ensures |s| == n
  {
    seq(n, _ => 0)
  }

  /** A length, the bytes and the padding. */
  function Field(body: seq<Byte>): (f: seq<Byte>)
    ensures |f| == 8 + |body| + Pad(|body|)
    ensures f[..8] == PackU64(|body|) && f[8..8 + |body|] == body
    ensures forall i :: 8 + |body| <= i < |f| ==> f[i] == 0
  {
    PackU64(|body|) + body + Zeros(Pad(|body|))
  }

  function Fields(bodies: seq<seq<Byte>>): seq<Byte> {
    if |bodies| == 0 then [] else Field(bodies[0]) + Fields(bodies[1..])
  }

  lemma {:induction false} FieldsConcat(a: seq<seq<Byte>>, b: seq<seq<Byte>>)
    ensures Fields(a + b) == Fields(a) + Fields(b)
  {
    if |a| == 0 {
      assert a + b == b;
    } else {
      assert (a + b)[1..] == a[1..] + b;
      FieldsConcat(a[1..], b);
    }
  }

  function Concat(chunks: seq<seq<Byte>>): seq<Byte> {
    if |chunks| == 0 then [] else chunks[0] + Concat(chunks[1..])
  }

  lemma {:induction false} ConcatSnoc(chunks: seq<seq<Byte>>, last: seq<Byte>)
    ensures Concat(chunks + [last]) == Concat(chunks) + last
  {
    if |chunks| == 0 {
      assert chunks + [last] == [last] && [last][1..] == [];
    } else {
      assert (chunks + [last])[1..] == chunks[1..] + [last];
      ConcatSnoc(chunks[1..], last);
    }
  }

  // ---- text ----

  predicate IsAscii(s: string) {
    forall i :: 0 <= i < |s| ==> s[i] as int < 128
  }

  /** The ASCII bytes of a text; a character beyond ASCII becomes a question
      mark, and the writers refuse it first. */
  function Encode(s: string): (b: seq<Byte>)
    ensures |b| == |s|
  {
    seq(|s|, i requires 0 <= i < |s| => if s[i] as int < 128 then s[i] as int else 63)
  }

  predicate AllAscii(b: seq<Byte>) {
    forall i :: 0 <= i < |b| ==> b[i] < 128
  }

  function Decode(b: seq<Byte>): (s: string)
    requires AllAscii(b)
    ensures |s| == |b| && IsAscii(s)
  {
    seq(|b|, i requires 0 <= i < |b| => b[i] as char)
  }

  lemma DecodeEncode(s: string)
    requires IsAscii(s)
    ensures AllAscii(Encode(s)) && Decode(Encode(s)) == s
  {
  }

  lemma EncodeDecode(b: seq<Byte>)
    requires AllAscii(b)
    ensures Encode(Decode(b)) == b
  {
  }
}
