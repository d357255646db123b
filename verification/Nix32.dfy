/** Nix's base-32 text of a byte string. */
module Nix32 {
  import opened Bytes

  const CHARS: string := "0123456789abcdfghijklmnpqrsvwxyz"

  // ---- bits ----

  /** Python's `|` on non-negative numbers. */
  function BitOr(a: nat, b: nat): nat {
    if a == 0 && b == 0 then 0
    else (if a % 2 == 1 || b % 2 == 1 then 1 else 0) + 2 * BitOr(a / 2, b / 2)
  }

  lemma {:induction false} OrZero(a: nat)
    ensures BitOr(0, a) == a && BitOr(a, 0) == a
  {
    if a > 0 { OrZero(a / 2); }
  }

  /** Numbers without a common bit add up. */
  lemma {:induction false} OrAdds(a: nat, b: nat, k: nat)
    requires a < Power(2, k)
    ensures BitOr(a, b * Power(2, k)) == a + b * Power(2, k)
    decreases k
  {
    if k == 0 {
      OrZero(b);
    } else {
      var p := Power(2, k - 1);
      assert b * Power(2, k) == 2 * (b * p);
      OrAdds(a / 2, b, k - 1);
    }
  }

  // ---- digits ----

  /** The base-32 digit of `v` at place `n`. */
  function Digit(v: nat, n: nat): (d: nat)
    ensures d < 32
  {
    if n == 0 then v % 32 else Digit(v / 32, n - 1)
  }

  lemma {:induction false} DigitsDetermine(v: nat, w: nat, len: nat)
    requires v < Power(32, len) && w < Power(32, len)
    requires forall n :: 0 <= n < len ==> Digit(v, n) == Digit(w, n)
    ensures v == w
  {
    if len > 0 {
      assert Digit(v, 0) == Digit(w, 0);
      forall n | 0 <= n < len - 1
        ensures Digit(v / 32, n) == Digit(w / 32, n)
      { assert Digit(v, n + 1) == Digit(w, n + 1); }
      DigitsDetermine(v / 32, w / 32, len - 1);
    }
  }

  lemma {:induction false} PowerAdd(base: nat, i: nat, j: nat)
    ensures Power(base, i + j) == Power(base, i) * Power(base, j)
  {
    if i > 0 {
      PowerAdd(base, i - 1, j);
      MulAssociates(base, Power(base, i - 1), Power(base, j));
    }
  }

  lemma MulAssociates(a: nat, b: nat, c: nat)
    ensures a * b * c == a * (b * c)
  {
  }

  lemma Regroup(a: nat, b: nat, q: nat, r: nat)
    ensures a * (b * q + r) == (a * b) * q + a * r
  {
  }

  lemma RemainderFits(a: nat, b: nat, r: nat, r': nat)
    requires r < a && r' < b
    ensures a * r' + r < a * b
  {
    assert a * r' <= a * (b - 1);
  }

  lemma Compose(v: nat, a: nat, b: nat, q: nat, r: nat, r': nat)
    requires r < a && r' < b && v == a * (b * q + r') + r
    ensures a * b > 0 && v / (a * b) == q
  {
    Regroup(a, b, q, r');
    RemainderFits(a, b, r, r');
    Quotient(v, a * b, q, a * r' + r);
  }

  lemma DivDiv(v: nat, a: nat, b: nat)
    requires a > 0 && b > 0
    ensures a * b > 0 && v / a / b == v / (a * b)
  {
    var q := v / a;
    assert q == b * (q / b) + q % b;
    Compose(v, a, b, q / b, v % a, q % b);
  }

  lemma Quotient(v: nat, d: nat, q: nat, r: nat)
    requires d > 0 && r < d && v == d * q + r
    ensures v / d == q
  {
    if v / d > q {
      Larger(d, q, v / d);
    } else if v / d < q {
      Larger(d, v / d, q);
    }
  }

  lemma Larger(d: nat, q: nat, q': nat)
    requires q < q'
    ensures d * q + d <= d * q'
  {
    assert d * (q + 1) <= d * q';
  }

  /** The digit at place `n` is five bits from bit `5 * n` on. */
  lemma {:induction false} DigitBits(v: nat, n: nat)
    ensures Power(2, 5 * n) > 0 && Digit(v, n) == v / Power(2, 5 * n) % 32
    decreases n
  {
    if n > 0 {
      DigitBits(v / 32, n - 1);
      PowerAdd(2, 5, 5 * (n - 1));
      assert Power(2, 5) == 32;
      DivDiv(v, 32, Power(2, 5 * (n - 1)));
    }
  }

  // ---- the bytes under five bits ----

  lemma {:induction false} ValueSplit(s: seq<Byte>, i: nat)
    requires i <= |s|
    ensures Value(s) == Value(s[..i]) + Power(256, i) * Value(s[i..])
  {
    if i == 0 {
      assert s[0..] == s;
    } else {
      ValueSplit(s[1..], i - 1);
      assert s[..i][1..] == s[1..][..i - 1] && s[1..][i - 1..] == s[i..];
      MulAssociates(256, Power(256, i - 1), Value(s[i..]));
    }
  }

  lemma {:induction false} PowerOf256(i: nat)
    ensures Power(256, i) == Power(2, 8 * i)
  {
    if i > 0 {
      PowerOf256(i - 1);
      PowerAdd(2, 8, 8 * (i - 1));
      assert Power(2, 4) == 16;
      assert Power(2, 8) == 256;
    }
  }

  /** Bit `8 * i + j` on is bit `j` on of the bytes from byte `i`. */
  lemma FromByte(s: seq<Byte>, i: nat, j: nat)
    requires i <= |s|
    ensures Power(2, 8 * i + j) > 0 && Power(2, j) > 0
    ensures Value(s) / Power(2, 8 * i + j) == Value(s[i..]) / Power(2, j)
  {
    ValueSplit(s, i);
    ValueBelow(s[..i]);
    PowerOf256(i);
    PowerAdd(2, 8 * i, j);
    var p := Power(2, 8 * i);
    Quotient(Value(s), p, Value(s[i..]), Value(s[..i]));
    DivDiv(Value(s), p, Power(2, j));
  }

  lemma Small()
    ensures Power(2, 0) == 1 && Power(2, 1) == 2 && Power(2, 2) == 4 && Power(2, 3) == 8 && Power(2, 4) == 16
    ensures Power(2, 5) == 32 && Power(2, 6) == 64 && Power(2, 7) == 128 && Power(2, 8) == 256
  {
  }

  lemma Commute(a: nat, b: nat, c: nat)
    ensures a * b * c == a * (b * c) == b * (a * c) == c * (a * b)
  {
  }

  lemma Residue(x: nat, q: nat, r: nat)
    requires x == 32 * q + r
    ensures x % 32 == r % 32
  {
  }

  lemma AddMultiple(low: nat, d: nat, m: nat)
    requires d > 0
    ensures (low + d * m) / d == low / d + m
  {
    assert d * (low / d + m) == d * (low / d) + d * m;
    Quotient(low + d * m, d, low / d + m, low % d);
  }

  lemma Distribute(a: nat, b: nat, c: nat)
    ensures a * (b + c) == a * b + a * c
  {
  }

  lemma Spread(up: nat, high: nat, above: nat)
    ensures up * (high + 256 * above) == high * up + 32 * (8 * (up * above))
  {
    Distribute(up, high, 256 * above);
    Commute(up, 256, above);
  }

  lemma ShiftedDown(down: nat, up: nat, low: nat, t: nat)
    requires down > 0 && down * up == 256
    ensures (low + 256 * t) / down == low / down + up * t
  {
    Commute(down, up, t);
    AddMultiple(low, down, up * t);
  }

  /** Two bytes, and what is above them, seen from a bit of the first. */
  lemma FiveBits(down: nat, up: nat, low: nat, high: nat, above: nat)
    requires down > 0 && down * up == 256
    ensures (low + 256 * (high + 256 * above)) / down % 32 == (low / down + high * up) % 32
  {
    var t := high + 256 * above;
    ShiftedDown(down, up, low, t);
    Spread(up, high, above);
    Conclude((low + 256 * t) / down, low / down, up * t, high * up, 8 * (up * above));
  }

  lemma Conclude(x: nat, l: nat, p: nat, h: nat, w: nat)
    requires x == l + p && p == h + 32 * w
    ensures x % 32 == (l + h) % 32
  {
    Residue(x, w, l + h);
  }

  /** The powers that a shift by `j` and by `8 - j` multiply by; `m` says how the
      second one and 32 divide each other. */
  lemma Shifts(j: nat) returns (m: nat)
    requires j < 8
    ensures Power(2, j) > 0 && Power(2, 8 - j) > 0 && Power(2, j) * Power(2, 8 - j) == 256
    ensures if j <= 3 then Power(2, 8 - j) == 32 * m else m > 0 && Power(2, 8 - j) * m == 32
  {
    Small();
    PowerAdd(2, j, 8 - j);
    if j <= 3 {
      PowerAdd(2, 5, 3 - j);
      m := Power(2, 3 - j);
    } else {
      PowerAdd(2, 8 - j, j - 3);
      m := Power(2, j - 3);
    }
  }

  lemma SplitHigh(high: nat, up: nat, m: nat)
    requires m > 0 && up * m == 32
    ensures high * up == 32 * (high / m) + high % m * up
  {
    Regroup(up, m, high / m, high % m);
  }

  /** Two parts without a common bit. */
  lemma OrOfParts(a: nat, h: nat, q: nat, b: nat, up: nat, k: nat)
    requires up == Power(2, k) && a < up && h == 32 * q + b * up && a + b * up < 32
    ensures BitOr(a % 32, h % 32) == (a + h) % 32
  {
    OrAdds(a, b, k);
    LowBits(a, h, q, b * up);
  }

  lemma OrOfHigh(a: nat, high: nat, up: nat, k: nat, m: nat)
    requires up == Power(2, k) && a < up && m > 0 && up * m == 32
    ensures BitOr(a % 32, high * up % 32) == (a + high * up) % 32
  {
    SplitHigh(high, up, m);
    RemainderFits(up, m, a, high % m);
    OrOfParts(a, high * up, high / m, high % m, up, k);
  }

  lemma LowBits(a: nat, h: nat, q: nat, b: nat)
    requires h == 32 * q + b && a + b < 32
    ensures a % 32 == a && h % 32 == b && (a + h) % 32 == a + b
  {
  }

  lemma OrOfMultiple(a: nat, high: nat, up: nat, m: nat)
    requires up == 32 * m
    ensures BitOr(a % 32, high * up % 32) == (a + high * up) % 32
  {
    Commute(high, 32, m);
    Residue(high * up, high * m, 0);
    Residue(a + high * up, high * m, a);
    OrZero(a % 32);
  }

  lemma HighPartFits(down: nat, up: nat, low: nat)
    requires down > 0 && down * up == 256 && low < 256
    ensures low / down < up
  {
    if low / down >= up {
      if low / down > up { Larger(down, up, low / down); }
    }
  }

  /** `(low >> j) & 31 | (high << (8 - j)) & 31` is five bits of both. */
  lemma ShiftsAndMasks(j: nat, low: nat, high: nat, above: nat)
    requires j < 8 && low < 256
    ensures Power(2, j) > 0
    ensures BitOr(low / Power(2, j) % 32, high * Power(2, 8 - j) % 32)
         == (low + 256 * (high + 256 * above)) / Power(2, j) % 32
  {
    var m := Shifts(j);
    var down, up := Power(2, j), Power(2, 8 - j);
    FiveBits(down, up, low, high, above);
    if j <= 3 {
      OrOfMultiple(low / down, high, up, m);
    } else {
      HighPartFits(down, up, low);
      OrOfHigh(low / down, high, up, 8 - j, m);
    }
  }

  // ---- the text ----

  /** A character for every five bits, rounded up. */
  function Length(size: nat): nat {
    (8 * size + 4) / 5
  }

  /** The base-32 numeral of the bytes, most significant digit first. */
  function Text(data: seq<Byte>): (s: string)
    ensures |s| == Length(|data|)
  {
    var len := Length(|data|);
    seq(len, k requires 0 <= k < len => CHARS[Digit(Value(data), len - 1 - k)])
  }

  /** The five bits the loop cuts out for place `n`. */
  function Cut(data: seq<Byte>, n: nat): nat
    requires n * 5 / 8 < |data|
  {
    var i, j := n * 5 / 8, n * 5 % 8;
    var c := data[i] / Power(2, j) % 32;
    if i + 1 < |data| then BitOr(c, data[i + 1] * Power(2, 8 - j) % 32) else c
  }

  lemma TwoBytes(data: seq<Byte>, i: nat) returns (high: Byte, above: nat)
    requires i < |data|
    ensures Value(data[i..]) == data[i] + 256 * (high + 256 * above)
    ensures high == if i + 1 < |data| then data[i + 1] else 0
  {
    var rest := data[i + 1..];
    assert data[i..][1..] == rest;
    high := if |rest| > 0 then rest[0] else 0;
    above := if |rest| > 0 then Value(rest[1..]) else 0;
  }

  lemma DigitFromByte(data: seq<Byte>, n: nat, i: nat, j: nat)
    requires i <= |data| && 5 * n == 8 * i + j
    ensures Power(2, j) > 0 && Digit(Value(data), n) == Value(data[i..]) / Power(2, j) % 32
  {
    DigitBits(Value(data), n);
    FromByte(data, i, j);
  }

  lemma CutIsDigit(data: seq<Byte>, n: nat)
    requires n < Length(|data|)
    ensures n * 5 / 8 < |data| && Cut(data, n) == Digit(Value(data), n)
  {
    var i, j := n * 5 / 8, n * 5 % 8;
    DigitFromByte(data, n, i, j);
    var high, above := TwoBytes(data, i);
    ShiftsAndMasks(j, data[i], high, above);
    OrZero(data[i] / Power(2, j) % 32);
  }

  method Nix32Encode(data: seq<Byte>) returns (s: string)
    ensures s == Text(data)
  {
    if |data| == 0 { return ""; }
    var size := |data|;
    var len := (size * 8 - 1) / 5 + 1;
    s := "";
    var n := len;
    while n > 0
      invariant 0 <= n <= len && |s| == len - n
      invariant forall k :: 0 <= k < |s| ==> s[k] == Text(data)[k]
    {
      n := n - 1;
      CutIsDigit(data, n);
      var b := n * 5;
      var i, j := b / 8, b % 8;
      var c := data[i] / Power(2, j) % 32;
      if i + 1 < size {
        c := BitOr(c, data[i + 1] * Power(2, 8 - j) % 32);
      }
      s := s + [CHARS[c]];
    }
  }

  // ---- no two byte strings of one length share a text ----

  lemma NextCharIsLarger(c: nat)
    requires c < 31
    ensures CHARS[c] < CHARS[c + 1]
  {
  }

  lemma {:induction false} CharsAscend(c: nat, d: nat)
    requires c < d < 32
    ensures CHARS[c] < CHARS[d]
    decreases d
  {
    NextCharIsLarger(d - 1);
    if c < d - 1 { CharsAscend(c, d - 1); }
  }

  lemma CharsDiffer(c: nat, d: nat)
    requires c < 32 && d < 32 && CHARS[c] == CHARS[d]
    ensures c == d
  {
    if c < d {
      CharsAscend(c, d);
    } else if d < c {
      CharsAscend(d, c);
    }
  }

  lemma {:induction false} PowerGrows(base: nat, i: nat, j: nat)
    requires base > 0 && i <= j
    ensures Power(base, i) <= Power(base, j)
    decreases j
  {
    if i < j {
      PowerGrows(base, i, j - 1);
      assert Power(base, j) == base * Power(base, j - 1);
    }
  }

  lemma {:induction false} PowerOf32(n: nat)
    ensures Power(32, n) == Power(2, 5 * n)
  {
    if n > 0 {
      PowerOf32(n - 1);
      PowerAdd(2, 5, 5 * (n - 1));
      Small();
    }
  }

  lemma ValueFits(data: seq<Byte>)
    ensures Value(data) < Power(32, Length(|data|))
  {
    ValueBelow(data);
    PowerOf256(|data|);
    PowerOf32(Length(|data|));
    PowerGrows(2, 8 * |data|, 5 * Length(|data|));
  }

  lemma TextInjective(a: seq<Byte>, b: seq<Byte>)
    requires |a| == |b| && Text(a) == Text(b)
    ensures a == b
  {
    var len := Length(|a|);
    forall n | 0 <= n < len
      ensures Digit(Value(a), n) == Digit(Value(b), n)
    {
      assert Text(a)[len - 1 - n] == Text(b)[len - 1 - n];
      CharsDiffer(Digit(Value(a), n), Digit(Value(b), n));
    }
    ValueFits(a);
    ValueFits(b);
    DigitsDetermine(Value(a), Value(b), len);
    ValueLittleEndian(a);
    ValueLittleEndian(b);
  }
}
