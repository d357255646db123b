/** Facts about concatenation and slices that the other modules share. */
module Sequences {
  lemma Associate<T>(a: seq<T>, b: seq<T>, c: seq<T>)
    ensures a + b + c == a + (b + c)
  {
  }

  lemma CutSum<T>(a: seq<T>, b: seq<T>, k: nat)
    requires k <= |a|
    ensures (a + b)[k..] == a[k..] + b && (a + b)[..k] == a[..k]
  {
  }

  lemma Glue<T>(s: seq<T>, k: nat, a: seq<T>, b: seq<T>)
    requires k <= |s| && s[k..] == a + b
    ensures s[..k] + a + b == s
  {
    assert s[..k] + (a + b) == s;
  }

  lemma Part<T>(s: seq<T>, o: nat, end: nat, lo: nat, hi: nat)
    requires o <= end <= |s| && lo <= hi <= end - o
    ensures s[o + lo..o + hi] == s[o..end][lo..hi]
  {
    var t := s[o..end];
    assert forall i :: lo <= i < hi ==> t[i] == s[o + i];
  }

  lemma Prefix<T>(a: seq<T>, b: seq<T>, lo: nat, hi: nat)
    requires lo <= hi <= |a|
    ensures (a + b)[lo..hi] == a[lo..hi]
  {
  }

  lemma Shift<T>(a: seq<T>, b: seq<T>)
    ensures a + b == if |b| == 0 then a else a + [b[0]] + b[1..]
  {
  }

  lemma Within<T>(s: seq<T>, k: nat, n: nat)
    requires k + n <= |s|
    ensures s[k..][..n] == s[k..k + n] && s[k..][n..] == s[k + n..]
  {
  }
}
