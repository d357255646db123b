/** Python's order on strings, and its stable `sorted`. */
module Ordering {

  /** Code point by code point; a proper prefix comes first. */
  predicate Le(a: string, b: string) {
    |a| == 0 || (|b| > 0 && (a[0] < b[0] || (a[0] == b[0] && Le(a[1..], b[1..]))))
  }

  lemma LeTotal(a: string, b: string)
    ensures Le(a, b) || Le(b, a)
  {
  }

  lemma LeTransitive(a: string, b: string, c: string)
    requires Le(a, b) && Le(b, c)
    ensures Le(a, c)
  {
  }

  lemma {:induction false} LeAntisymmetric(a: string, b: string)
    requires Le(a, b) && Le(b, a)
    ensures a == b
  {
    if |a| > 0 {
      LeAntisymmetric(a[1..], b[1..]);
      assert a == [a[0]] + a[1..] && b == [b[0]] + b[1..];
    }
  }

  ghost predicate NoDuplicates<T>(s: seq<T>) {
    forall i, j :: 0 <= i < j < |s| ==> s[i] != s[j]
  }

  function Elements<T>(s: seq<T>): set<T> {
    set x | x in s
  }

  lemma ElementsConcat<T>(a: seq<T>, b: seq<T>)
    ensures Elements(a + b) == Elements(a) + Elements(b)
  {
  }

  lemma {:induction false} ElementsSize<T>(s: seq<T>)
    requires NoDuplicates(s)
    ensures |Elements(s)| == |s|
  {
    if |s| > 0 {
      var front := s[..|s| - 1];
      ElementsSize(front);
      assert s == front + [s[|s| - 1]];
      assert Elements(s) == Elements(front) + {s[|s| - 1]};
    }
  }

  ghost predicate Ascending(s: seq<string>) {
    forall i, j :: 0 <= i < j < |s| ==> Le(s[i], s[j])
  }

  lemma {:induction false} LeastExists(s: set<string>) returns (m: string)
    requires s != {}
    ensures m in s && forall x :: x in s ==> Le(m, x)
  {
    var some :| some in s;
    var rest := s - {some};
    LeTotal(some, some);
    m := some;
    if rest != {} {
      var n := LeastExists(rest);
      LeTotal(some, n);
      m := if Le(some, n) then some else n;
      forall x | x in s
        ensures Le(m, x)
      {
        if x != some {
          assert x in rest;
          if m == some { LeTransitive(some, n, x); }
        }
      }
    } else {
      assert forall x :: x in s ==> x == some || x in rest;
    }
  }

  function Least(s: set<string>): (m: string)
    requires s != {}
    ensures m in s && forall x :: x in s ==> Le(m, x)
  {
    ghost var least := LeastIn(s);
    assert forall a, b :: Le(a, b) && Le(b, a) ==> a == b by {
      forall a, b | Le(a, b) && Le(b, a)
        ensures a == b
      { LeAntisymmetric(a, b); }
    }
    var m :| m in s && forall x :: x in s ==> Le(m, x);
    m
  }

  ghost function LeastIn(s: set<string>): (m: string)
    requires s != {}
    ensures m in s && forall x :: x in s ==> Le(m, x)
  {
    assert exists n :: n in s && forall x :: x in s ==> Le(n, x) by {
      var n := LeastExists(s);
    }
    var n :| n in s && forall x :: x in s ==> Le(n, x);
    n
  }

  lemma ConsAscending(m: string, rest: seq<string>, s: set<string>)
    requires m in s && Elements(rest) == s - {m}
    requires forall x :: x in s ==> Le(m, x)
    requires NoDuplicates(rest) && Ascending(rest)
    ensures Elements([m] + rest) == s
    ensures NoDuplicates([m] + rest) && Ascending([m] + rest)
  {
    ElementsConcat([m], rest);
    assert forall i :: 0 <= i < |rest| ==> rest[i] in Elements(rest);
  }

  /** `sorted` of a set of strings. */
  function Sorted(s: set<string>): (r: seq<string>)
    ensures Elements(r) == s
    ensures |r| == |s|
    ensures NoDuplicates(r) && Ascending(r)
  {
    if s == {} then [] else
      var m := Least(s);
      var rest := Sorted(s - {m});
      ConsAscending(m, rest, s);
      [m] + rest
  }

  /** The smallest number, as `heappop` gives it. */
  function Smallest(s: set<nat>): (m: nat)
    requires s != {}
    ensures m in s && forall x :: x in s ==> m <= x
  {
    assert exists m :: m in s && forall x :: x in s ==> m <= x by { var n := SmallestExists(s); }
    var m :| m in s && forall x :: x in s ==> m <= x;
    m
  }

  lemma {:induction false} SmallestExists(s: set<nat>) returns (m: nat)
    requires s != {}
    ensures m in s && forall x :: x in s ==> m <= x
  {
    var some :| some in s;
    var rest := s - {some};
    m := some;
    if rest != {} {
      var n := SmallestExists(rest);
      m := if n < some then n else some;
    }
    forall x | x in s
      ensures m <= x
    {
      if x != some { assert x in rest; }
    }
  }

  // ---- sorted(key=...) ----

  ghost predicate Preorder<T(!new)>(le: (T, T) -> bool) {
    && (forall a, b :: le(a, b) || le(b, a))
    && (forall a, b, c :: le(a, b) && le(b, c) ==> le(a, c))
  }

  ghost predicate InOrder<T>(le: (T, T) -> bool, s: seq<T>) {
    forall i, j :: 0 <= i < j < |s| ==> le(s[i], s[j])
  }

  function Insert<T>(le: (T, T) -> bool, x: T, s: seq<T>): (r: seq<T>)
    ensures |r| == |s| + 1
    ensures multiset(r) == multiset(s) + multiset{x}
  {
    if |s| == 0 || le(x, s[0]) then
      [x] + s
    else
      assert s == [s[0]] + s[1..];
      [s[0]] + Insert(le, x, s[1..])
  }

  lemma {:induction false} InsertInOrder<T(!new)>(le: (T, T) -> bool, x: T, s: seq<T>)
    requires Preorder(le) && InOrder(le, s)
    ensures InOrder(le, Insert(le, x, s))
  {
    if |s| == 0 || le(x, s[0]) {
    } else {
      InsertInOrder(le, x, s[1..]);
      var r := Insert(le, x, s[1..]);
      forall i | 0 <= i < |r|
        ensures le(s[0], r[i])
      {
        assert r[i] in multiset(r);
        assert r[i] in multiset(s[1..]) + multiset{x};
        if r[i] != x {
          assert r[i] in s[1..];
          var k :| 0 <= k < |s[1..]| && s[1..][k] == r[i];
          assert s[k + 1] == r[i];
        }
      }
    }
  }

  /** A stable sort: equal items keep the order they came in. */
  function SortBy<T>(le: (T, T) -> bool, s: seq<T>): (r: seq<T>)
    ensures multiset(r) == multiset(s)
    ensures |r| == |s|
  {
    if |s| == 0 then [] else
      assert s == [s[0]] + s[1..];
      Insert(le, s[0], SortBy(le, s[1..]))
  }

  lemma {:induction false} SortByInOrder<T(!new)>(le: (T, T) -> bool, s: seq<T>)
    requires Preorder(le)
    ensures InOrder(le, SortBy(le, s))
  {
    if |s| > 0 {
      SortByInOrder(le, s[1..]);
      InsertInOrder(le, s[0], SortBy(le, s[1..]));
    }
  }

  lemma SameElements<T>(a: seq<T>, b: seq<T>)
    requires multiset(a) == multiset(b)
    ensures Elements(a) == Elements(b)
  {
    forall x | x in a
      ensures x in b
    { assert x in multiset(a); }
    forall x | x in b
      ensures x in a
    { assert x in multiset(b); }
  }

  lemma {:induction false} NoDuplicatesMultiset<T>(s: seq<T>)
    ensures NoDuplicates(s) <==> forall x :: multiset(s)[x] <= 1
  {
    if |s| > 0 {
      var front, x := s[..|s| - 1], s[|s| - 1];
      assert s == front + [x];
      NoDuplicatesMultiset(front);
      assert multiset(s) == multiset(front) + multiset{x};
      if NoDuplicates(s) {
        assert x !in front;
        assert x !in multiset(front);
      }
      if forall y :: multiset(s)[y] <= 1 {
        forall y
          ensures multiset(front)[y] <= 1
        { assert multiset(s)[y] <= 1; }
        assert multiset(s)[x] <= 1;
        assert x !in multiset(front);
      }
    }
  }

  lemma PermutationNoDuplicates<T>(a: seq<T>, b: seq<T>)
    requires multiset(a) == multiset(b) && NoDuplicates(a)
    ensures NoDuplicates(b)
  {
    NoDuplicatesMultiset(a);
    NoDuplicatesMultiset(b);
  }
}
