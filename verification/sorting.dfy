/** sorted(...): a stable sort by any total preorder, and the facts the callers of sorted rely on. */
module Sorting {
  ghost predicate TotalPreorder<T(!new)>(le: (T, T) -> bool) {
    && (forall x, y :: le(x, y) || le(y, x))
    && (forall x, y, z :: le(x, y) && le(y, z) ==> le(x, z))
  }

  ghost predicate Antisymmetric<T(!new)>(le: (T, T) -> bool) {
    forall x, y :: le(x, y) && le(y, x) ==> x == y
  }

  ghost predicate Ordered<T>(s: seq<T>, le: (T, T) -> bool) {
    forall i, j :: 0 <= i < j < |s| ==> le(s[i], s[j])
  }

  function Insert<T>(x: T, s: seq<T>, le: (T, T) -> bool): (r: seq<T>)
    ensures multiset(r) == multiset(s) + multiset{x}
    ensures |r| == |s| + 1
  {
    if s == [] then [x]
    else if le(x, s[0]) then [x] + s
    else
      assert s == [s[0]] + s[1..];
      [s[0]] + Insert(x, s[1..], le)
  }

  function Sort<T>(s: seq<T>, le: (T, T) -> bool): (r: seq<T>)
    ensures multiset(r) == multiset(s)
    ensures |r| == |s|
  {
    if s == [] then []
    else
      assert s == [s[0]] + s[1..];
      Insert(s[0], Sort(s[1..], le), le)
  }

  lemma SameMembers<T>(a: seq<T>, b: seq<T>)
    requires multiset(a) == multiset(b)
    ensures forall x :: x in a <==> x in b
    ensures |a| == |b|
  {
    forall x ensures x in a <==> x in b {
      assert x in multiset(a) <==> x in a;
      assert x in multiset(b) <==> x in b;
    }
    assert |multiset(a)| == |a| && |multiset(b)| == |b|;
  }

  lemma {:induction false} InsertOrdered<T(!new)>(x: T, s: seq<T>, le: (T, T) -> bool)
    requires TotalPreorder(le) && Ordered(s, le)
    ensures Ordered(Insert(x, s, le), le)
  {
    if s != [] {
      if le(x, s[0]) {
        var r := [x] + s;
        forall i, j | 0 <= i < j < |r| ensures le(r[i], r[j]) {
          if i == 0 && j > 1 { assert le(s[0], s[j - 1]); }
        }
      } else {
        InsertOrdered(x, s[1..], le);
        var tail := Insert(x, s[1..], le);
        var r := [s[0]] + tail;
        assert multiset(tail) == multiset(s[1..] + [x]);
        SameMembers(tail, s[1..] + [x]);
        forall i, j | 0 <= i < j < |r| ensures le(r[i], r[j]) {
          if i == 0 {
            assert r[j] in tail;
            if r[j] != x { assert r[j] in s[1..]; }
          }
        }
      }
    }
  }

  lemma {:induction false} SortOrdered<T(!new)>(s: seq<T>, le: (T, T) -> bool)
    requires TotalPreorder(le)
    ensures Ordered(Sort(s, le), le)
  {
    if s != [] {
      SortOrdered(s[1..], le);
      InsertOrdered(s[0], Sort(s[1..], le), le);
    }
  }

  /** The elements that pass, in order. */
  function Where<T>(s: seq<T>, passes: T -> bool): seq<T> {
    if s == [] then [] else (if passes(s[0]) then [s[0]] else []) + Where(s[1..], passes)
  }

  lemma ConsWhere<T>(x: T, s: seq<T>, passes: T -> bool)
    ensures Where([x] + s, passes) == (if passes(x) then [x] else []) + Where(s, passes)
  {
    assert ([x] + s)[1..] == s;
  }

  lemma {:induction false} WhereAppend<T>(a: seq<T>, b: seq<T>, passes: T -> bool)
    ensures Where(a + b, passes) == Where(a, passes) + Where(b, passes)
  {
    if a == [] {
      assert a + b == b;
    } else {
      WhereAppend(a[1..], b, passes);
      ConsWhere(a[0], a[1..] + b, passes);
      assert a + b == [a[0]] + (a[1..] + b);
      var first := if passes(a[0]) then [a[0]] else [];
      assert first + (Where(a[1..], passes) + Where(b, passes)) == (first + Where(a[1..], passes)) + Where(b, passes);
    }
  }

  ghost predicate Tied<T(!new)>(passes: T -> bool, le: (T, T) -> bool) {
    forall x, y :: passes(x) && passes(y) ==> le(x, y)
  }

  lemma {:induction false} InsertStable<T(!new)>(x: T, s: seq<T>, le: (T, T) -> bool, passes: T -> bool)
    requires Tied(passes, le)
    ensures Where(Insert(x, s, le), passes) == (if passes(x) then [x] else []) + Where(s, passes)
  {
    if s == [] || le(x, s[0]) {
      ConsWhere(x, s, passes);
    } else {
      InsertStable(x, s[1..], le, passes);
      ConsWhere(s[0], Insert(x, s[1..], le), passes);
      var rest := Where(s[1..], passes);
      assert [] + rest == rest && [s[0]] + ([] + rest) == [] + ([s[0]] + rest);
      assert !(passes(x) && passes(s[0]));
    }
  }

  /** Sorting keeps tied elements in the order they came in. */
  lemma {:induction false} SortStable<T(!new)>(s: seq<T>, le: (T, T) -> bool, passes: T -> bool)
    requires Tied(passes, le)
    ensures Where(Sort(s, le), passes) == Where(s, passes)
  {
    if s != [] {
      SortStable(s[1..], le, passes);
      InsertStable(s[0], Sort(s[1..], le), le, passes);
    }
  }

  lemma SameLeast<T(!new)>(a: seq<T>, b: seq<T>, le: (T, T) -> bool)
    requires Antisymmetric(le)
    requires Ordered(a, le) && Ordered(b, le) && multiset(a) == multiset(b)
    requires a != [] && b != []
    ensures a[0] == b[0]
  {
    SameMembers(a, b);
    assert a[0] in b && b[0] in a;
    var i :| 0 <= i < |b| && b[i] == a[0];
    var j :| 0 <= j < |a| && a[j] == b[0];
    if i != 0 && j != 0 {
      assert le(b[0], b[i]) && le(a[0], a[j]);
    }
  }

  lemma TailMultiset<T>(a: seq<T>)
    requires a != []
    ensures multiset(a[1..]) == multiset(a) - multiset{a[0]}
  {
    assert a == [a[0]] + a[1..];
  }

  lemma TailOrdered<T>(a: seq<T>, le: (T, T) -> bool)
    requires a != [] && Ordered(a, le)
    ensures Ordered(a[1..], le)
  {
    forall i, j | 0 <= i < j < |a[1..]| ensures le(a[1..][i], a[1..][j]) {
      assert le(a[i + 1], a[j + 1]);
    }
  }

  /** With no two different elements tied, the sorted arrangement of a collection is unique. */
  lemma {:induction false} OrderedUnique<T(!new)>(a: seq<T>, b: seq<T>, le: (T, T) -> bool)
    requires Antisymmetric(le)
    requires Ordered(a, le) && Ordered(b, le) && multiset(a) == multiset(b)
    ensures a == b
  {
    SameMembers(a, b);
    if a != [] {
      SameLeast(a, b, le);
      TailMultiset(a);
      TailMultiset(b);
      TailOrdered(a, le);
      TailOrdered(b, le);
      OrderedUnique(a[1..], b[1..], le);
      assert a == [a[0]] + a[1..] && b == [b[0]] + b[1..];
    }
  }

  lemma {:induction false} AtMostOnce<T>(s: seq<T>, x: T)
    requires forall i, j :: 0 <= i < j < |s| ==> s[i] != s[j]
    ensures multiset(s)[x] <= 1
  {
    if s != [] {
      AtMostOnce(s[1..], x);
      assert s == [s[0]] + s[1..];
    }
  }

  /** A rearrangement of different elements has different elements. */
  lemma DistinctKept<T>(s: seq<T>, r: seq<T>)
    requires forall i, j :: 0 <= i < j < |s| ==> s[i] != s[j]
    requires multiset(r) == multiset(s)
    ensures forall i, j :: 0 <= i < j < |r| ==> r[i] != r[j]
  {
    forall i, j | 0 <= i < j < |r| ensures r[i] != r[j] {
      if r[i] == r[j] {
        assert r == r[..i] + [r[i]] + r[i + 1..j] + [r[i]] + r[j + 1..];
        AtMostOnce(s, r[i]);
        assert false;
      }
    }
  }
}
