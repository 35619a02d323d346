/** Python's text.split(separator) and separator.join(parts), and that they undo each other. */
module Splitting {
  import opened Text

  function Join(a: string, sep: char, b: string): string {
    a + [sep] + b
  }

  /** sep.join(parts). */
  function JoinAll(parts: seq<string>, sep: char): string {
    if parts == [] then []
    else if |parts| == 1 then parts[0]
    else Join(parts[0], sep, JoinAll(parts[1..], sep))
  }

  /** text.split(sep). */
  function Split(s: string, sep: char): (parts: seq<string>)
    ensures parts != []
  {
    if s == [] then [[]]
    else
      var rest := Split(s[1..], sep);
      if s[0] == sep then [[]] + rest else [[s[0]] + rest[0]] + rest[1..]
  }

  lemma {:induction false} SplitNone(s: string, sep: char)
    ensures |Split(s, sep)| == 1 <==> Without(s, sep)
    ensures Without(s, sep) ==> Split(s, sep) == [s]
  {
    if s != [] {
      SplitNone(s[1..], sep);
      assert s == [s[0]] + s[1..];
      if Without(s, sep) {
        assert forall i :: 0 <= i < |s| - 1 ==> s[1..][i] == s[i + 1];
      }
      if |Split(s, sep)| == 1 {
        assert s[0] != sep && Without(s[1..], sep);
        forall i | 0 <= i < |s| ensures s[i] != sep { if i > 0 { assert s[i] == s[1..][i - 1]; } }
      }
    }
  }

  lemma {:induction false} SplitJoin(a: string, sep: char, b: string)
    ensures Split(Join(a, sep, b), sep) == Split(a, sep) + Split(b, sep)
  {
    var s := Join(a, sep, b);
    if a == [] {
      assert s[1..] == b;
    } else {
      assert s[0] == a[0] && s[1..] == Join(a[1..], sep, b);
      SplitJoin(a[1..], sep, b);
    }
  }

  /** Every part of a split is free of the separator. */
  lemma {:induction false} PartsAreFree(s: string, sep: char)
    ensures forall i :: 0 <= i < |Split(s, sep)| ==> Without(Split(s, sep)[i], sep)
  {
    if s != [] {
      var rest, parts := Split(s[1..], sep), Split(s, sep);
      PartsAreFree(s[1..], sep);
      forall i | 0 <= i < |parts| ensures Without(parts[i], sep) {
        if i > 0 { assert parts[i] == if s[0] == sep then rest[i - 1] else rest[i]; }
      }
    }
  }

  /** Joining what was split gives the text back. */
  lemma {:induction false} JoinSplit(s: string, sep: char)
    ensures JoinAll(Split(s, sep), sep) == s
  {
    if s != [] {
      var rest := Split(s[1..], sep);
      JoinSplit(s[1..], sep);
      if s[0] == sep {
        assert ([[]] + rest)[1..] == rest;
        assert Join([], sep, s[1..]) == s;
      } else {
        var parts := [[s[0]] + rest[0]] + rest[1..];
        assert parts[1..] == rest[1..];
        assert s == [s[0]] + s[1..];
      }
    }
  }

  /** Splitting what was joined gives the parts back, if there are any and none has the separator. */
  lemma {:induction false} SplitJoinAll(parts: seq<string>, sep: char)
    requires parts != [] && forall i :: 0 <= i < |parts| ==> Without(parts[i], sep)
    ensures Split(JoinAll(parts, sep), sep) == parts
  {
    SplitNone(parts[0], sep);
    if |parts| > 1 {
      SplitJoinAll(parts[1..], sep);
      SplitJoin(parts[0], sep, JoinAll(parts[1..], sep));
    }
  }

  lemma SplitInjective(a: string, b: string, sep: char)
    ensures Split(a, sep) == Split(b, sep) <==> a == b
  {
    JoinSplit(a, sep);
    JoinSplit(b, sep);
  }

  lemma DigitsAreFree(n: nat, sep: char)
    requires !IsDigit(sep)
    ensures Without(Decimal(n), sep)
  {
  }
}
