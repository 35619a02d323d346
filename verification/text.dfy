/** Python strings as far as the service uses them: decimal text, lexicographic order, splitting
    at a separator and the letters a separator is not one of. */
module Text {
  import opened Sorting

  ghost predicate Without(s: string, c: char) {
    forall i :: 0 <= i < |s| ==> s[i] != c
  }

  predicate IsDigit(c: char) {
    '0' <= c <= '9'
  }

  predicate AllDigits(s: string) {
    forall i :: 0 <= i < |s| ==> IsDigit(s[i])
  }

  function Digit(d: nat): (c: char)
    requires d < 10
    ensures IsDigit(c) && c as int - '0' as int == d
  {
    ('0' as int + d) as char
  }

  /** str(n) for a non-negative integer. */
  function Decimal(n: nat): (s: string)
    ensures s != [] && AllDigits(s)
  {
    if n < 10 then [Digit(n)] else Decimal(n / 10) + [Digit(n % 10)]
  }

  /** int(s) for a string of digits. */
  function ParseDecimal(s: string): nat
    requires AllDigits(s)
  {
    if s == [] then 0
    else 10 * ParseDecimal(s[..|s| - 1]) + (s[|s| - 1] as int - '0' as int)
  }

  /** str(v) for any integer. */
  function Signed(v: int): (s: string) {
    if v < 0 then "-" + Decimal(-v) else Decimal(v)
  }

  function Zeros(n: nat): string {
    seq(n, _ => '0')
  }

  /** The format specification 06d for a non-negative integer. */
  function Padded6(n: nat): (s: string) {
    var digits := Decimal(n);
    if |digits| < 6 then Zeros(6 - |digits|) + digits else digits
  }

  lemma {:induction false} ParseInvertsDecimal(n: nat)
    ensures ParseDecimal(Decimal(n)) == n
  {
    if n >= 10 {
      ParseInvertsDecimal(n / 10);
      var s := Decimal(n);
      assert s[..|s| - 1] == Decimal(n / 10);
    }
  }

  lemma {:induction false} LeadingZeros(k: nat, s: string)
    requires AllDigits(s)
    ensures AllDigits(Zeros(k) + s)
    ensures ParseDecimal(Zeros(k) + s) == ParseDecimal(s)
  {
    var t := Zeros(k) + s;
    if s == [] {
      if k > 0 {
        LeadingZeros(k - 1, []);
        assert t[..|t| - 1] == Zeros(k - 1) + [];
      }
    } else {
      LeadingZeros(k, s[..|s| - 1]);
      assert t[..|t| - 1] == Zeros(k) + s[..|s| - 1];
    }
  }

  lemma PaddedDigits(n: nat)
    ensures AllDigits(Padded6(n)) && ParseDecimal(Padded6(n)) == n
  {
    var digits := Decimal(n);
    ParseInvertsDecimal(n);
    if |digits| < 6 {
      LeadingZeros(6 - |digits|, digits);
    }
  }

  lemma PaddedInjective(m: nat, n: nat)
    requires Padded6(m) == Padded6(n)
    ensures m == n
  {
    PaddedDigits(m);
    PaddedDigits(n);
  }

  lemma DecimalInjective(m: nat, n: nat)
    requires Decimal(m) == Decimal(n)
    ensures m == n
  {
    ParseInvertsDecimal(m);
    ParseInvertsDecimal(n);
  }

  lemma SameEnds(a: string, b: string, x: string, y: string)
    requires a + b == x + y
    requires |b| == |y| || |a| == |x|
    ensures a == x && b == y
  {
    assert a == (a + b)[..|a|] && x == (x + y)[..|x|];
    assert b == (a + b)[|a|..] && y == (x + y)[|x|..];
  }

  /** The last separator of a string determines both sides, as long as neither right side contains it. */
  lemma LastSeparator(a: string, b: string, x: string, y: string, sep: char)
    requires a + [sep] + b == x + [sep] + y
    requires Without(b, sep) && Without(y, sep)
    ensures a == x && b == y
  {
    var s := a + [sep] + b;
    var t := x + [sep] + y;
    assert s[|a|] == sep && t[|x|] == sep;
    assert forall i :: |a| < i < |s| ==> s[i] == b[i - |a| - 1];
    assert forall i :: |x| < i < |t| ==> t[i] == y[i - |x| - 1];
    assert |a| == |x|;
    SameEnds(a + [sep], b, x + [sep], y);
    assert (a + [sep])[..|a|] == a && (x + [sep])[..|x|] == x;
  }

  /** str <= str in Python: lexicographic by code point, a prefix coming first. */
  predicate Leq(a: string, b: string) {
    a == [] || (b != [] && (a[0] < b[0] || (a[0] == b[0] && Leq(a[1..], b[1..]))))
  }

  /** The texts agree up to a place where the first ends or has the smaller character. */
  ghost predicate FirstDiffers(a: string, b: string, k: nat) {
    k <= |a| && k <= |b| && a[..k] == b[..k] && (k == |a| || (k < |b| && a[k] < b[k]))
  }

  lemma {:induction false} LeqIsTextOrder(a: string, b: string)
    ensures Leq(a, b) <==> exists k: nat :: FirstDiffers(a, b, k)
  {
    if a == [] || b == [] || a[0] != b[0] {
      assert a == [] || (b != [] && a[0] < b[0]) ==> FirstDiffers(a, b, 0);
      forall k: nat | FirstDiffers(a, b, k) ensures k == 0 {
        assert forall i :: 0 <= i < k ==> a[i] == a[..k][i] && b[i] == b[..k][i];
      }
    } else {
      LeqIsTextOrder(a[1..], b[1..]);
      forall k: nat | FirstDiffers(a[1..], b[1..], k) ensures FirstDiffers(a, b, k + 1) {
        assert a[..k + 1] == [a[0]] + a[1..][..k] && b[..k + 1] == [b[0]] + b[1..][..k];
      }
      forall k: nat | FirstDiffers(a, b, k) ensures k > 0 && FirstDiffers(a[1..], b[1..], k - 1) {
        assert k > 0;
        assert a[1..][..k - 1] == a[..k][1..] && b[1..][..k - 1] == b[..k][1..];
      }
    }
  }

  lemma {:induction false} LeqTotal(a: string, b: string)
    ensures Leq(a, b) || Leq(b, a)
  {
    if a != [] && b != [] && a[0] == b[0] { LeqTotal(a[1..], b[1..]); }
  }

  lemma {:induction false} LeqTransitive(a: string, b: string, c: string)
    requires Leq(a, b) && Leq(b, c)
    ensures Leq(a, c)
  {
    if a != [] && a[0] == b[0] && b[0] == c[0] { LeqTransitive(a[1..], b[1..], c[1..]); }
  }

  lemma {:induction false} LeqAntisymmetric(a: string, b: string)
    requires Leq(a, b) && Leq(b, a)
    ensures a == b
  {
    if a != [] {
      LeqAntisymmetric(a[1..], b[1..]);
      assert a == [a[0]] + a[1..] && b == [b[0]] + b[1..];
    }
  }

  lemma LeqIsTotalOrder()
    ensures TotalPreorder(Leq) && Antisymmetric(Leq)
  {
    forall x, y ensures Leq(x, y) || Leq(y, x) { LeqTotal(x, y); }
    forall x, y, z | Leq(x, y) && Leq(y, z) ensures Leq(x, z) { LeqTransitive(x, y, z); }
    forall x, y | Leq(x, y) && Leq(y, x) ensures x == y { LeqAntisymmetric(x, y); }
  }
}
