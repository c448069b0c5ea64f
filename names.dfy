/** File names as strings: the order in which Python sorts them (code point by
    code point, a prefix first), sorting, and the decimal rendering of an
    integer used inside backup names. */
module Names {

  // ---------------------------------------------------------------------------
  // Ordering
  // ---------------------------------------------------------------------------

  /** a <= b in Python's string order: compare code points left to right; a
      proper prefix comes first. */
  predicate NameLeq(a: string, b: string)
  {
    if a == [] then true
    else if b == [] then false
    else if a[0] != b[0] then a[0] < b[0]
    else NameLeq(a[1..], b[1..])
  }

  lemma {:induction false} NameLeqTotal(a: string, b: string)
    ensures NameLeq(a, b) || NameLeq(b, a)
  {
    if a != [] && b != [] && a[0] == b[0] {
      NameLeqTotal(a[1..], b[1..]);
    }
  }

  lemma {:induction false} NameLeqReflexive(a: string)
    ensures NameLeq(a, a)
  {
    if a != [] {
      NameLeqReflexive(a[1..]);
    }
  }

  lemma {:induction false} NameLeqAntisymmetric(a: string, b: string)
    requires NameLeq(a, b) && NameLeq(b, a)
    ensures a == b
  {
    if a != [] && b != [] {
      NameLeqAntisymmetric(a[1..], b[1..]);
      assert a == [a[0]] + a[1..] && b == [b[0]] + b[1..];
    }
  }

  lemma {:induction false} NameLeqTransitive(a: string, b: string, c: string)
    requires NameLeq(a, b) && NameLeq(b, c)
    ensures NameLeq(a, c)
  {
    if a != [] && b != [] && c != [] && a[0] == b[0] && b[0] == c[0] {
      NameLeqTransitive(a[1..], b[1..], c[1..]);
    }
  }

  // ---------------------------------------------------------------------------
  // Sorting (Python's `sorted`)
  // ---------------------------------------------------------------------------

  predicate Sorted(s: seq<string>)
  {
    forall i, j :: 0 <= i < j < |s| ==> NameLeq(s[i], s[j])
  }

  /** No name occurs twice. */
  predicate Distinct(s: seq<string>)
  {
    forall i, j :: 0 <= i < j < |s| ==> s[i] != s[j]
  }

  function Insert(x: string, s: seq<string>): (r: seq<string>)
    requires Sorted(s)
    ensures Sorted(r)
    ensures multiset(r) == multiset(s) + multiset{x}
    ensures |r| == |s| + 1
    ensures forall k :: 0 <= k < |r| ==> r[k] == x || r[k] in s
  {
    if s == [] then [x]
    else if NameLeq(x, s[0]) then
      assert forall k :: 0 < k < |s| ==> NameLeq(x, s[k]) by {
        forall k | 0 < k < |s| ensures NameLeq(x, s[k]) {
          NameLeqTransitive(x, s[0], s[k]);
        }
      }
      [x] + s
    else
      var t := Insert(x, s[1..]);
      NameLeqTotal(x, s[0]);
      assert s == [s[0]] + s[1..];
      assert forall k :: 0 <= k < |t| ==> NameLeq(s[0], t[k]) by {
        forall k | 0 <= k < |t| ensures NameLeq(s[0], t[k]) {
          if t[k] != x {
            var m :| 0 <= m < |s[1..]| && s[1..][m] == t[k];
            assert s[m + 1] == t[k];
          }
        }
      }
      [s[0]] + t
  }

  /** Insertion sort: the result is in order and holds the same names. */
  function Sort(s: seq<string>): (r: seq<string>)
    ensures Sorted(r)
    ensures multiset(r) == multiset(s)
    ensures |r| == |s|
  {
    if s == [] then []
    else
      assert s == [s[0]] + s[1..];
      Insert(s[0], Sort(s[1..]))
  }

  /** xs lists the set S exactly once each, in ascending order. */
  predicate SortedListing(xs: seq<string>, S: set<string>)
  {
    && Sorted(xs)
    && Distinct(xs)
    && (forall x :: x in xs ==> x in S)
    && (forall x :: x in S ==> x in xs)
  }

  lemma FirstIsListed(xs: seq<string>, S: set<string>)
    ensures SortedListing(xs, S) && xs != [] ==> xs[0] in S
  {
  }

  /** There is only one ascending listing of a set, so a sorted listing does
      not depend on the order in which the names were first found. */
  lemma {:induction false} SortedListingUnique(xs: seq<string>, ys: seq<string>, S: set<string>)
    requires SortedListing(xs, S) && SortedListing(ys, S)
    ensures xs == ys
    decreases |xs|
  {
    FirstIsListed(xs, S);
    FirstIsListed(ys, S);
    if xs == [] {
    } else {
      assert ys != [] by { assert xs[0] in S; }
      var a, b := xs[0], ys[0];
      assert b in xs;
      var i :| 0 <= i < |xs| && xs[i] == b;
      assert NameLeq(a, b) by { NameLeqReflexive(a); }
      assert a in ys;
      var j :| 0 <= j < |ys| && ys[j] == a;
      assert NameLeq(b, a) by { NameLeqReflexive(b); }
      NameLeqAntisymmetric(a, b);
      var S' := S - {a};
      assert forall x :: x in xs[1..] <==> x in S' by {
        forall x ensures x in xs[1..] <==> x in S' {
          if x in xs[1..] {
            var k :| 0 <= k < |xs[1..]| && xs[1..][k] == x;
            assert xs[k + 1] == x && xs[0] == a;
          }
          if x in S' {
            assert x in xs;
            var k :| 0 <= k < |xs| && xs[k] == x;
            assert k != 0;
            assert xs[1..][k - 1] == x;
          }
        }
      }
      assert forall x :: x in ys[1..] <==> x in S' by {
        forall x ensures x in ys[1..] <==> x in S' {
          if x in ys[1..] {
            var k :| 0 <= k < |ys[1..]| && ys[1..][k] == x;
            assert ys[k + 1] == x && ys[0] == a;
          }
          if x in S' {
            assert x in ys;
            var k :| 0 <= k < |ys| && ys[k] == x;
            assert k != 0;
            assert ys[1..][k - 1] == x;
          }
        }
      }
      SortedListingUnique(xs[1..], ys[1..], S');
      assert xs == [a] + xs[1..] && ys == [a] + ys[1..];
    }
  }

  // ---------------------------------------------------------------------------
  // Decimal rendering of integers (f"{n}")
  // ---------------------------------------------------------------------------

  predicate IsDigit(c: char) { '0' <= c <= '9' }

  function DigitChar(d: nat): (c: char)
    requires d < 10
    ensures IsDigit(c)
  {
    ('0' as int + d) as char
  }

  function DigitValue(c: char): (d: nat)
    requires IsDigit(c)
    ensures d < 10
  {
    (c as int - '0' as int)
  }

  /** The decimal digits of n, most significant first, with no leading zero. */
  function NatString(n: nat): (s: string)
    ensures |s| >= 1
    ensures forall k :: 0 <= k < |s| ==> IsDigit(s[k])
  {
    if n < 10 then [DigitChar(n)] else NatString(n / 10) + [DigitChar(n % 10)]
  }

  /** Reads a string of decimal digits back as a number. */
  function ParseNat(s: string): nat
    requires |s| >= 1
    requires forall k :: 0 <= k < |s| ==> IsDigit(s[k])
  {
    if |s| == 1 then DigitValue(s[0])
    else ParseNat(s[..|s| - 1]) * 10 + DigitValue(s[|s| - 1])
  }

  lemma {:induction false} ParseNatString(n: nat)
    ensures ParseNat(NatString(n)) == n
  {
    var s := NatString(n);
    if n >= 10 {
      assert s[..|s| - 1] == NatString(n / 10);
      ParseNatString(n / 10);
    }
  }

  /** Python's decimal form of an integer: a minus sign before the digits of
      a negative one. */
  function IntString(i: int): (s: string)
  {
    if i < 0 then "-" + NatString(-i) else NatString(i)
  }

  // ---------------------------------------------------------------------------
  // Name order against numeric order
  // ---------------------------------------------------------------------------

  /** A common prefix does not change the order. */
  lemma {:induction false} NameLeqCommonPrefix(p: string, a: string, b: string)
    ensures NameLeq(p + a, p + b) <==> NameLeq(a, b)
  {
    if p == [] {
      assert p + a == a && p + b == b;
    } else {
      assert (p + a)[0] == p[0] && (p + b)[0] == p[0];
      assert (p + a)[1..] == p[1..] + a && (p + b)[1..] == p[1..] + b;
      NameLeqCommonPrefix(p[1..], a, b);
    }
  }

  /** Between strings of equal length, a common suffix does not change the
      order either. */
  lemma {:induction false} NameLeqCommonSuffix(a: string, b: string, t: string)
    requires |a| == |b|
    ensures NameLeq(a + t, b + t) <==> NameLeq(a, b)
  {
    if a == [] {
      assert a + t == t && b + t == t;
      NameLeqReflexive(t);
    } else {
      assert (a + t)[0] == a[0] && (b + t)[0] == b[0];
      assert (a + t)[1..] == a[1..] + t && (b + t)[1..] == b[1..] + t;
      NameLeqCommonSuffix(a[1..], b[1..], t);
    }
  }

  /** Appending one character each to equal-length strings: the earlier strings
      decide unless they are equal, then the new characters do. */
  lemma {:induction false} NameLeqAppend(a: string, b: string, c: char, d: char)
    requires |a| == |b|
    ensures NameLeq(a + [c], b + [d]) <==> (a != b && NameLeq(a, b)) || (a == b && c <= d)
  {
    if a == [] {
    } else {
      assert (a + [c])[0] == a[0] && (b + [d])[0] == b[0];
      assert (a + [c])[1..] == a[1..] + [c] && (b + [d])[1..] == b[1..] + [d];
      NameLeqAppend(a[1..], b[1..], c, d);
      if a[0] == b[0] {
        assert a == [a[0]] + a[1..] && b == [b[0]] + b[1..];
      }
    }
  }

  lemma NatStringShort(n: nat)
    ensures |NatString(n)| == 1 <==> n < 10
  {
  }

  /** For numbers with the same count of digits, the order of their decimal
      strings is the numeric order. */
  lemma {:induction false} NatStringOrder(n: nat, m: nat)
    requires |NatString(n)| == |NatString(m)|
    ensures NameLeq(NatString(n), NatString(m)) <==> n <= m
  {
    NatStringShort(n);
    NatStringShort(m);
    if n < 10 {
      assert m < 10;
    } else {
      assert m >= 10;
      var a, b := NatString(n / 10), NatString(m / 10);
      NameLeqAppend(a, b, DigitChar(n % 10), DigitChar(m % 10));
      NatStringOrder(n / 10, m / 10);
      if a == b {
        NatStringInjective(n / 10, m / 10);
      } else {
        assert n / 10 != m / 10;
      }
    }
  }

  lemma NatStringInjective(m: nat, n: nat)
    requires NatString(m) == NatString(n)
    ensures m == n
  {
    ParseNatString(m);
    ParseNatString(n);
  }

  lemma SignOf(i: int)
    ensures |IntString(i)| >= 1
    ensures i < 0 <==> IntString(i)[0] == '-'
  {
    assert IsDigit(NatString(if i < 0 then -i else i)[0]);
  }

  lemma NegativeDigits(i: int)
    requires i < 0
    ensures IntString(i)[1..] == NatString(-i)
  {
  }

  lemma SameStringSameInt(a: int, b: int)
    requires IntString(a) == IntString(b)
    ensures a == b
  {
    SignOf(a);
    SignOf(b);
    if a < 0 {
      NegativeDigits(a);
      NegativeDigits(b);
      NatStringInjective(-a, -b);
    } else {
      NatStringInjective(a, b);
    }
  }

  /** Different integers have different decimal forms; equal ones the same. */
  lemma IntStringInjective(a: int, b: int)
    ensures IntString(a) == IntString(b) <==> a == b
  {
    if IntString(a) == IntString(b) {
      SameStringSameInt(a, b);
    }
  }
}
