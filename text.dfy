// Facts about Go strings the core relies on: their byte length (UTF-8),
// their ordering (byte-wise, as `sort.Strings` uses) and lower-casing.
module Text {
  /** Number of bytes of the UTF-8 encoding of one character. */
  function Utf8Width(c: char): (n: nat)
    ensures 1 <= n <= 4
  {
    if c as int < 0x80 then 1
    else if c as int < 0x800 then 2
    else if c as int < 0x1_0000 then 3
    else 4
  }

  /** Go `len(s)`: the number of bytes of the UTF-8 encoding of `s`. */
  function Utf8Len(s: string): (n: nat)
    ensures |s| <= n <= 4 * |s|
  {
    if |s| == 0 then 0 else Utf8Width(s[0]) + Utf8Len(s[1..])
  }

  /**
   * Go's `<` on strings. Go compares the UTF-8 bytes; for well-formed text
   * that is the order of the characters' code points, compared left to
   * right, a proper prefix coming first.
   */
  predicate Less(a: string, b: string)
  {
    |b| > 0 && (|a| == 0 || a[0] < b[0] || (a[0] == b[0] && Less(a[1..], b[1..])))
  }

  lemma {:induction false} LessIrreflexive(a: string)
    ensures !Less(a, a)
  {
    if |a| > 0 {
      LessIrreflexive(a[1..]);
    }
  }

  lemma {:induction false} LessTransitive(a: string, b: string, c: string)
    requires Less(a, b) && Less(b, c)
    ensures Less(a, c)
  {
    if |a| > 0 && a[0] == b[0] && b[0] == c[0] {
      LessTransitive(a[1..], b[1..], c[1..]);
    }
  }

  lemma {:induction false} LessTotal(a: string, b: string)
    ensures a == b || Less(a, b) || Less(b, a)
  {
    if |a| > 0 && |b| > 0 && a[0] == b[0] {
      LessTotal(a[1..], b[1..]);
      if a[1..] == b[1..] {
        assert a == [a[0]] + a[1..] && b == [b[0]] + b[1..];
      }
    }
  }

  lemma LessAsymmetric(a: string, b: string)
    requires Less(a, b)
    ensures !Less(b, a)
  {
    if Less(b, a) {
      LessTransitive(a, b, a);
      LessIrreflexive(a);
    }
  }

  /** Strictly increasing: sorted and without repetitions. */
  predicate StrictlySorted(s: seq<string>)
  {
    forall i, j :: 0 <= i < j < |s| ==> Less(s[i], s[j])
  }

  /** The tail of a strictly sorted list holds every element but the head. */
  lemma StrictTail(a: seq<string>, x: string)
    requires StrictlySorted(a) && |a| > 0
    ensures x in a[1..] <==> x in a && x != a[0]
  {
    if x in a[1..] {
      var k :| 1 <= k < |a| && a[k] == x;
      assert Less(a[0], a[k]);
      LessIrreflexive(x);
    }
    if x in a && x != a[0] {
      var k :| 0 <= k < |a| && a[k] == x;
      assert a[1..][k - 1] == x;
    }
  }

  lemma HeadIn(a: seq<string>)
    requires |a| > 0
    ensures a[0] in a
  {
  }

  /** Two strictly sorted lists with the same elements are the same list. */
  lemma {:induction false} StrictlySortedUnique(a: seq<string>, b: seq<string>)
    requires StrictlySorted(a) && StrictlySorted(b)
    requires forall x :: x in a <==> x in b
    ensures a == b
  {
    if |a| == 0 || |b| == 0 {
      if |a| > 0 { HeadIn(a); }
      if |b| > 0 { HeadIn(b); }
    } else {
      assert a[0] in a && b[0] in b;
      if a[0] != b[0] {
        var i :| 0 <= i < |b| && b[i] == a[0];
        var j :| 0 <= j < |a| && a[j] == b[0];
        assert Less(b[0], b[i]);
        assert Less(a[0], a[j]);
        LessAsymmetric(a[0], b[0]);
      }
      forall x ensures x in a[1..] <==> x in b[1..] {
        StrictTail(a, x);
        StrictTail(b, x);
      }
      StrictlySortedUnique(a[1..], b[1..]);
      assert a == [a[0]] + a[1..] && b == [b[0]] + b[1..];
    }
  }

  /** The smallest element of a non-empty set of strings. */
  ghost function MinOf(s: set<string>): (m: string)
    requires s != {}
    ensures m in s && forall y :: y in s && y != m ==> Less(m, y)
    decreases s
  {
    var x :| x in s;
    if s == {x} then x
    else
      var r := MinOf(s - {x});
      MinOfStep(s, x, r);
      if Less(x, r) then x else r
  }

  lemma MinOfStep(s: set<string>, x: string, r: string)
    requires x in s && r in s - {x}
    requires forall y :: y in s - {x} && y != r ==> Less(r, y)
    ensures Less(x, r) ==> forall y :: y in s && y != x ==> Less(x, y)
    ensures !Less(x, r) ==> forall y :: y in s && y != r ==> Less(r, y)
  {
    LessTotal(x, r);
    forall y | y in s && y != x && Less(x, r) ensures Less(x, y) {
      if y != r { LessTransitive(x, r, y); }
    }
  }

  /** The elements of `s` in increasing order, as `sort.Strings` leaves them. */
  ghost function SortedList(s: set<string>): (r: seq<string>)
    ensures StrictlySorted(r) && (forall x :: x in r <==> x in s) && |r| == |s|
    decreases s
  {
    if s == {} then []
    else
      var m := MinOf(s);
      var rest := SortedList(s - {m});
      SortedCons(m, rest);
      [m] + rest
  }

  /** A single name sorts to itself. */
  lemma SortedListSingleton(x: string)
    ensures SortedList({x}) == [x]
  {
    var r := SortedList({x});
    assert |r| == 1;
    assert r[0] in r;
  }

  lemma SortedCons(m: string, rest: seq<string>)
    requires StrictlySorted(rest)
    requires forall x :: x in rest ==> Less(m, x)
    ensures StrictlySorted([m] + rest)
    ensures forall x :: x in [m] + rest <==> x == m || x in rest
  {
    var t := [m] + rest;
    forall i, j | 0 <= i < j < |t| ensures Less(t[i], t[j]) {
      if i == 0 {
        assert t[j] == rest[j - 1];
        assert t[j] in rest;
      } else {
        assert t[i] == rest[i - 1] && t[j] == rest[j - 1];
      }
    }
  }

  /** Sorted with respect to `Less`, repetitions allowed. */
  predicate Sorted(s: seq<string>)
  {
    forall i, j :: 0 <= i < j < |s| ==> s[i] == s[j] || Less(s[i], s[j])
  }

  predicate LessEq(a: string, b: string) { a == b || Less(a, b) }

  /** Putting `x` between the elements not above it and those above it keeps a list sorted. */
  lemma InsertSorted(r: seq<string>, p: nat, x: string)
    requires Sorted(r) && p <= |r|
    requires forall i :: 0 <= i < p ==> LessEq(r[i], x)
    requires p < |r| ==> Less(x, r[p])
    ensures Sorted(r[..p] + [x] + r[p..])
  {
    var t := r[..p] + [x] + r[p..];
    forall i, j | 0 <= i < j < |t| ensures t[i] == t[j] || Less(t[i], t[j]) {
      if j < p {
        assert t[i] == r[i] && t[j] == r[j];
      } else if j == p {
        assert t[i] == r[i] && t[j] == x;
      } else if i == p {
        assert t[j] == r[j - 1] && LessEq(r[p], r[j - 1]);
        if r[p] != r[j - 1] { LessTransitive(x, r[p], r[j - 1]); }
      } else if i < p {
        assert t[i] == r[i] && t[j] == r[j - 1];
      } else {
        assert t[i] == r[i - 1] && t[j] == r[j - 1];
      }
    }
  }

  /** Inserts `x` into a sorted list, after the elements not above it. */
  method Insert(r: seq<string>, x: string) returns (t: seq<string>)
    requires Sorted(r)
    ensures Sorted(t) && multiset(t) == multiset(r) + multiset{x}
  {
    var p := 0;
    while p < |r| && !Less(x, r[p])
      invariant 0 <= p <= |r|
      invariant forall i :: 0 <= i < p ==> LessEq(r[i], x)
    {
      LessTotal(x, r[p]);
      p := p + 1;
    }
    InsertSorted(r, p, x);
    t := r[..p] + [x] + r[p..];
    assert r == r[..p] + r[p..];
  }

  /** Go `sort.Strings`, as an insertion sort. */
  method SortStrings(a: seq<string>) returns (r: seq<string>)
    ensures Sorted(r) && multiset(r) == multiset(a)
  {
    r := [];
    var i := 0;
    while i < |a|
      invariant 0 <= i <= |a|
      invariant Sorted(r) && multiset(r) == multiset(a[..i])
    {
      assert a[..i + 1] == a[..i] + [a[i]];
      r := Insert(r, a[i]);
      i := i + 1;
    }
    assert a[..|a|] == a;
  }

  /** A sorted list without repetitions is strictly sorted. */
  lemma SortedDistinct(r: seq<string>)
    requires Sorted(r)
    requires forall i, j :: 0 <= i < j < |r| ==> r[i] != r[j]
    ensures StrictlySorted(r)
  {
  }

  /** Lower-cases an ASCII letter; other characters are unchanged. */
  function LowerAscii(c: char): (d: char)
    ensures 'A' <= c <= 'Z' ==> d as int == c as int + 32
    ensures !('A' <= c <= 'Z') ==> d == c
  {
    if 'A' <= c <= 'Z' then (c as int + 32) as char else c
  }

  /**
   * `strings.ToLower(s) == w` for an all-lower-case ASCII word `w`. No
   * character outside ASCII lower-cases to an ASCII letter other than 'i'
   * and 'k' (from U+0130 and U+212A), so only the ASCII letters of `s`
   * matter for the words this is used with.
   */
  predicate LowerEquals(s: string, w: string)
  {
    |s| == |w| && forall i :: 0 <= i < |s| ==> LowerAscii(s[i]) == w[i]
  }
}
