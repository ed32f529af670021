// Concatenating what a function gives for each element of a list, and the
// fact that rearranging the list only rearranges the result.
module Sequences {
  /** `f(ks[0]) + f(ks[1]) + ...`. */
  ghost function ConcatMap<K, E>(f: K -> seq<E>, ks: seq<K>): seq<E>
  {
    if |ks| == 0 then [] else ConcatMap(f, ks[..|ks| - 1]) + f(ks[|ks| - 1])
  }

  lemma {:induction false} ConcatMapAppend<K, E>(f: K -> seq<E>, a: seq<K>, b: seq<K>)
    ensures ConcatMap(f, a + b) == ConcatMap(f, a) + ConcatMap(f, b)
    decreases |b|
  {
    if |b| == 0 {
      assert a + b == a;
    } else {
      var b' := b[..|b| - 1];
      assert (a + b)[..|a + b| - 1] == a + b';
      assert (a + b)[|a + b| - 1] == b[|b| - 1];
      ConcatMapAppend(f, a, b');
    }
  }

  /** Taking one element out of the list takes out exactly what `f` gives for it. */
  lemma ConcatMapSplice<K, E>(f: K -> seq<E>, front: seq<K>, x: K, back: seq<K>)
    ensures multiset(ConcatMap(f, front + [x] + back)) == multiset(ConcatMap(f, front + back)) + multiset(f(x))
  {
    ConcatMapAppend(f, front + [x], back);
    ConcatMapAppend(f, front, [x]);
    ConcatMapAppend(f, front, back);
    assert [x][..0] == [];
  }

  /** Taking the same element out of two rearrangements leaves two rearrangements. */
  lemma RemoveOne<K>(a: seq<K>, b: seq<K>, j: nat)
    requires multiset(a) == multiset(b) && |b| > 0 && j < |a| && a[j] == b[|b| - 1]
    ensures multiset(a[..j] + a[j + 1..]) == multiset(b[..|b| - 1])
  {
    var x, a', b' := a[j], a[..j] + a[j + 1..], b[..|b| - 1];
    assert a == a[..j] + [x] + a[j + 1..];
    assert b == b' + [x];
    assert multiset(a) == multiset(a[..j]) + multiset{x} + multiset(a[j + 1..]);
    assert multiset(a') == multiset(a[..j]) + multiset(a[j + 1..]);
    forall y ensures multiset(a')[y] == multiset(b')[y] {
      assert multiset(a)[y] == multiset(b)[y];
    }
  }

  /** Rearranging the list rearranges the concatenation. */
  lemma {:induction false} ConcatMapPermutation<K, E>(f: K -> seq<E>, a: seq<K>, b: seq<K>)
    requires multiset(a) == multiset(b)
    ensures multiset(ConcatMap(f, a)) == multiset(ConcatMap(f, b))
    decreases |b|
  {
    if |b| == 0 {
      assert |a| == |multiset(a)| == 0;
    } else {
      var x := b[|b| - 1];
      assert x in multiset(a);
      var j :| 0 <= j < |a| && a[j] == x;
      RemoveOne(a, b, j);
      ConcatMapPermutation(f, a[..j] + a[j + 1..], b[..|b| - 1]);
      assert a == a[..j] + [x] + a[j + 1..];
      ConcatMapSplice(f, a[..j], x, a[j + 1..]);
    }
  }

  /** What `f` gives for a listed element is part of the concatenation. */
  lemma {:induction false} ConcatMapHas<K, E>(f: K -> seq<E>, ks: seq<K>, x: K, e: E)
    requires x in ks && e in f(x)
    ensures e in ConcatMap(f, ks)
    decreases |ks|
  {
    var last := ks[|ks| - 1];
    if x != last {
      assert x in ks[..|ks| - 1] by {
        var j :| 0 <= j < |ks| && ks[j] == x;
        assert ks[..|ks| - 1][j] == x;
      }
      ConcatMapHas(f, ks[..|ks| - 1], x, e);
    }
  }

  ghost predicate Distinct<K>(s: seq<K>)
  {
    forall i, j :: 0 <= i < j < |s| ==> s[i] != s[j]
  }

  /** In a list without repetitions every element occurs once. */
  lemma {:induction false} DistinctOnce<K>(s: seq<K>, x: K)
    requires Distinct(s)
    ensures multiset(s)[x] == if x in s then 1 else 0
  {
    if |s| > 0 {
      var s' := s[..|s| - 1];
      assert s == s' + [s[|s| - 1]];
      DistinctOnce(s', x);
      if x == s[|s| - 1] {
        assert x !in s';
      }
    }
  }

  /** Two lists without repetitions and with the same elements are rearrangements of each other. */
  lemma SameSetSameMultiset<K>(a: seq<K>, b: seq<K>)
    requires Distinct(a) && Distinct(b)
    requires forall x :: x in a <==> x in b
    ensures multiset(a) == multiset(b)
  {
    forall x ensures multiset(a)[x] == multiset(b)[x] {
      DistinctOnce(a, x);
      DistinctOnce(b, x);
    }
  }
}
