// List difference, used by the object type to find missing required keys.
module Utils {
  /**
   * The elements of `a`, in order and with their repetitions, that are not
   * in `keys`.
   */
  function Diff<T>(a: seq<T>, keys: set<T>): seq<T>
  {
    if |a| == 0 then []
    else Diff(a[..|a| - 1], keys) + (if a[|a| - 1] in keys then [] else [a[|a| - 1]])
  }

  lemma {:induction false} DiffMembership<T>(a: seq<T>, keys: set<T>, x: T)
    ensures x in Diff(a, keys) <==> x in a && x !in keys
  {
    if |a| > 0 {
      DiffMembership(a[..|a| - 1], keys, x);
      assert a == a[..|a| - 1] + [a[|a| - 1]];
    }
  }

  /** Every occurrence of a kept element survives; none of a dropped one does. */
  lemma {:induction false} DiffMultiplicity<T>(a: seq<T>, keys: set<T>, x: T)
    ensures multiset(Diff(a, keys))[x] == if x in keys then 0 else multiset(a)[x]
  {
    if |a| > 0 {
      DiffMultiplicity(a[..|a| - 1], keys, x);
      assert a == a[..|a| - 1] + [a[|a| - 1]];
    }
  }

  /** The difference is taken element by element, so it keeps the order of `a`. */
  lemma {:induction false} DiffAppend<T>(a: seq<T>, b: seq<T>, keys: set<T>)
    ensures Diff(a + b, keys) == Diff(a, keys) + Diff(b, keys)
  {
    if |b| > 0 {
      var b' := b[..|b| - 1];
      assert (a + b)[..|a + b| - 1] == a + b';
      DiffAppend(a, b', keys);
    } else {
      assert a + b == a;
    }
  }

  /**
   * Go `ListMapDiff`: the elements of `a` that are not keys of `mb`, in the
   * order of `a`.
   */
  method ListMapDiff<T(==), V>(a: seq<T>, mb: map<T, V>) returns (diff: seq<T>)
    ensures diff == Diff(a, mb.Keys)
  {
    diff := [];
    var i := 0;
    while i < |a|
      invariant 0 <= i <= |a|
      invariant diff == Diff(a[..i], mb.Keys)
    {
      var x := a[i];
      assert a[..i + 1][..i] == a[..i];
      if x !in mb {
        diff := diff + [x];
      }
      i := i + 1;
    }
    assert a[..|a|] == a;
  }

  /** Go `ListDiff`: the elements of `a`, in order, that do not occur in `b`. */
  method ListDiff<T(==)>(a: seq<T>, b: seq<T>) returns (diff: seq<T>)
    ensures diff == Diff(a, set x | x in b)
  {
    var mb: map<T, ()> := map[];
    var i := 0;
    while i < |b|
      invariant 0 <= i <= |b|
      invariant mb.Keys == set x | x in b[..i]
    {
      assert b[..i + 1] == b[..i] + [b[i]];
      mb := mb[b[i] := ()];
      i := i + 1;
    }
    assert b[..|b|] == b;
    diff := ListMapDiff(a, mb);
  }
}
