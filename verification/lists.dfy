/** Facts about lists of names, seen as sets.

  The controllers compare lists of pool names, replica ids and block devices
  by membership and by length; these lemmas connect the two views. */
module Lists {

  predicate Unique<T(==)>(s: seq<T>) {
    forall i, j :: 0 <= i < j < |s| ==> s[i] != s[j]
  }

  function Elems<T>(s: seq<T>): set<T> {
    set x | x in s
  }

  /** The elements of `a` that are not in `b`, in the order of `a`. */
  function ListDiff<T(==,!new)>(a: seq<T>, b: seq<T>): (d: seq<T>)
    ensures forall x :: x in d <==> x in a && x !in b
    ensures |d| <= |a|
  {
    if a == [] then []
    else if a[0] in b then ListDiff(a[1..], b)
    else [a[0]] + ListDiff(a[1..], b)
  }

  lemma {:induction false} ElemsCard<T>(s: seq<T>)
    ensures |Elems(s)| <= |s|
    ensures Unique(s) <==> |Elems(s)| == |s|
  {
    if s != [] {
      var t := s[1..];
      ElemsCard(t);
      assert Elems(s) == Elems(t) + {s[0]};
      if s[0] in t {
        assert Elems(s) == Elems(t);
        var k :| 0 <= k < |t| && t[k] == s[0];
        assert s[0] == s[k + 1];
      } else {
        assert forall i, j :: 0 <= i < j < |s| && i > 0 ==> s[i] == t[i - 1] && s[j] == t[j - 1];
        assert forall i, j :: 0 <= i < j < |t| ==> t[i] == s[i + 1] && t[j] == s[j + 1];
        assert forall j :: 0 < j < |s| ==> s[j] == t[j - 1] && s[j] in t;
      }
    }
  }

  lemma {:induction false} ListDiffUnique<T(!new)>(a: seq<T>, b: seq<T>)
    requires Unique(a)
    ensures Unique(ListDiff(a, b))
    ensures Elems(ListDiff(a, b)) == Elems(a) - Elems(b)
    ensures |ListDiff(a, b)| == |Elems(a) - Elems(b)|
  {
    if a != [] {
      ListDiffUnique(a[1..], b);
      assert a[0] !in a[1..];
    }
    ElemsCard(ListDiff(a, b));
  }

  /** A subset is no larger, and a subset of the same size is the whole set. */
  lemma {:induction false} SubsetCard<T>(a: set<T>, b: set<T>)
    requires a <= b
    ensures |a| <= |b|
    ensures |a| == |b| ==> a == b
  {
    if a != {} {
      var x :| x in a;
      SubsetCard(a - {x}, b - {x});
    }
  }

  lemma UnionCard<T>(a: set<T>, b: set<T>)
    ensures |a + b| + |a * b| == |a| + |b|
    ensures |a - b| + |a * b| == |a|
  {
    assert a == (a - b) + (a * b);
    assert a + b == (a - b) + b;
  }

  /** Appending to a duplicate-free list what another duplicate-free list adds
      to it gives a duplicate-free list of the union. */
  lemma AppendDiff<T(!new)>(a: seq<T>, b: seq<T>)
    requires Unique(a) && Unique(b)
    ensures Unique(a + ListDiff(b, a))
    ensures Elems(a + ListDiff(b, a)) == Elems(a) + Elems(b)
  {
    ListDiffUnique(b, a);
    var d := ListDiff(b, a);
    forall i, j | 0 <= i < j < |a + d|
      ensures (a + d)[i] != (a + d)[j]
    {
      if i < |a| <= j {
        assert (a + d)[j] in d && (a + d)[i] in a;
      }
    }
  }
}
