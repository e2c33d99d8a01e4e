/** Looking up devices in the vdev forest of a pool
  (pkg/pool/operations/pool_utils.go). */
module VdevTree {

  type Path = string

  datatype Vdev = Vdev(path: Path, children: seq<Vdev>)

  datatype Topology = Topology(top: seq<Vdev>, spares: seq<Vdev>, readCache: seq<Vdev>)

  /** The paths of a forest, parents before children. */
  function Preorder(d: seq<Vdev>): seq<Path> {
    if d == [] then []
    else [d[0].path] + Preorder(d[0].children) + Preorder(d[1..])
  }

  function AllPaths(t: Topology): seq<Path> {
    Preorder(t.top) + Preorder(t.spares) + Preorder(t.readCache)
  }

  predicate Hits(paths: seq<Path>, s: seq<Path>) {
    exists k :: 0 <= k < |s| && s[k] in paths
  }

  /** `p` is the first element of `s` that is among `paths`. */
  predicate FirstHit(paths: seq<Path>, s: seq<Path>, p: Path) {
    exists k :: 0 <= k < |s| && s[k] == p && p in paths && !Hits(paths, s[..k])
  }

  lemma {:induction false} PreorderConcat(a: seq<Vdev>, b: seq<Vdev>)
    ensures Preorder(a + b) == Preorder(a) + Preorder(b)
    decreases |a|
  {
    if a == [] {
      assert a + b == b;
    } else {
      assert (a + b)[1..] == a[1..] + b;
      PreorderConcat(a[1..], b);
    }
  }

  /** The paths up to tree `i`, that tree, and the rest. */
  lemma PreorderAt(d: seq<Vdev>, i: nat)
    requires i < |d|
    ensures Preorder(d) == Preorder(d[..i]) + [d[i].path] + Preorder(d[i].children) + Preorder(d[i + 1..])
    ensures Preorder(d[..i + 1]) == Preorder(d[..i]) + [d[i].path] + Preorder(d[i].children)
  {
    hide Preorder;
    SliceAt(d, i);
    PreorderSplit(d[..i], d[i], d[i + 1..]);
    PreorderSnoc(d[..i], d[i]);
  }

  lemma SliceAt(d: seq<Vdev>, i: nat)
    requires i < |d|
    ensures d[..i] + [d[i]] + d[i + 1..] == d
    ensures d[..i] + [d[i]] == d[..i + 1]
  {
  }

  lemma PreorderSnoc(a: seq<Vdev>, v: Vdev)
    ensures Preorder(a + [v]) == Preorder(a) + [v.path] + Preorder(v.children)
  {
    hide Preorder;
    PreorderSplit(a, v, []);
    EmptyPreorder();
    assert a + [v] + [] == a + [v];
    assert Preorder(a) + [v.path] + Preorder(v.children) + [] == Preorder(a) + [v.path] + Preorder(v.children);
  }

  lemma PreorderSplit(a: seq<Vdev>, v: Vdev, b: seq<Vdev>)
    ensures Preorder(a + [v] + b) == Preorder(a) + [v.path] + Preorder(v.children) + Preorder(b)
  {
    hide Preorder;
    PreorderConcat(a, [v] + b);
    PreorderCons(v, b);
    assert a + [v] + b == a + ([v] + b);
    assert Preorder(a) + ([v.path] + Preorder(v.children) + Preorder(b)) == Preorder(a) + [v.path] + Preorder(v.children) + Preorder(b);
  }

  lemma PreorderCons(v: Vdev, d: seq<Vdev>)
    ensures Preorder([v] + d) == [v.path] + Preorder(v.children) + Preorder(d)
  {
    assert ([v] + d)[1..] == d;
  }

  lemma HitsConcat(paths: seq<Path>, a: seq<Path>, b: seq<Path>)
    ensures Hits(paths, a + b) <==> Hits(paths, a) || Hits(paths, b)
  {
    if Hits(paths, a) {
      var k :| 0 <= k < |a| && a[k] in paths;
      assert (a + b)[k] in paths;
    }
    if Hits(paths, b) {
      var k :| 0 <= k < |b| && b[k] in paths;
      assert (a + b)[|a| + k] in paths;
    }
  }

  lemma FirstHitAfter(paths: seq<Path>, a: seq<Path>, b: seq<Path>, c: seq<Path>, p: Path)
    requires !Hits(paths, a) && FirstHit(paths, b, p)
    ensures FirstHit(paths, a + b + c, p)
  {
    var k :| 0 <= k < |b| && b[k] == p && p in paths && !Hits(paths, b[..k]);
    var s := a + b + c;
    assert s[|a| + k] == p;
    assert s[..|a| + k] == a + b[..k];
    HitsConcat(paths, a, b[..k]);
  }

  lemma FirstHitHits(paths: seq<Path>, s: seq<Path>, p: Path)
    requires FirstHit(paths, s, p)
    ensures Hits(paths, s) && p in s && p in paths
  {
  }

  /** Sound, complete and terminating on forests of any depth: the result is
      the first path of the forest, in preorder, among `paths`. */
  method CompareDisk(paths: seq<Path>, d: seq<Vdev>) returns (used: Path, found: bool)
    ensures found <==> Hits(paths, Preorder(d))
    ensures if found then FirstHit(paths, Preorder(d), used) else used == ""
    decreases d
  {
    hide Hits, FirstHit, Preorder;
    EmptyForest(paths);
    assert d[..0] == [];
    for i := 0 to |d|
      invariant !Hits(paths, Preorder(d[..i]))
    {
      var v := d[i];
      PreorderAt(d, i);
      ghost var before, rest := Preorder(d[..i]), Preorder(d[i + 1..]);
      SingleHit(paths, v.path);
      if v.path in paths {
        FirstHitAfter(paths, before, [v.path], Preorder(v.children) + rest, v.path);
        assert before + [v.path] + (Preorder(v.children) + rest) == Preorder(d);
        FirstHitHits(paths, Preorder(d), v.path);
        return v.path, true;
      }
      HitsConcat(paths, before, [v.path]);
      ghost var start := before + [v.path];
      assert v.children[..0] == [];
      for j := 0 to |v.children|
        invariant !Hits(paths, start)
        invariant !Hits(paths, Preorder(v.children[..j]))
      {
        var p := v.children[j];
        PreorderAt(v.children, j);
        ghost var mid, last := Preorder(v.children[..j]), Preorder(v.children[j + 1..]);
        HitsConcat(paths, start, mid);
        SingleHit(paths, p.path);
        if p.path in paths {
          FirstHitAfter(paths, start + mid, [p.path], Preorder(p.children) + last + rest, p.path);
          assert start + mid + [p.path] + (Preorder(p.children) + last + rest) == Preorder(d);
          FirstHitHits(paths, Preorder(d), p.path);
          return p.path, true;
        }
        HitsConcat(paths, start + mid, [p.path]);
        var sub, r := CompareDisk(paths, p.children);
        if r {
          FirstHitAfter(paths, start + mid + [p.path], Preorder(p.children), last + rest, sub);
          assert start + mid + [p.path] + Preorder(p.children) + (last + rest) == Preorder(d);
          FirstHitHits(paths, Preorder(d), sub);
          return sub, true;
        }
        HitsConcat(paths, mid, [p.path]);
        HitsConcat(paths, mid + [p.path], Preorder(p.children));
      }
      assert v.children[..|v.children|] == v.children;
      HitsConcat(paths, start, Preorder(v.children));
    }
    assert d[..|d|] == d;
    return "", false;
  }

  lemma EmptyForest(paths: seq<Path>)
    ensures !Hits(paths, Preorder([]))
  {
  }

  lemma SingleHit(paths: seq<Path>, p: Path)
    ensures Hits(paths, [p]) <==> p in paths
    ensures p in paths ==> FirstHit(paths, [p], p)
  {
    assert [p][0] == p;
    if p in paths { assert [p][..0] == []; }
  }

  method CheckIfDeviceUsed(paths: seq<Path>, t: Topology) returns (used: Path, found: bool)
    ensures found <==> Hits(paths, AllPaths(t))
    ensures if found then FirstHit(paths, AllPaths(t), used) else used == ""
  {
    hide Hits, FirstHit, Preorder;
    var a, b, c := Preorder(t.top), Preorder(t.spares), Preorder(t.readCache);
    HitsConcat(paths, a, b);
    HitsConcat(paths, a + b, c);
    used, found := CompareDisk(paths, t.top);
    if found {
      EmptyForest(paths);
      FirstHitAfter(paths, [], a, b + c, used) by { assert Preorder([]) == [] by { EmptyPreorder(); } }
      assert [] + a + (b + c) == AllPaths(t);
      return;
    }
    used, found := CompareDisk(paths, t.spares);
    if found {
      FirstHitAfter(paths, a, b, c, used);
      return;
    }
    used, found := CompareDisk(paths, t.readCache);
    if found {
      FirstHitAfter(paths, a + b, c, [], used);
      assert (a + b) + c + [] == AllPaths(t);
    }
  }

  lemma EmptyPreorder()
    ensures Preorder([]) == []
  {
  }
}
