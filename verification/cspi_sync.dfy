/** How the cspc-operator copies the raid groups of a pool spec of a
  CStorPoolCluster (CSPC) to its CStorPoolInstance (CSPI)
  (pkg/controllers/cspc-controller/operations.go). */
module CspiSync {
  import opened Lists
  import opened RaidGroups

  // ---------- one pass, as a relation ----------

  /** The first CSPI group with exactly one device outside `g`, or -1. */
  function FindReplaced(g: Group, insts: seq<Group>): (j: int)
    ensures -1 <= j < |insts|
    ensures j >= 0 ==> |ListDiff(insts[j], g)| == 1
    ensures forall k :: 0 <= k < (if j >= 0 then j else |insts|) ==> |ListDiff(insts[k], g)| != 1
  {
    FindReplacedFrom(g, insts, 0)
  }

  function FindReplacedFrom(g: Group, insts: seq<Group>, start: nat): (j: int)
    requires start <= |insts|
    ensures -1 <= j < |insts|
    ensures j >= 0 ==> start <= j && |ListDiff(insts[j], g)| == 1
    ensures forall k :: start <= k < (if j >= 0 then j else |insts|) ==> |ListDiff(insts[k], g)| != 1
    decreases |insts| - start
  {
    if start == |insts| then -1
    else if |ListDiff(insts[start], g)| == 1 then start
    else FindReplacedFrom(g, insts, start + 1)
  }

  /** `h'` is `h` with the outgoing device overwritten by the incoming one. */
  ghost predicate Overwritten(h: Group, h': Group, incoming: Device, outgoing: Device) {
    exists t :: 0 <= t < |h| && h[t] == outgoing && h' == h[t := incoming]
  }

  /** The effect of replaceExistingBlockDevice on CSPI group `h`: the devices are
      picked from maps, so any missing pair may be taken. */
  ghost predicate GroupReplaced(g: Group, h: Group, h': Group, usable: set<Device>) {
    h' == h ||
    exists incoming, outgoing ::
      && incoming in Elems(g) - Elems(h) && outgoing in Elems(h) - Elems(g)
      && incoming in usable && Overwritten(h, h', incoming, outgoing)
  }

  /** One pair that can be taken is missing, empty or unusable: the group stays. */
  ghost predicate MayStay(g: Group, h: Group, usable: set<Device>) {
    || Elems(g) - Elems(h) == {}
    || Elems(h) - Elems(g) == {}
    || (exists d :: d in Elems(g) - Elems(h) && (d == "" || d !in usable))
    || "" in Elems(h) - Elems(g)
  }

  ghost predicate CopyGroup(g: Group, insts: seq<Group>, insts': seq<Group>, usable: set<Device>) {
    var j := FindReplaced(g, insts);
    if j < 0 then insts' == insts
    else
      && |insts'| == |insts|
      && insts' == insts[j := insts'[j]]
      && GroupReplaced(g, insts[j], insts'[j], usable)
      && (insts'[j] == insts[j] ==> MayStay(g, insts[j], usable))
  }

  ghost predicate CopyGroups(specs: seq<Group>, insts: seq<Group>, insts': seq<Group>, usable: set<Device>) {
    if specs == [] then insts' == insts
    else exists mid :: CopyGroup(specs[0], insts, mid, usable) && CopyGroups(specs[1..], mid, insts', usable)
  }

  lemma {:induction false} CopyGroupsSnoc(specs: seq<Group>, g: Group, insts: seq<Group>, mid: seq<Group>, insts': seq<Group>,
                        usable: set<Device>)
    requires CopyGroups(specs, insts, mid, usable) && CopyGroup(g, mid, insts', usable)
    ensures CopyGroups(specs + [g], insts, insts', usable)
    decreases |specs|
  {
    hide CopyGroup;
    if specs == [] {
      assert ([g])[1..] == [];
      assert CopyGroups([], insts', insts', usable);
      assert specs + [g] == [g];
    } else {
      var first :| CopyGroup(specs[0], insts, first, usable) && CopyGroups(specs[1..], first, mid, usable);
      CopyGroupsSnoc(specs[1..], g, first, mid, insts', usable);
      assert (specs + [g])[1..] == specs[1..] + [g];
    }
  }

  // ---------- the operations ----------

  /** The CSPI object the operator works on. */
  class Instance {
    var groups: seq<Group>

    constructor (gs: seq<Group>)
      ensures groups == gs
    {
      groups := gs;
    }

    method GetReplacedCSPIRaidGroup(g: Group) returns (j: int)
      ensures j == FindReplaced(g, groups)
    {
      var blockDeviceMap := Elems(g);
      for k := 0 to |groups|
        invariant forall i :: 0 <= i < k ==> |ListDiff(groups[i], g)| != 1
      {
        var h := groups[k];
        var misMatchedBDCount := 0;
        for t := 0 to |h|
          invariant misMatchedBDCount + |ListDiff(h[t..], g)| == |ListDiff(h, g)|
        {
          assert h[t..][1..] == h[t + 1..];
          if h[t] !in blockDeviceMap { misMatchedBDCount := misMatchedBDCount + 1; }
        }
        if misMatchedBDCount == 1 { return k; }
      }
      return -1;
    }

    /** Overwrites one device of group `j` by one of `g`; false is the error result. */
    method ReplaceExistingBlockDevice(g: Group, j: nat, usable: set<Device>) returns (ok: bool)
      requires j < |groups|
      modifies this
      ensures |groups| == |old(groups)| && groups == old(groups)[j := groups[j]]
      ensures GroupReplaced(g, old(groups)[j], groups[j], usable)
      ensures ok <==> groups[j] != old(groups)[j]
      ensures !ok ==> MayStay(g, old(groups)[j], usable)
    {
      var h := groups[j];
      var cspcBlockDeviceMap, cspiBlockDeviceMap := Elems(g), Elems(h);
      var outgoings := cspiBlockDeviceMap - cspcBlockDeviceMap;
      var incomings := cspcBlockDeviceMap - cspiBlockDeviceMap;
      var oldName, newName := "", "";
      if outgoings != {} { oldName :| oldName in outgoings; }
      if incomings != {} { newName :| newName in incomings; }
      if oldName == "" || newName == "" || newName !in usable {
        return false;
      }
      for t := 0 to |h|
        invariant groups == old(groups)
        invariant forall i :: 0 <= i < t ==> h[i] != oldName
      {
        if h[t] == oldName {
          groups := groups[j := h[t := newName]];
          assert Overwritten(h, groups[j], newName, oldName);
          return true;
        }
      }
      return false;
    }

    method UpdateExistingCSPI(specs: seq<Group>, usable: set<Device>)
      modifies this
      ensures CopyGroups(specs, old(groups), groups, usable)
    {
      for i := 0 to |specs|
        invariant CopyGroups(specs[..i], old(groups), groups, usable)
      {
        ghost var mid := groups;
        var j := GetReplacedCSPIRaidGroup(specs[i]);
        if j >= 0 {
          var ok := ReplaceExistingBlockDevice(specs[i], j, usable);
        }
        CopyGroupsSnoc(specs[..i], specs[i], old(groups), mid, groups, usable);
        assert specs[..i] + [specs[i]] == specs[..i + 1];
      }
      assert specs[..|specs|] == specs;
    }

    method IsRaidGroupPresentOnCSPI(g: Group) returns (present: bool)
      ensures present <==> Present(g, groups)
    {
      var blockDeviceMap := Elems(g);
      var insts := groups;
      for k := 0 to |insts|
        invariant forall m :: 0 <= m < k ==> !Overlap(g, insts[m])
      {
        var h := insts[k];
        for t := 0 to |h|
          invariant forall i :: 0 <= i < t ==> h[i] !in g
        {
          if h[t] in blockDeviceMap {
            assert Overlap(g, insts[k]);
            return true;
          }
        }
      }
      return false;
    }

    /** Appends the groups of the spec that share no device with the CSPI and
        whose devices are all usable. */
    method AddGroupToPool(specs: seq<Group>, usable: set<Device>)
      modifies this
      ensures groups == Expanded(specs, old(groups), usable)
    {
      for i := 0 to |specs|
        invariant Expanded(specs[i..], groups, usable) == Expanded(specs, old(groups), usable)
      {
        assert specs[i..][1..] == specs[i + 1..];
        var present := IsRaidGroupPresentOnCSPI(specs[i]);
        if !present {
          var validGroup := true;
          for t := 0 to |specs[i]|
            invariant validGroup && Elems(specs[i][..t]) <= usable
          {
            if specs[i][t] !in usable {
              validGroup := false;
              break;
            }
          }
          assert validGroup ==> specs[i][..|specs[i]|] == specs[i];
          assert validGroup <==> Elems(specs[i]) <= usable;
          if validGroup {
            groups := groups + [specs[i]];
          }
        }
      }
      assert specs[|specs|..] == [];
    }
  }

  ghost predicate Present(g: Group, insts: seq<Group>) {
    exists m :: 0 <= m < |insts| && Overlap(g, insts[m])
  }

  ghost function Expanded(specs: seq<Group>, insts: seq<Group>, usable: set<Device>): seq<Group> {
    if specs == [] then insts
    else if !Present(specs[0], insts) && Elems(specs[0]) <= usable then Expanded(specs[1..], insts + [specs[0]], usable)
    else Expanded(specs[1..], insts, usable)
  }

  // ---------- CSPI groups that lag one device behind ----------

  /** CSPI group `h` still has `o` where spec group `g` has `n`. */
  ghost predicate Lags(g: Group, h: Group, n: Device, o: Device) {
    n in g && o !in g && Elems(h) == Elems(g) - {n} + {o}
  }

  /** `h` holds the devices of `g`, or lags by one replacement of `marks`,
      a map from incoming to outgoing devices. */
  ghost predicate Follows(g: Group, h: Group, marks: map<Device, Device>) {
    Elems(h) == Elems(g) || exists n :: n in marks && Lags(g, h, n, marks[n])
  }

  ghost predicate Disjoint(gs: seq<Group>) {
    && (forall i :: 0 <= i < |gs| ==> Unique(gs[i]))
    && (forall i, j :: 0 <= i < |gs| && 0 <= j < |gs| && i != j ==> !Overlap(gs[i], gs[j]))
  }

  ghost predicate OneMark(g: Group, marks: map<Device, Device>) {
    forall n, n' :: n in g && n' in g && n in marks && n' in marks ==> n == n'
  }

  /** The CSPI groups `insts` lag behind the spec groups by at most one device
      each, and no outgoing device is used in the spec. */
  ghost predicate Lagging(specs: seq<Group>, insts: seq<Group>, marks: map<Device, Device>) {
    && Disjoint(specs) && Disjoint(insts)
    && (forall i :: 0 <= i < |specs| ==> |specs[i]| >= 2 && OneMark(specs[i], marks))
    && (forall i, n :: 0 <= i < |specs| && n in marks ==> marks[n] !in specs[i])
    && (forall j :: 0 <= j < |insts| ==> FollowsSome(specs, insts[j], marks))
  }

  ghost predicate FollowsSome(specs: seq<Group>, h: Group, marks: map<Device, Device>) {
    exists i :: 0 <= i < |specs| && Follows(specs[i], h, marks)
  }

  lemma LagCard(g: Group, h: Group, n: Device, o: Device)
    requires Unique(g) && Unique(h) && Lags(g, h, n, o)
    ensures |h| == |g| && |ListDiff(h, g)| == 1
    ensures Elems(g) - Elems(h) == {n} && Elems(h) - Elems(g) == {o}
  {
    hide Unique, ListDiff;
    ElemsCard(g);
    ElemsCard(h);
    ListDiffUnique(h, g);
    LagSets(Elems(g), Elems(h), n, o);
  }

  lemma LagSets(g: set<Device>, h: set<Device>, n: Device, o: Device)
    requires n in g && o !in g && h == g - {n} + {o}
    ensures g - h == {n} && h - g == {o} && |g| == |h|
  {
    assert g == (g - {n}) + {n};
  }

  lemma FollowsSize(g: Group, h: Group, marks: map<Device, Device>)
    requires Unique(g) && Unique(h) && Follows(g, h, marks)
    ensures |h| == |g|
  {
    hide Unique;
    ElemsCard(g);
    ElemsCard(h);
    if Elems(h) != Elems(g) {
      var n :| n in marks && Lags(g, h, n, marks[n]);
      LagCard(g, h, n, marks[n]);
    }
  }

  /** A CSPI group following one spec group shares nothing with another. */
  lemma FollowsApart(specs: seq<Group>, insts: seq<Group>, marks: map<Device, Device>, i: nat, i': nat, j: nat)
    requires Lagging(specs, insts, marks) && i < |specs| && i' < |specs| && j < |insts| && i != i'
    requires Follows(specs[i'], insts[j], marks)
    ensures !Overlap(insts[j], specs[i])
    ensures |ListDiff(insts[j], specs[i])| == |insts[j]| >= 2
    ensures !Follows(specs[i], insts[j], marks)
  {
    hide Unique, ListDiff, Lagging, Follows;
    var g, h := specs[i], insts[j];
    LaggingParts(specs, insts, marks);
    FollowsSize(specs[i'], h, marks);
    ListDiffUnique(h, g);
    ElemsCard(h);
    FollowersAvoid(specs, insts, marks, i, i', j);
    assert Elems(h) - Elems(g) == Elems(h);
    if Follows(g, h, marks) { var d := FollowsShares(g, h, marks); }
  }

  lemma FollowersAvoid(specs: seq<Group>, insts: seq<Group>, marks: map<Device, Device>, i: nat, i': nat, j: nat)
    requires Lagging(specs, insts, marks) && i < |specs| && i' < |specs| && j < |insts| && i != i'
    requires Follows(specs[i'], insts[j], marks)
    ensures !Overlap(insts[j], specs[i])
  {
    hide Unique, OneMark;
    var g, h := specs[i], insts[j];
    assert !Overlap(specs[i'], g);
    forall d | d in h ensures d !in g {
      assert d in Elems(h);
    }
  }

  /** A group and one that follows it share a device without a mark. */
  lemma FollowsShares(g: Group, h: Group, marks: map<Device, Device>) returns (d: Device)
    requires Unique(g) && |g| >= 2 && OneMark(g, marks) && Follows(g, h, marks)
    ensures d in g && d in h && d !in marks
  {
    assert g[0] != g[1];
    d := if g[0] in marks then g[1] else g[0];
    assert d in Elems(g);
    assert d in Elems(h);
  }

  /** Two CSPI groups cannot follow the same spec group. */
  lemma FollowsOnce(specs: seq<Group>, insts: seq<Group>, marks: map<Device, Device>, i: nat, j: nat, k: nat)
    requires Lagging(specs, insts, marks) && i < |specs| && j < |insts| && k < |insts|
    requires Follows(specs[i], insts[j], marks) && Follows(specs[i], insts[k], marks)
    ensures j == k
  {
    var g := specs[i];
    assert g[0] != g[1];
    var d := if g[0] in marks then g[1] else g[0];
    assert d in Elems(g);
    assert d in Elems(insts[j]) && d in Elems(insts[k]);
    assert Overlap(insts[j], insts[k]);
  }

  // ---------- a pass brings the lagging groups up to date ----------

  /** Copying one spec group touches at most the CSPI group that lags behind it. */
  lemma CopyGroupLagging(specs: seq<Group>, insts: seq<Group>, insts': seq<Group>, marks: map<Device, Device>,
                         usable: set<Device>, i: nat)
    requires Lagging(specs, insts, marks) && i < |specs| && CopyGroup(specs[i], insts, insts', usable)
    ensures |insts'| == |insts|
    ensures forall j :: 0 <= j < |insts| ==> Moved(specs, insts[j], insts'[j], marks, usable, i, i + 1)
  {
    hide Unique, ListDiff, Lagging;
    var j := FindReplaced(specs[i], insts);
    if j >= 0 {
      var i' := Followed(specs, insts, marks, j);
      if i' != i {
        FollowsApart(specs, insts, marks, i, i', j);
        assert false;
      }
      LaggingParts(specs, insts, marks);
      FoundLags(specs[i], insts[j], marks);
      if insts'[j] != insts[j] {
        var n :| n in marks && Lags(specs[i], insts[j], n, marks[n]);
        LagCard(specs[i], insts[j], n, marks[n]);
        assert Overwritten(insts[j], insts'[j], n, marks[n]) && n in usable;
        OverwrittenElems(insts[j], insts'[j], n, marks[n]);
        assert Elems(insts'[j]) == Elems(specs[i]);
      }
    }
  }

  lemma FoundLags(g: Group, h: Group, marks: map<Device, Device>)
    requires |ListDiff(h, g)| == 1 && Follows(g, h, marks)
    ensures exists n :: n in marks && Lags(g, h, n, marks[n])
  {
    var d := ListDiff(h, g)[0];
    assert d in ListDiff(h, g);
    assert d in Elems(h) && d !in Elems(g);
  }

  lemma OverwrittenElems(h: Group, h': Group, n: Device, o: Device)
    requires Unique(h) && n !in h && Overwritten(h, h', n, o)
    ensures Elems(h') == Elems(h) - {o} + {n} && Unique(h') && |h'| == |h|
  {
    var t :| 0 <= t < |h| && h[t] == o && h' == h[t := n];
    assert forall d :: d in h && d != o ==> d in h' by {
      forall d | d in h && d != o ensures d in h' {
        var k :| 0 <= k < |h| && h[k] == d;
        assert h'[k] == d;
      }
    }
    assert h'[t] == n;
  }

  /** The spec group a CSPI group follows. */
  lemma Followed(specs: seq<Group>, insts: seq<Group>, marks: map<Device, Device>, j: nat) returns (i: nat)
    requires Lagging(specs, insts, marks) && j < |insts|
    ensures i < |specs| && Follows(specs[i], insts[j], marks)
  {
    hide Follows, Disjoint, OneMark;
    assert FollowsSome(specs, insts[j], marks);
    var k: int :| 0 <= k < |specs| && Follows(specs[k], insts[j], marks);
    i := k;
  }

  lemma LaggingParts(specs: seq<Group>, insts: seq<Group>, marks: map<Device, Device>)
    requires Lagging(specs, insts, marks)
    ensures forall i :: 0 <= i < |specs| ==> Unique(specs[i]) && |specs[i]| >= 2 && OneMark(specs[i], marks)
    ensures forall j :: 0 <= j < |insts| ==> Unique(insts[j])
  {
  }

  /** A CSPI group is as before, or had lagged behind one of the spec groups
      `from..to` and now holds its devices, in the same positions but one. */
  ghost predicate Moved(specs: seq<Group>, h: Group, h': Group, marks: map<Device, Device>, usable: set<Device>,
                        from: int, to: int) {
    h' == h || exists i :: 0 <= from <= i < to <= |specs| && CaughtUp(specs[i], h, h', marks, usable)
  }

  ghost predicate CaughtUp(g: Group, h: Group, h': Group, marks: map<Device, Device>, usable: set<Device>) {
    && Elems(h') == Elems(g) && Unique(h')
    && exists n :: n in marks && n in usable && Lags(g, h, n, marks[n]) && Overwritten(h, h', n, marks[n])
  }

  lemma CaughtUpFollows(g: Group, h: Group, h': Group, marks: map<Device, Device>, usable: set<Device>)
    requires CaughtUp(g, h, h', marks, usable)
    ensures Follows(g, h, marks) && Follows(g, h', marks)
  {
  }

  /** A moved group still follows the spec group it followed. */
  lemma MovedFollows(specs: seq<Group>, insts: seq<Group>, h': Group, marks: map<Device, Device>,
                     usable: set<Device>, i: nat, j: nat)
    requires Lagging(specs, insts, marks) && i < |specs| && j < |insts| && Follows(specs[i], insts[j], marks)
    requires Moved(specs, insts[j], h', marks, usable, 0, |specs|)
    ensures Follows(specs[i], h', marks) && Unique(h')
    ensures h' == insts[j] || CaughtUp(specs[i], insts[j], h', marks, usable)
  {
    hide Unique, Lagging, Follows, CaughtUp;
    if h' == insts[j] {
      LaggingParts(specs, insts, marks);
    } else {
      var k :| 0 <= k < |specs| && CaughtUp(specs[k], insts[j], h', marks, usable);
      CaughtUpFollows(specs[k], insts[j], h', marks, usable);
      CaughtUpUnique(specs[k], insts[j], h', marks, usable);
      if k != i {
        FollowsApart(specs, insts, marks, i, k, j);
      }
    }
  }

  lemma CaughtUpUnique(g: Group, h: Group, h': Group, marks: map<Device, Device>, usable: set<Device>)
    requires CaughtUp(g, h, h', marks, usable)
    ensures Elems(h') == Elems(g) && Unique(h')
  {
  }

  /** Two CSPI groups stay apart when either catches up. */
  lemma MovedApart(specs: seq<Group>, insts: seq<Group>, insts': seq<Group>, marks: map<Device, Device>,
                   usable: set<Device>, j: nat, k: nat)
    requires Lagging(specs, insts, marks) && |insts'| == |insts| && j < |insts| && k < |insts| && j != k
    requires Moved(specs, insts[j], insts'[j], marks, usable, 0, |specs|)
    requires Moved(specs, insts[k], insts'[k], marks, usable, 0, |specs|)
    ensures !Overlap(insts'[j], insts'[k])
  {
    hide Unique, Lagging, Follows, CaughtUp, Moved;
    var a := Followed(specs, insts, marks, j);
    var b := Followed(specs, insts, marks, k);
    if a == b {
      FollowsOnce(specs, insts, marks, a, j, k);
      assert false;
    }
    MovedFollows(specs, insts, insts'[j], marks, usable, a, j);
    MovedFollows(specs, insts, insts'[k], marks, usable, b, k);
    FollowsApart(specs, insts, marks, b, a, j);
    FollowsApart(specs, insts, marks, a, b, k);
    LaggingApart(specs, insts, marks, a, b, j, k);
    forall d | d in insts'[j] ensures d !in insts'[k] {
      if insts'[j] != insts[j] {
        CaughtUpUnique(specs[a], insts[j], insts'[j], marks, usable);
        assert d in Elems(insts'[j]);
      }
      if insts'[k] != insts[k] {
        CaughtUpUnique(specs[b], insts[k], insts'[k], marks, usable);
        assert d in insts'[k] <==> d in Elems(specs[b]);
      }
    }
  }

  lemma LaggingApart(specs: seq<Group>, insts: seq<Group>, marks: map<Device, Device>, a: nat, b: nat, j: nat, k: nat)
    requires Lagging(specs, insts, marks) && a < |specs| && b < |specs| && j < |insts| && k < |insts| && a != b && j != k
    ensures !Overlap(specs[a], specs[b]) && !Overlap(insts[j], insts[k])
  {
  }

  /** Moving keeps the relation between spec and CSPI. */
  lemma MovedKeepsLagging(specs: seq<Group>, insts: seq<Group>, insts': seq<Group>, marks: map<Device, Device>,
                          usable: set<Device>)
    requires Lagging(specs, insts, marks) && |insts'| == |insts|
    requires forall j :: 0 <= j < |insts| ==> Moved(specs, insts[j], insts'[j], marks, usable, 0, |specs|)
    ensures Lagging(specs, insts', marks)
  {
    hide Unique, Follows, CaughtUp, Moved, OneMark, Overlap;
    forall j | 0 <= j < |insts| ensures Unique(insts'[j]) && FollowsSome(specs, insts'[j], marks) {
      var i := Followed(specs, insts, marks, j);
      MovedFollows(specs, insts, insts'[j], marks, usable, i, j);
    }
    forall j, k | 0 <= j < |insts| && 0 <= k < |insts| && j != k ensures !Overlap(insts'[j], insts'[k]) {
      MovedApart(specs, insts, insts', marks, usable, j, k);
    }
  }

  lemma MovedWider(specs: seq<Group>, h: Group, h': Group, marks: map<Device, Device>, usable: set<Device>, from: int, to: int)
    requires 0 <= from && to <= |specs| && Moved(specs, h, h', marks, usable, from, to)
    ensures Moved(specs, h, h', marks, usable, 0, |specs|)
  {
    hide CaughtUp;
    if h' != h {
      var i :| 0 <= from <= i < to <= |specs| && CaughtUp(specs[i], h, h', marks, usable);
    }
  }

  /** A group that has caught up does not move again. */
  lemma MovedOnce(specs: seq<Group>, mids: seq<Group>, h: Group, h': Group, marks: map<Device, Device>,
                  usable: set<Device>, k: nat, j: nat)
    requires Lagging(specs, mids, marks) && k < |specs| && j < |mids|
    requires Moved(specs, h, mids[j], marks, usable, k, k + 1)
    requires Moved(specs, mids[j], h', marks, usable, k + 1, |specs|)
    ensures Moved(specs, h, h', marks, usable, k, |specs|)
  {
    hide CaughtUp, Lagging, Follows;
    if mids[j] != h && h' != mids[j] {
      var i :| k + 1 <= i < |specs| && CaughtUp(specs[i], mids[j], h', marks, usable);
      assert CaughtUp(specs[k], h, mids[j], marks, usable);
      CaughtUpFollows(specs[k], h, mids[j], marks, usable);
      CaughtUpFollows(specs[i], mids[j], h', marks, usable);
      FollowsApart(specs, mids, marks, i, k, j);
      assert false;
    } else if mids[j] != h {
      assert CaughtUp(specs[k], h, h', marks, usable);
    }
  }

  /** A pass over the spec groups from `k` on changes only CSPI groups that lag
      behind one of them, by the one device they lag by. */
  lemma {:induction false} CopyGroupsLagging(specs: seq<Group>, insts: seq<Group>, insts': seq<Group>, marks: map<Device, Device>,
                                             usable: set<Device>, k: nat)
    requires Lagging(specs, insts, marks) && k <= |specs| && CopyGroups(specs[k..], insts, insts', usable)
    ensures |insts'| == |insts| && Lagging(specs, insts', marks)
    ensures forall j :: 0 <= j < |insts| ==> Moved(specs, insts[j], insts'[j], marks, usable, k, |specs|)
    decreases |specs| - k
  {
    hide Moved, Lagging, CopyGroup;
    if k < |specs| {
      var mid :| CopyGroup(specs[k..][0], insts, mid, usable) && CopyGroups(specs[k..][1..], mid, insts', usable);
      assert specs[k..][1..] == specs[k + 1..];
      CopyGroupLagging(specs, insts, mid, marks, usable, k);
      forall j | 0 <= j < |insts| ensures Moved(specs, insts[j], mid[j], marks, usable, 0, |specs|) {
        MovedWider(specs, insts[j], mid[j], marks, usable, k, k + 1);
      }
      MovedKeepsLagging(specs, insts, mid, marks, usable);
      CopyGroupsLagging(specs, mid, insts', marks, usable, k + 1);
      forall j | 0 <= j < |insts| ensures Moved(specs, insts[j], insts'[j], marks, usable, k, |specs|) {
        MovedOnce(specs, mid, insts[j], insts'[j], marks, usable, k, j);
      }
    } else {
      forall j | 0 <= j < |insts| ensures Moved(specs, insts[j], insts'[j], marks, usable, k, |specs|) {
        MovedRefl(specs, insts[j], marks, usable, k);
      }
    }
  }

  lemma MovedRefl(specs: seq<Group>, h: Group, marks: map<Device, Device>, usable: set<Device>, k: int)
    ensures Moved(specs, h, h, marks, usable, k, |specs|)
  {
  }

  // ---------- convergence ----------

  /** The incoming devices are usable and no device of a pair has an empty name. */
  ghost predicate AllUsable(marks: map<Device, Device>, usable: set<Device>) {
    forall n :: n in marks ==> n in usable && n != "" && marks[n] != ""
  }

  lemma CopyGroupCatchesUp(specs: seq<Group>, insts: seq<Group>, insts': seq<Group>, marks: map<Device, Device>,
                           usable: set<Device>, i: nat, j: nat)
    requires Lagging(specs, insts, marks) && i < |specs| && j < |insts| && CopyGroup(specs[i], insts, insts', usable)
    requires AllUsable(marks, usable) && Follows(specs[i], insts[j], marks)
    ensures |insts'| == |insts| && Elems(insts'[j]) == Elems(specs[i])
  {
    hide Unique, ListDiff, Lagging;
    CopyGroupLagging(specs, insts, insts', marks, usable, i);
    if Elems(insts[j]) != Elems(specs[i]) {
      LaggingParts(specs, insts, marks);
      var n :| n in marks && Lags(specs[i], insts[j], n, marks[n]);
      LagCard(specs[i], insts[j], n, marks[n]);
      var f := FindReplaced(specs[i], insts);
      var i' := Followed(specs, insts, marks, f);
      if i' != i { FollowsApart(specs, insts, marks, i, i', f); }
      FollowsOnce(specs, insts, marks, i, f, j);
    }
  }

  lemma {:induction false} CatchUpFrom(specs: seq<Group>, insts: seq<Group>, insts': seq<Group>, marks: map<Device, Device>,
                                       usable: set<Device>, k: nat, i: nat, j: nat)
    requires Lagging(specs, insts, marks) && k <= i < |specs| && j < |insts| && CopyGroups(specs[k..], insts, insts', usable)
    requires AllUsable(marks, usable) && Follows(specs[i], insts[j], marks)
    ensures |insts'| == |insts| && Elems(insts'[j]) == Elems(specs[i])
    decreases |specs| - k
  {
    hide Moved, Lagging, CopyGroup, CaughtUp, Follows, AllUsable;
    var mid :| CopyGroup(specs[k..][0], insts, mid, usable) && CopyGroups(specs[k..][1..], mid, insts', usable);
    assert specs[k..][1..] == specs[k + 1..];
    CopyGroupLagging(specs, insts, mid, marks, usable, k);
    forall j | 0 <= j < |insts| ensures Moved(specs, insts[j], mid[j], marks, usable, 0, |specs|) {
      MovedWider(specs, insts[j], mid[j], marks, usable, k, k + 1);
    }
    MovedKeepsLagging(specs, insts, mid, marks, usable);
    CopyGroupsLagging(specs, mid, insts', marks, usable, k + 1);
    if k < i {
      MovedFollows(specs, insts, mid[j], marks, usable, i, j);
      CatchUpFrom(specs, mid, insts', marks, usable, k + 1, i, j);
    } else {
      CopyGroupCatchesUp(specs, insts, mid, marks, usable, i, j);
      SyncedStays(specs, mid, insts'[j], marks, usable, i, j);
    }
  }

  /** A group equal to its spec group stays equal. */
  lemma SyncedStays(specs: seq<Group>, mids: seq<Group>, h': Group, marks: map<Device, Device>, usable: set<Device>, i: nat, j: nat)
    requires Lagging(specs, mids, marks) && i < |specs| && j < |mids| && Elems(mids[j]) == Elems(specs[i])
    requires Moved(specs, mids[j], h', marks, usable, i + 1, |specs|)
    ensures h' == mids[j]
  {
    hide CaughtUp, Lagging;
    if h' != mids[j] {
      var k :| i + 1 <= k < |specs| && CaughtUp(specs[k], mids[j], h', marks, usable);
      CaughtUpFollows(specs[k], mids[j], h', marks, usable);
      FollowsApart(specs, mids, marks, k, i, j);
    }
  }

  /** Convergence: if CSPI groups lag by at most one device, the outgoing devices
      are not in the spec and the incoming ones are usable, one pass makes every
      CSPI group set-equal to the spec group it follows, overwriting one position
      in each lagging group and nothing else. */
  lemma OnePassConverges(specs: seq<Group>, insts: seq<Group>, insts': seq<Group>, marks: map<Device, Device>, usable: set<Device>)
    requires Lagging(specs, insts, marks) && AllUsable(marks, usable)
    requires CopyGroups(specs, insts, insts', usable)
    ensures |insts'| == |insts|
    ensures forall i, j :: 0 <= i < |specs| && 0 <= j < |insts| && Follows(specs[i], insts[j], marks) ==>
              Elems(insts'[j]) == Elems(specs[i])
    ensures forall j :: 0 <= j < |insts| ==> Moved(specs, insts[j], insts'[j], marks, usable, 0, |specs|)
  {
    hide Moved, Lagging, CopyGroups, Follows, AllUsable;
    assert specs[0..] == specs;
    CopyGroupsLagging(specs, insts, insts', marks, usable, 0);
    forall i, j | 0 <= i < |specs| && 0 <= j < |insts| && Follows(specs[i], insts[j], marks)
      ensures Elems(insts'[j]) == Elems(specs[i])
    {
      CatchUpFrom(specs, insts, insts', marks, usable, 0, i, j);
    }
  }

  /** The group found for a spec group is the one that lags behind it. */
  lemma FoundIsLagging(specs: seq<Group>, insts: seq<Group>, marks: map<Device, Device>, i: nat, j: nat)
    requires Lagging(specs, insts, marks) && i < |specs| && j < |insts|
    ensures FindReplaced(specs[i], insts) == j <==> exists n :: n in marks && Lags(specs[i], insts[j], n, marks[n])
  {
    hide Unique, ListDiff, Lagging;
    LaggingParts(specs, insts, marks);
    var f := FindReplaced(specs[i], insts);
    if n :| n in marks && Lags(specs[i], insts[j], n, marks[n]) {
      LagCard(specs[i], insts[j], n, marks[n]);
      var i' := Followed(specs, insts, marks, f);
      if i' != i { FollowsApart(specs, insts, marks, i, i', f); }
      FollowsOnce(specs, insts, marks, i, f, j);
    }
    if f == j {
      var i' := Followed(specs, insts, marks, f);
      if i' != i { FollowsApart(specs, insts, marks, i, i', f); }
      FoundLags(specs[i], insts[j], marks);
    }
  }

  // ---------- expansion ----------

  /** Appending a spec group that shares no device with the CSPI. */
  lemma AppendKeepsLagging(specs: seq<Group>, insts: seq<Group>, marks: map<Device, Device>, i: nat)
    requires Lagging(specs, insts, marks) && i < |specs| && !Present(specs[i], insts)
    ensures Lagging(specs, insts + [specs[i]], marks)
  {
    hide Unique, OneMark, Follows;
    var insts' := insts + [specs[i]];
    forall j | 0 <= j < |insts'| ensures FollowsSome(specs, insts'[j], marks) {
      if j == |insts| {
        FollowsRefl(specs[i], marks);
      } else {
        assert FollowsSome(specs, insts[j], marks);
      }
    }
    forall j, k | 0 <= j < |insts'| && 0 <= k < |insts'| && j != k ensures !Overlap(insts'[j], insts'[k]) {
      if j == |insts| {
        assert !Overlap(specs[i], insts[k]);
      } else if k == |insts| {
        assert !Overlap(specs[i], insts[j]);
      } else {
        assert !Overlap(insts[j], insts[k]);
      }
    }
  }

  lemma FollowsRefl(g: Group, marks: map<Device, Device>)
    ensures Follows(g, g, marks)
  {
  }

  /** Adding raid groups keeps the groups already on the CSPI, appends spec
      groups of usable devices only, and keeps the relation to the spec. */
  lemma {:induction false} ExpandedLagging(specs: seq<Group>, insts: seq<Group>, marks: map<Device, Device>,
                                           usable: set<Device>, k: nat)
    requires Lagging(specs, insts, marks) && k <= |specs|
    ensures var r := Expanded(specs[k..], insts, usable);
      && Lagging(specs, r, marks) && |insts| <= |r| && r[..|insts|] == insts
      && (forall j :: |insts| <= j < |r| ==> r[j] in specs && Elems(r[j]) <= usable)
      && (forall i :: k <= i < |specs| && Elems(specs[i]) <= usable ==> Present(specs[i], r))
    decreases |specs| - k
  {
    hide Lagging;
    if k < |specs| {
      assert specs[k..][1..] == specs[k + 1..] && specs[k..][0] == specs[k];
      var added := !Present(specs[k], insts) && Elems(specs[k]) <= usable;
      var next := if added then insts + [specs[k]] else insts;
      if added { AppendKeepsLagging(specs, insts, marks, k); }
      ExpandedLagging(specs, next, marks, usable, k + 1);
      var r := Expanded(specs[k..], insts, usable);
      assert r == Expanded(specs[k + 1..], next, usable);
      if Elems(specs[k]) <= usable {
        SpecPresent(specs, insts, next, marks, usable, k);
        PresentPrefix(specs[k], next, r);
      }
      assert forall j :: |insts| <= j < |next| ==> r[j] == next[j] == specs[k];
      assert r[..|insts|] == next[..|insts|] == insts;
    }
  }

  lemma SpecPresent(specs: seq<Group>, insts: seq<Group>, next: seq<Group>, marks: map<Device, Device>, usable: set<Device>, k: nat)
    requires k < |specs| && Lagging(specs, insts, marks) && Elems(specs[k]) <= usable
    requires next == if !Present(specs[k], insts) then insts + [specs[k]] else insts
    ensures Present(specs[k], next)
  {
    if !Present(specs[k], insts) {
      assert specs[k][0] in specs[k];
      assert Overlap(specs[k], next[|insts|]);
    }
  }

  lemma PresentPrefix(g: Group, insts: seq<Group>, r: seq<Group>)
    requires Present(g, insts) && |insts| <= |r| && r[..|insts|] == insts
    ensures Present(g, r)
  {
    var m :| 0 <= m < |insts| && Overlap(g, insts[m]);
    assert r[m] == r[..|insts|][m];
  }

  // ---------- a pass is always possible ----------

  lemma CopyGroupExists(g: Group, insts: seq<Group>, usable: set<Device>) returns (insts': seq<Group>)
    ensures CopyGroup(g, insts, insts', usable)
  {
    hide ListDiff;
    var j := FindReplaced(g, insts);
    if j < 0 || MayStay(g, insts[j], usable) {
      insts' := insts;
    } else {
      var h := insts[j];
      var incoming :| incoming in Elems(g) - Elems(h);
      var outgoing :| outgoing in Elems(h) - Elems(g);
      var t :| 0 <= t < |h| && h[t] == outgoing;
      insts' := insts[j := h[t := incoming]];
      assert Overwritten(h, insts'[j], incoming, outgoing);
      assert insts'[j][t] != h[t];
    }
  }

  lemma {:induction false} CopyExists(specs: seq<Group>, insts: seq<Group>, usable: set<Device>) returns (insts': seq<Group>)
    ensures CopyGroups(specs, insts, insts', usable)
    decreases |specs|
  {
    hide CopyGroup;
    if specs == [] {
      insts' := insts;
    } else {
      var mid := CopyGroupExists(specs[0], insts, usable);
      insts' := CopyExists(specs[1..], mid, usable);
    }
  }
}
