/** Admission of raid-group edits of a CStorPoolCluster
  (pkg/webhook/cspc_operations.go, pkg/webhook/cspc.go). */
module RaidGroups {
  import opened Wrappers
  import opened Lists

  type Device = string
  type Group = seq<Device>

  const STRIPED := "stripe"

  datatype PoolSpec = PoolSpec(
    dataType: string,
    cacheType: string,
    data: seq<Group>,
    cache: seq<Group>)

  type Cspc = seq<PoolSpec>

  /** A block device claim: the CSPC it is labelled with and, while the device
      is replacing another one, the predecessor annotation. */
  datatype Claim = Claim(owner: string, predecessor: Option<Device>)

  /** The objects the webhook reads besides the two CSPCs. */
  datatype Env = Env(cspcName: string, claims: map<Device, Claim>, capacity: map<Device, nat>)

  // ---------- devices of a CSPC ----------

  function Flatten(groups: seq<Group>): seq<Device> {
    if groups == [] then [] else groups[0] + Flatten(groups[1..])
  }

  function AllDevices(cspc: Cspc): seq<Device> {
    if cspc == [] then [] else Flatten(cspc[0].data + cspc[0].cache) + AllDevices(cspc[1..])
  }

  lemma {:induction false} UniqueParts<T>(a: seq<T>, b: seq<T>)
    requires Unique(a + b)
    ensures Unique(a) && Unique(b)
    ensures forall x :: x in a ==> x !in b
  {
    var s := a + b;
    assert forall i :: 0 <= i < |a| ==> s[i] == a[i];
    assert forall i :: 0 <= i < |b| ==> s[|a| + i] == b[i];
    assert forall i, j :: 0 <= i < |a| && 0 <= j < |b| ==> a[i] != b[j];
  }

  lemma {:induction false} FlattenMember(groups: seq<Group>, i: nat, d: Device)
    requires i < |groups| && d in groups[i]
    ensures d in Flatten(groups)
  {
    if i > 0 {
      FlattenMember(groups[1..], i - 1, d);
    }
  }

  lemma {:induction false} FlattenDisjoint(groups: seq<Group>, i: nat, j: nat)
    requires Unique(Flatten(groups)) && i < j < |groups|
    ensures Unique(groups[i]) && Unique(groups[j])
    ensures forall d :: d in groups[i] ==> d !in groups[j]
    decreases |groups|
  {
    UniqueParts(groups[0], Flatten(groups[1..]));
    if i > 0 {
      FlattenDisjoint(groups[1..], i - 1, j - 1);
    } else {
      forall d | d in groups[j] ensures d in Flatten(groups[1..]) {
        FlattenMember(groups[1..], j - 1, d);
      }
      FlattenUnique(groups, j);
    }
  }

  lemma {:induction false} FlattenUnique(groups: seq<Group>, i: nat)
    requires Unique(Flatten(groups)) && i < |groups|
    ensures Unique(groups[i])
  {
    UniqueParts(groups[0], Flatten(groups[1..]));
    if i > 0 {
      FlattenUnique(groups[1..], i - 1);
    }
  }

  lemma {:induction false} FlattenConcat(a: seq<Group>, b: seq<Group>)
    ensures Flatten(a + b) == Flatten(a) + Flatten(b)
  {
    if a == [] {
      assert a + b == b;
    } else {
      assert (a + b)[1..] == a[1..] + b;
      FlattenConcat(a[1..], b);
    }
  }

  /** Every data device is among the devices of the CSPC. */
  lemma {:induction false} InAllDevices(cspc: Cspc, p: nat, i: nat, d: Device)
    requires p < |cspc| && i < |cspc[p].data| && d in cspc[p].data[i]
    ensures d in AllDevices(cspc)
  {
    if p > 0 {
      InAllDevices(cspc[1..], p - 1, i, d);
    } else {
      FlattenMember(cspc[0].data + cspc[0].cache, i, d);
    }
  }

  lemma {:induction false} FlattenGroup(groups: seq<Group>, d: Device) returns (i: nat)
    requires d in Flatten(groups)
    ensures i < |groups| && d in groups[i]
  {
    if d in groups[0] {
      i := 0;
    } else {
      i := FlattenGroup(groups[1..], d);
      i := i + 1;
    }
  }

  /** The group a device of a CSPC without write-cache groups is in. */
  lemma {:induction false} GroupOf(cspc: Cspc, d: Device) returns (p: nat, i: nat)
    requires d in AllDevices(cspc) && forall p :: 0 <= p < |cspc| ==> cspc[p].cache == []
    ensures p < |cspc| && i < |cspc[p].data| && d in cspc[p].data[i]
  {
    if d in Flatten(cspc[0].data + cspc[0].cache) {
      assert cspc[0].data + cspc[0].cache == cspc[0].data;
      p := 0;
      i := FlattenGroup(cspc[0].data, d);
    } else {
      p, i := GroupOf(cspc[1..], d);
      p := p + 1;
    }
  }

  lemma {:induction false} PoolsApart(cspc: Cspc, p: nat, q: nat, i: nat, d: Device)
    requires Unique(AllDevices(cspc)) && p < q < |cspc| && i < |cspc[p].data| && d in cspc[p].data[i]
    ensures d !in Flatten(cspc[q].data)
    decreases p
  {
    hide Unique;
    var first := Flatten(cspc[0].data + cspc[0].cache);
    UniqueParts(first, AllDevices(cspc[1..]));
    if p > 0 {
      PoolsApart(cspc[1..], p - 1, q - 1, i, d);
    } else {
      FlattenMember(cspc[0].data + cspc[0].cache, i, d);
      SpecOfCspc(cspc[1..], q - 1);
    }
  }

  /** No two data groups of a duplicate-free CSPC share a device. */
  lemma GroupsApart(cspc: Cspc, p: nat, i: nat, q: nat, j: nat, d: Device)
    requires Unique(AllDevices(cspc)) && p < |cspc| && q < |cspc|
    requires i < |cspc[p].data| && j < |cspc[q].data| && d in cspc[p].data[i] && d in cspc[q].data[j]
    ensures p == q && i == j
  {
    hide Unique, AllDevices, Flatten;
    if p != q {
      FlattenMember(cspc[p].data, i, d);
      FlattenMember(cspc[q].data, j, d);
      if p < q { PoolsApart(cspc, p, q, i, d); } else { PoolsApart(cspc, q, p, j, d); }
    } else if i != j {
      SpecOfCspc(cspc, p);
      FlattenDisjoint(cspc[p].data, if i < j then i else j, if i < j then j else i);
    }
  }

  /** The devices of one pool spec of a duplicate-free CSPC. */
  lemma {:induction false} SpecOfCspc(cspc: Cspc, k: nat)
    requires Unique(AllDevices(cspc)) && k < |cspc|
    ensures Unique(Flatten(cspc[k].data)) && Unique(Flatten(cspc[k].cache))
    ensures forall d :: d in Flatten(cspc[k].data) || d in Flatten(cspc[k].cache) ==> d in AllDevices(cspc)
  {
    hide Unique, Flatten;
    var first := Flatten(cspc[0].data + cspc[0].cache);
    UniqueParts(first, AllDevices(cspc[1..]));
    if k > 0 {
      SpecOfCspc(cspc[1..], k - 1);
    } else {
      FlattenConcat(cspc[0].data, cspc[0].cache);
      UniqueParts(Flatten(cspc[0].data), Flatten(cspc[0].cache));
    }
  }

  /** The duplicate search: it finds exactly the devices named more than once,
      each reported once; it finds none exactly when there is no repetition. */
  method GetDuplicateBlockDeviceList(devices: seq<Device>) returns (duplicates: seq<Device>)
    ensures Unique(duplicates)
    ensures forall d :: d in duplicates <==> exists i, j :: 0 <= i < j < |devices| && devices[i] == devices[j] == d
    ensures duplicates == [] <==> Unique(devices)
  {
    duplicates := [];
    var blockDeviceMap, addedBlockDevices: set<Device> := {}, {};
    for n := 0 to |devices|
      invariant blockDeviceMap == Elems(devices[..n])
      invariant addedBlockDevices == Elems(duplicates)
      invariant Unique(duplicates)
      invariant forall d :: d in duplicates <==> exists i, j :: 0 <= i < j < n && devices[i] == devices[j] == d
    {
      var bd := devices[n];
      assert devices[..n + 1] == devices[..n] + [bd];
      if bd in blockDeviceMap && bd !in addedBlockDevices {
        assert exists i :: 0 <= i < n && devices[i] == bd;
        duplicates := duplicates + [bd];
        addedBlockDevices := addedBlockDevices + {bd};
      } else if bd !in blockDeviceMap {
        assert forall i :: 0 <= i < n ==> devices[i] in devices[..n];
        blockDeviceMap := blockDeviceMap + {bd};
      }
    }
    if duplicates != [] {
      assert duplicates[0] in duplicates;
    }
    assert forall i, j :: 0 <= i < j < |devices| && devices[i] == devices[j] ==> devices[i] in duplicates;
  }

  // ---------- matching old groups with new ones ----------

  predicate Overlap(g: Group, h: Group) {
    exists d :: d in g && d in h
  }

  method IsRaidGroupCommon(rgOld: Group, rgNew: Group) returns (common: bool)
    ensures common <==> Overlap(rgOld, rgNew)
  {
    var oldBdMap := Elems(rgOld);
    for i := 0 to |rgNew|
      invariant forall k :: 0 <= k < i ==> rgNew[k] !in rgOld
    {
      if rgNew[i] in oldBdMap { return true; }
    }
    return false;
  }

  /** The position of the first group sharing a device with `g`. */
  ghost predicate FirstOverlap(g: Group, groups: seq<Group>, k: int) {
    && 0 <= k < |groups| && Overlap(g, groups[k])
    && forall i :: 0 <= i < k ==> !Overlap(g, groups[i])
  }

  ghost predicate HasOverlap(g: Group, groups: seq<Group>) {
    exists k :: FirstOverlap(g, groups, k)
  }

  ghost predicate MatchedWith(o: Group, news: seq<Group>, n: Group) {
    exists k :: FirstOverlap(o, news, k) && n == news[k]
  }

  /** `matched[i]` is the first new group sharing a device with `old[i]`. */
  ghost predicate Matching(olds: seq<Group>, news: seq<Group>, matched: seq<Group>) {
    && |matched| == |olds|
    && forall i :: 0 <= i < |olds| ==> MatchedWith(olds[i], news, matched[i])
  }

  /** The first new group that shares a device with an old one. */
  method FindCommon(oldRg: Group, news: seq<Group>) returns (found: Option<Group>)
    ensures found.Some? <==> HasOverlap(oldRg, news)
    ensures found.Some? ==> MatchedWith(oldRg, news, found.value)
  {
    for k := 0 to |news|
      invariant forall j :: 0 <= j < k ==> !Overlap(oldRg, news[j])
    {
      var common := IsRaidGroupCommon(oldRg, news[k]);
      if common {
        assert FirstOverlap(oldRg, news, k);
        return Some(news[k]);
      }
    }
    return None;
  }

  method GetCommonRaidGroups(olds: seq<Group>, news: seq<Group>) returns (matched: Option<seq<Group>>)
    ensures matched.Some? <==> forall i :: 0 <= i < |olds| ==> HasOverlap(olds[i], news)
    ensures matched.Some? ==> Matching(olds, news, matched.value)
  {
    hide HasOverlap, MatchedWith;
    var groups: seq<Group> := [];
    for i := 0 to |olds|
      invariant |groups| == i
      invariant forall j :: 0 <= j < i ==> HasOverlap(olds[j], news) && MatchedWith(olds[j], news, groups[j])
    {
      var found := FindCommon(olds[i], news);
      if found.None? { return None; }
      groups := groups + [found.value];
    }
    return Some(groups);
  }

  // ---------- one matched pair ----------

  predicate ValidGroupChanges(o: Group, n: Group, rgType: string) {
    && |n| >= |o|
    && !(rgType != STRIPED && |n| > |o|)
  }

  method GetNumberOfDiskReplaced(newRG: Group, oldRG: Group) returns (count: nat)
    ensures count == |ListDiff(newRG, oldRG)|
  {
    count := 0;
    var oldBlockDevicesMap := Elems(oldRG);
    for i := 0 to |newRG|
      invariant count + |ListDiff(newRG[i..], oldRG)| == |ListDiff(newRG, oldRG)|
    {
      assert newRG[i..][1..] == newRG[i + 1..];
      if newRG[i] !in oldBlockDevicesMap {
        count := count + 1;
      }
    }
  }

  /** The first device of `a` that is not in `b`; "" if there is none. */
  function FirstMissing(a: Group, b: Group): Device {
    var d := ListDiff(a, b);
    if d == [] then "" else d[0]
  }

  /** `d` is at the first place where `a` has a device that is not in `b`. */
  ghost predicate IsFirstMissing(a: Group, b: Group, d: Device) {
    if forall x :: x in a ==> x in b then d == ""
    else exists i :: 0 <= i < |a| && a[i] == d && a[i] !in b && forall j :: 0 <= j < i ==> a[j] in b
  }

  lemma {:induction false} FirstMissingIs(a: Group, b: Group)
    ensures IsFirstMissing(a, b, FirstMissing(a, b))
  {
    if a != [] {
      if a[0] in b {
        FirstMissingIs(a[1..], b);
        if exists x :: x in a && x !in b {
          var x :| x in a && x !in b;
          assert x in a[1..];
          var i :| 0 <= i < |a[1..]| && a[1..][i] == FirstMissing(a, b) && a[1..][i] !in b && forall j :: 0 <= j < i ==> a[1..][j] in b;
          assert a[i + 1] == a[1..][i];
          forall j | 0 <= j < i + 1 ensures a[j] in b {
            if j > 0 { assert a[j] == a[1..][j - 1]; }
          }
        }
      } else {
        assert a[0] in a;
      }
    }
  }

  /** The incoming and the outgoing device of a pair of groups. */
  method GetNewBDFromRaidGroups(newRG: Group, oldRG: Group) returns (newBD: Device, oldBD: Device)
    ensures newBD == FirstMissing(newRG, oldRG) && oldBD == FirstMissing(oldRG, newRG)
    ensures IsFirstMissing(newRG, oldRG, newBD) && IsFirstMissing(oldRG, newRG, oldBD)
  {
    hide IsFirstMissing;
    newBD, oldBD := "", "";
    for i := 0 to |newRG|
      invariant newBD == "" && ListDiff(newRG[i..], oldRG) == ListDiff(newRG, oldRG)
    {
      assert newRG[i..][1..] == newRG[i + 1..];
      if newRG[i] !in oldRG {
        newBD := newRG[i];
        break;
      }
    }
    for i := 0 to |oldRG|
      invariant oldBD == "" && ListDiff(oldRG[i..], newRG) == ListDiff(oldRG, newRG)
    {
      assert oldRG[i..][1..] == oldRG[i + 1..];
      if oldRG[i] !in newRG {
        oldBD := oldRG[i];
        break;
      }
    }
    FirstMissingIs(newRG, oldRG);
    FirstMissingIs(oldRG, newRG);
  }

  predicate HasPredecessor(env: Env, d: Device) {
    d in env.claims && env.claims[d].predecessor.Some?
  }

  /** The device is the predecessor in some replacement still going on. A claim
      without the annotation contributes the empty name. */
  predicate IsPredecessor(env: Env, cspc: Cspc, d: Device) {
    exists x :: x in AllDevices(cspc) && x in env.claims &&
      (match env.claims[x].predecessor case Some(p) => p == d case None => d == "")
  }

  predicate ValidIncoming(env: Env, cspc: Cspc, d: Device) {
    && (d in env.claims ==> env.claims[d].owner == env.cspcName)
    && !IsPredecessor(env, cspc, d)
  }

  predicate ValidReplacement(env: Env, cspc: Cspc, o: Group, n: Group, rgType: string) {
    var incoming, outgoing := FirstMissing(n, o), FirstMissing(o, n);
    && rgType != STRIPED
    && |ListDiff(n, o)| <= 1
    && incoming !in AllDevices(cspc)
    && (forall d :: d in o ==> !HasPredecessor(env, d))
    && ValidIncoming(env, cspc, incoming)
    && incoming in env.capacity && outgoing in env.capacity
    && env.capacity[incoming] >= env.capacity[outgoing]
  }

  predicate ValidPair(env: Env, cspc: Cspc, o: Group, n: Group, rgType: string) {
    && ValidGroupChanges(o, n, rgType)
    && (ListDiff(o, n) != [] ==> ValidReplacement(env, cspc, o, n, rgType))
  }

  /** The groups that are kept pass the checks, given their matching. What is
      checked of expansion devices depends on `ExpansionValid`. */
  ghost predicate Accepted(env: Env, cspc: Cspc, o: PoolSpec, n: PoolSpec, data: seq<Group>, cache: seq<Group>) {
    && o.dataType == n.dataType
    && (o.cacheType != "" ==> o.cacheType == n.cacheType)
    && Matching(o.data, n.data, data)
    && Matching(o.cache, n.cache, cache)
    && (forall i :: 0 <= i < |o.data| ==> ValidPair(env, cspc, o.data[i], data[i], o.dataType))
    && (forall i :: 0 <= i < |o.cache| ==> ValidPair(env, cspc, o.cache[i], cache[i], o.cacheType))
  }

  /** `x` comes in for `y` in one of the matched pairs. */
  ghost predicate Exchanged(olds: seq<Group>, news: seq<Group>, x: Device, y: Device) {
    exists i :: 0 <= i < |olds| && i < |news| && Exchange(olds[i], news[i], x, y)
  }

  ghost predicate Exchange(o: Group, n: Group, x: Device, y: Device) {
    ListDiff(o, n) != [] && x == FirstMissing(n, o) && y == FirstMissing(o, n)
  }

  /** Checks the matched pairs and collects the exchanged devices. */
  method ValidatePairs(env: Env, cspc: Cspc, olds: seq<Group>, news: seq<Group>, rgType: string, start: map<Device, Device>)
    returns (ok: bool, newToOld: map<Device, Device>)
    requires |olds| == |news|
    ensures ok <==> forall i :: 0 <= i < |olds| ==> ValidPair(env, cspc, olds[i], news[i], rgType)
    ensures ok ==> start.Keys <= newToOld.Keys && forall x, y :: Exchanged(olds, news, x, y) ==> x in newToOld
    ensures forall x :: x in newToOld ==> Exchanged(olds, news, x, newToOld[x]) || (x in start && newToOld[x] == start[x])
  {
    hide ValidReplacement, FirstMissing, ListDiff;
    newToOld := start;
    for index := 0 to |olds|
      invariant forall i :: 0 <= i < index ==> ValidPair(env, cspc, olds[i], news[i], rgType)
      invariant start.Keys <= newToOld.Keys
      invariant forall i, x, y :: 0 <= i < index && Exchange(olds[i], news[i], x, y) ==> x in newToOld
      invariant forall x :: x in newToOld ==> Exchanged(olds, news, x, newToOld[x]) || (x in start && newToOld[x] == start[x])
    {
      var oldRg, newRg := olds[index], news[index];
      if !ValidGroupChanges(oldRg, newRg, rgType) { return false, newToOld; }
      var replaced := GetNumberOfDiskReplaced(oldRg, newRg);
      if replaced >= 1 {
        if !ValidReplacement(env, cspc, oldRg, newRg, rgType) { return false, newToOld; }
        var newBD, oldBD := GetNewBDFromRaidGroups(newRg, oldRg);
        assert Exchange(oldRg, newRg, newBD, oldBD);
        newToOld := newToOld[newBD := oldBD];
      }
    }
    ok := true;
  }

  // ---------- expansion ----------

  /** The new groups that share no device with an old one. */
  function NewGroups(news: seq<Group>, olds: seq<Group>): (r: seq<Group>)
    ensures forall g :: g in r <==> g in news && forall o :: o in olds ==> !Overlap(o, g)
  {
    if news == [] then []
    else if exists o :: o in olds && Overlap(o, news[0]) then NewGroups(news[1..], olds)
    else [news[0]] + NewGroups(news[1..], olds)
  }

  method GetExpandedRaidGroups(news: seq<Group>, olds: seq<Group>) returns (expanded: seq<Group>)
    ensures expanded == NewGroups(news, olds)
  {
    hide Overlap;
    expanded := [];
    for i := 0 to |news|
      invariant expanded + NewGroups(news[i..], olds) == NewGroups(news, olds)
    {
      var isRaidGroupExist := false;
      for j := 0 to |olds|
        invariant isRaidGroupExist <==> exists o :: o in olds[..j] && Overlap(o, news[i])
      {
        assert olds[..j + 1] == olds[..j] + [olds[j]];
        var common := IsRaidGroupCommon(olds[j], news[i]);
        if common {
          assert olds[j] in olds;
          isRaidGroupExist := true;
          break;
        }
      }
      assert isRaidGroupExist <==> exists o :: o in olds && Overlap(o, news[i]) by { assert olds[..|olds|] == olds; }
      assert news[i..][1..] == news[i + 1..];
      if !isRaidGroupExist { expanded := expanded + [news[i]]; }
    }
  }

  /** The list of devices to be checked after groups of one kind are visited: a
      striped kind adds to the list, any other replaces it. */
  function Visited(bds: seq<Device>, olds: seq<Group>, news: seq<Group>, matched: seq<Group>, rgType: string): seq<Device>
    requires |matched| == |olds|
  {
    if rgType != STRIPED then Flatten(NewGroups(news, olds))
    else if olds == [] then bds
    else bds + ListDiff(matched[0], olds[0])
  }

  /** The devices that are checked, for either order of the two kinds. */
  function CheckedDevices(o: PoolSpec, n: PoolSpec, data: seq<Group>, cache: seq<Group>, dataFirst: bool): seq<Device>
    requires |data| == |o.data| && |cache| == |o.cache|
  {
    if dataFirst then Visited(Visited([], o.data, n.data, data, o.dataType), o.cache, n.cache, cache, o.cacheType)
    else Visited(Visited([], o.cache, n.cache, cache, o.cacheType), o.data, n.data, data, o.dataType)
  }

  /** A striped kind without groups makes the check crash. */
  predicate Crashes(o: PoolSpec) {
    (o.dataType == STRIPED && o.data == []) || (o.cacheType == STRIPED && o.cache == [])
  }

  ghost predicate ExpansionValid(env: Env, cspc: Cspc, o: PoolSpec, n: PoolSpec, data: seq<Group>, cache: seq<Group>, dataFirst: bool)
    requires |data| == |o.data| && |cache| == |o.cache|
  {
    !Crashes(o) && forall d :: d in CheckedDevices(o, n, data, cache, dataFirst) ==> ValidIncoming(env, cspc, d)
  }

  method VisitKind(bds: seq<Device>, olds: seq<Group>, news: seq<Group>, matched: seq<Group>, rgType: string)
    returns (crashed: bool, bds': seq<Device>)
    requires |matched| == |olds|
    ensures crashed <==> rgType == STRIPED && olds == []
    ensures !crashed ==> bds' == Visited(bds, olds, news, matched, rgType)
  {
    if rgType == STRIPED {
      if olds == [] { return true, bds; }
      return false, bds + ListDiff(matched[0], olds[0]);
    }
    var expanded := GetExpandedRaidGroups(news, olds);
    return false, Flatten(expanded);
  }

  /** The check of expansion devices; `dataFirst` is the order in which the map
      of the two kinds happens to be visited. */
  method ValidatePoolExpansion(env: Env, cspc: Cspc, o: PoolSpec, n: PoolSpec, data: seq<Group>, cache: seq<Group>, dataFirst: bool)
    returns (ok: bool)
    requires |data| == |o.data| && |cache| == |o.cache|
    ensures ok <==> ExpansionValid(env, cspc, o, n, data, cache, dataFirst)
  {
    hide Flatten, ValidIncoming, NewGroups, ListDiff;
    var crashed, bds;
    if dataFirst {
      crashed, bds := VisitKind([], o.data, n.data, data, o.dataType);
      if !crashed { crashed, bds := VisitKind(bds, o.cache, n.cache, cache, o.cacheType); }
    } else {
      crashed, bds := VisitKind([], o.cache, n.cache, cache, o.cacheType);
      if !crashed { crashed, bds := VisitKind(bds, o.data, n.data, data, o.dataType); }
    }
    if crashed { return false; }
    for i := 0 to |bds|
      invariant forall k :: 0 <= k < i ==> ValidIncoming(env, cspc, bds[k])
    {
      if !ValidIncoming(env, cspc, bds[i]) { return false; }
    }
    return true;
  }

  /** The devices of new data groups are checked whatever the order exactly if
      the write cache is striped; otherwise, when data groups come first, only
      those are that a new write-cache group names too. */
  lemma DataExpansionChecked(o: PoolSpec, n: PoolSpec, data: seq<Group>, cache: seq<Group>, d: Device)
    requires |data| == |o.data| && |cache| == |o.cache| && o.dataType != STRIPED
    requires d in Flatten(NewGroups(n.data, o.data))
    ensures d in CheckedDevices(o, n, data, cache, false)
    ensures d in CheckedDevices(o, n, data, cache, true) <==>
              o.cacheType == STRIPED || d in Flatten(NewGroups(n.cache, o.cache))
  {
  }

  /** When data groups come first, the write cache takes their devices off the
      list again. */
  lemma ExpansionUnchecked(env: Env, cspc: Cspc, o: PoolSpec, n: PoolSpec, data: seq<Group>)
    requires |data| == |o.data| && o.cache == [] && n.cache == [] && o.dataType != STRIPED && o.cacheType != STRIPED
    ensures ExpansionValid(env, cspc, o, n, data, [], true)
  {
    assert NewGroups([], []) == [];
  }

  /** The claims when all incoming devices of an edit are annotated. */
  function AllAnnotated(claims: map<Device, Claim>, name: string, plan: map<Device, Device>): map<Device, Claim> {
    map d | d in claims.Keys + plan.Keys ::
      if d !in plan then claims[d]
      else if d in claims then claims[d].(predecessor := Some(plan[d]))
      else Claim(name, Some(plan[d]))
  }

  /** Part of the incoming devices are annotated. */
  ghost predicate PartlyAnnotated(claims: map<Device, Claim>, claims': map<Device, Claim>, name: string, plan: map<Device, Device>) {
    exists part: map<Device, Device> :: PartOf(part, plan) && claims' == AllAnnotated(claims, name, part)
  }

  ghost predicate PartOf(part: map<Device, Device>, plan: map<Device, Device>) {
    forall x :: x in part ==> x in plan && part[x] == plan[x]
  }

  function Annotated(claims: map<Device, Claim>, name: string, x: Device, y: Device): map<Device, Claim> {
    claims[x := if x in claims then claims[x].(predecessor := Some(y)) else Claim(name, Some(y))]
  }

  lemma AnnotateOne(claims: map<Device, Claim>, name: string, part: map<Device, Device>, x: Device, y: Device)
    requires x !in part
    ensures AllAnnotated(claims, name, part[x := y]) == Annotated(AllAnnotated(claims, name, part), name, x, y)
  {
  }

  lemma NoneAnnotated(claims: map<Device, Claim>, name: string)
    ensures AllAnnotated(claims, name, map[]) == claims
  {
  }

  lemma NotAnnotated(claims: map<Device, Claim>, name: string, plan: map<Device, Device>)
    ensures PartlyAnnotated(claims, claims, name, plan)
  {
    NoneAnnotated(claims, name);
    assert PartOf(map[], plan);
  }

  /** Claims the incoming devices one by one, or annotates their claims, until one
      fails; what was annotated before stays. */
  method CreateClaims(claims: map<Device, Claim>, name: string, newToOld: map<Device, Device>, failing: set<Device>)
    returns (ok: bool, claims': map<Device, Claim>)
    ensures ok <==> forall x :: x in newToOld ==> x !in failing
    ensures ok ==> claims' == AllAnnotated(claims, name, newToOld)
    ensures ok ==> forall x :: x in newToOld ==> x in claims' && claims'[x].predecessor == Some(newToOld[x])
    ensures KeptOrOwned(claims, claims', name, newToOld)
    ensures PartlyAnnotated(claims, claims', name, newToOld)
  {
    hide AllAnnotated, Annotated;
    ghost var part: map<Device, Device> := map[];
    NoneAnnotated(claims, name);
    claims', ok := claims, true;
    var todo := newToOld.Keys;
    while todo != {}
      invariant forall x :: x in newToOld <==> x in todo || x in part
      invariant forall x :: x in todo ==> x !in part
      invariant PartOf(part, newToOld) && claims' == AllAnnotated(claims, name, part)
      invariant forall x :: x in part ==> x !in failing
      decreases |todo|
    {
      var newBD :| newBD in todo;
      if newBD in failing {
        ok := false;
        break;
      }
      AnnotateOne(claims, name, part, newBD, newToOld[newBD]);
      claims' := Annotated(claims', name, newBD, newToOld[newBD]);
      part := part[newBD := newToOld[newBD]];
      todo := todo - {newBD};
    }
    assert ok ==> part == newToOld;
    AnnotatedKeeps(claims, name, part);
  }

  /** Claims outside the plan stay as they are; of the others, those that were
      there keep their owner, and new ones belong to the CSPC. */
  ghost predicate KeptOrOwned(claims: map<Device, Claim>, claims': map<Device, Claim>, name: string, plan: map<Device, Device>) {
    && claims.Keys <= claims'.Keys
    && (forall d :: d in claims' && d !in plan ==> d in claims && claims'[d] == claims[d])
    && (forall d :: d in claims' ==> claims'[d].owner == if d in claims then claims[d].owner else name)
  }

  lemma AnnotatedKeeps(claims: map<Device, Claim>, name: string, plan: map<Device, Device>)
    ensures var claims' := AllAnnotated(claims, name, plan);
      KeptOrOwned(claims, claims', name, plan) && forall x :: x in plan ==> x in claims' && claims'[x].predecessor == Some(plan[x])
  {
  }

  /** The decision on one pool spec, and the claims after it. A refused edit leaves
      the claims alone unless it was refused because a claim could not be written. */
  method ArePoolSpecChangesValid(env: Env, cspc: Cspc, o: PoolSpec, n: PoolSpec, dataFirst: bool, failing: set<Device>)
    returns (ok: bool, data: seq<Group>, cache: seq<Group>, newToOld: map<Device, Device>, claims: map<Device, Claim>)
    ensures ok || claims != env.claims ==>
      && Accepted(env, cspc, o, n, data, cache) && ExpansionValid(env, cspc, o, n, data, cache, dataFirst)
      && PlanFor(o, data, cache, newToOld)
    ensures ok ==> claims == AllAnnotated(env.claims, env.cspcName, newToOld) && forall x :: x in newToOld ==> x !in failing
    ensures !ok ==> forall d, c :: Accepted(env, cspc, o, n, d, c) && ExpansionValid(env, cspc, o, n, d, c, dataFirst) ==>
              d == data && c == cache && PlanFor(o, data, cache, newToOld) && exists x :: x in newToOld && x in failing
    ensures ok ==> forall x :: x in newToOld ==> x in claims && claims[x].predecessor == Some(newToOld[x])
    ensures KeptOrOwned(env.claims, claims, env.cspcName, newToOld)
    ensures PartlyAnnotated(env.claims, claims, env.cspcName, newToOld)
  {
    hide ExpansionValid, ValidPair, AllAnnotated, PartlyAnnotated;
    data, cache, newToOld, claims, ok := [], [], map[], env.claims, false;
    forall plan: map<Device, Device> ensures PartlyAnnotated(env.claims, env.claims, env.cspcName, plan) {
      NotAnnotated(env.claims, env.cspcName, plan);
    }
    MatchingOverlaps(o.data, n.data);
    MatchingOverlaps(o.cache, n.cache);
    if o.dataType != n.dataType || (o.cacheType != "" && o.cacheType != n.cacheType) { return; }
    var d := GetCommonRaidGroups(o.data, n.data);
    if d.None? { return; }
    var c := GetCommonRaidGroups(o.cache, n.cache);
    if c.None? { return; }
    data, cache := d.value, c.value;
    forall d', c' | Accepted(env, cspc, o, n, d', c') ensures d' == data && c' == cache {
      MatchingUnique(o.data, n.data, data, d');
      MatchingUnique(o.cache, n.cache, cache, c');
    }
    ok, newToOld := ValidatePairs(env, cspc, o.data, data, o.dataType, newToOld);
    if !ok { return; }
    ok, newToOld := ValidatePairs(env, cspc, o.cache, cache, o.cacheType, newToOld);
    if !ok { return; }
    ok := ValidatePoolExpansion(env, cspc, o, n, data, cache, dataFirst);
    if !ok { return; }
    ok, claims := CreateClaims(env.claims, env.cspcName, newToOld, failing);
  }

  /** The claims to be annotated: one for each exchanged pair of devices. */
  ghost predicate PlanFor(o: PoolSpec, data: seq<Group>, cache: seq<Group>, plan: map<Device, Device>) {
    && (forall x, y :: Exchanged(o.data, data, x, y) || Exchanged(o.cache, cache, x, y) ==> x in plan)
    && (forall x :: x in plan ==> Exchanged(o.data, data, x, plan[x]) || Exchanged(o.cache, cache, x, plan[x]))
  }

  lemma MatchingOverlaps(olds: seq<Group>, news: seq<Group>)
    ensures (exists m :: Matching(olds, news, m)) ==> forall i :: 0 <= i < |olds| ==> HasOverlap(olds[i], news)
  {
  }

  lemma FirstOverlapUnique(g: Group, groups: seq<Group>, k: int, k': int)
    requires FirstOverlap(g, groups, k) && FirstOverlap(g, groups, k')
    ensures k == k'
  {
  }

  lemma MatchingUnique(olds: seq<Group>, news: seq<Group>, m: seq<Group>, m': seq<Group>)
    requires Matching(olds, news, m) && Matching(olds, news, m')
    ensures m == m'
  {
    forall i | 0 <= i < |olds| ensures m[i] == m'[i] {
      var k :| FirstOverlap(olds[i], news, k) && m[i] == news[k];
      var k' :| FirstOverlap(olds[i], news, k') && m'[i] == news[k'];
      FirstOverlapUnique(olds[i], news, k, k');
    }
  }

  // ---------- what acceptance means ----------

  /** A replacement in one group: same size, at most one device differs, and the
      incoming one is new to the CSPC and no smaller than the outgoing one. */
  ghost predicate OneReplaced(env: Env, cspc: Cspc, o: Group, n: Group) {
    Elems(n) == Elems(o) ||
    exists incoming, outgoing ::
      && incoming !in AllDevices(cspc) && outgoing in o
      && Elems(n) == Elems(o) - {outgoing} + {incoming}
      && incoming in env.capacity && outgoing in env.capacity
      && env.capacity[incoming] >= env.capacity[outgoing]
  }

  /** What a valid pair of non-striped groups differs by. */
  ghost predicate Swapped(env: Env, cspc: Cspc, o: Group, n: Group, incoming: Device, outgoing: Device) {
    && incoming in n && incoming !in AllDevices(cspc) && incoming !in o
    && outgoing in o && outgoing !in n
    && Elems(n) == Elems(o) - {outgoing} + {incoming}
    && incoming in env.capacity && outgoing in env.capacity
    && env.capacity[incoming] >= env.capacity[outgoing]
    && (forall d :: d in o ==> !HasPredecessor(env, d))
    && !IsPredecessor(env, cspc, incoming)
    && (incoming in env.claims ==> env.claims[incoming].owner == env.cspcName)
  }

  /** When an exchange of one device is allowed: the incoming one is not in the
      CSPC, nor claimed by another, nor the predecessor of a device of the CSPC,
      and at least as large; and no replacement goes on in the group. */
  lemma SwappedIff(env: Env, cspc: Cspc, o: Group, n: Group, incoming: Device, outgoing: Device)
    requires incoming != ""
    ensures Swapped(env, cspc, o, n, incoming, outgoing) <==>
      && incoming in n && outgoing in o && outgoing !in n && Elems(n) == Elems(o) - {outgoing} + {incoming}
      && incoming !in o && incoming !in AllDevices(cspc)
      && (incoming in env.claims ==> env.claims[incoming].owner == env.cspcName)
      && (forall d :: d in AllDevices(cspc) && d in env.claims ==> env.claims[d].predecessor != Some(incoming))
      && (incoming in env.capacity && outgoing in env.capacity && env.capacity[incoming] >= env.capacity[outgoing])
      && (forall d :: d in o && d in env.claims ==> env.claims[d].predecessor.None?)
  {
    hide AllDevices, Elems;
  }

  lemma PairOfGroups(env: Env, cspc: Cspc, o: Group, n: Group, rgType: string)
    requires Unique(o) && Unique(n) && ValidPair(env, cspc, o, n, rgType)
    ensures rgType == STRIPED ==> Elems(o) <= Elems(n)
    ensures rgType != STRIPED ==> |o| == |n| && OneReplaced(env, cspc, o, n)
    ensures rgType != STRIPED && ListDiff(o, n) == [] ==> Elems(n) == Elems(o)
    ensures ListDiff(o, n) != [] ==> Swapped(env, cspc, o, n, FirstMissing(n, o), FirstMissing(o, n))
  {
    hide Unique, IsPredecessor;
    ElemsCard(o);
    ElemsCard(n);
    ListDiffUnique(o, n);
    ListDiffUnique(n, o);
    var eo, en := Elems(o), Elems(n);
    if ListDiff(o, n) == [] {
      assert eo - en == {};
      if rgType != STRIPED { SubsetCard(eo, en); }
    } else {
      var incoming, outgoing := FirstMissing(n, o), FirstMissing(o, n);
      UnionCard(eo, en);
      UnionCard(en, eo);
      assert eo * en == en * eo;
      assert |eo - en| == |en - eo| == 1;
      assert incoming in ListDiff(n, o) && outgoing in ListDiff(o, n);
      SubsetCard({incoming}, en - eo);
      SubsetCard({outgoing}, eo - en);
      assert en == eo - {outgoing} + {incoming};
    }
  }

  /** What a valid change of a group is: a striped group may grow and loses
      nothing; any other keeps its devices or exchanges one. */
  ghost predicate ValidChange(env: Env, cspc: Cspc, o: Group, n: Group, rgType: string) {
    if rgType == STRIPED then Elems(o) <= Elems(n)
    else |o| == |n| && (Elems(n) == Elems(o) || exists x, y :: Swapped(env, cspc, o, n, x, y))
  }

  lemma PairOfGroupsIff(env: Env, cspc: Cspc, o: Group, n: Group, rgType: string)
    requires Unique(o) && Unique(n)
    ensures ValidPair(env, cspc, o, n, rgType) <==> ValidChange(env, cspc, o, n, rgType)
  {
    hide Unique, IsPredecessor;
    ElemsCard(o);
    ElemsCard(n);
    ListDiffUnique(o, n);
    ListDiffUnique(n, o);
    if ValidPair(env, cspc, o, n, rgType) {
      PairOfGroups(env, cspc, o, n, rgType);
    } else if ValidChange(env, cspc, o, n, rgType) {
      ChangeIsValid(env, cspc, o, n, rgType);
    }
  }

  lemma ChangeIsValid(env: Env, cspc: Cspc, o: Group, n: Group, rgType: string)
    requires Unique(o) && Unique(n) && ValidChange(env, cspc, o, n, rgType)
    ensures ValidPair(env, cspc, o, n, rgType)
  {
    hide Unique, IsPredecessor, HasPredecessor;
    ElemsCard(o);
    ElemsCard(n);
    if Elems(o) <= Elems(n) {
      SubsetCard(Elems(o), Elems(n));
      NothingLost(o, n);
    } else {
      var x, y :| Swapped(env, cspc, o, n, x, y);
      OneExchanged(o, n, x, y);
    }
  }

  lemma {:induction false} NothingLost(o: Group, n: Group)
    requires Elems(o) <= Elems(n)
    ensures ListDiff(o, n) == []
    decreases |o|
  {
    if o != [] {
      assert o[0] in Elems(o);
      assert forall d :: d in Elems(o[1..]) ==> d in Elems(o);
      NothingLost(o[1..], n);
    }
  }

  lemma OneExchanged(o: Group, n: Group, x: Device, y: Device)
    requires Unique(o) && Unique(n) && x in n && x !in o && y in o && y !in n && Elems(n) == Elems(o) - {y} + {x}
    ensures ListDiff(n, o) == [x] && ListDiff(o, n) == [y]
  {
    hide Unique;
    ListDiffUnique(o, n);
    ListDiffUnique(n, o);
    assert Elems(n) - Elems(o) == {x} && Elems(o) - Elems(n) == {y};
    assert x in ListDiff(n, o) && y in ListDiff(o, n);
  }

  lemma MatchedGroup(olds: seq<Group>, news: seq<Group>, matched: seq<Group>, i: nat) returns (k: int)
    requires Matching(olds, news, matched) && i < |olds|
    ensures FirstOverlap(olds[i], news, k) && matched[i] == news[k]
  {
    k :| FirstOverlap(olds[i], news, k) && matched[i] == news[k];
  }

  lemma IncomingIsNew(env: Env, cspc: Cspc, o: Group, n: Group, d: Device)
    requires OneReplaced(env, cspc, o, n) && d in n && d !in o
    ensures d !in AllDevices(cspc)
  {
    assert d in Elems(n) && d !in Elems(o);
  }

  /** No device of another old group turns up in the match of an old group. */
  lemma MatchAvoidsOtherGroups(env: Env, cspc: Cspc, olds: seq<Group>, n: Group, rgType: string, i: nat, j: nat)
    requires rgType != STRIPED && i < |olds| && j < |olds| && i != j
    requires Unique(Flatten(olds)) && Unique(n) && ValidPair(env, cspc, olds[i], n, rgType)
    requires forall d :: d in Flatten(olds) ==> d in AllDevices(cspc)
    ensures !Overlap(olds[j], n)
  {
    hide ValidPair, OneReplaced;
    FlattenUnique(olds, i);
    PairOfGroups(env, cspc, olds[i], n, rgType);
    if i < j { FlattenDisjoint(olds, i, j); } else { FlattenDisjoint(olds, j, i); }
    forall d | d in olds[j] ensures d !in n {
      FlattenMember(olds, j, d);
      if d in n { IncomingIsNew(env, cspc, olds[i], n, d); }
    }
  }

  /** The first-overlap matching of non-striped groups is injective: different
      old groups are matched with different new groups. */
  lemma MatchingInjective(env: Env, cspc: Cspc, olds: seq<Group>, news: seq<Group>, matched: seq<Group>,
                          rgType: string, i: nat, j: nat)
    requires rgType != STRIPED && i < |olds| && j < |olds| && i != j
    requires Unique(Flatten(olds)) && Unique(Flatten(news)) && Matching(olds, news, matched)
    requires forall d :: d in Flatten(olds) ==> d in AllDevices(cspc)
    requires ValidPair(env, cspc, olds[i], matched[i], rgType)
    ensures matched[i] != matched[j]
    ensures !exists k :: FirstOverlap(olds[i], news, k) && FirstOverlap(olds[j], news, k)
  {
    var ki := MatchedGroup(olds, news, matched, i);
    var kj := MatchedGroup(olds, news, matched, j);
    FlattenUnique(news, ki);
    MatchAvoidsOtherGroups(env, cspc, olds, matched[i], rgType, i, j);
    assert Overlap(olds[j], news[kj]);
    forall k | FirstOverlap(olds[i], news, k) ensures k == ki {
      FirstOverlapUnique(olds[i], news, k, ki);
    }
  }

  /** Accepted edits of the groups of one kind (data or write cache). */
  lemma AcceptedGroups(env: Env, cspc: Cspc, olds: seq<Group>, news: seq<Group>, matched: seq<Group>, rgType: string)
    requires Unique(Flatten(olds)) && Unique(Flatten(news)) && Matching(olds, news, matched)
    requires forall d :: d in Flatten(olds) ==> d in AllDevices(cspc)
    requires forall i :: 0 <= i < |olds| ==> ValidPair(env, cspc, olds[i], matched[i], rgType)
    ensures rgType == STRIPED ==> forall i :: 0 <= i < |olds| ==> Elems(olds[i]) <= Elems(matched[i])
    ensures rgType != STRIPED ==> forall i :: 0 <= i < |olds| ==>
              |olds[i]| == |matched[i]| && OneReplaced(env, cspc, olds[i], matched[i])
    ensures rgType != STRIPED ==> Unique(matched)
  {
    forall i | 0 <= i < |olds|
      ensures rgType == STRIPED ==> Elems(olds[i]) <= Elems(matched[i])
      ensures rgType != STRIPED ==> |olds[i]| == |matched[i]| && OneReplaced(env, cspc, olds[i], matched[i])
    {
      var k := MatchedGroup(olds, news, matched, i);
      FlattenUnique(olds, i);
      FlattenUnique(news, k);
      PairOfGroups(env, cspc, olds[i], matched[i], rgType);
    }
    if rgType != STRIPED {
      forall i, j | 0 <= i < j < |matched| ensures matched[i] != matched[j] {
        MatchingInjective(env, cspc, olds, news, matched, rgType, i, j);
      }
    }
  }

  /** Exactly which edits of duplicate-free CSPCs are accepted, given the matching
      of their groups: the types stay, but for a write-cache type not set yet,
      and every group changes in a valid way. */
  lemma AcceptedEditIff(env: Env, before: Cspc, after: Cspc, k: nat, k': nat, data: seq<Group>, cache: seq<Group>)
    requires Unique(AllDevices(before)) && Unique(AllDevices(after)) && k < |before| && k' < |after|
    requires Matching(before[k].data, after[k'].data, data) && Matching(before[k].cache, after[k'].cache, cache)
    ensures Accepted(env, before, before[k], after[k'], data, cache) <==>
      && after[k'].dataType == before[k].dataType && (before[k].cacheType == "" || after[k'].cacheType == before[k].cacheType)
      && (forall i :: 0 <= i < |before[k].data| ==> ValidChange(env, before, before[k].data[i], data[i], before[k].dataType))
      && (forall i :: 0 <= i < |before[k].cache| ==> ValidChange(env, before, before[k].cache[i], cache[i], before[k].cacheType))
  {
    hide ValidPair, ValidChange, Unique, AllDevices, Flatten;
    SpecOfCspc(before, k);
    SpecOfCspc(after, k');
    forall i | 0 <= i < |before[k].data|
      ensures ValidPair(env, before, before[k].data[i], data[i], before[k].dataType)
         <==> ValidChange(env, before, before[k].data[i], data[i], before[k].dataType)
    {
      MatchedPairIff(env, before, before[k].data, after[k'].data, data, before[k].dataType, i);
    }
    forall i | 0 <= i < |before[k].cache|
      ensures ValidPair(env, before, before[k].cache[i], cache[i], before[k].cacheType)
         <==> ValidChange(env, before, before[k].cache[i], cache[i], before[k].cacheType)
    {
      MatchedPairIff(env, before, before[k].cache, after[k'].cache, cache, before[k].cacheType, i);
    }
  }

  lemma MatchedPairIff(env: Env, cspc: Cspc, olds: seq<Group>, news: seq<Group>, matched: seq<Group>, rgType: string, i: nat)
    requires Unique(Flatten(olds)) && Unique(Flatten(news)) && Matching(olds, news, matched) && i < |olds|
    ensures ValidPair(env, cspc, olds[i], matched[i], rgType) <==> ValidChange(env, cspc, olds[i], matched[i], rgType)
  {
    hide ValidPair, ValidChange, Unique, Flatten;
    var k := MatchedGroup(olds, news, matched, i);
    FlattenUnique(olds, i);
    FlattenUnique(news, k);
    PairOfGroupsIff(env, cspc, olds[i], matched[i], rgType);
  }

  /** Accepted edits: with duplicate-free CSPCs before and after, non-striped
      groups are matched one to one, keep their size and change at most one
      device, for one that is new to the CSPC and at least as large; a striped
      group only grows. */
  lemma AcceptedEdit(env: Env, before: Cspc, after: Cspc, k: nat, k': nat, data: seq<Group>, cache: seq<Group>)
    requires Unique(AllDevices(before)) && Unique(AllDevices(after))
    requires k < |before| && k' < |after|
    requires Accepted(env, before, before[k], after[k'], data, cache)
    ensures before[k].dataType != STRIPED ==>
      Unique(data) && forall i :: 0 <= i < |before[k].data| ==>
        |before[k].data[i]| == |data[i]| && OneReplaced(env, before, before[k].data[i], data[i])
    ensures before[k].dataType == STRIPED ==>
      forall i :: 0 <= i < |before[k].data| ==> Elems(before[k].data[i]) <= Elems(data[i])
    ensures before[k].cacheType != STRIPED ==>
      Unique(cache) && forall i :: 0 <= i < |before[k].cache| ==>
        |before[k].cache[i]| == |cache[i]| && OneReplaced(env, before, before[k].cache[i], cache[i])
    ensures before[k].cacheType == STRIPED ==>
      forall i :: 0 <= i < |before[k].cache| ==> Elems(before[k].cache[i]) <= Elems(cache[i])
  {
    SpecOfCspc(before, k);
    SpecOfCspc(after, k');
    AcceptedGroups(env, before, before[k].data, after[k'].data, data, before[k].dataType);
    AcceptedGroups(env, before, before[k].cache, after[k'].cache, cache, before[k].cacheType);
  }

  lemma {:induction false} KindsApart(cspc: Cspc, k: nat, d: Device)
    requires Unique(AllDevices(cspc)) && k < |cspc| && d in Flatten(cspc[k].data)
    ensures d !in Flatten(cspc[k].cache)
  {
    hide Unique, Flatten;
    UniqueParts(Flatten(cspc[0].data + cspc[0].cache), AllDevices(cspc[1..]));
    if k > 0 {
      KindsApart(cspc[1..], k - 1, d);
    } else {
      FlattenConcat(cspc[0].data, cspc[0].cache);
      UniqueParts(Flatten(cspc[0].data), Flatten(cspc[0].cache));
    }
  }

  /** An incoming device is in the matched group it comes into. */
  lemma ExchangeIn(env: Env, cspc: Cspc, olds: seq<Group>, news: seq<Group>, matched: seq<Group>, rgType: string, i: nat, x: Device, y: Device)
    requires Unique(Flatten(olds)) && Unique(Flatten(news)) && Matching(olds, news, matched) && i < |olds|
    requires ValidPair(env, cspc, olds[i], matched[i], rgType) && Exchange(olds[i], matched[i], x, y)
    ensures rgType != STRIPED && x in matched[i] && x in Flatten(news)
  {
    hide Unique, IsPredecessor;
    var k := MatchedGroup(olds, news, matched, i);
    FlattenUnique(olds, i);
    FlattenUnique(news, k);
    PairOfGroups(env, cspc, olds[i], matched[i], rgType);
    FlattenMember(news, k, x);
  }

  /** No device comes in twice among the groups of one kind. */
  lemma ExchangedOnce(env: Env, cspc: Cspc, olds: seq<Group>, news: seq<Group>, matched: seq<Group>, rgType: string, x: Device, y: Device, y': Device)
    requires Unique(Flatten(olds)) && Unique(Flatten(news)) && Matching(olds, news, matched)
    requires forall d :: d in Flatten(olds) ==> d in AllDevices(cspc)
    requires forall i :: 0 <= i < |olds| ==> ValidPair(env, cspc, olds[i], matched[i], rgType)
    requires Exchanged(olds, matched, x, y) && Exchanged(olds, matched, x, y')
    ensures y == y' && x in Flatten(news)
  {
    hide Unique, ValidPair, Exchange;
    var i :| 0 <= i < |olds| && i < |matched| && Exchange(olds[i], matched[i], x, y);
    var j :| 0 <= j < |olds| && j < |matched| && Exchange(olds[j], matched[j], x, y');
    ExchangeIn(env, cspc, olds, news, matched, rgType, i, x, y);
    ExchangeIn(env, cspc, olds, news, matched, rgType, j, x, y');
    if i != j {
      var ki := MatchedGroup(olds, news, matched, i);
      var kj := MatchedGroup(olds, news, matched, j);
      if ki != kj { FlattenDisjoint(news, if ki < kj then ki else kj, if ki < kj then kj else ki); }
      MatchingInjective(env, cspc, olds, news, matched, rgType, i, j);
    }
    SameExchange(olds[i], matched[i], x, y, y');
  }

  lemma SameExchange(o: Group, n: Group, x: Device, y: Device, y': Device)
    requires Exchange(o, n, x, y) && Exchange(o, n, x, y')
    ensures y == y'
  {
  }

  /** The claims annotated for an accepted edit carry, for each exchanged pair,
      the outgoing device of that very pair. */
  lemma PlanIsExact(env: Env, before: Cspc, after: Cspc, k: nat, k': nat, data: seq<Group>, cache: seq<Group>, plan: map<Device, Device>, x: Device, y: Device)
    requires Unique(AllDevices(before)) && Unique(AllDevices(after)) && k < |before| && k' < |after|
    requires Accepted(env, before, before[k], after[k'], data, cache) && PlanFor(before[k], data, cache, plan)
    ensures (x in plan && plan[x] == y) <==> Exchanged(before[k].data, data, x, y) || Exchanged(before[k].cache, cache, x, y)
  {
    hide Unique, ValidPair, Exchanged, AllDevices, Flatten, Matching;
    SpecOfCspc(before, k);
    SpecOfCspc(after, k');
    var o, n := before[k], after[k'];
    if Exchanged(o.data, data, x, y) || Exchanged(o.cache, cache, x, y) {
      var y' := plan[x];
      if Exchanged(o.data, data, x, y) {
        ExchangedOnce(env, before, o.data, n.data, data, o.dataType, x, y, y);
        KindsApart(after, k', x);
        if Exchanged(o.cache, cache, x, y') { ExchangedOnce(env, before, o.cache, n.cache, cache, o.cacheType, x, y', y'); }
        ExchangedOnce(env, before, o.data, n.data, data, o.dataType, x, y, y');
      } else {
        ExchangedOnce(env, before, o.cache, n.cache, cache, o.cacheType, x, y, y);
        if Exchanged(o.data, data, x, y') {
          ExchangedOnce(env, before, o.data, n.data, data, o.dataType, x, y', y');
          KindsApart(after, k', x);
        }
        ExchangedOnce(env, before, o.cache, n.cache, cache, o.cacheType, x, y, y');
      }
    }
  }
}
