/** Choosing nodes for new pools of a CStorPoolCluster
  (pkg/cspc/algorithm/select_node.go, pkg/controllers/cspc-controller/scale.go). */
module NodeSelection {
  import opened Wrappers

  type Node = string
  type Device = string

  /** A pool spec: the node its selector resolves to, if to exactly one, and the
      devices of all its raid groups. */
  datatype Spec = Spec(node: Option<Node>, devices: seq<Device>)

  datatype Cspi = Cspi(node: Node, devices: seq<Device>)

  function UsedNodes(cspis: seq<Cspi>): set<Node> { set c | c in cspis :: c.node }

  function UsedDevices(cspis: seq<Cspi>): set<Device> { set c, d | c in cspis && d in c.devices :: d }

  predicate DevicesFree(s: Spec, cspis: seq<Cspi>) {
    forall d :: d in s.devices ==> d !in UsedDevices(cspis)
  }

  /** No two pools share a node or a device. */
  ghost predicate Apart(cspis: seq<Cspi>) {
    forall i, j :: 0 <= i < j < |cspis| ==>
      cspis[i].node != cspis[j].node && forall d :: d in cspis[i].devices ==> d !in cspis[j].devices
  }

  /** `i` is the first spec for a node not visited yet. */
  predicate FirstForNode(specs: seq<Spec>, visited: set<Node>, i: int) {
    && 0 <= i < |specs| && specs[i].node.Some? && specs[i].node.value !in visited
    && forall k :: 0 <= k < i ==> specs[k].node != specs[i].node
  }

  predicate Suitable(s: Spec, cspis: seq<Cspi>) {
    s.node.Some? && s.node.value !in UsedNodes(cspis) && DevicesFree(s, cspis)
  }

  function NodesOf(specs: seq<Spec>): set<Node> { set s | s in specs && s.node.Some? :: s.node.value }

  /** The spec that a selection takes. */
  ghost predicate Chosen(specs: seq<Spec>, visited: set<Node>, cspis: seq<Cspi>, i: int) {
    && FirstForNode(specs, visited, i) && Suitable(specs[i], cspis)
    && forall k :: 0 <= k < i && FirstForNode(specs, visited, k) ==> !Suitable(specs[k], cspis)
  }

  ghost predicate NoneSuitable(specs: seq<Spec>, visited: set<Node>, cspis: seq<Cspi>) {
    forall i :: FirstForNode(specs, visited, i) ==> !Suitable(specs[i], cspis)
  }

  predicate AllClaimed(s: Spec, claimed: set<Device>) {
    forall d :: d in s.devices ==> d in claimed
  }

  /** What an attempt leaves in the place of the nodes visited and the pools. */
  datatype Progress = Progress(visited: set<Node>, cspis: seq<Cspi>)

  /** One attempt to create a pool takes `was` to `now`. */
  ghost predicate Attempted(specs: seq<Spec>, claimed: set<Device>, created: bool, was: Progress, now: Progress) {
    || (NoneSuitable(specs, was.visited, was.cspis) && now == Progress(was.visited + NodesOf(specs), was.cspis))
    || exists i :: Chosen(specs, was.visited, was.cspis, i)
                   && now == Progress(was.visited + NodesOf(specs[..i + 1]),
                                      was.cspis + if created && AllClaimed(specs[i], claimed)
                                                  then [Cspi(specs[i].node.value, specs[i].devices)] else [])
  }

  class Config {
    var visited: set<Node>
    var cspis: seq<Cspi>
    var claimed: set<Device>     // devices bound to a claim of this CSPC
    var foreign: set<Device>     // devices bound to another claim
    var requested: set<Device>   // devices with a claim that is not bound yet

    constructor (existing: seq<Cspi>, own: set<Device>, other: set<Device>)
      ensures visited == {} && cspis == existing && claimed == own && foreign == other && requested == {}
    {
      visited, cspis, claimed, foreign, requested := {}, existing, own, other, {};
    }

    /** The first spec that is the first for its unvisited node and is suitable;
        every node looked at is marked as visited. */
    method SelectNode(specs: seq<Spec>) returns (choice: Option<nat>)
      modifies this`visited
      ensures choice.Some? ==> Chosen(specs, old(visited), cspis, choice.value)
      ensures choice.None? <==> NoneSuitable(specs, old(visited), cspis)
      ensures visited == old(visited) + NodesOf(if choice.Some? then specs[..choice.value + 1] else specs)
    {
      hide NodesOf, FirstForNode, UsedNodes, UsedDevices;
      var usedNodes, usedBlockDevices := UsedNodes(cspis), UsedDevices(cspis);
      NoNodes();
      FirstInRange(specs, visited);
      assert specs[..0] == [];
      for i := 0 to |specs|
        invariant visited == old(visited) + NodesOf(specs[..i])
        invariant forall k :: 0 <= k < i && FirstForNode(specs, old(visited), k) ==> !Suitable(specs[k], cspis)
      {
        NodesSnoc(specs, i);
        FirstIff(specs, old(visited), i);
        if specs[i].node.None? { continue; }
        var nodeName := specs[i].node.value;
        if nodeName in visited { continue; }
        visited := visited + {nodeName};
        var isPoolAlreadyExistOnDevices := false;
        for k := 0 to |specs[i].devices|
          invariant isPoolAlreadyExistOnDevices <==> exists m :: 0 <= m < k && specs[i].devices[m] in usedBlockDevices
        {
          if specs[i].devices[k] in usedBlockDevices {
            isPoolAlreadyExistOnDevices := true;
            break;
          }
        }
        if isPoolAlreadyExistOnDevices { continue; }
        if nodeName !in usedNodes {
          return Some(i);
        }
      }
      assert specs[..|specs|] == specs;
      return None;
    }

    /** Succeeds if all devices are bound to this CSPC; requests claims for the
        free ones up to the first device that belongs to another claim. */
    method ClaimBDsForNode(devices: seq<Device>) returns (ok: bool, ghost seen: nat)
      modifies this`requested
      ensures ok <==> forall d :: d in devices ==> d in claimed
      ensures seen <= |devices| && forall d :: d in devices[..seen] ==> d in claimed || d !in foreign
      ensures seen < |devices| ==> devices[seen] !in claimed && devices[seen] in foreign
      ensures requested == old(requested) + ((set d | d in devices[..seen]) - claimed)
    {
      var pendingClaim := 0;
      for i := 0 to |devices|
        invariant pendingClaim >= 0
        invariant pendingClaim == 0 <==> forall k :: 0 <= k < i ==> devices[k] in claimed
        invariant forall d :: d in devices[..i] ==> d in claimed || d !in foreign
        invariant requested == old(requested) + ((set d | d in devices[..i]) - claimed)
      {
        assert devices[..i + 1] == devices[..i] + [devices[i]];
        if devices[i] in claimed { continue; }
        if devices[i] in foreign { return false, i; }
        requested := requested + {devices[i]};
        pendingClaim := pendingClaim + 1;
      }
      assert devices[..|devices|] == devices;
      return pendingClaim == 0, |devices|;
    }

    method CreateCSPI(specs: seq<Spec>, created: bool) returns (ok: bool)
      requires Apart(cspis)
      modifies this
      ensures Apart(cspis) && claimed == old(claimed)
      ensures Attempted(specs, claimed, created, Progress(old(visited), old(cspis)), Progress(visited, cspis))
      ensures ok <==> cspis != old(cspis)
      ensures ok <==> created && exists i :: Chosen(specs, old(visited), old(cspis), i) && AllClaimed(specs[i], claimed)
    {
      hide Suitable, Apart, NodesOf;
      var choice := SelectNode(specs);
      if choice.None? {
        assert cspis + [] == cspis;
        return false;
      }
      var spec := specs[choice.value];
      var claimsReady, _ := ClaimBDsForNode(spec.devices);
      assert claimsReady <==> AllClaimed(spec, claimed);
      ChosenOnce(specs, old(visited), cspis, choice.value);
      if !claimsReady || !created {
        assert cspis + [] == cspis;
        return false;
      }
      SuitableStaysApart(cspis, spec);
      cspis := cspis + [Cspi(spec.node.value, spec.devices)];
      return true;
    }

    /** As many attempts as pools are pending. If all devices are claimed and no
        creation fails, then either all pending pools are made, or no spec that is
        the first for its node is left suitable. */
    method ScaleUp(specs: seq<Spec>, pendingPoolCount: nat, created: seq<bool>) returns (made: nat, ghost trace: seq<Progress>)
      requires Apart(cspis) && |created| == pendingPoolCount
      modifies this
      ensures Apart(cspis) && |cspis| == |old(cspis)| + made && made <= pendingPoolCount && claimed == old(claimed)
      ensures cspis[..|old(cspis)|] == old(cspis)
      ensures forall k :: |old(cspis)| <= k < |cspis| ==> FromSpec(specs, cspis[k], claimed)
      ensures Attempts(specs, claimed, created, trace)
      ensures trace[0] == Progress(old(visited), old(cspis)) && trace[pendingPoolCount] == Progress(visited, cspis)
      ensures (forall s :: s in specs ==> AllClaimed(s, claimed)) && (forall k :: 0 <= k < |created| ==> created[k]) ==>
                made == pendingPoolCount || NoneSuitable(specs, old(visited), cspis)
    {
      hide Attempted, Chosen, NoneSuitable, Apart, AllClaimed;
      made := 0;
      trace := [Progress(visited, cspis)];
      ghost var ready := (forall s :: s in specs ==> AllClaimed(s, claimed)) && forall k :: 0 <= k < |created| ==> created[k];
      assert created[..0] == [];
      for poolCount := 0 to pendingPoolCount
        invariant Apart(cspis) && |cspis| == |old(cspis)| + made && made <= poolCount && claimed == old(claimed)
        invariant cspis[..|old(cspis)|] == old(cspis)
        invariant forall k :: |old(cspis)| <= k < |cspis| ==> FromSpec(specs, cspis[k], claimed)
        invariant Attempts(specs, claimed, created[..poolCount], trace)
        invariant trace[0] == Progress(old(visited), old(cspis)) && trace[poolCount] == Progress(visited, cspis)
        invariant ready ==> VisitedUnsuitable(specs, old(visited), visited, cspis)
        invariant ready ==> made == poolCount || NoneSuitable(specs, old(visited), cspis)
      {
        ghost var was := Progress(visited, cspis);
        var ok := CreateCSPI(specs, created[poolCount]);
        ghost var now := Progress(visited, cspis);
        AttemptMakes(specs, claimed, created[poolCount], was, now);
        if ready { AttemptLeaves(specs, claimed, old(visited), was, now); }
        if ok { made := made + 1; }
        trace := trace + [now];
        assert created[..poolCount + 1] == created[..poolCount] + [created[poolCount]];
      }
      assert created[..pendingPoolCount] == created;
    }
  }

  /** `trace` has the states between the attempts of a pass. */
  ghost predicate Attempts(specs: seq<Spec>, claimed: set<Device>, created: seq<bool>, trace: seq<Progress>) {
    && |trace| == |created| + 1
    && forall k :: 0 <= k < |created| ==> Attempted(specs, claimed, created[k], trace[k], trace[k + 1])
  }

  /** The pool stands for a spec all of whose devices are claimed. */
  predicate FromSpec(specs: seq<Spec>, c: Cspi, claimed: set<Device>) {
    exists i :: 0 <= i < |specs| && specs[i].node == Some(c.node) && specs[i].devices == c.devices && AllClaimed(specs[i], claimed)
  }

  /** Of the specs looked at since `start`, none is suitable. */
  ghost predicate VisitedUnsuitable(specs: seq<Spec>, start: set<Node>, visited: set<Node>, cspis: seq<Cspi>) {
    && start <= visited
    && forall i :: FirstForNode(specs, start, i) && specs[i].node.value in visited ==> !Suitable(specs[i], cspis)
  }

  lemma NodesSnoc(specs: seq<Spec>, i: nat)
    requires i < |specs|
    ensures NodesOf(specs[..i + 1]) == NodesOf(specs[..i]) + if specs[i].node.Some? then {specs[i].node.value} else {}
  {
    assert specs[..i + 1] == specs[..i] + [specs[i]];
  }

  lemma NoNodes()
    ensures NodesOf([]) == {}
  {
  }

  lemma FirstInRange(specs: seq<Spec>, visited: set<Node>)
    ensures forall i :: FirstForNode(specs, visited, i) ==> 0 <= i < |specs|
  {
  }

  lemma FirstIff(specs: seq<Spec>, visited: set<Node>, i: nat)
    requires i < |specs|
    ensures FirstForNode(specs, visited, i) <==> specs[i].node.Some? && specs[i].node.value !in visited + NodesOf(specs[..i])
  {
    if specs[i].node.Some? {
      var n := specs[i].node.value;
      if k :| 0 <= k < i && specs[k].node == Some(n) { assert specs[k] in specs[..i]; }
    }
  }

  lemma ChosenOnce(specs: seq<Spec>, visited: set<Node>, cspis: seq<Cspi>, i: int)
    requires Chosen(specs, visited, cspis, i)
    ensures forall k :: Chosen(specs, visited, cspis, k) ==> k == i
    ensures !NoneSuitable(specs, visited, cspis)
  {
    hide Suitable;
  }

  /** An attempt adds at most one pool, for a spec whose devices are claimed. */
  lemma AttemptMakes(specs: seq<Spec>, claimed: set<Device>, created: bool, was: Progress, now: Progress)
    requires Attempted(specs, claimed, created, was, now)
    ensures |now.cspis| == |was.cspis| + if now.cspis != was.cspis then 1 else 0
    ensures now.cspis[..|was.cspis|] == was.cspis
    ensures now.cspis != was.cspis ==> FromSpec(specs, now.cspis[|was.cspis|], claimed)
  {
    hide Suitable, NodesOf;
  }

  /** What an attempt has looked at and passed by stays unsuitable; it makes a
      pool as long as there is a suitable spec. */
  lemma AttemptLeaves(specs: seq<Spec>, claimed: set<Device>, start: set<Node>, was: Progress, now: Progress)
    requires forall s :: s in specs ==> AllClaimed(s, claimed)
    requires Attempted(specs, claimed, true, was, now) && VisitedUnsuitable(specs, start, was.visited, was.cspis)
    ensures VisitedUnsuitable(specs, start, now.visited, now.cspis)
    ensures now.cspis == was.cspis ==> NoneSuitable(specs, start, now.cspis)
    ensures NoneSuitable(specs, start, was.cspis) ==> NoneSuitable(specs, start, now.cspis)
  {
    hide Suitable, NodesOf;
    if NoneSuitable(specs, was.visited, was.cspis) {
      forall i | FirstForNode(specs, start, i) ensures !Suitable(specs[i], was.cspis) {
        if specs[i].node.value !in was.visited { assert FirstForNode(specs, was.visited, i); }
      }
    } else {
      var i :| Chosen(specs, was.visited, was.cspis, i)
               && now == Progress(was.visited + NodesOf(specs[..i + 1]), was.cspis + [Cspi(specs[i].node.value, specs[i].devices)]);
      forall k | FirstForNode(specs, start, k) && (specs[k].node.value in now.visited || !Suitable(specs[k], was.cspis))
        ensures !Suitable(specs[k], now.cspis)
      {
        PassedBy(specs, start, was, i, k);
        SuitableBefore(specs[k], was.cspis, Cspi(specs[i].node.value, specs[i].devices));
      }
    }
  }

  lemma PassedBy(specs: seq<Spec>, start: set<Node>, was: Progress, i: int, k: int)
    requires Chosen(specs, was.visited, was.cspis, i) && VisitedUnsuitable(specs, start, was.visited, was.cspis)
    requires FirstForNode(specs, start, k)
    requires specs[k].node.value in was.visited + NodesOf(specs[..i + 1]) || !Suitable(specs[k], was.cspis)
    ensures !Suitable(specs[k], was.cspis) || specs[k].node == specs[i].node
  {
    hide Suitable;
    if specs[k].node.value !in was.visited && Suitable(specs[k], was.cspis) {
      var s :| s in specs[..i + 1] && s.node == specs[k].node;
      var m :| 0 <= m < i + 1 && specs[m] == s;
      assert FirstForNode(specs, was.visited, k) && k <= m;
    }
  }

  /** A further pool makes no spec suitable, and takes its own node. */
  lemma SuitableBefore(s: Spec, cspis: seq<Cspi>, c: Cspi)
    ensures Suitable(s, cspis + [c]) ==> Suitable(s, cspis) && s.node != Some(c.node)
  {
    var more := cspis + [c];
    assert c in more && forall x :: x in cspis ==> x in more;
    assert UsedNodes(cspis) <= UsedNodes(more) && c.node in UsedNodes(more);
    assert UsedDevices(cspis) <= UsedDevices(more);
  }

  lemma SuitableStaysApart(cspis: seq<Cspi>, s: Spec)
    requires Apart(cspis) && Suitable(s, cspis)
    ensures Apart(cspis + [Cspi(s.node.value, s.devices)])
  {
    var more := cspis + [Cspi(s.node.value, s.devices)];
    forall i, j | 0 <= i < j < |more|
      ensures more[i].node != more[j].node && forall d :: d in more[i].devices ==> d !in more[j].devices
    {
      if j == |cspis| {
        assert cspis[i] in cspis;
        assert cspis[i].node in UsedNodes(cspis);
      }
    }
  }

  // ---------- when a failed selection means that nothing is suitable ----------

  /** If no spec that is looked at is suitable, then no unvisited spec is. */
  ghost predicate Complete(specs: seq<Spec>, visited: set<Node>, cspis: seq<Cspi>) {
    NoneSuitable(specs, visited, cspis) ==>
      forall i :: 0 <= i < |specs| && specs[i].node.Some? && specs[i].node.value !in visited ==> !Suitable(specs[i], cspis)
  }

  /** Every further spec for an unvisited node has the devices of the first one. */
  ghost predicate Nested(specs: seq<Spec>, visited: set<Node>) {
    forall i, j :: FirstForNode(specs, visited, i) && i < j < |specs| && specs[j].node == specs[i].node ==>
      Within(specs[i], specs[j])
  }

  predicate Within(s: Spec, t: Spec) {
    forall d :: d in s.devices ==> d in t.devices
  }

  lemma {:induction false} FirstOf(specs: seq<Spec>, visited: set<Node>, j: nat) returns (i: nat)
    requires j < |specs| && specs[j].node.Some? && specs[j].node.value !in visited
    ensures i <= j && FirstForNode(specs, visited, i) && specs[i].node == specs[j].node
    decreases j
  {
    if k :| 0 <= k < j && specs[k].node == specs[j].node {
      i := FirstOf(specs, visited, k);
    } else {
      i := j;
    }
  }

  lemma NestedIsComplete(specs: seq<Spec>, visited: set<Node>, cspis: seq<Cspi>)
    requires Nested(specs, visited)
    ensures Complete(specs, visited, cspis)
  {
    hide UsedDevices, UsedNodes;
    if forall i :: FirstForNode(specs, visited, i) ==> !Suitable(specs[i], cspis) {
      forall j | 0 <= j < |specs| && specs[j].node.Some? && specs[j].node.value !in visited ensures !Suitable(specs[j], cspis) {
        var i := FirstOf(specs, visited, j);
        if i != j { assert Within(specs[i], specs[j]); }
      }
    }
  }

  lemma NodesCons(specs: seq<Spec>)
    requires specs != []
    ensures NodesOf(specs) == NodesOf(specs[1..]) + if specs[0].node.Some? then {specs[0].node.value} else {}
  {
    assert specs == [specs[0]] + specs[1..];
  }

  lemma UsedCons(c: Cspi, cspis: seq<Cspi>)
    ensures UsedNodes([c] + cspis) == {c.node} + UsedNodes(cspis)
    ensures UsedDevices([c] + cspis) == (set d | d in c.devices) + UsedDevices(cspis)
  {
  }

  /** Pools without devices on all nodes of the specs but one. */
  function Elsewhere(specs: seq<Spec>, n: Node): (r: seq<Cspi>)
    ensures Apart(r) && UsedDevices(r) == {} && UsedNodes(r) == NodesOf(specs) - {n}
  {
    if specs == [] then []
    else
      var rest := Elsewhere(specs[1..], n);
      NodesCons(specs);
      if specs[0].node.None? || specs[0].node.value == n || specs[0].node.value in UsedNodes(rest) then rest
      else
        var c := Cspi(specs[0].node.value, []);
        UsedCons(c, rest);
        [c] + rest
  }

  /** Pools that use device `d` and every node of the specs but `n`. */
  lemma UsedElsewhere(specs: seq<Spec>, n: Node, d: Device) returns (cspis: seq<Cspi>)
    ensures Apart(cspis) && UsedDevices(cspis) == {d} && n !in UsedNodes(cspis)
    ensures NodesOf(specs) - {n} <= UsedNodes(cspis)
  {
    var others := Elsewhere(specs, n);
    assert forall c :: c in others ==> forall e :: e in c.devices ==> e in UsedDevices(others);
    if others == [] {
      cspis := [Cspi(n + "+", [d])];
      UsedCons(cspis[0], []);
      assert [cspis[0]] + [] == cspis;
    } else {
      cspis := others[0 := others[0].(devices := [d])];
      assert cspis[0] in cspis && d in cspis[0].devices;
      SameNodes(others, cspis);
      assert forall i :: 0 < i < |cspis| ==> cspis[i] in others;
    }
  }

  lemma SameNodes(a: seq<Cspi>, b: seq<Cspi>)
    requires |a| == |b| && forall i :: 0 <= i < |a| ==> a[i].node == b[i].node
    ensures UsedNodes(a) == UsedNodes(b)
  {
    forall m | m in UsedNodes(a) ensures m in UsedNodes(b) {
      var i :| 0 <= i < |a| && a[i].node == m;
      assert b[i] in b;
    }
    forall m | m in UsedNodes(b) ensures m in UsedNodes(a) {
      var i :| 0 <= i < |b| && b[i].node == m;
      assert a[i] in a;
    }
  }

  lemma HiddenBehindFirst(specs: seq<Spec>, visited: set<Node>, i: nat, j: nat, d: Device) returns (cspis: seq<Cspi>)
    requires FirstForNode(specs, visited, i) && i < j < |specs| && specs[j].node == specs[i].node
    requires d in specs[i].devices && d !in specs[j].devices
    ensures Apart(cspis) && !Complete(specs, visited, cspis)
  {
    hide UsedDevices, UsedNodes, Apart;
    cspis := UsedElsewhere(specs, specs[i].node.value, d);
    assert Suitable(specs[j], cspis);
    forall k | FirstForNode(specs, visited, k) ensures !Suitable(specs[k], cspis) {
      assert specs[k] in specs && specs[k].node.value in NodesOf(specs);
      if specs[k].node == specs[i].node { assert k == i && !DevicesFree(specs[i], cspis); }
    }
  }

  /** Whatever pools exist, a failed selection means that nothing is suitable, if
      and only if the first spec of each unvisited node asks for no device that a
      later spec of the node does without. */
  lemma SelectionCompleteIff(specs: seq<Spec>, visited: set<Node>)
    ensures (forall cspis :: Apart(cspis) ==> Complete(specs, visited, cspis)) <==> Nested(specs, visited)
  {
    hide Complete, Apart;
    if Nested(specs, visited) {
      forall cspis | Apart(cspis) ensures Complete(specs, visited, cspis) { NestedIsComplete(specs, visited, cspis); }
    } else {
      var i, j :| FirstForNode(specs, visited, i) && i < j < |specs| && specs[j].node == specs[i].node && !Within(specs[i], specs[j]);
      var d :| d in specs[i].devices && d !in specs[j].devices;
      var cspis := HiddenBehindFirst(specs, visited, i, j, d);
    }
  }

  /** Two specs for one node: the second is suitable, but the first one, whose
      device is in use, hides it. */
  lemma SecondSpecForNodeIsHidden() returns (specs: seq<Spec>, cspis: seq<Cspi>)
    ensures |specs| == 2 && specs[1].node == Some("n") && Suitable(specs[1], cspis)
    ensures forall i :: FirstForNode(specs, {}, i) ==> !Suitable(specs[i], cspis)
  {
    specs := [Spec(Some("n"), ["used"]), Spec(Some("n"), ["free"])];
    cspis := [Cspi("m", ["used"])];
    assert cspis[0] in cspis && "used" in cspis[0].devices && "used" in specs[0].devices;
    assert !FirstForNode(specs, {}, 1) by { assert specs[0].node == specs[1].node; }
  }
}
