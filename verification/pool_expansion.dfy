/** Adding new devices of a CSPI to its pool
  (pkg/pool/operations/disk_operation.go). */
module PoolExpansion {
  import opened Wrappers
  import opened Lists
  import opened VdevTree

  type Device = string

  const STRIPED := "stripe"

  /** A raid group of the CSPI with the raid type of its device class. */
  datatype Raid = Raid(kind: string, devices: seq<Device>)

  /** Device names to the device links they can be found under. A device that
      cannot be looked up is not a key. */
  type Links = map<Device, seq<Path>>

  predicate Resolves(links: Links, d: Device) {
    d in links && links[d] != []
  }

  ghost predicate AllResolve(links: Links, raids: seq<Raid>) {
    forall r, d :: 0 <= r < |raids| && d in raids[r].devices ==> Resolves(links, d)
  }

  /** The links of a device; none if it cannot be looked up. */
  function LinksOf(links: Links, d: Device): seq<Path> {
    if d in links then links[d] else []
  }

  function First(links: Links, d: Device): Path {
    if Resolves(links, d) then links[d][0] else ""
  }

  predicate Used(links: Links, t: Topology, d: Device) {
    Hits(LinksOf(links, d), AllPaths(t))
  }

  // ---------- what a pass asks zpool to add ----------

  /** The first links of the devices of a group that the pool does not use. */
  function Missing(links: Links, t: Topology, ds: seq<Device>): (s: seq<Path>)
    ensures forall p :: p in s ==> exists d :: d in ds && !Used(links, t, d) && p == First(links, d)
    ensures forall d :: d in ds && !Used(links, t, d) ==> First(links, d) in s
    ensures s == [] <==> forall d :: d in ds ==> Used(links, t, d)
  {
    if ds == [] then []
    else
      var init := ds[..|ds| - 1];
      var last := ds[|ds| - 1];
      assert ds == init + [last];
      Missing(links, t, init) + if Used(links, t, last) then [] else [First(links, last)]
  }

  /** The vdevs to be added for one raid group: the whole group if the pool uses
      none of its devices, the missing devices of a striped group, or nothing. */
  function Request(links: Links, t: Topology, raid: Raid): Option<seq<Path>> {
    var missing := Missing(links, t, raid.devices);
    if forall d :: d in raid.devices ==> !Used(links, t, d) then Some(missing)
    else if missing != [] && raid.kind == STRIPED then Some(missing)
    else None
  }

  /** The topology after a successful `zpool add`. */
  function Added(t: Topology, kind: string, vdevs: seq<Path>): Topology {
    var leaves := Leaves(vdevs);
    t.(top := t.top + if kind == STRIPED then leaves else [Vdev("", leaves)])
  }

  function Leaves(vdevs: seq<Path>): seq<Vdev> {
    if vdevs == [] then [] else [Vdev(vdevs[0], [])] + Leaves(vdevs[1..])
  }

  lemma {:induction false} LeavesPreorder(vdevs: seq<Path>)
    ensures Preorder(Leaves(vdevs)) == vdevs
  {
    if vdevs != [] {
      LeavesPreorder(vdevs[1..]);
      PreorderCons(Vdev(vdevs[0], []), Leaves(vdevs[1..]));
      assert Preorder([]) == [];
    }
  }

  /** A stripe is added as separate devices, any other group as one vdev without
      a path that holds them. */
  lemma AddedShape(t: Topology, kind: string, vdevs: seq<Path>)
    ensures var t' := Added(t, kind, vdevs);
      && t'.spares == t.spares && t'.readCache == t.readCache
      && |t'.top| == |t.top| + (if kind == STRIPED then |vdevs| else 1) && t'.top[..|t.top|] == t.top
      && (kind == STRIPED ==> IsLeaves(t'.top[|t.top|..], vdevs))
      && (kind != STRIPED ==> t'.top[|t.top|].path == "" && IsLeaves(t'.top[|t.top|].children, vdevs))
  {
    LeavesAre(vdevs);
  }

  ghost predicate IsLeaves(d: seq<Vdev>, vdevs: seq<Path>) {
    |d| == |vdevs| && forall i :: 0 <= i < |d| ==> d[i].path == vdevs[i] && d[i].children == []
  }

  lemma {:induction false} LeavesAre(vdevs: seq<Path>)
    ensures IsLeaves(Leaves(vdevs), vdevs)
  {
    if vdevs != [] {
      LeavesAre(vdevs[1..]);
      var d := Leaves(vdevs);
      forall i | 0 <= i < |d| ensures d[i].path == vdevs[i] && d[i].children == [] {
        if i > 0 { assert d[i] == Leaves(vdevs[1..])[i - 1]; }
      }
    }
  }

  /** After the addition the forest has the added paths and no other new path. */
  lemma AddedPaths(t: Topology, kind: string, vdevs: seq<Path>, p: Path)
    requires p != ""
    ensures p in AllPaths(Added(t, kind, vdevs)) <==> p in AllPaths(t) || p in vdevs
  {
    hide Preorder;
    var leaves := Leaves(vdevs);
    var more := if kind == STRIPED then leaves else [Vdev("", leaves)];
    LeavesPreorder(vdevs);
    EmptyPreorder();
    PreorderCons(Vdev("", leaves), []);
    assert [Vdev("", leaves)] + [] == [Vdev("", leaves)];
    PreorderConcat(t.top, more);
  }

  // ---------- one pass ----------

  /** zpool accepts to add these vdevs, and the raid type is given. */
  predicate Accepts(accepted: set<seq<Path>>, raid: Raid, vdevs: seq<Path>) {
    raid.kind != "" && vdevs in accepted
  }

  /** The topology after the requests of a pass, decided on topology `seen`. */
  function After(links: Links, seen: Topology, t: Topology, raids: seq<Raid>, accepted: set<seq<Path>>): Topology {
    if raids == [] then t
    else
      var raid := raids[|raids| - 1];
      var t' := After(links, seen, t, raids[..|raids| - 1], accepted);
      var request := Request(links, seen, raid);
      if request.Some? && Accepts(accepted, raid, request.value) then Added(t', raid.kind, request.value) else t'
  }

  /** The vdev lists handed to zpool during a pass, in order; a group without a
      raid type fails before the command. */
  function Commands(links: Links, seen: Topology, raids: seq<Raid>): seq<seq<Path>> {
    if raids == [] then []
    else
      var raid := raids[|raids| - 1];
      var request := Request(links, seen, raid);
      Commands(links, seen, raids[..|raids| - 1]) + if request.Some? && raid.kind != "" then [request.value] else []
  }

  /** The pool expansion condition in the status of the CSPI. */
  datatype Condition = NotSet | InProgress | Succeeded

  class Pool {
    var topology: Topology
    var issued: seq<seq<Path>>     // vdev lists handed to zpool add
    var condition: Condition

    constructor (t: Topology)
      ensures topology == t && issued == [] && condition == NotSet
    {
      topology, issued, condition := t, [], NotSet;
    }

    /** The devices of a group missing from the topology, and whether all are. */
    method FindMissing(links: Links, t: Topology, raid: Raid) returns (ok: bool, wholeGroup: bool, devlist: seq<Path>)
      ensures ok <==> forall d :: d in raid.devices ==> Resolves(links, d)
      ensures ok ==> devlist == Missing(links, t, raid.devices)
      ensures ok ==> forall p :: p in devlist <==>
                exists d :: d in raid.devices && d in links && links[d] != [] && p == links[d][0] && !Used(links, t, d)
      ensures ok ==> (wholeGroup <==> forall d :: d in raid.devices ==> !Used(links, t, d))
    {
      hide AllPaths, Used, Missing, Hits, FirstHit, First;
      wholeGroup, devlist := true, [];
      var ds := raid.devices;
      assert ds[..0] == [];
      MissingNone(links, t);
      for i := 0 to |ds|
        invariant forall d :: d in ds[..i] ==> Resolves(links, d)
        invariant devlist == Missing(links, t, ds[..i])
        invariant wholeGroup <==> forall d :: d in ds[..i] ==> !Used(links, t, d)
      {
        assert ds[..i + 1] == ds[..i] + [ds[i]];
        if !(ds[i] in links && links[ds[i]] != []) {
          assert ds[i] in raid.devices;
          return false, wholeGroup, devlist;
        }
        var path, isUsed := CheckIfDeviceUsed(links[ds[i]], t);
        UsedIs(links, t, ds[i]);
        MissingSnoc(links, t, ds[..i], ds[i]);
        if !isUsed {
          devlist := devlist + [First(links, ds[i])];
        } else {
          wholeGroup := false;
        }
      }
      assert ds[..|ds|] == ds;
      MissingFirst(links, t, raid);
      ok := true;
    }

    /** One pass over the raid groups. All decisions are taken on the topology
        dumped at its start; a failed lookup ends the pass. Success is shown only
        once a later pass finds nothing to add. */
    method UpdateNewVdevFromCSPI(links: Links, raids: seq<Raid>, accepted: set<seq<Path>>, stored: bool)
      returns (ok: bool, isPoolExpansionTriggered: bool, ghost done: nat)
      modifies this
      ensures done <= |raids| && AllResolve(links, raids[..done]) && (ok <==> done == |raids|)
      ensures !ok ==> !AllResolve(links, raids)
      ensures topology == After(links, old(topology), old(topology), raids[..done], accepted)
      ensures isPoolExpansionTriggered <==> exists r :: 0 <= r < done && Request(links, old(topology), raids[r]).Some?
      ensures issued == old(issued) + Commands(links, old(topology), raids[..done])
      ensures forall p :: p in AllPaths(topology) && p != "" ==>
                p in AllPaths(old(topology)) || Taken(issued[|old(issued)|..], accepted, p)
      ensures forall p :: p != "" && Taken(issued[|old(issued)|..], accepted, p) ==> p in AllPaths(topology)
      ensures !ok || !stored ==> condition == old(condition)
      ensures ok && stored ==> (condition.InProgress? <==> isPoolExpansionTriggered)
      ensures condition.NotSet? ==> old(condition).NotSet?
      ensures condition.Succeeded? && !old(condition).Succeeded? ==>
                old(condition).InProgress? && forall r :: 0 <= r < |raids| ==> Request(links, old(topology), raids[r]).None?
    {
      hide AllPaths, Used, Missing, Added, Request, After, Commands;
      var poolTopology := topology;
      isPoolExpansionTriggered := false;
      done := 0;
      assert raids[..0] == [];
      AfterNone(links, topology, topology, accepted);
      for i := 0 to |raids|
        invariant done == i && AllResolve(links, raids[..i])
        invariant topology == After(links, old(topology), old(topology), raids[..i], accepted)
        invariant isPoolExpansionTriggered <==> exists r :: 0 <= r < i && Request(links, old(topology), raids[r]).Some?
        invariant issued == old(issued) + Commands(links, old(topology), raids[..i])
        invariant condition == old(condition)
      {
        var raid := raids[i];
        assert raids[..i + 1] == raids[..i] + [raid];
        var resolved, wholeGroup, devlist := FindMissing(links, poolTopology, raid);
        if !resolved {
          NewPaths(links, old(topology), old(topology), raids[..i], accepted);
          return false, isPoolExpansionTriggered, i;
        }
        assert AllResolve(links, raids[..i + 1]);
        RequestOf(links, poolTopology, raid);
        if wholeGroup || (devlist != [] && raid.kind == STRIPED) {
          isPoolExpansionTriggered := true;
          if raid.kind != "" {
            issued := issued + [devlist];
            if devlist in accepted {
              topology := Added(topology, raid.kind, devlist);
            }
          }
        }
        AfterSnoc(links, old(topology), old(topology), raids[..i], raid, accepted);
        done := i + 1;
      }
      assert raids[..|raids|] == raids;
      NewPaths(links, old(topology), old(topology), raids, accepted);
      ok := true;
      if condition != NotSet && !isPoolExpansionTriggered && condition != Succeeded {
        if stored { condition := Succeeded; }
      } else if isPoolExpansionTriggered {
        if stored { condition := InProgress; }
      }
    }
  }

  lemma MissingNone(links: Links, t: Topology)
    ensures Missing(links, t, []) == []
  {
  }

  lemma MissingSnoc(links: Links, t: Topology, ds: seq<Device>, d: Device)
    ensures Missing(links, t, ds + [d]) == Missing(links, t, ds) + if Used(links, t, d) then [] else [First(links, d)]
  {
    hide Used, First;
    assert (ds + [d])[..|ds|] == ds;
  }

  lemma UsedIs(links: Links, t: Topology, d: Device)
    ensures Used(links, t, d) <==> Hits(LinksOf(links, d), AllPaths(t))
  {
  }

  lemma RequestOf(links: Links, t: Topology, raid: Raid)
    ensures var missing := Missing(links, t, raid.devices);
      Request(links, t, raid) ==
        if (forall d :: d in raid.devices ==> !Used(links, t, d)) || (missing != [] && raid.kind == STRIPED) then Some(missing) else None
  {
  }

  lemma AfterNone(links: Links, seen: Topology, t: Topology, accepted: set<seq<Path>>)
    ensures After(links, seen, t, [], accepted) == t && Commands(links, seen, []) == []
  {
  }

  lemma AfterSnoc(links: Links, seen: Topology, t: Topology, raids: seq<Raid>, raid: Raid, accepted: set<seq<Path>>)
    ensures var t' := After(links, seen, t, raids, accepted);
      var request := Request(links, seen, raid);
      After(links, seen, t, raids + [raid], accepted) ==
        if request.Some? && Accepts(accepted, raid, request.value) then Added(t', raid.kind, request.value) else t'
    ensures var request := Request(links, seen, raid);
      Commands(links, seen, raids + [raid]) ==
        Commands(links, seen, raids) + if request.Some? && raid.kind != "" then [request.value] else []
  {
    hide Request, Added;
    var all := raids + [raid];
    assert all[..|all| - 1] == raids && all[|all| - 1] == raid;
    assert forall r :: 0 <= r < |raids| ==> all[r] == raids[r];
  }

  /** Of each device that the pool does not use, the first link is handed on. */
  lemma MissingFirst(links: Links, t: Topology, raid: Raid)
    requires forall d :: d in raid.devices ==> Resolves(links, d)
    ensures forall p :: p in Missing(links, t, raid.devices) <==>
      exists d :: d in raid.devices && d in links && links[d] != [] && p == links[d][0] && !Used(links, t, d)
  {
    hide Used;
  }

  /** `p` is in a command that zpool accepted. */
  ghost predicate Taken(commands: seq<seq<Path>>, accepted: set<seq<Path>>, p: Path) {
    exists k :: 0 <= k < |commands| && commands[k] in accepted && p in commands[k]
  }

  /** What a group asks for is handed to zpool exactly if its raid type is given. */
  lemma {:induction false} CommandsAre(links: Links, seen: Topology, raids: seq<Raid>, c: seq<Path>)
    ensures c in Commands(links, seen, raids) <==>
      exists r :: 0 <= r < |raids| && raids[r].kind != "" && Request(links, seen, raids[r]) == Some(c)
    decreases |raids|
  {
    hide Request;
    if raids != [] {
      var init := raids[..|raids| - 1];
      CommandsAre(links, seen, init, c);
      assert forall r :: 0 <= r < |init| ==> raids[r] == init[r];
    }
  }

  /** A pass adds the paths of the accepted commands to the pool, and no other. */
  lemma {:induction false} NewPaths(links: Links, seen: Topology, t: Topology, raids: seq<Raid>, accepted: set<seq<Path>>)
    ensures forall p :: p != "" ==>
      (p in AllPaths(After(links, seen, t, raids, accepted)) <==> p in AllPaths(t) || Taken(Commands(links, seen, raids), accepted, p))
  {
    hide AllPaths, Request, After, Commands;
    var commands := Commands(links, seen, raids);
    forall p | p != ""
      ensures p in AllPaths(After(links, seen, t, raids, accepted)) <==> p in AllPaths(t) || Taken(commands, accepted, p)
    {
      AfterPaths(links, seen, t, raids, accepted, p);
      if exists r :: 0 <= r < |raids| && Asked(links, seen, raids[r], accepted, p) {
        var r :| 0 <= r < |raids| && Asked(links, seen, raids[r], accepted, p);
        CommandsAre(links, seen, raids, Request(links, seen, raids[r]).value);
      }
      if Taken(commands, accepted, p) {
        var k :| 0 <= k < |commands| && commands[k] in accepted && p in commands[k];
        CommandsAre(links, seen, raids, commands[k]);
      }
    }
  }

  // ---------- safety and idempotence ----------

  /** Links are not shared by two devices of the CSPI, and no link is empty. */
  ghost predicate Wired(links: Links, raids: seq<Raid>) {
    && AllResolve(links, raids)
    && (forall d, p :: p in LinksOf(links, d) ==> p != "")
    && (forall r :: 0 <= r < |raids| ==> Unique(raids[r].devices))
    && (forall r, r' :: 0 <= r < |raids| && 0 <= r' < |raids| && r != r' ==>
          forall d :: d in raids[r].devices ==> d !in raids[r'].devices)
    && (forall d, e, p :: p in LinksOf(links, d) && p in LinksOf(links, e) ==> d == e)
  }

  /** A requested path is the first link of a device the pool does not use. */
  lemma Requested(links: Links, t: Topology, raid: Raid, p: Path) returns (d: Device)
    requires Request(links, t, raid).Some? && p in Request(links, t, raid).value
    ensures d in raid.devices && p == First(links, d) && !Used(links, t, d)
    ensures Resolves(links, d) ==> p in links[d] && p !in AllPaths(t)
  {
    hide Missing, AllPaths;
    assert p in Missing(links, t, raid.devices);
    d :| d in raid.devices && !Used(links, t, d) && p == First(links, d);
  }

  /** Where a path of the topology after a pass comes from. */
  lemma {:induction false} AfterPaths(links: Links, seen: Topology, t: Topology, raids: seq<Raid>, accepted: set<seq<Path>>, p: Path)
    requires p != ""
    ensures p in AllPaths(After(links, seen, t, raids, accepted)) <==>
      p in AllPaths(t) || exists r :: 0 <= r < |raids| && Asked(links, seen, raids[r], accepted, p)
    decreases |raids|
  {
    hide AllPaths, Request, Added;
    if raids != [] {
      var init, raid := raids[..|raids| - 1], raids[|raids| - 1];
      assert raids == init + [raid];
      AfterSnoc(links, seen, t, init, raid, accepted);
      AfterPaths(links, seen, t, init, accepted, p);
      var request := Request(links, seen, raid);
      if request.Some? { AddedPaths(After(links, seen, t, init, accepted), raid.kind, request.value, p); }
      assert forall r :: 0 <= r < |init| ==> raids[r] == init[r];
    }
  }

  /** `p` is among the vdevs requested for the group, and zpool accepts them. */
  ghost predicate Asked(links: Links, seen: Topology, raid: Raid, accepted: set<seq<Path>>, p: Path) {
    var request := Request(links, seen, raid);
    request.Some? && Accepts(accepted, raid, request.value) && p in request.value
  }

  /** Safety: no path handed to zpool add is in the forest at that moment,
      although the pass decides on the topology dumped at its start. */
  lemma NothingAddedTwice(links: Links, t: Topology, raids: seq<Raid>, accepted: set<seq<Path>>, r: nat, p: Path)
    requires Wired(links, raids) && r < |raids|
    requires Request(links, t, raids[r]).Some? && p in Request(links, t, raids[r]).value
    ensures p !in AllPaths(After(links, t, t, raids[..r], accepted))
  {
    hide AllPaths, Request, After, Unique;
    var d := Requested(links, t, raids[r], p);
    assert forall k :: 0 <= k < r ==> raids[..r][k] == raids[k];
    AfterPaths(links, t, t, raids[..r], accepted, p);
    forall k | 0 <= k < r ensures !Asked(links, t, raids[k], accepted, p) {
      if Asked(links, t, raids[k], accepted, p) {
        var e := Requested(links, t, raids[k], p);
        assert false;
      }
    }
  }

  /** A partly used group that is not striped is left alone: no link of its
      devices is requested. */
  lemma PartlyUsedUntouched(links: Links, t: Topology, raids: seq<Raid>, r: nat, used: Device, r': nat, d: Device, p: Path)
    requires Wired(links, raids) && r < |raids| && r' < |raids|
    requires raids[r].kind != STRIPED && used in raids[r].devices && Used(links, t, used)
    requires d in raids[r].devices && p in LinksOf(links, d)
    ensures Request(links, t, raids[r]).None?
    ensures Request(links, t, raids[r']).Some? ==> p !in Request(links, t, raids[r']).value
  {
    hide AllPaths, Unique, Missing;
    if r' != r && Request(links, t, raids[r']).Some? && p in Request(links, t, raids[r']).value {
      var e := Requested(links, t, raids[r'], p);
      assert false;
    }
  }

  /** Every request of the pass was accepted. */
  ghost predicate FullySuccessful(links: Links, t: Topology, raids: seq<Raid>, accepted: set<seq<Path>>) {
    forall r :: 0 <= r < |raids| && Request(links, t, raids[r]).Some? ==> Accepts(accepted, raids[r], Request(links, t, raids[r]).value)
  }

  /** A device is used after a pass if it was used before or requested. */
  lemma UsedAfter(links: Links, t: Topology, raids: seq<Raid>, accepted: set<seq<Path>>, r: nat, d: Device)
    requires AllResolve(links, raids) && r < |raids| && d in raids[r].devices && FullySuccessful(links, t, raids, accepted)
    requires forall p :: p in LinksOf(links, d) ==> p != ""
    requires Used(links, t, d) || Request(links, t, raids[r]).Some?
    ensures Used(links, After(links, t, t, raids, accepted), d)
  {
    hide AllPaths, After, Missing;
    var t' := After(links, t, t, raids, accepted);
    var p: Path;
    if Used(links, t, d) {
      var k :| 0 <= k < |AllPaths(t)| && AllPaths(t)[k] in LinksOf(links, d);
      p := AllPaths(t)[k];
    } else {
      p := First(links, d);
      assert Resolves(links, d) && p in LinksOf(links, d);
      assert p in Missing(links, t, raids[r].devices);
      assert Asked(links, t, raids[r], accepted, p);
    }
    AfterPaths(links, t, t, raids, accepted, p);
    var k :| 0 <= k < |AllPaths(t')| && AllPaths(t')[k] == p;
  }

  /** Idempotence: after a fully successful pass, the next pass requests nothing
      for a group if and only if the group has devices. */
  lemma NextPassAddsNothing(links: Links, t: Topology, raids: seq<Raid>, accepted: set<seq<Path>>, r: nat)
    requires AllResolve(links, raids) && r < |raids| && FullySuccessful(links, t, raids, accepted)
    requires forall d, p :: p in LinksOf(links, d) ==> p != ""
    ensures Request(links, After(links, t, t, raids, accepted), raids[r]).None? <==> raids[r].devices != []
  {
    hide AllPaths, After, Used;
    var t' := After(links, t, t, raids, accepted);
    var ds := raids[r].devices;
    if ds != [] {
      if Request(links, t, raids[r]).Some? {
        forall d | d in ds ensures Used(links, t', d) {
          UsedAfter(links, t, raids, accepted, r, d);
        }
        assert ds[0] in ds;
      } else {
        var used :| used in ds && Used(links, t, used);
        UsedAfter(links, t, raids, accepted, r, used);
        if raids[r].kind == STRIPED {
          NoneMissing(links, t, t', raids, accepted, r);
        }
      }
    }
  }

  /** A striped group without a request has all its devices in the pool. */
  lemma NoneMissing(links: Links, t: Topology, t': Topology, raids: seq<Raid>, accepted: set<seq<Path>>, r: nat)
    requires AllResolve(links, raids) && r < |raids| && FullySuccessful(links, t, raids, accepted)
    requires forall d, p :: p in LinksOf(links, d) ==> p != ""
    requires t' == After(links, t, t, raids, accepted) && raids[r].kind == STRIPED && Request(links, t, raids[r]).None?
    ensures Missing(links, t', raids[r].devices) == []
  {
    hide AllPaths, After, Used;
    var ds := raids[r].devices;
    forall d | d in ds ensures Used(links, t', d) {
      UsedAfter(links, t, raids, accepted, r, d);
    }
  }
}
