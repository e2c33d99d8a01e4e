/** The replacement loop of a pool-manager (pkg/pool/operations/modify.go) and
  its view of the replacement protocol. */
module PoolManager {
  import opened Wrappers
  import opened Lists
  import opened RaidGroups
  import opened CspiSync
  import opened Replacement
  import opened ReplacementInvariant
  import opened ReplacementTheorems

  datatype ScanFunction = NoFunction | Scrub | Resilver

  datatype ScanState = NotStarted | Scanning | Finished | Canceled

  datatype Scan = Scan(purpose: ScanFunction, state: ScanState)

  /** What a dump of the pool tells about a vdev: whether it has no children,
      the last scan it took part in, and the bytes that scan has processed. */
  datatype VdevStats = VdevStats(leaf: bool, scan: Option<Scan>, processed: nat)

  /** What the API server and zpool answer during one pass. */
  datatype World = World(
    resolvable: set<Device>,       // devices whose paths can be looked up
    accepted: set<Device>,         // devices zpool accepts as replacement
    dumped: bool,                  // the pool can be dumped
    stats: map<Device, VdevStats>, // by path, for the vdevs that have any
    releasable: set<Device>,       // predecessors whose claim can be deleted
    clearable: set<Device>)        // devices whose claim can be updated

  datatype Condition = Unchanged | InProgress(count: int) | Succeeded

  function StatsOf(w: World, path: Device): VdevStats {
    if path in w.stats then w.stats[path] else VdevStats(true, None, 0)
  }

  /** The vdev is being resilvered right now. */
  predicate Resilvering(v: VdevStats) {
    v.scan == Some(Scan(Resilver, Scanning))
  }

  /** What the pool-manager takes for a vdev that is not being resilvered. */
  predicate Settled(v: VdevStats) {
    v.scan.None? || v.processed == 0 || (v.leaf && v.scan.value == Scan(Resilver, Finished))
  }

  /** The path by which the pool-manager looks for device `d`: empty if the links
      of the device cannot be read. */
  function PathOf(w: World, d: Device): Device {
    if d in w.resolvable then d else ""
  }

  /** A marked device whose predecessor can be looked up. */
  predicate Counted(claims: map<Device, Claim>, w: World, d: Device) {
    Marked(claims, d) && claims[d].predecessor.value != "" && claims[d].predecessor.value in w.resolvable
  }

  function CountedIn(claims: map<Device, Claim>, w: World, ds: seq<Device>): nat {
    if ds == [] then 0
    else CountedIn(claims, w, ds[..|ds| - 1]) + if Counted(claims, w, ds[|ds| - 1]) then 1 else 0
  }

  lemma {:induction false} CountedSame(claims: map<Device, Claim>, claims': map<Device, Claim>, w: World, ds: seq<Device>)
    requires forall d :: d in ds ==> (Counted(claims, w, d) <==> Counted(claims', w, d))
    ensures CountedIn(claims', w, ds) == CountedIn(claims, w, ds)
    decreases |ds|
  {
    hide Counted;
    if ds != [] {
      assert ds[|ds| - 1] in ds;
      CountedSame(claims, claims', w, ds[..|ds| - 1]);
    }
  }

  lemma {:induction false} CountedZero(claims: map<Device, Claim>, w: World, ds: seq<Device>)
    ensures CountedIn(claims, w, ds) == 0 <==> forall d :: d in ds ==> !Counted(claims, w, d)
    decreases |ds|
  {
    hide Counted;
    if ds != [] {
      var init := ds[..|ds| - 1];
      CountedZero(claims, w, init);
      assert ds == init + [ds[|ds| - 1]];
    }
  }

  lemma CountedMore(claims: map<Device, Claim>, w: World, ds: seq<Device>, d: Device)
    ensures CountedIn(claims, w, ds + [d]) == CountedIn(claims, w, ds) + if Counted(claims, w, d) then 1 else 0
  {
    assert (ds + [d])[..|ds|] == ds;
  }

  /** `s` with other claims. */
  function With(s: State, claims: map<Device, Claim>): State {
    s.(claims := claims)
  }

  ghost predicate Reaches(s: State, s': State) {
    exists acts: seq<Action> :: Run(s, acts, s') && forall i :: 0 <= i < |acts| ==> acts[i].ReleaseOld? || acts[i].ClearMark?
  }

  lemma {:induction false} RunThenStep(s: State, acts: seq<Action>, m: State, a: Action, s': State)
    requires Run(s, acts, m) && Step(m, a, s') && Benign(m, a)
    ensures Run(s, acts + [a], s')
    decreases |acts|
  {
    hide Step, Benign;
    if acts == [] {
      assert ([a])[1..] == [];
      assert Run(s', [], s');
      assert acts + [a] == [a];
    } else {
      var n :| Step(s, acts[0], n) && Benign(s, acts[0]) && Run(n, acts[1..], m);
      RunThenStep(n, acts[1..], m, a, s');
      assert (acts + [a])[1..] == acts[1..] + [a];
    }
  }

  lemma ReachesStep(s: State, m: State, a: Action, s': State)
    requires Reaches(s, m) && Step(m, a, s') && (a.ReleaseOld? || a.ClearMark?)
    ensures Reaches(s, s')
  {
    hide Step, Run;
    var acts: seq<Action> :| Run(s, acts, m) && forall i :: 0 <= i < |acts| ==> acts[i].ReleaseOld? || acts[i].ClearMark?;
    RunThenStep(s, acts, m, a, s');
  }

  /** The device is in the pool, or zpool can put it in place of its predecessor. */
  predicate Attachable(topology: set<Device>, w: World, o: Device, d: Device) {
    d in topology || (o in topology && d in w.accepted)
  }

  /** The replacement of a counted device ends in this pass. */
  predicate Finishes(claims: map<Device, Claim>, topology: set<Device>, w: World, d: Device)
    requires Counted(claims, w, d)
  {
    var o := claims[d].predecessor.value;
    && (if d in w.resolvable then Attachable(topology, w, o, d) else "" in topology)
    && w.dumped && Settled(StatsOf(w, PathOf(w, d)))
    && (o in claims ==> o in w.releasable) && d in w.clearable
  }

  /** The devices in the pool after the visit of `d`. */
  function PoolAfter(topology: set<Device>, w: World, o: Device, d: Device): set<Device> {
    if d in w.resolvable && Attachable(topology, w, o, d) then topology + {d} else topology
  }

  /** The old device is released, and the replacement taken for finished, although
      the incoming device is not in the pool, exactly if its links cannot be read,
      a vdev with the empty path is there and settled, and both claims can be
      updated. */
  lemma FinishesUnseenIff(claims: map<Device, Claim>, topology: set<Device>, w: World, d: Device)
    requires Counted(claims, w, d)
    ensures var o := claims[d].predecessor.value;
      (Finishes(claims, topology, w, d) && d !in PoolAfter(topology, w, o, d)) <==>
        && d !in w.resolvable && d !in topology
        && "" in topology && w.dumped && Settled(StatsOf(w, ""))
        && (o in claims ==> o in w.releasable) && d in w.clearable
  {
  }

  /** The pass puts `d` in the place of its predecessor. */
  predicate Attached(claims: map<Device, Claim>, topology: set<Device>, w: World, d: Device) {
    && Counted(claims, w, d) && d in w.resolvable && d in w.accepted
    && claims[d].predecessor.value in topology
  }

  /** The devices in the pool once the devices `ds` are visited. */
  function PoolWith(claims: map<Device, Claim>, topology: set<Device>, w: World, ds: seq<Device>): set<Device> {
    topology + set d | d in ds && Attached(claims, topology, w, d)
  }

  class Manager {
    var claims: map<Device, Claim>
    var topology: set<Device>

    constructor (cs: map<Device, Claim>, t: set<Device>)
      ensures claims == cs && topology == t
    {
      claims, topology := cs, t;
    }

    /** Replaces `o` by `n` in the pool; the result is the vdev in use, if any. */
    method ReplacePoolVdev(w: World, o: Option<Device>, n: Device) returns (ok: bool, vdev: Option<Device>)
      modifies this`topology
      ensures ok <==> n in old(topology) || o.None? || (o.value in old(topology) && n in w.accepted)
      ensures ok ==> vdev == if n in old(topology) || o.Some? then Some(n) else None
      ensures vdev.Some? ==> vdev.value == n
      ensures topology == if ok && o.Some? then old(topology) + {n} else old(topology)
    {
      if n in topology { return true, Some(n); }
      if o.None? { return true, None; }
      if o.value !in topology { return false, None; }
      if n !in w.accepted { return false, Some(n); }
      topology := topology + {n};
      return true, Some(n);
    }

    /** A vdev that is being resilvered counts as busy only once bytes are
        processed; a finished resilver ends that for leaves alone, and after any
        other scan a vdev with processed bytes stays busy. */
    method IsResilveringInProgress(w: World, path: Device) returns (busy: bool)
      ensures !busy <==> w.dumped && path in topology && Settled(StatsOf(w, path))
      ensures !w.dumped || path !in topology ==> busy
      ensures w.dumped && path in topology && (path !in w.stats || w.stats[path].scan.None? || w.stats[path].processed == 0) ==> !busy
      ensures w.dumped && path in topology && path in w.stats && w.stats[path].scan.Some? && w.stats[path].processed > 0 ==>
                (busy <==> !w.stats[path].leaf || w.stats[path].scan.value != Scan(Resilver, Finished))
      ensures w.dumped && path in topology && Resilvering(StatsOf(w, path)) ==> (busy <==> StatsOf(w, path).processed > 0)
    {
      if !w.dumped || path !in topology { return true; }
      var v := StatsOf(w, path);
      if v.scan.None? { return false; }
      if v.processed == 0 { return false; }
      if v.leaf && v.scan.value.state == Finished && v.scan.value.purpose == Resilver { return false; }
      return true;
    }

    /** Deletes the claim of the predecessor, then clears the mark. */
    method CleanUpReplacementMarks(ghost s: State, p: nat, w: World, n: Device, ghost path: Device) returns (ok: bool)
      requires Inv(With(s, claims)) && OnCspi(s.cspis, p, n) && Marked(claims, n) && LookedUp(n, path, topology)
      requires claims[n].predecessor.value != ""
      modifies this`claims
      ensures Inv(With(s, claims)) && Reaches(With(s, old(claims)), With(s, claims))
      ensures ok <==> !Marked(claims, n)
      ensures ok <==> n in w.clearable && (old(claims)[n].predecessor.value in old(claims) ==> old(claims)[n].predecessor.value in w.releasable)
      ensures var o := old(claims)[n].predecessor.value; o in claims <==> o in old(claims) && o !in w.releasable
      ensures ok ==> claims[n] == old(claims)[n].(predecessor := None)
      ensures claims.Keys <= old(claims).Keys
      ensures forall d :: d != n && d != old(claims)[n].predecessor.value ==>
                (d in claims <==> d in old(claims)) && (d in claims ==> claims[d] == old(claims)[d])
      ensures n in claims && (!ok ==> claims[n] == old(claims)[n])
    {
      hide Inv, OnCspi;
      ghost var before := With(s, claims);
      var o := claims[n].predecessor.value;
      assert Run(before, [], before);
      assert Reaches(before, before);
      PredecessorDiffers(before, p, n);
      if o in claims {
        if o !in w.releasable { return false; }
        claims := claims - {o};
        ghost var released := ReleaseOld(p, n, path, topology);
        ReleaseKeepsInv(before, With(s, claims), p, n, path, topology);
        ReachesStep(before, before, released, With(s, claims));
      }
      if n !in w.clearable { return false; }
      ghost var mid := With(s, claims);
      ghost var cleared := ClearMark(p, n, path, topology);
      claims := claims[n := claims[n].(predecessor := None)];
      ClearKeepsInv(mid, With(s, claims), p, n, path, topology);
      ReachesStep(before, mid, cleared, With(s, claims));
      return true;
    }

    /** The loop body for one device with its claim: the replacement is counted,
        triggered and, once the device is in and settled, cleaned up. */
    method VisitDevice(ghost s: State, p: nat, w: World, d: Device, claim: Claim) returns (counted: int, triggered: bool)
      requires Inv(With(s, claims)) && OnCspi(s.cspis, p, d) && d in claims && claims[d] == claim
      modifies this
      ensures Inv(With(s, claims)) && Reaches(With(s, old(claims)), With(s, claims))
      ensures counted == if Counted(claims, w, d) then 1 else 0
      ensures forall e :: e != d && OnCspi(s.cspis, p, e) ==>
                (e in claims <==> e in old(claims)) && (e in claims ==> claims[e] == old(claims)[e])
      ensures Marked(old(claims), d) && !Marked(claims, d) ==>
                PathOf(w, d) in topology && (Resilvering(StatsOf(w, PathOf(w, d))) ==> StatsOf(w, PathOf(w, d)).processed == 0)
      ensures triggered <==> Counted(old(claims), w, d)
      ensures Counted(claims, w, d) <==> triggered && !Finishes(old(claims), old(topology), w, d)
      ensures triggered ==> topology == PoolAfter(old(topology), w, old(claims)[d].predecessor.value, d)
      ensures !triggered ==> topology == old(topology) && claims == old(claims)
      ensures forall e :: e != d && !(triggered && e == old(claims)[d].predecessor.value) ==>
                (e in claims <==> e in old(claims)) && (e in claims ==> claims[e] == old(claims)[e])
      ensures triggered && !Counted(claims, w, d) ==> old(claims)[d].predecessor.value !in claims
      ensures claims.Keys <= old(claims).Keys
    {
      hide Inv, OnCspi;
      counted, triggered := 0, false;
      ghost var before := With(s, claims);
      assert Run(before, [], before);
      assert Reaches(before, before);
      var predecessor := match claim.predecessor case Some(o) => o case None => "";
      if predecessor != "" {
        if predecessor !in w.resolvable { return; }
        counted, triggered := 1, true;
      }
      var path := "";
      if d in w.resolvable {
        var ok, vdev := ReplacePoolVdev(w, if predecessor != "" then Some(predecessor) else None, d);
        if !ok { return; }
        path := match vdev case Some(v) => v case None => "";
      }
      var busy := IsResilveringInProgress(w, path);
      if predecessor != "" && !busy {
        PredecessorDiffers(before, p, d);
        var ok := CleanUpReplacementMarks(s, p, w, d, path);
        if ok { counted := counted - 1; }
      }
    }

    /** The loop over the devices of group `i`, continuing a pass. */
    method VisitGroup(ghost s: State, p: nat, groups: seq<Group>, w: World, list: map<Device, Claim>,
                      i: nat, replacing: int, triggered: bool, ghost pool: set<Device>)
      returns (replacing': int, triggered': bool)
      requires i < |groups| && p < |s.cspis| && groups == s.cspis[p]
      requires Progress(s, p, list, claims, w, Flatten(groups[..i]), replacing, triggered)
      requires Replaced(s, p, list, pool, claims, topology, w, Flatten(groups[..i]))
      modifies this
      ensures Progress(s, p, list, claims, w, Flatten(groups[..i + 1]), replacing', triggered')
      ensures Replaced(s, p, list, pool, claims, topology, w, Flatten(groups[..i + 1]))
    {
      hide Progress, Replaced, Finishes, PoolAfter, Inv, Reaches, Counted, CountedIn, OnCspi, Flatten;
      VisitedMore(groups, i);
      replacing', triggered' := replacing, triggered;
      var group := groups[i];
      ghost var start := Flatten(groups[..i]);
      assert start + group[..0] == start;
      for t := 0 to |group|
        invariant Progress(s, p, list, claims, w, start + group[..t], replacing', triggered')
        invariant Replaced(s, p, list, pool, claims, topology, w, start + group[..t])
      {
        var d := group[t];
        ghost var mid, was := claims, topology;
        ProgressNext(s, p, list, claims, w, i, t, replacing', triggered');
        var counted, hit := VisitDevice(s, p, w, d, list[d]);
        ReplacedStep(s, p, list, pool, mid, was, claims, topology, w, start + group[..t], d, replacing', triggered');
        ProgressStep(s, p, list, mid, claims, w, start + group[..t], d, replacing', triggered', counted, hit);
        replacing', triggered' := replacing' + counted, triggered' || hit;
        assert start + group[..t + 1] == (start + group[..t]) + [d];
      }
      assert group[..|group|] == group;
    }

    /** One pass over the raid groups of CSPI `p`. The pass is a run of the
        replacement protocol: it attaches every device it can, ends every
        replacement whose device is in the pool and settled, and reports success
        only if no device of the CSPI that was being replaced is left marked. */
    method Update(ghost s: State, p: nat, groups: seq<Group>, w: World) returns (condition: Condition)
      requires Inv(s) && s.claims == claims && p < |s.cspis| && groups == s.cspis[p]
      modifies this
      ensures Inv(With(s, claims)) && Reaches(s, With(s, claims))
      ensures condition.InProgress? ==> condition.count == CountedIn(claims, w, Flatten(groups)) > 0
      ensures condition.Succeeded? ==> forall d :: d in Flatten(groups) ==> !Counted(claims, w, d)
      ensures condition.Unchanged? <==> forall d :: d in Flatten(groups) ==> !Counted(old(claims), w, d)
      ensures topology == PoolWith(old(claims), old(topology), w, Flatten(groups))
      ensures forall k :: 0 <= k < |Flatten(groups)| ==>
                LeftAt(old(claims), old(topology), claims, w, Flatten(groups), k)
      ensures forall d :: d in Flatten(groups) && Counted(old(claims), w, d) && !Counted(claims, w, d) ==>
                old(claims)[d].predecessor.value !in claims
    {
      hide Inv, Counted, CountedIn, Reaches, PoolWith, LeftAt;
      var list := claims;
      var triggered, replacing := false, 0;
      ProgressInit(s, p, w);
      assert groups[..0] == [];
      ReplacedInit(s, p, topology, w);
      for i := 0 to |groups|
        invariant Progress(s, p, list, claims, w, Flatten(groups[..i]), replacing, triggered)
        invariant Replaced(s, p, list, old(topology), claims, topology, w, Flatten(groups[..i]))
      {
        replacing, triggered := VisitGroup(s, p, groups, w, list, i, replacing, triggered, old(topology));
      }
      assert groups[..|groups|] == groups;
      CountedZero(claims, w, Flatten(groups));
      CountedZero(list, w, Flatten(groups));
      if triggered {
        condition := if replacing > 0 then InProgress(replacing) else Succeeded;
      } else {
        condition := Unchanged;
      }
    }
  }

  /** A pass started with claims `list` has visited the devices `visited`. */
  ghost predicate Progress(s: State, p: nat, list: map<Device, Claim>, claims: map<Device, Claim>, w: World,
                           visited: seq<Device>, replacing: int, triggered: bool)
  {
    && Inv(With(s, claims)) && Reaches(With(s, list), With(s, claims))
    && replacing == CountedIn(claims, w, visited)
    && (triggered <==> exists d :: d in visited && Counted(list, w, d))
    && (forall d :: d in visited ==> OnCspi(s.cspis, p, d))
    && (forall d :: d !in visited && OnCspi(s.cspis, p, d) ==> d in claims && d in list && claims[d] == list[d])
  }

  /** The device visited as number `k` is still being replaced exactly if it was
      and its replacement does not end on the pool it finds. */
  ghost predicate LeftAt(list: map<Device, Claim>, pool: set<Device>, claims: map<Device, Claim>, w: World,
                         visited: seq<Device>, k: nat)
    requires k < |visited|
  {
    var d := visited[k];
    Counted(claims, w, d) <==> Counted(list, w, d) && !Finishes(list, PoolWith(list, pool, w, visited[..k]), w, d)
  }

  /** What a pass has done to the pool and to the claims after it visited `visited`. */
  ghost predicate Replaced(s: State, p: nat, list: map<Device, Claim>, pool: set<Device>, claims: map<Device, Claim>,
                           topology: set<Device>, w: World, visited: seq<Device>)
  {
    && topology == PoolWith(list, pool, w, visited)
    && (forall k :: 0 <= k < |visited| ==> LeftAt(list, pool, claims, w, visited, k))
    && (forall d :: d in visited && Counted(list, w, d) && !Counted(claims, w, d) ==> list[d].predecessor.value !in claims)
    && (forall d :: d !in visited && OnCspi(s.cspis, p, d) && Marked(list, d) ==>
          (list[d].predecessor.value in claims <==> list[d].predecessor.value in list))
  }

  lemma ReplacedInit(s: State, p: nat, topology: set<Device>, w: World)
    ensures Replaced(s, p, s.claims, topology, s.claims, topology, w, [])
  {
  }

  /** Two devices of a CSPI do not replace the same device. */
  lemma PredecessorsApart(s: State, p: nat, d: Device, e: Device)
    requires Inv(s) && OnCspi(s.cspis, p, d) && OnCspi(s.cspis, p, e) && Marked(s.claims, d) && Marked(s.claims, e) && d != e
    ensures s.claims[d].predecessor.value != s.claims[e].predecessor.value
  {
    hide Inv, OnCspi;
    PredecessorUnused(s, p, d, p);
    PredecessorUnused(s, p, e, p);
    MarksFacts(s);
  }

  /** The pool after the visit of `d`, whose predecessor is on no CSPI. */
  lemma PoolWithMore(list: map<Device, Claim>, pool: set<Device>, w: World, visited: seq<Device>, d: Device)
    requires Counted(list, w, d) ==> list[d].predecessor.value !in visited
    requires d !in visited
    ensures PoolWith(list, pool, w, visited + [d]) ==
      if Counted(list, w, d) then PoolAfter(PoolWith(list, pool, w, visited), w, list[d].predecessor.value, d)
      else PoolWith(list, pool, w, visited)
  {
    hide Counted;
    assert forall e :: e in visited + [d] <==> e in visited || e == d;
  }

  ghost predicate OtherClaimsKept(claims: map<Device, Claim>, claims': map<Device, Claim>, w: World, d: Device) {
    && claims'.Keys <= claims.Keys
    && forall e :: e != d && !(Counted(claims, w, d) && e == claims[d].predecessor.value) ==>
         (e in claims' <==> e in claims) && (e in claims' ==> claims'[e] == claims[e])
  }

  lemma ReplacedStep(s: State, p: nat, list: map<Device, Claim>, pool: set<Device>, mid: map<Device, Claim>, was: set<Device>,
                     claims: map<Device, Claim>, topology: set<Device>, w: World, visited: seq<Device>, d: Device,
                     replacing: int, triggered: bool)
    requires Progress(s, p, list, mid, w, visited, replacing, triggered)
    requires Replaced(s, p, list, pool, mid, was, w, visited)
    requires d !in visited && OnCspi(s.cspis, p, d) && d in mid && d in list && mid[d] == list[d]
    requires OtherClaimsKept(mid, claims, w, d)
    requires Counted(claims, w, d) <==> Counted(mid, w, d) && !Finishes(mid, was, w, d)
    requires topology == if Counted(mid, w, d) then PoolAfter(was, w, mid[d].predecessor.value, d) else was
    requires Counted(mid, w, d) && !Counted(claims, w, d) ==> mid[d].predecessor.value !in claims
    ensures Replaced(s, p, list, pool, claims, topology, w, visited + [d])
  {
    hide Inv, OnCspi, CountedIn, Reaches, PoolWith, PoolAfter;
    var m := With(s, mid);
    if Counted(mid, w, d) { PredecessorDiffers(m, p, d); }
    PoolWithMore(list, pool, w, visited, d);
    LeftStep(s, p, list, pool, mid, was, claims, w, visited, d);
    forall e | e !in visited + [d] && OnCspi(s.cspis, p, e) && Marked(list, e)
      ensures list[e].predecessor.value in claims <==> list[e].predecessor.value in list
    {
      assert e !in visited && e != d;
      assert mid[e] == list[e];
      PredecessorDiffers(m, p, e);
      if Counted(mid, w, d) { PredecessorsApart(m, p, d, e); }
    }
    forall e | e in visited + [d] && Counted(list, w, e) && !Counted(claims, w, e)
      ensures list[e].predecessor.value !in claims
    {
      if e != d { assert e in visited; }
    }
  }

  lemma LeftStep(s: State, p: nat, list: map<Device, Claim>, pool: set<Device>, mid: map<Device, Claim>, was: set<Device>,
                 claims: map<Device, Claim>, w: World, visited: seq<Device>, d: Device)
    requires Replaced(s, p, list, pool, mid, was, w, visited)
    requires forall e :: e in visited ==> OnCspi(s.cspis, p, e)
    requires d !in visited && OnCspi(s.cspis, p, d) && d in mid && d in list && mid[d] == list[d]
    requires OtherClaimsKept(mid, claims, w, d) && (Counted(mid, w, d) ==> !OnCspi(s.cspis, p, mid[d].predecessor.value))
    requires Counted(claims, w, d) <==> Counted(mid, w, d) && !Finishes(mid, was, w, d)
    ensures forall k :: 0 <= k < |visited + [d]| ==> LeftAt(list, pool, claims, w, visited + [d], k)
    ensures forall e :: e in visited ==> (Counted(claims, w, e) <==> Counted(mid, w, e))
  {
    hide OnCspi, PoolWith;
    var all := visited + [d];
    forall k | 0 <= k < |all| ensures LeftAt(list, pool, claims, w, all, k) {
      if k < |visited| {
        assert all[..k] == visited[..k] && all[k] == visited[k] && visited[k] in visited;
        assert LeftAt(list, pool, mid, w, visited, k);
      } else {
        assert all[..k] == visited && all[k] == d;
      }
    }
  }

  lemma ProgressInit(s: State, p: nat, w: World)
    requires Inv(s) && p < |s.cspis|
    ensures Progress(s, p, s.claims, s.claims, w, [], 0, false)
  {
    hide Inv, OnCspi;
    assert s == With(s, s.claims);
    assert Run(s, [], s);
    assert Reaches(s, s);
    ClaimedOn(s);
  }

  lemma ClaimedOn(s: State)
    requires Inv(s)
    ensures forall p, d :: 0 <= p < |s.cspis| && OnCspi(s.cspis, p, d) ==> d in s.claims
  {
    hide WellFormed, Synced, MarksOk, ReviewsOk, OnCspi;
  }

  /** The next device is on the CSPI, not visited yet and claimed as listed. */
  lemma ProgressNext(s: State, p: nat, list: map<Device, Claim>, claims: map<Device, Claim>, w: World,
                     i: nat, t: nat, replacing: int, triggered: bool)
    requires p < |s.cspis| && i < |s.cspis[p]| && t < |s.cspis[p][i]|
    requires Progress(s, p, list, claims, w, Flatten(s.cspis[p][..i]) + s.cspis[p][i][..t], replacing, triggered)
    ensures var d := s.cspis[p][i][t];
      && Inv(With(s, claims)) && OnCspi(s.cspis, p, d) && d !in Flatten(s.cspis[p][..i]) + s.cspis[p][i][..t]
      && d in claims && d in list && claims[d] == list[d]
  {
    hide Inv, Counted, CountedIn, Reaches;
    CspiFlat(With(s, claims), p);
    NotVisited(s.cspis[p], i, t);
  }

  lemma ProgressStep(s: State, p: nat, list: map<Device, Claim>, mid: map<Device, Claim>, claims: map<Device, Claim>, w: World,
                     visited: seq<Device>, d: Device, replacing: int, triggered: bool, counted: int, hit: bool)
    requires Progress(s, p, list, mid, w, visited, replacing, triggered)
    requires d !in visited && OnCspi(s.cspis, p, d) && d in mid && d in list && mid[d] == list[d]
    requires Inv(With(s, claims)) && Reaches(With(s, mid), With(s, claims))
    requires counted == if Counted(claims, w, d) then 1 else 0
    requires hit <==> Counted(mid, w, d)
    requires forall e :: e != d && OnCspi(s.cspis, p, e) ==>
               (e in claims <==> e in mid) && (e in claims ==> claims[e] == mid[e])
    ensures Progress(s, p, list, claims, w, visited + [d], replacing + counted, triggered || hit)
  {
    hide Inv, OnCspi, CountedIn, Reaches;
    assert Counted(mid, w, d) <==> Counted(list, w, d);
    assert forall e :: e in visited + [d] <==> e in visited || e == d;
    if hit { assert d in visited + [d]; }
    CountedAfter(s, p, mid, claims, w, visited, d);
    ReachesTrans(With(s, list), With(s, mid), With(s, claims));
  }

  lemma {:induction false} ReachesTrans(s: State, m: State, s': State)
    requires Reaches(s, m) && Reaches(m, s')
    ensures Reaches(s, s')
  {
    var acts: seq<Action> :| Run(m, acts, s') && forall i :: 0 <= i < |acts| ==> acts[i].ReleaseOld? || acts[i].ClearMark?;
    ReachesRun(s, m, acts, s');
  }

  lemma {:induction false} ReachesRun(s: State, m: State, acts: seq<Action>, s': State)
    requires Reaches(s, m) && Run(m, acts, s') && forall i :: 0 <= i < |acts| ==> acts[i].ReleaseOld? || acts[i].ClearMark?
    ensures Reaches(s, s')
    decreases |acts|
  {
    hide Step, Reaches;
    if acts != [] {
      var n :| Step(m, acts[0], n) && Benign(m, acts[0]) && Run(n, acts[1..], s');
      ReachesStep(s, m, acts[0], n);
      ReachesRun(s, n, acts[1..], s');
    }
  }

  /** Devices of a CSPI: distinct, all on the CSPI, all claimed. */
  lemma CspiFlat(s: State, p: nat)
    requires Inv(s) && p < |s.cspis|
    ensures forall d :: d in Flatten(s.cspis[p]) ==> OnCspi(s.cspis, p, d) && d in s.claims
    ensures Disjoint(s.cspis[p])
  {
    hide WellFormed, MarksOk, ReviewsOk;
    assert Lagging(s.cspc[p].data, s.cspis[p], Marks(s.claims, s.cspc));
    forall d | d in Flatten(s.cspis[p]) ensures OnCspi(s.cspis, p, d) {
      var i := FlattenGroup(s.cspis[p], d);
    }
  }

  lemma NotVisited(groups: seq<Group>, i: nat, t: nat)
    requires Disjoint(groups) && i < |groups| && t < |groups[i]|
    ensures groups[i][t] !in Flatten(groups[..i]) + groups[i][..t]
  {
    var d := groups[i][t];
    if d in Flatten(groups[..i]) {
      var k := FlattenGroup(groups[..i], d);
    }
  }

  /** Visiting a device leaves the count of the others as it was. */
  lemma CountedAfter(s: State, p: nat, claims: map<Device, Claim>, claims': map<Device, Claim>, w: World, visited: seq<Device>, d: Device)
    requires d !in visited && forall e :: e in visited ==> OnCspi(s.cspis, p, e)
    requires forall e :: e != d && OnCspi(s.cspis, p, e) ==>
               (e in claims' <==> e in claims) && (e in claims' ==> claims'[e] == claims[e])
    ensures CountedIn(claims', w, visited + [d]) == CountedIn(claims, w, visited) + if Counted(claims', w, d) then 1 else 0
  {
    CountedSame(claims, claims', w, visited);
    CountedMore(claims', w, visited, d);
  }

  /** The devices the pass has visited, in order. */
  lemma VisitedMore(groups: seq<Group>, i: nat)
    requires i < |groups|
    ensures Flatten(groups[..i + 1]) == Flatten(groups[..i]) + groups[i]
  {
    FlattenConcat(groups[..i], [groups[i]]);
    assert groups[..i + 1] == groups[..i] + [groups[i]];
    assert Flatten([groups[i]]) == groups[i] + Flatten([]);
  }

  lemma PredecessorDiffers(s: State, p: nat, n: Device)
    requires Inv(s) && OnCspi(s.cspis, p, n) && Marked(s.claims, n)
    ensures s.claims[n].predecessor.value != n
    ensures !OnCspi(s.cspis, p, s.claims[n].predecessor.value)
  {
    hide Inv, OnCspi;
    PredecessorUnused(s, p, n, p);
  }
}
