/** States from which the operator and the pool-managers, left to themselves,
  release no claim of a device in use. */
module ReplacementQuiet {
  import opened Wrappers
  import opened Lists
  import opened RaidGroups
  import opened CspiSync
  import opened Replacement
  import opened ReplacementInvariant

  // ---------- what may go wrong ----------

  /** The device is named by the CSPC or by a CSPI. */
  ghost predicate InUse(s: State, d: Device) {
    d in Devices(s.cspc) || OnSome(s.cspis, d)
  }

  ghost predicate OnSome(cspis: seq<seq<Group>>, d: Device) {
    exists q :: 0 <= q < |cspis| && OnCspi(cspis, q, d)
  }

  /** The steps of the operator and of the pool-managers. */
  predicate Upkeep(a: Action) {
    a.ClaimExpansion? || a.Expand? || a.Copy? || a.ReleaseOld? || a.ClearMark?
  }

  ghost predicate UpkeepRun(s: State, acts: seq<Action>, s': State)
    decreases |acts|
  {
    if acts == [] then s' == s
    else Upkeep(acts[0]) && exists m :: Step(s, acts[0], m) && UpkeepRun(m, acts[1..], s')
  }

  ghost predicate FreesInUse(s: State, a: Action, s': State) {
    a.ReleaseOld? && Step(s, a, s') && exists d :: d in s.claims && d !in s'.claims && InUse(s, d)
  }

  ghost predicate MayFreeInUse(s: State) {
    exists acts, m, a, m' :: UpkeepRun(s, acts, m) && FreesInUse(m, a, m')
  }

  // ---------- quiet states ----------

  /** The marks of the devices in `act`: the replacements the CSPIs may lag by. */
  function Active(claims: map<Device, Claim>, act: set<Device>): map<Device, Device> {
    map n | n in act && Marked(claims, n) :: claims[n].predecessor.value
  }

  ghost predicate ActiveOk(s: State, act: set<Device>) {
    var marks := Active(s.claims, act);
    && act <= Devices(s.cspc)
    && Synced(s.cspc, s.cspis, marks) && Injective(marks)
    && (forall n :: n in marks ==> marks[n] !in Devices(s.cspc) && !Marked(s.claims, marks[n]))
    && (forall n :: n in marks ==> s.claims[n].owner == s.name)
  }

  /** A device of the group is claimed by another owner. */
  ghost predicate Foreign(claims: map<Device, Claim>, name: string, g: Group) {
    exists b :: b in g && b in claims && claims[b].owner != name
  }

  /** The group is not on the CSPI and cannot get there. */
  ghost predicate Shut(s: State, p: nat, g: Group)
    requires p < |s.cspis|
  {
    Foreign(s.claims, s.name, g) && !Present(g, s.cspis[p])
  }

  /** The annotation names no device, or one that is and will not be in use. */
  ghost predicate Tame(s: State, start: set<Device>, n: Device)
    requires Marked(s.claims, n)
  {
    var e := s.claims[n].predecessor.value;
    e == "" || (e !in Devices(s.cspc) && e !in start)
  }

  /** Any other annotation is tame or sits in a group that is shut. */
  ghost predicate OthersOk(s: State, act: set<Device>, start: set<Device>) {
    forall p, i, n :: 0 <= p < |s.cspc| && p < |s.cspis| && 0 <= i < |s.cspc[p].data| && n in s.cspc[p].data[i] ==>
      OtherOk(s, act, start, p, s.cspc[p].data[i], n)
  }

  ghost predicate OtherOk(s: State, act: set<Device>, start: set<Device>, p: nat, g: Group, n: Device)
    requires p < |s.cspis|
  {
    n !in act && Marked(s.claims, n) ==> Tame(s, start, n) || Shut(s, p, g)
  }

  ghost predicate Contained(s: State, start: set<Device>) {
    forall q, d :: 0 <= q < |s.cspis| && OnCspi(s.cspis, q, d) ==> d in start || d in Devices(s.cspc)
  }

  ghost predicate Quiet(s: State, act: set<Device>, start: set<Device>) {
    WellFormed(s.cspc) && ActiveOk(s, act) && OthersOk(s, act, start) && Contained(s, start) && CspisClaimed(s)
  }

  ghost function OnCspis(s: State): set<Device> {
    set q, j, d | 0 <= q < |s.cspis| && 0 <= j < |s.cspis[q]| && d in s.cspis[q][j] :: d
  }

  /** Quiet, judged by what is on the CSPIs now. */
  ghost predicate Calm(s: State, act: set<Device>) {
    Quiet(s, act, OnCspis(s))
  }

  lemma QuietIsCalm(s: State, act: set<Device>, start: set<Device>)
    requires Quiet(s, act, start)
    ensures Calm(s, act)
  {
    hide WellFormed, ActiveOk, Devices, CspisClaimed, Foreign, Present;
    forall d | d in OnCspis(s) ensures d in start || d in Devices(s.cspc) {
      var q, j :| 0 <= q < |s.cspis| && 0 <= j < |s.cspis[q]| && d in s.cspis[q][j];
      assert OnCspi(s.cspis, q, d);
    }
    forall p, i, n | 0 <= p < |s.cspc| && p < |s.cspis| && 0 <= i < |s.cspc[p].data| && n in s.cspc[p].data[i]
      ensures OtherOk(s, act, OnCspis(s), p, s.cspc[p].data[i], n)
    {
      assert OtherOk(s, act, start, p, s.cspc[p].data[i], n);
    }
  }

  /** A state that keeps the invariant is calm, all its marks being active. */
  lemma InvCalm(s: State)
    requires Inv(s)
    ensures Calm(s, Marks(s.claims, s.cspc).Keys)
  {
    hide WellFormed, Synced, ReviewsOk, CspisClaimed;
    var act := Marks(s.claims, s.cspc).Keys;
    assert Active(s.claims, act) == Marks(s.claims, s.cspc);
    forall p, i, n | 0 <= p < |s.cspc| && p < |s.cspis| && 0 <= i < |s.cspc[p].data| && n in s.cspc[p].data[i]
      ensures OtherOk(s, act, OnCspis(s), p, s.cspc[p].data[i], n)
    {
      assert n in Devices(s.cspc);
    }
  }

  /** No active predecessor is marked. */
  lemma ActiveUnmarked(s: State, act: set<Device>, n: Device)
    requires ActiveOk(s, act) && Marked(s.claims, n)
    ensures n !in Active(s.claims, act).Values
  {
    hide Synced, Devices;
  }

  /** What a pool-manager releases in a quiet state is not in use. */
  lemma QuietReleases(s: State, act: set<Device>, start: set<Device>, p: nat, n: Device)
    requires Quiet(s, act, start) && OnCspi(s.cspis, p, n) && Marked(s.claims, n) && s.claims[n].predecessor != Some("")
    ensures !InUse(s, s.claims[n].predecessor.value)
  {
    hide WellFormed, Lagging, Devices, Active;
    var e, marks := s.claims[n].predecessor.value, Active(s.claims, act);
    var j :| 0 <= j < |s.cspis[p]| && n in s.cspis[p][j];
    ActiveUnmarked(s, act, n);
    var i := ArrivedInGroup(s.cspc, s.cspis, marks, p, j, n);
    if n in act {
      assert n in marks && marks[n] == e by { ActiveAt(s.claims, act, n); }
      forall q | 0 <= q < |s.cspis| ensures !OnCspi(s.cspis, q, e) {
        ArrivedPredecessor(s.cspc, s.cspis, marks, p, n, q);
      }
    } else {
      assert OtherOk(s, act, start, p, s.cspc[p].data[i], n);
      assert Overlap(s.cspc[p].data[i], s.cspis[p][j]);
      assert Tame(s, start, n);
    }
  }

  lemma ActiveAt(claims: map<Device, Claim>, act: set<Device>, n: Device)
    requires n in act && Marked(claims, n)
    ensures n in Active(claims, act) && Active(claims, act)[n] == claims[n].predecessor.value
  {
  }

  // ---------- every step keeps a state quiet ----------

  /** Claims change, but not those of the CSPC's devices except by new ones of the
      CSPC itself and by marks going away. */
  ghost predicate ClaimsLess(s: State, s': State) {
    && s' == s.(claims := s'.claims)
    && (forall d :: Marked(s'.claims, d) ==> Marked(s.claims, d) && s'.claims[d].predecessor == s.claims[d].predecessor)
    && (forall d :: d in Devices(s.cspc) && d in s.claims ==> d in s'.claims && s'.claims[d].owner == s.claims[d].owner)
  }

  lemma ClaimsLessOthers(s: State, s': State, act: set<Device>, start: set<Device>)
    requires ClaimsLess(s, s') && OthersOk(s, act, start) && Contained(s, start)
    ensures OthersOk(s', act, start) && Contained(s', start)
  {
    hide Devices;
    forall p, i, n | 0 <= p < |s.cspc| && p < |s.cspis| && 0 <= i < |s.cspc[p].data| && n in s.cspc[p].data[i]
      ensures OtherOk(s', act, start, p, s.cspc[p].data[i], n)
    {
      assert OtherOk(s, act, start, p, s.cspc[p].data[i], n);
      if Foreign(s.claims, s.name, s.cspc[p].data[i]) { StillForeign(s, s', p, i); }
    }
  }

  lemma StillForeign(s: State, s': State, p: nat, i: nat)
    requires ClaimsLess(s, s') && p < |s.cspc| && i < |s.cspc[p].data| && Foreign(s.claims, s.name, s.cspc[p].data[i])
    ensures Foreign(s'.claims, s'.name, s.cspc[p].data[i])
  {
    var b :| b in s.cspc[p].data[i] && b in s.claims && s.claims[b].owner != s.name;
    assert b in Devices(s.cspc);
  }

  /** The active marks stay, or the mark of a device that has arrived goes. */
  lemma ClaimsLessQuiet(s: State, s': State, act: set<Device>, start: set<Device>)
    requires Quiet(s, act, start) && ClaimsLess(s, s') && CspisClaimed(s')
    requires Active(s'.claims, act) == Active(s.claims, act)
    ensures Quiet(s', act, start)
  {
    hide WellFormed, Synced, Devices, OthersOk, Contained, CspisClaimed;
    ClaimsLessOthers(s, s', act, start);
    assert forall n :: n in Active(s.claims, act) ==> n in Active(s'.claims, act);
  }

  lemma QuietClaimed(s: State, act: set<Device>, start: set<Device>)
    requires Quiet(s, act, start)
    ensures CspisClaimed(s)
  {
    hide WellFormed, ActiveOk, OthersOk, Contained, CspisClaimed;
  }

  lemma ClaimQuiet(s: State, s': State, act: set<Device>, start: set<Device>, d: Device)
    requires Quiet(s, act, start) && Step(s, ClaimExpansion(d), s')
    ensures Quiet(s', act, start)
  {
    hide Quiet, Devices;
    QuietClaimed(s, act, start);
    ClaimedSame(s, s');
    assert Active(s'.claims, act) == Active(s.claims, act);
    ClaimsLessQuiet(s, s', act, start);
  }

  lemma ReleaseQuiet(s: State, s': State, act: set<Device>, start: set<Device>, p: nat, n: Device, path: Device, topology: set<Device>)
    requires Quiet(s, act, start) && Step(s, ReleaseOld(p, n, path, topology), s')
    ensures Quiet(s', act, start) && !InUse(s, s.claims[n].predecessor.value)
  {
    hide Quiet, Devices, OnCspi;
    QuietReleases(s, act, start, p, n);
    QuietClaimed(s, act, start);
    ReleaseClaimed(s, s', s.claims[n].predecessor.value);
    ActInCspc(s, act, start);
    assert Active(s'.claims, act) == Active(s.claims, act);
    ClaimsLessQuiet(s, s', act, start);
  }

  lemma ReleaseClaimed(s: State, s': State, o: Device)
    requires CspisClaimed(s) && s' == s.(claims := s.claims - {o}) && !InUse(s, o)
    ensures CspisClaimed(s')
  {
    hide Devices, OnCspi;
    forall q, d | 0 <= q < |s'.cspis| && OnCspi(s'.cspis, q, d) ensures d in s'.claims {
      assert OnSome(s.cspis, d);
    }
  }

  lemma ActInCspc(s: State, act: set<Device>, start: set<Device>)
    requires Quiet(s, act, start)
    ensures act <= Devices(s.cspc)
  {
    hide WellFormed, Synced, Devices;
  }

  lemma ClearQuiet(s: State, s': State, act: set<Device>, start: set<Device>, p: nat, n: Device, path: Device, topology: set<Device>)
    requires Quiet(s, act, start) && Step(s, ClearMark(p, n, path, topology), s')
    ensures Quiet(s', act, start)
  {
    hide WellFormed, Synced, Devices, OthersOk, Contained, OnCspi;
    var marks := Active(s.claims, act);
    ClaimsLessOthers(s, s', act, start);
    ClaimedSame(s, s');
    if n in act {
      ActiveUnmarked(s, act, n);
      ArrivedUnneeded(s.cspc, s.cspis, marks, p, n);
      assert Active(s'.claims, act) == marks - {n};
    } else {
      assert Active(s'.claims, act) == marks;
    }
  }

  /** The groups of one CSPI change, but no shut group comes in. */
  lemma CspiQuiet(s: State, s': State, act: set<Device>, start: set<Device>, p: nat, insts: seq<Group>)
    requires Quiet(s, act, start) && p < |s.cspis| && s' == s.(cspis := s.cspis[p := insts])
    requires Lagging(s.cspc[p].data, insts, Active(s.claims, act))
    requires forall j, d :: 0 <= j < |insts| && d in insts[j] ==> OnCspi(s.cspis, p, d) || (d in Devices(s.cspc) && d in s.claims)
    requires forall i :: 0 <= i < |s.cspc[p].data| && Shut(s, p, s.cspc[p].data[i]) ==> !Present(s.cspc[p].data[i], insts)
    ensures Quiet(s', act, start)
  {
    hide WellFormed, Lagging, Devices, Active, Present, Foreign;
    forall q, i, n | 0 <= q < |s'.cspc| && q < |s'.cspis| && 0 <= i < |s'.cspc[q].data| && n in s'.cspc[q].data[i]
      ensures OtherOk(s', act, start, q, s'.cspc[q].data[i], n)
    {
      assert OtherOk(s, act, start, q, s.cspc[q].data[i], n);
    }
    forall q, d | 0 <= q < |s'.cspis| && OnCspi(s'.cspis, q, d) ensures (d in start || d in Devices(s.cspc)) && d in s.claims {
      if q != p { assert OnCspi(s.cspis, q, d); }
    }
  }

  lemma ExpandQuiet(s: State, s': State, act: set<Device>, start: set<Device>, p: nat, usable: set<Device>)
    requires Quiet(s, act, start) && Step(s, Expand(p, usable), s')
    ensures Quiet(s', act, start)
  {
    hide WellFormed, Lagging, Active, OthersOk, Contained, Expanded, Usable, Foreign;
    var specs, insts, marks := s.cspc[p].data, s.cspis[p], Active(s.claims, act);
    assert specs[0..] == specs;
    ExpandedLagging(specs, insts, marks, usable, 0);
    var r := Expanded(specs, insts, usable);
    forall j, d | 0 <= j < |r| && d in r[j] ensures OnCspi(s.cspis, p, d) || (d in Devices(s.cspc) && d in s.claims) {
      if j < |insts| {
        assert r[j] == r[..|insts|][j];
      } else {
        var i :| 0 <= i < |specs| && r[j] == specs[i];
        assert d in Elems(r[j]);
        UsableClaimed(s, usable, d);
      }
    }
    forall i | 0 <= i < |specs| && Shut(s, p, specs[i]) ensures !Present(specs[i], r) {
      forall j | 0 <= j < |r| ensures !Overlap(specs[i], r[j]) {
        if j < |insts| {
          assert r[j] == r[..|insts|][j];
        } else {
          NotExpanded(s, p, marks, usable, i, r[j]);
        }
      }
    }
    CspiQuiet(s, s', act, start, p, r);
  }

  lemma UsableClaimed(s: State, usable: set<Device>, d: Device)
    requires Usable(s, usable) && d in usable
    ensures d in s.claims
  {
  }

  /** A group with a foreign device is not among those added. */
  lemma NotExpanded(s: State, p: nat, marks: map<Device, Device>, usable: set<Device>, i: nat, h: Group)
    requires p < |s.cspc| && p < |s.cspis| && Lagging(s.cspc[p].data, s.cspis[p], marks) && Usable(s, usable) && i < |s.cspc[p].data|
    requires Foreign(s.claims, s.name, s.cspc[p].data[i]) && h in s.cspc[p].data && Elems(h) <= usable
    ensures !Overlap(s.cspc[p].data[i], h)
  {
    var specs := s.cspc[p].data;
    var k :| 0 <= k < |specs| && specs[k] == h;
    var b :| b in specs[i] && b in s.claims && s.claims[b].owner != s.name;
    assert b in h ==> b in Elems(h);
  }

  lemma CopyQuiet(s: State, s': State, act: set<Device>, start: set<Device>, p: nat, insts: seq<Group>, usable: set<Device>)
    requires Quiet(s, act, start) && Step(s, Copy(p, insts, usable), s')
    ensures Quiet(s', act, start)
  {
    hide WellFormed, Lagging, Active, OthersOk, Contained, CopyGroups, Usable, Foreign, Moved, Present;
    var specs, marks := s.cspc[p].data, Active(s.claims, act);
    assert specs[0..] == specs;
    CopyGroupsLagging(specs, s.cspis[p], insts, marks, usable, 0);
    forall j, d | 0 <= j < |insts| && d in insts[j] ensures OnCspi(s.cspis, p, d) || (d in Devices(s.cspc) && d in s.claims) {
      if d !in s.cspis[p][j] {
        var i := MovedFrom(specs, s.cspis[p][j], insts[j], marks, usable, d);
        MovedDevice(specs, s.cspis[p][j], insts[j], marks, usable, d);
        UsableClaimed(s, usable, d);
      }
    }
    forall i | 0 <= i < |specs| && Shut(s, p, specs[i]) ensures !Present(specs[i], insts) {
      StaysAbsent(specs, s.cspis[p], insts, marks, usable, i);
    }
    CspiQuiet(s, s', act, start, p, insts);
  }

  lemma MovedFrom(specs: seq<Group>, h: Group, h': Group, marks: map<Device, Device>, usable: set<Device>, d: Device) returns (i: nat)
    requires Moved(specs, h, h', marks, usable, 0, |specs|) && d in h' && d !in h
    ensures i < |specs| && d in specs[i]
  {
    var k: int :| 0 <= k < |specs| && CaughtUp(specs[k], h, h', marks, usable);
    assert d in Elems(h');
    i := k;
  }

  /** A pass does not bring in a group that shares nothing with the CSPI. */
  lemma StaysAbsent(specs: seq<Group>, insts: seq<Group>, insts': seq<Group>, marks: map<Device, Device>, usable: set<Device>, i: nat)
    requires Lagging(specs, insts, marks) && |insts'| == |insts| && i < |specs| && !Present(specs[i], insts)
    requires forall j :: 0 <= j < |insts| ==> Moved(specs, insts[j], insts'[j], marks, usable, 0, |specs|)
    ensures !Present(specs[i], insts')
  {
    hide Lagging, Moved, CaughtUp;
    forall j | 0 <= j < |insts'| ensures !Overlap(specs[i], insts'[j]) {
      MovedAbsent(specs, insts, insts'[j], marks, usable, i, j);
    }
  }

  lemma MovedAbsent(specs: seq<Group>, insts: seq<Group>, h': Group, marks: map<Device, Device>, usable: set<Device>, i: nat, j: nat)
    requires Lagging(specs, insts, marks) && i < |specs| && j < |insts| && !Overlap(specs[i], insts[j])
    requires Moved(specs, insts[j], h', marks, usable, 0, |specs|)
    ensures !Overlap(specs[i], h')
  {
    hide Unique, OneMark, FollowsSome;
    if h' != insts[j] {
      var k :| 0 <= k < |specs| && CaughtUp(specs[k], insts[j], h', marks, usable);
      CaughtUpFollows(specs[k], insts[j], h', marks, usable);
      if k == i {
        assert OneMark(specs[k], marks);
        var d := FollowsShares(specs[k], insts[j], marks);
        assert false;
      }
      assert !Overlap(specs[i], specs[k]);
      forall d | d in h' ensures d !in specs[i] { assert d in Elems(h'); }
    }
  }

  lemma StepQuiet(s: State, a: Action, s': State, act: set<Device>, start: set<Device>)
    requires Quiet(s, act, start) && Upkeep(a) && Step(s, a, s')
    ensures Quiet(s', act, start)
  {
    hide Quiet, Step;
    match a
    case ClaimExpansion(d) => ClaimQuiet(s, s', act, start, d);
    case Expand(p, usable) => ExpandQuiet(s, s', act, start, p, usable);
    case Copy(p, insts, usable) => CopyQuiet(s, s', act, start, p, insts, usable);
    case ReleaseOld(p, n, path, topology) => ReleaseQuiet(s, s', act, start, p, n, path, topology);
    case ClearMark(p, n, path, topology) => ClearQuiet(s, s', act, start, p, n, path, topology);
  }

  lemma {:induction false} RunQuiet(s: State, acts: seq<Action>, s': State, act: set<Device>, start: set<Device>)
    requires Quiet(s, act, start) && UpkeepRun(s, acts, s')
    ensures Quiet(s', act, start)
    decreases |acts|
  {
    hide Quiet, Step;
    if acts != [] {
      var m :| Step(s, acts[0], m) && UpkeepRun(m, acts[1..], s');
      StepQuiet(s, acts[0], m, act, start);
      RunQuiet(m, acts[1..], s', act, start);
    }
  }

  /** From a quiet state no device in use loses its claim. */
  lemma QuietNeverFrees(s: State, act: set<Device>, start: set<Device>)
    requires Quiet(s, act, start)
    ensures !MayFreeInUse(s)
  {
    hide Quiet, UpkeepRun, InUse;
    forall acts, m, a, m' | UpkeepRun(s, acts, m) ensures !FreesInUse(m, a, m') {
      RunQuiet(s, acts, m, act, start);
      if a.ReleaseOld? && Step(m, a, m') { ReleaseQuiet(m, m', act, start, a.p, a.n, a.path, a.topology); }
    }
  }
}
