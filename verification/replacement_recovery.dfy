/** Replacements can always be carried to their end. */
module ReplacementRecovery {
  import opened Wrappers
  import opened Lists
  import opened RaidGroups
  import opened CspiSync
  import opened Replacement
  import opened ReplacementInvariant
  import opened ReplacementTheorems
  import PoolManager

  ghost predicate Reaches(s: State, s': State) {
    exists acts :: Run(s, acts, s')
  }

  lemma Then(s: State, m: State, a: Action, s': State)
    requires Reaches(s, m) && Step(m, a, s') && !a.Admit? && !a.ClaimIncoming? && !a.Commit?
    ensures Reaches(s, s')
  {
    hide Step, Run;
    var acts :| Run(s, acts, m);
    PoolManager.RunThenStep(s, acts, m, a, s');
  }

  /** The devices of a CSPI that are being replaced in. */
  ghost function Pending(s: State, p: nat): set<Device>
    requires p < |s.cspis|
  {
    set d | d in Flatten(s.cspis[p]) && Marked(s.claims, d)
  }

  /** Release and clearing for one device of the CSPI. */
  lemma OneCleared(s: State, m: State, p: nat, n: Device) returns (s': State)
    requires Reaches(s, m) && Inv(m) && OnCspi(m.cspis, p, n) && Marked(m.claims, n)
    ensures Reaches(s, s') && Inv(s')
    ensures s' == m.(claims := s'.claims) && s'.claims.Keys == m.claims.Keys - {m.claims[n].predecessor.value}
    ensures n in s'.claims && s'.claims[n] == m.claims[n].(predecessor := None)
    ensures forall d :: d in s'.claims && d != n ==> s'.claims[d] == m.claims[d]
  {
    hide Inv, Reaches, OnCspi;
    var o, path, topology := m.claims[n].predecessor.value, n, {n};
    NamedPredecessor(m, p, n);
    s' := m.(claims := m.claims - {o});
    ReleaseKeepsInv(m, s', p, n, path, topology);
    Then(s, m, ReleaseOld(p, n, path, topology), s');
    var m' := s';
    s' := m'.(claims := m'.claims[n := m'.claims[n].(predecessor := None)]);
    ClearKeepsInv(m', s', p, n, path, topology);
    Then(s, m', ClearMark(p, n, path, topology), s');
  }

  lemma NamedPredecessor(s: State, p: nat, n: Device)
    requires Inv(s) && OnCspi(s.cspis, p, n) && Marked(s.claims, n)
    ensures s.claims[n].predecessor != Some("") && s.claims[n].predecessor.value != n
  {
    hide WellFormed, Synced, ReviewsOk, CspisClaimed, Devices, OnCspi;
    PredecessorUnused(s, p, n, p);
  }

  /** All marks of a CSPI's devices can be cleared, and the claims of their
      predecessors released. */
  lemma {:induction false} AllCleared(s: State, m: State, p: nat) returns (s': State)
    requires Reaches(s, m) && Inv(m) && p < |m.cspis|
    ensures Reaches(s, s') && Inv(s') && s' == m.(claims := s'.claims) && s'.claims.Keys <= m.claims.Keys
    ensures Pending(s', p) == {}
    ensures forall n :: n in Pending(m, p) ==> m.claims[n].predecessor.value !in s'.claims
    decreases |Pending(m, p)|
  {
    hide Inv, Reaches, Flatten;
    if Pending(m, p) == {} {
      s' := m;
    } else {
      var n :| n in Pending(m, p);
      FlatOnCspi(m, p, n);
      var m' := OneCleared(s, m, p, n);
      PendingLess(m, m', p, n);
      s' := AllCleared(s, m', p);
      forall k | k in Pending(m, p) ensures m.claims[k].predecessor.value !in s'.claims {
        if k != n { assert k in Pending(m', p) && m'.claims[k] == m.claims[k]; }
      }
    }
  }

  lemma FlatOnCspi(s: State, p: nat, n: Device)
    requires p < |s.cspis| && n in Flatten(s.cspis[p])
    ensures OnCspi(s.cspis, p, n)
  {
    var i := FlattenGroup(s.cspis[p], n);
  }

  lemma PendingLess(m: State, m': State, p: nat, n: Device)
    requires Inv(m) && p < |m.cspis| && n in Pending(m, p) && OnCspi(m.cspis, p, n)
    requires m' == m.(claims := m'.claims) && m'.claims.Keys == m.claims.Keys - {m.claims[n].predecessor.value}
    requires n in m'.claims && m'.claims[n] == m.claims[n].(predecessor := None)
    requires forall d :: d in m'.claims && d != n ==> m'.claims[d] == m.claims[d]
    ensures Pending(m', p) == Pending(m, p) - {n} && |Pending(m', p)| < |Pending(m, p)|
  {
    hide Inv, Flatten, OnCspi;
    var o := m.claims[n].predecessor.value;
    PredecessorUnused(m, p, n, p);
    forall d | d in Flatten(m.cspis[p]) ensures d != o { FlatOnCspi(m, p, d); }
    assert Pending(m', p) == Pending(m, p) - {n};
  }

  /** From any reachable state the operator and the pool-manager of a pool can
      complete its replacements: every CSPI group holds the devices of a CSPC
      group, no device on the CSPI is marked, the predecessors are released, and
      nothing else has changed. */
  lemma ReplacementCompletes(s0: State, acts: seq<Action>, s: State, p: nat) returns (s': State)
    requires Init(s0) && Run(s0, acts, s) && p < |s.cspis|
    ensures Reaches(s, s') && s' == s.(claims := s'.claims, cspis := s'.cspis)
    ensures p < |s.cspc| && |s'.cspis| == |s.cspis| && s'.cspis == s.cspis[p := s'.cspis[p]]
    ensures |s'.cspis[p]| == |s.cspis[p]|
    ensures forall j :: 0 <= j < |s'.cspis[p]| ==> EqualsSome(s.cspc[p].data, s'.cspis[p][j])
    ensures forall n :: n in Flatten(s'.cspis[p]) ==> !Marked(s'.claims, n)
    ensures forall n :: n in Flatten(s'.cspis[p]) && Marked(s.claims, n) ==> s.claims[n].predecessor.value !in s'.claims
  {
    hide Init, Inv, Run, Reaches, CopyGroups, Flatten, EqualsSome;
    InitInv(s0);
    RunKeepsInv(s0, acts, s);
    SameLength(s);
    var usable := set d | d in s.claims && s.claims[d].owner == s.name;
    var insts := CopyExists(s.cspc[p].data, s.cspis[p], usable);
    var m := s.(cspis := s.cspis[p := insts]);
    MarkedUsable(s, usable);
    assert Step(s, Copy(p, insts, usable), m);
    ReachesRefl(s);
    Then(s, s, Copy(p, insts, usable), m);
    CopyKeepsInv(s, m, p, insts, usable);
    CopyConverges(s0, acts, s, m, p, insts, usable);
    s' := AllCleared(s, m, p);
    forall n | n in Flatten(s'.cspis[p]) && Marked(s.claims, n) ensures s.claims[n].predecessor.value !in s'.claims {
      assert n in Pending(m, p);
    }
    forall n | n in Flatten(s'.cspis[p]) ensures !Marked(s'.claims, n) {
      assert n !in Pending(s', p);
    }
  }

  lemma ReachesRefl(s: State)
    ensures Reaches(s, s)
  {
    assert Run(s, [], s);
  }

  lemma SameLength(s: State)
    requires Inv(s)
    ensures |s.cspis| == |s.cspc|
  {
    hide WellFormed, ReviewsOk, MarksOk;
  }

  lemma MarkedUsable(s: State, usable: set<Device>)
    requires Inv(s) && usable == set d | d in s.claims && s.claims[d].owner == s.name
    ensures Usable(s, usable)
    ensures forall n :: n in Devices(s.cspc) && Marked(s.claims, n) ==>
              n in usable && n != "" && s.claims[n].predecessor != Some("")
  {
    hide WellFormed, Synced, ReviewsOk, CspisClaimed, Devices;
    NoEmptyName(s.cspc);
    forall n | n in Devices(s.cspc) && Marked(s.claims, n) ensures s.claims[n].predecessor != Some("") {
      assert n in Marks(s.claims, s.cspc);
    }
  }
}
