/** Exactly which edits let the pool-manager release the claim of a device in
  use: a condition on the state before the edit, and both directions. */
module ReplacementRelease {
  import opened Wrappers
  import opened Lists
  import opened RaidGroups
  import opened CspiSync
  import opened Replacement
  import opened ReplacementInvariant
  import opened ReplacementTheorems
  import opened ReplacementExact
  import opened ReplacementQuiet

  // ---------- the condition ----------

  /** The state with the edit annotated and stored. */
  ghost function StoredEdit(s: State, a: Action): State
    requires a.Admit?
  {
    s.(claims := AllAnnotated(s.claims, s.name, a.planned), cspc := a.after, version := s.version + 1)
  }

  /** The group is on the CSPI or can get there: no device of it belongs to
      another owner. */
  ghost predicate Arrives(t: State, p: nat, g: Group)
    requires p < |t.cspis|
  {
    Present(g, t.cspis[p]) || !Foreign(t.claims, t.name, g)
  }

  /** Device `n` of a group that arrives is annotated with a device that the new
      CSPC names; or it comes in by expansion, annotated with one on a CSPI. */
  ghost predicate Threat(s: State, a: Action, p: nat, g: Group, n: Device)
    requires a.Admit? && p < |s.cspis| && p < |a.matched|
  {
    var t := StoredEdit(s, a);
    && Marked(t.claims, n) && t.claims[n].predecessor != Some("")
    && (t.claims[n].predecessor.value in Devices(a.after) || (g !in a.matched[p] && OnSome(s.cspis, t.claims[n].predecessor.value)))
    && Arrives(t, p, g)
  }

  ghost predicate Endangers(s: State, a: Action)
    requires a.Admit?
  {
    exists p, k, n :: ThreatAt(s, a, p, k, n)
  }

  ghost predicate ThreatAt(s: State, a: Action, p: int, k: int, n: Device)
    requires a.Admit?
  {
    && 0 <= p < |a.after| && p < |s.cspis| && p < |a.matched|
    && 0 <= k < |a.after[p].data| && n in a.after[p].data[k]
    && Threat(s, a, p, a.after[p].data[k], n)
  }

  // ---------- what the CSPIs may lag by after the edit ----------

  /** The marks of the CSPC and the planned pairs. */
  ghost function Expected(s: State, a: Action, act: set<Device>): map<Device, Device>
    requires a.Admit?
  {
    Active(s.claims, act) + a.planned
  }

  /** What is known in a calm state. */
  lemma CalmFacts(s: State, act: set<Device>)
    requires Calm(s, act)
    ensures WellFormed(s.cspc) && CspisClaimed(s) && act <= Devices(s.cspc)
    ensures var marks := Active(s.claims, act); Synced(s.cspc, s.cspis, marks) && Injective(marks)
    ensures forall n :: n in Active(s.claims, act) ==> ActiveFacts(s, act, n)
  {
    hide WellFormed, Synced, CspisClaimed, Devices, OthersOk, Contained;
    forall n | n in Active(s.claims, act) ensures ActiveFacts(s, act, n) {
      var marks := Marks(s.claims, s.cspc);
      assert n in Devices(s.cspc);
      assert n in marks && marks[n] == Active(s.claims, act)[n] && marks[n] in marks.Values;
    }
  }

  ghost predicate ActiveFacts(s: State, act: set<Device>, n: Device)
    requires n in Active(s.claims, act)
  {
    var o := Active(s.claims, act)[n];
    && n in Marks(s.claims, s.cspc) && Marks(s.claims, s.cspc)[n] == o
    && o in Marks(s.claims, s.cspc).Values && o !in Devices(s.cspc) && !Marked(s.claims, o)
    && s.claims[n].owner == s.name
  }

  lemma ActiveValues(s: State, act: set<Device>, o: Device)
    requires Calm(s, act) && o in Active(s.claims, act).Values
    ensures o in Marks(s.claims, s.cspc).Values
  {
    hide Calm, Marks;
    CalmFacts(s, act);
    var n :| n in Active(s.claims, act) && Active(s.claims, act)[n] == o;
    assert ActiveFacts(s, act, n);
  }

  /** Each old group is kept or exchanges a planned pair, with no mark in it. */
  lemma CarriedActive(s: State, a: Action, act: set<Device>, p: nat, i: nat)
    requires Calm(s, act) && a.Admit? && CanAdmit(s, a) && p < |s.cspc| && i < |s.cspc[p].data|
    ensures p < |a.matched| && |a.matched[p]| == |s.cspc[p].data|
    ensures Carried(s.cspc[p].data[i], a.matched[p][i], a.planned, Active(s.claims, act))
  {
    hide Calm, CanAdmit, WellFormed, Marks;
    CalmFacts(s, act);
    LengthsAgree(s, a);
    SwapCarried(s, a, p, i);
    forall n | n in Active(s.claims, act) ensures n in Marks(s.claims, s.cspc) { assert ActiveFacts(s, act, n); }
  }

  lemma PlannedApart(s: State, a: Action, act: set<Device>, x: Device)
    requires Calm(s, act) && a.Admit? && CanAdmit(s, a) && x in a.planned
    ensures x !in Devices(s.cspc) && x !in Active(s.claims, act) && x !in Active(s.claims, act).Values
    ensures x in Devices(a.after) && a.planned[x] in Devices(s.cspc) && !Marked(s.claims, a.planned[x])
    ensures x in s.claims ==> s.claims[x].owner == s.name
  {
    hide Calm, CanAdmit, WellFormed, Devices, Marks;
    CalmFacts(s, act);
    PlannedFacts(s, a, x);
    if x in Active(s.claims, act).Values { ActiveValues(s, act, x); }
  }

  lemma ExpectedAt(s: State, a: Action, act: set<Device>, n: Device)
    requires Calm(s, act) && a.Admit? && CanAdmit(s, a) && n in Expected(s, a, act)
    ensures var t := StoredEdit(s, a);
      && n in Devices(a.after) && Marked(t.claims, n) && t.claims[n].predecessor.value == Expected(s, a, act)[n]
      && t.claims[n].owner == s.name && !Marked(t.claims, Expected(s, a, act)[n])
  {
    hide Calm, CanAdmit, Devices, WellFormed;
    CalmFacts(s, act);
    if n in a.planned {
      StoredMark(s, a, n);
      PlannedApart(s, a, act, n);
      InCspcNotPlanned(s, a, a.planned[n]);
    } else {
      assert ActiveFacts(s, act, n);
      StoredMark(s, a, n);
      var o := Active(s.claims, act)[n];
      if o in a.planned { PlannedFacts(s, a, o); }
    }
  }

  lemma InCspcNotPlanned(s: State, a: Action, y: Device)
    requires WellFormed(s.cspc) && a.Admit? && CanAdmit(s, a) && y in Devices(s.cspc)
    ensures y !in a.planned
  {
    hide CanAdmit, Devices, WellFormed;
    if y in a.planned { PlannedFacts(s, a, y); }
  }

  lemma ExpectedInjective(s: State, a: Action, act: set<Device>)
    requires Calm(s, act) && a.Admit? && CanAdmit(s, a)
    ensures Injective(Expected(s, a, act))
  {
    hide Calm, CanAdmit, Devices, Active, WellFormed;
    CalmFacts(s, act);
    var m := Expected(s, a, act);
    forall n, n' | n in m && n' in m && m[n] == m[n'] ensures n == n' {
      if n in a.planned { PlannedApart(s, a, act, n); } else { assert ActiveFacts(s, act, n); }
      if n' in a.planned { PlannedApart(s, a, act, n'); } else { assert ActiveFacts(s, act, n'); }
      if n in a.planned && n' in a.planned { PlanInjective(s, a, n, n'); }
    }
  }

  /** CSPI group `j` follows an old group and the new group that it becomes. */
  lemma FollowsMatch(s: State, a: Action, act: set<Device>, p: nat, j: nat) returns (i: nat, k: nat)
    requires Calm(s, act) && a.Admit? && CanAdmit(s, a) && p < |s.cspis| && j < |s.cspis[p]|
    ensures p < |s.cspc| == |a.after| == |a.matched| && i < |s.cspc[p].data| == |a.matched[p]| && k < |a.after[p].data|
    ensures a.matched[p][i] == a.after[p].data[k] && Follows(s.cspc[p].data[i], s.cspis[p][j], Active(s.claims, act))
    ensures Follows(a.after[p].data[k], s.cspis[p][j], Expected(s, a, act))
  {
    hide Calm, WellFormed, Lagging, Follows, Carried, CanAdmit, Devices;
    LengthsAgree(s, a);
    CalmFacts(s, act);
    var marks := Active(s.claims, act);
    assert Lagging(s.cspc[p].data, s.cspis[p], marks);
    i := Followed(s.cspc[p].data, s.cspis[p], marks, j);
    CarriedActive(s, a, act, p, i);
    k := MatchOf(s, a, p, i);
    forall x | x in a.planned ensures x !in marks { PlannedApart(s, a, act, x); }
    CarriedFollows(s.cspc[p].data[i], a.after[p].data[k], s.cspis[p][j], a.planned, marks, map[]);
    assert marks + a.planned + map[] == Expected(s, a, act);
  }

  /** The group that holds an expected mark is matched with an old one. */
  lemma ExpectedIsMatched(s: State, a: Action, act: set<Device>, p: nat, k: nat, n: Device) returns (i: nat)
    requires Calm(s, act) && a.Admit? && CanAdmit(s, a) && n in Expected(s, a, act)
    requires p < |a.after| && k < |a.after[p].data| && n in a.after[p].data[k]
    ensures p < |s.cspc| == |a.matched| && i < |s.cspc[p].data| == |a.matched[p]| && a.matched[p][i] == a.after[p].data[k]
  {
    hide Calm, CanAdmit, Devices, Carried, WellFormed, Unique, AllDevices;
    LengthsAgree(s, a);
    MatchedLength(s, a, p);
    if a.after[p].data[k] !in a.matched[p] {
      UnmatchedHasNoMark(s, a, act, p, k, n);
      assert false;
    }
    var i': int :| 0 <= i' < |a.matched[p]| && a.matched[p][i'] == a.after[p].data[k];
    i := i';
  }

  lemma UnmatchedHasNoMark(s: State, a: Action, act: set<Device>, p: nat, k: nat, n: Device)
    requires Calm(s, act) && a.Admit? && CanAdmit(s, a) && p < |a.after| == |a.matched| && k < |a.after[p].data|
    requires a.after[p].data[k] !in a.matched[p] && n in a.after[p].data[k]
    ensures n !in Expected(s, a, act)
  {
    hide Calm, CanAdmit, Devices, WellFormed;
    CalmFacts(s, act);
    assert n in Unmatched(a);
    UnmatchedDevice(s, a, n);
    if n in Active(s.claims, act) {
      assert ActiveFacts(s, act, n);
      var x :| x in a.planned && a.planned[x] == n;
      PlannedFacts(s, a, x);
    }
  }

  /** A marked device of the stored CSPC that is not expected comes in by
      expansion, or was marked in a group that the edit does not change. */
  lemma UnexpectedIsOld(s: State, a: Action, act: set<Device>, p: nat, k: nat, n: Device) returns (i: nat)
    requires Calm(s, act) && a.Admit? && CanAdmit(s, a) && n !in Expected(s, a, act) && Marked(StoredEdit(s, a).claims, n)
    requires p < |a.after| == |a.matched| && k < |a.after[p].data| && n in a.after[p].data[k] && a.after[p].data[k] in a.matched[p]
    ensures p < |s.cspc| && i < |s.cspc[p].data| && n in s.cspc[p].data[i] && Elems(a.after[p].data[k]) == Elems(s.cspc[p].data[i])
    ensures Marked(s.claims, n) && StoredEdit(s, a).claims[n] == s.claims[n] && n !in act
  {
    hide Calm, CanAdmit, WellFormed, Marks, Devices, Carried, AllAnnotated;
    CalmFacts(s, act);
    LengthsAgree(s, a);
    MatchedLength(s, a, p);
    var i': int :| 0 <= i' < |a.matched[p]| && a.matched[p][i'] == a.after[p].data[k];
    i := i';
    SwapCarried(s, a, p, i);
    MarkedBefore(s, a, act, n);
    OldMarked(s.cspc, s.claims, p, i, a.after[p].data[k], a.planned, n);
  }

  lemma MarkedBefore(s: State, a: Action, act: set<Device>, n: Device)
    requires a.Admit? && n !in Expected(s, a, act) && Marked(StoredEdit(s, a).claims, n)
    ensures Marked(s.claims, n) && StoredEdit(s, a).claims[n] == s.claims[n] && n !in act && n !in a.planned
  {
    hide Marks, Devices;
  }

  /** A group with a marked device is kept as it is. */
  lemma OldMarked(cspc: Cspc, claims: map<Device, Claim>, p: nat, i: nat, g: Group, plan: map<Device, Device>, n: Device)
    requires p < |cspc| && i < |cspc[p].data| && Carried(cspc[p].data[i], g, plan, Marks(claims, cspc))
    requires n in g && n !in plan && Marked(claims, n)
    ensures n in cspc[p].data[i] && Elems(g) == Elems(cspc[p].data[i])
  {
    assert n in Elems(g);
    assert n in Elems(cspc[p].data[i]);
    assert n in Devices(cspc);
  }

  // ---------- without a threat the stored state is quiet ----------

  /** The expected replacements whose predecessor leaves the CSPC. */
  ghost function Leaving(s: State, a: Action, act: set<Device>): set<Device>
    requires a.Admit?
  {
    set n | n in Expected(s, a, act) && Expected(s, a, act)[n] !in Devices(a.after)
  }

  lemma LeavingMarks(s: State, a: Action, act: set<Device>)
    requires Calm(s, act) && a.Admit? && CanAdmit(s, a)
    ensures var marks := Active(StoredEdit(s, a).claims, Leaving(s, a, act));
      && marks.Keys == Leaving(s, a, act) && forall n :: n in marks ==> marks[n] == Expected(s, a, act)[n]
  {
    hide Calm, CanAdmit, Devices, StoredEdit, Expected;
    forall n | n in Leaving(s, a, act)
      ensures Marked(StoredEdit(s, a).claims, n) && StoredEdit(s, a).claims[n].predecessor.value == Expected(s, a, act)[n]
    {
      ExpectedAt(s, a, act, n);
    }
  }

  lemma LeavingFollows(s: State, a: Action, act: set<Device>, p: nat, j: nat)
    requires Calm(s, act) && a.Admit? && CanAdmit(s, a) && !Endangers(s, a) && p < |s.cspis| && j < |s.cspis[p]|
    ensures p < |a.after| && FollowsSome(a.after[p].data, s.cspis[p][j], Active(StoredEdit(s, a).claims, Leaving(s, a, act)))
  {
    hide Calm, CanAdmit, Devices, Expected, Active;
    var i, k := FollowsMatch(s, a, act, p, j);
    LeavingMarks(s, a, act);
    var g, h := a.after[p].data[k], s.cspis[p][j];
    var marks := Active(StoredEdit(s, a).claims, Leaving(s, a, act));
    if Elems(h) != Elems(g) {
      var z :| z in Expected(s, a, act) && Lags(g, h, z, Expected(s, a, act)[z]);
      ExpectedAt(s, a, act, z);
      LagOverlaps(s, a, p, k, g, h, z);
      NamedInCspc(s, a, Expected(s, a, act)[z]);
      assert !ThreatAt(s, a, p, k, z);
      assert z in marks && Lags(g, h, z, marks[z]);
    }
    assert Follows(g, h, marks);
  }

  lemma NamedInCspc(s: State, a: Action, e: Device)
    requires a.Admit? && CanAdmit(s, a)
    ensures e in Devices(a.after) ==> e != ""
  {
    hide CanAdmit, Devices, WellFormed;
    LengthsAgree(s, a);
    NoEmptyName(a.after);
  }

  lemma LagOverlaps(s: State, a: Action, p: nat, k: nat, g: Group, h: Group, z: Device)
    requires a.Admit? && CanAdmit(s, a) && p < |a.after| && k < |a.after[p].data| && g == a.after[p].data[k]
    requires z in g && Elems(g) - {z} <= Elems(h)
    ensures Overlap(g, h)
  {
    hide AllDevices, Unique;
    SpecDisjoint(a.after, p);
    assert g[0] != g[1] by { TwoDevices(a.after, p, k); }
    var b := if g[0] == z then g[1] else g[0];
    assert b in Elems(g);
    assert b in Elems(h);
  }

  lemma TwoDevices(cspc: Cspc, p: nat, k: nat)
    requires WellFormed(cspc) && p < |cspc| && k < |cspc[p].data|
    ensures |cspc[p].data[k]| >= 2 && cspc[p].data[k][0] != cspc[p].data[k][1]
  {
    hide AllDevices;
    SpecDisjoint(cspc, p);
    assert Unique(cspc[p].data[k]);
  }

  lemma LeavingOneMark(s: State, a: Action, act: set<Device>, p: nat, k: nat)
    requires Calm(s, act) && a.Admit? && CanAdmit(s, a) && p < |a.after| && k < |a.after[p].data|
    ensures OneMark(a.after[p].data[k], Expected(s, a, act))
  {
    hide Calm, WellFormed, CanAdmit, Devices, Disjoint, FollowsSome, Carried;
    LengthsAgree(s, a);
    CalmFacts(s, act);
    var g, marks := a.after[p].data[k], Active(s.claims, act);
    if a.after[p].data[k] in a.matched[p] {
      MatchedLength(s, a, p);
      var i: int :| 0 <= i < |a.matched[p]| && a.matched[p][i] == g;
      CarriedActive(s, a, act, p, i);
      assert Lagging(s.cspc[p].data, s.cspis[p], marks);
      assert OneMark(s.cspc[p].data[i], marks);
      forall x | x in a.planned ensures x !in Devices(s.cspc) { PlannedFacts(s, a, x); }
      CarriedMarks(s.cspc, p, i, g, a.planned, marks, map[]);
      assert marks + a.planned + map[] == Expected(s, a, act);
    } else {
      forall n | n in g ensures n !in Expected(s, a, act) { UnmatchedHasNoMark(s, a, act, p, k, n); }
    }
  }

  lemma LeavingSynced(s: State, a: Action, act: set<Device>)
    requires Calm(s, act) && a.Admit? && CanAdmit(s, a) && !Endangers(s, a)
    ensures Synced(a.after, s.cspis, Active(StoredEdit(s, a).claims, Leaving(s, a, act)))
  {
    hide Calm, CanAdmit, Expected, Active, Endangers, Unique, AllDevices;
    LengthsAgree(s, a);
    SameNumber(s, act);
    LeavingMarks(s, a, act);
    var marks := Active(StoredEdit(s, a).claims, Leaving(s, a, act));
    forall p | 0 <= p < |a.after| ensures Lagging(a.after[p].data, s.cspis[p], marks) {
      var specs := a.after[p].data;
      SpecDisjoint(a.after, p);
      CspiDisjoint(s, act, p);
      forall i | 0 <= i < |specs| ensures |specs[i]| >= 2 && OneMark(specs[i], marks) {
        TwoDevices(a.after, p, i);
        LeavingOneMark(s, a, act, p, i);
      }
      forall j | 0 <= j < |s.cspis[p]| ensures FollowsSome(specs, s.cspis[p][j], marks) { LeavingFollows(s, a, act, p, j); }
    }
  }

  lemma SameNumber(s: State, act: set<Device>)
    requires Calm(s, act)
    ensures |s.cspis| == |s.cspc|
  {
    hide Calm, WellFormed, CspisClaimed, Lagging;
    CalmFacts(s, act);
  }

  lemma CspiDisjoint(s: State, act: set<Device>, p: nat)
    requires Calm(s, act) && p < |s.cspis|
    ensures Disjoint(s.cspis[p])
  {
    hide Calm, WellFormed, CspisClaimed, Unique, OneMark, FollowsSome;
    CalmFacts(s, act);
    assert Lagging(s.cspc[p].data, s.cspis[p], Active(s.claims, act));
  }

  lemma LeavingOk(s: State, a: Action, act: set<Device>)
    requires Calm(s, act) && a.Admit? && CanAdmit(s, a) && !Endangers(s, a)
    ensures ActiveOk(StoredEdit(s, a), Leaving(s, a, act))
  {
    hide Calm, CanAdmit, Expected, Active, Endangers, Devices, Synced;
    LeavingSynced(s, a, act);
    LeavingMarks(s, a, act);
    ExpectedInjective(s, a, act);
    forall n | n in Leaving(s, a, act)
      ensures n in Devices(a.after) && !Marked(StoredEdit(s, a).claims, Expected(s, a, act)[n])
      ensures Marked(StoredEdit(s, a).claims, n) && StoredEdit(s, a).claims[n].owner == s.name
    {
      ExpectedAt(s, a, act, n);
    }
  }

  lemma StoredQuiet(s: State, a: Action, act: set<Device>)
    requires Calm(s, act) && a.Admit? && CanAdmit(s, a) && !Endangers(s, a)
    ensures Quiet(StoredEdit(s, a), Leaving(s, a, act), OnCspis(s))
  {
    hide Calm, CanAdmit, ActiveOk, WellFormed, Devices, Marked, Arrives;
    var t, start := StoredEdit(s, a), OnCspis(s);
    LengthsAgree(s, a);
    CalmFacts(s, act);
    LeavingOk(s, a, act);
    AnnotatedKeys(s.claims, s.name, a.planned);
    ClaimedSame(s, t);
    forall p, i, n | 0 <= p < |t.cspc| && p < |t.cspis| && 0 <= i < |t.cspc[p].data| && n in t.cspc[p].data[i]
      ensures OtherOk(t, Leaving(s, a, act), start, p, t.cspc[p].data[i], n)
    {
      StoredOther(s, a, act, p, i, n);
    }
  }

  lemma StoredOther(s: State, a: Action, act: set<Device>, p: nat, i: nat, n: Device)
    requires Calm(s, act) && a.Admit? && CanAdmit(s, a) && !Endangers(s, a)
    requires p < |a.after| && p < |s.cspis| && i < |a.after[p].data| && n in a.after[p].data[i]
    ensures OtherOk(StoredEdit(s, a), Leaving(s, a, act), OnCspis(s), p, a.after[p].data[i], n)
  {
    hide Calm, CanAdmit, WellFormed, Devices, Expected, AllAnnotated, Foreign, Present;
    LengthsAgree(s, a);
    var t := StoredEdit(s, a);
    if n !in Leaving(s, a, act) && Marked(t.claims, n) && !Tame(t, OnCspis(s), n) {
      var e := t.claims[n].predecessor.value;
      if e in OnCspis(s) {
        var q, j :| 0 <= q < |s.cspis| && 0 <= j < |s.cspis[q]| && e in s.cspis[q][j];
        assert OnCspi(s.cspis, q, e);
      }
      assert !ThreatAt(s, a, p, i, n);
      if n in Expected(s, a, act) {
        ExpectedAt(s, a, act, n);
      } else if a.after[p].data[i] in a.matched[p] {
        StoredOld(s, a, act, p, i, n);
      }
    }
  }

  /** A leftover annotation in a group that the edit keeps. */
  lemma StoredOld(s: State, a: Action, act: set<Device>, p: nat, i: nat, n: Device)
    requires Calm(s, act) && a.Admit? && CanAdmit(s, a) && n !in Expected(s, a, act) && Marked(StoredEdit(s, a).claims, n)
    requires p < |a.after| == |a.matched| && p < |s.cspis| && i < |a.after[p].data| && n in a.after[p].data[i]
    requires a.after[p].data[i] in a.matched[p]
    ensures var e := StoredEdit(s, a).claims[n].predecessor.value;
      e == "" || e !in OnCspis(s) || Shut(StoredEdit(s, a), p, a.after[p].data[i])
  {
    hide CanAdmit, WellFormed, Devices, Expected, AllAnnotated, ActiveOk, Foreign, Present, CspisClaimed, Contained;
    var k := UnexpectedIsOld(s, a, act, p, i, n);
    assert OtherOk(s, act, OnCspis(s), p, s.cspc[p].data[k], n);
    if Shut(s, p, s.cspc[p].data[k]) { ShutStays(s, a, p, s.cspc[p].data[k], a.after[p].data[i]); }
  }

  lemma ShutStays(s: State, a: Action, p: nat, g: Group, g': Group)
    requires a.Admit? && p < |s.cspis| && Shut(s, p, g) && Elems(g') == Elems(g)
    ensures Shut(StoredEdit(s, a), p, g')
  {
    AnnotatedKeys(s.claims, s.name, a.planned);
    var b :| b in g && b in s.claims && s.claims[b].owner != s.name;
    assert b in Elems(g) && b in g';
    forall m | 0 <= m < |s.cspis[p]| ensures !Overlap(g', s.cspis[p][m]) {
      forall d | d in g' ensures d !in s.cspis[p][m] {
        assert d in Elems(g') && d in Elems(g);
        assert !Overlap(g, s.cspis[p][m]);
      }
    }
  }

  // ---------- with a threat a device in use can be released ----------

  lemma FreesLater(s: State, a: Action, s': State)
    requires Upkeep(a) && Step(s, a, s') && MayFreeInUse(s')
    ensures MayFreeInUse(s)
  {
    hide Step, FreesInUse;
    var acts, m, b, m' :| UpkeepRun(s', acts, m) && FreesInUse(m, b, m');
    assert ([a] + acts)[1..] == acts;
    assert UpkeepRun(s, [a] + acts, m);
  }

  /** The annotated device is on a CSPI, its predecessor in use and claimed. */
  lemma FreesNow(t: State, p: nat, n: Device)
    requires OnCspi(t.cspis, p, n) && Marked(t.claims, n) && t.claims[n].predecessor != Some("")
    requires t.claims[n].predecessor.value in t.claims && InUse(t, t.claims[n].predecessor.value)
    ensures MayFreeInUse(t)
  {
    hide OnCspi, InUse;
    var e := t.claims[n].predecessor.value;
    var a, t' := ReleaseOld(p, n, n, {n}), t.(claims := t.claims - {e});
    assert Step(t, a, t');
    assert FreesInUse(t, a, t');
    assert UpkeepRun(t, [], t);
  }

  lemma FreesOnceClaimed(t: State, p: nat, n: Device)
    requires OnCspi(t.cspis, p, n) && Marked(t.claims, n) && t.claims[n].predecessor != Some("")
    requires var e := t.claims[n].predecessor.value; e in Devices(t.cspc) || (OnSome(t.cspis, e) && e in t.claims)
    ensures MayFreeInUse(t)
  {
    hide OnCspi, OnSome, MayFreeInUse, Devices;
    var e := t.claims[n].predecessor.value;
    if e in t.claims {
      FreesNow(t, p, n);
    } else {
      var t' := t.(claims := t.claims[e := Claim(t.name, None)]);
      assert Step(t, ClaimExpansion(e), t');
      FreesNow(t', p, n);
      FreesLater(t, ClaimExpansion(e), t');
    }
  }

  // a pass that copies one device

  /** With a single usable device, groups without it stay as they are. */
  lemma {:induction false} IdlePass(specs: seq<Group>, insts: seq<Group>, n: Device)
    requires forall i :: 0 <= i < |specs| ==> n !in specs[i]
    ensures CopyGroups(specs, insts, insts, {n})
    decreases |specs|
  {
    hide ListDiff;
    if specs != [] {
      IdleGroup(specs[0], insts, n);
      IdlePass(specs[1..], insts, n);
    }
  }

  lemma IdleGroup(g: Group, insts: seq<Group>, n: Device)
    requires n !in g
    ensures CopyGroup(g, insts, insts, {n})
  {
    hide ListDiff;
    var j := FindReplaced(g, insts);
    if j >= 0 {
      assert insts[j := insts[j]] == insts;
      if Elems(g) - Elems(insts[j]) != {} {
        var d :| d in Elems(g) - Elems(insts[j]);
        assert d in g && d !in {n};
      }
    }
  }

  lemma {:induction false} OneCopied(specs: seq<Group>, insts: seq<Group>, insts': seq<Group>, n: Device, k: nat)
    requires k < |specs| && CopyGroup(specs[k], insts, insts', {n})
    requires forall i :: 0 <= i < |specs| && i != k ==> n !in specs[i]
    ensures CopyGroups(specs, insts, insts', {n})
    decreases |specs|
  {
    hide CopyGroup;
    if k == 0 {
      IdlePass(specs[1..], insts', n);
    } else {
      IdleGroup(specs[0], insts, n);
      OneCopied(specs[1..], insts, insts', n, k - 1);
    }
  }

  lemma CopyBrings(g: Group, insts: seq<Group>, j: nat, n: Device, e: Device) returns (insts': seq<Group>)
    requires j < |insts| && Unique(g) && Unique(insts[j]) && Lags(g, insts[j], n, e) && n !in insts[j]
    requires forall k :: 0 <= k < |insts| && k != j ==> |ListDiff(insts[k], g)| != 1
    ensures |insts'| == |insts| && n in insts'[j] && CopyGroup(g, insts, insts', {n})
  {
    hide ListDiff, Unique;
    var h := insts[j];
    LagCard(g, h, n, e);
    assert FindReplaced(g, insts) == j;
    assert e in Elems(h) - Elems(g) && n in Elems(g) - Elems(h);
    var t :| 0 <= t < |h| && h[t] == e;
    insts' := insts[j := h[t := n]];
    assert insts'[j][t] == n;
    assert Overwritten(h, insts'[j], n, e);
  }

  /** A CSPI group that follows another old group shares nothing with the match
      of this one. */
  lemma ApartFromMatch(s: State, a: Action, act: set<Device>, p: nat, i: nat, i': nat, j: nat)
    requires Calm(s, act) && a.Admit? && CanAdmit(s, a) && p < |s.cspis| && p < |s.cspc| && p < |a.matched| && j < |s.cspis[p]|
    requires i < |s.cspc[p].data| && i < |a.matched[p]| && i' < |s.cspc[p].data| && i' != i
    requires Follows(s.cspc[p].data[i'], s.cspis[p][j], Active(s.claims, act))
    ensures !Overlap(a.matched[p][i], s.cspis[p][j]) && |ListDiff(s.cspis[p][j], a.matched[p][i])| != 1
  {
    hide Calm, WellFormed, CspisClaimed, CanAdmit, Lagging, Unique, ListDiff, Follows, Active;
    CalmFacts(s, act);
    var marks, h, g := Active(s.claims, act), s.cspis[p][j], a.matched[p][i];
    assert Lagging(s.cspc[p].data, s.cspis[p], marks);
    CarriedActive(s, a, act, p, i);
    FollowersAvoid(s.cspc[p].data, s.cspis[p], marks, i, i', j);
    LaggingParts(s.cspc[p].data, s.cspis[p], marks);
    FollowsSize(s.cspc[p].data[i'], h, marks);
    forall d | d in g ensures d !in h {
      if d !in s.cspc[p].data[i] {
        assert d in Elems(g) && d !in Elems(s.cspc[p].data[i]);
        assert d in a.planned;
        PlannedApart(s, a, act, d);
        FollowerDevice(s.cspc, p, i', h, marks, d);
      }
    }
    ElemsCard(h);
    ListDiffUnique(h, g);
    assert Elems(h) - Elems(g) == Elems(h);
  }

  lemma FollowerDevice(cspc: Cspc, p: nat, i: nat, h: Group, marks: map<Device, Device>, d: Device)
    requires p < |cspc| && i < |cspc[p].data| && Follows(cspc[p].data[i], h, marks) && d !in Devices(cspc) && d !in marks.Values
    ensures d !in h
  {
    assert d !in cspc[p].data[i];
    assert d in h ==> d in Elems(h);
  }

  /** The CSPI group that lags by an expected mark catches up. */
  lemma ThreatByCopy(s: State, a: Action, act: set<Device>, p: nat, k: nat, n: Device)
    requires Calm(s, act) && a.Admit? && CanAdmit(s, a) && n in Expected(s, a, act) && Expected(s, a, act)[n] in Devices(a.after)
    requires p < |a.after| && p < |s.cspis| && k < |a.after[p].data| && n in a.after[p].data[k]
    requires Present(a.after[p].data[k], s.cspis[p]) && !OnCspi(s.cspis, p, n)
    ensures MayFreeInUse(StoredEdit(s, a))
  {
    hide Calm, CanAdmit, MayFreeInUse, Devices, Expected, CopyGroup, ListDiff, WellFormed, Unique, AllDevices, FindReplaced;
    var t, g, insts := StoredEdit(s, a), a.after[p].data[k], s.cspis[p];
    LengthsAgree(s, a);
    ExpectedAt(s, a, act, n);
    NamedInCspc(s, a, Expected(s, a, act)[n]);
    var j := LaggingGroup(s, a, act, p, k, n);
    SpecDisjoint(a.after, p);
    CspiDisjoint(s, act, p);
    var insts' := CopyBrings(g, insts, j, n, Expected(s, a, act)[n]);
    OneCopied(a.after[p].data, insts, insts', n, k);
    var t' := t.(cspis := t.cspis[p := insts']);
    assert Step(t, Copy(p, insts', {n}), t');
    assert OnCspi(t'.cspis, p, n) by { assert n in t'.cspis[p][j]; }
    FreesOnceClaimed(t', p, n);
    FreesLater(t, Copy(p, insts', {n}), t');
  }

  lemma LaggingGroup(s: State, a: Action, act: set<Device>, p: nat, k: nat, n: Device) returns (j: nat)
    requires Calm(s, act) && a.Admit? && CanAdmit(s, a) && n in Expected(s, a, act)
    requires p < |a.after| && p < |s.cspis| && k < |a.after[p].data| && n in a.after[p].data[k]
    requires Present(a.after[p].data[k], s.cspis[p]) && !OnCspi(s.cspis, p, n)
    ensures j < |s.cspis[p]| && n !in s.cspis[p][j] && Lags(a.after[p].data[k], s.cspis[p][j], n, Expected(s, a, act)[n])
    ensures forall m :: 0 <= m < |s.cspis[p]| && m != j ==> |ListDiff(s.cspis[p][m], a.after[p].data[k])| != 1
  {
    hide Calm, CanAdmit, Devices, Expected, ListDiff;
    var g := a.after[p].data[k];
    var i := ExpectedIsMatched(s, a, act, p, k, n);
    var j': int :| 0 <= j' < |s.cspis[p]| && Overlap(g, s.cspis[p][j']);
    j := j';
    var i', k' := FollowsMatch(s, a, act, p, j);
    if i' != i {
      ApartFromMatch(s, a, act, p, i, i', j);
      assert false;
    }
    var h := s.cspis[p][j];
    assert n in Elems(g) && n !in Elems(h);
    var z :| z in Expected(s, a, act) && Lags(g, h, z, Expected(s, a, act)[z]);
    assert z == n;
    forall m | 0 <= m < |s.cspis[p]| && m != j ensures |ListDiff(s.cspis[p][m], g)| != 1 {
      var i2, k2 := FollowsMatch(s, a, act, p, m);
      if i2 == i { FollowOnce(s, act, p, i, j, m); }
      ApartFromMatch(s, a, act, p, i, i2, m);
    }
  }

  lemma FollowOnce(s: State, act: set<Device>, p: nat, i: nat, j: nat, k: nat)
    requires Calm(s, act) && p < |s.cspc| && p < |s.cspis| && i < |s.cspc[p].data| && j < |s.cspis[p]| && k < |s.cspis[p]|
    requires Follows(s.cspc[p].data[i], s.cspis[p][j], Active(s.claims, act))
    requires Follows(s.cspc[p].data[i], s.cspis[p][k], Active(s.claims, act))
    ensures j == k
  {
    hide Calm, WellFormed, CspisClaimed, Lagging, Follows;
    CalmFacts(s, act);
    assert Lagging(s.cspc[p].data, s.cspis[p], Active(s.claims, act));
    FollowsOnce(s.cspc[p].data, s.cspis[p], Active(s.claims, act), i, j, k);
  }

  // a group that is added

  /** Devices of the CSPC without a claim can be claimed. */
  lemma {:induction false} FreesAfterClaims(t: State, todo: set<Device>)
    requires todo <= Devices(t.cspc) && todo !! t.claims.Keys
    requires MayFreeInUse(t.(claims := t.claims + map d | d in todo :: Claim(t.name, None)))
    ensures MayFreeInUse(t)
    decreases |todo|
  {
    hide MayFreeInUse, Devices;
    if todo == {} {
      assert t.claims + (map d | d in todo :: Claim(t.name, None)) == t.claims;
    } else {
      var d :| d in todo;
      var t' := t.(claims := t.claims[d := Claim(t.name, None)]);
      var rest := todo - {d};
      assert t.claims + (map x | x in todo :: Claim(t.name, None)) == t'.claims + map x | x in rest :: Claim(t.name, None);
      FreesAfterClaims(t', rest);
      assert Step(t, ClaimExpansion(d), t');
      FreesLater(t, ClaimExpansion(d), t');
    }
  }

  /** With the devices of one group usable, no other group is added. */
  lemma {:induction false} NoneAdded(specs: seq<Group>, insts: seq<Group>, g: Group)
    requires forall i :: 0 <= i < |specs| ==> specs[i] != [] && !Overlap(specs[i], g)
    ensures Expanded(specs, insts, Elems(g)) == insts
    decreases |specs|
  {
    if specs != [] {
      assert specs[0][0] in Elems(specs[0]);
      assert specs[0][0] !in Elems(g);
      NoneAdded(specs[1..], insts, g);
    }
  }

  lemma {:induction false} OneAdded(specs: seq<Group>, insts: seq<Group>, k: nat)
    requires k < |specs| && !Present(specs[k], insts)
    requires forall i :: 0 <= i < |specs| ==> specs[i] != [] && (i != k ==> !Overlap(specs[i], specs[k]))
    ensures Expanded(specs, insts, Elems(specs[k])) == insts + [specs[k]]
    decreases |specs|
  {
    if k == 0 {
      NoneAdded(specs[1..], insts + [specs[0]], specs[0]);
    } else {
      assert specs[0][0] in Elems(specs[0]);
      assert specs[0][0] !in Elems(specs[k]);
      OneAdded(specs[1..], insts, k - 1);
    }
  }

  function Range(n: nat): (r: set<int>)
    ensures |r| == n && forall k :: k in r <==> 0 <= k < n
  {
    if n == 0 then {} else Range(n - 1) + {n - 1}
  }

  /** Different CSPI groups follow different new groups. */
  lemma {:induction false} FollowedGroups(s: State, a: Action, act: set<Device>, p: nat, m: nat) returns (ks: set<int>)
    requires Calm(s, act) && a.Admit? && CanAdmit(s, a) && p < |s.cspis| && p < |a.after| && m <= |s.cspis[p]|
    ensures |ks| == m
    ensures forall k :: k in ks ==> 0 <= k < |a.after[p].data| && FollowedBy(s, a, act, p, k, m)
    decreases m
  {
    hide Calm, CanAdmit, Expected, Follows;
    if m == 0 {
      ks := {};
    } else {
      var before := FollowedGroups(s, a, act, p, m - 1);
      var i, k := FollowsMatch(s, a, act, p, m - 1);
      if k in before {
        var j :| 0 <= j < m - 1 && Follows(a.after[p].data[k], s.cspis[p][j], Expected(s, a, act));
        FollowedOnce(s, a, act, p, k, j, m - 1);
      }
      ks := before + {k};
      forall k' | k' in before ensures FollowedBy(s, a, act, p, k', m) {
        assert FollowedBy(s, a, act, p, k', m - 1);
      }
      assert FollowedBy(s, a, act, p, k, m);
    }
  }

  ghost predicate FollowedBy(s: State, a: Action, act: set<Device>, p: nat, k: int, m: nat)
    requires a.Admit? && p < |s.cspis| && p < |a.after| && m <= |s.cspis[p]| && 0 <= k < |a.after[p].data|
  {
    exists j :: 0 <= j < m && Follows(a.after[p].data[k], s.cspis[p][j], Expected(s, a, act))
  }

  lemma FollowedShares(s: State, a: Action, act: set<Device>, p: nat, k: nat, h: Group) returns (d: Device)
    requires Calm(s, act) && a.Admit? && CanAdmit(s, a) && p < |a.after| && k < |a.after[p].data|
    requires Follows(a.after[p].data[k], h, Expected(s, a, act))
    ensures d in a.after[p].data[k] && d in h && d !in Expected(s, a, act)
  {
    hide Calm, CanAdmit, Expected, Follows, Unique, AllDevices;
    LengthsAgree(s, a);
    SpecDisjoint(a.after, p);
    TwoDevices(a.after, p, k);
    LeavingOneMark(s, a, act, p, k);
    d := FollowsShares(a.after[p].data[k], h, Expected(s, a, act));
  }

  lemma FollowedOnce(s: State, a: Action, act: set<Device>, p: nat, k: nat, j: nat, m: nat)
    requires Calm(s, act) && a.Admit? && CanAdmit(s, a) && p < |s.cspis| && p < |a.after| && k < |a.after[p].data|
    requires j < |s.cspis[p]| && m < |s.cspis[p]|
    requires Follows(a.after[p].data[k], s.cspis[p][j], Expected(s, a, act)) && Follows(a.after[p].data[k], s.cspis[p][m], Expected(s, a, act))
    ensures j == m
  {
    hide Calm, CanAdmit, Expected, Unique;
    var d := FollowedShares(s, a, act, p, k, s.cspis[p][j]);
    assert d in Elems(a.after[p].data[k]);
    assert d in Elems(s.cspis[p][m]);
    CspiDisjoint(s, act, p);
    assert Overlap(s.cspis[p][j], s.cspis[p][m]);
  }

  /** A new group that is not on the CSPI yet leaves room for it. */
  lemma RoomLeft(s: State, a: Action, act: set<Device>, p: nat, k: nat)
    requires Calm(s, act) && a.Admit? && CanAdmit(s, a) && p < |s.cspis| && p < |a.after| && k < |a.after[p].data|
    requires !Present(a.after[p].data[k], s.cspis[p])
    ensures |a.after[p].data| > |s.cspis[p]|
  {
    hide Calm, CanAdmit, Expected, Follows;
    var m := |s.cspis[p]|;
    var ks := FollowedGroups(s, a, act, p, m);
    if k in ks {
      var j :| 0 <= j < m && Follows(a.after[p].data[k], s.cspis[p][j], Expected(s, a, act));
      var d := FollowedShares(s, a, act, p, k, s.cspis[p][j]);
    }
    SubsetCard(ks + {k}, Range(|a.after[p].data|));
  }

  /** A group that is not on the CSPI and has no foreign device is added. */
  lemma ThreatByExpansion(s: State, a: Action, act: set<Device>, p: nat, k: nat, n: Device)
    requires Calm(s, act) && a.Admit? && CanAdmit(s, a) && p < |s.cspis| && p < |a.after| && k < |a.after[p].data|
    requires n in a.after[p].data[k] && !Present(a.after[p].data[k], s.cspis[p])
    requires var t := StoredEdit(s, a);
      && !Foreign(t.claims, t.name, a.after[p].data[k]) && Marked(t.claims, n) && t.claims[n].predecessor != Some("")
      && (t.claims[n].predecessor.value in Devices(a.after) || OnSome(s.cspis, t.claims[n].predecessor.value))
    ensures MayFreeInUse(StoredEdit(s, a))
  {
    hide Calm, CanAdmit, MayFreeInUse, Devices, Expanded, Present, AllAnnotated, OnSome;
    var t, g := StoredEdit(s, a), a.after[p].data[k];
    var e := t.claims[n].predecessor.value;
    LengthsAgree(s, a);
    RoomLeft(s, a, act, p, k);
    var todo := set d | d in g && d !in t.claims;
    var t1 := t.(claims := t.claims + map d | d in todo :: Claim(t.name, None));
    var t2 := t1.(cspis := t1.cspis[p := s.cspis[p] + [g]]);
    GroupAdded(a.after, s.cspis[p], p, k);
    assert Usable(t1, Elems(g));
    assert Step(t1, Expand(p, Elems(g)), t2);
    assert OnCspi(t2.cspis, p, n) by { assert n in t2.cspis[p][|s.cspis[p]|]; }
    if OnSome(s.cspis, e) {
      StillOn(s.cspis, p, g, e);
      ClaimedOnSome(s, a, act, e);
    }
    FreesOnceClaimed(t2, p, n);
    FreesLater(t1, Expand(p, Elems(g)), t2);
    forall d | d in todo ensures d in Devices(t.cspc) { InGroup(a.after, p, k, d); }
    FreesAfterClaims(t, todo);
  }

  lemma InGroup(cspc: Cspc, p: nat, k: nat, d: Device)
    requires p < |cspc| && k < |cspc[p].data| && d in cspc[p].data[k]
    ensures d in Devices(cspc)
  {
  }

  lemma GroupAdded(after: Cspc, insts: seq<Group>, p: nat, k: nat)
    requires WellFormed(after) && p < |after| && k < |after[p].data| && !Present(after[p].data[k], insts)
    ensures Expanded(after[p].data, insts, Elems(after[p].data[k])) == insts + [after[p].data[k]]
  {
    hide Unique, AllDevices, Present, Expanded;
    SpecDisjoint(after, p);
    OneAdded(after[p].data, insts, k);
  }

  lemma StillOn(cspis: seq<seq<Group>>, p: nat, g: Group, e: Device)
    requires p < |cspis| && OnSome(cspis, e)
    ensures OnSome(cspis[p := cspis[p] + [g]], e)
  {
    var q :| 0 <= q < |cspis| && OnCspi(cspis, q, e);
    var j :| 0 <= j < |cspis[q]| && e in cspis[q][j];
    var r := cspis[p := cspis[p] + [g]];
    assert r[q][j] == cspis[q][j];
    assert OnCspi(r, q, e);
  }

  lemma ClaimedOnSome(s: State, a: Action, act: set<Device>, e: Device)
    requires Calm(s, act) && a.Admit? && OnSome(s.cspis, e)
    ensures e in StoredEdit(s, a).claims
  {
    hide Calm, WellFormed, Synced;
    CalmFacts(s, act);
    assert e in s.claims;
  }

  // ---------- the two together ----------

  lemma ExpectedThreat(s: State, a: Action, act: set<Device>, p: nat, k: nat, n: Device)
    requires Calm(s, act) && a.Admit? && CanAdmit(s, a) && n in Expected(s, a, act) && Expected(s, a, act)[n] in Devices(a.after)
    requires p < |a.after| && p < |s.cspis| && k < |a.after[p].data| && n in a.after[p].data[k]
    requires Arrives(StoredEdit(s, a), p, a.after[p].data[k])
    ensures MayFreeInUse(StoredEdit(s, a))
  {
    hide Calm, CanAdmit, MayFreeInUse, Devices, Expected, OnCspi, AllAnnotated, Present, Foreign;
    ExpectedAt(s, a, act, n);
    NamedInCspc(s, a, Expected(s, a, act)[n]);
    if OnCspi(s.cspis, p, n) {
      FreesOnceClaimed(StoredEdit(s, a), p, n);
    } else if Present(a.after[p].data[k], s.cspis[p]) {
      ThreatByCopy(s, a, act, p, k, n);
    } else {
      ThreatByExpansion(s, a, act, p, k, n);
    }
  }

  /** A new group that shares a device with the CSPI: the device is on its way
      out, and its successor is a threat. */
  lemma PresentUnmatched(s: State, a: Action, act: set<Device>, p: nat, k: nat)
    requires Calm(s, act) && a.Admit? && CanAdmit(s, a) && p < |a.after| == |a.matched| && p < |s.cspis| && k < |a.after[p].data|
    requires a.after[p].data[k] !in a.matched[p] && Present(a.after[p].data[k], s.cspis[p])
    ensures MayFreeInUse(StoredEdit(s, a))
  {
    hide Calm, CanAdmit, MayFreeInUse, Devices, WellFormed, AllAnnotated;
    CalmFacts(s, act);
    var j: int :| 0 <= j < |s.cspis[p]| && Overlap(a.after[p].data[k], s.cspis[p][j]);
    var d :| d in a.after[p].data[k] && d in s.cspis[p][j];
    var i, k' := FollowsMatch(s, a, act, p, j);
    var b := FollowedShares(s, a, act, p, k', s.cspis[p][j]);
    assert Present(a.after[p].data[k'], s.cspis[p]) by { assert Overlap(a.after[p].data[k'], s.cspis[p][j]); }
    InGroup(a.after, p, k, d);
    assert d in Unmatched(a);
    UnmatchedDevice(s, a, d);
    var n := SuccessorOf(s, a, act, p, i, j, d);
    ExpectedThreat(s, a, act, p, k', n);
  }

  lemma SuccessorOf(s: State, a: Action, act: set<Device>, p: nat, i: nat, j: nat, d: Device) returns (n: Device)
    requires Calm(s, act) && a.Admit? && CanAdmit(s, a) && p < |s.cspc| && p < |s.cspis| && j < |s.cspis[p]| && d in s.cspis[p][j]
    requires p < |a.matched| && i < |s.cspc[p].data| && i < |a.matched[p]| && Follows(s.cspc[p].data[i], s.cspis[p][j], Active(s.claims, act))
    requires d in Devices(s.cspc) ==> d in a.planned.Values
    ensures n in Expected(s, a, act) && Expected(s, a, act)[n] == d && n in a.matched[p][i]
  {
    hide Calm, CanAdmit, WellFormed, Carried, Marks, Devices, Active;
    CalmFacts(s, act);
    var marks := Active(s.claims, act);
    var g, h := s.cspc[p].data[i], s.cspis[p][j];
    assert d in Elems(h);
    if d in g {
      n := PlannedSuccessor(s, a, p, i, d);
    } else {
      assert Elems(h) != Elems(g);
      n :| n in marks && Lags(g, h, n, marks[n]);
      assert ActiveFacts(s, act, n);
      PlanApartFromMarks(s, a, n);
      CarriedActive(s, a, act, p, i);
      KeptMarked(g, a.matched[p][i], a.planned, marks, n);
    }
  }

  lemma PlannedSuccessor(s: State, a: Action, p: nat, i: nat, d: Device) returns (n: Device)
    requires WellFormed(s.cspc) && a.Admit? && CanAdmit(s, a) && p < |s.cspc| && p < |a.matched| && i < |s.cspc[p].data| && i < |a.matched[p]|
    requires d in s.cspc[p].data[i] && (d in Devices(s.cspc) ==> d in a.planned.Values)
    ensures n in a.planned && a.planned[n] == d && n in a.matched[p][i]
  {
    hide CanAdmit, WellFormed, Unique, AllDevices, Devices;
    InGroup(s.cspc, p, i, d);
    n :| n in a.planned && a.planned[n] == d;
    var q, i', kk := PlannedPair(s, a, n);
    WellFormedUnique(s.cspc);
    GroupsApart(s.cspc, p, i, q, i', d);
  }

  lemma ThreatFrees(s: State, a: Action, act: set<Device>, p: nat, k: nat, n: Device)
    requires Calm(s, act) && a.Admit? && CanAdmit(s, a) && ThreatAt(s, a, p, k, n)
    ensures MayFreeInUse(StoredEdit(s, a))
  {
    hide Calm, CanAdmit, MayFreeInUse, Devices, Expected, AllAnnotated, Present, Foreign;
    LengthsAgree(s, a);
    if n in Expected(s, a, act) {
      ExpectedAt(s, a, act, n);
      var i := ExpectedIsMatched(s, a, act, p, k, n);
      ExpectedThreat(s, a, act, p, k, n);
    } else if !Present(a.after[p].data[k], s.cspis[p]) {
      ThreatByExpansion(s, a, act, p, k, n);
    } else if a.after[p].data[k] in a.matched[p] {
      OldIsOnCspi(s, a, act, p, k, n);
      FreesOnceClaimed(StoredEdit(s, a), p, n);
    } else {
      PresentUnmatched(s, a, act, p, k);
    }
  }

  /** A device with a leftover annotation is on the CSPI if its group is. */
  lemma OldIsOnCspi(s: State, a: Action, act: set<Device>, p: nat, k: nat, n: Device)
    requires Calm(s, act) && a.Admit? && CanAdmit(s, a) && n !in Expected(s, a, act)
    requires p < |a.after| == |a.matched| && p < |s.cspis| && k < |a.after[p].data| && n in a.after[p].data[k]
    requires a.after[p].data[k] in a.matched[p] && Present(a.after[p].data[k], s.cspis[p])
    ensures OnCspi(s.cspis, p, n)
  {
    hide Calm, CanAdmit, Expected;
    var g := a.after[p].data[k];
    var j: int :| 0 <= j < |s.cspis[p]| && Overlap(g, s.cspis[p][j]);
    var i', k' := FollowsMatch(s, a, act, p, j);
    var i: int :| 0 <= i < |a.matched[p]| && a.matched[p][i] == g;
    if i' != i {
      ApartFromMatch(s, a, act, p, i, i', j);
      assert false;
    }
    assert n in Elems(g);
    assert n in Elems(s.cspis[p][j]);
  }

  lemma CalmFreesIff(s: State, a: Action, act: set<Device>)
    requires Calm(s, act) && a.Admit? && CanAdmit(s, a)
    ensures MayFreeInUse(StoredEdit(s, a)) <==> Endangers(s, a)
    ensures !Endangers(s, a) ==> Calm(StoredEdit(s, a), Leaving(s, a, act))
  {
    hide Calm, CanAdmit, MayFreeInUse, ThreatAt, Quiet;
    if p, k, n :| ThreatAt(s, a, p, k, n) {
      NaturalIndex(s, a, p, k, n);
      ThreatFrees(s, a, act, p, k, n);
    } else {
      StoredQuiet(s, a, act);
      QuietNeverFrees(StoredEdit(s, a), Leaving(s, a, act), OnCspis(s));
      QuietIsCalm(StoredEdit(s, a), Leaving(s, a, act), OnCspis(s));
    }
  }

  lemma NaturalIndex(s: State, a: Action, p: int, k: int, n: Device)
    requires a.Admit? && ThreatAt(s, a, p, k, n)
    ensures p >= 0 && k >= 0
  {
  }

  /** In any reachable state, after an accepted edit is annotated and stored, the
      operator and the pool-managers can release the claim of a device in use if
      and only if the edit endangers one. */
  lemma StoredEditFreesIff(s0: State, acts: seq<Action>, s: State, a: Action)
    requires Init(s0) && Run(s0, acts, s) && a.Admit? && CanAdmit(s, a)
    ensures MayFreeInUse(StoredEdit(s, a)) <==> Endangers(s, a)
  {
    hide Init, Run, Inv, CanAdmit, MayFreeInUse, Endangers, Calm;
    InitInv(s0);
    RunKeepsInv(s0, acts, s);
    InvCalm(s);
    CalmFreesIff(s, a, Marks(s.claims, s.cspc).Keys);
  }

  // ---------- runs of whole edits ----------

  /** An edit that endangers no device is annotated and stored, or the operator or
      a pool-manager does a step. Leftover annotations may be anywhere. */
  ghost predicate CarefulStep(s: State, a: Action, s': State) {
    if a.Admit? then CanAdmit(s, a) && !Endangers(s, a) && s' == StoredEdit(s, a)
    else Upkeep(a) && Step(s, a, s')
  }

  ghost predicate CarefulRun(s: State, acts: seq<Action>, s': State)
    decreases |acts|
  {
    if acts == [] then s' == s
    else exists m :: CarefulStep(s, acts[0], m) && CarefulRun(m, acts[1..], s')
  }

  lemma CarefulStepCalm(s: State, a: Action, s': State, act: set<Device>) returns (act': set<Device>)
    requires Calm(s, act) && CarefulStep(s, a, s')
    ensures Calm(s', act')
  {
    hide Quiet, CanAdmit, Endangers, Step, StoredEdit;
    if a.Admit? {
      CalmFreesIff(s, a, act);
      act' := Leaving(s, a, act);
    } else {
      StepQuiet(s, a, s', act, OnCspis(s));
      QuietIsCalm(s', act, OnCspis(s));
      act' := act;
    }
  }

  lemma {:induction false} CarefulRunCalm(s: State, acts: seq<Action>, s': State, act: set<Device>) returns (act': set<Device>)
    requires Calm(s, act) && CarefulRun(s, acts, s')
    ensures Calm(s', act')
    decreases |acts|
  {
    hide Calm, CarefulStep;
    if acts == [] {
      act' := act;
    } else {
      var m :| CarefulStep(s, acts[0], m) && CarefulRun(m, acts[1..], s');
      var mid := CarefulStepCalm(s, acts[0], m, act);
      act' := CarefulRunCalm(m, acts[1..], s', mid);
    }
  }

  /** Over any number of edits, each judged when it is made: if none endangers a
      device, no claim of a device in use is ever released; and for the next edit
      the condition is exact again. */
  lemma CarefulEditsFreeNothing(s0: State, acts: seq<Action>, s: State)
    requires Init(s0) && CarefulRun(s0, acts, s)
    ensures forall b, s' :: !FreesInUse(s, b, s')
    ensures forall a: Action :: a.Admit? && CanAdmit(s, a) ==> (MayFreeInUse(StoredEdit(s, a)) <==> Endangers(s, a))
  {
    hide Init, CarefulRun, Inv, CanAdmit, MayFreeInUse, Endangers, Quiet, InUse;
    InitInv(s0);
    InvCalm(s0);
    var act := CarefulRunCalm(s0, acts, s, Marks(s0.claims, s0.cspc).Keys);
    forall b, s' ensures !FreesInUse(s, b, s') {
      if b.ReleaseOld? && Step(s, b, s') { ReleaseQuiet(s, s', act, OnCspis(s), b.p, b.n, b.path, b.topology); }
    }
    forall a: Action | a.Admit? && CanAdmit(s, a) ensures MayFreeInUse(StoredEdit(s, a)) <==> Endangers(s, a) {
      CalmFreesIff(s, a, act);
    }
  }
}
