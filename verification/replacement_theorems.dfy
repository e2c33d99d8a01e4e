/** Main results about block-device replacement. */
module ReplacementTheorems {
  import opened Wrappers
  import opened Lists
  import opened RaidGroups
  import opened CspiSync
  import opened Replacement
  import opened ReplacementInvariant

  // ---------- validation establishes what the protocol needs ----------

  function AdmitEnv(s: State, a: Action): Env
    requires a.Admit?
  {
    Env(s.name, s.claims, a.capacity)
  }

  /** The match of group `i` of pool `p` is a group of the new spec, and keeps
      all devices or exchanges the planned pair. */
  lemma MatchOf(s: State, a: Action, p: nat, i: nat) returns (k: nat)
    requires WellFormed(s.cspc) && a.Admit? && CanAdmit(s, a) && p < |s.cspc| && i < |s.cspc[p].data|
    ensures |a.matched[p]| == |s.cspc[p].data|
    ensures k < |a.after[p].data| && a.matched[p][i] == a.after[p].data[k]
    ensures var o, n := s.cspc[p].data[i], a.matched[p][i];
      if ListDiff(o, n) == [] then Elems(n) == Elems(o)
      else Swapped(AdmitEnv(s, a), s.cspc, o, n, FirstMissing(n, o), FirstMissing(o, n))
  {
    hide Unique, AllDevices, Flatten, ValidPair, Swapped, OneReplaced, IsPlan, FirstMissing;
    var o, n := s.cspc[p].data[i], a.matched[p][i];
    assert PoolAccepted(AdmitEnv(s, a), s.cspc, s.cspc[p], a.after[p], a.matched[p]);
    if s.cspc[p] == a.after[p] && a.matched[p] == s.cspc[p].data {
      k := i;
      if ListDiff(o, n) != [] { assert ListDiff(o, n)[0] in ListDiff(o, n); }
    } else {
      var k': int := MatchedGroup(s.cspc[p].data, a.after[p].data, a.matched[p], i);
      k := k';
      SpecDisjoint(s.cspc, p);
      SpecDisjoint(a.after, p);
      PairOfGroups(AdmitEnv(s, a), s.cspc, o, n, s.cspc[p].dataType);
    }
  }

  lemma SwapCarried(s: State, a: Action, p: nat, i: nat)
    requires WellFormed(s.cspc) && a.Admit? && CanAdmit(s, a) && p < |s.cspc| && i < |s.cspc[p].data|
    ensures |a.matched[p]| == |s.cspc[p].data|
    ensures Carried(s.cspc[p].data[i], a.matched[p][i], a.planned, Marks(s.claims, s.cspc))
  {
    hide Unique, AllDevices, Flatten, ValidPair, WellFormed, Core, ReviewsOk, IsPredecessor, PoolAccepted, ListDiff, Devices;
    var k := MatchOf(s, a, p, i);
    var o, n := s.cspc[p].data[i], a.matched[p][i];
    if ListDiff(o, n) != [] {
      var x, y := FirstMissing(n, o), FirstMissing(o, n);
      assert Swap(s.cspc, a.matched, p, i, x, y);
      assert x in a.planned && a.planned[x] == y;
      assert forall d :: d in o ==> !HasPredecessor(AdmitEnv(s, a), d);
    }
  }

  /** A planned pair: where it comes from and what validation says about it. */
  lemma PlannedPair(s: State, a: Action, x: Device) returns (p: nat, i: nat, k: nat)
    requires WellFormed(s.cspc) && a.Admit? && CanAdmit(s, a) && x in a.planned
    ensures p < |s.cspc| && i < |s.cspc[p].data| && |a.matched[p]| == |s.cspc[p].data|
    ensures k < |a.after[p].data| && a.matched[p][i] == a.after[p].data[k]
    ensures Swap(s.cspc, a.matched, p, i, x, a.planned[x])
    ensures Swapped(AdmitEnv(s, a), s.cspc, s.cspc[p].data[i], a.matched[p][i], x, a.planned[x])
  {
    hide Unique, AllDevices, Flatten, ValidPair, Synced, MarksOk, CspisClaimed, ReviewsOk, Swapped, PoolAccepted, ListDiff, FirstMissing, WellFormed;
    var p': int, i': int :| Swap(s.cspc, a.matched, p', i', x, a.planned[x]);
    p, i := p', i';
    k := MatchOf(s, a, p, i);
  }

  /** The incoming device is not a predecessor. */
  lemma IncomingNotPredecessor(s: State, a: Action, x: Device)
    requires WellFormed(s.cspc) && a.Admit? && !IsPredecessor(AdmitEnv(s, a), s.cspc, x)
    ensures x !in Marks(s.claims, s.cspc).Values
  {
    hide Unique, AllDevices, WellFormed, Devices;
    DevicesAre(s.cspc);
    var marks := Marks(s.claims, s.cspc);
    forall n | n in marks ensures marks[n] != x {
      assert n in AllDevices(s.cspc);
    }
  }

  /** The predecessors the webhook refuses are those of the replacements going on. */
  lemma PredecessorIff(s: State, a: Action, x: Device)
    requires WellFormed(s.cspc) && a.Admit? && x != ""
    ensures IsPredecessor(AdmitEnv(s, a), s.cspc, x) <==> x in Marks(s.claims, s.cspc).Values
  {
    hide Unique, AllDevices, WellFormed, Devices;
    DevicesAre(s.cspc);
    if IsPredecessor(AdmitEnv(s, a), s.cspc, x) {
      var n :| n in AllDevices(s.cspc) && n in s.claims && s.claims[n].predecessor == Some(x);
      assert n in Devices(s.cspc) && Marks(s.claims, s.cspc)[n] == x;
    } else {
      IncomingNotPredecessor(s, a, x);
    }
  }

  /** The outgoing device is in no matched group of the new spec. */
  lemma OutgoingLeaves(s: State, a: Action, x: Device, q: nat, k: nat)
    requires WellFormed(s.cspc) && a.Admit? && CanAdmit(s, a) && x in a.planned
    requires q < |a.after| && k < |a.after[q].data| && a.after[q].data[k] in a.matched[q]
    ensures a.planned[x] !in a.after[q].data[k]
  {
    hide Unique, AllDevices, Flatten, ValidPair, Synced, MarksOk, CspisClaimed, ReviewsOk, WellFormed, PoolAccepted, ListDiff,
      FirstMissing, HasPredecessor, IsPredecessor, IsPlan, Marks, Devices;
    var p, i, kk := PlannedPair(s, a, x);
    var y, g := a.planned[x], a.after[q].data[k];
    WellFormedUnique(s.cspc);
    InAllDevices(s.cspc, p, i, y);
    var i': int :| 0 <= i' < |a.matched[q]| && a.matched[q][i'] == g;
    MatchedLength(s, a, q);
    var k' := MatchOf(s, a, q, i');
    if y in g {
      assert y in Elems(g);
      assert y in s.cspc[q].data[i'];
      GroupsApart(s.cspc, p, i, q, i', y);
      assert false;
    }
  }

  /** An unmatched group holds no planned device, and an old device in it is one
      that its own group gave away. */
  lemma UnmatchedDevice(s: State, a: Action, d: Device)
    requires WellFormed(s.cspc) && a.Admit? && CanAdmit(s, a) && d in Unmatched(a)
    ensures d in Devices(a.after) && d !in a.planned
    ensures d in Devices(s.cspc) ==> d in a.planned.Values
  {
    hide Unique, AllDevices, Flatten, Core, ReviewsOk, WellFormed, PoolAccepted, ListDiff, FirstMissing, IsPlan, IsPredecessor, HasPredecessor;
    var p, k :| 0 <= p < |a.after| && p < |a.matched| && 0 <= k < |a.after[p].data|
                && a.after[p].data[k] !in a.matched[p] && d in a.after[p].data[k];
    UnmatchedUnplanned(s, a, p, k, d);
    if d in Devices(s.cspc) {
      var q, i :| 0 <= q < |s.cspc| && 0 <= i < |s.cspc[q].data| && d in s.cspc[q].data[i];
      LeftItsGroup(s, a, p, k, d, q, i);
    }
  }

  lemma LeftItsGroup(s: State, a: Action, p: nat, k: nat, d: Device, q: nat, i: nat)
    requires WellFormed(s.cspc) && a.Admit? && CanAdmit(s, a) && p < |a.after| == |a.matched| && k < |a.after[p].data|
    requires a.after[p].data[k] !in a.matched[p] && d in a.after[p].data[k]
    requires q < |s.cspc| && i < |s.cspc[q].data| && d in s.cspc[q].data[i]
    ensures d in a.planned.Values
  {
    hide Unique, AllDevices, Flatten, Core, ReviewsOk, WellFormed, PoolAccepted, FirstMissing, IsPredecessor, HasPredecessor;
    WellFormedUnique(a.after);
    var kk := MatchOf(s, a, q, i);
    var o, n := s.cspc[q].data[i], a.matched[q][i];
    if d in n { GroupsApart(a.after, q, kk, p, k, d); }
    assert d in Elems(o) && d !in Elems(n);
    assert ListDiff(o, n) != [];
    assert Swap(s.cspc, a.matched, q, i, FirstMissing(n, o), FirstMissing(o, n));
    assert d == FirstMissing(o, n);
  }

  lemma CoreWellFormed(s: State)
    requires Core(s)
    ensures WellFormed(s.cspc)
  {
    hide WellFormed;
  }

  lemma InvWellFormed(s: State)
    requires Inv(s)
    ensures WellFormed(s.cspc)
  {
    hide WellFormed;
  }

  lemma WellFormedUnique(cspc: Cspc)
    requires WellFormed(cspc)
    ensures Unique(AllDevices(cspc))
  {
  }

  lemma MatchedLength(s: State, a: Action, q: nat)
    requires a.Admit? && CanAdmit(s, a) && q < |s.cspc|
    ensures |a.matched[q]| == |s.cspc[q].data|
  {
    hide Unique, AllDevices, Flatten, ValidPair, WellFormed;
    assert PoolAccepted(AdmitEnv(s, a), s.cspc, s.cspc[q], a.after[q], a.matched[q]);
  }

  lemma AdmitPlan(s: State, a: Action)
    requires WellFormed(s.cspc) && a.Admit? && CanAdmit(s, a)
    requires forall d :: d in Unmatched(a) ==> d !in a.planned.Values
    ensures PlanOk(s.cspc, s.claims, a.after, a.planned)
  {
    hide Unique, AllDevices, Flatten, ValidPair, Core, ReviewsOk, WellFormed, CanAdmit, ListDiff, FirstMissing,
      IsPredecessor, HarmlessExpansion, Marks, Devices;
    forall x | x in a.planned ensures
      && x !in Devices(s.cspc) && x in Devices(a.after) && x !in Marks(s.claims, s.cspc).Values
      && a.planned[x] in Devices(s.cspc) && a.planned[x] !in Devices(a.after) && !Marked(s.claims, a.planned[x])
    {
      PlannedFacts(s, a, x);
      OutgoingGone(s, a, x);
    }
    forall x, x' | x in a.planned && x' in a.planned && a.planned[x] == a.planned[x'] ensures x == x' {
      PlanInjective(s, a, x, x');
    }
  }

  lemma PlannedFacts(s: State, a: Action, x: Device)
    requires WellFormed(s.cspc) && a.Admit? && CanAdmit(s, a) && x in a.planned
    ensures x !in Devices(s.cspc) && x in Devices(a.after) && x !in Marks(s.claims, s.cspc).Values
    ensures a.planned[x] in Devices(s.cspc) && !Marked(s.claims, a.planned[x])
    ensures x in s.claims ==> s.claims[x].owner == s.name
  {
    hide Unique, AllDevices, Flatten, ValidPair, Core, ReviewsOk, WellFormed, CanAdmit, ListDiff, FirstMissing, IsPredecessor, Marks;
    DevicesAre(s.cspc);
    LengthsAgree(s, a);
    var p, i, k := PlannedPair(s, a, x);
    IncomingNotPredecessor(s, a, x);
    assert !HasPredecessor(AdmitEnv(s, a), a.planned[x]);
  }

  lemma OutgoingGone(s: State, a: Action, x: Device)
    requires WellFormed(s.cspc) && a.Admit? && CanAdmit(s, a) && x in a.planned
    requires forall d :: d in Unmatched(a) ==> d !in a.planned.Values
    ensures a.planned[x] !in Devices(a.after)
  {
    hide Unique, AllDevices, Flatten, ValidPair, Core, ReviewsOk, WellFormed, CanAdmit, ListDiff, FirstMissing, IsPredecessor, Marks;
    LengthsAgree(s, a);
    forall q, k | 0 <= q < |a.after| && 0 <= k < |a.after[q].data| ensures a.planned[x] !in a.after[q].data[k] {
      if a.after[q].data[k] in a.matched[q] {
        OutgoingLeaves(s, a, x, q, k);
      } else {
        assert forall d :: d in a.after[q].data[k] ==> d in Unmatched(a);
        assert a.planned[x] in a.planned.Values;
      }
    }
  }

  /** The new devices that replace nothing are those of the unmatched groups. */
  lemma ExtraIsUnmatched(s: State, a: Action, d: Device)
    requires WellFormed(s.cspc) && a.Admit? && CanAdmit(s, a) && d in Extra(s.cspc, a.after, a.planned)
    ensures d in Unmatched(a)
  {
    hide Unique, AllDevices, Flatten, ValidPair, Core, ReviewsOk, WellFormed, ListDiff, FirstMissing, IsPredecessor, Marks, IsPlan, PoolAccepted;
    var q, k :| 0 <= q < |a.after| && 0 <= k < |a.after[q].data| && d in a.after[q].data[k];
    if a.after[q].data[k] in a.matched[q] {
      MatchedLength(s, a, q);
      var i :| 0 <= i < |a.matched[q]| && a.matched[q][i] == a.after[q].data[k];
      SwapCarried(s, a, q, i);
      CarriedDevice(s.cspc, q, i, a.matched[q][i], a.planned, Marks(s.claims, s.cspc), d);
    }
  }

  lemma CarriedDevice(cspc: Cspc, q: nat, i: nat, n: Group, plan: map<Device, Device>, marks: map<Device, Device>, d: Device)
    requires q < |cspc| && i < |cspc[q].data| && Carried(cspc[q].data[i], n, plan, marks) && d in n
    ensures d in Devices(cspc) || d in plan
  {
    assert d in Elems(n);
    assert d in cspc[q].data[i] ==> d in Devices(cspc);
  }

  lemma LengthsAgree(s: State, a: Action)
    requires a.Admit? && CanAdmit(s, a)
    ensures |a.after| == |s.cspc| == |a.matched| && WellFormed(a.after)
  {
  }

  lemma PlanInjective(s: State, a: Action, x: Device, x': Device)
    requires WellFormed(s.cspc) && a.Admit? && CanAdmit(s, a)
    requires x in a.planned && x' in a.planned && a.planned[x] == a.planned[x']
    ensures x == x'
  {
    hide Unique, AllDevices, Flatten, Synced, MarksOk, CspisClaimed, ReviewsOk, WellFormed, CanAdmit, ListDiff, FirstMissing,
      IsPredecessor, HasPredecessor;
    WellFormedUnique(s.cspc);
    var p, i, k := PlannedPair(s, a, x);
    var p', i', k' := PlannedPair(s, a, x');
    GroupsApart(s.cspc, p, i, p', i', a.planned[x]);
  }

  /** A group that matches no old group holds no planned device. */
  lemma UnmatchedUnplanned(s: State, a: Action, q: nat, k: nat, d: Device)
    requires WellFormed(s.cspc) && a.Admit? && CanAdmit(s, a) && q < |a.after| && k < |a.after[q].data|
    requires a.after[q].data[k] !in a.matched[q] && d in a.after[q].data[k]
    ensures d !in a.planned
  {
    hide Unique, AllDevices, Flatten, Synced, MarksOk, CspisClaimed, ReviewsOk, WellFormed, ListDiff, FirstMissing, IsPlan, PoolAccepted,
      IsPredecessor, HasPredecessor;
    WellFormedUnique(a.after);
    if d in a.planned {
      var p, i, k' := PlannedPair(s, a, d);
      GroupsApart(a.after, p, k', q, k, d);
    }
  }

  lemma AdmitVetted(s: State, a: Action, p: nat)
    requires Inv(s) && a.Admit? && CanAdmit(s, a) && HarmlessExpansion(s, a) && p < |s.cspc| == |a.after|
    ensures PoolVetted(s.cspc, s.claims, s.cspc[p].data, a.after[p].data, a.planned)
  {
    hide Unique, AllDevices, Flatten, Core, ReviewsOk, WellFormed, IsPlan, PoolAccepted, Marks, Carried, ExtraGroup, Devices, CanAdmit, HarmlessExpansion;
    var o, n, marks := s.cspc[p].data, a.after[p].data, Marks(s.claims, s.cspc);
    InvWellFormed(s);
    LengthsAgree(s, a);
    forall i | 0 <= i < |o| ensures CarriedOn(o[i], n, a.planned, marks) {
      MatchCarried(s, a, p, i);
    }
    forall k | 0 <= k < |n| ensures CarriedFrom(o, n[k], a.planned, marks) || ExtraGroup(s.cspc, s.claims, a.planned, n[k]) {
      if n[k] in a.matched[p] {
        MatchedLength(s, a, p);
        var i :| 0 <= i < |a.matched[p]| && a.matched[p][i] == n[k];
        SwapCarried(s, a, p, i);
      } else {
        UnmatchedGroup(s, a, p, k);
      }
    }
  }

  lemma UnmatchedGroup(s: State, a: Action, p: nat, k: nat)
    requires Inv(s) && a.Admit? && CanAdmit(s, a) && HarmlessExpansion(s, a) && p < |a.after| == |a.matched| && k < |a.after[p].data|
    requires a.after[p].data[k] !in a.matched[p]
    ensures ExtraGroup(s.cspc, s.claims, a.planned, a.after[p].data[k])
  {
    hide Inv, CanAdmit, Marks, Devices, HarmlessMark;
    InvWellFormed(s);
    forall d | d in a.after[p].data[k] ensures d !in Devices(s.cspc) && d !in a.planned {
      assert d in Unmatched(a);
      UnmatchedDevice(s, a, d);
    }
  }

  lemma MatchCarried(s: State, a: Action, p: nat, i: nat)
    requires WellFormed(s.cspc) && a.Admit? && CanAdmit(s, a) && p < |s.cspc| == |a.after| && i < |s.cspc[p].data|
    ensures CarriedOn(s.cspc[p].data[i], a.after[p].data, a.planned, Marks(s.claims, s.cspc))
  {
    hide CanAdmit, Carried, Synced, MarksOk, CspisClaimed, ReviewsOk, WellFormed, Swapped;
    SwapCarried(s, a, p, i);
    var k := MatchOf(s, a, p, i);
    assert Carried(s.cspc[p].data[i], a.after[p].data[k], a.planned, Marks(s.claims, s.cspc));
  }

  /** A validated edit with a harmless expansion is ready to be stored. */
  lemma AdmitReviewOk(s: State, a: Action)
    requires Inv(s) && a.Admit? && CanAdmit(s, a) && HarmlessExpansion(s, a)
    ensures ReviewOk(s.cspc, s.claims, s.name, a.after, a.planned)
  {
    hide Inv, CanAdmit, WellFormed, PoolVetted, PlanOk, Marks, Devices, Extra, Unmatched, HarmlessMark;
    InvWellFormed(s);
    LengthsAgree(s, a);
    AdmitPlan(s, a);
    forall d | d in Extra(s.cspc, a.after, a.planned) ensures d in Unmatched(a) {
      ExtraIsUnmatched(s, a, d);
    }
    forall x | x in a.planned && x in s.claims ensures s.claims[x].owner == s.name {
      PlannedFacts(s, a, x);
    }
    forall p | 0 <= p < |a.after| ensures PoolVetted(s.cspc, s.claims, s.cspc[p].data, a.after[p].data, a.planned) {
      AdmitVetted(s, a, p);
    }
  }

  lemma AdmitKeepsInv(s: State, a: Action, s': State)
    requires Inv(s) && a.Admit? && Step(s, a, s') && HarmlessExpansion(s, a)
    ensures Inv(s')
  {
    hide Core, ReviewOk, CanAdmit, HarmlessExpansion;
    AdmitReviewOk(s, a);
    SameCore(s, s');
    forall j | Current(s', j)
      ensures ReviewOk(s'.cspc, s'.claims, s'.name, s'.reviews[j].after, s'.reviews[j].plan)
    {
      if j != a.k { assert Current(s, j); }
    }
  }

  // ---------- every run ----------

  lemma InitInv(s: State)
    requires Init(s)
    ensures Inv(s)
  {
    hide WellFormed, Unique;
    var marks := Marks(s.claims, s.cspc);
    assert marks == map[];
    forall p | 0 <= p < |s.cspc| ensures Lagging(s.cspc[p].data, s.cspis[p], marks) {
      InitLagging(s.cspc, p);
    }
  }

  lemma InitLagging(cspc: Cspc, p: nat)
    requires WellFormed(cspc) && p < |cspc|
    ensures Lagging(cspc[p].data, cspc[p].data, map[])
  {
    hide Unique, AllDevices;
    SpecDisjoint(cspc, p);
    forall j | 0 <= j < |cspc[p].data| ensures FollowsSome(cspc[p].data, cspc[p].data[j], map[]) {
      FollowsRefl(cspc[p].data[j], map[]);
    }
  }

  lemma StepKeepsInv(s: State, a: Action, s': State)
    requires Inv(s) && Step(s, a, s') && Benign(s, a)
    ensures Inv(s')
  {
    hide Inv, Step, HarmlessExpansion, HarmlessClaim;
    if a.Admit? {
      AdmitKeepsInv(s, a, s');
    } else if a.ClaimIncoming? {
      ClaimsOwn(s, a, s');
      ClaimKeepsInv(s, s', a.k, a.x);
    } else if a.Commit? {
      CommitsCurrent(s, a, s');
      CommitKeepsInv(s, s', a.k);
    } else if a.Abort? {
      AbortKeepsInv(s, s', a.k);
    } else if a.ClaimExpansion? {
      ClaimExpansionKeepsInv(s, s', a.d);
    } else if a.Expand? {
      ExpandKeepsInv(s, s', a.p, a.usable);
    } else if a.Copy? {
      CopyKeepsInv(s, s', a.p, a.insts, a.usable);
    } else if a.ReleaseOld? {
      ReleaseKeepsInv(s, s', a.p, a.n, a.path, a.topology);
    } else {
      ClearKeepsInv(s, s', a.p, a.n, a.path, a.topology);
    }
  }

  lemma CommitsCurrent(s: State, a: Action, s': State)
    requires Step(s, a, s') && a.Commit?
    ensures a.k in s.reviews
  {
  }

  lemma ClaimsOwn(s: State, a: Action, s': State)
    requires Step(s, a, s') && a.ClaimIncoming?
    ensures a.k in s.reviews && a.x in s.reviews[a.k].plan
  {
  }

  lemma {:induction false} RunKeepsInv(s: State, acts: seq<Action>, s': State)
    requires Inv(s) && Run(s, acts, s')
    ensures Inv(s')
    decreases |acts|
  {
    hide Inv, Step, Benign;
    if acts != [] {
      var m :| Step(s, acts[0], m) && Benign(s, acts[0]) && Run(m, acts[1..], s');
      StepKeepsInv(s, acts[0], m);
      RunKeepsInv(m, acts[1..], s');
    }
  }

  /** CSPI group `h` against CSPC group `g`: equal as sets when no device of `g`
      is marked, otherwise different by at most the marked device and its predecessor. */
  ghost predicate UpToDateOrReplacing(g: Group, h: Group, claims: map<Device, Claim>) {
    || Elems(h) == Elems(g)
    || exists n :: && n in g && Marked(claims, n) && claims[n].predecessor.value !in g
                   && Elems(h) == Elems(g) - {n} + {claims[n].predecessor.value}
                   && forall d :: d in g && Marked(claims, d) ==> d == n
  }

  ghost predicate FollowsUpToMark(groups: seq<Group>, h: Group, claims: map<Device, Claim>) {
    exists i :: 0 <= i < |groups| && UpToDateOrReplacing(groups[i], h, claims)
  }

  ghost predicate EqualsSome(groups: seq<Group>, h: Group) {
    exists i :: 0 <= i < |groups| && Elems(h) == Elems(groups[i])
  }

  /** The replacement protocol in every run: one mark per raid group at most;
      every CSPI group agrees with a CSPC group up to the marked replacement; and
      every device on a CSPI is claimed. */
  lemma ReplacementInEveryRun(s0: State, acts: seq<Action>, s: State)
    requires Init(s0) && Run(s0, acts, s)
    ensures forall p, i, d, d' :: 0 <= p < |s.cspc| && 0 <= i < |s.cspc[p].data| && d in s.cspc[p].data[i] ==>
              d' in s.cspc[p].data[i] && Marked(s.claims, d) && Marked(s.claims, d') ==> d == d'
    ensures |s.cspis| == |s.cspc|
    ensures forall p, j :: 0 <= p < |s.cspis| && 0 <= j < |s.cspis[p]| ==>
              FollowsUpToMark(s.cspc[p].data, s.cspis[p][j], s.claims)
    ensures forall p, d :: 0 <= p < |s.cspis| && OnCspi(s.cspis, p, d) ==> d in s.claims
  {
    hide WellFormed, ReviewsOk, MarksOk, Init, Run, Lagging, Devices, UpToDateOrReplacing;
    InitInv(s0);
    RunKeepsInv(s0, acts, s);
    var marks := Marks(s.claims, s.cspc);
    forall p, i, d, d' | 0 <= p < |s.cspc| && 0 <= i < |s.cspc[p].data| && d in s.cspc[p].data[i] && d' in s.cspc[p].data[i]
      && Marked(s.claims, d) && Marked(s.claims, d') ensures d == d'
    {
      OneMarkPerGroup(s, p, i, d, d');
    }
    forall p, j | 0 <= p < |s.cspis| && 0 <= j < |s.cspis[p]|
      ensures FollowsUpToMark(s.cspc[p].data, s.cspis[p][j], s.claims)
    {
      var i := GroupUpToDate(s, p, j);
    }
  }

  lemma OneMarkPerGroup(s: State, p: nat, i: nat, d: Device, d': Device)
    requires Inv(s) && p < |s.cspc| && i < |s.cspc[p].data| && d in s.cspc[p].data[i] && d' in s.cspc[p].data[i]
    requires Marked(s.claims, d) && Marked(s.claims, d')
    ensures d == d'
  {
    hide WellFormed, ReviewsOk, MarksOk, CspisClaimed, Disjoint, FollowsSome;
    var marks := Marks(s.claims, s.cspc);
    assert Lagging(s.cspc[p].data, s.cspis[p], marks);
    assert OneMark(s.cspc[p].data[i], marks);
    assert d in Devices(s.cspc) && d' in Devices(s.cspc);
  }

  lemma GroupUpToDate(s: State, p: nat, j: nat) returns (i: nat)
    requires Inv(s) && p < |s.cspis| == |s.cspc| && j < |s.cspis[p]|
    ensures i < |s.cspc[p].data| && UpToDateOrReplacing(s.cspc[p].data[i], s.cspis[p][j], s.claims)
  {
    hide WellFormed, ReviewsOk, MarksOk, CspisClaimed, Lagging;
    var marks := Marks(s.claims, s.cspc);
    assert Lagging(s.cspc[p].data, s.cspis[p], marks);
    i := Followed(s.cspc[p].data, s.cspis[p], marks, j);
    var g, h := s.cspc[p].data[i], s.cspis[p][j];
    if Elems(h) != Elems(g) {
      var n :| n in marks && Lags(g, h, n, marks[n]);
      forall d | d in g && Marked(s.claims, d) ensures d == n { OneMarkPerGroup(s, p, i, d, n); }
    }
  }

  /** A claim disappears only when a pool-manager releases the predecessor of a
      device that its pool already holds, or whose links it cannot read; the
      released device is then in no raid group of the CSPC and on no CSPI. */
  lemma ClaimReleasedOnlyWhenReplaced(s0: State, acts: seq<Action>, s: State, a: Action, s': State, o: Device)
    requires Init(s0) && Run(s0, acts, s) && Step(s, a, s')
    requires o in s.claims && o !in s'.claims
    ensures a.ReleaseOld? && Marked(s.claims, a.n) && s.claims[a.n].predecessor == Some(o)
    ensures LookedUp(a.n, a.path, a.topology) && OnCspi(s.cspis, a.p, a.n) && a.n in Devices(s.cspc)
    ensures o !in Devices(s.cspc) && forall q :: 0 <= q < |s.cspis| ==> !OnCspi(s.cspis, q, o)
  {
    hide WellFormed, ReviewsOk, Synced, CspisClaimed, Init, Run, Devices, OnCspi, CanAdmit;
    InitInv(s0);
    RunKeepsInv(s0, acts, s);
    forall q | 0 <= q < |s.cspis| ensures !OnCspi(s.cspis, q, o) {
      PredecessorUnused(s, a.p, a.n, q);
    }
    PredecessorUnused(s, a.p, a.n, 0);
  }

  /** While a replacement goes on in a raid group, no edit changes the group. */
  lemma ReplacingGroupIsFrozen(s0: State, acts: seq<Action>, s: State, k: nat, s': State, p: nat, i: nat, n: Device)
    requires Init(s0) && Run(s0, acts, s) && Step(s, Commit(k), s')
    requires p < |s.cspc| && i < |s.cspc[p].data| && n in s.cspc[p].data[i] && Marked(s.claims, n)
    ensures p < |s'.cspc| && EqualsSome(s'.cspc[p].data, s.cspc[p].data[i])
  {
    hide Core, Init, Run, ReviewOk;
    InitInv(s0);
    RunKeepsInv(s0, acts, s);
    assert Current(s, k);
    FrozenGroup(s.cspc, s.claims, s.name, s.reviews[k].after, s.reviews[k].plan, p, i, n);
  }

  lemma FrozenGroup(cspc: Cspc, claims: map<Device, Claim>, name: string, after: Cspc, plan: map<Device, Device>, p: nat, i: nat, n: Device)
    requires ReviewOk(cspc, claims, name, after, plan) && p < |cspc| && i < |cspc[p].data| && n in cspc[p].data[i] && Marked(claims, n)
    ensures p < |after| && EqualsSome(after[p].data, cspc[p].data[i])
  {
    hide WellFormed, PlanOk, ExtraOk;
    var news, marks := after[p].data, Marks(claims, cspc);
    assert PoolVetted(cspc, claims, cspc[p].data, news, plan);
    assert CarriedOn(cspc[p].data[i], news, plan, marks);
    var k :| 0 <= k < |news| && Carried(cspc[p].data[i], news[k], plan, marks);
    assert n in Devices(cspc) && n in marks;
  }

  /** One operator pass with usable devices brings a pool up to date, in any
      reachable state. */
  lemma CopyConverges(s0: State, acts: seq<Action>, s: State, s': State, p: nat, insts: seq<Group>, usable: set<Device>)
    requires Init(s0) && Run(s0, acts, s) && Step(s, Copy(p, insts, usable), s')
    requires forall n :: n in Devices(s.cspc) && Marked(s.claims, n) ==>
               n in usable && n != "" && s.claims[n].predecessor != Some("")
    ensures |s'.cspis[p]| == |s.cspis[p]|
    ensures forall j :: 0 <= j < |s'.cspis[p]| ==> EqualsSome(s.cspc[p].data, s'.cspis[p][j])
  {
    hide WellFormed, MarksOk, ReviewsOk, CspisClaimed, Init, Run, Lagging, CopyGroups, Follows;
    InitInv(s0);
    RunKeepsInv(s0, acts, s);
    var marks := Marks(s.claims, s.cspc);
    assert Lagging(s.cspc[p].data, s.cspis[p], marks);
    OnePassConverges(s.cspc[p].data, s.cspis[p], insts, marks, usable);
    forall j | 0 <= j < |s.cspis[p]| ensures EqualsSome(s.cspc[p].data, insts[j]) {
      var i := Followed(s.cspc[p].data, s.cspis[p], marks, j);
    }
  }
}
