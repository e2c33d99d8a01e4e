/** Exactly which edits and annotations keep the marks in order. */
module ReplacementExact {
  import opened Wrappers
  import opened Lists
  import opened RaidGroups
  import opened CspiSync
  import opened Replacement
  import opened ReplacementInvariant
  import opened ReplacementTheorems

  // ---------- an edit on its own ----------

  /** The marks are in order: predecessors are not in the CSPC, not shared and not
      marked themselves; claims of marked devices are the CSPC's own; and no raid
      group has two marked devices. */
  ghost predicate InOrder(claims: map<Device, Claim>, cspc: Cspc, name: string) {
    var marks := Marks(claims, cspc);
    && MarksOk(marks, claims, cspc)
    && MarksOwned(claims, cspc, name)
    && forall p, i :: 0 <= p < |cspc| && 0 <= i < |cspc[p].data| ==> OneMark(cspc[p].data[i], marks)
  }

  lemma AnnotatedUndisturbed(cspc: Cspc, claims: map<Device, Claim>, name: string, plan: map<Device, Device>)
    requires forall x :: x in plan ==> x !in Devices(cspc)
    ensures Undisturbed(cspc, claims, AllAnnotated(claims, name, plan), plan.Keys)
    ensures forall d :: d !in plan ==> (Marked(AllAnnotated(claims, name, plan), d) <==> Marked(claims, d))
    ensures Marks(AllAnnotated(claims, name, plan), cspc) == Marks(claims, cspc)
  {
    hide Devices;
    var claims' := AllAnnotated(claims, name, plan);
    assert forall d :: d !in plan && d in claims' ==> claims'[d] == claims[d];
    SameMarks(claims, claims', cspc);
  }

  lemma AnnotatedReady(s: State, after: Cspc, plan: map<Device, Device>, t: State)
    requires Core(s) && ReviewOk(s.cspc, s.claims, s.name, after, plan)
    requires t == s.(claims := AllAnnotated(s.claims, s.name, plan))
    ensures Ready(t, after, plan)
  {
    hide Core, ReviewOk, Devices, Marks;
    var claims' := t.claims;
    PlanFacts(s.cspc, s.claims, s.name, after, plan);
    AnnotatedUndisturbed(s.cspc, s.claims, s.name, plan);
    AnnotatedAside(s.cspc, s.claims, s.name, after, plan);
    ReviewStable(s.cspc, s.claims, claims', s.name, after, plan, plan.Keys);
    AnnotatedCore(s, plan, t);
  }

  lemma PlanFacts(cspc: Cspc, claims: map<Device, Claim>, name: string, after: Cspc, plan: map<Device, Device>)
    requires ReviewOk(cspc, claims, name, after, plan)
    ensures forall x :: x in plan ==> x !in Devices(cspc) && x !in Marks(claims, cspc).Values && x in Devices(after)
    ensures forall x :: x in plan && x in claims ==> claims[x].owner == name
  {
    hide WellFormed, ExtraOk, PoolVetted, Devices, Marks;
  }

  lemma AnnotatedAside(cspc: Cspc, claims: map<Device, Claim>, name: string, after: Cspc, plan: map<Device, Device>)
    requires ReviewOk(cspc, claims, name, after, plan)
    ensures Aside(cspc, claims, after, plan, plan.Keys)
  {
    hide WellFormed, PoolVetted, Devices, Marks;
    assert forall y :: y in plan.Values ==> y in Devices(cspc);
  }

  lemma AnnotatedCore(s: State, plan: map<Device, Device>, t: State)
    requires Core(s) && t == s.(claims := AllAnnotated(s.claims, s.name, plan))
    requires forall x :: x in plan ==> x !in Devices(s.cspc) && x !in Marks(s.claims, s.cspc).Values
    ensures Core(t)
  {
    hide WellFormed, Synced, Devices, AllAnnotated;
    var marks := Marks(s.claims, s.cspc);
    AnnotatedUndisturbed(s.cspc, s.claims, s.name, plan);
    assert forall n :: n in marks ==> marks[n] in marks.Values;
    AnnotatedKeys(s.claims, s.name, plan);
    ClaimedSame(s, t);
  }

  lemma AnnotatedKeys(claims: map<Device, Claim>, name: string, plan: map<Device, Device>)
    ensures claims.Keys <= AllAnnotated(claims, name, plan).Keys
    ensures forall d :: d in claims ==> AllAnnotated(claims, name, plan)[d].owner == claims[d].owner
  {
  }

  lemma HarmlessKeepsOrder(s: State, a: Action)
    requires Inv(s) && a.Admit? && CanAdmit(s, a) && HarmlessExpansion(s, a)
    ensures InOrder(AllAnnotated(s.claims, s.name, a.planned), a.after, s.name)
  {
    hide Core, ReviewOk, CanAdmit, HarmlessExpansion, AllAnnotated, Marks, MarksOk, OneMark, MarksOwned;
    AdmitReviewOk(s, a);
    var t := s.(claims := AllAnnotated(s.claims, s.name, a.planned));
    AnnotatedReady(s, a.after, a.planned, t);
    CommitMarks(t, a.after, a.planned);
    CommitMarksOk(t, a.after, a.planned);
    CommitOwned(t, a.after, a.planned);
    LengthsAgree(s, a);
    forall p, i | 0 <= p < |a.after| && 0 <= i < |a.after[p].data| ensures OneMark(a.after[p].data[i], Marks(t.claims, a.after)) {
      CommitOneMark(t, a.after, a.planned, p, i);
    }
  }

  /** A mark of the CSPC is there after the edit, and so is a planned one. */
  lemma StoredMark(s: State, a: Action, n: Device)
    requires WellFormed(s.cspc) && a.Admit? && CanAdmit(s, a) && (n in Marks(s.claims, s.cspc) || n in a.planned)
    ensures var m := Marks(AllAnnotated(s.claims, s.name, a.planned), a.after);
      n in m && m[n] == if n in a.planned then a.planned[n] else Marks(s.claims, s.cspc)[n]
  {
    hide Core, ReviewsOk, CanAdmit, Devices;
    LengthsAgree(s, a);
    if n in a.planned {
      PlannedFacts(s, a, n);
    } else {
      MarkStaysIn(s, a, n);
    }
  }

  lemma MarkStaysIn(s: State, a: Action, n: Device)
    requires WellFormed(s.cspc) && a.Admit? && CanAdmit(s, a) && n in Marks(s.claims, s.cspc)
    ensures n in Devices(a.after)
  {
    hide Core, ReviewsOk, CanAdmit;
    var p, i :| 0 <= p < |s.cspc| && 0 <= i < |s.cspc[p].data| && n in s.cspc[p].data[i];
    LengthsAgree(s, a);
    SwapCarried(s, a, p, i);
    var k := MatchOf(s, a, p, i);
    KeptMarked(s.cspc[p].data[i], a.matched[p][i], a.planned, Marks(s.claims, s.cspc), n);
  }

  lemma KeptMarked(o: Group, n: Group, plan: map<Device, Device>, marks: map<Device, Device>, d: Device)
    requires Carried(o, n, plan, marks) && d in o && d in marks
    ensures d in n
  {
    assert d in Elems(o);
    assert d in Elems(n);
  }

  /** The mark of a device of an unmatched group, as stored. */
  lemma UnmatchedMark(s: State, a: Action, d: Device)
    requires WellFormed(s.cspc) && a.Admit? && CanAdmit(s, a) && d in Unmatched(a)
    ensures var claims' := AllAnnotated(s.claims, s.name, a.planned);
      && d in Devices(a.after) && d !in a.planned
      && (Marked(s.claims, d) <==> d in Marks(claims', a.after))
      && (Marked(s.claims, d) ==> d in claims' && claims'[d] == s.claims[d])
      && (Marked(s.claims, d) ==> Marks(claims', a.after)[d] == s.claims[d].predecessor.value)
  {
    hide Core, ReviewsOk, CanAdmit, Devices, Unmatched;
    UnmatchedDevice(s, a, d);
  }

  lemma OrderNeedsOutgoing(s: State, a: Action, d: Device)
    requires Inv(s) && a.Admit? && CanAdmit(s, a) && d in Unmatched(a)
    requires InOrder(AllAnnotated(s.claims, s.name, a.planned), a.after, s.name)
    ensures d !in a.planned.Values && d !in Marks(s.claims, s.cspc).Values && d !in Devices(s.cspc)
  {
    hide Core, ReviewsOk, CanAdmit, Devices, Unmatched, AllAnnotated, OneMark, Marks, MarksOwned;
    InvWellFormed(s);
    UnmatchedDevice(s, a, d);
    var marks := Marks(s.claims, s.cspc);
    forall x | x in a.planned ensures a.planned[x] != d { StoredMark(s, a, x); }
    forall n | n in marks ensures marks[n] != d {
      StoredMark(s, a, n);
      PlanApartFromMarks(s, a, n);
    }
  }

  lemma PlanApartFromMarks(s: State, a: Action, n: Device)
    requires WellFormed(s.cspc) && a.Admit? && CanAdmit(s, a) && n in Marks(s.claims, s.cspc)
    ensures n !in a.planned && n in Devices(s.cspc)
  {
    hide Core, ReviewsOk, CanAdmit, Devices;
    if n in a.planned { PlannedFacts(s, a, n); }
  }

  lemma OrderNeedsHarmlessMark(s: State, a: Action, d: Device)
    requires Inv(s) && a.Admit? && CanAdmit(s, a) && d in Unmatched(a) && Marked(s.claims, d)
    requires InOrder(AllAnnotated(s.claims, s.name, a.planned), a.after, s.name)
    ensures HarmlessMark(s.cspc, s.claims, s.name, a.after, a.planned, d)
  {
    hide Core, ReviewsOk, CanAdmit, Devices, Unmatched, AllAnnotated, OneMark, Marks;
    InvWellFormed(s);
    var claims', marks := AllAnnotated(s.claims, s.name, a.planned), Marks(s.claims, s.cspc);
    var e := s.claims[d].predecessor.value;
    UnmatchedMark(s, a, d);
    OrderNeedsOutgoing(s, a, d);
    StillMarked(s.claims, s.name, a.planned, e);
    forall x | x in a.planned ensures a.planned[x] != e { StoredMark(s, a, x); }
    forall n | n in marks ensures marks[n] != e {
      StoredMark(s, a, n);
      PlanApartFromMarks(s, a, n);
    }
  }

  lemma StillMarked(claims: map<Device, Claim>, name: string, plan: map<Device, Device>, e: Device)
    ensures Marked(claims, e) ==> Marked(AllAnnotated(claims, name, plan), e)
  {
  }

  lemma OrderNeedsHarmless(s: State, a: Action)
    requires Inv(s) && a.Admit? && CanAdmit(s, a)
    requires InOrder(AllAnnotated(s.claims, s.name, a.planned), a.after, s.name)
    ensures HarmlessExpansion(s, a)
  {
    hide Core, ReviewsOk, CanAdmit, Devices, AllAnnotated, Marks, HarmlessMark;
    InvWellFormed(s);
    var extra := Unmatched(a);
    forall d | d in extra ensures d !in a.planned.Values && d !in Marks(s.claims, s.cspc).Values { OrderNeedsOutgoing(s, a, d); }
    forall d | d in extra && Marked(s.claims, d) ensures HarmlessMark(s.cspc, s.claims, s.name, a.after, a.planned, d) {
      OrderNeedsHarmlessMark(s, a, d);
    }
    forall d, d' | d in extra && d' in extra && d != d' && Marked(s.claims, d) && Marked(s.claims, d')
      ensures s.claims[d].predecessor != s.claims[d'].predecessor
    {
      UnmatchedMark(s, a, d);
      UnmatchedMark(s, a, d');
    }
    forall p, k | 0 <= p < |a.after| && p < |a.matched| && 0 <= k < |a.after[p].data| && a.after[p].data[k] !in a.matched[p]
      ensures OneAnnotated(s.claims, a.after[p].data[k])
    {
      GroupAnnotated(s, a, p, k);
    }
  }

  lemma GroupAnnotated(s: State, a: Action, p: nat, k: nat)
    requires Inv(s) && a.Admit? && CanAdmit(s, a) && p < |a.after| && p < |a.matched| && k < |a.after[p].data|
    requires a.after[p].data[k] !in a.matched[p]
    requires InOrder(AllAnnotated(s.claims, s.name, a.planned), a.after, s.name)
    ensures OneAnnotated(s.claims, a.after[p].data[k])
  {
    hide Core, ReviewsOk, CanAdmit, Devices, AllAnnotated, Marks, MarksOk, MarksOwned;
    InvWellFormed(s);
    var g := a.after[p].data[k];
    assert OneMark(g, Marks(AllAnnotated(s.claims, s.name, a.planned), a.after));
    forall d | d in g && Marked(s.claims, d) ensures d in Marks(AllAnnotated(s.claims, s.name, a.planned), a.after) {
      assert d in Unmatched(a);
      UnmatchedMark(s, a, d);
    }
  }

  /** Exactly when does an accepted edit keep the marks in order: in any reachable
      state, storing it with its incoming devices annotated does so if and only if
      the devices that come in by expansion are harmless. */
  lemma StoredEditInOrderIff(s0: State, acts: seq<Action>, s: State, a: Action)
    requires Init(s0) && Run(s0, acts, s) && a.Admit? && CanAdmit(s, a)
    ensures InOrder(AllAnnotated(s.claims, s.name, a.planned), a.after, s.name) <==> HarmlessExpansion(s, a)
  {
    hide Init, Run, Inv, CanAdmit, InOrder, HarmlessExpansion;
    InitInv(s0);
    RunKeepsInv(s0, acts, s);
    if HarmlessExpansion(s, a) {
      HarmlessKeepsOrder(s, a);
    } else if InOrder(AllAnnotated(s.claims, s.name, a.planned), a.after, s.name) {
      OrderNeedsHarmless(s, a);
    }
  }

  // ---------- two edits under review at the same time ----------

  /** Exactly when may a second review annotate a device after a first one, seen
      against the same CSPC, has been stored: the marks stay in order if and only
      if the annotation is harmless. */
  lemma LateAnnotationInOrderIff(s: State, j: nat, k: nat, t: State, x: Device, u: State)
    requires Inv(s) && j != k && Current(s, j) && Current(s, k) && x in s.reviews[k].plan
    requires Intact(s, j) && Step(s, Commit(j), t) && Step(t, ClaimIncoming(k, x), u)
    ensures MarksOk(Marks(u.claims, u.cspc), u.claims, u.cspc) <==> HarmlessClaim(t, k, x)
  {
    hide Core, ReviewOk, Mentions, Devices, Marks, MarksOk;
    CommitKeepsInv(s, t, j);
    assert k in t.reviews && t.reviews[k] == s.reviews[k];
    if HarmlessClaim(t, k, x) {
      ClaimKeepsInv(t, u, k, x);
      CoreParts(u);
    } else {
      assert forall i :: i in t.reviews ==> !Current(t, i) by { NoneCurrent(s, j, t); }
      LateAnnotationBreaks(s, j, k, t, x, u);
    }
  }

  /** Exactly when may a second review annotate a device before a first one, all
      of whose annotations are there, is stored: the marks are in order after that
      if and only if nothing changes, or the first edit neither plans to use the
      device nor mentions it. */
  lemma EarlyAnnotationInOrderIff(s: State, j: nat, k: nat, x: Device, u: State, t: State)
    requires Inv(s) && j != k && Current(s, j) && Current(s, k) && x in s.reviews[k].plan && Intact(s, j)
    requires Step(s, ClaimIncoming(k, x), u) && Step(u, Commit(j), t)
    ensures MarksOk(Marks(t.claims, t.cspc), t.claims, t.cspc) <==>
      || (x in s.claims && s.claims[x].predecessor == Some(s.reviews[k].plan[x]))
      || (x !in s.reviews[j].plan && !Mentions(s, s.reviews[j], x))
  {
    hide Core, ReviewOk, Mentions, Devices, Marks, MarksOk;
    var r, y := s.reviews[j], s.reviews[k].plan[x];
    assert Current(s, j) && u.reviews[j] == r;
    OutgoingOfOther(s, k, x);
    if x in s.claims && s.claims[x].predecessor == Some(y) {
      assert u.claims == s.claims;
      SameCore(s, u);
      CommitKeepsCore(u, t, r.after, r.plan);
      CoreParts(t);
    } else if x !in r.plan && !Mentions(s, r, x) {
      EarlyAside(s, j, k, x, u);
      CommitKeepsCore(u, t, r.after, r.plan);
      CoreParts(t);
    } else {
      EarlyAnnotationBreaks(s, j, x, y, t);
    }
  }

  lemma EarlyAside(s: State, j: nat, k: nat, x: Device, u: State)
    requires Inv(s) && j != k && Current(s, j) && Current(s, k) && x in s.reviews[k].plan && Intact(s, j)
    requires Step(s, ClaimIncoming(k, x), u) && x !in s.reviews[j].plan && !Mentions(s, s.reviews[j], x)
    ensures Ready(u, s.reviews[j].after, s.reviews[j].plan)
  {
    hide Core, ReviewOk, Mentions, Devices, Marks;
    var r := s.reviews[j];
    assert Current(s, j) && Current(s, k);
    PlanFacts(s.cspc, s.claims, s.name, s.reviews[k].after, s.reviews[k].plan);
    ClaimKeepsCore(s, u, x, s.reviews[k].plan[x]);
    ClaimAside(s, j, k, x);
    ReviewOwners(s, j);
    ReviewStable(s.cspc, s.claims, u.claims, s.name, r.after, r.plan, {x});
  }

  /** The device ends up in the CSPC with a predecessor that is in use or has a
      successor already, or it is a predecessor itself. */
  lemma EarlyAnnotationBreaks(s: State, j: nat, x: Device, y: Device, t: State)
    requires Inv(s) && Current(s, j) && Intact(s, j) && x !in Devices(s.cspc) && y in Devices(s.cspc)
    requires t.claims == Annotated(s.claims, s.name, x, y) && t.cspc == s.reviews[j].after
    requires x in s.claims ==> s.claims[x].predecessor != Some(y)
    requires x in s.reviews[j].plan || Mentions(s, s.reviews[j], x)
    ensures !MarksOk(Marks(t.claims, t.cspc), t.claims, t.cspc)
  {
    hide Core, ReviewOk, Devices;
    var r, marks := s.reviews[j], Marks(t.claims, t.cspc);
    assert Current(s, j);
    PlanFacts(s.cspc, s.claims, s.name, r.after, r.plan);
    if x in r.plan || x in Extra(s.cspc, r.after, r.plan) {
      assert x in marks && marks[x] == y;
      if y !in Devices(r.after) {
        var z := GivenAway(s, r.after, r.plan, y);
        assert z != x && z in marks && marks[z] == y;
      }
    } else {
      var d :| d in Extra(s.cspc, r.after, r.plan) && Marked(s.claims, d) && s.claims[d].predecessor.value == x;
      assert d in marks && marks[d] == x && Marked(t.claims, x);
    }
  }

  lemma NoneCurrent(s: State, j: nat, t: State)
    requires Inv(s) && Step(s, Commit(j), t)
    ensures forall i :: !Current(t, i)
  {
    hide Core, ReviewOk;
  }

  lemma LateAnnotationBreaks(s: State, j: nat, k: nat, t: State, x: Device, u: State)
    requires Inv(s) && j != k && Current(s, j) && Current(s, k) && x in s.reviews[k].plan
    requires Intact(s, j) && Step(s, Commit(j), t) && Step(t, ClaimIncoming(k, x), u) && Inv(t)
    requires x in t.claims ==> t.claims[x].predecessor != Some(s.reviews[k].plan[x])
    requires x in Devices(t.cspc) || x in Marks(t.claims, t.cspc).Values
    ensures !MarksOk(Marks(u.claims, u.cspc), u.claims, u.cspc)
  {
    hide Core, Devices, ReviewOk;
    var r, y := s.reviews[j], s.reviews[k].plan[x];
    assert Current(s, j) && Current(s, k);
    if x in Devices(t.cspc) {
      OutgoingOfOther(s, k, x);
      MarkedTwiceOrInUse(s, j, t, x, y, u);
    } else {
      MarkedPredecessor(t, x, y, u);
    }
  }

  lemma OutgoingOfOther(s: State, k: nat, x: Device)
    requires Inv(s) && Current(s, k) && x in s.reviews[k].plan
    ensures s.reviews[k].plan[x] in Devices(s.cspc) && x !in Devices(s.cspc)
  {
    hide Core, Devices, WellFormed, ExtraOk, PoolVetted, Marks;
    assert Current(s, k);
  }

  /** The device named as predecessor is still in the CSPC, or was given away by
      the first edit and then has a successor already. */
  lemma MarkedTwiceOrInUse(s: State, j: nat, t: State, x: Device, y: Device, u: State)
    requires Inv(s) && Current(s, j) && Intact(s, j) && Step(s, Commit(j), t)
    requires x in Devices(t.cspc) && x !in Devices(s.cspc) && y in Devices(s.cspc)
    requires u == t.(claims := Annotated(t.claims, t.name, x, y), reviews := u.reviews)
    requires x in t.claims ==> t.claims[x].predecessor != Some(y)
    ensures !MarksOk(Marks(u.claims, u.cspc), u.claims, u.cspc)
  {
    hide Core, ReviewOk, Devices;
    var r := s.reviews[j];
    var marks := Marks(u.claims, u.cspc);
    assert x in marks && marks[x] == y;
    if y !in Devices(t.cspc) {
      var z := GivenAway(s, r.after, r.plan, y);
      assert Current(s, j);
      assert z in s.claims && s.claims[z].predecessor == Some(y);
      PlanFacts(s.cspc, s.claims, s.name, r.after, r.plan);
      assert z != x;
      assert z in marks && marks[z] == y;
    }
  }

  /** A device of the CSPC that is missing after an edit was planned as outgoing. */
  lemma GivenAway(s: State, after: Cspc, plan: map<Device, Device>, y: Device) returns (z: Device)
    requires ReviewOk(s.cspc, s.claims, s.name, after, plan) && y in Devices(s.cspc) && y !in Devices(after)
    ensures z in plan && plan[z] == y
  {
    hide WellFormed, PlanOk, ExtraOk, Marks;
    var marks := Marks(s.claims, s.cspc);
    var p, i :| 0 <= p < |s.cspc| && 0 <= i < |s.cspc[p].data| && y in s.cspc[p].data[i];
    assert PoolVetted(s.cspc, s.claims, s.cspc[p].data, after[p].data, plan);
    assert CarriedOn(s.cspc[p].data[i], after[p].data, plan, marks);
    var k :| 0 <= k < |after[p].data| && Carried(s.cspc[p].data[i], after[p].data[k], plan, marks);
    z := CarriedAway(s.cspc[p].data[i], after[p].data[k], plan, marks, y) by { InDevices(after, p, k, y); }
  }

  lemma CarriedAway(o: Group, n: Group, plan: map<Device, Device>, marks: map<Device, Device>, y: Device) returns (z: Device)
    requires Carried(o, n, plan, marks) && y in o && y !in n
    ensures z in plan && plan[z] == y
  {
    assert y in Elems(o) && y !in Elems(n);
    z :| z in plan && plan[z] in o && z !in o && Elems(n) == Elems(o) - {plan[z]} + {z} && forall d :: d in o ==> d !in marks;
  }

  lemma MarkedPredecessor(t: State, x: Device, y: Device, u: State)
    requires x !in Devices(t.cspc) && x in Marks(t.claims, t.cspc).Values
    requires u == t.(claims := Annotated(t.claims, t.name, x, y), reviews := u.reviews)
    ensures !MarksOk(Marks(u.claims, u.cspc), u.claims, u.cspc)
  {
    hide Devices;
    SameMarks(t.claims, u.claims, t.cspc);
    var n :| n in Marks(t.claims, t.cspc) && Marks(t.claims, t.cspc)[n] == x;
    assert Marked(u.claims, x);
  }
}
