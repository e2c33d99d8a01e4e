/** The invariant of the replacement protocol over every run. */
module ReplacementInvariant {
  import opened Wrappers
  import opened Lists
  import opened RaidGroups
  import opened CspiSync
  import opened Replacement

  // ---------- devices and groups ----------

  lemma DevicesAre(cspc: Cspc)
    requires WellFormed(cspc)
    ensures forall d :: d in Devices(cspc) <==> d in AllDevices(cspc)
  {
    hide Unique, AllDevices;
    forall d | d in Devices(cspc) ensures d in AllDevices(cspc) {
      var p, i :| 0 <= p < |cspc| && 0 <= i < |cspc[p].data| && d in cspc[p].data[i];
      InAllDevices(cspc, p, i, d);
    }
    forall d | d in AllDevices(cspc) ensures d in Devices(cspc) {
      var p, i := GroupOf(cspc, d);
    }
  }

  lemma SpecDisjoint(cspc: Cspc, p: nat)
    requires WellFormed(cspc) && p < |cspc|
    ensures Disjoint(cspc[p].data)
  {
    hide Unique, AllDevices, Flatten;
    SpecOfCspc(cspc, p);
    forall i | 0 <= i < |cspc[p].data| ensures Unique(cspc[p].data[i]) {
      FlattenUnique(cspc[p].data, i);
    }
    forall i, j | 0 <= i < |cspc[p].data| && 0 <= j < |cspc[p].data| && i != j
      ensures !Overlap(cspc[p].data[i], cspc[p].data[j])
    {
      forall d | d in cspc[p].data[i] ensures d !in cspc[p].data[j] {
        if d in cspc[p].data[j] { GroupsApart(cspc, p, i, p, j, d); }
      }
    }
  }

  lemma SameMarks(claims: map<Device, Claim>, claims': map<Device, Claim>, cspc: Cspc)
    requires forall d :: d in Devices(cspc) ==> (Marked(claims, d) <==> Marked(claims', d))
    requires forall d :: d in Devices(cspc) && Marked(claims, d) && Marked(claims', d) ==>
               claims[d].predecessor == claims'[d].predecessor
    ensures Marks(claims', cspc) == Marks(claims, cspc)
  {
  }

  // ---------- the webhook ----------

  /** The claims may change from `claims` to `claims'` as far as the edit is
      concerned: only devices in `touched` get or change an annotation, and the
      marks of the CSPC only go away. */
  ghost predicate Undisturbed(cspc: Cspc, claims: map<Device, Claim>, claims': map<Device, Claim>, touched: set<Device>) {
    && (forall d :: Marked(claims', d) && d !in touched ==> Marked(claims, d) && claims'[d].predecessor == claims[d].predecessor)
    && (forall d :: d in touched ==> d !in Devices(cspc))
    && (forall d :: Marked(claims', d) && Marked(claims, d) ==> claims'[d].owner == claims[d].owner)
  }

  lemma FewerMarks(cspc: Cspc, claims: map<Device, Claim>, claims': map<Device, Claim>, touched: set<Device>)
    requires Undisturbed(cspc, claims, claims', touched)
    ensures var m, m' := Marks(claims, cspc), Marks(claims', cspc);
      m'.Keys <= m.Keys && (forall d :: d in m' ==> m'[d] == m[d]) && m'.Values <= m.Values
  {
    hide Devices;
    var m, m' := Marks(claims, cspc), Marks(claims', cspc);
    forall v | v in m'.Values ensures v in m.Values {
      var n :| n in m' && m'[n] == v;
      assert m[n] == v;
    }
  }

  /** The touched devices do not matter for the edit. */
  ghost predicate Aside(cspc: Cspc, claims: map<Device, Claim>, after: Cspc, plan: map<Device, Device>, touched: set<Device>) {
    && (forall d :: d in touched ==> d !in Extra(cspc, after, plan) && d !in plan.Values)
    && (forall d :: d in Extra(cspc, after, plan) && Marked(claims, d) ==> claims[d].predecessor.value !in touched)
  }

  lemma PlanStable(cspc: Cspc, claims: map<Device, Claim>, claims': map<Device, Claim>, after: Cspc,
                   plan: map<Device, Device>, touched: set<Device>)
    requires PlanOk(cspc, claims, after, plan) && Undisturbed(cspc, claims, claims', touched)
    ensures PlanOk(cspc, claims', after, plan)
  {
    FewerMarks(cspc, claims, claims', touched);
    hide Marks, Devices;
  }

  lemma ExtraStable(cspc: Cspc, claims: map<Device, Claim>, claims': map<Device, Claim>, name: string, after: Cspc,
                    plan: map<Device, Device>, touched: set<Device>)
    requires ExtraOk(cspc, claims, name, after, plan) && Undisturbed(cspc, claims, claims', touched)
    requires Aside(cspc, claims, after, plan, touched)
    ensures ExtraOk(cspc, claims', name, after, plan)
  {
    hide Devices, Extra, Marks, HarmlessMark;
    FewerMarks(cspc, claims, claims', touched);
    forall d | d in Extra(cspc, after, plan) && Marked(claims', d) ensures HarmlessMark(cspc, claims', name, after, plan, d) {
      HarmlessStable(cspc, claims, claims', name, after, plan, touched, d);
    }
  }

  lemma HarmlessStable(cspc: Cspc, claims: map<Device, Claim>, claims': map<Device, Claim>, name: string, after: Cspc,
                       plan: map<Device, Device>, touched: set<Device>, d: Device)
    requires Undisturbed(cspc, claims, claims', touched) && Aside(cspc, claims, after, plan, touched)
    requires d in Extra(cspc, after, plan) && Marked(claims', d) && Marked(claims, d) && HarmlessMark(cspc, claims, name, after, plan, d)
    requires Marks(claims', cspc).Values <= Marks(claims, cspc).Values
    ensures HarmlessMark(cspc, claims', name, after, plan, d)
  {
    hide Devices, Marks, Extra;
  }

  lemma VettedStable(cspc: Cspc, claims: map<Device, Claim>, claims': map<Device, Claim>,
                     o: seq<Group>, n: seq<Group>, after: Cspc, plan: map<Device, Device>, touched: set<Device>)
    requires PoolVetted(cspc, claims, o, n, plan) && Undisturbed(cspc, claims, claims', touched)
    requires Aside(cspc, claims, after, plan, touched)
    requires forall k, d :: 0 <= k < |n| && d in n[k] ==> d in Devices(after)
    ensures PoolVetted(cspc, claims', o, n, plan)
  {
    hide Devices, Elems, Marks;
    FewerMarks(cspc, claims, claims', touched);
    var m, m' := Marks(claims, cspc), Marks(claims', cspc);
    forall i | 0 <= i < |o| ensures CarriedOn(o[i], n, plan, m') {
      assert CarriedOn(o[i], n, plan, m);
      var k :| 0 <= k < |n| && Carried(o[i], n[k], plan, m);
      assert Carried(o[i], n[k], plan, m');
    }
    forall k | 0 <= k < |n| ensures CarriedFrom(o, n[k], plan, m') || ExtraGroup(cspc, claims', plan, n[k]) {
      if CarriedFrom(o, n[k], plan, m) {
        var i :| 0 <= i < |o| && Carried(o[i], n[k], plan, m);
        assert Carried(o[i], n[k], plan, m');
      } else {
        assert ExtraGroup(cspc, claims, plan, n[k]);
        assert forall d :: d in n[k] ==> d in Extra(cspc, after, plan);
      }
    }
  }

  /** An edit stays ready to be stored as long as the claims change aside of it. */
  lemma ReviewStable(cspc: Cspc, claims: map<Device, Claim>, claims': map<Device, Claim>, name: string, after: Cspc,
                     plan: map<Device, Device>, touched: set<Device>)
    requires ReviewOk(cspc, claims, name, after, plan) && Undisturbed(cspc, claims, claims', touched)
    requires Aside(cspc, claims, after, plan, touched)
    requires forall x :: x in plan && x in claims' ==> claims'[x].owner == name
    ensures ReviewOk(cspc, claims', name, after, plan)
  {
    hide WellFormed, PlanOk, ExtraOk, PoolVetted, Undisturbed, Aside;
    PlanStable(cspc, claims, claims', after, plan, touched);
    ExtraStable(cspc, claims, claims', name, after, plan, touched);
    forall p | 0 <= p < |after| ensures PoolVetted(cspc, claims', cspc[p].data, after[p].data, plan) {
      VettedStable(cspc, claims, claims', cspc[p].data, after[p].data, after, plan, touched);
    }
  }

  lemma CoreParts(s: State)
    requires Core(s)
    ensures WellFormed(s.cspc) && MarksOk(Marks(s.claims, s.cspc), s.claims, s.cspc)
  {
    hide WellFormed, Synced, MarksOk, Marks;
  }

  // the annotation of one incoming device

  lemma ClaimKeepsCore(s: State, s': State, x: Device, y: Device)
    requires Core(s) && x !in Devices(s.cspc) && x !in Marks(s.claims, s.cspc).Values
    requires s' == s.(claims := Annotated(s.claims, s.name, x, y), reviews := s'.reviews)
    ensures Core(s') && Marks(s'.claims, s'.cspc) == Marks(s.claims, s.cspc)
  {
    hide WellFormed, Synced, Devices;
    SameMarks(s.claims, s'.claims, s.cspc);
    var marks := Marks(s.claims, s.cspc);
    assert forall n :: n in marks ==> marks[n] in marks.Values;
    ClaimedSame(s, s');
  }

  lemma ClaimAside(s: State, j: nat, k: nat, x: Device)
    requires Current(s, j) && ReviewOk(s.cspc, s.claims, s.name, s.reviews[j].after, s.reviews[j].plan)
    requires k in s.reviews && x in s.reviews[k].plan && x !in Devices(s.cspc)
    requires if j == k then true else !Mentions(s, s.reviews[j], x)
    ensures Aside(s.cspc, s.claims, s.reviews[j].after, s.reviews[j].plan, {x})
  {
    hide WellFormed, PoolVetted, Marks, Devices;
    var r := s.reviews[j];
    assert forall z :: z in r.plan.Values ==> z in Devices(s.cspc);
    if j == k {
      assert x in Devices(r.after);
    }
  }

  lemma ClaimKeepsReviews(s: State, s': State, k: nat, x: Device)
    requires Inv(s) && Step(s, ClaimIncoming(k, x), s') && HarmlessClaim(s, k, x) && s'.claims != s.claims
    requires x !in Devices(s.cspc) && x !in Marks(s.claims, s.cspc).Values
    ensures ReviewsOk(s')
  {
    hide Core, ReviewOk, Devices, Marks, Mentions;
    var claims := s'.claims;
    assert Undisturbed(s.cspc, s.claims, claims, {x});
    forall j | Current(s', j)
      ensures ReviewOk(s'.cspc, claims, s'.name, s'.reviews[j].after, s'.reviews[j].plan)
    {
      assert Current(s, j);
      var r := s.reviews[j];
      ClaimAside(s, j, k, x);
      ReviewOwners(s, j);
      ReviewStable(s.cspc, s.claims, claims, s.name, r.after, r.plan, {x});
    }
  }

  lemma ReviewOwners(s: State, j: nat)
    requires j in s.reviews && ReviewOk(s.cspc, s.claims, s.name, s.reviews[j].after, s.reviews[j].plan)
    ensures forall x :: x in s.reviews[j].plan && x in s.claims ==> s.claims[x].owner == s.name
  {
    hide WellFormed, PlanOk, ExtraOk, PoolVetted;
  }

  lemma ClaimKeepsInv(s: State, s': State, k: nat, x: Device)
    requires Inv(s) && Step(s, ClaimIncoming(k, x), s') && HarmlessClaim(s, k, x)
    ensures Inv(s')
  {
    hide Core, ReviewOk, Devices, Marks, Mentions;
    if s'.claims == s.claims {
      SameCore(s, s');
      forall j | Current(s', j)
        ensures ReviewOk(s'.cspc, s'.claims, s'.name, s'.reviews[j].after, s'.reviews[j].plan)
      {
        assert Current(s, j);
      }
    } else {
      ClaimKeepsCore(s, s', x, s.reviews[k].plan[x]);
      ClaimKeepsReviews(s, s', k, x);
    }
  }

  lemma SameCore(s: State, s': State)
    requires Core(s) && s' == s.(reviews := s'.reviews)
    ensures Core(s')
  {
    hide WellFormed, Synced, MarksOk, Marks, MarksOwned;
    ClaimedSame(s, s');
  }

  lemma AbortKeepsInv(s: State, s': State, k: nat)
    requires Inv(s) && Step(s, Abort(k), s')
    ensures Inv(s')
  {
    hide Core, ReviewOk;
    SameCore(s, s');
    forall j | Current(s', j)
      ensures ReviewOk(s'.cspc, s'.claims, s'.name, s'.reviews[j].after, s'.reviews[j].plan)
    {
      assert Current(s, j);
    }
  }

  // ---------- storing a vetted edit ----------

  /** The edit is vetted and all its incoming devices are annotated. */
  ghost predicate Ready(s: State, after: Cspc, plan: map<Device, Device>) {
    && Core(s) && ReviewOk(s.cspc, s.claims, s.name, after, plan)
    && forall x :: x in plan ==> x in s.claims && s.claims[x].predecessor == Some(plan[x])
  }

  /** The annotations of the devices that come in by expansion. */
  ghost function ExtraMarks(s: State, after: Cspc, plan: map<Device, Device>): map<Device, Device> {
    map d | d in Extra(s.cspc, after, plan) && Marked(s.claims, d) :: s.claims[d].predecessor.value
  }

  /** The marks once the edit is stored. */
  ghost function StoredMarks(s: State, after: Cspc, plan: map<Device, Device>): map<Device, Device> {
    Marks(s.claims, s.cspc) + plan + ExtraMarks(s, after, plan)
  }

  lemma StoredApart(s: State, after: Cspc, plan: map<Device, Device>)
    requires Ready(s, after, plan)
    ensures forall d :: d in plan ==> d !in Marks(s.claims, s.cspc) && d !in ExtraMarks(s, after, plan)
    ensures forall d :: d in Marks(s.claims, s.cspc) ==> d !in ExtraMarks(s, after, plan)
  {
    hide WellFormed, Synced, MarksOk, PoolVetted, ExtraOk, CspisClaimed;
  }

  /** A marked device stays in the CSPC: no other device of its group may be
      exchanged while the mark is there, nor the device itself. */
  lemma MarkedStays(cspc: Cspc, claims: map<Device, Claim>, after: Cspc, plan: map<Device, Device>, d: Device)
    requires |after| == |cspc| && d in Marks(claims, cspc)
    requires forall p :: 0 <= p < |after| ==> PoolVetted(cspc, claims, cspc[p].data, after[p].data, plan)
    ensures d in Devices(after)
  {
    var p, i :| 0 <= p < |cspc| && 0 <= i < |cspc[p].data| && d in cspc[p].data[i];
    var news, marks := after[p].data, Marks(claims, cspc);
    assert PoolVetted(cspc, claims, cspc[p].data, news, plan);
    assert CarriedOn(cspc[p].data[i], news, plan, marks);
    var k :| 0 <= k < |news| && Carried(cspc[p].data[i], news[k], plan, marks);
    assert d in Elems(cspc[p].data[i]);
    assert d in Elems(news[k]);
  }

  lemma CommitMarks(s: State, after: Cspc, plan: map<Device, Device>)
    requires Ready(s, after, plan)
    ensures Marks(s.claims, after) == StoredMarks(s, after, plan)
  {
    hide WellFormed, Synced, PoolVetted, MarksOk, CspisClaimed, ExtraOk, Devices;
    StoredApart(s, after, plan);
    var m, m' := StoredMarks(s, after, plan), Marks(s.claims, after);
    forall d | d in m ensures d in m' {
      if d in Marks(s.claims, s.cspc) { MarkedStays(s.cspc, s.claims, after, plan, d); }
    }
    assert forall d :: d in m' ==> d in m && m'[d] == m[d];
  }

  lemma CommitOneMark(s: State, after: Cspc, plan: map<Device, Device>, p: nat, k: nat)
    requires Ready(s, after, plan) && p < |s.cspc| && k < |after[p].data|
    ensures OneMark(after[p].data[k], StoredMarks(s, after, plan))
  {
    hide WellFormed, CspisClaimed, MarksOk, Marks, Disjoint, FollowsSome, ExtraOk;
    var marks := Marks(s.claims, s.cspc);
    var olds, n := s.cspc[p].data, after[p].data[k];
    assert PoolVetted(s.cspc, s.claims, olds, after[p].data, plan);
    if CarriedFrom(olds, n, plan, marks) {
      var i :| 0 <= i < |olds| && Carried(olds[i], n, plan, marks);
      assert Lagging(olds, s.cspis[p], marks);
      assert OneMark(olds[i], marks);
      CarriedMarks(s.cspc, p, i, n, plan, marks, ExtraMarks(s, after, plan));
    } else {
      ExtraGroupMarks(s, after, plan, n);
    }
  }

  lemma ExtraGroupMarks(s: State, after: Cspc, plan: map<Device, Device>, g: Group)
    requires ExtraGroup(s.cspc, s.claims, plan, g)
    ensures OneMark(g, StoredMarks(s, after, plan))
  {
  }

  lemma CarriedMarks(cspc: Cspc, p: nat, i: nat, n: Group, plan: map<Device, Device>, marks: map<Device, Device>, extra: map<Device, Device>)
    requires p < |cspc| && i < |cspc[p].data| && Carried(cspc[p].data[i], n, plan, marks)
    requires OneMark(cspc[p].data[i], marks)
    requires forall x :: x in plan ==> x !in Devices(cspc)
    requires forall x :: x in extra ==> x !in Devices(cspc) && x !in plan
    ensures OneMark(n, marks + plan + extra)
  {
    var o := cspc[p].data[i];
    forall d | d in o ensures d !in plan && d !in extra {
      assert d in Devices(cspc);
    }
    assert forall d :: d in n <==> d in Elems(n);
    assert forall d :: d in o <==> d in Elems(o);
    if Elems(n) != Elems(o) {
      var x :| x in plan && plan[x] in o && x !in o && Elems(n) == Elems(o) - {plan[x]} + {x}
               && forall d :: d in o ==> d !in marks;
    }
  }

  /** A CSPI group that followed an old group follows the new one it is carried to. */
  lemma CarriedFollows(o: Group, n: Group, h: Group, plan: map<Device, Device>, marks: map<Device, Device>, extra: map<Device, Device>)
    requires Carried(o, n, plan, marks) && Follows(o, h, marks)
    requires forall x :: x in plan ==> x !in marks && x !in extra
    requires forall x :: x in marks ==> x !in extra
    ensures Follows(n, h, marks + plan + extra)
  {
    var m' := marks + plan + extra;
    assert forall d :: d in o <==> d in Elems(o);
    assert forall d :: d in n <==> d in Elems(n);
    if Elems(n) == Elems(o) {
      if Elems(h) != Elems(o) {
        var z :| z in marks && Lags(o, h, z, marks[z]);
        assert z in m' && Lags(n, h, z, m'[z]);
      }
    } else {
      var x :| x in plan && plan[x] in o && x !in o && Elems(n) == Elems(o) - {plan[x]} + {x}
               && forall d :: d in o ==> d !in marks;
      assert Elems(h) == Elems(o);
      assert Elems(h) == Elems(n) - {x} + {plan[x]};
      assert x in m' && Lags(n, h, x, m'[x]);
    }
  }

  lemma CommitFollows(s: State, after: Cspc, plan: map<Device, Device>, p: nat, j: nat)
    requires Ready(s, after, plan) && p < |s.cspc| && p < |s.cspis| && j < |s.cspis[p]|
    ensures FollowsSome(after[p].data, s.cspis[p][j], StoredMarks(s, after, plan))
  {
    hide WellFormed, CspisClaimed, MarksOk, Devices, Lagging, Carried, Follows, ExtraGroup, ExtraOk;
    StoredApart(s, after, plan);
    var marks := Marks(s.claims, s.cspc);
    var olds, news := s.cspc[p].data, after[p].data;
    assert Lagging(olds, s.cspis[p], marks);
    var i := Followed(olds, s.cspis[p], marks, j);
    assert PoolVetted(s.cspc, s.claims, olds, news, plan);
    assert CarriedOn(olds[i], news, plan, marks);
    var k :| 0 <= k < |news| && Carried(olds[i], news[k], plan, marks);
    CarriedFollows(olds[i], news[k], s.cspis[p][j], plan, marks, ExtraMarks(s, after, plan));
  }

  /** No predecessor, old or new, is in the edited CSPC. */
  lemma CommitPredecessors(s: State, after: Cspc, plan: map<Device, Device>, n: Device)
    requires Ready(s, after, plan) && n in StoredMarks(s, after, plan)
    ensures StoredMarks(s, after, plan)[n] !in Devices(after)
  {
    hide WellFormed, CspisClaimed, Synced, PoolVetted, Devices;
    StoredApart(s, after, plan);
    var marks := Marks(s.claims, s.cspc);
    if n !in plan && n !in ExtraMarks(s, after, plan) {
      var o := marks[n];
      assert o in marks.Values && o !in Devices(s.cspc);
      assert o in Devices(after) ==> o in plan || o in Extra(s.cspc, after, plan);
    }
  }

  lemma CommitLagging(s: State, after: Cspc, plan: map<Device, Device>, p: nat)
    requires Ready(s, after, plan) && p < |s.cspc| && p < |s.cspis|
    ensures Lagging(after[p].data, s.cspis[p], StoredMarks(s, after, plan))
  {
    hide CspisClaimed, MarksOk, Marks, OneMark, FollowsSome, PoolVetted, PlanOk, Unique, AllDevices, ExtraOk, StoredMarks;
    var marks := StoredMarks(s, after, plan);
    SpecDisjoint(after, p);
    assert Lagging(s.cspc[p].data, s.cspis[p], Marks(s.claims, s.cspc));
    forall j | 0 <= j < |s.cspis[p]| ensures FollowsSome(after[p].data, s.cspis[p][j], marks) {
      CommitFollows(s, after, plan, p, j);
    }
    forall i | 0 <= i < |after[p].data| ensures |after[p].data[i]| >= 2 && OneMark(after[p].data[i], marks) {
      CommitOneMark(s, after, plan, p, i);
    }
    forall i, n | 0 <= i < |after[p].data| && n in marks ensures marks[n] !in after[p].data[i] {
      CommitPredecessors(s, after, plan, n);
    }
  }

  lemma CommitMarksOk(s: State, after: Cspc, plan: map<Device, Device>)
    requires Ready(s, after, plan)
    ensures MarksOk(StoredMarks(s, after, plan), s.claims, after)
  {
    hide Ready, StoredMarks, Devices, Marked;
    var marks := StoredMarks(s, after, plan);
    forall n | n in marks ensures marks[n] !in Devices(after) && marks[n] != "" && !Marked(s.claims, marks[n]) {
      CommitPredecessors(s, after, plan, n);
      CommitUnmarked(s, after, plan, n);
    }
    CommitInjective(s, after, plan);
  }

  lemma CommitUnmarked(s: State, after: Cspc, plan: map<Device, Device>, n: Device)
    requires Ready(s, after, plan) && n in StoredMarks(s, after, plan)
    ensures StoredMarks(s, after, plan)[n] != "" && !Marked(s.claims, StoredMarks(s, after, plan)[n])
  {
    hide CspisClaimed, Synced, PoolVetted, Devices, WellFormed, DistinctAnnotations;
    NoEmptyName(s.cspc);
  }

  ghost predicate Injective(m: map<Device, Device>) {
    forall n, n' :: n in m && n' in m && m[n] == m[n'] ==> n == n'
  }

  lemma CommitInjective(s: State, after: Cspc, plan: map<Device, Device>)
    requires Ready(s, after, plan)
    ensures Injective(StoredMarks(s, after, plan))
  {
    hide Ready, Marks, ExtraMarks, Devices;
    StoredApart(s, after, plan);
    StoredValues(s, after, plan);
    StoredInjective(s, after, plan);
  }

  /** The three kinds of marks have different predecessors... */
  lemma StoredValues(s: State, after: Cspc, plan: map<Device, Device>)
    requires Ready(s, after, plan)
    ensures var marks, extra := Marks(s.claims, s.cspc), ExtraMarks(s, after, plan);
      && (forall n :: n in marks ==> marks[n] in marks.Values && marks[n] !in Devices(s.cspc))
      && (forall n :: n in plan ==> plan[n] in plan.Values && plan[n] in Devices(s.cspc))
      && (forall n :: n in extra ==> extra[n] !in marks.Values && extra[n] !in plan.Values)
  {
    hide WellFormed, CspisClaimed, Synced, PoolVetted, Devices, DistinctAnnotations;
  }

  /** ...and so have the marks of one kind. */
  lemma StoredInjective(s: State, after: Cspc, plan: map<Device, Device>)
    requires Ready(s, after, plan)
    ensures Injective(Marks(s.claims, s.cspc)) && Injective(plan) && Injective(ExtraMarks(s, after, plan))
  {
    hide WellFormed, CspisClaimed, Synced, PoolVetted, Devices, Marks, HarmlessMark;
  }

  lemma NoEmptyName(cspc: Cspc)
    requires WellFormed(cspc)
    ensures "" !in Devices(cspc)
  {
    hide Unique, AllDevices, Devices;
    DevicesAre(cspc);
  }

  lemma CommitOwned(s: State, after: Cspc, plan: map<Device, Device>)
    requires Ready(s, after, plan)
    ensures MarksOwned(s.claims, after, s.name)
  {
    hide WellFormed, CspisClaimed, MarksOk, Synced, PoolVetted, Devices;
    assert forall n :: n in Devices(after) ==> n in Devices(s.cspc) || n in plan || n in Extra(s.cspc, after, plan);
  }

  /** Storing a vetted edit keeps the invariant. */
  lemma CommitKeepsCore(s: State, s': State, after: Cspc, plan: map<Device, Device>)
    requires Ready(s, after, plan) && s' == s.(cspc := after, version := s'.version, reviews := s'.reviews)
    ensures Core(s')
  {
    hide WellFormed, CspisClaimed, MarksOk, Marks, Lagging, PoolVetted, PlanOk, ExtraOk, MarksOwned, StoredMarks;
    CommitMarks(s, after, plan);
    CommitMarksOk(s, after, plan);
    CommitOwned(s, after, plan);
    forall p | 0 <= p < |s.cspc| ensures Lagging(s'.cspc[p].data, s'.cspis[p], Marks(s'.claims, s'.cspc)) {
      CommitLagging(s, after, plan, p);
    }
    ClaimedSame(s, s');
  }

  lemma CommitKeepsInv(s: State, s': State, k: nat)
    requires Inv(s) && Step(s, Commit(k), s') && Intact(s, k)
    ensures Inv(s')
  {
    hide Core, ReviewOk;
    var r := s.reviews[k];
    assert Current(s, k);
    assert Ready(s, r.after, r.plan);
    CommitKeepsCore(s, s', r.after, r.plan);
    assert forall j :: j in s'.reviews ==> s'.reviews[j].base <= s.version;
    assert forall j :: !Current(s', j);
  }

  lemma ClaimedSame(s: State, s': State)
    requires CspisClaimed(s) && s'.cspis == s.cspis && s.claims.Keys <= s'.claims.Keys
    ensures CspisClaimed(s')
  {
  }

  // ---------- steps that only take annotations away ----------

  lemma ReviewsStable(s: State, s': State)
    requires ReviewsOk(s) && s' == s.(claims := s'.claims) && Undisturbed(s.cspc, s.claims, s'.claims, {})
    requires forall d :: d in s'.claims ==> (d in s.claims && s'.claims[d].owner == s.claims[d].owner) || s'.claims[d].owner == s.name
    requires forall d :: d in s.claims && d !in Devices(s.cspc) && d !in Marks(s.claims, s.cspc).Values ==>
               d in s'.claims && s'.claims[d] == s.claims[d]
    ensures ReviewsOk(s')
  {
    hide ReviewOk, Devices, Marks, Undisturbed;
    forall j | Current(s', j)
      ensures ReviewOk(s'.cspc, s'.claims, s'.name, s'.reviews[j].after, s'.reviews[j].plan)
    {
      assert Current(s, j);
      var r := s.reviews[j];
      ReviewOwners(s, j);
      PlanOutside(s, j);
      ReviewStable(s.cspc, s.claims, s'.claims, s.name, r.after, r.plan, {});
    }
  }

  /** Incoming devices are neither in the CSPC nor predecessors. */
  lemma PlanOutside(s: State, j: nat)
    requires j in s.reviews && ReviewOk(s.cspc, s.claims, s.name, s.reviews[j].after, s.reviews[j].plan)
    ensures forall x :: x in s.reviews[j].plan ==> x !in Devices(s.cspc) && x !in Marks(s.claims, s.cspc).Values
  {
    hide WellFormed, ExtraOk, PoolVetted, Devices, Marks;
  }

  // ---------- the operator ----------

  lemma ClaimExpansionKeepsInv(s: State, s': State, d: Device)
    requires Inv(s) && Step(s, ClaimExpansion(d), s')
    ensures Inv(s')
  {
    hide WellFormed, Synced, Devices, ReviewsOk, CspisClaimed, Marks, MarksOk, MarksOwned;
    SameMarks(s.claims, s'.claims, s.cspc);
    ClaimExpansionMarks(s, s', d);
    ClaimedSame(s, s');
    ReviewsStable(s, s');
  }

  lemma ClaimExpansionMarks(s: State, s': State, d: Device)
    requires Inv(s) && Step(s, ClaimExpansion(d), s') && Marks(s'.claims, s.cspc) == Marks(s.claims, s.cspc)
    ensures MarksOk(Marks(s'.claims, s.cspc), s'.claims, s.cspc) && MarksOwned(s'.claims, s.cspc, s.name)
  {
    hide WellFormed, Synced, Devices, ReviewsOk, CspisClaimed, Marks;
  }

  lemma CspiKeepsInv(s: State, s': State, p: nat, insts: seq<Group>)
    requires Inv(s) && p < |s.cspis| && s' == s.(cspis := s.cspis[p := insts])
    requires Lagging(s.cspc[p].data, insts, Marks(s.claims, s.cspc))
    requires forall j, d :: 0 <= j < |insts| && d in insts[j] ==> d in s.claims
    ensures Inv(s')
  {
    hide WellFormed, MarksOk, ReviewOk, Marks, Lagging, MarksOwned;
    forall j | Current(s', j)
      ensures ReviewOk(s'.cspc, s'.claims, s'.name, s'.reviews[j].after, s'.reviews[j].plan)
    {
      assert Current(s, j);
    }
    forall q, d | 0 <= q < |s'.cspis| && OnCspi(s'.cspis, q, d) ensures d in s'.claims {
      if q != p { assert OnCspi(s.cspis, q, d); }
    }
  }

  lemma ExpandKeepsInv(s: State, s': State, p: nat, usable: set<Device>)
    requires Inv(s) && Step(s, Expand(p, usable), s')
    ensures Inv(s')
  {
    hide WellFormed, MarksOk, ReviewsOk, Marks, Lagging;
    var specs, insts := s.cspc[p].data, s.cspis[p];
    assert specs[0..] == specs;
    ExpandedLagging(specs, insts, Marks(s.claims, s.cspc), usable, 0);
    var r := Expanded(specs, insts, usable);
    forall j, d | 0 <= j < |r| && d in r[j] ensures d in s.claims {
      if j < |insts| {
        assert r[j] == r[..|insts|][j];
        assert OnCspi(s.cspis, p, d);
      } else {
        assert d in Elems(r[j]);
      }
    }
    CspiKeepsInv(s, s', p, r);
  }

  lemma CopyKeepsInv(s: State, s': State, p: nat, insts: seq<Group>, usable: set<Device>)
    requires Inv(s) && Step(s, Copy(p, insts, usable), s')
    ensures Inv(s')
  {
    hide WellFormed, MarksOk, ReviewsOk, Marks, Lagging, CaughtUp, CopyGroups;
    var specs, marks := s.cspc[p].data, Marks(s.claims, s.cspc);
    assert specs[0..] == specs;
    CopyGroupsLagging(specs, s.cspis[p], insts, marks, usable, 0);
    forall j, d | 0 <= j < |insts| && d in insts[j] ensures d in s.claims {
      assert Moved(specs, s.cspis[p][j], insts[j], marks, usable, 0, |specs|);
      if d in s.cspis[p][j] {
        assert OnCspi(s.cspis, p, d);
      } else {
        MovedDevice(specs, s.cspis[p][j], insts[j], marks, usable, d);
      }
    }
    CspiKeepsInv(s, s', p, insts);
  }

  lemma MovedDevice(specs: seq<Group>, h: Group, h': Group, marks: map<Device, Device>, usable: set<Device>, d: Device)
    requires Moved(specs, h, h', marks, usable, 0, |specs|) && d in h' && d !in h
    ensures d in usable
  {
  }

  // ---------- the pool-manager ----------

  /** A device on a CSPI that is no predecessor is a device of the CSPC, in the
      group its CSPI group follows. */
  lemma ArrivedInGroup(cspc: Cspc, cspis: seq<seq<Group>>, marks: map<Device, Device>, p: nat, j: nat, n: Device) returns (i: nat)
    requires Synced(cspc, cspis, marks) && p < |cspis| && j < |cspis[p]| && n in cspis[p][j] && n !in marks.Values
    ensures i < |cspc[p].data| && Follows(cspc[p].data[i], cspis[p][j], marks) && n in cspc[p].data[i]
  {
    hide Lagging;
    assert Lagging(cspc[p].data, cspis[p], marks);
    i := Followed(cspc[p].data, cspis[p], marks, j);
    assert n in Elems(cspis[p][j]);
    assert n in Elems(cspc[p].data[i]);
  }

  /** Once the incoming device is on a CSPI, no CSPI group lags by that pair. */
  lemma ArrivedMeansSynced(cspc: Cspc, cspis: seq<seq<Group>>, marks: map<Device, Device>, p: nat, j: nat, n: Device, q: nat, i: nat, k: nat)
    requires WellFormed(cspc) && Synced(cspc, cspis, marks) && n in marks && n !in marks.Values
    requires p < |cspis| && j < |cspis[p]| && n in cspis[p][j] && q < |cspis| && i < |cspc[q].data| && k < |cspis[q]|
    ensures !Lags(cspc[q].data[i], cspis[q][k], n, marks[n])
  {
    hide Lagging, Unique, AllDevices;
    if Lags(cspc[q].data[i], cspis[q][k], n, marks[n]) {
      var i' := ArrivedInGroup(cspc, cspis, marks, p, j, n);
      GroupsApart(cspc, p, i', q, i, n);
      FollowsOnce(cspc[p].data, cspis[p], marks, i, j, k);
      LaggingLacks(cspc[q].data[i], cspis[q][k], n, marks[n]);
      assert false;
    }
  }

  lemma LaggingLacks(g: Group, h: Group, n: Device, o: Device)
    requires Lags(g, h, n, o)
    ensures n !in h
  {
    assert n in h <==> n in Elems(h);
    assert n in Elems(g);
  }

  /** The predecessor of an incoming device that is on a CSPI is on no CSPI. */
  lemma ArrivedPredecessor(cspc: Cspc, cspis: seq<seq<Group>>, marks: map<Device, Device>, p: nat, n: Device, q: nat)
    requires WellFormed(cspc) && Synced(cspc, cspis, marks) && Injective(marks) && n in marks && n !in marks.Values
    requires OnCspi(cspis, p, n) && marks[n] !in Devices(cspc)
    ensures !OnCspi(cspis, q, marks[n])
  {
    hide WellFormed, Lagging, Devices;
    var j :| 0 <= j < |cspis[p]| && n in cspis[p][j];
    var o := marks[n];
    if q < |cspis| {
      forall k | 0 <= k < |cspis[q]| ensures o !in cspis[q][k] {
        assert Lagging(cspc[q].data, cspis[q], marks);
        var i := Followed(cspc[q].data, cspis[q], marks, k);
        ArrivedMeansSynced(cspc, cspis, marks, p, j, n, q, i, k);
        InDevices(cspc, q, i, o);
        assert o in cspis[q][k] <==> o in Elems(cspis[q][k]);
      }
    }
  }

  /** Once the incoming device is on a CSPI, its mark is not needed any more. */
  lemma ArrivedUnneeded(cspc: Cspc, cspis: seq<seq<Group>>, marks: map<Device, Device>, p: nat, n: Device)
    requires WellFormed(cspc) && Synced(cspc, cspis, marks) && n in marks && n !in marks.Values && OnCspi(cspis, p, n)
    ensures Synced(cspc, cspis, marks - {n})
  {
    hide Lagging, WellFormed;
    var j :| 0 <= j < |cspis[p]| && n in cspis[p][j];
    forall q | 0 <= q < |cspc| ensures Lagging(cspc[q].data, cspis[q], marks - {n}) {
      assert Lagging(cspc[q].data, cspis[q], marks);
      forall i, k | 0 <= i < |cspc[q].data| && 0 <= k < |cspis[q]| ensures !Lags(cspc[q].data[i], cspis[q][k], n, marks[n]) {
        ArrivedMeansSynced(cspc, cspis, marks, p, j, n, q, i, k);
      }
      LaggingFewer(cspc[q].data, cspis[q], marks, n);
    }
  }

  lemma LaggingFewer(specs: seq<Group>, insts: seq<Group>, marks: map<Device, Device>, n: Device)
    requires Lagging(specs, insts, marks) && n in marks
    requires forall i, k :: 0 <= i < |specs| && 0 <= k < |insts| ==> !Lags(specs[i], insts[k], n, marks[n])
    ensures Lagging(specs, insts, marks - {n})
  {
    hide Unique, Disjoint, OneMark;
    forall k | 0 <= k < |insts| ensures FollowsSome(specs, insts[k], marks - {n}) {
      var i := Followed(specs, insts, marks, k);
      FollowsFewer(specs[i], insts[k], marks, n);
    }
    forall i | 0 <= i < |specs| ensures OneMark(specs[i], marks - {n}) {
      assert OneMark(specs[i], marks);
      OneMarkFewer(specs[i], marks, n);
    }
  }

  /** The marks of the CSPC in a state that keeps the invariant. */
  lemma MarksFacts(s: State)
    requires Inv(s)
    ensures var marks := Marks(s.claims, s.cspc);
      && Injective(marks)
      && (forall n :: n in marks ==> marks[n] !in Devices(s.cspc) && marks[n] != "" && !Marked(s.claims, marks[n]))
      && (forall o :: o in marks.Values ==> !Marked(s.claims, o))
  {
    hide WellFormed, ReviewsOk, Synced, CspisClaimed, Devices;
  }

  /** The predecessor of a device that is on a CSPI is used by no CSPI. */
  lemma PredecessorUnused(s: State, p: nat, n: Device, q: nat)
    requires Inv(s) && OnCspi(s.cspis, p, n) && Marked(s.claims, n)
    ensures n in Marks(s.claims, s.cspc)
    ensures !OnCspi(s.cspis, q, s.claims[n].predecessor.value)
  {
    hide WellFormed, ReviewsOk, Lagging;
    var j :| 0 <= j < |s.cspis[p]| && n in s.cspis[p][j];
    var marks := Marks(s.claims, s.cspc);
    MarksFacts(s);
    var i := ArrivedInGroup(s.cspc, s.cspis, marks, p, j, n);
    assert n in Devices(s.cspc);
    ArrivedPredecessor(s.cspc, s.cspis, marks, p, n, q);
  }

  lemma InDevices(cspc: Cspc, p: nat, i: nat, d: Device)
    requires p < |cspc| && i < |cspc[p].data| && d !in Devices(cspc)
    ensures d !in cspc[p].data[i]
  {
  }

  /** The claim that goes is the one of a predecessor outside the CSPC. */
  lemma Released(s: State, s': State, p: nat, n: Device, path: Device, topology: set<Device>) returns (o: Device)
    requires Inv(s) && Step(s, ReleaseOld(p, n, path, topology), s')
    ensures s' == s.(claims := s.claims - {o}) && o in Marks(s.claims, s.cspc).Values
    ensures o !in Devices(s.cspc) && !Marked(s.claims, o)
  {
    hide WellFormed, Synced, Devices, ReviewsOk, CspisClaimed, MarksOwned;
    o := s.claims[n].predecessor.value;
    var marks := Marks(s.claims, s.cspc);
    PredecessorUnused(s, p, n, p);
    assert marks[n] == o && o in marks.Values;
  }

  lemma ReleaseKeepsInv(s: State, s': State, p: nat, n: Device, path: Device, topology: set<Device>)
    requires Inv(s) && Step(s, ReleaseOld(p, n, path, topology), s')
    ensures Inv(s')
  {
    hide Step, WellFormed, Synced, Devices, ReviewsOk, CspisClaimed, Marks;
    var o := Released(s, s', p, n, path, topology);
    SameMarks(s.claims, s'.claims, s.cspc);
    ReleaseKeepsClaims(s, s', p, n, path, topology);
    ReviewsStable(s, s');
  }

  lemma ReleaseKeepsClaims(s: State, s': State, p: nat, n: Device, path: Device, topology: set<Device>)
    requires Inv(s) && Step(s, ReleaseOld(p, n, path, topology), s')
    ensures CspisClaimed(s')
  {
    hide WellFormed, Synced, ReviewsOk, MarksOk, OnCspi;
    forall q, d | 0 <= q < |s'.cspis| && OnCspi(s'.cspis, q, d) ensures d in s'.claims {
      PredecessorUnused(s, p, n, q);
    }
  }

  lemma ClearedMarks(s: State, s': State, p: nat, n: Device, path: Device, topology: set<Device>)
    requires Inv(s) && Step(s, ClearMark(p, n, path, topology), s')
    ensures Marks(s'.claims, s'.cspc) == Marks(s.claims, s.cspc) - {n}
    ensures n in Devices(s.cspc)
  {
    hide WellFormed, Synced, ReviewsOk, MarksOk, Devices;
    PredecessorUnused(s, p, n, p);
  }

  lemma FollowsFewer(g: Group, h: Group, marks: map<Device, Device>, n: Device)
    requires Follows(g, h, marks) && n in marks && !Lags(g, h, n, marks[n])
    ensures Follows(g, h, marks - {n})
  {
    if Elems(h) != Elems(g) {
      var z :| z in marks && Lags(g, h, z, marks[z]);
      assert z in marks - {n};
    }
  }

  lemma OneMarkFewer(g: Group, marks: map<Device, Device>, n: Device)
    requires OneMark(g, marks)
    ensures OneMark(g, marks - {n})
  {
  }

  lemma ClearKeepsInv(s: State, s': State, p: nat, n: Device, path: Device, topology: set<Device>)
    requires Inv(s) && Step(s, ClearMark(p, n, path, topology), s')
    ensures Inv(s')
  {
    hide WellFormed, ReviewOk, ReviewsOk, Devices, CspisClaimed, Marks, Synced, OnCspi;
    ClearedMarks(s, s', p, n, path, topology);
    MarksFacts(s);
    ClaimedSame(s, s');
    PredecessorUnused(s, p, n, p);
    ArrivedUnneeded(s.cspc, s.cspis, Marks(s.claims, s.cspc), p, n);
    ReviewsStable(s, s');
  }
}
