/** Asking for a scale-down before all replicas are registered: the exact
  condition, to be read off the state before the edit, under which the operator
  may come to delete the CVR of a replica that is known. */
module ScaleDownEarly {
  import opened Lists
  import opened CvcAdmission
  import opened VolumeScaling
  import opened ScaleDown
  import opened ScaleDownTheorems
  import opened ScaleDownRecovery
  import opened VolumeStore
  import opened ScaleDownEdits

  ghost predicate IsRegistered(s: State, q: Pool) {
    Live(s, q) && s.cvrs[q].id in s.cv.specKnown
  }

  /** The replicas of all pools that stay are known. */
  ghost predicate RestRegistered(s: State, pools: seq<Pool>) {
    forall q :: q in pools ==> IsRegistered(s, q)
  }

  /** Without another edit a known replica may be deleted. */
  ghost predicate MayDeletePending(s: State) {
    exists acts, a, p :: NoEdits(acts) && AllowedRun(s, acts) && DeletesKnown(Run(s, acts), a, p)
  }

  /** The scale-down of pool `p` to `pools` is pending or over. */
  ghost predicate Removing(s: State, pools: seq<Pool>, p: Pool) {
    && Inv(s) && s.cvc.desired == pools && p !in pools && |pools| <= |s.cvc.current|
    && (s.op != OpIdle ==> Elems(s.op.snap.desired) == Elems(pools))
    && (Shrinking(s.cvc) ==> RemovedPools(s.cvc) == [p])
  }

  lemma RemovingOp(s: State, pools: seq<Pool>, p: Pool)
    requires Removing(s, pools, p) && s.op != OpIdle
    ensures ScalingDown(s.op) && Shrinking(s.cvc) && RemovedPools(s.op.snap) == [p] && |s.op.snap.desired| == |pools|
    ensures !s.op.DownStarted? ==> s.cv.drf == |pools|
    ensures s.op.snap.rv == s.cvc.rv ==> s.op.snap == s.cvc
  {
    hide Inv, Unique, ListDiff;
    InvLists(s);
    SameRemoved(s.cvc, s.op.snap);
  }

  lemma StepKeepsRemoving(s: State, a: Action, pools: seq<Pool>, p: Pool)
    requires Removing(s, pools, p) && !a.Edit?
    ensures Removing(Step(s, a), pools, p)
  {
    hide Inv, ListDiff, Unique, OpCreate, OpDelete, OpSize, OpStart, OpFinish, Register, Finalize, AssignId;
    StepKeepsInv(s, a);
    if a.OperatorFinish? {
      FinishRemoves(s, pools, p);
    } else {
      SameListsAfter(s, a, pools, p);
    }
  }

  lemma FinishRemoves(s: State, pools: seq<Pool>, p: Pool)
    requires Removing(s, pools, p)
    ensures var s' := OpFinish(s);
      s'.cvc.desired == pools && |pools| <= |s'.cvc.current| && (s'.op == OpIdle || s'.op == s.op)
      && (Shrinking(s'.cvc) ==> s'.cvc.current == s.cvc.current)
  {
    hide Inv, ListDiff, Unique;
    if s.op != OpIdle { RemovingOp(s, pools, p); }
  }

  lemma SameListsAfter(s: State, a: Action, pools: seq<Pool>, p: Pool)
    requires Removing(s, pools, p) && !a.Edit? && !a.OperatorFinish?
    ensures var s' := Step(s, a);
      SameLists(s'.cvc, s.cvc) && (s'.op != OpIdle ==> Elems(s'.op.snap.desired) == Elems(pools))
  {
    hide Inv, ListDiff, Unique;
  }

  // ---------- nothing is deleted if the removed replica is gone ----------

  /** Only the operator marks a CVR for deletion: that of the removed pool. */
  lemma OnlyRemovedDeleted(s: State, a: Action, pools: seq<Pool>, p: Pool, q: Pool)
    requires Removing(s, pools, p) && Live(s, q) && q in Step(s, a).cvrs && Step(s, a).cvrs[q].deleting
    ensures q == p && s.cv.drf == |pools|
  {
    hide Inv, ListDiff, Unique, Admitted;
    if s.op != OpIdle { RemovingOp(s, pools, p); }
  }

  /** No CVR comes into being, and one being deleted is not revived. */
  lemma StaysDead(s: State, a: Action, pools: seq<Pool>, p: Pool)
    requires Removing(s, pools, p) && !Live(s, p)
    ensures !Live(Step(s, a), p)
  {
    hide Inv, ListDiff, Unique, Admitted;
    if s.op != OpIdle { RemovingOp(s, pools, p); }
  }

  lemma {:induction false} DeadNeverDeleted(s: State, acts: seq<Action>, pools: seq<Pool>, p: Pool)
    requires Removing(s, pools, p) && !Live(s, p) && NoEdits(acts)
    ensures Removing(Run(s, acts), pools, p) && !Live(Run(s, acts), p)
    decreases |acts|
  {
    hide Removing, Step, Live;
    if acts != [] {
      StepKeepsRemoving(s, acts[0], pools, p);
      StaysDead(s, acts[0], pools, p);
      DeadNeverDeleted(Step(s, acts[0]), acts[1..], pools, p);
    }
  }

  // ---------- nothing is deleted if the replicas that stay are known ----------

  /** The replicas that stay are known under different ids, and once the factor is
      lowered the removed one is not. */
  ghost predicate Full(s: State, pools: seq<Pool>, p: Pool) {
    && RestRegistered(s, pools) && DistinctIds(s.cvrs)
    && (forall q :: q in pools ==> q in s.cvrs && s.cvrs[q].id != "")
    && (s.cv.drf == |pools| && p in s.cvrs ==> s.cvrs[p].id !in s.cv.specKnown)
    && s.cv.drf >= |pools|
  }

  lemma {:induction false} IdsOnDistinct(cvrs: map<Pool, Cvr>, pools: set<Pool>)
    requires DistinctIds(cvrs) && forall q :: q in pools ==> q in cvrs && cvrs[q].id != ""
    ensures |IdsOn(cvrs, pools)| == |pools|
  {
    if pools != {} {
      var q :| q in pools;
      IdsOnDistinct(cvrs, pools - {q});
      assert IdsOn(cvrs, pools) == IdsOn(cvrs, pools - {q}) + {cvrs[q].id};
      assert cvrs[q].id !in IdsOn(cvrs, pools - {q});
    }
  }

  /** There is no room for another replica once the factor is lowered. */
  lemma NoRoom(s: State, pools: seq<Pool>, p: Pool)
    requires Full(s, pools, p) && Unique(pools)
    ensures |s.cv.specKnown| >= |pools|
  {
    hide Unique;
    ElemsCard(pools);
    var set_ := Elems(pools);
    IdsOnDistinct(s.cvrs, set_);
    forall id | id in IdsOn(s.cvrs, set_) ensures id in s.cv.specKnown.Keys {
      var q :| q in set_ && q in s.cvrs && s.cvrs[q].id == id;
      assert IsRegistered(s, q);
    }
    SubsetCard(IdsOn(s.cvrs, set_), s.cv.specKnown.Keys);
  }

  lemma UniqueDesiredPools(s: State, pools: seq<Pool>, p: Pool)
    requires Removing(s, pools, p)
    ensures Unique(pools) && SubMap(s.cv.specKnown, s.cv.statusKnown)
  {
  }

  lemma Sized(s: State, pools: seq<Pool>, p: Pool)
    requires Removing(s, pools, p)
    ensures var s' := OpSize(s);
      s'.cvrs == s.cvrs && (s'.cv == s.cv || s'.cv == LowerDrf(s.cv, |pools|, ReplicaIdOn(s.cvrs, p)))
  {
    hide Inv, ListDiff, Unique, LowerDrf;
    if s.op != OpIdle { RemovingOp(s, pools, p); }
  }

  lemma SizeKeepsFull(s: State, pools: seq<Pool>, p: Pool)
    requires Removing(s, pools, p) && Full(s, pools, p)
    ensures Full(OpSize(s), pools, p)
  {
    hide Inv, ListDiff, Unique, OpSize;
    Sized(s, pools, p);
    var s' := OpSize(s);
    forall q | q in pools ensures IsRegistered(s', q) {
      assert IsRegistered(s, q);
      assert s.cvrs[q].id != ReplicaIdOn(s.cvrs, p);
    }
  }

  lemma ConnectKeepsFull(s: State, r: Registration, pools: seq<Pool>, p: Pool)
    requires Removing(s, pools, p) && Full(s, pools, p)
    ensures Full(Register(s, r), pools, p)
  {
    hide Inv, ListDiff, Unique;
    UniqueDesiredPools(s, pools, p);
    NoRoom(s, pools, p);
    var s' := Register(s, r);
    forall q | q in pools ensures IsRegistered(s', q) {
      assert IsRegistered(s, q);
    }
  }

  lemma CvrsKeepFull(s: State, a: Action, pools: seq<Pool>, p: Pool)
    requires Removing(s, pools, p) && Full(s, pools, p) && Allowed(s, a)
    requires a.OperatorDelete? || a.OperatorCreate? || a.SetId? || a.Collect?
    ensures Full(Step(s, a), pools, p)
  {
    hide Inv, ListDiff, Unique;
    UniqueDesiredPools(s, pools, p);
    if s.op != OpIdle { RemovingOp(s, pools, p); }
    var s' := Step(s, a);
    forall q | q in pools ensures IsRegistered(s', q) && s'.cvrs[q].id == s.cvrs[q].id {
      assert IsRegistered(s, q);
    }
  }

  lemma OthersKeepFull(s: State, a: Action, pools: seq<Pool>, p: Pool)
    requires Removing(s, pools, p) && Full(s, pools, p)
    requires !a.Edit? && !a.OperatorSize? && !a.Connect? && !a.OperatorDelete? && !a.OperatorCreate? && !a.SetId? && !a.Collect?
    ensures Full(Step(s, a), pools, p)
  {
    hide Inv, ListDiff, Unique, DistinctIds;
    var s' := Step(s, a);
    SameKnown(s, a, pools, p);
    forall q | q in pools ensures IsRegistered(s', q) {
      assert IsRegistered(s, q);
    }
  }

  lemma SameKnown(s: State, a: Action, pools: seq<Pool>, p: Pool)
    requires Inv(s)
    requires !a.Edit? && !a.OperatorSize? && !a.Connect? && !a.OperatorDelete? && !a.OperatorCreate? && !a.SetId? && !a.Collect?
    ensures var s' := Step(s, a); s'.cvrs == s.cvrs && s'.cv.drf == s.cv.drf && s'.cv.specKnown == s.cv.specKnown
  {
    hide PoolLists, SubMap, OperatorOk, ListDiff;
  }

  lemma StepKeepsFull(s: State, a: Action, pools: seq<Pool>, p: Pool)
    requires Removing(s, pools, p) && Full(s, pools, p) && Allowed(s, a) && !a.Edit?
    ensures Full(Step(s, a), pools, p)
  {
    hide Removing, Full, Allowed, Inv, ListDiff;
    if a.OperatorSize? {
      SizeKeepsFull(s, pools, p);
    } else if a.Connect? {
      ConnectKeepsFull(s, a.r, pools, p);
    } else if a.OperatorDelete? || a.OperatorCreate? || a.SetId? || a.Collect? {
      CvrsKeepFull(s, a, pools, p);
    } else {
      OthersKeepFull(s, a, pools, p);
    }
  }

  lemma {:induction false} FullNeverDeleted(s: State, acts: seq<Action>, pools: seq<Pool>, p: Pool)
    requires Removing(s, pools, p) && Full(s, pools, p) && NoEdits(acts) && AllowedRun(s, acts)
    ensures Removing(Run(s, acts), pools, p) && Full(Run(s, acts), pools, p)
    decreases |acts|
  {
    hide Removing, Full, Step, Allowed;
    if acts != [] {
      StepKeepsRemoving(s, acts[0], pools, p);
      StepKeepsFull(s, acts[0], pools, p);
      FullNeverDeleted(Step(s, acts[0]), acts[1..], pools, p);
    }
  }

  lemma NothingDeleted(s: State, pools: seq<Pool>, p: Pool)
    requires Removing(s, pools, p) && (!Live(s, p) || Full(s, pools, p))
    ensures !MayDeletePending(s)
  {
    hide Removing, Run, AllowedRun, Step;
    forall acts, a, q | NoEdits(acts) && AllowedRun(s, acts) ensures !DeletesKnown(Run(s, acts), a, q) {
      var t := Run(s, acts);
      if Full(s, pools, p) { FullNeverDeleted(s, acts, pools, p); } else { DeadNeverDeleted(s, acts, pools, p); }
      if Live(t, q) && q in Step(t, a).cvrs && Step(t, a).cvrs[q].deleting {
        OnlyRemovedDeleted(t, a, pools, p, q);
      }
    }
  }

  // ---------- otherwise the removed replica can come back ----------

  lemma DeletesLater(s: State, a: Action)
    requires !a.Edit? && Allowed(s, a) && MayDeletePending(Step(s, a))
    ensures MayDeletePending(s)
  {
    hide Step, Allowed, DeletesKnown, Run, AllowedRun;
    var acts, b, p :| NoEdits(acts) && AllowedRun(Step(s, a), acts) && DeletesKnown(Run(Step(s, a), acts), b, p);
    AllowedCons(s, a, acts);
    RunOne(s, a, acts);
    assert NoEdits([a] + acts);
  }

  /** The removed replica is known though the factor is lowered. */
  ghost predicate Returned(s: State, pools: seq<Pool>, p: Pool) {
    && Removing(s, pools, p) && Shrinking(s.cvc) && s.op == OpIdle && Live(s, p) && s.cvrs[p].id in s.cv.specKnown
    && s.cv.drf == |pools| && !IsScaleDownInProgress(s.cv)
  }

  lemma ReturnedIsDeleted(s: State, pools: seq<Pool>, p: Pool)
    requires Returned(s, pools, p)
    ensures MayDeletePending(s)
  {
    hide Inv, ListDiff, Unique, MayDeletePending, Run, AllowedRun;
    InvLists(s);
    PassDeletesRemoved(s, p);
    var t := Step(Step(s, OperatorStart), OperatorSize);
    assert DeletesKnown(t, OperatorDelete, p);
    NowDeleted(t, p);
    DeletesLater(Step(s, OperatorStart), OperatorSize);
    DeletesLater(s, OperatorStart);
  }

  lemma NowDeleted(s: State, p: Pool)
    requires DeletesKnown(s, OperatorDelete, p)
    ensures MayDeletePending(s)
  {
    hide DeletesKnown;
    assert NoEdits([]) && AllowedRun(s, []) && Run(s, []) == s;
  }

  /** The factor is lowered, the target may still serve the removed replica, and
      there is room for it. */
  ghost predicate RoomAfter(s: State, pools: seq<Pool>, p: Pool) {
    && Removing(s, pools, p) && Shrinking(s.cvc) && s.op == OpIdle && s.mgr == MgrIdle && Live(s, p)
    && s.cvrs[p].id != "" && s.cvrs[p].id in s.cv.statusKnown && s.cv.statusKnown.Keys == s.cv.specKnown.Keys + {s.cvrs[p].id}
    && s.cv.drf == |pools| && |s.cv.specKnown| < |pools| && s.cv.cf == s.cv.rf / 2 + 1
  }

  lemma RoomIsTaken(s: State, pools: seq<Pool>, p: Pool)
    requires RoomAfter(s, pools, p) && s.cv.rf <= s.cv.drf
    ensures MayDeletePending(s)
  {
    hide Inv, ListDiff, Unique, MayDeletePending;
    var id, n := s.cvrs[p].id, |pools|;
    var a := Connect(Registration(id, "g", n, n / 2 + 1));
    assert Live(s, p) && s.cvrs[p].id == id;
    assert RegistrationAccepted(s.cv, a.r);
    assert AllowedRegistration(s, a.r);
    var s' := Step(s, a);
    StepKeepsRemoving(s, a, pools, p);
    assert s'.cv.specKnown.Keys == s'.cv.statusKnown.Keys;
    assert |s'.cv.specKnown| == |s'.cv.specKnown.Keys| && |s'.cv.statusKnown| == |s'.cv.statusKnown.Keys|;
    ReturnedIsDeleted(s', pools, p);
    DeletesLater(s, a);
  }

  lemma RoomDeletes(s: State, pools: seq<Pool>, p: Pool)
    requires RoomAfter(s, pools, p) && s.cvrs[p].id !in s.cv.specKnown
    ensures MayDeletePending(s)
  {
    hide Inv, ListDiff, Unique, MayDeletePending;
    if s.cv.rf <= s.cv.drf {
      RoomIsTaken(s, pools, p);
    } else {
      UniqueDesiredPools(s, pools, p);
      SubMapCard(s.cv);
      var t := Step(s, ManagerStart(true));
      assert t == s.(cv := t.cv, mgr := t.mgr);
      var u := Step(t, ManagerStop);
      StepKeepsRemoving(s, ManagerStart(true), pools, p);
      StepKeepsRemoving(t, ManagerStop, pools, p);
      assert Live(u, p) <==> Live(s, p);
      RoomIsTaken(u, pools, p);
      DeletesLater(t, ManagerStop);
      DeletesLater(s, ManagerStart(true));
    }
  }

  /** All that is known but for the removed replica leaves room for it. */
  ghost predicate RoomBefore(s: State, pools: seq<Pool>, p: Pool) {
    && Removing(s, pools, p) && Shrinking(s.cvc) && s.op == OpIdle && s.mgr == MgrIdle && Live(s, p)
    && s.cv.drf == |pools| + 1 && s.cv.specKnown.Keys == s.cv.statusKnown.Keys && s.cv.cf == s.cv.rf / 2 + 1 && s.cv.rf <= s.cv.drf
    && |s.cv.specKnown.Keys - {s.cvrs[p].id}| < |pools| && "" !in s.cv.specKnown
  }

  lemma KnownIsDeleted(s: State, pools: seq<Pool>, p: Pool)
    requires RoomBefore(s, pools, p) && s.cvrs[p].id != "" && s.cvrs[p].id in s.cv.specKnown
    ensures MayDeletePending(s)
  {
    hide Inv, ListDiff, Unique, MayDeletePending, RoomAfter;
    var m, id := s.cv.specKnown, s.cvrs[p].id;
    InvLists(s);
    ListShape(s.cvc);
    var t := Step(s, OperatorStart);
    assert t == s.(op := DownStarted(s.cvc));
    var u := Step(t, OperatorSize);
    assert (m - {id}).Keys == m.Keys - {id} && |(m - {id}).Keys| == |m - {id}|;
    assert |s.cv.statusKnown| == |s.cv.statusKnown.Keys| && |m| == |m.Keys| && m.Keys == (m.Keys - {id}) + {id};
    assert u == s.(cv := LowerDrf(s.cv, |pools|, id));
    StepKeepsRemoving(s, OperatorStart, pools, p);
    StepKeepsRemoving(t, OperatorSize, pools, p);
    LoweredRoom(s, u, pools, p);
    RoomDeletes(u, pools, p);
    DeletesLater(t, OperatorSize);
    DeletesLater(s, OperatorStart);
  }

  lemma LoweredRoom(s: State, u: State, pools: seq<Pool>, p: Pool)
    requires RoomBefore(s, pools, p) && s.cvrs[p].id != "" && s.cvrs[p].id in s.cv.specKnown && Removing(u, pools, p)
    requires u == s.(cv := LowerDrf(s.cv, |pools|, s.cvrs[p].id))
    ensures RoomAfter(u, pools, p) && u.cvrs[p].id !in u.cv.specKnown
  {
    hide Removing;
    var m, id := s.cv.specKnown, s.cvrs[p].id;
    assert (m - {id}).Keys == m.Keys - {id} && |(m - {id}).Keys| == |m - {id}|;
    assert Live(u, p) <==> Live(s, p);
  }

  lemma NamedIsDeleted(s: State, pools: seq<Pool>, p: Pool)
    requires RoomBefore(s, pools, p) && s.cvrs[p].id != ""
    ensures MayDeletePending(s)
  {
    hide Inv, ListDiff, Unique, MayDeletePending;
    var id, n := s.cvrs[p].id, |pools| + 1;
    if id in s.cv.specKnown {
      KnownIsDeleted(s, pools, p);
    } else {
      var a := Connect(Registration(id, "g", n, n / 2 + 1));
      assert s.cv.specKnown.Keys - {id} == s.cv.specKnown.Keys && |s.cv.specKnown| == |s.cv.specKnown.Keys|;
      assert Live(s, p) && s.cvrs[p].id == id;
      assert AllowedRegistration(s, a.r) && RegistrationAccepted(s.cv, a.r);
      var s' := Step(s, a);
      StepKeepsRemoving(s, a, pools, p);
      assert s'.cv.specKnown.Keys - {id} == s.cv.specKnown.Keys - {id};
      assert Live(s', p) <==> Live(s, p);
      KnownIsDeleted(s', pools, p);
      DeletesLater(s, a);
    }
  }

  lemma RoomIsDeleted(s: State, pools: seq<Pool>, p: Pool)
    requires RoomBefore(s, pools, p)
    ensures MayDeletePending(s)
  {
    hide Inv, ListDiff, Unique, MayDeletePending, FreshId;
    if s.cvrs[p].id != "" {
      NamedIsDeleted(s, pools, p);
    } else {
      var id := FreshIdFor(s, p);
      var a := SetId(p, id);
      var s' := Step(s, a);
      StepKeepsRemoving(s, a, pools, p);
      UnknownFresh(s, id);
      UniqueDesiredPools(s, pools, p);
      EmptyUnknown(s, pools, p, id);
      NamedIsDeleted(s', pools, p);
      DeletesLater(s, a);
    }
  }

  lemma FreshIdFor(s: State, p: Pool) returns (id: Id)
    ensures FreshId(s, id)
  {
    hide FreshId;
    var ids := FreshIdsExist(s, [p]);
    assert [p][0] in [p];
    id := ids[p];
  }

  lemma UnknownFresh(s: State, id: Id)
    requires FreshId(s, id)
    ensures id != "" && id !in s.cv.statusKnown
  {
  }

  /** A CVR without id is not known. */
  lemma EmptyUnknown(s: State, pools: seq<Pool>, p: Pool, id: Id)
    requires RoomBefore(s, pools, p) && s.cvrs[p].id == "" && id !in s.cv.specKnown
    ensures |s.cv.specKnown.Keys - {id}| < |pools|
  {
    hide Removing;
    assert s.cv.specKnown.Keys - {id} == s.cv.specKnown.Keys == s.cv.specKnown.Keys - {""};
  }

  // ---------- the exact condition ----------

  /** The edit starts the removal of one pool. */
  lemma EditStartsRemoving(s: State, pools: seq<Pool>) returns (p: Pool)
    requires Tracked(s) && !ScalingInProgress(AsClaim(s.cvc)) && EditDesired(s, pools) != s && |pools| < |s.cvc.current|
    ensures var s' := EditDesired(s, pools);
      && Removing(s', pools, p) && Shrinking(s'.cvc) && s'.op == OpIdle && s' == s.(cvc := s'.cvc)
      && Elems(s.cvc.current) == Elems(pools) + {p} && Elems(s.cvc.desired) == Elems(s.cvc.current)
      && |s.cvc.current| == |pools| + 1 && s.cv.drf == |s.cvc.current|
  {
    hide Replicas, Owned, Passes, Factors, Admitted, Unique, ListDiff, OperatorOk, ManagerOk, SubMap;
    var s' := EditDesired(s, pools);
    EditKeepsInv(s, pools);
    InvLists(s);
    InvLists(s');
    IdleWhenEqual(s);
    ListShape(s.cvc);
    ListShape(s'.cvc);
    p := RemovedPools(s'.cvc)[0];
    assert p in Elems(s'.cvc.current) && p !in Elems(s'.cvc.desired);
    assert RemovedPools(s'.cvc) == [p];
  }

  /** A replica that stays and is not known leaves room. */
  lemma UnknownLeavesRoom(s: State, pools: seq<Pool>, p: Pool, q: Pool)
    requires Tracked(s) && Elems(s.cvc.current) == Elems(pools) + {p} && Elems(s.cvc.desired) == Elems(s.cvc.current)
    requires q in pools && !IsRegistered(s, q) && Live(s, p) && Unique(pools)
    ensures |s.cv.specKnown.Keys - {s.cvrs[p].id}| < |pools|
  {
    hide Inv, Passes, Factors, Unique, DistinctIds;
    var rest := Elems(pools) - {q};
    forall id | id in s.cv.specKnown.Keys - {s.cvrs[p].id} ensures id in IdsOn(s.cvrs, rest) {
      var x :| Live(s, x) && s.cvrs[x].id == id;
      assert x in Elems(s.cvc.current);
      assert IsRegistered(s, x);
      assert x in rest;
    }
    SubsetCard(s.cv.specKnown.Keys - {s.cvrs[p].id}, IdsOn(s.cvrs, rest));
    IdsOnCard(s.cvrs, rest);
    ElemsCard(pools);
  }

  lemma EarlyShrinkDeletes(s: State, pools: seq<Pool>, p: Pool)
    requires Tracked(s) && !ScalingInProgress(AsClaim(s.cvc)) && EditDesired(s, pools) != s && |pools| < |s.cvc.current|
    requires RemovedPools(EditDesired(s, pools).cvc) == [p] && Live(s, p) && !RestRegistered(s, pools)
    ensures MayDeletePending(EditDesired(s, pools))
  {
    hide Inv, Owned, Passes, Factors, Replicas, ListDiff, Unique, MayDeletePending, EditDesired, IsRegistered;
    var s' := EditDesired(s, pools);
    var p' := EditStartsRemoving(s, pools);
    var q :| q in pools && !IsRegistered(s, q);
    UniqueDesiredPools(s', pools, p);
    UnknownLeavesRoom(s, pools, p, q);
    NotShrinking(s);
    SettledFactors(s);
    var t := Step(s', ManagerStop);
    StepKeepsRemoving(s', ManagerStop, pools, p);
    assert Live(t, p) <==> Live(s, p);
    RoomIsDeleted(t, pools, p);
    DeletesLater(s', ManagerStop);
  }

  lemma SettledFactors(s: State)
    requires Tracked(s)
    ensures s.cv.cf == s.cv.rf / 2 + 1 && "" !in s.cv.specKnown
  {
    hide Inv, Replicas, Passes;
  }

  lemma EarlyShrinkIsFull(s: State, pools: seq<Pool>, p: Pool)
    requires Tracked(s) && RestRegistered(s, pools) && s.cv.drf == |pools| + 1
    ensures Full(s, pools, p)
  {
    hide Inv, Passes, Factors, DistinctIds;
    forall q | q in pools ensures q in s.cvrs && s.cvrs[q].id != "" {
      assert IsRegistered(s, q);
    }
    assert DistinctIds(s.cvrs);
  }

  /** Exactly when may a scale-down be asked for: from any state of a settled
      volume, an admitted edit that removes a pool can, without another edit, lead
      to the deletion of a known replica if and only if the removed pool has a
      replica and some pool that stays has none that is known. */
  lemma EarlyShrinkDeletesKnownIff(s: State, pools: seq<Pool>, p: Pool)
    requires Tracked(s) && !ScalingInProgress(AsClaim(s.cvc)) && EditDesired(s, pools) != s && |pools| < |s.cvc.current|
    requires RemovedPools(EditDesired(s, pools).cvc) == [p]
    ensures MayDeletePending(EditDesired(s, pools)) <==> Live(s, p) && !RestRegistered(s, pools)
  {
    hide Inv, Owned, Passes, Factors, Replicas, ListDiff, Unique, MayDeletePending, EditDesired, RestRegistered, Full;
    if Live(s, p) && !RestRegistered(s, pools) {
      EarlyShrinkDeletes(s, pools, p);
    } else {
      var s' := EditDesired(s, pools);
      var p' := EditStartsRemoving(s, pools);
      if RestRegistered(s, pools) {
        EarlyShrinkIsFull(s, pools, p);
        SameFull(s, s', pools, p);
      }
      NothingDeleted(s', pools, p);
    }
  }

  lemma SameFull(s: State, s': State, pools: seq<Pool>, p: Pool)
    requires Full(s, pools, p) && s' == s.(cvc := s'.cvc)
    ensures Full(s', pools, p)
  {
    hide DistinctIds;
    forall q | q in pools ensures IsRegistered(s', q) { assert IsRegistered(s, q); }
  }
}
