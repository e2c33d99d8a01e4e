/** Which edits of the pool list are safe: the exact conditions, to be read off
  the state before the edit, under which an edit lets the operator delete a
  replica that is still known, record a pool without a replica, or leave a
  replica on a pool that no list names. */
module ScaleDownEdits {
  import opened Lists
  import opened CvcAdmission
  import opened VolumeScaling
  import opened ScaleDown
  import opened ScaleDownTheorems
  import opened ScaleDownRecovery
  import opened VolumeStore

  // ---------- naming another pool for removal ----------

  /** The step deletes the CVR of a replica that the spec still knows. */
  ghost predicate DeletesKnown(s: State, a: Action, p: Pool) {
    Live(s, p) && p in Step(s, a).cvrs && Step(s, a).cvrs[p].deleting && s.cvrs[p].id in s.cv.specKnown
  }

  ghost predicate MayDeleteKnown(s: State) {
    exists acts, a, p :: AllowedRun(s, acts) && DeletesKnown(Run(s, acts), a, p)
  }

  lemma TrackedNeverDeletesKnown(s: State)
    requires Tracked(s)
    ensures !MayDeleteKnown(s)
  {
    hide Tracked, Step, Run, AllowedRun;
    forall acts, a, p | AllowedRun(s, acts) ensures !DeletesKnown(Run(s, acts), a, p) {
      RunKeepsTracked(s, acts);
      var t := Run(s, acts);
      if Live(t, p) && p in Step(t, a).cvrs && Step(t, a).cvrs[p].deleting {
        CvrDeletedOnlyWhenForgotten(t, a, p);
      }
    }
  }

  /** Once the factor is lowered, the replicas of all desired pools are known. */
  lemma DesiredKnown(s: State, r: Pool)
    requires Tracked(s) && Shrinking(s.cvc) && Lowered(s) && r in s.cvc.desired
    ensures Live(s, r) && s.cvrs[r].id in s.cv.specKnown
  {
    hide Inv, Owned, Passes, Factors, DistinctIds, Unique, ListDiff;
    InvLists(s);
    ListShape(s.cvc);
    ShrinkingPhase(s);
    ElemsCard(s.cvc.desired);
    var pools := Elems(s.cvc.desired);
    forall p | Live(s, p) && s.cvrs[p].id in s.cv.specKnown ensures p in pools {
      assert p in pools || p in Elems(s.cvc.current);
    }
    PoolsKnown(s, pools, r);
  }

  /** A manager pass from the start leaves equal maps and touches nothing else
      that matters here. */
  lemma ManagerEvens(s: State)
    requires SubMap(s.cv.specKnown, s.cv.statusKnown) && s.mgr == MgrIdle
    ensures var t := MgrPass(s);
      && t == s.(cv := t.cv, target := t.target) && t.cv.specKnown == s.cv.specKnown && t.cv.drf == s.cv.drf
      && !IsScaleDownInProgress(t.cv)
  {
    SubMapCard(s.cv);
    assert s.cv.specKnown.Keys <= s.cv.statusKnown.Keys;
  }

  /** The operator's next pass goes for the pool removed now. */
  lemma PassDeletesRemoved(s: State, p: Pool)
    requires PoolLists(s.cvc) && Shrinking(s.cvc) && RemovedPools(s.cvc) == [p]
    requires s.op == OpIdle && s.cv.drf == |s.cvc.desired| && !IsScaleDownInProgress(s.cv) && Live(s, p)
    ensures var t := Step(Step(s, OperatorStart), OperatorSize);
      && t == s.(op := DownSettled(s.cvc, true)) && Step(t, OperatorDelete).cvrs == s.cvrs[p := s.cvrs[p].(deleting := true)]
  {
    hide Unique, ListDiff;
    ListShape(s.cvc);
    assert OpStart(s).op == DownStarted(s.cvc);
  }

  const SWAP_CONTINUATION: seq<Action> :=
    [OperatorStop, ManagerStop] + (MANAGER_PASS + [OperatorStart, OperatorSize])

  lemma LoweredSwapDeletesKnown(s: State, pools: seq<Pool>)
    requires Tracked(s) && Shrinking(s.cvc) && Lowered(s)
    requires EditDesired(s, pools) != s && Elems(pools) != Elems(s.cvc.desired)
    ensures MayDeleteKnown(EditDesired(s, pools))
  {
    hide Tracked, Run, Admitted, ListDiff, Unique, AllowedRun, Step, MgrPass;
    var s1 := EditDesired(s, pools);
    var p := SwappedPool(s, pools);
    DesiredKnown(s, p);
    var t := s1.(op := OpIdle, mgr := MgrIdle);
    BothStop(s1);
    TrackedParts(s);
    ManagerEvens(t);
    var u := MgrPass(t);
    PassDeletesRemoved(u, p);
    var v := Step(Step(u, OperatorStart), OperatorSize);
    RunTwo(s1, OperatorStop, ManagerStop);
    ManagerPassRun(t);
    RunTwo(u, OperatorStart, OperatorSize);
    RunAppend(t, MANAGER_PASS, [OperatorStart, OperatorSize]);
    RunAppend(s1, [OperatorStop, ManagerStop], MANAGER_PASS + [OperatorStart, OperatorSize]);
    assert Run(s1, SWAP_CONTINUATION) == v;
    Harmless(s1, SWAP_CONTINUATION);
    assert DeletesKnown(v, OperatorDelete, p);
  }

  lemma TrackedParts(s: State)
    requires Tracked(s)
    ensures Inv(s) && SubMap(s.cv.specKnown, s.cv.statusKnown)
  {
  }

  /** The pool removed after the edit was one of the desired ones before. */
  lemma SwappedPool(s: State, pools: seq<Pool>) returns (p: Pool)
    requires Tracked(s) && Shrinking(s.cvc)
    requires EditDesired(s, pools) != s && Elems(pools) != Elems(s.cvc.desired)
    ensures var c := EditDesired(s, pools).cvc;
      PoolLists(c) && |c.desired| == |s.cvc.desired| && Shrinking(c) && RemovedPools(c) == [p] && p in s.cvc.desired
  {
    hide Replicas, Owned, Passes, Factors, Inv, Admitted, Unique, ListDiff;
    var c := EditDesired(s, pools).cvc;
    InvLists(s);
    SameCount(s, pools);
    EditKeepsInv(s, pools);
    InvLists(EditDesired(s, pools));
    ListShape(s.cvc);
    ListShape(c);
    p := RemovedPools(c)[0];
    assert p in Elems(s.cvc.current);
    assert p in Elems(s.cvc.desired);
    assert RemovedPools(c) == [p];
  }

  /** Lowering the factor and editing the list commute. */
  lemma SizeThenEdit(s: State, pools: seq<Pool>)
    requires s.op.DownStarted?
    ensures OpSize(EditDesired(s, pools)) == EditDesired(OpSize(s), pools)
  {
    hide Admitted, ListDiff;
  }

  lemma MayDeleteKnownAfter(s: State, a: Action)
    requires Allowed(s, a) && MayDeleteKnown(Step(s, a))
    ensures MayDeleteKnown(s)
  {
    hide Step, DeletesKnown;
    var acts, b, p :| AllowedRun(Step(s, a), acts) && DeletesKnown(Run(Step(s, a), acts), b, p);
    AllowedCons(s, a, acts);
    RunOne(s, a, acts);
  }

  /** Exactly when may another pool be named for removal: an admitted edit that
      changes the pools of a pending scale-down can lead to the deletion of a
      known replica if and only if the factor is lowered or a pass is about to
      lower it. */
  lemma SwapDeletesKnownIff(s: State, pools: seq<Pool>)
    requires Tracked(s) && Shrinking(s.cvc)
    requires EditDesired(s, pools) != s && Elems(pools) != Elems(s.cvc.desired)
    ensures MayDeleteKnown(EditDesired(s, pools)) <==> Lowered(s) || s.op.DownStarted?
  {
    hide Tracked, MayDeleteKnown, EditDesired, OpSize;
    if Lowered(s) {
      LoweredSwapDeletesKnown(s, pools);
    } else if s.op.DownStarted? {
      var t := OpSize(s);
      SizeKeeps(s);
      SizeThenEdit(s, pools);
      EditDepends(s, t, pools);
      LoweredSwapDeletesKnown(t, pools);
      MayDeleteKnownAfter(EditDesired(s, pools), OperatorSize);
    } else {
      EditKeepsTracked(s, pools);
      TrackedNeverDeletesKnown(EditDesired(s, pools));
    }
  }

  lemma EditDepends(s: State, t: State, pools: seq<Pool>)
    requires s.cvc == t.cvc
    ensures EditDesired(s, pools) != s <==> EditDesired(t, pools) != t
  {
  }

  lemma SizeKeeps(s: State)
    requires Tracked(s) && Shrinking(s.cvc) && !Lowered(s) && s.op.DownStarted?
    ensures Tracked(OpSize(s)) && OpSize(s).cvc == s.cvc && Lowered(OpSize(s))
  {
    hide Replicas, Owned, Passes, Factors, Inv, OpSize, Unique, ListDiff;
    StepKeepsTracked(s, OperatorSize);
    InvLists(s);
    ListShape(s.cvc);
    ListShape(s.op.snap);
    LoweredKnown(s, RemovedPools(s.cvc)[0]);
  }

  // ---------- adding a pool back ----------

  /** Every pool that stays in use has a CVR which is not being deleted, and a
      scale-up about to be recorded has all its CVRs. */
  ghost predicate Housed(s: State) {
    && (forall p :: p in s.cvc.desired && p in s.cvc.current ==> p in s.cvrs)
    && (forall p :: p in s.cvc.desired && p in s.cvrs ==> !s.cvrs[p].deleting)
    && (s.op.UpReady? && s.op.snap.rv == s.cvc.rv ==> forall p :: p in s.cvc.desired ==> p in s.cvrs)
  }

  /** No pool is added while its old CVR awaits its finalizer. */
  ghost predicate NoneDying(s: State, pools: seq<Pool>) {
    forall p :: p in pools && p !in s.cvc.current && p in s.cvrs ==> !s.cvrs[p].deleting
  }

  ghost predicate KeepsHoused(s: State, a: Action) {
    a.Edit? && EditDesired(s, a.pools) != s ==> NoneDying(s, a.pools)
  }

  ghost predicate KeepsHousedRun(s: State, acts: seq<Action>)
    decreases |acts|
  {
    acts != [] ==> KeepsHoused(s, acts[0]) && KeepsHousedRun(Step(s, acts[0]), acts[1..])
  }

  lemma ShrinkingHoused(s: State)
    requires Tracked(s) && Shrinking(s.cvc)
    ensures Housed(s)
  {
    hide Owned, Passes, Factors, DistinctIds;
  }

  lemma EditKeepsHoused(s: State, pools: seq<Pool>)
    requires Tracked(s) && Housed(s) && AllowedEdit(s, pools) && KeepsHoused(s, Edit(pools))
    requires !Shrinking(EditDesired(s, pools).cvc)
    ensures Housed(EditDesired(s, pools))
  {
    hide Replicas, Owned, Passes, Factors, Inv, Admitted, Unique;
    InvLists(s);
    ListShape(s.cvc);
    var s' := EditDesired(s, pools);
    if s' != s && ScalingInProgress(AsClaim(s.cvc)) {
      SameCount(s, pools);
      GrownKeepsCurrent(s, pools);
      SnapshotOlder(s);
      assert forall p :: p in s.cvc.current ==> p in Elems(s.cvc.current) && p in Elems(s.cvc.desired);
      assert forall p :: p in Elems(s.cvc.desired) ==> p in s.cvc.desired;
    } else if s' != s {
      IdleWhenEqual(s);
      assert forall p :: p in s.cvc.current <==> p in Elems(s.cvc.desired);
    }
  }

  lemma SnapshotOlder(s: State)
    requires Inv(s)
    ensures s.op != OpIdle ==> s.op.snap.rv <= s.cvc.rv
  {
  }

  lemma CreateKeepsHoused(s: State, id: Id, ok: bool)
    requires Tracked(s) && Housed(s)
    ensures Housed(OpCreate(s, id, ok))
  {
    hide Replicas, Owned, Factors, Inv, Unique;
    var s' := OpCreate(s, id, ok);
    InvLists(s);
    if s.op.UpSized? && s'.op.UpReady? && s'.op.snap.rv == s'.cvc.rv {
      forall p | p in s.cvc.desired ensures p in s.cvrs {
        assert p in NewPools(s.op.snap) || p in s.op.snap.current;
      }
    }
  }

  lemma FinishKeepsHoused(s: State)
    requires Tracked(s) && Housed(s)
    ensures Housed(OpFinish(s))
  {
    hide Owned, Factors, Inv, Unique, DistinctIds;
    InvLists(s);
    if s.op.DownCleaned? {
      assert forall p :: p in s.cvc.desired ==> Live(s, p);
    }
  }

  lemma OthersKeepHoused(s: State, a: Action)
    requires Inv(s) && Housed(s) && !a.Edit? && !a.OperatorCreate? && !a.OperatorFinish? && !a.OperatorDelete?
    ensures Housed(Step(s, a))
  {
    hide ListDiff, PoolLists, SubMap, ManagerOk;
    SnapshotOlder(s);
  }

  lemma DeleteKeepsHoused(s: State)
    requires Tracked(s) && Housed(s) && !Shrinking(s.cvc)
    ensures Housed(OpDelete(s))
  {
    hide Replicas, Owned, Factors, Inv, Unique;
    InvLists(s);
    assert OpDelete(s) == s;
  }

  lemma StepKeepsHoused(s: State, a: Action)
    requires Tracked(s) && Housed(s) && Allowed(s, a) && KeepsHoused(s, a)
    ensures Housed(Step(s, a))
  {
    hide Tracked, Housed, KeepsHoused;
    StepKeepsTracked(s, a);
    if Shrinking(Step(s, a).cvc) {
      ShrinkingHoused(Step(s, a));
    } else if a.Edit? {
      EditKeepsHoused(s, a.pools);
    } else if a.OperatorCreate? {
      CreateKeepsHoused(s, a.id, a.ok);
    } else if a.OperatorFinish? {
      FinishKeepsHoused(s);
    } else if a.OperatorDelete? {
      DeleteKeepsHoused(s);
    } else {
      TrackedParts(s);
      OthersKeepHoused(s, a);
    }
  }

  lemma {:induction false} RunKeepsHoused(s: State, acts: seq<Action>)
    requires Tracked(s) && Housed(s) && AllowedRun(s, acts) && KeepsHousedRun(s, acts)
    ensures Tracked(Run(s, acts)) && Housed(Run(s, acts))
    decreases |acts|
  {
    hide Tracked, Housed, Step, Allowed, KeepsHoused;
    if acts != [] {
      StepKeepsTracked(s, acts[0]);
      StepKeepsHoused(s, acts[0]);
      RunKeepsHoused(Step(s, acts[0]), acts[1..]);
    }
  }

  /** If no pool is added back while its old CVR awaits its finalizer, every pool
      of the status that is still desired has a replica in every run. */
  lemma StatusPoolsHaveReplicas(s0: State, acts: seq<Action>, p: Pool)
    requires Init(s0) && AllowedRun(s0, acts) && KeepsHousedRun(s0, acts)
    requires p in Run(s0, acts).cvc.current && p in Run(s0, acts).cvc.desired
    ensures Live(Run(s0, acts), p)
  {
    hide Tracked, Run, AllowedRun, KeepsHousedRun;
    InitTracked(s0);
    InitHoused(s0);
    RunKeepsHoused(s0, acts);
  }

  lemma InitHoused(s: State)
    requires Init(s)
    ensures Housed(s)
  {
    hide Unique;
    assert forall p :: p in s.cvc.desired ==> p in Elems(s.cvc.desired);
  }

  /** The status lists a pool, still desired, that has no CVR. */
  ghost predicate Vacant(s: State, p: Pool) {
    p in s.cvc.current && p in s.cvc.desired && p !in s.cvrs
  }

  ghost predicate NoEdits(acts: seq<Action>) {
    forall i :: 0 <= i < |acts| ==> !acts[i].Edit?
  }

  ghost predicate MayBecomeVacant(s: State) {
    exists acts, p :: NoEdits(acts) && AllowedRun(s, acts) && Vacant(Run(s, acts), p)
  }

  lemma {:induction false} NoEditsKeepHoused(s: State, acts: seq<Action>)
    requires NoEdits(acts)
    ensures KeepsHousedRun(s, acts)
    decreases |acts|
  {
    hide Step;
    if acts != [] {
      NoEditsKeepHoused(Step(s, acts[0]), acts[1..]);
    }
  }

  // ---------- fresh ids exist ----------

  function Padding(n: nat): (id: Id)
    ensures |id| == n
  {
    if n == 0 then "" else Padding(n - 1) + "x"
  }

  lemma {:induction false} LongestId(used: set<Id>) returns (n: nat)
    ensures forall id :: id in used ==> |id| <= n
  {
    if used == {} {
      n := 0;
    } else {
      var id :| id in used;
      n := LongestId(used - {id});
      n := if |id| > n then |id| else n;
    }
  }

  lemma {:induction false} PickIds(pools: seq<Pool>, n: nat) returns (ids: map<Pool, Id>)
    requires Unique(pools)
    ensures forall p :: p in pools ==> p in ids && |ids[p]| > n
    ensures forall p :: p in ids ==> |ids[p]| <= n + |pools|
    ensures forall p, q :: p in pools && q in pools && p != q ==> ids[p] != ids[q]
    decreases |pools|
  {
    if pools == [] {
      ids := map[];
    } else {
      var init, last := pools[..|pools| - 1], pools[|pools| - 1];
      assert pools == init + [last];
      ids := PickIds(init, n);
      assert last !in init;
      ids := ids[last := Padding(n + |pools|)];
    }
  }

  lemma FreshIdsExist(s: State, pools: seq<Pool>) returns (ids: map<Pool, Id>)
    requires Unique(pools)
    ensures FreshIds(s, pools, ids)
  {
    hide Unique;
    var used := s.cv.statusKnown.Keys + (set p | p in s.cvrs :: s.cvrs[p].id);
    var n := LongestId(used);
    ids := PickIds(pools, n);
    forall p | p in pools ensures FreshId(s, ids[p]) {
      forall q | q in s.cvrs ensures s.cvrs[q].id != ids[p] { assert s.cvrs[q].id in used; }
    }
  }

  // ---------- the exact condition ----------

  /** The scale-up finds the dying CVR, records the pool, and the CVR goes. */
  lemma DyingPoolBecomesVacant(s: State, p: Pool)
    requires Tracked(s) && s.op == OpIdle && |s.cvc.desired| > |s.cvc.current|
    requires p in s.cvc.desired && p !in s.cvc.current && p in s.cvrs && s.cvrs[p].deleting
    ensures MayBecomeVacant(s)
  {
    hide Tracked, Run, AllowedRun, CreateReplicas, CreateActions, ScaleUpActions, ListDiff, FreshIds;
    TrackedParts(s);
    UniqueDesired(s);
    var pools := NewPools(s.cvc);
    var ids := FreshIdsExist(s, pools);
    assert p in pools;
    IdsFor(s, pools, ids);
    var acts := ScaleUpActions(s.cvc, ids, {});
    ScaleUpAllowed(s, ids, {});
    ScaleUpRun(s, ids, {});
    CreatedReplicas(s.cvrs, pools, ids, {});
    var t := Run(s, acts);
    assert t.cvrs == CreateReplicas(s.cvrs, pools, ids, {});
    assert t.cvrs[p] == s.cvrs[p] && p in t.cvc.current && t.cvc.desired == s.cvc.desired;
    CollectLast(s, acts, p);
    ScaleUpNoEdits(s.cvc, ids);
    assert Vacant(Run(s, acts + [Collect(p)]), p);
  }

  lemma IdsFor(s: State, pools: seq<Pool>, ids: map<Pool, Id>)
    requires FreshIds(s, pools, ids)
    ensures forall p :: p in pools ==> p in ids
  {
  }

  lemma UniqueDesired(s: State)
    requires Inv(s) && |s.cvc.desired| > |s.cvc.current|
    ensures Unique(s.cvc.desired) && Unique(NewPools(s.cvc)) && IsChangeInLists(s.cvc.desired, s.cvc.current)
  {
    hide Unique, ListDiff, OperatorOk, ManagerOk, SubMap;
    InvLists(s);
    ListShape(s.cvc);
    assert Unique(s.cvc.desired) by { UniqueLists(s.cvc); }
    ListDiffUnique(s.cvc.desired, s.cvc.current);
  }

  lemma UniqueLists(c: Cvc)
    requires PoolLists(c)
    ensures Unique(c.desired)
  {
  }

  lemma CollectLast(s: State, acts: seq<Action>, p: Pool)
    requires AllowedRun(s, acts)
    ensures AllowedRun(s, acts + [Collect(p)])
    ensures Run(s, acts + [Collect(p)]) == Finalize(Run(s, acts), p)
  {
    hide Finalize;
    var t := Run(s, acts);
    assert [Collect(p)] == [Collect(p)] + [];
    assert AllowedRun(Step(t, Collect(p)), []);
    AllowedCons(t, Collect(p), []);
    AllowedAppend(s, acts, [Collect(p)]);
    RunAppend(s, acts, [Collect(p)]);
    RunOne(t, Collect(p), []);
  }

  lemma {:induction false} CreatesNoEdits(pools: seq<Pool>, ids: map<Pool, Id>)
    requires forall p :: p in pools ==> p in ids
    ensures NoEdits(CreateActions(pools, ids, {}))
    decreases |pools|
  {
    if pools != [] { CreatesNoEdits(pools[1..], ids); }
  }

  lemma ScaleUpNoEdits(c: Cvc, ids: map<Pool, Id>)
    requires forall p :: p in NewPools(c) ==> p in ids
    ensures NoEdits(ScaleUpActions(c, ids, {}))
  {
    hide CreateActions;
    CreatesNoEdits(NewPools(c), ids);
  }

  /** Exactly when may a pool be added: from a state in which all pools are
      housed, an allowed edit can leave the status with a pool that has no replica
      if and only if it names a pool whose old CVR awaits its finalizer. */
  lemma ReaddBecomesVacantIff(s: State, pools: seq<Pool>)
    requires Tracked(s) && Housed(s) && EditDesired(s, pools) != s && AllowedEdit(s, pools)
    ensures MayBecomeVacant(EditDesired(s, pools)) <==> !NoneDying(s, pools)
  {
    hide Tracked, Housed, MayBecomeVacant, NoneDying, EditDesired;
    if NoneDying(s, pools) {
      StepKeepsHoused(s, Edit(pools));
      EditKeepsTracked(s, pools);
      HousedNeverVacant(EditDesired(s, pools));
    } else {
      ReaddedDies(s, pools);
    }
  }

  lemma HousedNeverVacant(s: State)
    requires Tracked(s) && Housed(s)
    ensures !MayBecomeVacant(s)
  {
    hide Tracked, Run, AllowedRun;
    forall acts, p | NoEdits(acts) && AllowedRun(s, acts) ensures !Vacant(Run(s, acts), p) {
      NoEditsKeepHoused(s, acts);
      RunKeepsHoused(s, acts);
    }
  }

  lemma ReaddedDies(s: State, pools: seq<Pool>)
    requires Tracked(s) && EditDesired(s, pools) != s && AllowedEdit(s, pools) && !NoneDying(s, pools)
    ensures MayBecomeVacant(EditDesired(s, pools))
  {
    hide Tracked, MayBecomeVacant, Admitted, Unique;
    var s' := EditDesired(s, pools);
    var p :| p in pools && p !in s.cvc.current && p in s.cvrs && s.cvrs[p].deleting;
    TrackedParts(s);
    EditKeepsTracked(s, pools);
    TrackedParts(s');
    GrowsByReadd(s', p);
    var t := s'.(op := OpIdle);
    assert t == Step(s', OperatorStop);
    StepKeepsTracked(s', OperatorStop);
    DyingPoolBecomesVacant(t, p);
    StopFirst(s');
  }

  lemma StopFirst(s: State)
    requires MayBecomeVacant(s.(op := OpIdle))
    ensures MayBecomeVacant(s)
  {
    hide Run, AllowedRun, Vacant;
    var acts, p :| NoEdits(acts) && AllowedRun(s.(op := OpIdle), acts) && Vacant(Run(s.(op := OpIdle), acts), p);
    AllowedCons(s, OperatorStop, acts);
    RunOne(s, OperatorStop, acts);
    assert NoEdits([OperatorStop] + acts);
    assert Vacant(Run(s, [OperatorStop] + acts), p);
  }

  lemma GrowsByReadd(s: State, p: Pool)
    requires Inv(s) && p in s.cvc.desired && p !in s.cvc.current
    ensures |s.cvc.desired| > |s.cvc.current|
  {
    hide Unique, OperatorOk, ManagerOk, SubMap;
    InvLists(s);
    ListShape(s.cvc);
    assert p in Elems(s.cvc.desired) && p !in Elems(s.cvc.current);
  }

  // ---------- exchanging a pool of a scale-up ----------

  /** A live CVR on a pool that neither list names. */
  ghost predicate Orphan(s: State, p: Pool) {
    Live(s, p) && p !in s.cvc.desired && p !in s.cvc.current
  }

  ghost predicate MayOrphan(s: State) {
    exists acts, p :: AllowedRun(s, acts) && Orphan(Run(s, acts), p)
  }

  lemma TrackedHasNoOrphan(s: State, p: Pool)
    requires Tracked(s)
    ensures !Orphan(s, p)
  {
    hide Inv, Owned, Passes, Factors, DistinctIds;
  }

  /** In every run each live replica is on a pool of one of the lists. */
  lemma NoOrphanInEveryRun(s0: State, acts: seq<Action>, p: Pool)
    requires Init(s0) && AllowedRun(s0, acts)
    ensures !Orphan(Run(s0, acts), p)
  {
    hide Tracked, Run, AllowedRun, Init;
    InitTracked(s0);
    RunKeepsTracked(s0, acts);
    TrackedHasNoOrphan(Run(s0, acts), p);
  }

  lemma TrackedNeverOrphans(s: State)
    requires Tracked(s)
    ensures !MayOrphan(s)
  {
    hide Tracked, Run, AllowedRun;
    forall acts, p | AllowedRun(s, acts) ensures !Orphan(Run(s, acts), p) {
      RunKeepsTracked(s, acts);
      TrackedHasNoOrphan(Run(s, acts), p);
    }
  }

  lemma OrphanNow(s: State, p: Pool)
    requires Orphan(s, p)
    ensures MayOrphan(s)
  {
    assert AllowedRun(s, []) && Run(s, []) == s;
  }

  lemma OrphanLater(s: State, a: Action)
    requires Allowed(s, a) && MayOrphan(Step(s, a))
    ensures MayOrphan(s)
  {
    hide Step, Allowed, Run, AllowedRun;
    var acts, p :| AllowedRun(Step(s, a), acts) && Orphan(Run(Step(s, a), acts), p);
    AllowedCons(s, a, acts);
    RunOne(s, a, acts);
    assert Orphan(Run(s, [a] + acts), p);
  }

  /** A pass that still has the dropped pool before it gives it a replica. */
  lemma {:induction false} PassOrphans(s: State, p: Pool)
    requires s.op.UpSized? && p in s.op.todo && p !in s.cvc.desired && p !in s.cvc.current
    ensures MayOrphan(s)
    decreases |s.op.todo|
  {
    hide MayOrphan, FreshId, Finalize;
    if Live(s, p) {
      OrphanNow(s, p);
    } else if s.op.todo[0] != p {
      var a := OperatorCreate("", false);
      PassOrphans(Step(s, a), p);
      OrphanLater(s, a);
    } else if p in s.cvrs {
      Collected(s, p);
      CreationOrphans(Step(s, Collect(p)), p);
      OrphanLater(s, Collect(p));
    } else {
      CreationOrphans(s, p);
    }
  }

  lemma Collected(s: State, p: Pool)
    requires p in s.cvrs && s.cvrs[p].deleting
    ensures Step(s, Collect(p)) == s.(cvrs := s.cvrs - {p}) && Allowed(s, Collect(p))
  {
  }

  lemma CreationOrphans(s: State, p: Pool)
    requires s.op.UpSized? && s.op.todo != [] && s.op.todo[0] == p && p !in s.cvrs
    requires p !in s.cvc.desired && p !in s.cvc.current
    ensures MayOrphan(s)
  {
    hide MayOrphan, FreshId;
    var ids := FreshIdsExist(s, [p]);
    assert [p][0] in [p];
    assert FreshId(s, ids[p]);
    var a := OperatorCreate(ids[p], true);
    OrphanNow(Step(s, a), p);
    OrphanLater(s, a);
  }

  /** Exactly when may a pool of a pending scale-up be exchanged for another one:
      an admitted edit that does so can leave a replica on a pool that no list
      names if and only if a pool it drops has a replica already or a pass is
      going to give it one. */
  lemma ExchangeOrphansIff(s: State, pools: seq<Pool>)
    requires Tracked(s) && |s.cvc.desired| > |s.cvc.current|
    requires EditDesired(s, pools) != s && Elems(pools) != Elems(s.cvc.desired)
    ensures MayOrphan(EditDesired(s, pools)) <==> !DropsUnused(s, pools)
  {
    hide Tracked, MayOrphan, DropsUnused;
    var s' := EditDesired(s, pools);
    if DropsUnused(s, pools) {
      EditKeepsTracked(s, pools);
      TrackedNeverOrphans(s');
    } else {
      ExchangeOrphans(s, pools);
    }
  }

  lemma ExchangeOrphans(s: State, pools: seq<Pool>)
    requires Tracked(s) && |s.cvc.desired| > |s.cvc.current|
    requires EditDesired(s, pools) != s && !DropsUnused(s, pools)
    ensures MayOrphan(EditDesired(s, pools))
  {
    hide Inv, Replicas, Owned, Factors, MayOrphan, Admitted;
    var s' := EditDesired(s, pools);
    var p :| p in s.cvc.desired && p !in pools && p !in s.cvc.current
             && (Live(s, p) || s.op.UpStarted? || (s.op.UpSized? && p in s.op.todo));
    if Live(s, p) {
      assert Orphan(s', p);
      OrphanNow(s', p);
    } else if s.op.UpStarted? {
      InvLists(s);
      assert p in Elems(s.op.snap.desired);
      assert p in NewPools(s.op.snap);
      PassOrphans(Step(s', OperatorSize), p);
      OrphanLater(s', OperatorSize);
    } else {
      PassOrphans(s', p);
    }
  }
}
