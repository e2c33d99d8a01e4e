/** Scale-down of a volume whose replicas are all registered: bound on the
  known replicas, order of the removal, and recovery from any interruption.

  The code of the four actors does not enforce everything these properties
  need. `Allowed` states the missing facts as conditions on the actions:
  an edit made while scaling is in progress keeps the set of pools, unless it
  names another pool for removal before the operator has turned to the first, or
  exchanges a pool to be added before that has a replica; a shrinking edit is
  made when as many replicas are known as the replication factors say;
  registrations come from CVRs of the volume that are not being deleted and carry
  a majority consistency factor and a replication factor within the desired one;
  replica ids are distinct. */
module ScaleDown {
  import opened Lists
  import opened CvcAdmission
  import opened VolumeScaling

  ghost predicate Live(s: State, p: Pool) {
    p in s.cvrs && !s.cvrs[p].deleting
  }

  ghost predicate FreshId(s: State, id: Id) {
    id != "" && id !in s.cv.statusKnown && forall p :: p in s.cvrs ==> s.cvrs[p].id != id
  }

  ghost predicate AllRegistered(s: State) {
    |s.cv.specKnown| == s.cv.drf == s.cv.rf
  }

  ghost predicate AllowedEdit(s: State, pools: seq<Pool>) {
    && (ScalingInProgress(AsClaim(s.cvc)) ==>
          Elems(pools) == Elems(s.cvc.desired) || Uncommitted(s) || (!Shrinking(s.cvc) && DropsUnused(s, pools)))
    && (!ScalingInProgress(AsClaim(s.cvc)) && |pools| < |s.cvc.current| ==> AllRegistered(s))
  }

  /** A scale-down the operator has not yet turned to: the factor is not lowered
      and no pass is about to lower it. */
  ghost predicate Uncommitted(s: State) {
    Shrinking(s.cvc) && !Lowered(s) && !s.op.DownStarted?
  }

  /** The pools dropped from a pending scale-up have no replica, and no pass is
      going to give them one. */
  ghost predicate DropsUnused(s: State, pools: seq<Pool>) {
    forall p :: p in s.cvc.desired && p !in pools && p !in s.cvc.current ==>
      !Live(s, p) && !s.op.UpStarted? && !(s.op.UpSized? && p in s.op.todo)
  }

  ghost predicate AllowedRegistration(s: State, r: Registration) {
    && (exists p :: Live(s, p) && s.cvrs[p].id == r.id)
    && r.rf <= s.cv.drf && r.cf == r.rf / 2 + 1
  }

  ghost predicate Allowed(s: State, a: Action) {
    match a
    case Edit(pools) => AllowedEdit(s, pools)
    case Connect(r) => RegistrationAccepted(s.cv, r) ==> AllowedRegistration(s, r)
    case OperatorCreate(id, ok) => CreatesReplica(s, ok) ==> FreshId(s, id)
    case SetId(_, id) => FreshId(s, id)
    case _ => true
  }

  /** This turn of the creation loop makes a new CVR. */
  predicate CreatesReplica(s: State, ok: bool) {
    s.op.UpSized? && s.op.todo != [] && ok && s.op.todo[0] !in s.cvrs
  }

  ghost predicate AllowedRun(s: State, acts: seq<Action>)
    decreases |acts|
  {
    acts != [] ==> Allowed(s, acts[0]) && AllowedRun(Step(s, acts[0]), acts[1..])
  }

  // ---------- the invariant ----------

  predicate Shrinking(c: Cvc) { |c.desired| < |c.current| }

  ghost predicate DistinctIds(cvrs: map<Pool, Cvr>) {
    forall p, q :: p in cvrs && q in cvrs && p != q && cvrs[p].id != ""
      ==> cvrs[p].id != cvrs[q].id
  }

  ghost predicate Replicas(s: State) {
    && DistinctIds(s.cvrs)
    && (forall p :: Live(s, p) ==> p in s.cvc.desired || p in s.cvc.current)
    && (Shrinking(s.cvc) ==> forall p :: p in s.cvc.desired ==> Live(s, p))
  }

  /** Every known replica is the replica of a live CVR. */
  ghost predicate Owned(s: State) {
    forall id :: id in s.cv.specKnown ==>
      id != "" && exists p :: Live(s, p) && s.cvrs[p].id == id
  }

  ghost predicate Passes(s: State) {
    && (s.op.UpStarted? || ScalingDown(s.op) ==> Elems(s.op.snap.desired) == Elems(s.cvc.desired))
    && (s.op.UpSized? ==> forall p :: p in s.op.todo ==> p in s.cvc.desired)
    && (s.op.DownSettled? && !s.op.found ==> forall p :: p in RemovedPools(s.op.snap) ==> p !in s.cvrs)
    && (s.mgr.Shrunk? || s.mgr.Commanded? ==> s.mgr.copy.rf <= s.mgr.copy.drf)
  }

  /** The desired factor has been lowered for the pending scale-down. */
  ghost predicate Lowered(s: State) { s.cv.drf == |s.cvc.desired| }

  /** The target has dropped the removed replica and both maps agree again. */
  ghost predicate Settled(s: State) {
    s.cv.specKnown.Keys == s.cv.statusKnown.Keys && s.cv.rf == s.cv.drf
  }

  /** A pending removal of pool `p`, from the edit to the status update. */
  ghost predicate Removal(s: State, p: Pool) {
    && |s.cv.specKnown| == s.cv.drf
    && (!Lowered(s) ==> Settled(s) && Live(s, p) && s.cvrs[p].id in s.cv.specKnown)
    && (Lowered(s) ==>
          && (p in s.cvrs ==> s.cvrs[p].id !in s.cv.specKnown)
          && (Settled(s) ||
              (Live(s, p) && s.cvrs[p].id != "" && s.cv.statusKnown.Keys == s.cv.specKnown.Keys + {s.cvrs[p].id}
               && s.cv.drf <= s.cv.rf <= s.cv.drf + 1)))
    && (s.op.DownSettled? || s.op.DownCleaned? ==> Settled(s))
    && (s.op.DownCleaned? ==> !Live(s, p))
  }

  ghost predicate Factors(s: State) {
    && |s.cv.specKnown| <= s.cv.drf
    && s.cv.cf == s.cv.rf / 2 + 1
    && (!Shrinking(s.cvc) ==>
          s.cv.rf <= s.cv.drf && s.cv.specKnown.Keys == s.cv.statusKnown.Keys)
    && (Shrinking(s.cvc) && RemovedPools(s.cvc) != [] ==> Removal(s, RemovedPools(s.cvc)[0]))
  }

  ghost predicate Tracked(s: State) {
    Inv(s) && Replicas(s) && Owned(s) && Passes(s) && Factors(s)
  }

  // ---------- preservation ----------

  lemma InitTracked(s: State)
    requires Init(s)
    ensures Tracked(s)
  {
    ListShape(s.cvc);
    forall p | p in s.cvrs ensures p in s.cvc.desired && p in s.cvc.current {
      assert p in Elems(s.cvc.desired) && p in Elems(s.cvc.current);
    }
    forall p | p in s.cvc.desired ensures p in s.cvrs {
      assert p in Elems(s.cvc.desired);
    }
  }

  lemma InvLists(s: State)
    requires Inv(s)
    ensures PoolLists(s.cvc) && SubMap(s.cv.specKnown, s.cv.statusKnown)
    ensures s.cv.drf == |s.cvc.desired| || s.cv.drf == |s.cvc.current|
    ensures s.op != OpIdle ==>
      PoolLists(s.op.snap) && s.op.snap.current == s.cvc.current
      && |s.op.snap.desired| == |s.cvc.desired| && (s.op.snap.rv == s.cvc.rv ==> s.op.snap == s.cvc)
      && (ScalingDown(s.op) <==> Shrinking(s.cvc))
      && (ScalingUp(s.op) ==> |s.cvc.desired| > |s.cvc.current|)
      && (s.op.DownSettled? || s.op.DownCleaned? || s.op.UpReady? ==> Lowered(s))
  {
  }

  /** The removed pool depends only on the sets. */
  lemma SameRemoved(c: Cvc, d: Cvc)
    requires PoolLists(c) && PoolLists(d) && Shrinking(c)
    requires Elems(c.current) == Elems(d.current) && Elems(c.desired) == Elems(d.desired)
    ensures Shrinking(d) && |RemovedPools(c)| == |RemovedPools(d)| == 1
    ensures RemovedPools(c) == RemovedPools(d) == [RemovedPools(c)[0]]
    ensures RemovedPools(c)[0] in c.current && RemovedPools(c)[0] !in c.desired
  {
    ListShape(c);
    ListShape(d);
    var p, q := RemovedPools(c)[0], RemovedPools(d)[0];
    assert p in Elems(c.current) && p !in Elems(c.desired);
    assert q in Elems(c.current) && q !in Elems(c.desired);
    ElemsCard(d.desired);
    ElemsCard(d.current);
    ElemsCard(c.desired);
    ElemsCard(c.current);
  }

  function IdsOn(cvrs: map<Pool, Cvr>, pools: set<Pool>): set<Id> {
    set p | p in pools && p in cvrs :: cvrs[p].id
  }

  lemma {:induction false} IdsOnCard(cvrs: map<Pool, Cvr>, pools: set<Pool>)
    ensures |IdsOn(cvrs, pools)| <= |pools|
  {
    if pools != {} {
      var p :| p in pools;
      IdsOnCard(cvrs, pools - {p});
      var rest := IdsOn(cvrs, pools - {p});
      if p in cvrs {
        assert IdsOn(cvrs, pools) == rest + {cvrs[p].id};
      } else {
        assert IdsOn(cvrs, pools) == rest;
      }
    }
  }

  /** Pigeonhole: when as many replicas are known as there are pools in use, and
      none of them is on another pool, the replica of every such pool is live and
      known. */
  lemma PoolsKnown(s: State, pools: set<Pool>, r: Pool)
    requires Owned(s) && |s.cv.specKnown| == |pools| && r in pools
    requires forall p :: Live(s, p) && s.cvrs[p].id in s.cv.specKnown ==> p in pools
    ensures Live(s, r) && s.cvrs[r].id in s.cv.specKnown
  {
    if !(Live(s, r) && s.cvrs[r].id in s.cv.specKnown) {
      var rest := pools - {r};
      forall id | id in s.cv.specKnown ensures id in IdsOn(s.cvrs, rest) {
        var p :| Live(s, p) && s.cvrs[p].id == id;
        assert p in rest;
      }
      SubsetCard(s.cv.specKnown.Keys, IdsOn(s.cvrs, rest));
      IdsOnCard(s.cvrs, rest);
    }
  }

  /** When as many replicas are known as the status has pools, the replica of
      every pool of the status is live and known. */
  lemma AllPoolsKnown(s: State, r: Pool)
    requires Tracked(s) && Elems(s.cvc.desired) <= Elems(s.cvc.current)
    requires |s.cv.specKnown| == |s.cvc.current| && r in s.cvc.current
    ensures Live(s, r) && s.cvrs[r].id in s.cv.specKnown
  {
    hide Inv, Owned, Passes, Factors, DistinctIds;
    InvLists(s);
    ElemsCard(s.cvc.current);
    var pools := Elems(s.cvc.current);
    forall p | Live(s, p) ensures p in pools {
      assert p in Elems(s.cvc.desired) || p in pools;
    }
    PoolsKnown(s, pools, r);
  }

  lemma EditDuringScaling(s: State, pools: seq<Pool>)
    requires Replicas(s) && Owned(s) && Passes(s) && Elems(pools) == Elems(s.cvc.desired)
    requires ScalingInProgress(AsClaim(s.cvc)) && EditDesired(s, pools) != s
    ensures var s' := EditDesired(s, pools); Replicas(s') && Owned(s') && Passes(s')
  {
    hide DistinctIds, Admitted;
    var s' := EditDesired(s, pools);
    assert |pools| == |s.cvc.desired| by { assert Admitted(AsClaim(s.cvc), AsClaim(s.cvc).(desired := pools)); SameCount(s, pools); }
    assert forall p :: p in s'.cvc.desired <==> p in Elems(s.cvc.desired);
    assert forall p :: Live(s', p) <==> Live(s, p);
  }

  /** While scaling is in progress the webhook holds the number of pools. */
  lemma SameCount(s: State, pools: seq<Pool>)
    requires ScalingInProgress(AsClaim(s.cvc)) && Admitted(AsClaim(s.cvc), AsClaim(s.cvc).(desired := pools))
    ensures |pools| == |s.cvc.desired|
  {
  }

  lemma EditDuringScalingFactors(s: State, pools: seq<Pool>)
    requires Inv(s) && Factors(s) && Elems(pools) == Elems(s.cvc.desired)
    requires ScalingInProgress(AsClaim(s.cvc)) && EditDesired(s, pools) != s
    ensures Factors(EditDesired(s, pools))
  {
    hide Inv, Admitted, Unique;
    var s' := EditDesired(s, pools);
    EditKeepsInv(s, pools);
    assert PoolLists(s.cvc) && PoolLists(s'.cvc) by { InvLists(s); InvLists(s'); }
    ListShape(s.cvc);
    ListShape(s'.cvc);
    if Shrinking(s.cvc) {
      SameRemoved(s.cvc, s'.cvc);
      var p := RemovedPools(s.cvc)[0];
      assert Removal(s, p);
      assert Live(s', p) <==> Live(s, p);
      assert Lowered(s) <==> Lowered(s');
      assert Removal(s', p);
    }
  }

  /** An edit that ends with a shorter list than the status, made when the
      replicas of all pools of the status are known. */
  lemma ShrunkTo(s: State, s': State)
    requires Tracked(s) && Inv(s') && s' == s.(cvc := s'.cvc) && s'.cvc.current == s.cvc.current && s.op == OpIdle
    requires Elems(s.cvc.desired) <= Elems(s.cvc.current) && Shrinking(s'.cvc)
    requires |s.cv.specKnown| == s.cv.drf == s.cv.rf == |s.cvc.current| && Settled(s)
    ensures Replicas(s') && Factors(s')
  {
    hide Inv, Owned, Passes, DistinctIds, Unique, ListDiff;
    InvLists(s);
    InvLists(s');
    ListShape(s'.cvc);
    assert forall p :: Live(s', p) <==> Live(s, p);
    forall p | p in s.cvc.current ensures Live(s, p) && s.cvrs[p].id in s.cv.specKnown {
      AllPoolsKnown(s, p);
    }
    assert forall p :: p in s'.cvc.desired ==> p in Elems(s'.cvc.desired) && p in Elems(s.cvc.current);
    assert forall p :: p in s.cvc.desired ==> p in Elems(s.cvc.desired);
    assert Removal(s', RemovedPools(s'.cvc)[0]);
  }

  lemma ShrinkingEdit(s: State, pools: seq<Pool>)
    requires Tracked(s) && AllRegistered(s)
    requires !ScalingInProgress(AsClaim(s.cvc)) && EditDesired(s, pools) != s
    requires |pools| < |s.cvc.current|
    ensures Replicas(EditDesired(s, pools)) && Factors(EditDesired(s, pools))
  {
    hide Replicas, Owned, Passes, Unique, ListDiff;
    var s' := EditDesired(s, pools);
    EditKeepsInv(s, pools);
    ListShape(s.cvc);
    ListShape(s'.cvc);
    NotShrinking(s);
    ShrunkTo(s, s');
  }

  /** Another pool may be named for removal as long as the operator has not
      turned to the first one. */
  lemma SwappingEdit(s: State, pools: seq<Pool>)
    requires Tracked(s) && Uncommitted(s) && EditDesired(s, pools) != s
    ensures Replicas(EditDesired(s, pools)) && Factors(EditDesired(s, pools)) && s.op == OpIdle
  {
    hide Replicas, Owned, Passes, Unique, ListDiff, Admitted;
    var s' := EditDesired(s, pools);
    EditKeepsInv(s, pools);
    InvLists(s);
    ListShape(s.cvc);
    ShrinkingPhase(s);
    SameCount(s, pools);
    ShrunkTo(s, s');
  }

  /** A pool that was to be added may be exchanged for another one as long as it
      has no replica and no pass is going to give it one. */
  lemma ExchangingEdit(s: State, pools: seq<Pool>)
    requires Tracked(s) && !Shrinking(s.cvc) && DropsUnused(s, pools) && EditDesired(s, pools) != s
    requires ScalingInProgress(AsClaim(s.cvc)) && Elems(pools) != Elems(s.cvc.desired)
    ensures Replicas(EditDesired(s, pools)) && Factors(EditDesired(s, pools)) && Passes(EditDesired(s, pools))
  {
    hide DistinctIds, Owned, ListDiff, Admitted, Inv, Unique, Passes;
    var s' := EditDesired(s, pools);
    EditKeepsInv(s, pools);
    InvLists(s);
    InvLists(s');
    SameCount(s, pools);
    assert forall p :: Live(s', p) <==> Live(s, p);
    ExchangingKeepsPasses(s, pools);
  }

  lemma ExchangingKeepsPasses(s: State, pools: seq<Pool>)
    requires Inv(s) && Passes(s) && |s.cvc.desired| > |s.cvc.current| && DropsUnused(s, pools) && EditDesired(s, pools) != s
    requires Elems(pools) != Elems(s.cvc.desired)
    ensures Passes(EditDesired(s, pools))
  {
    hide ListDiff, Admitted, Inv, Unique;
    InvLists(s);
    var p := SomeDropped(s, pools);
    assert !s.op.UpStarted?;
    GrownKeepsCurrent(s, pools);
  }

  lemma GrownKeepsCurrent(s: State, pools: seq<Pool>)
    requires Inv(s) && |s.cvc.desired| > |s.cvc.current| && EditDesired(s, pools) != s
    ensures forall p :: p in s.cvc.current ==> p in pools
  {
    hide ListDiff, Admitted, Unique;
    var s' := EditDesired(s, pools);
    EditKeepsInv(s, pools);
    SameCount(s, pools);
    ListShape(s'.cvc);
    assert forall p :: p in s.cvc.current ==> p in Elems(s.cvc.current);
    assert forall p :: p in Elems(pools) ==> p in pools;
  }

  lemma SomeDropped(s: State, pools: seq<Pool>) returns (p: Pool)
    requires Inv(s) && |s.cvc.desired| > |s.cvc.current| && EditDesired(s, pools) != s
    requires Elems(pools) != Elems(s.cvc.desired)
    ensures p in s.cvc.desired && p !in pools && p !in s.cvc.current
  {
    hide ListDiff, Admitted;
    EditKeepsInv(s, pools);
    SameCount(s, pools);
    GrownKeepsCurrent(s, pools);
    ElemsCard(pools);
    ElemsCard(s.cvc.desired);
    if Elems(s.cvc.desired) <= Elems(pools) {
      SubsetCard(Elems(s.cvc.desired), Elems(pools));
    }
    p :| p in Elems(s.cvc.desired) && p !in Elems(pools);
  }

  lemma GrowingEdit(s: State, pools: seq<Pool>)
    requires Tracked(s)
    requires !ScalingInProgress(AsClaim(s.cvc)) && EditDesired(s, pools) != s
    requires |pools| >= |s.cvc.current|
    ensures Replicas(EditDesired(s, pools)) && Factors(EditDesired(s, pools))
  {
    hide DistinctIds, Owned, Passes;
    var s' := EditDesired(s, pools);
    EditKeepsInv(s, pools);
    ListShape(s.cvc);
    ListShape(s'.cvc);
    assert forall p :: Live(s', p) <==> Live(s, p);
    assert forall p :: p in s.cvc.desired <==> p in Elems(s.cvc.current);
    assert forall p :: p in s.cvc.current ==> p in Elems(s'.cvc.desired);
  }

  lemma EditKeepsTracked(s: State, pools: seq<Pool>)
    requires Tracked(s) && AllowedEdit(s, pools)
    ensures Tracked(EditDesired(s, pools))
  {
    hide Replicas, Owned, Factors, Admitted, PoolLists;
    var s' := EditDesired(s, pools);
    EditKeepsInv(s, pools);
    SameOwned(s, s');
    if s' == s {
    } else if ScalingInProgress(AsClaim(s.cvc)) && Elems(pools) == Elems(s.cvc.desired) {
      EditDuringScaling(s, pools);
      EditDuringScalingFactors(s, pools);
    } else if ScalingInProgress(AsClaim(s.cvc)) && !Shrinking(s.cvc) {
      ExchangingEdit(s, pools);
    } else if ScalingInProgress(AsClaim(s.cvc)) {
      SwappingEdit(s, pools);
    } else {
      if |pools| < |s.cvc.current| { ShrinkingEdit(s, pools); } else { GrowingEdit(s, pools); }
      IdleWhenEqual(s);
    }
  }

  lemma IdleWhenEqual(s: State)
    requires Inv(s) && !ScalingInProgress(AsClaim(s.cvc))
    ensures s.op == OpIdle
  {
  }

  lemma RaiseKeepsTracked(s: State)
    requires Tracked(s) && s.op.UpStarted?
    ensures Tracked(OpSize(s))
  {
    OpSizeKeepsInv(s);
    ListShape(s.cvc);
    assert forall p :: p in s.op.snap.desired ==> p in Elems(s.cvc.desired);
  }

  /** Lowering the factor takes the removed replica out of the spec's map. */
  lemma LowerStartsRemoval(s: State, p: Pool)
    requires Tracked(s) && s.op.DownStarted? && !Lowered(s)
    requires Shrinking(s.cvc) && RemovedPools(s.cvc) == RemovedPools(s.op.snap) == [p]
    requires |s.cvc.desired| == |s.op.snap.desired| < s.cv.drf
    ensures Removal(OpSize(s), p) && Owned(OpSize(s)) && OpSize(s).op == OpIdle
    ensures OpSize(s).cv.specKnown.Keys == s.cv.specKnown.Keys - {s.cvrs[p].id}
    ensures OpSize(s) == s.(cv := OpSize(s).cv, op := OpIdle) && OpSize(s).cv.drf == |s.cvc.desired| && p in s.cvrs
  {
    ListShape(s.cvc);
    var m, id := s.cv.specKnown, s.cvrs[p].id;
    assert (m - {id}).Keys == m.Keys - {id};
    assert |(m - {id}).Keys| == |m.Keys| - 1;
    assert s.cv.statusKnown.Keys == (m - {id}).Keys + {id};
    assert |s.cv.statusKnown| == |s.cv.statusKnown.Keys| > |(m - {id}).Keys|;
  }

  predicate SameLists(c: Cvc, d: Cvc) {
    c.desired == d.desired && c.current == d.current
  }

  lemma SameReplicas(s: State, s': State)
    requires Replicas(s) && SameLists(s'.cvc, s.cvc) && s'.cvrs == s.cvrs
    ensures Replicas(s')
  {
    hide DistinctIds;
    assert forall p :: Live(s', p) <==> Live(s, p);
  }

  lemma SameFactors(s: State, s': State)
    requires Factors(s) && SameLists(s'.cvc, s.cvc) && s'.cvrs == s.cvrs
    requires s'.cv == s.cv.(rv := s'.cv.rv)
    requires s'.op == s.op || !(s'.op.DownSettled? || s'.op.DownCleaned?)
    ensures Factors(s')
  {
    if Shrinking(s.cvc) && RemovedPools(s.cvc) != [] {
      var p := RemovedPools(s.cvc)[0];
      assert Removal(s, p);
      assert Live(s', p) <==> Live(s, p);
      assert Removal(s', p);
    }
  }

  lemma SameOwned(s: State, s': State)
    requires Owned(s) && s'.cv.specKnown == s.cv.specKnown && s'.cvrs == s.cvrs
    ensures Owned(s')
  {
    assert forall p :: Live(s', p) <==> Live(s, p);
  }

  lemma LowerAgain(s: State, p: Pool)
    requires Inv(s) && Passes(s) && Factors(s) && s.op.DownStarted? && Lowered(s)
    requires Shrinking(s.cvc) && RemovedPools(s.cvc) == RemovedPools(s.op.snap) == [p]
    requires |s.cvc.desired| == |s.op.snap.desired|
    ensures OpSize(s).cv == s.cv && Removal(OpSize(s), p)
    ensures OpSize(s).op == OpIdle || OpSize(s).op == DownSettled(s.op.snap, p in s.cvrs)
  {
    SubMapCard(s.cv);
  }

  lemma LowerKeepsFactors(s: State, p: Pool)
    requires Tracked(s) && s.op.DownStarted? && |s.op.snap.desired| == |s.cvc.desired|
    requires Shrinking(s.cvc) && RemovedPools(s.cvc) == RemovedPools(s.op.snap) == [p]
    ensures Owned(OpSize(s)) && Factors(OpSize(s))
  {
    hide Replicas, Passes, ManagerOk, SubMap, Unique, ListDiff;
    var s' := OpSize(s);
    if !Lowered(s) {
      assert s.cv.drf == |s.cvc.current|;
      LowerStartsRemoval(s, p);
    } else {
      LowerAgain(s, p);
      assert forall q :: Live(s', q) <==> Live(s, q);
    }
    assert s'.cvc == s.cvc && s'.cv.cf == s.cv.cf && s'.cv.rf == s.cv.rf;
  }

  lemma LowerKeepsPasses(s: State)
    requires Passes(s) && s.op.DownStarted?
    requires |RemovedPools(s.op.snap)| == 1
    ensures Passes(OpSize(s))
  {
  }

  lemma LowerKeepsTracked(s: State)
    requires Tracked(s) && s.op.DownStarted?
    ensures Tracked(OpSize(s))
  {
    OpSizeKeepsInv(s);
    SameReplicas(s, OpSize(s));
    SameRemoved(s.cvc, s.op.snap);
    LowerKeepsFactors(s, RemovedPools(s.cvc)[0]);
    LowerKeepsPasses(s);
  }

  /** A sub-map with as many entries has the same keys. */
  lemma SubMapCard(cv: Cv)
    requires SubMap(cv.specKnown, cv.statusKnown)
    ensures |cv.specKnown| == |cv.specKnown.Keys| && |cv.statusKnown| == |cv.statusKnown.Keys|
    ensures IsScaleDownInProgress(cv) <==> cv.specKnown.Keys != cv.statusKnown.Keys
  {
    SubsetCard(cv.specKnown.Keys, cv.statusKnown.Keys);
  }

  lemma OpStartKeepsTracked(s: State)
    requires Tracked(s)
    ensures Tracked(OpStart(s))
  {
    hide Inv, Replicas, Owned, Factors;
    OpStartKeepsInv(s);
    SameReplicas(s, OpStart(s));
    SameOwned(s, OpStart(s));
    SameFactors(s, OpStart(s));
  }

  lemma OpCreateKeepsTracked(s: State, id: Id, ok: bool)
    requires Tracked(s) && (CreatesReplica(s, ok) ==> FreshId(s, id))
    ensures Tracked(OpCreate(s, id, ok))
  {
    hide Inv, Replicas, Owned, Passes, Factors, OpCreate, FreshId;
    OpCreateKeepsInv(s, id, ok);
    OpCreateKeepsReplicas(s, id, ok);
    OpCreateKeepsPasses(s, id, ok);
    OpCreateKeepsFactors(s, id, ok);
  }

  lemma OpCreateKeepsPasses(s: State, id: Id, ok: bool)
    requires Passes(s)
    ensures Passes(OpCreate(s, id, ok))
  {
  }

  lemma OpCreateKeepsReplicas(s: State, id: Id, ok: bool)
    requires Tracked(s) && (CreatesReplica(s, ok) ==> FreshId(s, id))
    ensures Replicas(OpCreate(s, id, ok)) && Owned(OpCreate(s, id, ok))
  {
    hide Inv, Factors;
    var s' := OpCreate(s, id, ok);
    assert forall p :: Live(s, p) ==> Live(s', p) && s'.cvrs[p] == s.cvrs[p];
  }

  lemma OpCreateKeepsFactors(s: State, id: Id, ok: bool)
    requires Tracked(s) && (CreatesReplica(s, ok) ==> FreshId(s, id))
    ensures Factors(OpCreate(s, id, ok))
  {
    hide Owned, Passes, DistinctIds, PoolLists;
    var s' := OpCreate(s, id, ok);
    assert forall p :: Live(s, p) ==> Live(s', p) && s'.cvrs[p] == s.cvrs[p];
  }

  /** Deleting the CVR of a settled removal touches no known replica. */
  lemma DeleteKeepsOwned(s: State, s': State, p: Pool)
    requires Owned(s) && p in s.cvrs && s.cvrs[p].id !in s.cv.specKnown
    requires s'.cv == s.cv && s'.cvrs == s.cvrs[p := s.cvrs[p].(deleting := true)]
    ensures Owned(s')
  {
    forall id | id in s.cv.specKnown
      ensures id != "" && exists q :: Live(s', q) && s'.cvrs[q].id == id
    {
      var q :| Live(s, q) && s.cvrs[q].id == id;
      assert Live(s', q) && s'.cvrs[q].id == id;
    }
  }

  lemma DeleteKeepsReplicas(s: State, s': State, p: Pool)
    requires Replicas(s) && p in s.cvrs && p !in s.cvc.desired
    requires s'.cvc == s.cvc && s'.cvrs == s.cvrs[p := s.cvrs[p].(deleting := true)]
    ensures Replicas(s')
  {
    assert forall q :: Live(s', q) ==> Live(s, q);
    assert forall q :: q in s.cvrs <==> q in s'.cvrs;
    assert forall q :: q in s.cvrs ==> s'.cvrs[q].id == s.cvrs[q].id;
  }

  lemma DeleteKeepsRemoval(s: State, p: Pool)
    requires Inv(s) && Factors(s) && s.op.DownSettled?
    requires Shrinking(s.cvc) && RemovedPools(s.cvc) == RemovedPools(s.op.snap) == [p]
    requires s.op.found || !Live(s, p)
    ensures Factors(OpDelete(s))
  {
    var s' := OpDelete(s);
    assert Removal(s, p) && Lowered(s);
    assert s'.cv == s.cv && s'.cvc == s.cvc;
    assert Removal(s', p);
  }

  lemma OpDeleteKeepsTracked(s: State)
    requires Tracked(s) && s.op.DownSettled?
    ensures Tracked(OpDelete(s))
  {
    hide Inv, Replicas, Owned;
    var s' := OpDelete(s);
    InvLists(s);
    OpDeleteKeepsInv(s);
    SameRemoved(s.cvc, s.op.snap);
    var p := RemovedPools(s.cvc)[0];
    DeleteKeepsRemoval(s, p);
    if s'.cvrs != s.cvrs {
      assert Removal(s, p) && Lowered(s);
      assert s'.cvrs == s.cvrs[p := s.cvrs[p].(deleting := true)];
      DeleteKeepsReplicas(s, s', p);
      DeleteKeepsOwned(s, s', p);
    } else {
      SameReplicas(s, s');
      SameOwned(s, s');
    }
  }

  lemma FinishKeepsReplicas(s: State, s': State)
    requires Replicas(s) && s'.cvrs == s.cvrs && s'.cvc.desired == s.cvc.desired
    requires |s'.cvc.current| == |s'.cvc.desired|
    requires forall q :: q in s.cvc.current && Live(s, q) ==> q in s.cvc.desired
    ensures Replicas(s')
  {
    hide DistinctIds;
    assert forall q :: Live(s', q) <==> Live(s, q);
  }

  lemma FinishKeepsFactors(s: State, s': State)
    requires Factors(s) && s'.cv == s.cv && |s'.cvc.current| == |s'.cvc.desired|
    requires s.cv.rf <= s.cv.drf && s.cv.specKnown.Keys == s.cv.statusKnown.Keys
    ensures Factors(s')
  {
  }

  lemma UpFinishKeepsTracked(s: State)
    requires Tracked(s) && s.op.UpReady? && s.op.snap.rv == s.cvc.rv
    ensures Tracked(OpFinish(s))
  {
    hide Inv, Owned, Replicas, Factors, Unique;
    var s' := OpFinish(s);
    OpFinishKeepsInv(s);
    InvLists(s);
    CompletedLists(s.cvc);
    ListShape(s.cvc);
    assert forall q :: q in s.cvc.current ==> q in Elems(s.cvc.current);
    FinishKeepsReplicas(s, s');
    SameOwned(s, s');
    assert s.cv.rf <= s.cv.drf && s.cv.specKnown.Keys == s.cv.statusKnown.Keys by {
      NotShrinking(s);
    }
    FinishKeepsFactors(s, s');
  }

  lemma NotShrinking(s: State)
    requires Factors(s) && !Shrinking(s.cvc)
    ensures s.cv.rf <= s.cv.drf && s.cv.specKnown.Keys == s.cv.statusKnown.Keys
  {
  }

  lemma ShrinkingPhase(s: State)
    requires Factors(s) && Shrinking(s.cvc) && RemovedPools(s.cvc) != []
    ensures Removal(s, RemovedPools(s.cvc)[0]) && s.cv.cf == s.cv.rf / 2 + 1
  {
  }

  lemma ReplicaPlaces(s: State)
    requires Replicas(s)
    ensures forall p :: Live(s, p) ==> p in s.cvc.desired || p in s.cvc.current
  {
  }

  lemma DownFinishKeepsTracked(s: State)
    requires Tracked(s) && s.op.DownCleaned? && s.op.snap.rv == s.cvc.rv
    ensures Tracked(OpFinish(s))
  {
    hide Inv, Owned, Replicas, Factors, Unique;
    var s' := OpFinish(s);
    OpFinishKeepsInv(s);
    InvLists(s);
    ListShape(s.cvc);
    ShrinkingPhase(s);
    ReplicaPlaces(s);
    forall q | q in s.cvc.current && Live(s, q) ensures q in s.cvc.desired {
      assert q in Elems(s.cvc.current);
    }
    FinishKeepsReplicas(s, s');
    SameOwned(s, s');
    FinishKeepsFactors(s, s');
  }

  lemma OpFinishKeepsTracked(s: State)
    requires Tracked(s)
    ensures Tracked(OpFinish(s))
  {
    if OpFinish(s).cvc == s.cvc {
      hide Inv, Replicas, Owned, Factors;
      OpFinishKeepsInv(s);
      SameReplicas(s, OpFinish(s));
      SameOwned(s, OpFinish(s));
      SameFactors(s, OpFinish(s));
    } else if s.op.UpReady? {
      UpFinishKeepsTracked(s);
    } else {
      DownFinishKeepsTracked(s);
    }
  }

  /** The manager moves the replication factor and the status's map towards
      the desired factor and the spec's map, and nothing else. */
  lemma MgrStartKeepsFactors(s: State, healthy: bool)
    requires PoolLists(s.cvc) && SubMap(s.cv.specKnown, s.cv.statusKnown)
    requires Passes(s) && Factors(s)
    ensures Factors(MgrStart(s, healthy)) && Passes(MgrStart(s, healthy))
    ensures MgrStart(s, healthy).cv.specKnown == s.cv.specKnown
  {
    hide PoolLists, Elems, Unique;
    var s' := MgrStart(s, healthy);
    SubMapCard(s.cv);
    ListShape(s.cvc);
    if Shrinking(s.cvc) {
      var p := RemovedPools(s.cvc)[0];
      assert Removal(s, p);
      assert Live(s', p) <==> Live(s, p);
      assert Removal(s', p);
    }
  }

  lemma MgrFinishKeepsFactors(s: State)
    requires PoolLists(s.cvc) && ManagerOk(s)
    requires Passes(s) && Factors(s)
    ensures Factors(MgrFinish(s)) && Passes(MgrFinish(s))
    ensures MgrFinish(s).cv.specKnown == s.cv.specKnown
  {
    hide PoolLists, Elems, Unique, ManagerOk, MgrFinish;
    var s' := MgrFinish(s);
    MgrFinishEffect(s);
    ListShape(s.cvc);
    if Shrinking(s.cvc) {
      var p := RemovedPools(s.cvc)[0];
      assert Removal(s, p);
      assert Live(s', p) <==> Live(s, p);
      assert Lowered(s') ==> Settled(s') || s'.cv == s.cv;
      assert Removal(s', p);
    }
  }

  /** A finished manager pass writes the known replicas of the spec to the status. */
  lemma MgrFinishEffect(s: State)
    requires ManagerOk(s) && Passes(s)
    ensures var s' := MgrFinish(s);
      && s'.cvc == s.cvc && s'.cvrs == s.cvrs && s'.op == s.op && (s'.mgr == MgrIdle || s' == s)
      && (s'.cv == s.cv || (s'.cv == s.cv.(statusKnown := s.cv.specKnown, rv := s'.cv.rv) && s.cv.rf <= s.cv.drf))
  {
  }

  lemma ManagerKeepsFactors(s: State, a: Action)
    requires Inv(s) && Passes(s) && Factors(s)
    requires a.ManagerStart? || a.ManagerCommand? || a.ManagerFinish? || a.ManagerStop?
    ensures Factors(Step(s, a)) && Passes(Step(s, a))
    ensures Step(s, a).cv.specKnown == s.cv.specKnown
  {
    hide PoolLists, OperatorOk, Elems, Unique;
    if a.ManagerStart? {
      MgrStartKeepsFactors(s, a.healthy);
    } else if a.ManagerFinish? {
      MgrFinishKeepsFactors(s);
    } else {
      SameFactors(s, Step(s, a));
    }
  }

  lemma ManagerKeepsTracked(s: State, a: Action)
    requires Tracked(s)
    requires a.ManagerStart? || a.ManagerCommand? || a.ManagerFinish? || a.ManagerStop?
    ensures Tracked(Step(s, a))
  {
    hide Inv, Replicas, Owned, Passes, Factors;
    ManagerKeepsInv(s, a);
    ManagerKeepsFactors(s, a);
    SameReplicas(s, Step(s, a));
    SameOwned(s, Step(s, a));
  }

  lemma RegisterKeepsFactors(s: State, r: Registration)
    requires Inv(s) && Passes(s) && Factors(s)
    requires RegistrationAccepted(s.cv, r) && AllowedRegistration(s, r)
    ensures Factors(Register(s, r)) && Passes(Register(s, r))
  {
    var s' := Register(s, r);
    ListShape(s.cvc);
    assert s'.cv.specKnown.Keys == s.cv.specKnown.Keys + {r.id};
    assert s'.cv.statusKnown.Keys == s.cv.statusKnown.Keys + {r.id};
    if Shrinking(s.cvc) {
      var p := RemovedPools(s.cvc)[0];
      assert Removal(s, p) && r.id in s.cv.specKnown;
      assert s'.cv.specKnown.Keys == s.cv.specKnown.Keys;
      assert Live(s', p) <==> Live(s, p);
      assert Removal(s', p);
    }
  }

  lemma RegisterKeepsOwned(s: State, r: Registration)
    requires Owned(s) && RegistrationAccepted(s.cv, r) && AllowedRegistration(s, r)
    ensures Owned(Register(s, r))
  {
    assert forall p :: Live(Register(s, r), p) <==> Live(s, p);
  }

  lemma RegisterKeepsTracked(s: State, r: Registration)
    requires Tracked(s) && RegistrationAccepted(s.cv, r) && AllowedRegistration(s, r)
    ensures Tracked(Register(s, r))
  {
    hide Inv, Replicas, Owned, Passes, Factors;
    StepKeepsInv(s, Connect(r));
    SameReplicas(s, Register(s, r));
    RegisterKeepsFactors(s, r);
    RegisterKeepsOwned(s, r);
  }

  /** What the pool managers may do to the CVRs: fill in a missing id with a
      fresh one, and let go of a CVR that is being deleted. */
  ghost predicate CvrUpkeep(s: State, s': State) {
    && s' == s.(cvrs := s'.cvrs)
    && s'.cvrs.Keys <= s.cvrs.Keys
    && (forall p :: Live(s', p) <==> Live(s, p))
    && (forall p :: p in s'.cvrs && s.cvrs[p].id != "" ==> s'.cvrs[p].id == s.cvrs[p].id)
    && (forall p :: p in s'.cvrs && s.cvrs[p].id == "" ==> s'.cvrs[p].id !in s.cv.statusKnown)
    && DistinctIds(s'.cvrs)
  }

  lemma PoolManagerUpkeep(s: State, a: Action)
    requires Replicas(s) && Allowed(s, a) && (a.SetId? || a.Collect?)
    requires "" !in s.cv.statusKnown
    ensures CvrUpkeep(s, Step(s, a))
  {
    hide AllowedEdit, AllowedRegistration, Register, AssignId, Finalize;
    if a.SetId? { AssignUpkeep(s, a.p, a.newId); } else { FinalizeUpkeep(s, a.p); }
  }

  lemma AssignUpkeep(s: State, p: Pool, id: Id)
    requires DistinctIds(s.cvrs) && FreshId(s, id) && "" !in s.cv.statusKnown
    ensures CvrUpkeep(s, AssignId(s, p, id))
  {
  }

  lemma FinalizeUpkeep(s: State, p: Pool)
    requires DistinctIds(s.cvrs) && "" !in s.cv.statusKnown
    ensures CvrUpkeep(s, Finalize(s, p))
  {
  }

  lemma UpkeepKeepsReplicas(s: State, s': State)
    requires Replicas(s) && Owned(s) && Passes(s) && CvrUpkeep(s, s')
    ensures Replicas(s') && Owned(s') && Passes(s')
  {
    hide DistinctIds;
    forall id | id in s.cv.specKnown
      ensures id != "" && exists q :: Live(s', q) && s'.cvrs[q].id == id
    {
      var q :| Live(s, q) && s.cvrs[q].id == id;
      assert Live(s', q) && s'.cvrs[q].id == id;
    }
  }

  lemma RemovalTransfer(s: State, s': State, p: Pool)
    requires Removal(s, p) && s'.cv == s.cv && s'.cvc == s.cvc && s'.op == s.op
    requires Live(s', p) <==> Live(s, p)
    requires p in s'.cvrs ==> p in s.cvrs
    requires p in s'.cvrs && s.cvrs[p].id != "" ==> s'.cvrs[p].id == s.cvrs[p].id
    requires p in s'.cvrs && s.cvrs[p].id == "" ==> s'.cvrs[p].id !in s.cv.specKnown
    requires "" !in s.cv.specKnown
    ensures Removal(s', p)
  {
  }

  lemma UpkeepKeepsFactors(s: State, s': State)
    requires Owned(s) && Factors(s) && SubMap(s.cv.specKnown, s.cv.statusKnown)
    requires CvrUpkeep(s, s')
    ensures Factors(s')
  {
    hide DistinctIds;
    if Shrinking(s.cvc) && RemovedPools(s.cvc) != [] {
      RemovalTransfer(s, s', RemovedPools(s.cvc)[0]);
    }
  }

  /** No replica is known under the empty id. */
  lemma NoEmptyId(s: State)
    requires Tracked(s)
    ensures "" !in s.cv.statusKnown
  {
    hide Replicas, Passes;
    InvLists(s);
    ListShape(s.cvc);
    if Shrinking(s.cvc) { ShrinkingPhase(s); } else { NotShrinking(s); }
  }

  lemma PoolManagerKeepsTracked(s: State, a: Action)
    requires Tracked(s) && Allowed(s, a) && (a.SetId? || a.Collect?)
    ensures Tracked(Step(s, a))
  {
    hide Inv, Replicas, Owned, Passes, Factors;
    StepKeepsInv(s, a);
    InvLists(s);
    NoEmptyId(s);
    PoolManagerUpkeep(s, a);
    UpkeepKeepsReplicas(s, Step(s, a));
    UpkeepKeepsFactors(s, Step(s, a));
  }

  lemma StepKeepsTracked(s: State, a: Action)
    requires Tracked(s) && Allowed(s, a)
    ensures Tracked(Step(s, a))
  {
    var s' := Step(s, a);
    match a
    case Edit(pools) => EditKeepsTracked(s, pools);
    case OperatorStart => OpStartKeepsTracked(s);
    case OperatorSize =>
      if s.op.UpStarted? { RaiseKeepsTracked(s); }
      else if s.op.DownStarted? { LowerKeepsTracked(s); }
    case OperatorCreate(id, ok) => OpCreateKeepsTracked(s, id, ok);
    case OperatorDelete => if s.op.DownSettled? { OpDeleteKeepsTracked(s); }
    case OperatorFinish => OpFinishKeepsTracked(s);
    case ManagerStart(_) => ManagerKeepsTracked(s, a);
    case ManagerCommand(_) => ManagerKeepsTracked(s, a);
    case ManagerFinish => ManagerKeepsTracked(s, a);
    case ManagerStop => ManagerKeepsTracked(s, a);
    case Connect(r) => if RegistrationAccepted(s.cv, r) { RegisterKeepsTracked(s, r); }
    case SetId(_, _) => PoolManagerKeepsTracked(s, a);
    case Collect(_) => PoolManagerKeepsTracked(s, a);
    case OperatorStop => OpStopKeepsTracked(s);
    case TouchCvc => TouchKeepsTracked(s, a);
    case TouchCv => TouchKeepsTracked(s, a);
  }

  lemma OpStopKeepsTracked(s: State)
    requires Tracked(s)
    ensures Tracked(s.(op := OpIdle))
  {
    hide Inv, Replicas, Owned, Factors;
    var s' := s.(op := OpIdle);
    StepKeepsInv(s, OperatorStop);
    SameReplicas(s, s');
    SameOwned(s, s');
    SameFactors(s, s');
  }

  lemma TouchKeepsTracked(s: State, a: Action)
    requires Tracked(s) && (a.TouchCvc? || a.TouchCv?)
    ensures Tracked(Step(s, a))
  {
    hide Inv, Replicas, Owned, Factors;
    StepKeepsInv(s, a);
    SameReplicas(s, Step(s, a));
    SameOwned(s, Step(s, a));
    SameFactors(s, Step(s, a));
  }
}
