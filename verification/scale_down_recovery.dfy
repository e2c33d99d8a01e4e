/** Crash recovery of a scale-down: from whatever the interrupted controllers
  left in the store, their next passes reach one and the same final state. */
module ScaleDownRecovery {
  import opened Lists
  import opened CvcAdmission
  import opened VolumeScaling
  import opened ScaleDown
  import opened ScaleDownTheorems

  /** What a pending scale-down is heading for. */
  datatype Outcome = Outcome(pools: set<Pool>, known: set<Id>, replicas: set<Pool>)

  ghost function LivePools(s: State): set<Pool> {
    set q | q in s.cvrs && !s.cvrs[q].deleting
  }

  ghost function OutcomeOf(s: State): Outcome
    requires RemovedPools(s.cvc) != []
  {
    var p := RemovedPools(s.cvc)[0];
    Outcome(
      Elems(s.cvc.desired),
      s.cv.specKnown.Keys - {ReplicaIdOn(s.cvrs, p)},
      LivePools(s) - {p})
  }

  /** The scale-down is over, with the given outcome. */
  ghost predicate Completed(s: State, o: Outcome) {
    && Elems(s.cvc.current) == Elems(s.cvc.desired) == o.pools
    && s.cv.drf == s.cv.rf == |o.pools| && s.cv.cf == s.cv.rf / 2 + 1
    && s.cv.specKnown.Keys == s.cv.statusKnown.Keys == o.known
    && LivePools(s) == o.replicas
    && s.op == OpIdle && s.mgr == MgrIdle
  }

  const OPERATOR_PASS: seq<Action> := [OperatorStart, OperatorSize, OperatorDelete, OperatorFinish]
  const MANAGER_PASS: seq<Action> := [ManagerStart(true), ManagerCommand(true), ManagerFinish]

  /** Both controllers restart and each gets to run again. */
  const RESTART: seq<Action> := [OperatorStop, ManagerStop] + OPERATOR_PASS + MANAGER_PASS + OPERATOR_PASS

  function OpPass(s: State): State { OpFinish(OpDelete(OpSize(OpStart(s)))) }
  function MgrPass(s: State): State { MgrFinish(MgrCommand(MgrStart(s, true), true)) }

  lemma RunOne(s: State, a: Action, acts: seq<Action>)
    ensures Run(s, [a] + acts) == Run(Step(s, a), acts)
  {
    assert ([a] + acts)[1..] == acts;
  }

  lemma RestartIsPasses(s: State)
    ensures Run(s, RESTART) == OpPass(MgrPass(OpPass(s.(op := OpIdle, mgr := MgrIdle))))
  {
    hide Run, OpPass, MgrPass, Step;
    BothStop(s);
    OperatorPassRun(s.(op := OpIdle, mgr := MgrIdle));
    ManagerPassRun(OpPass(s.(op := OpIdle, mgr := MgrIdle)));
    OperatorPassRun(MgrPass(OpPass(s.(op := OpIdle, mgr := MgrIdle))));
    var tail := OPERATOR_PASS + MANAGER_PASS + OPERATOR_PASS;
    assert RESTART == [OperatorStop] + ([ManagerStop] + tail);
    RunOne(s, OperatorStop, [ManagerStop] + tail);
    RunOne(Step(s, OperatorStop), ManagerStop, tail);
    assert tail == OPERATOR_PASS + (MANAGER_PASS + OPERATOR_PASS);
    RunAppend(s.(op := OpIdle, mgr := MgrIdle), OPERATOR_PASS, MANAGER_PASS + OPERATOR_PASS);
    RunAppend(OpPass(s.(op := OpIdle, mgr := MgrIdle)), MANAGER_PASS, OPERATOR_PASS);
  }

  lemma BothStop(s: State)
    ensures Step(Step(s, OperatorStop), ManagerStop) == s.(op := OpIdle, mgr := MgrIdle)
  {
  }

  lemma OperatorPassRun(s: State)
    ensures Run(s, OPERATOR_PASS) == OpPass(s)
  {
    hide OpStart, OpSize, OpDelete, OpFinish;
    assert OPERATOR_PASS == [OperatorStart] + ([OperatorSize] + ([OperatorDelete] + ([OperatorFinish] + [])));
    RunOne(s, OperatorStart, [OperatorSize] + ([OperatorDelete] + ([OperatorFinish] + [])));
    RunOne(OpStart(s), OperatorSize, [OperatorDelete] + ([OperatorFinish] + []));
    RunOne(OpSize(OpStart(s)), OperatorDelete, [OperatorFinish] + []);
    RunOne(OpDelete(OpSize(OpStart(s))), OperatorFinish, []);
  }

  lemma ManagerPassRun(s: State)
    ensures Run(s, MANAGER_PASS) == MgrPass(s)
  {
    hide MgrStart, MgrCommand, MgrFinish;
    assert MANAGER_PASS == [ManagerStart(true)] + ([ManagerCommand(true)] + ([ManagerFinish] + []));
    RunOne(s, ManagerStart(true), [ManagerCommand(true)] + ([ManagerFinish] + []));
    RunOne(MgrStart(s, true), ManagerCommand(true), [ManagerFinish] + []);
    RunOne(MgrCommand(MgrStart(s, true), true), ManagerFinish, []);
  }

  // ---------- the outcome never changes while the scale-down is pending ----------

  lemma LivePoolsStable(s: State, a: Action)
    requires Tracked(s) && Shrinking(s.cvc) && RemovedPools(s.cvc) != []
    ensures LivePools(Step(s, a)) - {RemovedPools(s.cvc)[0]}
         == LivePools(s) - {RemovedPools(s.cvc)[0]}
  {
    hide Replicas, Owned, Factors, PoolLists, SubMap, ManagerOk;
    InvLists(s);
    if a.OperatorDelete? && s.op.DownSettled? {
      SameRemoved(s.cvc, s.op.snap);
    }
  }

  lemma PoolsStable(s: State, a: Action)
    requires Inv(s) && Shrinking(s.cvc) && Shrinking(Step(s, a).cvc)
    ensures Elems(Step(s, a).cvc.current) == Elems(s.cvc.current)
  {
    hide Inv, Unique, Admitted, ListDiff, OpFinish;
    InvLists(s);
    if a.OperatorFinish? {
      FinishEndsShrinking(s);
    } else if !a.Edit? {
      CvcWriters(s, a);
    }
  }

  /** The end of an operator pass leaves the pool lists alone or ends the scale-down. */
  lemma FinishEndsShrinking(s: State)
    requires Inv(s)
    ensures OpFinish(s).cvc == s.cvc || !Shrinking(OpFinish(s).cvc)
  {
    hide PoolLists, SubMap, ManagerOk, ListDiff;
    InvLists(s);
    if s.op.UpReady? || s.op.DownCleaned? {
      CompletedLists(s.op.snap);
    }
  }

  lemma CvcWriters(s: State, a: Action)
    requires !a.Edit? && !a.OperatorFinish?
    ensures Step(s, a).cvc.desired == s.cvc.desired && Step(s, a).cvc.current == s.cvc.current
  {
  }

  /** Before the factor is lowered the known set is full as well. */
  lemma KnownBeforeLowering(s: State, a: Action)
    requires Tracked(s) && Shrinking(s.cvc) && !Lowered(s)
    requires !(a.OperatorSize? && AboutToLower(s))
    ensures Step(s, a).cv.specKnown.Keys == s.cv.specKnown.Keys
  {
    hide Replicas, Owned, Passes, PoolLists, Factors;
    InvLists(s);
    ListShape(s.cvc);
    ShrinkingPhase(s);
    if a.Connect? {
      var s' := Register(s, a.r);
      assert s'.cv != s.cv ==> s'.cv.specKnown.Keys == s.cv.specKnown.Keys + {a.r.id};
    } else if a.ManagerFinish? {
      assert MgrFinish(s).cv.specKnown == s.cv.specKnown;
    } else {
      KnownWriters(s, a);
    }
  }

  /** The id of a live removed pool does not change, and is not empty. */
  lemma RemovedIdStable(s: State, a: Action, p: Pool)
    requires Live(s, p) && s.cvrs[p].id != ""
    ensures p in Step(s, a).cvrs && Step(s, a).cvrs[p].id == s.cvrs[p].id
  {
  }

  /** What is known of the removed pool's id in either half of a removal. */
  lemma RemovedId(s: State)
    requires Tracked(s) && Shrinking(s.cvc) && RemovedPools(s.cvc) != []
    ensures var p := RemovedPools(s.cvc)[0];
      && (Lowered(s) ==> ReplicaIdOn(s.cvrs, p) !in s.cv.specKnown)
      && (!Lowered(s) ==> Live(s, p) && s.cvrs[p].id != "")
  {
    hide Inv, Replicas, Owned, Passes, Factors;
    NoEmptyId(s);
    ShrinkingPhase(s);
    InvLists(s);
  }

  lemma KnownOutcomeStable(s: State, a: Action)
    requires Tracked(s) && Shrinking(s.cvc) && Allowed(s, a)
    requires Shrinking(Step(s, a).cvc) && RemovedPools(s.cvc) != []
    requires RemovedPools(Step(s, a).cvc) == RemovedPools(s.cvc)
    ensures OutcomeOf(Step(s, a)).known == OutcomeOf(s).known
  {
    hide Tracked, Step, Allowed, LivePools;
    var s', p := Step(s, a), RemovedPools(s.cvc)[0];
    StepKeepsTracked(s, a);
    RemovedId(s);
    RemovedId(s');
    if Lowered(s) {
      KnownSetFrozen(s, a);
    } else if a.OperatorSize? && AboutToLower(s) {
      LoweredKnown(s, p);
      RemovedIdStable(s, a, p);
    } else {
      KnownBeforeLowering(s, a);
      RemovedIdStable(s, a, p);
    }
  }

  lemma LoweredKnown(s: State, p: Pool)
    requires Tracked(s) && Shrinking(s.cvc) && !Lowered(s) && AboutToLower(s)
    requires RemovedPools(s.cvc) != [] && RemovedPools(s.cvc)[0] == p
    ensures Step(s, OperatorSize).cv.specKnown.Keys == s.cv.specKnown.Keys - {ReplicaIdOn(s.cvrs, p)}
    ensures OpSize(s) == s.(cv := OpSize(s).cv, op := OpIdle) && OpSize(s).cv.drf == |s.cvc.desired|
  {
    hide Inv, Replicas, Owned, Factors, OpSize, Removal;
    InvLists(s);
    SameRemoved(s.cvc, s.op.snap);
    LowerStartsRemoval(s, p);
  }

  /** Unless another pool is named for removal, no step changes the outcome. */
  lemma OutcomeStable(s: State, a: Action)
    requires Tracked(s) && Shrinking(s.cvc) && Allowed(s, a) && Shrinking(Step(s, a).cvc)
    requires Elems(Step(s, a).cvc.desired) == Elems(s.cvc.desired)
    ensures RemovedPools(s.cvc) != [] && RemovedPools(Step(s, a).cvc) != []
    ensures OutcomeOf(Step(s, a)) == OutcomeOf(s)
  {
    hide Inv, Replicas, Owned, Passes, Factors, Step;
    StepKeepsTracked(s, a);
    InvLists(s);
    InvLists(Step(s, a));
    PoolsStable(s, a);
    SameRemoved(s.cvc, Step(s, a).cvc);
    LivePoolsStable(s, a);
    KnownOutcomeStable(s, a);
  }

  // ---------- the passes ----------

  lemma OpPassLowers(s: State)
    requires Tracked(s) && Shrinking(s.cvc) && !Lowered(s) && s.op == OpIdle
    ensures OpPass(s) == Step(Step(s, OperatorStart), OperatorSize)
    ensures OpPass(s).op == OpIdle && OpPass(s).mgr == s.mgr && OpPass(s).cvc == s.cvc
    ensures OpPass(s).cvrs == s.cvrs && OpPass(s).client == s.client
    ensures Lowered(OpPass(s))
  {
    hide Inv, Replicas, Owned, Passes, Factors;
    InvLists(s);
    ListShape(s.cvc);
    StepKeepsTracked(s, OperatorStart);
    var s1 := OpStart(s);
    assert s1.op == DownStarted(s.cvc);
    LoweredKnown(s1, RemovedPools(s.cvc)[0]);
  }

  lemma OpPassWaits(s: State)
    requires Tracked(s) && Shrinking(s.cvc) && Lowered(s) && s.op == OpIdle
    requires IsScaleDownInProgress(s.cv)
    ensures OpPass(s) == s
  {
    hide Inv, Replicas, Owned, Passes, Factors;
    InvLists(s);
    ListShape(s.cvc);
    assert OpStart(s).op == DownStarted(s.cvc);
    assert OpSize(OpStart(s)) == s;
  }

  lemma MgrPassSettles(s: State)
    requires Tracked(s) && Shrinking(s.cvc) && Lowered(s) && s.mgr == MgrIdle
    requires IsScaleDownInProgress(s.cv)
    ensures MgrPass(s) == Step(Step(Step(s, ManagerStart(true)), ManagerCommand(true)), ManagerFinish)
    ensures MgrPass(s).mgr == MgrIdle && MgrPass(s).op == s.op && MgrPass(s).cvc == s.cvc
    ensures MgrPass(s).cvrs == s.cvrs && MgrPass(s).client == s.client
    ensures MgrPass(s).cv.specKnown.Keys == MgrPass(s).cv.statusKnown.Keys
    ensures Lowered(MgrPass(s))
  {
    hide Inv, Replicas, Owned, Passes, Factors;
    InvLists(s);
    SubMapCard(s.cv);
    assert s.cv.specKnown.Keys <= s.cv.statusKnown.Keys;
  }

  /** The operator can get past the deletion: the removed CVR is there, or a
      missing one makes it skip the deletion. */
  ghost predicate CanDelete(s: State)
    requires RemovedPools(s.cvc) != []
  {
    s.client.NilObject? || RemovedPools(s.cvc)[0] in s.cvrs
  }

  lemma OpPassCompletes(s: State)
    requires Tracked(s) && Shrinking(s.cvc) && s.op == OpIdle && s.mgr == MgrIdle
    requires Lowered(s) && s.cv.specKnown.Keys == s.cv.statusKnown.Keys
    requires RemovedPools(s.cvc) != [] && CanDelete(s)
    ensures Completed(OpPass(s), OutcomeOf(s))
  {
    hide Inv, Replicas, Owned, Passes, Factors, OpDelete, OpSize, OpStart, Unique, ListDiff;
    InvLists(s);
    ListShape(s.cvc);
    ElemsCard(s.cvc.desired);
    ShrinkingPhase(s);
    NoEmptyId(s);
    SubMapCard(s.cv);
    OpPassDeletes(s);
    var s3 := OpDelete(OpSize(OpStart(s)));
    var t := OpFinish(s3);
    assert t.cvc.current == s.cvc.desired;
    assert LivePools(t) == LivePools(s3);
  }

  /** The operator pass up to the deletion of the removed CVR. */
  lemma OpPassDeletes(s: State)
    requires Tracked(s) && Shrinking(s.cvc) && s.op == OpIdle && s.mgr == MgrIdle
    requires Lowered(s) && s.cv.specKnown.Keys == s.cv.statusKnown.Keys
    requires RemovedPools(s.cvc) != [] && CanDelete(s)
    ensures var t := OpDelete(OpSize(OpStart(s)));
      && t.op == DownCleaned(s.cvc) && t.cv == s.cv && t.cvc == s.cvc && t.mgr == MgrIdle
      && LivePools(t) == LivePools(s) - {RemovedPools(s.cvc)[0]}
  {
    hide Inv, Replicas, Owned, Passes, Factors, ListDiff, Unique;
    InvLists(s);
    ListShape(s.cvc);
    SubMapCard(s.cv);
    ShrinkingPhase(s);
    var p := RemovedPools(s.cvc)[0];
    var s2 := OpSize(OpStart(s));
    assert s2 == s.(op := DownSettled(s.cvc, p in s.cvrs));
    var s3 := OpDelete(s2);
    assert LivePools(s3) == LivePools(s) - {p};
  }

  lemma CompletedIsFinal(s: State, o: Outcome)
    requires Completed(s, o)
    ensures Completed(OpPass(s), o) && Completed(MgrPass(s), o)
  {
    assert OpPass(s) == s;
    assert |s.cv.specKnown| == |s.cv.specKnown.Keys| && |s.cv.statusKnown| == |s.cv.statusKnown.Keys|;
    var t := MgrPass(s);
    assert t == s.(target := t.target);
    assert LivePools(t) == LivePools(s);
  }

  lemma RestartCompletes(s: State)
    requires Tracked(s) && Shrinking(s.cvc) && RemovedPools(s.cvc) != [] && CanDelete(s)
    ensures Completed(Run(s, RESTART), OutcomeOf(s))
  {
    hide Inv, Replicas, Owned, Passes, Factors, OpPass, MgrPass, Run;
    RestartIsPasses(s);
    InvLists(s);
    ListShape(s.cvc);
    var o := OutcomeOf(s);
    var t := s.(op := OpIdle, mgr := MgrIdle);
    StepKeepsTracked(s, OperatorStop);
    StepKeepsTracked(Step(s, OperatorStop), ManagerStop);
    assert t == Step(Step(s, OperatorStop), ManagerStop);
    assert OutcomeOf(t) == o by { assert LivePools(t) == LivePools(s); }
    RestartFromIdle(t);
  }

  lemma RestartFromIdle(t: State)
    requires Tracked(t) && Shrinking(t.cvc) && t.op == OpIdle && t.mgr == MgrIdle
    requires RemovedPools(t.cvc) != [] && CanDelete(t)
    ensures Completed(OpPass(MgrPass(OpPass(t))), OutcomeOf(t))
  {
    hide Inv, Replicas, Owned, Passes, Factors, OpPass, MgrPass, Completed;
    InvLists(t);
    if Lowered(t) && t.cv.specKnown.Keys == t.cv.statusKnown.Keys {
      OpPassCompletes(t);
      CompletedIsFinal(OpPass(t), OutcomeOf(t));
      CompletedIsFinal(MgrPass(OpPass(t)), OutcomeOf(t));
    } else {
      if Lowered(t) {
        SubMapCard(t.cv);
        OpPassWaits(t);
      } else {
        OpPassLowers(t);
        StepsKeepOutcome(t, OperatorStart, OperatorSize);
      }
      FinishFromLowered(OpPass(t));
    }
  }

  lemma StepsKeepOutcome(s: State, a: Action, b: Action)
    requires Tracked(s) && Shrinking(s.cvc) && a == OperatorStart && b == OperatorSize
    ensures Tracked(Step(Step(s, a), b)) && Step(Step(s, a), b).cvc == s.cvc
    ensures RemovedPools(s.cvc) != [] && OutcomeOf(Step(Step(s, a), b)) == OutcomeOf(s)
  {
    hide Inv, Replicas, Owned, Passes, Factors;
    StepKeepsTracked(s, a);
    StepKeepsTracked(Step(s, a), b);
    OutcomeStable(s, a);
    OutcomeStable(Step(s, a), b);
  }

  lemma FinishFromLowered(s: State)
    requires Tracked(s) && Shrinking(s.cvc) && Lowered(s) && s.op == OpIdle && s.mgr == MgrIdle
    requires RemovedPools(s.cvc) != [] && CanDelete(s)
    ensures Completed(OpPass(MgrPass(s)), OutcomeOf(s))
  {
    hide Inv, Replicas, Owned, Passes, Factors, OpPass, MgrPass, Completed;
    InvLists(s);
    SubMapCard(s.cv);
    if IsScaleDownInProgress(s.cv) {
      MgrPassSettles(s);
      var s1 := Step(s, ManagerStart(true));
      var s2 := Step(s1, ManagerCommand(true));
      StepKeepsTracked(s, ManagerStart(true));
      StepKeepsTracked(s1, ManagerCommand(true));
      StepKeepsTracked(s2, ManagerFinish);
      OutcomeStable(s, ManagerStart(true));
      OutcomeStable(s1, ManagerCommand(true));
      OutcomeStable(s2, ManagerFinish);
    } else {
      MgrPassIdles(s);
    }
    OpPassCompletes(MgrPass(s));
  }

  lemma MgrPassIdles(s: State)
    requires Tracked(s) && !IsScaleDownInProgress(s.cv) && s.mgr == MgrIdle
    requires Shrinking(s.cvc) && RemovedPools(s.cvc) != []
    ensures Tracked(MgrPass(s)) && OutcomeOf(MgrPass(s).(cvc := s.cvc)) == OutcomeOf(s)
    ensures MgrPass(s) == s.(target := MgrPass(s).target)
  {
    hide Inv, Replicas, Owned, Passes, Factors;
    InvLists(s);
    SubMapCard(s.cv);
    StepKeepsTracked(s, ManagerStart(true));
    StepKeepsTracked(Step(s, ManagerStart(true)), ManagerCommand(true));
    assert MgrPass(s) == s.(target := MgrPass(s).target);
    assert LivePools(MgrPass(s)) == LivePools(s);
  }

  // ---------- interrupted and restarted ----------

  /** The scale-down asked for in `s` stays pending: every later state still
      wants the same pools and has not recorded them. */
  ghost predicate StaysPending(s: State, acts: seq<Action>)
    decreases |acts|
  {
    Shrinking(s.cvc) &&
    (acts != [] ==>
       && Elems(Step(s, acts[0]).cvc.desired) == Elems(s.cvc.desired)
       && StaysPending(Step(s, acts[0]), acts[1..]))
  }

  /** No way on: the removed CVR is gone, the status still lists its pool, and a
      missing CVR makes the deletion fail. */
  ghost predicate Stuck(s: State) {
    && Tracked(s) && Shrinking(s.cvc) && Lowered(s) && s.client.EmptyObject?
    && (forall p :: p in RemovedPools(s.cvc) ==> p !in s.cvrs)
    && !s.op.DownCleaned?
  }

  lemma StuckStep(s: State, a: Action)
    requires Stuck(s) && Allowed(s, a)
    ensures Stuck(Step(s, a)) && Shrinking(Step(s, a).cvc)
  {
    hide Replicas, Owned, Passes, Factors, Inv, Admitted, ListDiff, Unique;
    StepKeepsTracked(s, a);
    InvLists(s);
    InvLists(Step(s, a));
    if a.Edit? {
      StuckEdit(s, a.pools);
    } else if a.OperatorFinish? {
      assert Step(s, a).cvc == s.cvc;
    } else {
      CvcWriters(s, a);
      FactorStaysLowered(s, a);
      assert RemovedPools(Step(s, a).cvc) == RemovedPools(s.cvc);
      ListShape(s.cvc);
      StuckReplicas(s, a);
    }
  }

  lemma StuckEdit(s: State, pools: seq<Pool>)
    requires Stuck(s) && AllowedEdit(s, pools)
    ensures Shrinking(EditDesired(s, pools).cvc) && Lowered(EditDesired(s, pools))
    ensures forall p :: p in RemovedPools(EditDesired(s, pools).cvc) ==> p !in s.cvrs
  {
    hide Replicas, Owned, Passes, Factors, Inv, Admitted, ListDiff, Unique;
    var s' := EditDesired(s, pools);
    InvLists(s);
    EditKeepsInv(s, pools);
    InvLists(s');
    if s' != s {
      SameCount(s, pools);
      SameRemoved(s.cvc, s'.cvc);
    }
  }

  lemma StuckReplicas(s: State, a: Action)
    requires Stuck(s) && Allowed(s, a) && !a.Edit? && !a.OperatorFinish?
    requires RemovedPools(s.cvc) != [] && RemovedPools(s.cvc) == [RemovedPools(s.cvc)[0]]
    ensures RemovedPools(s.cvc)[0] !in Step(s, a).cvrs && !Step(s, a).op.DownCleaned?
  {
    hide Replicas, Owned, Passes, Factors, ListDiff, Unique, PoolLists, SubMap, ManagerOk;
    InvLists(s);
    if a.OperatorDelete? && s.op.DownSettled? {
      assert s.op.snap.current == s.cvc.current;
      SnapRemoved(s);
    }
  }

  lemma SnapRemoved(s: State)
    requires Tracked(s) && s.op.DownSettled?
    ensures RemovedPools(s.op.snap) == RemovedPools(s.cvc)
  {
    hide Replicas, Owned, Factors;
    InvLists(s);
    SameRemoved(s.cvc, s.op.snap);
  }

  /** ...and there is none in any run. */
  lemma {:induction false} StuckForever(s: State, acts: seq<Action>)
    requires Stuck(s) && AllowedRun(s, acts)
    ensures Stuck(Run(s, acts)) && Shrinking(Run(s, acts).cvc)
    decreases |acts|
  {
    hide Stuck, Step, Allowed;
    if acts != [] {
      StuckStep(s, acts[0]);
      StuckForever(Step(s, acts[0]), acts[1..]);
    } else {
      assert Shrinking(s.cvc) by { StuckShrinks(s); }
    }
  }

  lemma StuckShrinks(s: State)
    requires Stuck(s)
    ensures Shrinking(s.cvc)
  {
  }

  lemma PassesAllowed(s: State)
    ensures AllowedRun(s, [ManagerStop] + (OPERATOR_PASS + MANAGER_PASS + OPERATOR_PASS))
  {
    hide Step;
    Harmless(s, [ManagerStop] + (OPERATOR_PASS + MANAGER_PASS + OPERATOR_PASS));
  }

  /** Steps on which `Allowed` puts no condition. */
  predicate IsHarmless(a: Action) {
    !a.Edit? && !a.Connect? && !a.OperatorCreate? && !a.SetId?
  }

  lemma {:induction false} Harmless(s: State, acts: seq<Action>)
    requires forall i :: 0 <= i < |acts| ==> IsHarmless(acts[i])
    ensures AllowedRun(s, acts)
    decreases |acts|
  {
    hide Step;
    if acts != [] {
      Harmless(Step(s, acts[0]), acts[1..]);
    }
  }

  /** Restarting both controllers completes a pending scale-down if and only if
      the operator can get past the deletion. */
  lemma RestartCompletesIff(s: State)
    requires Tracked(s) && Shrinking(s.cvc)
    ensures RemovedPools(s.cvc) != []
    ensures Completed(Run(s, RESTART), OutcomeOf(s)) <==> CanDelete(s)
  {
    hide Inv, Replicas, Owned, Passes, Factors, Run;
    InvLists(s);
    ListShape(s.cvc);
    if CanDelete(s) {
      RestartCompletes(s);
    } else {
      var t := Step(s, OperatorStop);
      StepKeepsTracked(s, OperatorStop);
      ShrinkingPhase(s);
      assert Stuck(t);
      var rest := [ManagerStop] + (OPERATOR_PASS + MANAGER_PASS + OPERATOR_PASS);
      assert RESTART == [OperatorStop] + rest;
      RunOne(s, OperatorStop, rest);
      PassesAllowed(t);
      StuckForever(t, rest);
      StuckLists(Run(t, rest));
    }
  }

  lemma StuckLists(s: State)
    requires Stuck(s)
    ensures Elems(s.cvc.current) != Elems(s.cvc.desired)
  {
    hide Replicas, Owned, Passes, Factors, Inv;
    InvLists(s);
    ListShape(s.cvc);
  }

  /** Crash recovery: whatever the actors did since the scale-down was asked
      for, as long as it is pending, restarting both controllers completes it
      with the result determined by the state in which it was asked for, if and
      only if the removed CVR is still there or a missing one is skipped. */
  lemma {:induction false} InterruptedScaleDownRecovers(s: State, acts: seq<Action>)
    requires Tracked(s) && AllowedRun(s, acts) && StaysPending(s, acts)
    ensures RemovedPools(s.cvc) != [] && RemovedPools(Run(s, acts).cvc) == RemovedPools(s.cvc)
    ensures Completed(Run(Run(s, acts), RESTART), OutcomeOf(s)) <==> CanDelete(Run(s, acts))
    decreases |acts|
  {
    hide Inv, Replicas, Owned, Passes, Factors, Completed, CanDelete;
    if acts == [] {
      RestartCompletesIff(s);
    } else {
      StepKeepsTracked(s, acts[0]);
      PendingStep(s, acts);
      OutcomeStable(s, acts[0]);
      SameRemovedStep(s, acts[0]);
      InterruptedScaleDownRecovers(Step(s, acts[0]), acts[1..]);
    }
  }

  lemma PendingStep(s: State, acts: seq<Action>)
    requires StaysPending(s, acts) && acts != []
    ensures Shrinking(s.cvc) && Shrinking(Step(s, acts[0]).cvc) && StaysPending(Step(s, acts[0]), acts[1..])
    ensures Elems(Step(s, acts[0]).cvc.desired) == Elems(s.cvc.desired)
  {
    hide Step;
    assert StaysPending(Step(s, acts[0]), acts[1..]);
  }

  lemma SameRemovedStep(s: State, a: Action)
    requires Tracked(s) && Shrinking(s.cvc) && Tracked(Step(s, a)) && Shrinking(Step(s, a).cvc)
    requires Elems(Step(s, a).cvc.desired) == Elems(s.cvc.desired)
    ensures RemovedPools(s.cvc) != [] && RemovedPools(Step(s, a).cvc) == RemovedPools(s.cvc)
  {
    hide Replicas, Owned, Passes, Factors, Inv, Step;
    InvLists(s);
    InvLists(Step(s, a));
    PoolsStable(s, a);
    SameRemoved(s.cvc, Step(s, a).cvc);
  }
}
