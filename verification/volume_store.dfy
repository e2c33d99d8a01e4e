/** The controllers' own code over the stored objects: a pass of the
  cvc-operator, a pass of the volume manager, and the registration handler,
  each shown to be a run of the steps of `VolumeScaling`. */
module VolumeStore {
  import opened Lists
  import opened CvcAdmission
  import opened VolumeScaling
  import opened ScaleDown
  import opened ScaleDownRecovery

  /** The CVRs after the creation loop of a scale-up: an existing CVR is kept
      and a failing pool is skipped. */
  function CreateReplicas(cvrs: map<Pool, Cvr>, pools: seq<Pool>, ids: map<Pool, Id>, failing: set<Pool>)
    : map<Pool, Cvr>
    requires forall p :: p in pools ==> p in ids
    decreases |pools|
  {
    if pools == [] then cvrs
    else
      var p := pools[0];
      var next := if p in failing || p in cvrs then cvrs else cvrs[p := Cvr(ids[p], false)];
      CreateReplicas(next, pools[1..], ids, failing)
  }

  lemma {:induction false} CreatedReplicas(
    cvrs: map<Pool, Cvr>, pools: seq<Pool>, ids: map<Pool, Id>, failing: set<Pool>)
    requires forall p :: p in pools ==> p in ids
    ensures var r := CreateReplicas(cvrs, pools, ids, failing);
      && r.Keys == cvrs.Keys + (Elems(pools) - failing)
      && (forall p :: p in cvrs ==> r[p] == cvrs[p])
      && (forall p :: p in r && p !in cvrs ==> p in ids && r[p] == Cvr(ids[p], false))
    decreases |pools|
  {
    if pools != [] {
      var p := pools[0];
      var next := if p in failing || p in cvrs then cvrs else cvrs[p := Cvr(ids[p], false)];
      CreatedReplicas(next, pools[1..], ids, failing);
      assert Elems(pools) == {p} + Elems(pools[1..]);
    }
  }

  function CreateActions(pools: seq<Pool>, ids: map<Pool, Id>, failing: set<Pool>): seq<Action>
    requires forall p :: p in pools ==> p in ids
  {
    if pools == [] then []
    else [OperatorCreate(ids[pools[0]], pools[0] !in failing)] + CreateActions(pools[1..], ids, failing)
  }

  lemma {:induction false} CreationRun(
    s: State, snap: Cvc, failed: bool, pools: seq<Pool>, ids: map<Pool, Id>, failing: set<Pool>)
    requires forall p :: p in pools ==> p in ids
    requires s.op == UpSized(snap, pools, failed)
    ensures Run(s, CreateActions(pools, ids, failing)) ==
      s.(cvrs := CreateReplicas(s.cvrs, pools, ids, failing),
         op := UpSized(snap, [], failed || exists p :: p in pools && p in failing))
    decreases |pools|
  {
    hide EditDesired, OpStart, OpSize, OpDelete, OpFinish, MgrStart, MgrCommand, MgrFinish,
         Register, AssignId, Finalize;
    if pools != [] {
      var p := pools[0];
      var a := OperatorCreate(ids[p], p !in failing);
      RunOne(s, a, CreateActions(pools[1..], ids, failing));
      CreationRun(Step(s, a), snap, failed || p in failing, pools[1..], ids, failing);
      assert forall q :: q in pools <==> q == p || q in pools[1..];
    }
  }

  function ScaleUpActions(c: Cvc, ids: map<Pool, Id>, failing: set<Pool>): seq<Action>
    requires forall p :: p in NewPools(c) ==> p in ids
  {
    [OperatorStart] + ([OperatorSize] + (CreateActions(NewPools(c), ids, failing)
      + [OperatorCreate("", true), OperatorFinish]))
  }

  lemma ScaleUpOpens(s: State)
    requires |s.cvc.desired| > |s.cvc.current| && IsChangeInLists(s.cvc.desired, s.cvc.current)
    requires s.op == OpIdle
    ensures OpSize(OpStart(s)) ==
      s.(cv := RaiseDrf(s.cv, |s.cvc.desired|), op := UpSized(s.cvc, NewPools(s.cvc), false))
  {
  }

  lemma ScaleUpCloses(s: State, failed: bool)
    requires s.op == UpSized(s.cvc, [], failed) && |s.cvc.desired| > |s.cvc.current|
    requires !failed ==> forall p :: p in NewPools(s.cvc) ==> p in s.cvrs
    ensures OpFinish(OpCreate(s, "", true)) ==
      if failed then s.(op := OpIdle)
      else s.(op := OpIdle,
              cvc := s.cvc.(current := s.cvc.current + NewPools(s.cvc), rv := s.cvc.rv + 1))
  {
  }

  lemma ScaleUpRun(s: State, ids: map<Pool, Id>, failing: set<Pool>)
    requires |s.cvc.desired| > |s.cvc.current| && IsChangeInLists(s.cvc.desired, s.cvc.current)
    requires s.op == OpIdle && forall p :: p in NewPools(s.cvc) ==> p in ids
    ensures var pools := NewPools(s.cvc);
      var cv := RaiseDrf(s.cv, |s.cvc.desired|);
      var cvrs := CreateReplicas(s.cvrs, pools, ids, failing);
      Run(s, ScaleUpActions(s.cvc, ids, failing)) ==
        if exists p :: p in pools && p in failing then s.(cv := cv, cvrs := cvrs)
        else s.(cv := cv, cvrs := cvrs,
                cvc := s.cvc.(current := s.cvc.current + pools, rv := s.cvc.rv + 1))
  {
    hide Run, OpStart, OpSize, OpCreate, OpFinish, CreateReplicas, CreateActions,
         EditDesired, OpDelete, MgrStart, MgrCommand, MgrFinish, Register, AssignId, Finalize;
    var pools := NewPools(s.cvc);
    var creates := CreateActions(pools, ids, failing);
    var last := [OperatorCreate("", true), OperatorFinish];
    RunOne(s, OperatorStart, [OperatorSize] + (creates + last));
    RunOne(OpStart(s), OperatorSize, creates + last);
    ScaleUpOpens(s);
    var s2 := OpSize(OpStart(s));
    CreationRun(s2, s.cvc, false, pools, ids, failing);
    CreatedReplicas(s.cvrs, pools, ids, failing);
    RunAppend(s2, creates, last);
    var s3 := Run(s2, creates);
    RunTwo(s3, OperatorCreate("", true), OperatorFinish);
    assert forall p :: p in pools && p !in failing ==> p in Elems(pools) - failing;
    ScaleUpCloses(s3, exists p :: p in pools && p in failing);
  }

  // ---------- a scale-up pass with fresh ids is an allowed run ----------

  lemma {:induction false} AllowedAppend(s: State, xs: seq<Action>, ys: seq<Action>)
    requires AllowedRun(s, xs) && AllowedRun(Run(s, xs), ys)
    ensures AllowedRun(s, xs + ys)
    decreases |xs|
  {
    hide Step, Allowed;
    if xs == [] {
      assert xs + ys == ys;
    } else {
      assert (xs + ys)[1..] == xs[1..] + ys;
      AllowedAppend(Step(s, xs[0]), xs[1..], ys);
    }
  }

  /** Ids for new replicas: not empty, not in use, different from each other. */
  ghost predicate FreshIds(s: State, pools: seq<Pool>, ids: map<Pool, Id>) {
    && (forall p :: p in pools ==> p in ids && FreshId(s, ids[p]))
    && (forall p, q :: p in pools && q in pools && p != q ==> ids[p] != ids[q])
  }

  lemma {:induction false} CreationAllowed(
    s: State, snap: Cvc, failed: bool, pools: seq<Pool>, ids: map<Pool, Id>, failing: set<Pool>)
    requires Unique(pools) && FreshIds(s, pools, ids) && s.op == UpSized(snap, pools, failed)
    ensures AllowedRun(s, CreateActions(pools, ids, failing))
    decreases |pools|
  {
    hide EditDesired, OpStart, OpSize, OpDelete, OpFinish, MgrStart, MgrCommand, MgrFinish,
         Register, AssignId, Finalize;
    if pools != [] {
      var p := pools[0];
      var a := OperatorCreate(ids[p], p !in failing);
      var rest := pools[1..];
      assert p !in rest;
      assert forall q :: q in rest ==> q in pools;
      var s' := Step(s, a);
      assert s'.op == UpSized(snap, rest, failed || p in failing) && s'.cv == s.cv;
      assert forall q :: q in s'.cvrs ==> (q in s.cvrs && s'.cvrs[q] == s.cvrs[q]) || (q == p && s'.cvrs[q].id == ids[p]);
      assert FreshIds(s', rest, ids);
      CreationAllowed(s', snap, failed || p in failing, rest, ids, failing);
      var all := CreateActions(pools, ids, failing);
      assert all[0] == a && all[1..] == CreateActions(rest, ids, failing);
    }
  }

  /** A whole scale-up pass with fresh ids is one of the runs the scale-down
      theorems speak about. */
  lemma ScaleUpAllowed(s: State, ids: map<Pool, Id>, failing: set<Pool>)
    requires Unique(s.cvc.desired)
    requires |s.cvc.desired| > |s.cvc.current| && IsChangeInLists(s.cvc.desired, s.cvc.current)
    requires s.op == OpIdle && FreshIds(s, NewPools(s.cvc), ids)
    ensures AllowedRun(s, ScaleUpActions(s.cvc, ids, failing))
  {
    hide Run, OpStart, OpSize, OpCreate, OpFinish, CreateReplicas, CreateActions, Unique, ListDiff,
         EditDesired, OpDelete, MgrStart, MgrCommand, MgrFinish, Register, AssignId, Finalize;
    var pools := NewPools(s.cvc);
    var creates := CreateActions(pools, ids, failing);
    var last := [OperatorCreate("", true), OperatorFinish];
    ScaleUpOpens(s);
    ListDiffUnique(s.cvc.desired, s.cvc.current);
    var s2 := OpSize(OpStart(s));
    assert FreshIds(s2, pools, ids);
    CreationAllowed(s2, s.cvc, false, pools, ids, failing);
    CreationRun(s2, s.cvc, false, pools, ids, failing);
    ClosingAllowed(Run(s2, creates));
    AllowedAppend(s2, creates, last);
    AllowedCons(OpStart(s), OperatorSize, creates + last);
    AllowedCons(s, OperatorStart, [OperatorSize] + (creates + last));
  }

  lemma AllowedCons(s: State, a: Action, acts: seq<Action>)
    requires Allowed(s, a) && AllowedRun(Step(s, a), acts)
    ensures AllowedRun(s, [a] + acts)
  {
    assert ([a] + acts)[1..] == acts;
  }

  lemma ClosingAllowed(s: State)
    requires s.op.UpSized? && s.op.todo == []
    ensures AllowedRun(s, [OperatorCreate("", true), OperatorFinish])
  {
    var t := Step(s, OperatorCreate("", true));
    assert AllowedRun(Step(t, OperatorFinish), []);
    AllowedCons(t, OperatorFinish, []);
    assert [OperatorFinish] + [] == [OperatorFinish];
    AllowedCons(s, OperatorCreate("", true), [OperatorFinish]);
    assert [OperatorCreate("", true)] + [OperatorFinish] == [OperatorCreate("", true), OperatorFinish];
  }

  lemma ScaleDownPass(s: State, p: Pool)
    requires |s.cvc.desired| < |s.cvc.current| && IsChangeInLists(s.cvc.desired, s.cvc.current)
    requires s.op == OpIdle && RemovedPools(s.cvc) != [] && RemovedPools(s.cvc)[0] == p
    ensures var cv := LowerDrf(s.cv, |s.cvc.desired|, ReplicaIdOn(s.cvrs, p));
      OpPass(s) ==
        if s.cv.drf > |s.cvc.desired| && p !in s.cvrs && s.client.NilObject? then s
        else if IsScaleDownInProgress(cv) || (p !in s.cvrs && s.client.EmptyObject?) then s.(cv := cv)
        else s.(cv := cv,
                cvc := s.cvc.(current := s.cvc.desired, rv := s.cvc.rv + 1),
                cvrs := if p in s.cvrs then s.cvrs[p := s.cvrs[p].(deleting := true)] else s.cvrs)
  {
    hide LowerDrf, IsScaleDownInProgress;
    assert OpStart(s).op == DownStarted(s.cvc);
  }

  lemma RunTwo(s: State, a: Action, b: Action)
    ensures Run(s, [a, b]) == Step(Step(s, a), b)
  {
    assert [a, b] == [a] + ([b] + []);
    RunOne(s, a, [b] + []);
    RunOne(Step(s, a), b, []);
  }

  lemma ManagerRun(s: State, healthy: bool, accepted: bool)
    ensures Run(s, [ManagerStart(healthy), ManagerCommand(accepted), ManagerFinish])
         == MgrFinish(MgrCommand(MgrStart(s, healthy), accepted))
  {
    hide MgrStart, MgrCommand, MgrFinish;
    var tail := [ManagerCommand(accepted), ManagerFinish];
    assert [ManagerStart(healthy), ManagerCommand(accepted), ManagerFinish] == [ManagerStart(healthy)] + tail;
    RunOne(s, ManagerStart(healthy), tail);
    RunTwo(MgrStart(s, healthy), ManagerCommand(accepted), ManagerFinish);
  }

  lemma RemovingFound(cv: Cv)
    requires |cv.specKnown| < |cv.statusKnown|
    ensures !(cv.statusKnown.Keys <= cv.specKnown.Keys)
  {
    assert |cv.specKnown.Keys| == |cv.specKnown| && |cv.statusKnown.Keys| == |cv.statusKnown|;
    if cv.statusKnown.Keys <= cv.specKnown.Keys {
      SubsetCard(cv.statusKnown.Keys, cv.specKnown.Keys);
    }
  }

  class Store {
    var cvc: Cvc
    var cv: Cv
    var cvrs: map<Pool, Cvr>
    var target: Target
    const client: Client

    constructor (cvc: Cvc, cv: Cv, cvrs: map<Pool, Cvr>, target: Target, client: Client)
      ensures View() == State(cvc, cv, cvrs, target, OpIdle, MgrIdle, client)
    {
      this.cvc, this.cv, this.cvrs, this.target, this.client := cvc, cv, cvrs, target, client;
    }

    ghost function View(): State
      reads this
    {
      State(cvc, cv, cvrs, target, OpIdle, MgrIdle, client)
    }

    /** One request of the target's registration server. A replica that is known
        may come back with another guid, which replaces the old one in both maps. */
    method UpdateCVWithReplicationDetails(r: Registration) returns (ok: bool)
      modifies this`cv
      ensures ok <==> r.id != "" && r.guid != "" && r.rf != 0 && r.cf != 0
                      && (r.id in old(cv).specKnown || |old(cv).specKnown| < old(cv).drf)
                      && old(cv).rf <= r.rf && old(cv).cf <= r.cf
      ensures View() == Step(old(View()), Connect(r))
      ensures !ok ==> cv == old(cv)
      ensures ok ==> cv.rf == r.rf && cv.cf == r.cf && cv.drf == old(cv).drf
      ensures ok ==> cv.specKnown == old(cv).specKnown[r.id := r.guid] && cv.statusKnown == old(cv).statusKnown[r.id := r.guid]
    {
      if r.id == "" || r.guid == "" || r.rf == 0 || r.cf == 0 { return false; }
      var oldReplica := r.id in cv.specKnown;
      if !oldReplica && |cv.specKnown| >= cv.drf { return false; }
      if cv.rf > r.rf { return false; }
      if cv.cf > r.cf { return false; }
      cv := cv.(rf := r.rf);
      cv := cv.(cf := r.cf);
      cv := cv.(specKnown := cv.specKnown[r.id := r.guid]);
      cv := cv.(statusKnown := cv.statusKnown[r.id := r.guid]);
      cv := cv.(rv := cv.rv + 1);
      return true;
    }

    /** The creation loop of a scale-up. `ids` holds the hashes of the new
        replicas' names; `failing` are the pools whose API calls fail. */
    method HandleVolumeReplicaCreation(newPoolNames: seq<Pool>, ids: map<Pool, Id>, failing: set<Pool>)
      returns (failed: bool)
      requires forall p :: p in newPoolNames ==> p in ids
      modifies this`cvrs
      ensures cvrs == CreateReplicas(old(cvrs), newPoolNames, ids, failing)
      ensures forall p :: p in cvrs <==> p in old(cvrs) || (p in newPoolNames && p !in failing)
      ensures forall p :: p in cvrs ==> cvrs[p] == if p in old(cvrs) then old(cvrs)[p] else Cvr(ids[p], false)
      ensures failed <==> exists p :: p in newPoolNames && p in failing
    {
      failed := false;
      CreatedReplicas(cvrs, newPoolNames, ids, failing);
      for i := 0 to |newPoolNames|
        invariant failed <==> exists k :: 0 <= k < i && newPoolNames[k] in failing
        invariant CreateReplicas(cvrs, newPoolNames[i..], ids, failing)
               == CreateReplicas(old(cvrs), newPoolNames, ids, failing)
      {
        var poolName := newPoolNames[i];
        assert newPoolNames[i..][1..] == newPoolNames[i + 1..];
        if poolName in failing {
          failed := true;
          continue;
        }
        if poolName !in cvrs {
          cvrs := cvrs[poolName := Cvr(ids[poolName], false)];
        }
      }
    }

    /** A whole undisturbed scale-up pass. */
    method ScaleUpVolumeReplicas(ids: map<Pool, Id>, failing: set<Pool>) returns (ok: bool)
      requires |cvc.desired| > |cvc.current| && IsChangeInLists(cvc.desired, cvc.current)
      requires forall p :: p in NewPools(cvc) ==> p in ids
      modifies this
      ensures View() == Run(old(View()), ScaleUpActions(old(cvc), ids, failing))
      ensures ok <==> forall p :: p in NewPools(old(cvc)) ==> p !in failing
      ensures cv.drf == (if old(cv).drf < |old(cvc).desired| then |old(cvc).desired| else old(cv).drf)
      ensures cv == old(cv).(drf := cv.drf, rv := cv.rv) && target == old(target)
      ensures cvrs == CreateReplicas(old(cvrs), NewPools(old(cvc)), ids, failing)
      ensures cvc == if ok then old(cvc).(current := old(cvc).current + NewPools(old(cvc)),
                                          rv := old(cvc).rv + 1)
                     else old(cvc)
    {
      ghost var s0 := View();
      var drCount := |cvc.desired|;
      if cv.drf < drCount {
        cv := cv.(drf := drCount, rv := cv.rv + 1);
      }
      var newPoolNames := NewPools(cvc);
      var failed := HandleVolumeReplicaCreation(newPoolNames, ids, failing);
      CreatedReplicas(old(cvrs), newPoolNames, ids, failing);
      ScaleUpRun(s0, ids, failing);
      if failed {
        return false;
      }
      for i := 0 to |newPoolNames|
        invariant forall k :: 0 <= k < i ==> newPoolNames[k] in cvrs
      {
        assert newPoolNames[i] in Elems(newPoolNames);
        if newPoolNames[i] !in cvrs { return false; }
      }
      cvc := cvc.(current := cvc.current + newPoolNames, rv := cvc.rv + 1);
      return true;
    }

    /** Lowers the factor and forgets the removed replica, if that is to be done. */
    method LowerFactor(removed: Pool) returns (ok: bool)
      modifies this`cv
      ensures ok <==> old(cv).drf <= |cvc.desired| || removed in cvrs || client.EmptyObject?
      ensures cv == if ok then LowerDrf(old(cv), |cvc.desired|, ReplicaIdOn(cvrs, removed)) else old(cv)
      ensures !ok || old(cv).drf <= |cvc.desired| ==> cv == old(cv)
      ensures ok && old(cv).drf > |cvc.desired| ==>
                cv.drf == |cvc.desired| && cv.specKnown == old(cv).specKnown - {if removed in cvrs then cvrs[removed].id else ""}
      ensures cv == old(cv).(drf := cv.drf, specKnown := cv.specKnown, rv := cv.rv)
    {
      var drCount := |cvc.desired|;
      if cv.drf > drCount {
        if removed !in cvrs && client.NilObject? { return false; }
        var replicaId := if removed in cvrs then cvrs[removed].id else "";
        cv := cv.(drf := drCount);
        cv := cv.(specKnown := cv.specKnown - {replicaId});
        cv := cv.(rv := cv.rv + 1);
      }
      return true;
    }

    /** A whole undisturbed scale-down pass. It fails when the target still has to
        drop the removed replica, and when the removed CVR is gone and the client
        answers with an empty object, whose name no deletion accepts. With a
        client that answers with nil, reading the id of a CVR that is gone ends
        the pass before anything is written. */
    method ScaleDownVolumeReplicas() returns (ok: bool)
      requires |cvc.desired| < |cvc.current| && IsChangeInLists(cvc.desired, cvc.current)
      requires RemovedPools(cvc) != []
      modifies this
      ensures View() == Run(old(View()), OPERATOR_PASS)
      ensures var p := RemovedPools(old(cvc))[0];
        ok <==> |cv.statusKnown| <= |cv.specKnown| && (p in old(cvrs) || (client.NilObject? && old(cv).drf <= |old(cvc).desired|))
      ensures cvc == if ok then old(cvc).(current := old(cvc).desired, rv := old(cvc).rv + 1) else old(cvc)
      ensures var p := RemovedPools(old(cvc))[0];
              cvrs == if ok && p in old(cvrs)
                      then old(cvrs)[p := old(cvrs)[p].(deleting := true)] else old(cvrs)
      ensures target == old(target) && cv == old(cv).(drf := cv.drf, specKnown := cv.specKnown, rv := cv.rv)
      ensures var p := RemovedPools(old(cvc))[0];
        p in old(cvrs) && old(cv).drf > |old(cvc).desired| ==>
                cv.drf == |old(cvc).desired| && cv.specKnown == old(cv).specKnown - {old(cvrs)[p].id}
      ensures old(cv).drf <= |old(cvc).desired| ==> cv == old(cv)
    {
      hide Run, Step, OpPass, ListDiff, LowerDrf, ReplicaIdOn, IsChangeInLists;
      OperatorPassRun(View());
      ScaleDownPass(View(), RemovedPools(cvc)[0]);
      var removed := RemovedPools(cvc)[0];
      var found := removed in cvrs;
      var lowered := LowerFactor(removed);
      if !lowered || |cv.statusKnown| > |cv.specKnown| {
        return false;
      }
      if found {
        cvrs := cvrs[removed := cvrs[removed].(deleting := true)];
      } else if client.EmptyObject? {
        return false;
      }
      cvc := cvc.(current := cvc.desired, rv := cvc.rv + 1);
      return true;
    }

    /** A whole undisturbed pass of the volume manager over a pending factor. */
    method UpdateCStorVolumeDRF(healthy: bool, accepted: bool) returns (ok: bool)
      modifies this`cv, this`target
      ensures View() == Run(old(View()), [ManagerStart(healthy), ManagerCommand(accepted), ManagerFinish])
      ensures ok <==> accepted && (|old(cv).specKnown| == |old(cv).statusKnown|
                                   || (|old(cv).specKnown| < |old(cv).statusKnown| && healthy))
      ensures cv.drf == old(cv).drf && cv.specKnown == old(cv).specKnown
      ensures |old(cv).specKnown| >= |old(cv).statusKnown| || !healthy ==> cv == old(cv)
      ensures |old(cv).specKnown| >= |old(cv).statusKnown| && ok ==> target == old(target).(drf := cv.drf)
      ensures |old(cv).specKnown| < |old(cv).statusKnown| && healthy ==>
                && (if old(cv).rf > cv.drf then cv.rf == cv.drf && cv.cf == cv.rf / 2 + 1
                    else cv.rf == old(cv).rf && cv.cf == old(cv).cf)
      ensures |old(cv).specKnown| < |old(cv).statusKnown| && ok ==>
                cv.statusKnown == cv.specKnown && target == Target(cv.drf, cv.specKnown.Keys)
      ensures !ok ==> cv.statusKnown == old(cv).statusKnown && target == old(target)
    {
      hide Run, Step;
      ManagerRun(View(), healthy, accepted);
      if |cv.specKnown| < |cv.statusKnown| {
        if !healthy { return false; }
        // more replicas in the status than in the spec, so an id to remove is found
        RemovingFound(cv);
        if cv.drf < cv.rf {
          cv := cv.(rf := cv.drf);
          cv := cv.(cf := cv.rf / 2 + 1);
          cv := cv.(rv := cv.rv + 1);
        }
        if !accepted { return false; }
        target := Target(cv.drf, cv.specKnown.Keys);
        cv := cv.(statusKnown := cv.specKnown, rv := cv.rv + 1);
        return true;
      } else if |cv.specKnown| == |cv.statusKnown| {
        if !accepted { return false; }
        target := target.(drf := cv.drf);
        return true;
      }
      return false;
    }
  }
}
