/** Why the conditions of `ScaleDown.Allowed` are there: concrete runs of a
  volume from its binding in which one of them is missing and the corresponding
  property fails. */
module ScalingLimits {
  import opened Lists
  import opened CvcAdmission
  import opened VolumeScaling
  import opened ScaleDown
  import opened ScaleDownTheorems
  import opened ScaleDownRecovery
  import opened VolumeStore
  import opened ScaleDownEdits

  const G: Guid := "g"

  /** One more allowed step at the end of an allowed run. */
  lemma Next(s0: State, acts: seq<Action>, s: State, a: Action, s': State)
    requires AllowedRun(s0, acts) && Run(s0, acts) == s && Allowed(s, a) && Step(s, a) == s'
    ensures AllowedRun(s0, acts + [a]) && Run(s0, acts + [a]) == s'
  {
    hide Step, Allowed;
    assert AllowedRun(s', []);
    AllowedCons(s, a, []);
    assert [a] + [] == [a];
    AllowedAppend(s0, acts, [a]);
    RunAppend(s0, acts, [a]);
    RunOne(s, a, []);
  }

  // ---------- three replicas, one to be removed ----------

  const CVRS: map<Pool, Cvr> := map["a" := Cvr("A", false), "b" := Cvr("B", false), "c" := Cvr("C", false)]

  function Bound3(client: Client): State {
    State(Cvc(["a", "b", "c"], ["a", "b", "c"], 0), Cv(3, 3, 2, map[], map[], 0), CVRS, Target(3, {}), OpIdle, MgrIdle, client)
  }

  function Known(ids: set<Id>): (m: map<Id, Guid>)
    ensures m.Keys == ids && |m| == |ids|
  {
    var m := map id | id in ids :: G;
    assert m.Keys == ids;
    m
  }

  /** `n` replicas have registered. */
  function Registered3(client: Client, ids: set<Id>, rv: nat): State {
    Bound3(client).(cv := Cv(3, 3, 2, Known(ids), Known(ids), rv))
  }

  function Lowering(client: Client): State {
    Registered3(client, {"A", "B", "C"}, 3).(
      cvc := Cvc(["a", "b"], ["a", "b", "c"], 1),
      cv := Cv(2, 3, 2, Known({"A", "B"}), Known({"A", "B", "C"}), 4))
  }

  lemma ConnectOne(client: Client, ids: set<Id>, rv: nat, p: Pool, id: Id)
    requires |ids| < 3 && id !in ids && id != "" && p in CVRS && CVRS[p].id == id
    ensures var s, a := Registered3(client, ids, rv), Connect(Registration(id, G, 3, 2));
      Allowed(s, a) && Step(s, a) == Registered3(client, ids + {id}, rv + 1)
  {
    var s := Registered3(client, ids, rv);
    assert Live(s, p);
    assert Known(ids)[id := G] == Known(ids + {id});
  }

  lemma DiffC(rv: nat)
    ensures RemovedPools(Cvc(["a", "b"], ["a", "b", "c"], rv)) == ["c"]
  {
    assert ListDiff(["c"], ["a", "b"]) == ["c"] by { assert ["c"][1..] == []; }
    assert ["b", "c"][1..] == ["c"];
    assert ListDiff(["b", "c"], ["a", "b"]) == ["c"];
    assert ["a", "b", "c"][1..] == ["b", "c"];
  }

  lemma ShrinkToTwo(s: State)
    requires s.cvc.desired == s.cvc.current == ["a", "b", "c"]
    ensures EditDesired(s, ["a", "b"]) == s.(cvc := Cvc(["a", "b"], ["a", "b", "c"], s.cvc.rv + 1))
  {
    DiffC(0);
  }

  lemma Lowers(client: Client, s: State)
    requires s == Registered3(client, {"A", "B", "C"}, 3).(cvc := Cvc(["a", "b"], ["a", "b", "c"], 1))
    ensures OpSize(OpStart(s)) == Lowering(client)
  {
    hide ListDiff;
    DiffC(1);
    assert "c" in Elems(s.cvc.current) && "c" !in Elems(s.cvc.desired);
    assert OpStart(s).op == DownStarted(s.cvc);
    assert Known({"A", "B", "C"}) - {"C"} == Known({"A", "B"});
    assert |{"A", "B", "C"}| == 3 && |{"A", "B"}| == 2;
  }

  lemma Bound3Init(client: Client)
    ensures Init(Bound3(client))
  {
    var s := Bound3(client);
    assert Elems(s.cvc.desired) == {"a", "b", "c"} == s.cvrs.Keys;
  }

  /** The run up to the moment at which the factor is lowered. */
  lemma ReachLowering(client: Client) returns (acts: seq<Action>)
    ensures AllowedRun(Bound3(client), acts) && Run(Bound3(client), acts) == Lowering(client)
  {
    hide Step, Run, AllowedRun, Allowed, Known;
    var s0 := Bound3(client);
    acts := [];
    assert AllowedRun(s0, []) && Run(s0, []) == s0 by { NoSteps(s0); }
    assert s0 == Registered3(client, {}, 0) by { NothingKnown(); }
    ConnectOne(client, {}, 0, "a", "A");
    Next(s0, acts, s0, Connect(Registration("A", G, 3, 2)), Registered3(client, {} + {"A"}, 1));
    acts := acts + [Connect(Registration("A", G, 3, 2))];
    assert {} + {"A"} == {"A"};
    ConnectOne(client, {"A"}, 1, "b", "B");
    Next(s0, acts, Registered3(client, {"A"}, 1), Connect(Registration("B", G, 3, 2)), Registered3(client, {"A"} + {"B"}, 2));
    acts := acts + [Connect(Registration("B", G, 3, 2))];
    assert {"A"} + {"B"} == {"A", "B"};
    ConnectOne(client, {"A", "B"}, 2, "c", "C");
    Next(s0, acts, Registered3(client, {"A", "B"}, 2), Connect(Registration("C", G, 3, 2)), Registered3(client, {"A", "B"} + {"C"}, 3));
    acts := acts + [Connect(Registration("C", G, 3, 2))];
    assert {"A", "B"} + {"C"} == {"A", "B", "C"};
    var more := LowerAfterRegistration(client, acts);
    acts := more;
  }

  lemma NoSteps(s: State)
    ensures AllowedRun(s, []) && Run(s, []) == s
  {
  }

  lemma NothingKnown()
    ensures Known({}) == map[]
  {
  }

  lemma LowerAfterRegistration(client: Client, before: seq<Action>) returns (acts: seq<Action>)
    requires AllowedRun(Bound3(client), before) && Run(Bound3(client), before) == Registered3(client, {"A", "B", "C"}, 3)
    ensures AllowedRun(Bound3(client), acts) && Run(Bound3(client), acts) == Lowering(client)
  {
    hide Run, AllowedRun, OpStart, OpSize, EditDesired;
    var s0, s := Bound3(client), Registered3(client, {"A", "B", "C"}, 3);
    ShrinkToTwo(s);
    var s1 := s.(cvc := Cvc(["a", "b"], ["a", "b", "c"], 1));
    assert |{"A", "B", "C"}| == 3;
    assert AllowedEdit(s, ["a", "b"]);
    Next(s0, before, s, Edit(["a", "b"]), s1);
    acts := before + [Edit(["a", "b"])];
    Next(s0, acts, s1, OperatorStart, OpStart(s1));
    acts := acts + [OperatorStart];
    Lowers(client, s1);
    Next(s0, acts, OpStart(s1), OperatorSize, Lowering(client));
    acts := acts + [OperatorSize];
  }

  lemma SwapAdmitted(client: Client)
    ensures EditDesired(Lowering(client), ["a", "c"]) != Lowering(client)
    ensures Elems(["a", "c"]) != Elems(Lowering(client).cvc.desired)
  {
    assert ListDiff(["c"], ["a", "c"]) == [] by { assert ["c"][1..] == []; }
    assert ["b", "c"][1..] == ["c"];
    assert ListDiff(["b", "c"], ["a", "c"]) == ["b"];
    assert ["a", "b", "c"][1..] == ["b", "c"];
    assert ListDiff(["a", "b", "c"], ["a", "c"]) == ["b"];
    assert "c" in Elems(["a", "c"]) && "c" !in Elems(["a", "b"]);
  }

  /** The webhook compares only lengths while a scale-down is in progress. If the
      user names another pool for removal after the factor was lowered, the edit
      is admitted and can lead to the deletion of a replica still known. */
  lemma SwapDuringScaleDownBreaksOrder(client: Client) returns (acts: seq<Action>)
    ensures Init(Bound3(client)) && AllowedRun(Bound3(client), acts)
    ensures var s := Run(Bound3(client), acts);
      EditDesired(s, ["a", "c"]) != s && MayDeleteKnown(EditDesired(s, ["a", "c"]))
  {
    hide Run, AllowedRun, Init, Tracked, MayDeleteKnown, EditDesired;
    Bound3Init(client);
    acts := ReachLowering(client);
    InitTracked(Bound3(client));
    RunKeepsTracked(Bound3(client), acts);
    SwapAdmitted(client);
    SwapDeletesKnownIff(Lowering(client), ["a", "c"]);
  }

  // ---------- a pool of a scale-up exchanged for another ----------

  lemma GrowAdmitted(s: State, d: Pool)
    requires s.cvc.current == ["a", "b", "c"] && d !in s.cvc.current
    requires s.cvc.desired == ["a", "b", "c"] || |s.cvc.desired| == 4
    ensures EditDesired(s, ["a", "b", "c", d]) == s.(cvc := Cvc(["a", "b", "c", d], ["a", "b", "c"], s.cvc.rv + 1))
  {
    hide ListDiff;
    var pools := ["a", "b", "c", d];
    assert forall p :: p in ["a", "b", "c"] ==> p in pools;
    assert Elems(["a", "b", "c"]) <= Elems(pools);
    AdmittedEdit(AsClaim(s.cvc), pools);
  }

  /** While the operator works on a scale-up, its new pool is exchanged for
      another one: the first can be left with a replica that no list names. */
  lemma SwapDuringScaleUpOrphansReplica(client: Client) returns (acts: seq<Action>)
    ensures Init(Bound3(client)) && AllowedRun(Bound3(client), acts)
    ensures var s := Run(Bound3(client), acts);
      EditDesired(s, ["a", "b", "c", "e"]) != s && MayOrphan(EditDesired(s, ["a", "b", "c", "e"]))
  {
    hide Run, AllowedRun, Init, Tracked, MayOrphan, EditDesired, Admitted;
    var s0 := Bound3(client);
    Bound3Init(client);
    NoSteps(s0);
    GrowAdmitted(s0, "d");
    var s1 := s0.(cvc := Cvc(["a", "b", "c", "d"], ["a", "b", "c"], 1));
    Next(s0, [], s0, Edit(["a", "b", "c", "d"]), s1);
    acts := [] + [Edit(["a", "b", "c", "d"])];
    var s := s1.(op := UpStarted(s1.cvc));
    assert "d" in Elems(s1.cvc.desired) && "d" !in Elems(s1.cvc.current);
    Next(s0, acts, s1, OperatorStart, s);
    acts := acts + [OperatorStart];
    InitTracked(s0);
    RunKeepsTracked(s0, acts);
    GrowAdmitted(s, "e");
    assert "e" in Elems(["a", "b", "c", "e"]) && "e" !in Elems(s.cvc.desired);
    assert "d" in s.cvc.desired && "d" !in ["a", "b", "c", "e"];
    ExchangeOrphansIff(s, ["a", "b", "c", "e"]);
  }

  /** After the scale-down is over the removed CVR awaits its finalizer. If its
      pool is added back before it is gone, the pool can end up without replica. */
  lemma ReaddedPoolLosesItsReplica(client: Client) returns (acts: seq<Action>)
    ensures Init(Bound3(client)) && AllowedRun(Bound3(client), acts)
    ensures var s := Run(Bound3(client), acts);
      EditDesired(s, ["a", "b", "c"]) != s && MayBecomeVacant(EditDesired(s, ["a", "b", "c"]))
  {
    hide Run, AllowedRun, Init, Tracked, MayBecomeVacant, EditDesired, Completed;
    var s0 := Bound3(client);
    Bound3Init(client);
    var before := ReachLowering(client);
    InitTracked(s0);
    RunKeepsTracked(s0, before);
    var t := Lowering(client);
    DiffC(1);
    RestartCompletesIff(t);
    assert CanDelete(t);
    acts := before + RESTART;
    RestartAllowed(t);
    AllowedAppend(s0, before, RESTART);
    RunAppend(s0, before, RESTART);
    RunKeepsTracked(s0, acts);
    Removed(t);
    ReaddedVacant(Run(t, RESTART));
  }

  lemma RestartAllowed(s: State)
    ensures AllowedRun(s, RESTART)
  {
    hide Step;
    Harmless(s, RESTART);
  }

  /** The outcome of the restart, in full. */
  lemma Removed(t: State)
    requires t == Lowering(t.client)
    ensures var s := Run(t, RESTART);
      && s.cvc.desired == ["a", "b"] && s.cvc.current == ["a", "b"] && s.op == OpIdle
      && s.cvrs == CVRS["c" := Cvr("C", true)]
  {
    hide Run;
    RestartIsPasses(t);
    DiffC(1);
    var u := t.(op := OpIdle, mgr := MgrIdle);
    WaitsForManager(u);
    ManagerDrops(u);
    DeletesC(MgrPass(u));
  }

  lemma WaitsForManager(u: State)
    requires u == Lowering(u.client)
    ensures OpPass(u) == u
  {
    hide ListDiff;
    DiffC(1);
    assert "c" in Elems(u.cvc.current) && "c" !in Elems(u.cvc.desired);
    assert OpStart(u).op == DownStarted(u.cvc);
    assert |{"A", "B", "C"}| == 3 && |{"A", "B"}| == 2;
  }

  lemma ManagerDrops(u: State)
    requires u == Lowering(u.client)
    ensures MgrPass(u) == u.(cv := Cv(2, 2, 2, Known({"A", "B"}), Known({"A", "B"}), 6), target := Target(2, {"A", "B"}))
  {
    assert |{"A", "B", "C"}| == 3 && |{"A", "B"}| == 2;
    assert "C" in {"A", "B", "C"} && "C" !in {"A", "B"};
  }

  lemma DeletesC(u: State)
    requires u.cvc == Cvc(["a", "b"], ["a", "b", "c"], 1) && u.op == OpIdle && u.cvrs == CVRS
    requires u.cv == Cv(2, 2, 2, Known({"A", "B"}), Known({"A", "B"}), 6)
    ensures var s := OpPass(u);
      && s.cvc.desired == ["a", "b"] && s.cvc.current == ["a", "b"] && s.op == OpIdle
      && s.cvrs == CVRS["c" := Cvr("C", true)]
  {
    hide ListDiff;
    DiffC(1);
    assert "c" in Elems(u.cvc.current) && "c" !in Elems(u.cvc.desired);
    assert OpStart(u).op == DownStarted(u.cvc);
    assert OpSize(OpStart(u)).op == DownSettled(u.cvc, true);
  }

  lemma ReaddedVacant(s: State)
    requires Tracked(s) && s.cvc.desired == s.cvc.current == ["a", "b"] && s.op == OpIdle
    requires s.cvrs == CVRS["c" := Cvr("C", true)]
    ensures EditDesired(s, ["a", "b", "c"]) != s && MayBecomeVacant(EditDesired(s, ["a", "b", "c"]))
  {
    hide Tracked, MayBecomeVacant;
    assert ListDiff(["a", "b"], ["a", "b", "c"]) == [] by {
      assert ["a", "b"][1..] == ["b"] && ["b"][1..] == [];
      assert ListDiff(["b"], ["a", "b", "c"]) == [];
    }
    assert EditDesired(s, ["a", "b", "c"]) != s;
    assert "c" in ["a", "b", "c"] && !NoneDying(s, ["a", "b", "c"]);
    ReaddedDies(s, ["a", "b", "c"]);
  }

  // ---------- scaling down a volume with an unregistered replica ----------

  const CVRS4: map<Pool, Cvr> := CVRS["x" := Cvr("X", false)]

  function Bound4(client: Client): State {
    State(Cvc(["a", "b", "c", "x"], ["a", "b", "c", "x"], 0), Cv(4, 4, 3, map[], map[], 0), CVRS4, Target(4, {}), OpIdle, MgrIdle, client)
  }

  function Registered4(client: Client, ids: set<Id>, rv: nat): State {
    Bound4(client).(cv := Cv(4, 4, 3, Known(ids), Known(ids), rv))
  }

  function XLowered(client: Client): State {
    Bound4(client).(
      cvc := Cvc(["a", "b", "c"], ["a", "b", "c", "x"], 1),
      cv := Cv(3, 4, 3, Known({"A", "B"}), Known({"A", "B", "X"}), 4))
  }

  /** The manager lowered the factor and stopped; X took the free place. */
  function XBack(client: Client): State {
    XLowered(client).(cv := Cv(3, 3, 2, Known({"A", "B", "X"}), Known({"A", "B", "X"}), 6))
  }

  function XRemoved(client: Client): State {
    XBack(client).(cvc := Cvc(["a", "b", "c"], ["a", "b", "c"], 2), cvrs := CVRS4["x" := Cvr("X", true)])
  }

  lemma Bound4Init(client: Client)
    ensures Init(Bound4(client))
  {
    var s := Bound4(client);
    assert Elems(s.cvc.desired) == {"a", "b", "c", "x"} == s.cvrs.Keys;
  }

  lemma ConnectTo4(client: Client, ids: set<Id>, rv: nat, p: Pool, id: Id)
    requires |ids| < 4 && id !in ids && id != "" && p in CVRS4 && CVRS4[p].id == id
    ensures var s, a := Registered4(client, ids, rv), Connect(Registration(id, G, 4, 3));
      Allowed(s, a) && Step(s, a) == Registered4(client, ids + {id}, rv + 1)
  {
    var s := Registered4(client, ids, rv);
    assert Live(s, p);
    assert Known(ids)[id := G] == Known(ids + {id});
  }

  /** Three of four replicas register. */
  lemma ThreeOfFour(client: Client) returns (acts: seq<Action>)
    ensures AllowedRun(Bound4(client), acts) && Run(Bound4(client), acts) == Registered4(client, {"A", "B", "X"}, 3)
  {
    hide Step, Run, AllowedRun, Allowed, Known;
    var s0 := Bound4(client);
    acts := [];
    NoSteps(s0);
    assert s0 == Registered4(client, {}, 0) by { NothingKnown(); }
    ConnectTo4(client, {}, 0, "a", "A");
    Next(s0, acts, s0, Connect(Registration("A", G, 4, 3)), Registered4(client, {} + {"A"}, 1));
    acts := acts + [Connect(Registration("A", G, 4, 3))];
    assert {} + {"A"} == {"A"};
    ConnectTo4(client, {"A"}, 1, "b", "B");
    Next(s0, acts, Registered4(client, {"A"}, 1), Connect(Registration("B", G, 4, 3)), Registered4(client, {"A"} + {"B"}, 2));
    acts := acts + [Connect(Registration("B", G, 4, 3))];
    assert {"A"} + {"B"} == {"A", "B"};
    ConnectTo4(client, {"A", "B"}, 2, "x", "X");
    Next(s0, acts, Registered4(client, {"A", "B"}, 2), Connect(Registration("X", G, 4, 3)), Registered4(client, {"A", "B"} + {"X"}, 3));
    acts := acts + [Connect(Registration("X", G, 4, 3))];
    assert {"A", "B"} + {"X"} == {"A", "B", "X"};
  }

  lemma DiffX(rv: nat)
    ensures RemovedPools(Cvc(["a", "b", "c"], ["a", "b", "c", "x"], rv)) == ["x"]
  {
    var d := ["a", "b", "c"];
    assert ListDiff(["x"], d) == ["x"] by { assert ["x"][1..] == []; }
    assert ["c", "x"][1..] == ["x"];
    assert ListDiff(["c", "x"], d) == ["x"];
    assert ["b", "c", "x"][1..] == ["c", "x"];
    assert ListDiff(["b", "c", "x"], d) == ["x"];
    assert ["a", "b", "c", "x"][1..] == ["b", "c", "x"];
  }

  lemma ShrinkToThree(client: Client)
    ensures var s := Registered4(client, {"A", "B", "X"}, 3);
      EditDesired(s, ["a", "b", "c"]) == s.(cvc := Cvc(["a", "b", "c"], ["a", "b", "c", "x"], 1)) && !AllRegistered(s)
  {
    hide EditDesired;
    DropX(Registered4(client, {"A", "B", "X"}, 3));
    assert |{"A", "B", "X"}| == 3;
  }

  lemma DropX(s: State)
    requires s.cvc.desired == s.cvc.current == ["a", "b", "c", "x"]
    ensures EditDesired(s, ["a", "b", "c"]) == s.(cvc := Cvc(["a", "b", "c"], ["a", "b", "c", "x"], s.cvc.rv + 1))
  {
    DiffX(0);
  }

  lemma LowerX(client: Client)
    ensures OpSize(OpStart(Registered4(client, {"A", "B", "X"}, 3).(cvc := Cvc(["a", "b", "c"], ["a", "b", "c", "x"], 1)))) == XLowered(client)
  {
    hide ListDiff;
    DiffX(1);
    var s := Registered4(client, {"A", "B", "X"}, 3).(cvc := Cvc(["a", "b", "c"], ["a", "b", "c", "x"], 1));
    assert "x" in Elems(s.cvc.current) && "x" !in Elems(s.cvc.desired);
    assert OpStart(s).op == DownStarted(s.cvc);
    assert Known({"A", "B", "X"}) - {"X"} == Known({"A", "B"});
    assert |{"A", "B", "X"}| == 3 && |{"A", "B"}| == 2;
  }

  lemma XReturns(client: Client)
    ensures var s := MgrStart(XLowered(client), true).(mgr := MgrIdle);
            && AllowedRegistration(s, Registration("X", G, 3, 2))
            && Register(s, Registration("X", G, 3, 2)) == XBack(client)
  {
    var s := MgrStart(XLowered(client), true).(mgr := MgrIdle);
    assert |{"A", "B", "X"}| == 3 && |{"A", "B"}| == 2;
    assert "X" in {"A", "B", "X"} && "X" !in {"A", "B"};
    assert s.cv == Cv(3, 3, 2, Known({"A", "B"}), Known({"A", "B", "X"}), 5);
    assert Known({"A", "B"})["X" := G] == Known({"A", "B", "X"}) == Known({"A", "B", "X"})["X" := G];
    assert Live(s, "x") && s.cvrs["x"].id == "X";
  }

  lemma RemoveX(client: Client)
    ensures OpFinish(OpDelete(OpSize(OpStart(XBack(client))))) == XRemoved(client)
  {
    hide ListDiff;
    DiffX(1);
    var c := XBack(client).cvc;
    assert "x" in Elems(c.current) && "x" !in Elems(c.desired);
    assert OpStart(XBack(client)).op == DownStarted(c);
    assert OpSize(OpStart(XBack(client))).op == DownSettled(c, true);
    assert CompletedPools(c) == c.desired;
  }

  lemma LowerC(client: Client)
    ensures var s := XRemoved(client).(cvc := Cvc(["a", "b"], ["a", "b", "c"], 3));
            && EditDesired(XRemoved(client), ["a", "b"]) == s && AllowedEdit(XRemoved(client), ["a", "b"])
            && OpSize(OpStart(s)).cv.drf == 2 && |OpSize(OpStart(s)).cv.specKnown| == 3
  {
    hide ListDiff, EditDesired;
    var s := XRemoved(client).(cvc := Cvc(["a", "b"], ["a", "b", "c"], 3));
    ShrinkToTwo(XRemoved(client));
    DiffC(3);
    assert "c" in Elems(s.cvc.current) && "c" !in Elems(s.cvc.desired);
    assert OpStart(s).op == DownStarted(s.cvc);
    assert Known({"A", "B", "X"}) - {"C"} == Known({"A", "B", "X"});
    assert |{"A", "B", "X"}| == 3;
  }

  /** What happens after the early edit; every one of these steps is allowed. */
  const AFTERWARDS: seq<Action> :=
    [OperatorStart, OperatorSize, ManagerStart(true), ManagerStop, Connect(Registration("X", G, 3, 2))]
    + OPERATOR_PASS + [Edit(["a", "b"]), OperatorStart, OperatorSize]

  lemma AfterwardsAllowed(client: Client, s1: State)
    requires s1 == Registered4(client, {"A", "B", "X"}, 3).(cvc := Cvc(["a", "b", "c"], ["a", "b", "c", "x"], 1))
    ensures AllowedRun(s1, AFTERWARDS)
    ensures Run(s1, AFTERWARDS).cv.drf == 2 && |Run(s1, AFTERWARDS).cv.specKnown| == 3
  {
    hide EditDesired, OpSize, OpStart, MgrStart, OpFinish, OpDelete, Register, Run, AllowedRun, Known, AllowedEdit, AllowedRegistration;
    LowerX(client);
    XReturns(client);
    var back := XBackReached(client, s1);
    RemoveX(client);
    LowerC(client);
    OperatorPassRun(XBack(client));
    Harmless(XBack(client), OPERATOR_PASS);
    AllowedAppend(s1, back, OPERATOR_PASS);
    RunAppend(s1, back, OPERATOR_PASS);
    var r := XRemoved(client);
    var e := r.(cvc := Cvc(["a", "b"], ["a", "b", "c"], 3));
    Next(s1, back + OPERATOR_PASS, r, Edit(["a", "b"]), e);
    var acts := back + OPERATOR_PASS + [Edit(["a", "b"])];
    Next(s1, acts, e, OperatorStart, OpStart(e));
    Next(s1, acts + [OperatorStart], OpStart(e), OperatorSize, OpSize(OpStart(e)));
    assert acts + [OperatorStart] + [OperatorSize] == AFTERWARDS;
  }

  lemma XBackReached(client: Client, s1: State) returns (acts: seq<Action>)
    requires s1 == Registered4(client, {"A", "B", "X"}, 3).(cvc := Cvc(["a", "b", "c"], ["a", "b", "c", "x"], 1))
    ensures acts == [OperatorStart, OperatorSize, ManagerStart(true), ManagerStop, Connect(Registration("X", G, 3, 2))]
    ensures AllowedRun(s1, acts) && Run(s1, acts) == XBack(client)
  {
    hide *;
    acts := XLoweredReached(client, s1);
    acts := XReturnReached(client, s1, acts);
  }

  lemma XLoweredReached(client: Client, s1: State) returns (acts: seq<Action>)
    requires s1 == Registered4(client, {"A", "B", "X"}, 3).(cvc := Cvc(["a", "b", "c"], ["a", "b", "c", "x"], 1))
    ensures acts == [OperatorStart, OperatorSize]
    ensures AllowedRun(s1, acts) && Run(s1, acts) == XLowered(client)
  {
    hide OpSize, OpStart, Run, AllowedRun, Known;
    LowerX(client);
    NoSteps(s1);
    Next(s1, [], s1, OperatorStart, OpStart(s1));
    acts := [] + [OperatorStart];
    Next(s1, acts, OpStart(s1), OperatorSize, XLowered(client));
    acts := acts + [OperatorSize];
  }

  lemma XReturnReached(client: Client, s1: State, before: seq<Action>) returns (acts: seq<Action>)
    requires AllowedRun(s1, before) && Run(s1, before) == XLowered(client)
    ensures acts == before + [ManagerStart(true), ManagerStop, Connect(Registration("X", G, 3, 2))]
    ensures AllowedRun(s1, acts) && Run(s1, acts) == XBack(client)
  {
    hide MgrStart, Register, Run, AllowedRun, Known, AllowedRegistration;
    XReturns(client);
    var x := XLowered(client);
    Next(s1, before, x, ManagerStart(true), MgrStart(x, true));
    acts := before + [ManagerStart(true)];
    Next(s1, acts, MgrStart(x, true), ManagerStop, MgrStart(x, true).(mgr := MgrIdle));
    acts := acts + [ManagerStop];
    Next(s1, acts, MgrStart(x, true).(mgr := MgrIdle), Connect(Registration("X", G, 3, 2)), XBack(client));
    acts := acts + [Connect(Registration("X", G, 3, 2))];
  }

  /** Scaling down while a replica is unregistered leaves room for the removed
      one to come back; the next scale-down then leaves three known replicas
      under a desired factor of two. Every step but that one edit is allowed. */
  lemma UnregisteredScaleDownBreaksBound(client: Client) returns (before: seq<Action>)
    ensures Init(Bound4(client)) && AllowedRun(Bound4(client), before)
    ensures var s := Run(Bound4(client), before);
      var s1 := Step(s, Edit(["a", "b", "c"]));
      && !AllRegistered(s) && s1 != s
      && AllowedRun(s1, AFTERWARDS) && |Run(s1, AFTERWARDS).cv.specKnown| > Run(s1, AFTERWARDS).cv.drf
  {
    hide EditDesired, Run, AllowedRun, Init, Known;
    Bound4Init(client);
    before := ThreeOfFour(client);
    ShrinkToThree(client);
    var s1 := Registered4(client, {"A", "B", "X"}, 3).(cvc := Cvc(["a", "b", "c"], ["a", "b", "c", "x"], 1));
    AfterwardsAllowed(client, s1);
  }
}
