/** Why the replacement theorems ask for benign steps: runs that end with the
  claim of a device released that is still in use. */
module ReplacementLimits {
  import opened Wrappers
  import opened Lists
  import opened RaidGroups
  import opened CspiSync
  import opened Replacement
  import opened ReplacementInvariant

  /** A run of steps, benign or not. */
  ghost predicate Trace(states: seq<State>, acts: seq<Action>) {
    && |states| == |acts| + 1
    && forall i :: 0 <= i < |acts| ==> Step(states[i], acts[i], states[i + 1])
  }

  lemma TraceOne(s: State, a: Action, s': State) returns (states: seq<State>, acts: seq<Action>)
    requires Step(s, a, s')
    ensures Trace(states, acts) && states[0] == s && states[|acts|] == s'
  {
    hide Step;
    states, acts := [s, s'], [a];
  }

  lemma TraceMore(states: seq<State>, acts: seq<Action>, a: Action, s': State) returns (states': seq<State>, acts': seq<Action>)
    requires Trace(states, acts) && Step(states[|acts|], a, s')
    ensures Trace(states', acts') && states'[0] == states[0] && states'[|acts'|] == s'
    ensures acts' == acts + [a] && states'[|acts|] == states[|acts|]
  {
    hide Step;
    states', acts' := states + [s'], acts + [a];
    forall i | 0 <= i < |acts'| ensures Step(states'[i], acts'[i], states'[i + 1]) {
      if i < |acts| { assert Step(states[i], acts[i], states[i + 1]); }
    }
  }

  // ---------- what the edits below have in common ----------

  const HELD := Claim("c", None)
  const CAPACITY: map<Device, nat> := map["a" := 1, "c" := 1, "x" := 1]

  function Spec(groups: seq<Group>): PoolSpec { PoolSpec("mirror", "", groups, []) }

  lemma AllOfOne(g: Group)
    ensures AllDevices([Spec([g])]) == g
  {
    assert [g] + [] == [g];
    assert Flatten([g]) == g + Flatten([]);
    assert AllDevices([Spec([g])]) == g + AllDevices([]);
  }

  lemma AllOfTwo(g: Group, h: Group)
    ensures AllDevices([Spec([g, h])]) == g + h
  {
    assert [g, h] + [] == [g, h];
    assert [g, h][1..] == [h];
    assert Flatten([h]) == h + Flatten([]);
    assert Flatten([g, h]) == g + h;
    assert AllDevices([Spec([g, h])]) == (g + h) + AllDevices([]);
  }

  lemma WellFormedOne(g: Group)
    requires |g| >= 2 && Unique(g) && "" !in g
    ensures WellFormed([Spec([g])])
  {
    AllOfOne(g);
  }

  lemma WellFormedTwo(g: Group, h: Group)
    requires |g| >= 2 && |h| >= 2 && Unique(g + h) && "" !in g && "" !in h
    ensures WellFormed([Spec([g, h])])
  {
    AllOfTwo(g, h);
  }

  lemma OnlyFirstDiffers(x: Device, y: Device, b: Device)
    requires x != y && x != b && y != b
    ensures ListDiff([y, b], [x, b]) == [y] && ListDiff([x, b], [y, b]) == [x]
  {
    assert [y, b][1..] == [b] && [x, b][1..] == [b] && [b][1..] == [];
    assert ListDiff([b], [x, b]) == [] && ListDiff([b], [y, b]) == [];
  }

  lemma SelfDiff(g: Group)
    ensures ListDiff(g, g) == []
  {
    NothingMissing(g, g);
  }

  lemma {:induction false} NothingMissing(g: Group, h: Group)
    requires forall d :: d in g ==> d in h
    ensures ListDiff(g, h) == []
    decreases |g|
  {
    if g != [] { NothingMissing(g[1..], h); }
  }

  /** Replacing `y` by a device that is new to the CSPC and nobody's predecessor. */
  lemma ReplacementValid(env: Env, cspc: Cspc, x: Device, y: Device, b: Device)
    requires x != y && x != b && y != b && x !in AllDevices(cspc)
    requires !HasPredecessor(env, y) && !HasPredecessor(env, b)
    requires x in env.claims ==> env.claims[x].owner == env.cspcName
    requires !IsPredecessor(env, cspc, x)
    requires x in env.capacity && y in env.capacity && env.capacity[x] >= env.capacity[y]
    ensures ValidPair(env, cspc, [y, b], [x, b], "mirror")
  {
    hide ListDiff, IsPredecessor, HasPredecessor;
    OnlyFirstDiffers(x, y, b);
  }

  lemma Unchanged(env: Env, cspc: Cspc, g: Group)
    ensures ValidPair(env, cspc, g, g, "mirror")
  {
    SelfDiff(g);
  }

  /** The first group of the new list that shares a device with an old one. */
  lemma MatchFirst(o: Group, n: Group, rest: seq<Group>, d: Device)
    requires d in o && d in n
    ensures FirstOverlap(o, [n] + rest, 0)
  {
    assert Overlap(o, n);
  }

  // ---------- an edit that fails after its claim is annotated ----------

  const AB: Group := ["a", "b"]
  const XB: Group := ["x", "b"]
  const XZ: Group := ["x", "z"]
  const AZ: Group := ["a", "z"]

  const ONE := State("c", [Spec([AB])], 0, [[AB]], map["a" := HELD, "b" := HELD], map[])

  lemma OneInit()
    ensures Init(ONE)
  {
    WellFormedOne(AB);
    AllOfOne(AB);
    DevicesAre([Spec([AB])]);
  }

  /** x replaces a in the only group. */
  const REPLACE := Admit(0, [Spec([XB])], [[XB]], map["x" := "a"], CAPACITY)
  const ANNOTATED: map<Device, Claim> := ONE.claims["x" := Claim("c", Some("a"))]

  lemma PairXforA()
    ensures ValidPair(Env("c", ONE.claims, CAPACITY), [Spec([AB])], AB, XB, "mirror")
  {
    hide AllDevices;
    AllOfOne(AB);
    ReplacementValid(Env("c", ONE.claims, CAPACITY), [Spec([AB])], "x", "a", "b");
  }

  lemma ReplaceAdmitted()
    ensures Step(ONE, REPLACE, ONE.(reviews := map[0 := Review(0, [Spec([XB])], map["x" := "a"], {})]))
  {
    hide ValidPair, WellFormed, ListDiff;
    WellFormedOne(XB);
    PairXforA();
    OnlyFirstDiffers("x", "a", "b");
    var env := Env("c", ONE.claims, CAPACITY);
    MatchFirst(AB, XB, [], "b");
    assert [XB] + [] == [XB];
    assert Matching([AB], [XB], [XB]) && Matching([], [], []);
    ExpansionUnchecked(env, ONE.cspc, ONE.cspc[0], Spec([XB]), [XB]);
    assert Accepted(env, ONE.cspc, ONE.cspc[0], Spec([XB]), [XB], []);
    assert Swap(ONE.cspc, [[XB]], 0, 0, "x", "a");
  }

  const AFTER_ABORT := ONE.(claims := ANNOTATED)

  /** The pool grows by a group with the annotated device. */
  const GROW := Admit(0, [Spec([AB, XZ])], [[AB]], map[], CAPACITY)

  lemma GrowAdmitted()
    ensures Step(AFTER_ABORT, GROW, AFTER_ABORT.(reviews := map[0 := Review(0, [Spec([AB, XZ])], map[], {})]))
  {
    hide ValidPair, WellFormed, ListDiff;
    WellFormedTwo(AB, XZ);
    SelfDiff(AB);
    var env := Env("c", ANNOTATED, CAPACITY);
    Unchanged(env, ONE.cspc, AB);
    MatchFirst(AB, AB, [XZ], "a");
    assert [AB] + [XZ] == [AB, XZ];
    assert Matching([AB], [AB, XZ], [AB]) && Matching([], [], []);
    ExpansionUnchecked(env, ONE.cspc, ONE.cspc[0], Spec([AB, XZ]), [AB]);
    assert Accepted(env, ONE.cspc, ONE.cspc[0], Spec([AB, XZ]), [AB], []);
  }

  const GROWN := AFTER_ABORT.(cspc := [Spec([AB, XZ])], version := 1)
  const GROWN_CSPI := GROWN.(claims := ANNOTATED["z" := HELD], cspis := [[AB, XZ]])

  lemma ExpandStep()
    ensures Step(GROWN.(claims := ANNOTATED["z" := HELD]), Expand(0, {"x", "z"}), GROWN_CSPI)
  {
    assert [AB, XZ][1..] == [XZ] && [XZ][1..] == [];
    assert "a" in AB;
    assert Overlap(AB, [AB][0]);
    assert Present(AB, [AB]);
    assert !Present(XZ, [AB]);
    assert Elems(XZ) == {"x", "z"};
    assert Expanded([AB, XZ], [AB], {"x", "z"}) == Expanded([XZ], [AB], {"x", "z"}) == Expanded([], [AB] + [XZ], {"x", "z"});
    assert [AB] + [XZ] == [AB, XZ];
    assert [[AB]][0 := [AB, XZ]] == [[AB, XZ]];
  }

  /** An edit that fails after its claim is annotated, followed by an expansion
      with the annotated device, releases the claim of a device that the CSPC and
      the pool still use. */
  lemma AbandonedEditFreesDeviceInUse() returns (states: seq<State>, acts: seq<Action>)
    ensures Trace(states, acts) && Init(states[0])
    ensures var s := states[|acts|];
      "a" in Devices(s.cspc) && OnCspi(s.cspis, 0, "a") && "a" !in s.claims
  {
    hide Init, Trace, Devices, OnCspi, Step;
    OneInit();
    ReplaceAdmitted();
    states, acts := TraceOne(ONE, REPLACE, ONE.(reviews := map[0 := Review(0, [Spec([XB])], map["x" := "a"], {})]));
    AbandonSteps();
    states, acts := TraceMore(states, acts, ClaimIncoming(0, "x"),
      AFTER_ABORT.(reviews := map[0 := Review(0, [Spec([XB])], map["x" := "a"], {"x"})]));
    states, acts := TraceMore(states, acts, Abort(0), AFTER_ABORT);
    GrowAdmitted();
    states, acts := TraceMore(states, acts, GROW, AFTER_ABORT.(reviews := map[0 := Review(0, [Spec([AB, XZ])], map[], {})]));
    states, acts := TraceMore(states, acts, Commit(0), GROWN);
    GrownSteps();
    states, acts := TraceMore(states, acts, ClaimExpansion("z"), GROWN.(claims := ANNOTATED["z" := HELD]));
    ExpandStep();
    states, acts := TraceMore(states, acts, Expand(0, {"x", "z"}), GROWN_CSPI);
    states, acts := TraceMore(states, acts, ReleaseOld(0, "x", "x", {"x"}), GROWN_CSPI.(claims := GROWN_CSPI.claims - {"a"}));
  }

  lemma AbandonSteps()
    ensures Step(ONE.(reviews := map[0 := Review(0, [Spec([XB])], map["x" := "a"], {})]), ClaimIncoming(0, "x"),
      AFTER_ABORT.(reviews := map[0 := Review(0, [Spec([XB])], map["x" := "a"], {"x"})]))
    ensures Step(AFTER_ABORT.(reviews := map[0 := Review(0, [Spec([XB])], map["x" := "a"], {"x"})]), Abort(0), AFTER_ABORT)
    ensures Step(AFTER_ABORT.(reviews := map[0 := Review(0, [Spec([AB, XZ])], map[], {})]), Commit(0), GROWN)
  {
    assert {} + {"x"} == {"x"};
    assert map[0 := Review(0, [Spec([XB])], map["x" := "a"], {"x"})] - {0} == map[];
    assert map[0 := Review(0, [Spec([AB, XZ])], map[], {})] - {0} == map[];
    var none: map<Device, Device> := map[];
    assert none.Keys == {};
  }

  lemma GrownSteps()
    ensures Step(GROWN, ClaimExpansion("z"), GROWN.(claims := ANNOTATED["z" := HELD]))
    ensures Step(GROWN_CSPI, ReleaseOld(0, "x", "x", {"x"}), GROWN_CSPI.(claims := GROWN_CSPI.claims - {"a"}))
    ensures "a" in Devices(GROWN_CSPI.cspc) && OnCspi(GROWN_CSPI.cspis, 0, "a")
  {
    assert "a" in GROWN.cspc[0].data[0] && "z" in GROWN.cspc[0].data[1];
    assert "x" in GROWN_CSPI.cspis[0][1] && "a" in GROWN_CSPI.cspis[0][0];
  }

  // ---------- an edit that moves the outgoing device to a new group ----------

  /** x replaces a, and a new group takes a over. */
  const MOVE := Admit(0, [Spec([XB, AZ])], [[XB]], map["x" := "a"], CAPACITY)

  lemma MoveAdmitted()
    ensures Step(ONE, MOVE, ONE.(reviews := map[0 := Review(0, [Spec([XB, AZ])], map["x" := "a"], {})]))
  {
    hide ValidPair, WellFormed, ListDiff;
    WellFormedTwo(XB, AZ);
    PairXforA();
    OnlyFirstDiffers("x", "a", "b");
    var env := Env("c", ONE.claims, CAPACITY);
    MatchFirst(AB, XB, [AZ], "b");
    assert [XB] + [AZ] == [XB, AZ];
    assert Matching([AB], [XB, AZ], [XB]) && Matching([], [], []);
    ExpansionUnchecked(env, ONE.cspc, ONE.cspc[0], Spec([XB, AZ]), [XB]);
    assert Accepted(env, ONE.cspc, ONE.cspc[0], Spec([XB, AZ]), [XB], []);
    assert Swap(ONE.cspc, [[XB]], 0, 0, "x", "a");
  }

  const MOVED := AFTER_ABORT.(cspc := [Spec([XB, AZ])], version := 1)
  const MOVED_CSPI := MOVED.(cspis := [[XB]])

  lemma MoveSteps()
    ensures Step(ONE.(reviews := map[0 := Review(0, [Spec([XB, AZ])], map["x" := "a"], {})]), ClaimIncoming(0, "x"),
      AFTER_ABORT.(reviews := map[0 := Review(0, [Spec([XB, AZ])], map["x" := "a"], {"x"})]))
    ensures Step(AFTER_ABORT.(reviews := map[0 := Review(0, [Spec([XB, AZ])], map["x" := "a"], {"x"})]), Commit(0), MOVED)
    ensures Step(MOVED_CSPI, ReleaseOld(0, "x", "x", {"x"}), MOVED_CSPI.(claims := ANNOTATED - {"a"}))
    ensures "a" in Devices(MOVED_CSPI.cspc)
  {
    assert {} + {"x"} == {"x"};
    assert map["x" := "a"].Keys == {"x"};
    assert map[0 := Review(0, [Spec([XB, AZ])], map["x" := "a"], {"x"})] - {0} == map[];
    assert "x" in MOVED_CSPI.cspis[0][0];
    assert "a" in MOVED_CSPI.cspc[0].data[1];
  }

  /** The operator copies the exchange of a for x to the first group. */
  lemma AReplaced(rest: seq<Group>)
    ensures CopyGroup(XB, [AB] + rest, [XB] + rest, {"x"})
  {
    hide ListDiff;
    OnlyFirstDiffers("x", "a", "b");
    var insts := [AB] + rest;
    assert FindReplaced(XB, insts) == 0;
    assert AB[0 := "x"] == XB;
    assert Overwritten(AB, XB, "x", "a") by { assert AB[0] == "a"; }
    assert "x" in Elems(XB) - Elems(AB) && "a" in Elems(AB) - Elems(XB);
    assert insts[0 := XB] == [XB] + rest;
  }

  lemma MoveCopied()
    ensures Step(MOVED, Copy(0, [XB], {"x"}), MOVED_CSPI)
  {
    hide CopyGroup;
    AReplaced([]);
    assert [AB] + [] == [AB] && [XB] + [] == [XB];
    NothingToCopy();
    assert [XB, AZ][1..] == [AZ] && [AZ][1..] == [];
    assert CopyGroups([], [XB], [XB], {"x"});
    assert CopyGroups([AZ], [XB], [XB], {"x"});
    assert CopyGroups([XB, AZ], [AB], [XB], {"x"});
    assert [[AB]][0 := [XB]] == [[XB]];
  }

  lemma NothingToCopy()
    ensures CopyGroup(AZ, [XB], [XB], {"x"})
  {
    assert ListDiff(XB, AZ) == ["x", "b"] by {
      assert XB[1..] == ["b"] && ["b"][1..] == [];
      assert ListDiff(["b"], AZ) == ["b"];
    }
    assert FindReplaced(AZ, [XB]) == -1;
  }

  /** A single accepted edit, without any annotation left over from another one,
      releases the claim of a device that the CSPC still names. */
  lemma MovedDeviceLosesItsClaim() returns (states: seq<State>, acts: seq<Action>)
    ensures Trace(states, acts) && Init(states[0])
    ensures "a" in Devices(states[|acts|].cspc) && "a" !in states[|acts|].claims
  {
    hide Init, Trace, Devices, Step;
    OneInit();
    MoveAdmitted();
    states, acts := TraceOne(ONE, MOVE, ONE.(reviews := map[0 := Review(0, [Spec([XB, AZ])], map["x" := "a"], {})]));
    MoveSteps();
    states, acts := TraceMore(states, acts, ClaimIncoming(0, "x"),
      AFTER_ABORT.(reviews := map[0 := Review(0, [Spec([XB, AZ])], map["x" := "a"], {"x"})]));
    states, acts := TraceMore(states, acts, Commit(0), MOVED);
    MoveCopied();
    states, acts := TraceMore(states, acts, Copy(0, [XB], {"x"}), MOVED_CSPI);
    states, acts := TraceMore(states, acts, ReleaseOld(0, "x", "x", {"x"}), MOVED_CSPI.(claims := ANNOTATED - {"a"}));
  }

  // ---------- a device whose links cannot be read ----------

  const REPLACED := AFTER_ABORT.(cspc := [Spec([XB])], version := 1)
  const REPLACED_CSPI := REPLACED.(cspis := [[XB]])

  lemma ReplaceSteps()
    ensures Step(AFTER_ABORT.(reviews := map[0 := Review(0, [Spec([XB])], map["x" := "a"], {"x"})]), Commit(0), REPLACED)
    ensures Step(REPLACED_CSPI, ReleaseOld(0, "x", "", {""}), REPLACED_CSPI.(claims := ANNOTATED - {"a"}))
  {
    assert map["x" := "a"].Keys == {"x"};
    assert map[0 := Review(0, [Spec([XB])], map["x" := "a"], {"x"})] - {0} == map[];
    assert "x" in REPLACED_CSPI.cspis[0][0];
  }

  lemma ReplaceCopied()
    ensures Step(REPLACED, Copy(0, [XB], {"x"}), REPLACED_CSPI)
  {
    hide CopyGroup;
    AReplaced([]);
    assert [AB] + [] == [AB] && [XB] + [] == [XB];
    assert [XB][1..] == [];
    assert CopyGroups([], [XB], [XB], {"x"});
    assert CopyGroups([XB], [AB], [XB], {"x"});
    assert [[AB]][0 := [XB]] == [[XB]];
  }

  /** An ordinary replacement, in which the pool-manager cannot read the links of
      the incoming device: it looks for a vdev with the empty path, finds that of
      the raid group, and releases the old device, which the pool still uses. */
  lemma UnreadLinksFreeOldDevice() returns (states: seq<State>, acts: seq<Action>)
    ensures Trace(states, acts) && Init(states[0]) && |acts| > 0
    ensures acts[|acts| - 1] == ReleaseOld(0, "x", "", {""})
    ensures "a" in states[|acts| - 1].claims && "a" !in states[|acts|].claims
  {
    hide Init, Trace, Step;
    OneInit();
    ReplaceAdmitted();
    states, acts := TraceOne(ONE, REPLACE, ONE.(reviews := map[0 := Review(0, [Spec([XB])], map["x" := "a"], {})]));
    AbandonSteps();
    states, acts := TraceMore(states, acts, ClaimIncoming(0, "x"),
      AFTER_ABORT.(reviews := map[0 := Review(0, [Spec([XB])], map["x" := "a"], {"x"})]));
    ReplaceSteps();
    states, acts := TraceMore(states, acts, Commit(0), REPLACED);
    ReplaceCopied();
    states, acts := TraceMore(states, acts, Copy(0, [XB], {"x"}), REPLACED_CSPI);
    states, acts := TraceMore(states, acts, ReleaseOld(0, "x", "", {""}), REPLACED_CSPI.(claims := ANNOTATED - {"a"}));
  }

  // ---------- two edits under review at the same time ----------

  const CD: Group := ["c", "d"]
  const XD: Group := ["x", "d"]

  const TWO := State("c", [Spec([AB, CD])], 0, [[AB, CD]], map["a" := HELD, "b" := HELD, "c" := HELD, "d" := HELD], map[])

  lemma TwoInit()
    ensures Init(TWO)
  {
    WellFormedTwo(AB, CD);
    AllOfTwo(AB, CD);
    DevicesAre([Spec([AB, CD])]);
  }

  const FOR_A := Review(0, [Spec([XB, CD])], map["x" := "a"], {})
  const FOR_C := Review(0, [Spec([AB, XD])], map["x" := "c"], {})

  lemma PairsOfTwo()
    ensures ValidPair(Env("c", TWO.claims, CAPACITY), TWO.cspc, AB, XB, "mirror")
    ensures ValidPair(Env("c", TWO.claims, CAPACITY), TWO.cspc, CD, XD, "mirror")
    ensures ValidPair(Env("c", TWO.claims, CAPACITY), TWO.cspc, AB, AB, "mirror")
    ensures ValidPair(Env("c", TWO.claims, CAPACITY), TWO.cspc, CD, CD, "mirror")
  {
    hide AllDevices, ValidPair;
    AllOfTwo(AB, CD);
    var env := Env("c", TWO.claims, CAPACITY);
    ReplacementValid(env, TWO.cspc, "x", "a", "b");
    ReplacementValid(env, TWO.cspc, "x", "c", "d");
    Unchanged(env, TWO.cspc, AB);
    Unchanged(env, TWO.cspc, CD);
  }

  lemma ForAAdmitted()
    ensures CanAdmit(TWO, Admit(0, [Spec([XB, CD])], [[XB, CD]], map["x" := "a"], CAPACITY))
  {
    hide ValidPair, WellFormed, ListDiff;
    WellFormedTwo(XB, CD);
    PairsOfTwo();
    OnlyFirstDiffers("x", "a", "b");
    SelfDiff(CD);
    var env := Env("c", TWO.claims, CAPACITY);
    MatchFirst(AB, XB, [CD], "b");
    assert [XB] + [CD] == [XB, CD];
    assert FirstOverlap(CD, [XB, CD], 1) by { assert "c" in CD && !Overlap(CD, XB); }
    assert Matching([AB, CD], [XB, CD], [XB, CD]) && Matching([], [], []);
    ExpansionUnchecked(env, TWO.cspc, TWO.cspc[0], Spec([XB, CD]), [XB, CD]);
    assert Accepted(env, TWO.cspc, TWO.cspc[0], Spec([XB, CD]), [XB, CD], []);
    assert Swap(TWO.cspc, [[XB, CD]], 0, 0, "x", "a");
  }

  lemma ForCAdmitted()
    ensures CanAdmit(TWO.(reviews := map[0 := FOR_A]), Admit(1, [Spec([AB, XD])], [[AB, XD]], map["x" := "c"], CAPACITY))
  {
    hide ValidPair, WellFormed, ListDiff;
    WellFormedTwo(AB, XD);
    PairsOfTwo();
    OnlyFirstDiffers("x", "c", "d");
    SelfDiff(AB);
    var env := Env("c", TWO.claims, CAPACITY);
    MatchFirst(AB, AB, [XD], "a");
    assert [AB] + [XD] == [AB, XD];
    assert FirstOverlap(CD, [AB, XD], 1) by { assert "d" in CD && "d" in XD && !Overlap(CD, AB); }
    assert Matching([AB, CD], [AB, XD], [AB, XD]) && Matching([], [], []);
    ExpansionUnchecked(env, TWO.cspc, TWO.cspc[0], Spec([AB, XD]), [AB, XD]);
    assert Accepted(env, TWO.cspc, TWO.cspc[0], Spec([AB, XD]), [AB, XD], []);
    assert Swap(TWO.cspc, [[AB, XD]], 0, 1, "x", "c");
  }

  const BOTH := TWO.(reviews := map[0 := FOR_A, 1 := FOR_C])
  const FIRST_CLAIMED := BOTH.(claims := TWO.claims["x" := Claim("c", Some("a"))], reviews := map[0 := FOR_A.(claimed := {"x"}), 1 := FOR_C])
  const FIRST_STORED := FIRST_CLAIMED.(cspc := [Spec([XB, CD])], version := 1, reviews := map[1 := FOR_C])
  const OVERWRITTEN := FIRST_STORED.(claims := TWO.claims["x" := Claim("c", Some("c"))], reviews := map[1 := FOR_C.(claimed := {"x"})])
  const COPIED := OVERWRITTEN.(cspis := [[XB, CD]])

  lemma FirstIsClaimed()
    ensures Step(BOTH, ClaimIncoming(0, "x"), FIRST_CLAIMED)
  {
    assert {} + {"x"} == {"x"};
    assert BOTH.reviews[0 := FOR_A.(claimed := {"x"})] == FIRST_CLAIMED.reviews;
  }

  lemma FirstIsStored()
    ensures Step(FIRST_CLAIMED, Commit(0), FIRST_STORED)
  {
    assert map["x" := "a"].Keys == {"x"};
    assert FIRST_CLAIMED.reviews - {0} == FIRST_STORED.reviews;
  }

  lemma SecondOverwrites()
    ensures Step(FIRST_STORED, ClaimIncoming(1, "x"), OVERWRITTEN)
  {
    assert {} + {"x"} == {"x"};
    assert FIRST_STORED.claims["x" := Claim("c", Some("c"))] == OVERWRITTEN.claims;
  }

  const BOTH_CLAIMED := FIRST_CLAIMED.(claims := OVERWRITTEN.claims,
    reviews := map[0 := FOR_A.(claimed := {"x"}), 1 := FOR_C.(claimed := {"x"})])

  lemma SecondOverwritesEarly()
    ensures Step(FIRST_CLAIMED, ClaimIncoming(1, "x"), BOTH_CLAIMED)
  {
    assert {} + {"x"} == {"x"};
    assert FIRST_CLAIMED.claims["x" := Claim("c", Some("c"))] == OVERWRITTEN.claims;
    assert FIRST_CLAIMED.reviews[1 := FOR_C.(claimed := {"x"})] == BOTH_CLAIMED.reviews;
  }

  lemma FirstIsStoredLate()
    ensures Step(BOTH_CLAIMED, Commit(0), OVERWRITTEN)
  {
    assert map["x" := "a"].Keys == {"x"};
    assert BOTH_CLAIMED.reviews - {0} == OVERWRITTEN.reviews;
  }

  lemma OverlapCopied()
    ensures Step(OVERWRITTEN, Copy(0, [XB, CD], {"x"}), COPIED)
  {
    hide CopyGroup;
    AReplaced([CD]);
    assert [AB] + [CD] == [AB, CD] && [XB] + [CD] == [XB, CD];
    NothingMoreToCopy();
    assert [XB, CD][1..] == [CD] && [CD][1..] == [];
    assert CopyGroups([], [XB, CD], [XB, CD], {"x"});
    assert CopyGroups([CD], [XB, CD], [XB, CD], {"x"});
    assert CopyGroups([XB, CD], [AB, CD], [XB, CD], {"x"});
    assert [[AB, CD]][0 := [XB, CD]] == [[XB, CD]];
  }

  lemma NothingMoreToCopy()
    ensures CopyGroup(CD, [XB, CD], [XB, CD], {"x"})
  {
    assert ListDiff(XB, CD) == ["x", "b"] by {
      assert XB[1..] == ["b"] && ["b"][1..] == [];
      assert ListDiff(["b"], CD) == ["b"];
    }
    SelfDiff(CD);
    assert FindReplaced(CD, [XB, CD]) == -1;
  }

  lemma OverlapReleases()
    ensures Step(COPIED, ReleaseOld(0, "x", "x", {"x"}), COPIED.(claims := COPIED.claims - {"c"}))
    ensures "c" in Devices(COPIED.cspc) && OnCspi(COPIED.cspis, 0, "c")
  {
    assert "x" in COPIED.cspis[0][0] && "c" in COPIED.cspis[0][1] && "c" in COPIED.cspc[0].data[1];
  }

  lemma BothAdmitted()
    ensures Step(TWO, Admit(0, [Spec([XB, CD])], [[XB, CD]], map["x" := "a"], CAPACITY), TWO.(reviews := map[0 := FOR_A]))
    ensures Step(TWO.(reviews := map[0 := FOR_A]), Admit(1, [Spec([AB, XD])], [[AB, XD]], map["x" := "c"], CAPACITY), BOTH)
  {
    hide CanAdmit;
    ForAAdmitted();
    ForCAdmitted();
    assert map[0 := FOR_A][1 := FOR_C] == map[0 := FOR_A, 1 := FOR_C];
  }

  /** The rest of either run. */
  lemma OverlapEnds(states: seq<State>, acts: seq<Action>) returns (states': seq<State>, acts': seq<Action>)
    requires Trace(states, acts) && states[|acts|] == OVERWRITTEN
    ensures Trace(states', acts') && states'[0] == states[0]
    ensures var s := states'[|acts'|];
      "c" in Devices(s.cspc) && OnCspi(s.cspis, 0, "c") && "c" !in s.claims
  {
    hide Trace, Devices, OnCspi, Step;
    OverlapCopied();
    states', acts' := TraceMore(states, acts, Copy(0, [XB, CD], {"x"}), COPIED);
    OverlapReleases();
    states', acts' := TraceMore(states', acts', ReleaseOld(0, "x", "x", {"x"}), COPIED.(claims := COPIED.claims - {"c"}));
  }

  lemma OverlapStarts() returns (states: seq<State>, acts: seq<Action>)
    ensures Trace(states, acts) && Init(states[0]) && states[|acts|] == FIRST_CLAIMED
  {
    hide Init, Trace, Step;
    TwoInit();
    BothAdmitted();
    states, acts := TraceOne(TWO, Admit(0, [Spec([XB, CD])], [[XB, CD]], map["x" := "a"], CAPACITY), TWO.(reviews := map[0 := FOR_A]));
    states, acts := TraceMore(states, acts, Admit(1, [Spec([AB, XD])], [[AB, XD]], map["x" := "c"], CAPACITY), BOTH);
    FirstIsClaimed();
    states, acts := TraceMore(states, acts, ClaimIncoming(0, "x"), FIRST_CLAIMED);
  }

  /** Two edits validated against the same CSPC name the same incoming device. The
      first is stored; the second overwrites the annotation before it is refused,
      and a device that its group still uses loses its claim. */
  lemma OverlappingReviewsFreeDeviceInUse() returns (states: seq<State>, acts: seq<Action>)
    ensures Trace(states, acts) && Init(states[0])
    ensures var s := states[|acts|];
      "c" in Devices(s.cspc) && OnCspi(s.cspis, 0, "c") && "c" !in s.claims
  {
    hide Init, Trace, Devices, OnCspi, Step;
    states, acts := OverlapStarts();
    FirstIsStored();
    states, acts := TraceMore(states, acts, Commit(0), FIRST_STORED);
    SecondOverwrites();
    states, acts := TraceMore(states, acts, ClaimIncoming(1, "x"), OVERWRITTEN);
    states, acts := OverlapEnds(states, acts);
  }

  /** The same when the second edit overwrites the annotation before the first is
      stored. */
  lemma OverwrittenReviewFreesDeviceInUse() returns (states: seq<State>, acts: seq<Action>)
    ensures Trace(states, acts) && Init(states[0])
    ensures var s := states[|acts|];
      "c" in Devices(s.cspc) && OnCspi(s.cspis, 0, "c") && "c" !in s.claims
  {
    hide Init, Trace, Devices, OnCspi, Step;
    states, acts := OverlapStarts();
    SecondOverwritesEarly();
    states, acts := TraceMore(states, acts, ClaimIncoming(1, "x"), BOTH_CLAIMED);
    FirstIsStoredLate();
    states, acts := TraceMore(states, acts, Commit(0), OVERWRITTEN);
    states, acts := OverlapEnds(states, acts);
  }
}
