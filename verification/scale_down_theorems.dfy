/** The main results on scale-down, over all runs of the four actors. */
module ScaleDownTheorems {
  import opened Lists
  import opened CvcAdmission
  import opened VolumeScaling
  import opened ScaleDown
  import Quorum

  lemma {:induction false} RunKeepsTracked(s: State, acts: seq<Action>)
    requires Tracked(s) && AllowedRun(s, acts)
    ensures Tracked(Run(s, acts))
    decreases |acts|
  {
    if acts != [] {
      StepKeepsTracked(s, acts[0]);
      RunKeepsTracked(Step(s, acts[0]), acts[1..]);
    }
  }

  /** In every allowed run at most `drf` replicas are known to the spec. */
  lemma KnownWithinDrfInEveryRun(s: State, acts: seq<Action>)
    requires Init(s) && AllowedRun(s, acts)
    ensures |Run(s, acts).cv.specKnown| <= Run(s, acts).cv.drf
  {
    hide Inv, Replicas, Owned, Passes;
    InitTracked(s);
    RunKeepsTracked(s, acts);
  }

  // ---------- order ----------

  /** A CVR is deleted only when its replica has left both known maps. */
  lemma CvrDeletedOnlyWhenForgotten(s: State, a: Action, p: Pool)
    requires Tracked(s) && Live(s, p)
    requires p in Step(s, a).cvrs && Step(s, a).cvrs[p].deleting
    ensures s.cvrs[p].id !in s.cv.specKnown && s.cvrs[p].id !in s.cv.statusKnown
  {
    hide Replicas, Owned;
    assert a.OperatorDelete? && s.op.DownSettled?;
    InvLists(s);
    SameRemoved(s.cvc, s.op.snap);
    ShrinkingPhase(s);
  }

  /** A CVR disappears only after it was deleted. */
  lemma CvrGoneOnlyAfterDeletion(s: State, a: Action, p: Pool)
    requires p in s.cvrs && p !in Step(s, a).cvrs
    ensures s.cvrs[p].deleting
  {
  }

  /** The status forgets a replica only after the target accepted a drf command
      for the current factor whose replica list leaves it out. */
  lemma StatusForgetsOnlyAfterTarget(s: State, a: Action, id: Id)
    requires Inv(s) && id in s.cv.statusKnown && id !in Step(s, a).cv.statusKnown
    ensures s.target == Target(s.cv.drf, s.cv.specKnown.Keys) && id !in s.target.replicas
  {
    hide PoolLists, OperatorOk, SubMap;
    if !a.Connect? && !a.ManagerFinish? { StatusWriters(s, a); }
  }

  lemma StatusWriters(s: State, a: Action)
    requires !a.Connect? && !a.ManagerFinish?
    ensures Step(s, a).cv.statusKnown == s.cv.statusKnown
  {
    hide ListDiff, Admitted, Elems;
  }

  /** Once the factor is lowered, the known set is full, so only replicas that
      are known can register... */
  lemma ForgottenCannotReturn(s: State, r: Registration)
    requires Tracked(s) && Shrinking(s.cvc) && Lowered(s)
    ensures RegistrationAccepted(s.cv, r) ==> r.id in s.cv.specKnown
  {
    hide Replicas, Owned, Passes;
    InvLists(s);
    ListShape(s.cvc);
    ShrinkingPhase(s);
  }

  /** Who writes what: the known maps and the desired factor. */
  lemma KnownWriters(s: State, a: Action)
    requires !a.Connect? && !a.ManagerFinish? && !(a.OperatorSize? && AboutToLower(s))
    ensures Step(s, a).cv.specKnown == s.cv.specKnown
    ensures Step(s, a).cv.statusKnown == s.cv.statusKnown
  {
    hide ListDiff, Admitted, Elems;
    StatusWriters(s, a);
  }

  lemma FactorStaysLowered(s: State, a: Action)
    requires Inv(s) && Shrinking(s.cvc) && Lowered(s)
    ensures Lowered(Step(s, a))
  {
    hide PoolLists, SubMap;
  }

  /** ...and until the scale-down is recorded no step changes that set. */
  lemma KnownSetFrozen(s: State, a: Action)
    requires Tracked(s) && Shrinking(s.cvc) && Lowered(s)
    ensures Lowered(Step(s, a))
    ensures Step(s, a).cv.specKnown.Keys == s.cv.specKnown.Keys
    ensures Step(s, a).cv.statusKnown.Keys <= s.cv.statusKnown.Keys
  {
    hide Replicas, Owned, Passes, Factors, PoolLists;
    FactorStaysLowered(s, a);
    InvLists(s);
    if a.Connect? {
      ForgottenCannotReturn(s, a.r);
      hide Inv;
      var s' := Register(s, a.r);
      if s'.cv != s.cv {
        assert s'.cv.specKnown.Keys == s.cv.specKnown.Keys + {a.r.id};
        assert s'.cv.statusKnown.Keys == s.cv.statusKnown.Keys + {a.r.id};
      }
    } else if a.ManagerFinish? {
      var s' := MgrFinish(s);
      assert s'.cv.specKnown == s.cv.specKnown;
      assert s'.cv.statusKnown == s.cv.statusKnown || s'.cv.statusKnown == s.cv.specKnown;
    } else {
      KnownWriters(s, a);
    }
  }

  // ---------- quorums ----------

  /** When the manager lowers the replication factor, every write quorum of the
      old configuration meets every quorum of the new one. */
  lemma QuorumsMeetAtReconfiguration(s: State, a: Action, q: set<Id>, q': set<Id>)
    requires Tracked(s) && Allowed(s, a) && Step(s, a).cv.rf < s.cv.rf
    requires q <= s.cv.statusKnown.Keys && |q| >= s.cv.cf
    requires q' <= Step(s, a).cv.specKnown.Keys && |q'| >= Step(s, a).cv.cf
    ensures |s.cv.statusKnown| == s.cv.rf == Step(s, a).cv.rf + 1
    ensures |Step(s, a).cv.specKnown| == Step(s, a).cv.rf
    ensures exists id :: id in q && id in q'
  {
    hide Replicas, Owned, Passes, Unique, ListDiff;
    var s' := Step(s, a);
    assert a.ManagerStart? && s'.cv.rf == s.cv.drf && s'.cv.specKnown == s.cv.specKnown;
    InvLists(s);
    ListShape(s.cvc);
    if !Shrinking(s.cvc) { NotShrinking(s); } else { ShrinkingPhase(s); }
    var id := s.cvrs[RemovedPools(s.cvc)[0]].id;
    assert s.cv.statusKnown.Keys - {id} == s.cv.specKnown.Keys;
    SubMapCard(s.cv);
    Quorum.QuorumsMeetAcrossOneChange(s.cv.statusKnown.Keys, id, q, q');
  }

  /** The same when a replica joins and the factor grows by one. */
  lemma QuorumsMeetAtRegistration(s: State, r: Registration, q: set<Id>, q': set<Id>)
    requires Tracked(s) && RegistrationAccepted(s.cv, r) && AllowedRegistration(s, r)
    requires |s.cv.specKnown| == s.cv.rf && r.id !in s.cv.specKnown && r.rf == s.cv.rf + 1
    requires q <= s.cv.specKnown.Keys && |q| >= s.cv.cf
    requires q' <= Register(s, r).cv.specKnown.Keys && |q'| >= Register(s, r).cv.cf
    ensures exists id :: id in q && id in q'
  {
    hide Inv, Replicas, Owned, Passes;
    var all := Register(s, r).cv.specKnown.Keys;
    assert all == s.cv.specKnown.Keys + {r.id};
    assert all - {r.id} == s.cv.specKnown.Keys;
    assert |all| == s.cv.rf + 1;
    Quorum.QuorumsMeetAcrossOneChange(all, r.id, q', q);
  }

  // ---------- every run ----------

  /** The order of a scale-down, whatever step `a` follows whatever run: a CVR is
      deleted only when both maps have forgotten its replica, the status forgets
      one only after the target dropped it, and once the factor is lowered no
      forgotten replica comes back. */
  lemma ScaleDownOrderInEveryRun(s0: State, acts: seq<Action>, a: Action, p: Pool, id: Id)
    requires Init(s0) && AllowedRun(s0, acts)
    ensures var s := Run(s0, acts);
      var s' := Step(s, a);
      && (Live(s, p) && p in s'.cvrs && s'.cvrs[p].deleting ==>
            s.cvrs[p].id !in s.cv.specKnown && s.cvrs[p].id !in s.cv.statusKnown)
      && (id in s.cv.statusKnown && id !in s'.cv.statusKnown ==>
            s.target == Target(s.cv.drf, s.cv.specKnown.Keys) && id !in s.target.replicas)
      && (Shrinking(s.cvc) && Lowered(s) ==>
            s'.cv.specKnown.Keys == s.cv.specKnown.Keys && s'.cv.statusKnown.Keys <= s.cv.statusKnown.Keys)
  {
    hide Step, Run, Init, Inv, Replicas, Owned, Passes, Factors, AllowedRun;
    InitTracked(s0);
    RunKeepsTracked(s0, acts);
    var s := Run(s0, acts);
    if Live(s, p) && p in Step(s, a).cvrs && Step(s, a).cvrs[p].deleting {
      CvrDeletedOnlyWhenForgotten(s, a, p);
    }
    if id in s.cv.statusKnown && id !in Step(s, a).cv.statusKnown {
      StatusForgetsOnlyAfterTarget(s, a, id);
    }
    if Shrinking(s.cvc) && Lowered(s) {
      KnownSetFrozen(s, a);
    }
  }

  /** Quorum intersection in every run: a step that lowers the replication factor
      lowers it by one, and no two majorities across it are disjoint. */
  lemma QuorumsMeetInEveryRun(s0: State, acts: seq<Action>, a: Action, q: set<Id>, q': set<Id>)
    requires Init(s0) && AllowedRun(s0, acts) && Allowed(Run(s0, acts), a)
    requires Step(Run(s0, acts), a).cv.rf < Run(s0, acts).cv.rf
    requires q <= Run(s0, acts).cv.statusKnown.Keys && |q| >= Run(s0, acts).cv.cf
    requires q' <= Step(Run(s0, acts), a).cv.specKnown.Keys && |q'| >= Step(Run(s0, acts), a).cv.cf
    ensures Run(s0, acts).cv.rf == Step(Run(s0, acts), a).cv.rf + 1
    ensures exists id :: id in q && id in q'
  {
    hide Step, Run, Init, Inv, Replicas, Owned, Passes, Factors, AllowedRun, Allowed;
    InitTracked(s0);
    RunKeepsTracked(s0, acts);
    QuorumsMeetAtReconfiguration(Run(s0, acts), a, q, q');
  }

  lemma {:induction false} AllowedPrefix(s: State, acts: seq<Action>, i: nat)
    requires AllowedRun(s, acts) && i < |acts|
    ensures AllowedRun(s, acts[..i]) && Allowed(Run(s, acts[..i]), acts[i])
    ensures Run(s, acts[..i + 1]) == Step(Run(s, acts[..i]), acts[i])
    decreases i
  {
    hide Step, Allowed;
    if i == 0 {
      assert acts[..0] == [] && acts[..1] == [acts[0]];
      assert ([acts[0]])[1..] == [];
      assert Run(Step(s, acts[0]), []) == Step(s, acts[0]);
    } else {
      var rest := acts[1..];
      assert acts[..i][1..] == rest[..i - 1] && acts[..i + 1][1..] == rest[..i];
      AllowedPrefix(Step(s, acts[0]), rest, i - 1);
    }
  }

  /** A configuration: the replicas a write may reach and the size of a quorum. */
  datatype Config = Config(replicas: set<Id>, quorum: nat)

  ghost predicate IsQuorum(c: Config, q: set<Id>) { q <= c.replicas && |q| >= c.quorum }

  /** The configuration before and after step `i` of a run that lowers the
      replication factor. */
  ghost function Before(s0: State, acts: seq<Action>, i: nat): Config
    requires i < |acts|
  {
    var s := Run(s0, acts[..i]);
    Config(s.cv.statusKnown.Keys, s.cv.cf)
  }

  ghost function After(s0: State, acts: seq<Action>, i: nat): Config
    requires i < |acts|
  {
    var s := Run(s0, acts[..i + 1]);
    Config(s.cv.specKnown.Keys, s.cv.cf)
  }

  ghost predicate Lowers(s0: State, acts: seq<Action>, i: nat)
    requires i < |acts|
  {
    Run(s0, acts[..i + 1]).cv.rf < Run(s0, acts[..i]).cv.rf
  }

  /** Along any run, with any number of scale-downs in it, every one of them
      takes one replica out of the configuration, and every quorum before meets
      every quorum after. */
  lemma QuorumsMeetAlongRun(s0: State, acts: seq<Action>, i: nat, q: set<Id>, q': set<Id>)
    requires Init(s0) && AllowedRun(s0, acts) && i < |acts| && Lowers(s0, acts, i)
    requires IsQuorum(Before(s0, acts, i), q) && IsQuorum(After(s0, acts, i), q')
    ensures After(s0, acts, i).replicas <= Before(s0, acts, i).replicas
    ensures |Before(s0, acts, i).replicas| == |After(s0, acts, i).replicas| + 1
    ensures exists id :: id in q && id in q'
  {
    hide Step, Run, Init, Inv, Replicas, Owned, Passes, Factors, AllowedRun, Allowed;
    AllowedPrefix(s0, acts, i);
    InitTracked(s0);
    RunKeepsTracked(s0, acts[..i]);
    var s := Run(s0, acts[..i]);
    QuorumsMeetAtReconfiguration(s, acts[i], q, q');
    LoweringDropsOne(s, acts[i]);
  }

  lemma LoweringDropsOne(s: State, a: Action)
    requires Tracked(s) && Step(s, a).cv.rf < s.cv.rf && |s.cv.statusKnown| == Step(s, a).cv.rf + 1
    requires |Step(s, a).cv.specKnown| == Step(s, a).cv.rf && Allowed(s, a)
    ensures Step(s, a).cv.specKnown.Keys <= s.cv.statusKnown.Keys
    ensures |s.cv.statusKnown.Keys| == |Step(s, a).cv.specKnown.Keys| + 1
  {
    hide Replicas, Owned, Passes, Factors;
    assert a.ManagerStart? && Step(s, a).cv.specKnown == s.cv.specKnown;
    InvLists(s);
  }
}
