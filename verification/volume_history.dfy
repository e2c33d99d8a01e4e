/** What the history of a run explains: which registration a known replica comes
  from, and which health check a forgotten one. */
module VolumeHistory {
  import opened Lists
  import opened CvcAdmission
  import opened VolumeScaling

  lemma RunSnoc(s: State, acts: seq<Action>, n: nat)
    requires n < |acts|
    ensures Run(s, acts[..n + 1]) == Step(Run(s, acts[..n]), acts[n])
  {
    hide Step;
    assert acts[..n + 1] == acts[..n] + [acts[n]];
    RunAppend(s, acts[..n], [acts[n]]);
    var t := Run(s, acts[..n]);
    assert [acts[n]][1..] == [];
    assert Run(Step(t, acts[n]), []) == Step(t, acts[n]);
  }

  // ---------- registrations ----------

  /** Step `i` of the run is an accepted registration of `id`. */
  ghost predicate RegistersAt(s: State, acts: seq<Action>, i: int, id: Id) {
    && 0 <= i < |acts| && acts[i].Connect? && acts[i].r.id == id
    && RegistrationAccepted(Run(s, acts[..i]).cv, acts[i].r)
  }

  /** The last accepted registration of `id` in the first `n` steps is step `i`. */
  ghost predicate LastRegistration(s: State, acts: seq<Action>, n: nat, i: int, id: Id) {
    && RegistersAt(s, acts, i, id) && i < n
    && forall j :: i < j < n ==> !RegistersAt(s, acts, j, id)
  }

  /** A step that does not register `id` gives it no new guid. */
  lemma KnownFrom(s: State, a: Action, id: Id)
    requires ManagerOk(s) && SubMap(s.cv.specKnown, s.cv.statusKnown)
    requires !(a.Connect? && a.r.id == id && RegistrationAccepted(s.cv, a.r))
    ensures id in Step(s, a).cv.specKnown ==> id in s.cv.specKnown && Step(s, a).cv.specKnown[id] == s.cv.specKnown[id]
    ensures id in Step(s, a).cv.statusKnown ==> id in s.cv.statusKnown && Step(s, a).cv.statusKnown[id] == s.cv.statusKnown[id]
  {
    hide ListDiff, Admitted;
  }

  /** In every run of a volume from its binding, the guid known for a replica, in
      the spec and in the status, is the one of its last accepted registration. */
  lemma {:induction false} GuidOfLastRegistration(s: State, acts: seq<Action>, n: nat, id: Id) returns (i: int)
    requires Init(s) && n <= |acts| && id in Run(s, acts[..n]).cv.statusKnown
    ensures LastRegistration(s, acts, n, i, id)
    ensures Run(s, acts[..n]).cv.statusKnown[id] == acts[i].r.guid
    ensures id in Run(s, acts[..n]).cv.specKnown ==> Run(s, acts[..n]).cv.specKnown[id] == acts[i].r.guid
    decreases n
  {
    hide Step, Inv, Init;
    InitFacts(s);
    assert acts[..0] == [];
    if n > 0 {
      RunSnoc(s, acts, n - 1);
      var t, a := Run(s, acts[..n - 1]), acts[n - 1];
      RunKeepsInv(s, acts[..n - 1]);
      RunKeepsInv(s, acts[..n]);
      SpecInStatus(t);
      SpecInStatus(Run(s, acts[..n]));
      if RegistersAt(s, acts, n - 1, id) {
        i := n - 1;
        Recorded(t, a.r);
      } else {
        KnownFrom(t, a, id);
        i := GuidOfLastRegistration(s, acts, n - 1, id);
      }
    }
  }

  lemma InitFacts(s: State)
    requires Init(s)
    ensures Inv(s) && s.cv.statusKnown == map[]
  {
    InitInv(s);
  }

  lemma SpecInStatus(s: State)
    requires Inv(s)
    ensures SubMap(s.cv.specKnown, s.cv.statusKnown) && ManagerOk(s)
  {
  }

  /** What an accepted registration records: the guid in both maps, the factors it
      brings, and nothing else. */
  lemma Recorded(s: State, r: Registration)
    requires RegistrationAccepted(s.cv, r)
    ensures var cv := Step(s, Connect(r)).cv;
      && cv.specKnown == s.cv.specKnown[r.id := r.guid] && cv.statusKnown == s.cv.statusKnown[r.id := r.guid]
      && cv.rf == r.rf && cv.cf == r.cf && cv.drf == s.cv.drf
  {
  }

  // ---------- the health check ----------

  /** The replication factor is lowered only by a manager that has found the volume
      and the replicas that stay healthy; only such a one goes on to the target. */
  lemma LoweredOnlyWhenHealthy(s: State, a: Action)
    requires ManagerOk(s)
    ensures Step(s, a).cv.rf < s.cv.rf ==> a == ManagerStart(true)
    ensures Step(s, a).mgr.Shrunk? && !s.mgr.Shrunk? ==> a == ManagerStart(true) && s.mgr == MgrIdle
    ensures Step(s, a).mgr.Commanded? && !s.mgr.Commanded? ==> a == ManagerCommand(true) && s.mgr.Shrunk?
  {
    hide ListDiff, Admitted, Elems;
  }

  /** The pass of the manager that is under way after `n` steps began with a
      successful health check at step `i`. */
  ghost predicate CheckedSince(s: State, acts: seq<Action>, i: int, n: nat) {
    && 0 <= i < n <= |acts| && acts[i] == ManagerStart(true) && Run(s, acts[..i]).mgr == MgrIdle
    && forall j :: i < j <= n ==> Removing(Run(s, acts[..j]))
  }

  predicate Removing(s: State) { s.mgr.Shrunk? || s.mgr.Commanded? }

  lemma {:induction false} RemovalWasChecked(s: State, acts: seq<Action>, n: nat) returns (i: int)
    requires Init(s) && n <= |acts| && Removing(Run(s, acts[..n]))
    ensures CheckedSince(s, acts, i, n)
    decreases n
  {
    hide Step, Inv, Init;
    InitFacts(s);
    InitIdle(s);
    assert acts[..0] == [];
    if n > 0 {
      RunSnoc(s, acts, n - 1);
      var t := Run(s, acts[..n - 1]);
      RunKeepsInv(s, acts[..n - 1]);
      SpecInStatus(t);
      LoweredOnlyWhenHealthy(t, acts[n - 1]);
      if Removing(t) {
        i := RemovalWasChecked(s, acts, n - 1);
      } else {
        i := n - 1;
      }
    }
  }

  lemma InitIdle(s: State)
    requires Init(s)
    ensures s.mgr == MgrIdle
  {
  }

  /** In every run the status forgets a replica only in a pass of the manager that
      began with a successful health check and commanded the target without it. */
  lemma ForgottenOnlyAfterHealthCheck(s: State, acts: seq<Action>, n: nat, id: Id) returns (i: int)
    requires Init(s) && n < |acts|
    requires id in Run(s, acts[..n]).cv.statusKnown && id !in Run(s, acts[..n + 1]).cv.statusKnown
    ensures CheckedSince(s, acts, i, n) && acts[n] == ManagerFinish
    ensures Run(s, acts[..n]).target == Target(Run(s, acts[..n]).cv.drf, Run(s, acts[..n]).cv.specKnown.Keys)
    ensures id !in Run(s, acts[..n]).target.replicas
  {
    hide Step, Inv, Init;
    InitFacts(s);
    RunSnoc(s, acts, n);
    var t := Run(s, acts[..n]);
    RunKeepsInv(s, acts[..n]);
    SpecInStatus(t);
    ForgetsInFinish(t, acts[n], id);
    i := RemovalWasChecked(s, acts, n);
  }

  lemma ForgetsInFinish(s: State, a: Action, id: Id)
    requires ManagerOk(s) && id in s.cv.statusKnown && id !in Step(s, a).cv.statusKnown
    ensures a == ManagerFinish && s.mgr.Commanded? && s.target == Target(s.cv.drf, s.cv.specKnown.Keys) && id !in s.target.replicas
  {
    hide ListDiff, Admitted, Elems;
  }
}
