/** Ordered deletion of pools by finalizers: the pool-managers
  (pkg/controllers/cspi-controller/handler.go) and the cspc-operator
  (pkg/controllers/cspc-controller/cleanup.go, sync.go) over the API server's
  finalizer semantics. */
module Teardown {

  type Name = string
  type Device = string

  /** A CSPI with its two finalizers: `protected` is the pool-protection
      finalizer of the pool-manager, `owned` the CSPC finalizer of the operator. */
  datatype Cspi = Cspi(deleting: bool, protected: bool, owned: bool, devices: set<Device>)

  /** What the single worker of the operator is doing: releasing the claims of a
      CSPI, or, before the CSPC finalizer goes, those left over. */
  datatype Worker = Resting | Cleaning(n: Name, todo: set<Device>) | Finalizing(todo: set<Device>)

  datatype State = State(
    cspcDeleting: bool,
    cspcFinalizer: bool,
    cspis: map<Name, Cspi>,
    claims: set<Device>,       // devices whose claim the CSPC finalizer holds
    imported: set<Name>,       // pools present on their nodes
    safe: set<Name>,           // pool-managers past addPoolProtectionFinalizer
    destroyed: set<Name>,      // pool-managers that have destroyed their pool
    worker: Worker)

  datatype Action =
    | Claim(d: Device)
    | CreateCspi(n: Name, devices: set<Device>)
    | AddProtection(n: Name)
    | ImportPool(n: Name)
    | EndPass(n: Name)
    | DestroyPool(n: Name)
    | Unprotect(n: Name)
    | DeleteCspi(n: Name)
    | DeleteCspc
    | StartCleanup(n: Name)
    | ReleaseClaim(d: Device)
    | FinishCleanup
    | StartFinalize
    | ReleaseLeftover(d: Device)
    | FinishFinalize
    | StopWorker

  /** Storing `c` under `n`: an object being deleted without finalizers goes away. */
  function Stored(cspis: map<Name, Cspi>, n: Name, c: Cspi): map<Name, Cspi> {
    if c.deleting && !c.protected && !c.owned then cspis - {n} else cspis[n := c]
  }

  /** An object goes exactly if it is being deleted and its last finalizer is off;
      the others stay as they are. */
  lemma FinalizersHold(cspis: map<Name, Cspi>, n: Name, c: Cspi)
    ensures n in Stored(cspis, n, c) <==> !c.deleting || c.protected || c.owned
    ensures n in Stored(cspis, n, c) ==> Stored(cspis, n, c)[n] == c
    ensures forall m :: m != n ==> (m in Stored(cspis, n, c) <==> m in cspis) && (m in cspis ==> Stored(cspis, n, c)[m] == cspis[m])
  {
  }

  /** A new CSPI belongs to the operator, and is not protected before its
      pool-manager says so. */
  lemma CreatedIsFresh(s: State, n: Name, devices: set<Device>)
    requires Enabled(s, CreateCspi(n, devices))
    ensures var s' := Do(s, CreateCspi(n, devices));
      && n in s'.cspis && s'.cspis[n].owned && !s'.cspis[n].protected && !s'.cspis[n].deleting && s'.cspis[n].devices == devices
      && n !in s.cspis && devices <= s.claims
  {
  }

  predicate CanPerformCleanup(c: Cspi) {
    c.deleting && c.owned && !c.protected
  }

  /** Whether the pass of the pool-manager for `n` may do the step. */
  predicate Enabled(s: State, a: Action) {
    match a
    case Claim(d) => s.worker.Resting?
    case CreateCspi(n, devices) =>
      && s.worker.Resting? && s.cspcFinalizer && n !in s.cspis && devices <= s.claims
      && (forall m :: m in s.cspis ==> s.cspis[m].devices !! devices)
    case AddProtection(n) => n in s.cspis && !s.cspis[n].deleting
    case ImportPool(n) => n in s.safe
    case EndPass(n) => true
    case DestroyPool(n) => n in s.cspis && s.cspis[n].deleting && s.cspis[n].protected && n !in s.safe
    case Unprotect(n) => n in s.destroyed && n in s.cspis
    case DeleteCspi(n) => n in s.cspis
    case DeleteCspc => true
    case StartCleanup(n) => s.worker.Resting? && n in s.cspis && CanPerformCleanup(s.cspis[n])
    case ReleaseClaim(d) => s.worker.Cleaning? && d in s.worker.todo
    case FinishCleanup => s.worker.Cleaning? && s.worker.todo == {} && s.worker.n in s.cspis
    case StartFinalize => s.worker.Resting? && s.cspcDeleting && s.cspcFinalizer && s.cspis == map[]
    case ReleaseLeftover(d) => s.worker.Finalizing? && d in s.worker.todo
    case FinishFinalize => s.worker.Finalizing? && s.worker.todo == {}
    case StopWorker => true
  }

  function Do(s: State, a: Action): State
    requires Enabled(s, a)
  {
    match a
    case Claim(d) => s.(claims := s.claims + {d})
    case CreateCspi(n, devices) => s.(cspis := s.cspis[n := Cspi(false, false, true, devices)])
    case AddProtection(n) =>
      s.(cspis := s.cspis[n := s.cspis[n].(protected := true)], safe := s.safe + {n}, destroyed := s.destroyed - {n})
    case ImportPool(n) => s.(imported := s.imported + {n})
    case EndPass(n) => s.(safe := s.safe - {n}, destroyed := s.destroyed - {n})
    case DestroyPool(n) => s.(imported := s.imported - {n}, destroyed := s.destroyed + {n})
    case Unprotect(n) =>
      s.(cspis := Stored(s.cspis, n, s.cspis[n].(protected := false)), destroyed := s.destroyed - {n})
    case DeleteCspi(n) => s.(cspis := Stored(s.cspis, n, s.cspis[n].(deleting := true)))
    case DeleteCspc => s.(cspcDeleting := true)
    case StartCleanup(n) => s.(worker := Cleaning(n, s.cspis[n].devices * s.claims))
    case ReleaseClaim(d) => s.(claims := s.claims - {d}, worker := s.worker.(todo := s.worker.todo - {d}))
    case FinishCleanup =>
      s.(cspis := Stored(s.cspis, s.worker.n, s.cspis[s.worker.n].(owned := false)), worker := Resting)
    case StartFinalize => s.(worker := Finalizing(s.claims))
    case ReleaseLeftover(d) => s.(claims := s.claims - {d}, worker := s.worker.(todo := s.worker.todo - {d}))
    case FinishFinalize => s.(cspcFinalizer := false, worker := Resting)
    case StopWorker => s.(worker := Resting)
  }

  ghost predicate Run(s: State, acts: seq<Action>, s': State)
    decreases |acts|
  {
    if acts == [] then s' == s
    else Enabled(s, acts[0]) && Run(Do(s, acts[0]), acts[1..], s')
  }

  /** No pool, no CSPI yet. */
  predicate Init(s: State) {
    s.cspis == map[] && s.imported == {} && s.safe == {} && s.destroyed == {} && s.worker.Resting?
  }

  // ---------- the invariant ----------

  ghost predicate Managers(s: State) {
    && (forall n :: n in s.imported ==> n in s.cspis && s.cspis[n].protected)
    && (forall n :: n in s.safe ==> n in s.cspis && s.cspis[n].protected)
    && (forall n :: n in s.destroyed ==>
          n !in s.imported && n !in s.safe && n in s.cspis && s.cspis[n].deleting && s.cspis[n].protected)
  }

  ghost predicate Objects(s: State) {
    && (forall n :: n in s.cspis ==> s.cspis[n].owned)
    && (forall n :: n in s.cspis && !(s.cspis[n].devices <= s.claims) ==> s.cspis[n].deleting && !s.cspis[n].protected)
    && (forall n, m :: n in s.cspis && m in s.cspis && n != m ==> s.cspis[n].devices !! s.cspis[m].devices)
    && (!s.cspcFinalizer ==> s.cspis == map[])
  }

  ghost predicate WorkerOk(s: State) {
    match s.worker
    case Resting => true
    case Cleaning(n, todo) =>
      && n in s.cspis && CanPerformCleanup(s.cspis[n])
      && s.cspis[n].devices * s.claims == todo
    case Finalizing(todo) => s.cspcDeleting && s.cspis == map[] && s.claims == todo
  }

  ghost predicate Inv(s: State) {
    Managers(s) && Objects(s) && WorkerOk(s)
  }

  lemma StepKeepsInv(s: State, a: Action)
    requires Inv(s) && Enabled(s, a)
    ensures Inv(Do(s, a))
  {
    StepKeepsManagers(s, a);
    StepKeepsObjects(s, a);
    StepKeepsWorker(s, a);
  }

  lemma StepKeepsManagers(s: State, a: Action)
    requires Inv(s) && Enabled(s, a)
    ensures Managers(Do(s, a))
  {
    hide Objects, WorkerOk;
    if a.Unprotect? || a.DeleteCspi? {
      StoredOthers(s, a);
    } else if a.FinishCleanup? {
      CleanedUnprotected(s);
    }
  }

  lemma StoredOthers(s: State, a: Action)
    requires Inv(s) && Enabled(s, a) && (a.Unprotect? || a.DeleteCspi?)
    ensures Managers(Do(s, a))
  {
    hide WorkerOk;
  }

  /** The CSPI whose cleanup ends has no pool and no pass of its manager. */
  lemma CleanedUnprotected(s: State)
    requires Inv(s) && Enabled(s, FinishCleanup)
    ensures Managers(Do(s, FinishCleanup))
  {
  }

  lemma StepKeepsObjects(s: State, a: Action)
    requires Inv(s) && Enabled(s, a)
    ensures Objects(Do(s, a))
  {
    if a.ReleaseClaim? {
      var n := s.worker.n;
      assert a.d in s.cspis[n].devices;
    }
  }

  lemma StepKeepsWorker(s: State, a: Action)
    requires Inv(s) && Enabled(s, a)
    ensures WorkerOk(Do(s, a))
  {
  }

  lemma {:induction false} RunKeepsInv(s: State, acts: seq<Action>, s': State)
    requires Inv(s) && Run(s, acts, s')
    ensures Inv(s')
    decreases |acts|
  {
    hide Inv, Do, Enabled;
    if acts != [] {
      StepKeepsInv(s, acts[0]);
      RunKeepsInv(Do(s, acts[0]), acts[1..], s');
    }
  }

  // ---------- the order of teardown ----------

  /** In every run, an imported pool has a CSPI with the pool-protection finalizer. */
  lemma ImportedIsProtected(s0: State, acts: seq<Action>, s: State, n: Name)
    requires Init(s0) && Run(s0, acts, s) && n in s.imported
    ensures n in s.cspis && s.cspis[n].protected
  {
    hide Run;
    RunKeepsInv(s0, acts, s);
  }

  /** A claim of a device of a CSPI is released only after its pool is gone and
      the pool-protection finalizer is off. */
  lemma ClaimReleasedAfterPool(s0: State, acts: seq<Action>, s: State, a: Action, n: Name, d: Device)
    requires Init(s0) && Run(s0, acts, s) && Enabled(s, a)
    requires n in s.cspis && d in s.cspis[n].devices && d in s.claims && d !in Do(s, a).claims
    ensures s.cspis[n].deleting && !s.cspis[n].protected && n !in s.imported
  {
    hide Run;
    RunKeepsInv(s0, acts, s);
    if a.ReleaseClaim? {
      var m := s.worker.n;
      assert d in s.cspis[m].devices;
      assert n == m;
    }
  }

  /** A CSPI goes away only after the claims of all its devices are released. */
  lemma CspiGoneAfterClaims(s0: State, acts: seq<Action>, s: State, a: Action, n: Name)
    requires Init(s0) && Run(s0, acts, s) && Enabled(s, a)
    requires n in s.cspis && n !in Do(s, a).cspis
    ensures s.cspis[n].devices !! s.claims && n !in s.imported && !s.cspis[n].protected
  {
    hide Run;
    RunKeepsInv(s0, acts, s);
    assert a.FinishCleanup? && s.worker.n == n;
    assert s.cspis[n].devices * s.claims == {};
    assert forall d :: d in s.cspis[n].devices && d in s.claims ==> d in s.cspis[n].devices * s.claims;
  }

  /** The CSPC loses its finalizer only when no CSPI and no pool remains and no
      claim is held by the finalizer. */
  lemma CspcFinalizerLast(s0: State, acts: seq<Action>, s: State, a: Action)
    requires Init(s0) && Run(s0, acts, s) && Enabled(s, a)
    requires s.cspcFinalizer && !Do(s, a).cspcFinalizer
    ensures s.cspcDeleting && s.cspis == map[] && s.imported == {} && s.claims == {}
  {
    hide Run;
    RunKeepsInv(s0, acts, s);
  }

  // ---------- completion from any intermediate state ----------

  ghost predicate Reaches(s: State, s': State) {
    exists acts :: Run(s, acts, s')
  }

  lemma ReachesRefl(s: State)
    ensures Reaches(s, s)
  {
    assert Run(s, [], s);
  }

  lemma {:induction false} RunThen(s: State, acts: seq<Action>, m: State, a: Action)
    requires Run(s, acts, m) && Enabled(m, a)
    ensures Run(s, acts + [a], Do(m, a))
    decreases |acts|
  {
    hide Do, Enabled;
    if acts == [] {
      assert acts + [a] == [a] && [a][1..] == [];
      assert Run(Do(m, a), [], Do(m, a));
    } else {
      RunThen(Do(s, acts[0]), acts[1..], m, a);
      assert (acts + [a])[1..] == acts[1..] + [a];
    }
  }

  lemma Then(s: State, m: State, a: Action)
    requires Reaches(s, m) && Enabled(m, a)
    ensures Reaches(s, Do(m, a))
  {
    hide Do, Enabled, Run;
    var acts :| Run(s, acts, m);
    RunThen(s, acts, m, a);
  }

  /** The worker releases the claims on its list. */
  lemma {:induction false} ReleaseAll(s: State, m: State) returns (s': State)
    requires Reaches(s, m) && m.worker.Cleaning?
    ensures Reaches(s, s') && s' == m.(claims := m.claims - m.worker.todo, worker := m.worker.(todo := {}))
    decreases |m.worker.todo|
  {
    hide Reaches;
    if m.worker.todo == {} {
      s' := m;
    } else {
      var d :| d in m.worker.todo;
      Then(s, m, ReleaseClaim(d));
      s' := ReleaseAll(s, Do(m, ReleaseClaim(d)));
      assert (m.claims - {d}) - (m.worker.todo - {d}) == m.claims - m.worker.todo;
    }
  }

  /** The pool-manager of a CSPI being deleted gets rid of pool and finalizer. */
  lemma PoolDestroyed(s: State, m: State, n: Name) returns (s': State)
    requires Reaches(s, m) && Inv(m) && n in m.cspis && m.worker.Resting?
    ensures Reaches(s, s') && s'.worker.Resting?
    ensures s' == m.(cspis := s'.cspis, imported := s'.imported, safe := m.safe - {n}, destroyed := m.destroyed - {n})
    ensures s'.cspis == m.cspis[n := m.cspis[n].(deleting := true, protected := false)]
    ensures s'.imported == m.imported - {n}
  {
    hide Reaches;
    s' := m;
    Then(s, s', EndPass(n));
    s' := Do(s', EndPass(n));
    Then(s, s', DeleteCspi(n));
    s' := Do(s', DeleteCspi(n));
    if m.cspis[n].protected {
      Then(s, s', DestroyPool(n));
      s' := Do(s', DestroyPool(n));
      Then(s, s', Unprotect(n));
      s' := Do(s', Unprotect(n));
    }
  }

  lemma CspiCleanedUp(s: State, m: State, n: Name) returns (s': State)
    requires Reaches(s, m) && Inv(m) && n in m.cspis && m.worker.Resting? && CanPerformCleanup(m.cspis[n])
    ensures Reaches(s, s') && Inv(s')
    ensures s' == m.(cspis := m.cspis - {n}, claims := m.claims - m.cspis[n].devices)
  {
    hide Reaches, Inv;
    s' := m;
    Then(s, s', StartCleanup(n));
    StepKeepsInv(s', StartCleanup(n));
    s' := Do(s', StartCleanup(n));
    var last := ReleaseAll(s, s');
    CleanedInv(s', last);
    Then(s, last, FinishCleanup);
    StepKeepsInv(last, FinishCleanup);
    s' := Do(last, FinishCleanup);
    assert m.claims - m.cspis[n].devices * m.claims == m.claims - m.cspis[n].devices;
  }

  lemma CleanedInv(m: State, s': State)
    requires Inv(m) && m.worker.Cleaning?
    requires s' == m.(claims := m.claims - m.worker.todo, worker := m.worker.(todo := {}))
    ensures Inv(s')
  {
    hide Managers;
    assert Managers(s') by { SameManagers(m, s'); }
    var n := m.worker.n;
    forall k | k in s'.cspis && !(s'.cspis[k].devices <= s'.claims) ensures s'.cspis[k].deleting && !s'.cspis[k].protected {
      if k != n {
        assert m.cspis[k].devices !! m.cspis[n].devices;
        assert !(m.cspis[k].devices <= m.claims);
      }
    }
  }

  lemma SameManagers(m: State, s': State)
    requires Managers(m) && s'.cspis == m.cspis && s'.imported == m.imported && s'.safe == m.safe && s'.destroyed == m.destroyed
    ensures Managers(s')
  {
  }

  lemma CspiTornDown(s: State, m: State, n: Name) returns (s': State)
    requires Reaches(s, m) && Inv(m) && n in m.cspis && m.worker.Resting?
    ensures Reaches(s, s') && Inv(s') && s'.worker.Resting?
    ensures s'.cspis == m.cspis - {n} && s'.imported == m.imported - {n}
    ensures s'.claims == m.claims - m.cspis[n].devices
    ensures s'.cspcDeleting == m.cspcDeleting && s'.cspcFinalizer == m.cspcFinalizer
  {
    hide Reaches, Managers, WorkerOk;
    var mid := PoolDestroyed(s, m, n);
    PoolDestroyedInv(m, n, mid);
    s' := CspiCleanedUp(s, mid, n);
    assert mid.cspis - {n} == m.cspis - {n};
  }

  lemma PoolDestroyedInv(m: State, n: Name, s': State)
    requires Inv(m) && n in m.cspis && m.worker.Resting?
    requires s' == m.(cspis := m.cspis[n := m.cspis[n].(deleting := true, protected := false)],
                      imported := m.imported - {n}, safe := m.safe - {n}, destroyed := m.destroyed - {n})
    ensures Inv(s')
  {
  }

  lemma {:induction false} AllTornDown(s: State, m: State) returns (s': State)
    requires Reaches(s, m) && Inv(m) && m.worker.Resting?
    ensures Reaches(s, s') && Inv(s') && s'.worker.Resting?
    ensures s'.cspis == map[] && s'.imported == {}
    ensures s'.cspcDeleting == m.cspcDeleting && s'.cspcFinalizer == m.cspcFinalizer
    ensures s'.claims <= m.claims && forall n :: n in m.cspis ==> m.cspis[n].devices !! s'.claims
    decreases |m.cspis.Keys|
  {
    hide Reaches;
    if m.cspis == map[] {
      s' := m;
    } else {
      var n :| n in m.cspis;
      var next := CspiTornDown(s, m, n);
      assert next.cspis.Keys == m.cspis.Keys - {n};
      s' := AllTornDown(s, next);
      AllClaimsKeep(m, next, n, s');
    }
  }

  lemma AllClaimsKeep(m: State, next: State, n: Name, s': State)
    requires n in m.cspis && next.cspis == m.cspis - {n} && next.claims == m.claims - m.cspis[n].devices
    requires s'.claims <= next.claims
    requires forall k :: k in next.cspis ==> next.cspis[k].devices !! s'.claims
    ensures forall k :: k in m.cspis ==> m.cspis[k].devices !! s'.claims
  {
    forall k | k in m.cspis ensures m.cspis[k].devices !! s'.claims {
      if k != n { assert next.cspis[k] == m.cspis[k]; }
    }
  }

  /** The worker releases the claims left over. */
  lemma {:induction false} LeftoversReleased(s: State, m: State) returns (s': State)
    requires Reaches(s, m) && m.worker.Finalizing?
    ensures Reaches(s, s') && s' == m.(claims := m.claims - m.worker.todo, worker := Finalizing({}))
    decreases |m.worker.todo|
  {
    hide Reaches;
    if m.worker.todo == {} {
      s' := m;
    } else {
      var d :| d in m.worker.todo;
      Then(s, m, ReleaseLeftover(d));
      s' := LeftoversReleased(s, Do(m, ReleaseLeftover(d)));
      assert (m.claims - {d}) - (m.worker.todo - {d}) == m.claims - m.worker.todo;
    }
  }

  /** Wherever a deletion of the CSPC was interrupted, it can be carried on to
      its end: no CSPI, no pool, no claim held and the finalizer off. */
  lemma TeardownCompletes(s0: State, acts: seq<Action>, s: State) returns (s': State)
    requires Init(s0) && Run(s0, acts, s) && s.cspcDeleting && s.cspcFinalizer
    ensures Reaches(s, s') && s'.cspis == map[] && s'.imported == {} && s'.claims == {} && !s'.cspcFinalizer
  {
    hide Reaches, Run;
    RunKeepsInv(s0, acts, s);
    ReachesRefl(s);
    Then(s, s, StopWorker);
    var m := Do(s, StopWorker);
    s' := AllTornDown(s, m);
    Then(s, s', StartFinalize);
    s' := LeftoversReleased(s, Do(s', StartFinalize));
    Then(s, s', FinishFinalize);
    s' := Do(s', FinishFinalize);
  }
}
