/** Scaling the replicas of a bound volume: the shared store and its four writers.

  The CStorVolumeConfig (CVC), the CStorVolume (CV) and the
  CStorVolumeReplicas (CVRs) live in the API server. The admission webhook
  filters user edits of the CVC, the cvc-operator moves the volume towards the
  desired pool list, the volume manager reconfigures the iSCSI target, and the
  target's registration server records replicas that connect.

  Every read-modify-update of one object is one atomic step, because an update
  made from a stale copy is refused on its resource version. A pass of a
  controller is a sequence of such steps; other actors may act between any two
  of them, and a pass may end at any of them (a failed API call or a crash). */
module VolumeScaling {
  import opened Lists
  import opened CvcAdmission

  /** A replica id; "" when it is not assigned yet. */
  type Id = string
  type Guid = string

  datatype Cvc = Cvc(desired: seq<Pool>, current: seq<Pool>, rv: nat)

  datatype Cv = Cv(
    drf: nat,
    rf: nat,
    cf: nat,
    specKnown: map<Id, Guid>,
    statusKnown: map<Id, Guid>,
    rv: nat)

  /** A CVR carries a finalizer, so a deleted one stays until it is finalized. */
  datatype Cvr = Cvr(id: Id, deleting: bool)

  /** What the target accepted in the last drf command. */
  datatype Target = Target(drf: nat, replicas: set<Id>)

  /** Where a pass of the cvc-operator stands; `snap` is the CVC it read. */
  datatype Operator =
    | OpIdle
    | UpStarted(snap: Cvc)
    | UpSized(snap: Cvc, todo: seq<Pool>, failed: bool)
    | UpReady(snap: Cvc)
    | DownStarted(snap: Cvc)
    | DownSettled(snap: Cvc, found: bool)
    | DownCleaned(snap: Cvc)

  /** Where a pass of the volume manager stands; `copy` is the CV it holds. */
  datatype Manager =
    | MgrIdle
    | Growing(copy: Cv)
    | Shrunk(copy: Cv)
    | Commanded(copy: Cv)

  datatype State = State(
    cvc: Cvc,
    cv: Cv,
    cvrs: map<Pool, Cvr>,
    target: Target,
    op: Operator,
    mgr: Manager,
    client: Client)

  /** What a Get of an object that does not exist returns beside its error: no
      object, on which reading a field crashes the operator, or an object with
      empty fields. The code is written for the first where it decides about the
      deletion and for the second where it reads the replica id. */
  datatype Client = NilObject | EmptyObject

  datatype Registration = Registration(id: Id, guid: Guid, rf: int, cf: int)

  // ---------- helpers of the API package ----------

  predicate IsChangeInLists(a: seq<Pool>, b: seq<Pool>) {
    Elems(a) != Elems(b)
  }

  predicate IsScaleDownInProgress(cv: Cv) {
    |cv.statusKnown| > |cv.specKnown|
  }

  /** Pools to be given a replica, and pools to lose theirs. */
  function NewPools(c: Cvc): seq<Pool> { ListDiff(c.desired, c.current) }
  function RemovedPools(c: Cvc): seq<Pool> { ListDiff(c.current, c.desired) }

  function AsClaim(c: Cvc): Claim { Claim(0, 0, c.desired, c.current, Bound) }

  // ---------- the user, through the webhook ----------

  function EditDesired(s: State, desired: seq<Pool>): State {
    var c := AsClaim(s.cvc);
    if Admitted(c, c.(desired := desired))
    then s.(cvc := s.cvc.(desired := desired, rv := s.cvc.rv + 1))
    else s
  }

  // ---------- the cvc-operator ----------

  /** Read the CVC and choose the branch of scaleVolumeReplicas. */
  function OpStart(s: State): State {
    if s.op != OpIdle || !IsChangeInLists(s.cvc.desired, s.cvc.current) then s
    else if |s.cvc.desired| > |s.cvc.current| then s.(op := UpStarted(s.cvc))
    else if |s.cvc.desired| < |s.cvc.current| then s.(op := DownStarted(s.cvc))
    else s
  }

  function RaiseDrf(cv: Cv, count: nat): Cv {
    if cv.drf < count then cv.(drf := count, rv := cv.rv + 1) else cv
  }

  function LowerDrf(cv: Cv, count: nat, id: Id): Cv {
    if cv.drf > count
    then cv.(drf := count, specKnown := cv.specKnown - {id}, rv := cv.rv + 1)
    else cv
  }

  function ReplicaIdOn(cvrs: map<Pool, Cvr>, p: Pool): Id {
    if p in cvrs then cvrs[p].id else ""
  }

  /** Read and update the CV: the first step of either scaling function. For a
      scale-down the copy just written also decides whether to go on. Reading the
      id of a CVR that is gone crashes or gives the empty id. */
  function OpSize(s: State): State {
    match s.op
    case UpStarted(snap) =>
      s.(cv := RaiseDrf(s.cv, |snap.desired|), op := UpSized(snap, NewPools(snap), false))
    case DownStarted(snap) =>
      if RemovedPools(snap) == [] then s.(op := OpIdle)
      else
        var p := RemovedPools(snap)[0];
        if s.cv.drf > |snap.desired| && p !in s.cvrs && s.client.NilObject? then s.(op := OpIdle)
        else
          var cv := LowerDrf(s.cv, |snap.desired|, ReplicaIdOn(s.cvrs, p));
          s.(cv := cv,
             op := if IsScaleDownInProgress(cv) then OpIdle else DownSettled(snap, p in s.cvrs))
    case _ => s
  }

  /** One turn of the replica creation loop: an existing CVR is left as it is,
      a failing pool is skipped and makes the pass fail after the loop. */
  function OpCreate(s: State, id: Id, ok: bool): State {
    match s.op
    case UpSized(snap, todo, failed) =>
      if todo == [] then
        s.(op := if !failed && (forall p :: p in NewPools(snap) ==> p in s.cvrs)
                 then UpReady(snap) else OpIdle)
      else
        s.(op := UpSized(snap, todo[1..], failed || !ok),
           cvrs := if ok && todo[0] !in s.cvrs then s.cvrs[todo[0] := Cvr(id, false)] else s.cvrs)
    case _ => s
  }

  /** Delete the CVR of the removed pool. If it was not found, the deletion is
      skipped for lack of an object, or fails for lack of a name. */
  function OpDelete(s: State): State {
    match s.op
    case DownSettled(snap, found) =>
      if RemovedPools(snap) == [] then s.(op := OpIdle)
      else
        var p := RemovedPools(snap)[0];
        if !found then s.(op := if s.client.NilObject? then DownCleaned(snap) else OpIdle)
        else if p !in s.cvrs then s.(op := OpIdle)
        else s.(op := DownCleaned(snap), cvrs := s.cvrs[p := s.cvrs[p].(deleting := true)])
    case _ => s
  }

  /** The current pool list a completed pass records. */
  function CompletedPools(snap: Cvc): seq<Pool> {
    if |snap.desired| > |snap.current| then snap.current + NewPools(snap) else snap.desired
  }

  /** Record the new pool list, unless the CVC changed since it was read. */
  function OpFinish(s: State): State {
    if s.op.UpReady? || s.op.DownCleaned? then
      var done := s.(op := OpIdle);
      if s.op.snap.rv == s.cvc.rv
      then done.(cvc := s.cvc.(current := CompletedPools(s.op.snap), rv := s.cvc.rv + 1))
      else done
    else s
  }

  // ---------- the volume manager ----------

  /** updateCStorVolumeDRF up to the drf command. `healthy` is the outcome of
      the volume and replica health checks. */
  function MgrStart(s: State, healthy: bool): State {
    if s.mgr != MgrIdle then s
    else if |s.cv.specKnown| < |s.cv.statusKnown| then
      if !healthy || s.cv.statusKnown.Keys <= s.cv.specKnown.Keys then s
      else
        var cv := if s.cv.drf < s.cv.rf
                  then s.cv.(rf := s.cv.drf, cf := s.cv.drf / 2 + 1, rv := s.cv.rv + 1)
                  else s.cv;
        s.(cv := cv, mgr := Shrunk(cv))
    else if |s.cv.specKnown| == |s.cv.statusKnown| then s.(mgr := Growing(s.cv))
    else s
  }

  /** Run the drf command on the target. */
  function MgrCommand(s: State, accepted: bool): State {
    match s.mgr
    case Growing(copy) =>
      s.(mgr := MgrIdle, target := if accepted then s.target.(drf := copy.drf) else s.target)
    case Shrunk(copy) =>
      if accepted
      then s.(mgr := Commanded(copy), target := Target(copy.drf, copy.specKnown.Keys))
      else s.(mgr := MgrIdle)
    case _ => s
  }

  /** Drop the removed replica from the status, unless the CV changed. */
  function MgrFinish(s: State): State {
    match s.mgr
    case Commanded(copy) =>
      var done := s.(mgr := MgrIdle);
      if copy.rv == s.cv.rv
      then done.(cv := copy.(statusKnown := copy.specKnown, rv := s.cv.rv + 1))
      else done
    case _ => s
  }

  // ---------- the registration server ----------

  predicate ValidRegistration(r: Registration) {
    r.id != "" && r.guid != "" && r.rf != 0 && r.cf != 0
  }

  predicate RegistrationAccepted(cv: Cv, r: Registration) {
    && ValidRegistration(r)
    && (r.id in cv.specKnown || |cv.specKnown| < cv.drf)
    && cv.rf <= r.rf
    && cv.cf <= r.cf
  }

  function Registered(cv: Cv, r: Registration): Cv
    requires RegistrationAccepted(cv, r)
  {
    cv.(rf := r.rf, cf := r.cf,
        specKnown := cv.specKnown[r.id := r.guid],
        statusKnown := cv.statusKnown[r.id := r.guid],
        rv := cv.rv + 1)
  }

  function Register(s: State, r: Registration): State {
    if RegistrationAccepted(s.cv, r) then s.(cv := Registered(s.cv, r)) else s
  }

  // ---------- pool managers: replica ids and finalizers ----------

  function AssignId(s: State, p: Pool, id: Id): State {
    if p in s.cvrs && s.cvrs[p].id == "" then s.(cvrs := s.cvrs[p := s.cvrs[p].(id := id)]) else s
  }

  function Finalize(s: State, p: Pool): State {
    if p in s.cvrs && s.cvrs[p].deleting then s.(cvrs := s.cvrs - {p}) else s
  }

  // ---------- runs ----------

  datatype Action =
    | Edit(pools: seq<Pool>)
    | TouchCvc
    | TouchCv
    | OperatorStart
    | OperatorSize
    | OperatorCreate(id: Id, ok: bool)
    | OperatorDelete
    | OperatorFinish
    | OperatorStop
    | ManagerStart(healthy: bool)
    | ManagerCommand(accepted: bool)
    | ManagerFinish
    | ManagerStop
    | Connect(r: Registration)
    | SetId(p: Pool, newId: Id)
    | Collect(p: Pool)

  /** Every action is total: one that is not enabled changes nothing. `TouchCvc`
      and `TouchCv` stand for all writes of fields outside this model. */
  function Step(s: State, a: Action): State {
    match a
    case Edit(pools) => EditDesired(s, pools)
    case TouchCvc => s.(cvc := s.cvc.(rv := s.cvc.rv + 1))
    case TouchCv => s.(cv := s.cv.(rv := s.cv.rv + 1))
    case OperatorStart => OpStart(s)
    case OperatorSize => OpSize(s)
    case OperatorCreate(id, ok) => OpCreate(s, id, ok)
    case OperatorDelete => OpDelete(s)
    case OperatorFinish => OpFinish(s)
    case OperatorStop => s.(op := OpIdle)
    case ManagerStart(healthy) => MgrStart(s, healthy)
    case ManagerCommand(accepted) => MgrCommand(s, accepted)
    case ManagerFinish => MgrFinish(s)
    case ManagerStop => s.(mgr := MgrIdle)
    case Connect(r) => Register(s, r)
    case SetId(p, id) => AssignId(s, p, id)
    case Collect(p) => Finalize(s, p)
  }

  function Run(s: State, acts: seq<Action>): State
    decreases |acts|
  {
    if acts == [] then s else Run(Step(s, acts[0]), acts[1..])
  }

  lemma {:induction false} RunAppend(s: State, xs: seq<Action>, ys: seq<Action>)
    ensures Run(s, xs + ys) == Run(Run(s, xs), ys)
    decreases |xs|
  {
    if xs == [] {
      assert xs + ys == ys;
    } else {
      assert (xs + ys)[1..] == xs[1..] + ys;
      RunAppend(Step(s, xs[0]), xs[1..], ys);
    }
  }

  /** A volume just bound: the pool lists name the pools of its CVRs and no
      replica has connected yet. */
  ghost predicate Init(s: State) {
    && Unique(s.cvc.desired) && Unique(s.cvc.current)
    && Elems(s.cvc.desired) == Elems(s.cvc.current) == s.cvrs.Keys
    && s.cv.drf == s.cv.rf == |s.cvc.current|
    && s.cv.cf == s.cv.rf / 2 + 1
    && s.cv.specKnown == s.cv.statusKnown == map[]
    && (forall p :: p in s.cvrs ==> !s.cvrs[p].deleting)
    && (forall p, q :: p in s.cvrs && q in s.cvrs && p != q && s.cvrs[p].id != ""
          ==> s.cvrs[p].id != s.cvrs[q].id)
    && s.op == OpIdle && s.mgr == MgrIdle
  }

  // ---------- what every run keeps, with no hypothesis on any actor ----------

  ghost predicate PoolLists(c: Cvc) {
    && Unique(c.desired) && Unique(c.current)
    && (KeepsAll(c.current, c.desired) || RemovesOne(c.current, c.desired))
  }

  ghost predicate SubMap(a: map<Id, Guid>, b: map<Id, Guid>) {
    forall x :: x in a ==> x in b && b[x] == a[x]
  }

  ghost predicate DrfMatchesLists(s: State) {
    s.cv.drf == |s.cvc.desired| || s.cv.drf == |s.cvc.current|
  }

  /** A copy is at most as new as the object, and equal to it if as new. */
  ghost predicate SnapshotOfCvc(snap: Cvc, c: Cvc) {
    && PoolLists(snap)
    && snap.rv <= c.rv && (snap.rv == c.rv ==> snap == c)
    && snap.current == c.current && |snap.desired| == |c.desired|
  }

  predicate ScalingUp(op: Operator) { op.UpStarted? || op.UpSized? || op.UpReady? }
  predicate ScalingDown(op: Operator) { op.DownStarted? || op.DownSettled? || op.DownCleaned? }

  ghost predicate OperatorOk(s: State) {
    s.op != OpIdle ==>
      && SnapshotOfCvc(s.op.snap, s.cvc)
      && (ScalingUp(s.op) ==> |s.cvc.desired| > |s.cvc.current|)
      && (ScalingDown(s.op) ==> |s.cvc.desired| < |s.cvc.current|)
      && (!s.op.UpStarted? && !s.op.DownStarted? ==> s.cv.drf == |s.cvc.desired|)
  }

  ghost predicate ManagerOk(s: State) {
    s.mgr != MgrIdle ==>
      && s.mgr.copy.rv <= s.cv.rv
      && (s.mgr.copy.rv == s.cv.rv ==> s.mgr.copy == s.cv)
      && SubMap(s.mgr.copy.specKnown, s.mgr.copy.statusKnown)
      && (s.mgr.Commanded? ==> s.target == Target(s.mgr.copy.drf, s.mgr.copy.specKnown.Keys))
  }

  ghost predicate Inv(s: State) {
    && PoolLists(s.cvc)
    && DrfMatchesLists(s)
    && SubMap(s.cv.specKnown, s.cv.statusKnown)
    && OperatorOk(s)
    && ManagerOk(s)
  }

  /** The shape of a pool list, read from its lengths. */
  lemma ListShape(c: Cvc)
    requires PoolLists(c)
    ensures |c.desired| >= |c.current| <==> KeepsAll(c.current, c.desired)
    ensures |c.desired| == |c.current| <==> Elems(c.desired) == Elems(c.current)
    ensures |c.desired| < |c.current| ==>
              |c.desired| == |c.current| - 1 && |RemovedPools(c)| == 1
              && Elems(c.desired) == Elems(c.current) - {RemovedPools(c)[0]}
              && RemovedPools(c)[0] in c.current
  {
    ElemsCard(c.desired);
    ElemsCard(c.current);
    ListDiffUnique(c.current, c.desired);
    if KeepsAll(c.current, c.desired) {
      SubsetCard(Elems(c.current), Elems(c.desired));
    } else {
      var p :| p in c.current && Elems(c.desired) == Elems(c.current) - {p};
      assert Elems(c.current) - Elems(c.desired) == {p};
      var r := RemovedPools(c);
      assert r[0] in Elems(r);
    }
  }

  lemma InitInv(s: State)
    requires Init(s)
    ensures Inv(s)
  {
  }

  lemma EditKeepsInv(s: State, pools: seq<Pool>)
    requires Inv(s)
    ensures Inv(EditDesired(s, pools))
  {
    var s' := EditDesired(s, pools);
    if s' != s {
      AdmittedEdit(AsClaim(s.cvc), pools);
      assert PoolLists(s'.cvc);
      ListShape(s.cvc);
    }
  }

  /** A completed pass leaves two lists of the same pools. */
  lemma CompletedLists(snap: Cvc)
    requires PoolLists(snap)
    requires |snap.desired| != |snap.current|
    ensures Unique(CompletedPools(snap))
    ensures Elems(CompletedPools(snap)) == Elems(snap.desired)
    ensures |CompletedPools(snap)| == |snap.desired|
  {
    ListShape(snap);
    AppendDiff(snap.current, snap.desired);
    ElemsCard(CompletedPools(snap));
    ElemsCard(snap.desired);
  }

  lemma OpStartKeepsInv(s: State)
    requires Inv(s)
    ensures Inv(OpStart(s))
  {
  }

  lemma OpSizeKeepsInv(s: State)
    requires Inv(s)
    ensures Inv(OpSize(s))
  {
    hide ListDiff, PoolLists;
    var s' := OpSize(s);
    assert s' == s.(cv := s'.cv, op := s'.op);
    SizedManager(s);
    SizedFactor(s);
    assert s'.op != OpIdle ==> s'.op.snap == s.op.snap;
  }

  lemma SizedFactor(s: State)
    requires Inv(s)
    ensures var s' := OpSize(s);
      && DrfMatchesLists(s') && SubMap(s'.cv.specKnown, s'.cv.statusKnown)
      && (s'.op != OpIdle && !s'.op.UpStarted? && !s'.op.DownStarted? ==> s'.cv.drf == |s'.cvc.desired|)
  {
    hide ListDiff, PoolLists, ManagerOk;
  }

  lemma SizedManager(s: State)
    requires ManagerOk(s)
    ensures ManagerOk(OpSize(s))
  {
    hide ListDiff, SubMap;
  }

  lemma OpCreateKeepsInv(s: State, id: Id, ok: bool)
    requires Inv(s)
    ensures Inv(OpCreate(s, id, ok))
  {
    var s' := OpCreate(s, id, ok);
    assert s'.cvc == s.cvc && s'.cv == s.cv && s'.mgr == s.mgr && s'.target == s.target;
    assert s'.op != OpIdle ==> s'.op.snap == s.op.snap;
  }

  lemma OpDeleteKeepsInv(s: State)
    requires Inv(s)
    ensures Inv(OpDelete(s))
  {
    var s' := OpDelete(s);
    assert s'.cvc == s.cvc && s'.cv == s.cv && s'.mgr == s.mgr && s'.target == s.target;
    assert s'.op != OpIdle ==> s'.op.snap == s.op.snap;
  }

  lemma OpFinishKeepsInv(s: State)
    requires Inv(s)
    ensures Inv(OpFinish(s))
  {
    if (s.op.UpReady? || s.op.DownCleaned?) && s.op.snap.rv == s.cvc.rv {
      CompletedLists(s.cvc);
      assert KeepsAll(OpFinish(s).cvc.current, OpFinish(s).cvc.desired);
    }
  }

  lemma ManagerKeepsInv(s: State, a: Action)
    requires Inv(s)
    requires a.ManagerStart? || a.ManagerCommand? || a.ManagerFinish? || a.ManagerStop?
    ensures Inv(Step(s, a))
  {
  }

  lemma StepKeepsInv(s: State, a: Action)
    requires Inv(s)
    ensures Inv(Step(s, a))
  {
    match a
    case Edit(pools) => EditKeepsInv(s, pools);
    case OperatorStart => OpStartKeepsInv(s);
    case OperatorSize => OpSizeKeepsInv(s);
    case OperatorCreate(id, ok) => OpCreateKeepsInv(s, id, ok);
    case OperatorDelete => OpDeleteKeepsInv(s);
    case OperatorFinish => OpFinishKeepsInv(s);
    case ManagerStart(_) => ManagerKeepsInv(s, a);
    case ManagerCommand(_) => ManagerKeepsInv(s, a);
    case ManagerFinish => ManagerKeepsInv(s, a);
    case ManagerStop => ManagerKeepsInv(s, a);
    case _ =>
  }

  lemma {:induction false} RunKeepsInv(s: State, acts: seq<Action>)
    requires Inv(s)
    ensures Inv(Run(s, acts))
    decreases |acts|
  {
    if acts != [] {
      StepKeepsInv(s, acts[0]);
      RunKeepsInv(Step(s, acts[0]), acts[1..]);
    }
  }

  /** In every interleaving: both pool lists stay duplicate-free, the desired
      replication factor is the length of one of them and of both when they
      name the same pools, and the spec's known replicas are a sub-map of the
      status's. A pending change shows in the lengths, so the operator neither
      takes its "Migration" branch nor indexes an empty list of removed pools. */
  lemma PoolListsAndDrfInEveryRun(s: State, acts: seq<Action>)
    requires Init(s)
    ensures var t := Run(s, acts);
      && Unique(t.cvc.desired) && Unique(t.cvc.current)
      && (t.cv.drf == |t.cvc.desired| || t.cv.drf == |t.cvc.current|)
      && (Elems(t.cvc.desired) == Elems(t.cvc.current) ==> t.cv.drf == |Elems(t.cvc.desired)|)
      && SubMap(t.cv.specKnown, t.cv.statusKnown)
      && (IsChangeInLists(t.cvc.desired, t.cvc.current) ==> |t.cvc.desired| != |t.cvc.current|)
      && (t.op.DownStarted? || t.op.DownSettled? ==> |RemovedPools(t.op.snap)| == 1)
  {
    var t := Run(s, acts);
    RunKeepsInv(s, acts);
    ListShape(t.cvc);
    ElemsCard(t.cvc.desired);
    ElemsCard(t.cvc.current);
    if t.op != OpIdle {
      ListShape(t.op.snap);
    }
  }

  /** The status update that ends an operator pass is itself admitted. */
  lemma CompletionIsAdmitted(s: State)
    requires Inv(s)
    requires s.op.UpReady? || s.op.DownCleaned?
    requires s.op.snap.rv == s.cvc.rv
    ensures Admitted(AsClaim(s.cvc), AsClaim(OpFinish(s).cvc))
  {
    ListShape(s.cvc);
    CompletedLists(s.cvc);
    PoolListChangesByCounting(AsClaim(s.cvc), AsClaim(OpFinish(s).cvc));
  }

  lemma RemoveKeyCard(m: map<Id, Guid>, id: Id)
    ensures |m - {id}| == if id in m then |m| - 1 else |m|
  {
    assert (m - {id}).Keys == m.Keys - {id};
    assert |m| == |m.Keys| && |m - {id}| == |(m - {id}).Keys|;
  }

  /** The operator is about to lower the desired factor for a scale-down. */
  predicate AboutToLower(s: State) {
    s.op.DownStarted? && RemovedPools(s.op.snap) != [] && s.cv.drf > |s.op.snap.desired|
  }

  /** Every step but one keeps the known replicas within the desired factor... */
  lemma KnownBoundStep(s: State, a: Action)
    requires |s.cv.specKnown| <= s.cv.drf && ManagerOk(s)
    requires !(a.OperatorSize? && AboutToLower(s))
    ensures |Step(s, a).cv.specKnown| <= Step(s, a).cv.drf
  {
  }

  /** ...and lowering the factor keeps them so exactly when the replica of the
      removed pool is known or there was room to spare. */
  lemma KnownBoundWhenLowered(s: State)
    requires Inv(s) && |s.cv.specKnown| <= s.cv.drf && AboutToLower(s)
    ensures |OpSize(s).cv.specKnown| <= OpSize(s).cv.drf <==>
            || ReplicaIdOn(s.cvrs, RemovedPools(s.op.snap)[0]) in s.cv.specKnown
            || |s.cv.specKnown| < s.cv.drf
            || (RemovedPools(s.op.snap)[0] !in s.cvrs && s.client.NilObject?)
  {
    hide Unique, Elems, ManagerOk;
    ListShape(s.op.snap);
    RemoveKeyCard(s.cv.specKnown, ReplicaIdOn(s.cvrs, RemovedPools(s.op.snap)[0]));
  }
}
