/** The life of one volume replica (CVR): its recorded phase, its replica id
  and the zvol behind it (pkg/controllers/replica-controller/handler.go,
  controller.go; pkg/volumereplica/volumereplica.go). */
module ReplicaLifecycle {
  import opened Wrappers

  /** Recorded phases; `Empty` is the blank phase of a new CVR. */
  datatype Phase =
    | Empty | Init | Recreate
    | Online | Offline | Degraded | NewReplicaDegraded | Rebuilding | ReconstructingNewReplica | Error
    | DeletionFailed | Invalid

  datatype Cvr = Cvr(phase: Phase, id: string, uid: string, isClone: bool)

  datatype Zvol = Zvol(quorum: bool, id: string)

  datatype Operation = OpAdd | OpDestroy | OpSync | OpOther

  datatype ZfsStatus = ZfsHealthy | ZfsOffline | ZfsDegraded | ZfsRebuilding | ZfsUnknown

  datatype Stats = Stats(status: ZfsStatus, quorum: int)

  /** What ZFS, the environment and the API server answer during one event. */
  datatype World = World(
    valid: bool,              // the CVR passes CheckValidVolumeReplica
    poolFound: bool,
    imported: bool,           // the volume came with the pool import
    listed: bool,             // the list of volumes could be read
    zvolId: bool,             // the replica id could be read from ZFS
    checksum: Option<string>, // the hash of the UID, if it could be computed
    creatable: bool,          // zfs create or clone succeeds
    stats: Option<Stats>,     // the volume statistics, if they could be read
    deleted: bool,            // the zvol could be destroyed
    unfinalized: bool,        // the finalizers could be removed
    restored: bool,           // the restore annotations could be handled
    updated: bool)            // the CVR update was accepted

  /** The result of an event: the CVR in memory, the zvol, the phase to record
      (`Empty` records nothing), and the quorum flag of a zvol it created. */
  datatype Outcome = Outcome(cvr: Cvr, zvol: Option<Zvol>, status: Phase, created: Option<bool>, removed: bool)

  datatype State = State(cvr: Cvr, zvol: Option<Zvol>)

  /** Only a rebuilding or degraded volume with quorum is a replica of the volume
      already; without it the replica is still a new one. */
  function ZfsToCvrStatusMapper(st: Stats): (r: Phase)
    ensures (r.Online? <==> st.status.ZfsHealthy?) && (r.Offline? <==> st.status.ZfsOffline?)
    ensures r.Degraded? || r.NewReplicaDegraded? <==> st.status.ZfsDegraded?
    ensures r.Rebuilding? || r.ReconstructingNewReplica? <==> st.status.ZfsRebuilding?
    ensures (r.Degraded? || r.Rebuilding? ==> st.quorum == 1) && (r.NewReplicaDegraded? || r.ReconstructingNewReplica? ==> st.quorum != 1)
    ensures (r.Error? <==> st.status.ZfsUnknown?) && !IsCreateStatus(r)
  {
    match st.status
    case ZfsHealthy => Online
    case ZfsOffline => Offline
    case ZfsDegraded => if st.quorum == 1 then Degraded else NewReplicaDegraded
    case ZfsRebuilding => if st.quorum == 1 then Rebuilding else ReconstructingNewReplica
    case ZfsUnknown => Error
  }

  /** New replicas, before any other phase has been recorded. */
  predicate IsNew(p: Phase) { p.Empty? || p.Init? }

  predicate IsCreateStatus(p: Phase) { IsNew(p) || p.Recreate? }

  // ---------- the event handlers, as functions ----------

  /** The phase read from ZFS, or the old one. */
  function ReplicaStatus(c: Cvr, w: World): Phase {
    if w.stats.Some? then ZfsToCvrStatusMapper(w.stats.value) else c.phase
  }

  /** The replica id with which the zvol is to be created. */
  function IdForCreate(c: Cvr, w: World): string {
    if c.id == "" && IsNew(c.phase) && w.checksum.Some? then w.checksum.value else c.id
  }

  function Create(c: Cvr, z: Option<Zvol>, w: World): Outcome {
    var c' := c.(id := IdForCreate(c, w));
    var quorum := !c.phase.Recreate? || c.isClone;
    if c'.id == "" || !w.creatable || z.Some? then Outcome(c', z, c.phase, None, false)
    else Outcome(c', Some(Zvol(quorum, c'.id)), ReplicaStatus(c', w), Some(quorum), false)
  }

  function AddEvent(c: Cvr, z: Option<Zvol>, w: World): Outcome {
    if w.imported && c.phase != Empty then Outcome(c, z, ReplicaStatus(c, w), None, false)
    else if z.Some? && w.listed then
      if c.id == "" && !w.zvolId then Outcome(c, z, c.phase, None, false)
      else
        var c' := if c.id == "" then c.(id := z.value.id) else c;
        Outcome(c', z, ReplicaStatus(c', w), None, false)
    else if IsCreateStatus(c.phase) then Create(c, z, w)
    else Outcome(c, z, Offline, None, false)
  }

  function DestroyEvent(c: Cvr, z: Option<Zvol>, w: World): Outcome {
    if !w.deleted then Outcome(c, z, DeletionFailed, None, false)
    else if !w.unfinalized then Outcome(c, None, DeletionFailed, None, false)
    else Outcome(c, None, Empty, None, true)
  }

  function Event(c: Cvr, z: Option<Zvol>, op: Operation, w: World): Outcome {
    if !w.valid then Outcome(c, z, Offline, None, false)
    else if !w.poolFound then Outcome(c, z, c.phase, None, false)
    else match op
      case OpAdd => AddEvent(c, z, w)
      case OpDestroy => DestroyEvent(c, z, w)
      case OpSync =>
        if IsCreateStatus(c.phase) then AddEvent(c, z, w)
        else if !w.restored || w.stats.None? then Outcome(c, z, Empty, None, false)
        else Outcome(c, z, ZfsToCvrStatusMapper(w.stats.value), None, false)
      case OpOther => Outcome(c, z, Invalid, None, false)
  }

  /** The stored state after an event; a stale or failed update stores nothing. */
  function Recorded(s: State, o: Outcome, w: World): State {
    if o.status == Empty || !w.updated then State(s.cvr, o.zvol)
    else State(o.cvr.(phase := o.status), o.zvol)
  }

  // ---------- the controller ----------

  /** The controller of one CVR: `cvr` is the object stored in the API server. */
  class ReplicaController {
    var cvr: Cvr
    var zvol: Option<Zvol>

    constructor (c: Cvr, z: Option<Zvol>)
      ensures cvr == c && zvol == z
    {
      cvr, zvol := c, z;
    }

    method CreateVolumeReplica(c: Cvr, w: World) returns (c': Cvr, status: Phase, created: Option<bool>)
      modifies this`zvol
      ensures Outcome(c', zvol, status, created, false) == Create(c, old(zvol), w)
      ensures c' == c.(id := c'.id) && (c.id != "" ==> c'.id == c.id)
      ensures c.id == "" ==> c'.id == if IsNew(c.phase) && w.checksum.Some? then w.checksum.value else ""
      ensures created.Some? <==> c'.id != "" && w.creatable && old(zvol).None?
      ensures created.Some? ==> zvol == Some(Zvol(created.value, c'.id)) && (created.value <==> c.phase != Recreate || c.isClone)
      ensures created.None? ==> zvol == old(zvol) && status == c.phase
      ensures created.Some? ==> status == if w.stats.Some? then ZfsToCvrStatusMapper(w.stats.value) else c.phase
    {
      var quorum := true;
      c' := c;
      if c.phase == Recreate { quorum := false; }
      if c.id == "" && (c.phase == Empty || c.phase == Init) {
        if w.checksum.None? { return c', c.phase, None; }
        c' := c'.(id := w.checksum.value);
      }
      if c'.id == "" { return c', c.phase, None; }
      if !w.creatable || zvol.Some? { return c', c.phase, None; }
      // the clone command always asks for the quorum
      if c.isClone { quorum := true; }
      zvol := Some(Zvol(quorum, c'.id));
      var st := ReplicaStatus(c', w);
      return c', st, Some(quorum);
    }

    method CVRAddEventHandler(c: Cvr, w: World) returns (c': Cvr, status: Phase, created: Option<bool>)
      modifies this`zvol
      ensures Outcome(c', zvol, status, created, false) == AddEvent(c, old(zvol), w)
      ensures c' == c.(id := c'.id) && (c.id != "" ==> c'.id == c.id)
      ensures old(zvol).Some? ==> zvol == old(zvol) && created.None?
      ensures (w.imported && c.phase != Empty) || !IsCreateStatus(c.phase) ==> zvol == old(zvol) && created.None?
      ensures w.imported && c.phase != Empty ==>
                c' == c && status == if w.stats.Some? then ZfsToCvrStatusMapper(w.stats.value) else c.phase
      ensures !(w.imported && c.phase != Empty) && old(zvol).Some? && w.listed ==>
                && c'.id == (if c.id != "" then c.id else if w.zvolId then old(zvol).value.id else "")
                && status == (if (c.id == "" && !w.zvolId) || w.stats.None? then c.phase else ZfsToCvrStatusMapper(w.stats.value))
      ensures !w.imported && (old(zvol).None? || !w.listed) && !IsCreateStatus(c.phase) ==> c' == c && status == Offline
      ensures !(w.imported && c.phase != Empty) && (old(zvol).None? || !w.listed) && IsCreateStatus(c.phase) ==>
                && c'.id == (if c.id != "" then c.id else if IsNew(c.phase) && w.checksum.Some? then w.checksum.value else "")
                && (created.Some? <==> c'.id != "" && w.creatable && old(zvol).None?)
                && (created.None? ==> zvol == old(zvol) && status == c.phase)
                && (created.Some? ==> zvol == Some(Zvol(created.value, c'.id)) && (created.value <==> c.phase != Recreate || c.isClone)
                                      && status == if w.stats.Some? then ZfsToCvrStatusMapper(w.stats.value) else c.phase)
    {
      c', created := c, None;
      if w.imported && c.phase != Empty {
        status := ReplicaStatus(c, w);
        return;
      }
      if w.listed && zvol.Some? {
        if c.id == "" {
          if !w.zvolId { return c', c.phase, None; }
          c' := c'.(id := zvol.value.id);
        }
        status := ReplicaStatus(c', w);
        return;
      }
      if c.phase == Empty || c.phase == Recreate || c.phase == Init {
        c', status, created := CreateVolumeReplica(c, w);
        return;
      }
      status := Offline;
    }

    method CVREventHandler(c: Cvr, op: Operation, w: World) returns (c': Cvr, status: Phase, created: Option<bool>, removed: bool)
      modifies this`zvol
      ensures Outcome(c', zvol, status, created, removed) == Event(c, old(zvol), op, w)
      ensures !w.valid ==> c' == c && zvol == old(zvol) && status == Offline && created.None? && !removed
      ensures w.valid && !w.poolFound ==> c' == c && zvol == old(zvol) && status == c.phase && created.None? && !removed
      ensures removed <==> op.OpDestroy? && w.valid && w.poolFound && w.deleted && w.unfinalized
      ensures op.OpDestroy? && w.valid && w.poolFound ==>
                && c' == c && created.None? && zvol == (if w.deleted then None else old(zvol))
                && status == if removed then Empty else DeletionFailed
      ensures (op.OpAdd? || (op.OpSync? && IsCreateStatus(c.phase))) && w.valid && w.poolFound ==>
                Outcome(c', zvol, status, created, false) == AddEvent(c, old(zvol), w)
      ensures removed ==> zvol.None?
      ensures zvol.None? && old(zvol).Some? ==> op.OpDestroy? && w.deleted
      ensures op.OpOther? && w.valid && w.poolFound ==> c' == c && zvol == old(zvol) && status == Invalid
      ensures op.OpSync? && w.valid && w.poolFound && !IsCreateStatus(c.phase) ==>
                && c' == c && zvol == old(zvol) && created.None?
                && status == if w.restored && w.stats.Some? then ZfsToCvrStatusMapper(w.stats.value) else Empty
    {
      c', created, removed := c, None, false;
      if !w.valid { status := Offline; return; }
      if !w.poolFound { status := c.phase; return; }
      match op
      case OpAdd =>
        c', status, created := CVRAddEventHandler(c, w);
      case OpDestroy =>
        if !w.deleted { status := DeletionFailed; return; }
        zvol := None;
        if !w.unfinalized { status := DeletionFailed; return; }
        status, removed := Empty, true;
      case OpSync =>
        if c.phase == Empty || c.phase == Recreate || c.phase == Init {
          c', status, created := CVRAddEventHandler(c, w);
          return;
        }
        if !w.restored || w.stats.None? { status := Empty; return; }
        status := ZfsToCvrStatusMapper(w.stats.value);
      case OpOther =>
        status := Invalid;
    }

    /** One event for the CVR; returns the quorum flag of a zvol it created. */
    method SyncHandler(op: Operation, w: World) returns (created: Option<bool>)
      modifies this
      ensures var o := Event(old(cvr), old(zvol), op, w);
        created == o.created && State(cvr, zvol) == Recorded(State(old(cvr), old(zvol)), o, w)
      ensures var o := Event(old(cvr), old(zvol), op, w);
        zvol == o.zvol && cvr == if w.updated && o.status != Empty then o.cvr.(phase := o.status) else old(cvr)
      ensures !w.updated ==> cvr == old(cvr)
      ensures w.updated && !w.valid ==> cvr == old(cvr).(phase := Offline)
      ensures op.OpDestroy? && w.valid && w.poolFound && w.updated ==>
                cvr == if w.deleted && w.unfinalized then old(cvr) else old(cvr).(phase := DeletionFailed)
    {
      var cvrGot, status, removed;
      cvrGot, status, created, removed := CVREventHandler(cvr, op, w);
      if status == Empty { return; }
      if cvrGot.phase != status {
        cvrGot := cvrGot.(phase := status);
      }
      if w.updated { cvr := cvrGot; }
    }

    /** The informer's add event, which every restart brings for every CVR. A
        zvol that is created next has quorum=on exactly if the replica was new
        before the event, or is a clone. */
    method AddFunc(updated: bool)
      modifies this`cvr
      ensures cvr.(phase := old(cvr).phase) == old(cvr) && (!updated ==> cvr == old(cvr))
      ensures IsNew(cvr.phase) <==> IsNew(old(cvr).phase)
      ensures updated ==> cvr.phase != Empty && IsCreateStatus(cvr.phase)
      ensures updated ==> forall w, z :: Create(cvr, z, w).created.Some? ==>
                (Create(cvr, z, w).created.value <==> IsNew(old(cvr).phase) || cvr.isClone)
      ensures updated ==> State(cvr, zvol) == Do(State(old(cvr), old(zvol)), InformerAdd)
    {
      var c := cvr;
      if c.phase == Empty || c.phase == Init {
        c := c.(phase := Init);
      } else {
        c := c.(phase := Recreate);
      }
      if updated { cvr := c; }
    }

    /** The controller shuts down: a replica that is no longer new is shown as
        offline, and the add event of the next start leaves no trace of that. */
    method MarkCVRStatusToOffline(updated: bool)
      modifies this`cvr
      ensures cvr.(phase := old(cvr).phase) == old(cvr)
      ensures !updated || IsNew(old(cvr).phase) ==> cvr == old(cvr)
      ensures IsNew(cvr.phase) <==> IsNew(old(cvr).phase)
      ensures updated && !IsNew(cvr.phase) ==> cvr.phase == Offline
      ensures Added(State(cvr, zvol)) == Added(State(old(cvr), old(zvol)))
      ensures updated ==> State(cvr, zvol) == Do(State(old(cvr), old(zvol)), ShutDown)
    {
      if cvr.phase == Empty || cvr.phase == Init { return; }
      if updated { cvr := cvr.(phase := Offline); }
    }
  }

  function Added(s: State): State {
    s.(cvr := s.cvr.(phase := if IsNew(s.cvr.phase) then Init else Recreate))
  }

  function MarkedOffline(s: State): State {
    if IsNew(s.cvr.phase) then s else s.(cvr := s.cvr.(phase := Offline))
  }

  // ---------- runs ----------

  datatype Action =
    | Handle(op: Operation, w: World)
    | InformerAdd
    | ShutDown
    | PoolLost

  function Do(s: State, a: Action): State {
    match a
    case Handle(op, w) => Recorded(s, Event(s.cvr, s.zvol, op, w), w)
    case InformerAdd => Added(s)
    case ShutDown => MarkedOffline(s)
    case PoolLost => s.(zvol := None)
  }

  /** The quorum flag of the zvol a step creates. */
  function CreatedBy(s: State, a: Action): Option<bool> {
    if a.Handle? then Event(s.cvr, s.zvol, a.op, a.w).created else None
  }

  /** The states a run of steps goes through. */
  function Trace(s: State, acts: seq<Action>): (t: seq<State>)
    ensures |t| == |acts| + 1 && t[0] == s
    decreases |acts|
  {
    if acts == [] then [s] else [s] + Trace(Do(s, acts[0]), acts[1..])
  }

  lemma {:induction false} TraceAt(s: State, acts: seq<Action>, i: nat)
    requires i < |acts|
    ensures Trace(s, acts)[i + 1] == Do(Trace(s, acts)[i], acts[i])
    decreases |acts|
  {
    hide Do;
    if i > 0 {
      TraceAt(Do(s, acts[0]), acts[1..], i - 1);
    }
  }

  /** The event takes the finalizers off the CVR. */
  predicate RemovedBy(s: State, a: Action) {
    a.Handle? && Event(s.cvr, s.zvol, a.op, a.w).removed
  }

  /** In every run the CVR loses its finalizers only in a destroy event that has
      destroyed the zvol, and no other event takes a zvol away. */
  lemma FinalizerAfterZvol(s: State, acts: seq<Action>, j: nat)
    requires j < |acts|
    ensures RemovedBy(Trace(s, acts)[j], acts[j]) ==>
              acts[j].op.OpDestroy? && acts[j].w.deleted && Trace(s, acts)[j + 1].zvol.None?
    ensures Trace(s, acts)[j].zvol.Some? && Trace(s, acts)[j + 1].zvol.None? ==>
              acts[j].PoolLost? || (acts[j].Handle? && acts[j].op.OpDestroy? && acts[j].w.deleted)
  {
    hide Do, Event;
    TraceAt(s, acts, j);
    StepZvol(Trace(s, acts)[j], acts[j]);
  }

  lemma StepZvol(s: State, a: Action)
    ensures RemovedBy(s, a) ==> a.op.OpDestroy? && a.w.deleted && Do(s, a).zvol.None?
    ensures s.zvol.Some? && Do(s, a).zvol.None? ==> a.PoolLost? || (a.Handle? && a.op.OpDestroy? && a.w.deleted)
  {
  }

  /** The phases read from ZFS are never those of a replica to be created. */
  lemma MappedIsNotCreateStatus(st: Stats)
    ensures !IsCreateStatus(ZfsToCvrStatusMapper(st))
  {
  }

  lemma StepLeavesNew(s: State, a: Action)
    ensures !IsNew(s.cvr.phase) ==> !IsNew(Do(s, a).cvr.phase)
    ensures s.cvr.id != "" ==> Do(s, a).cvr.id == s.cvr.id
    ensures Do(s, a).cvr.uid == s.cvr.uid && Do(s, a).cvr.isClone == s.cvr.isClone
  {
  }

  lemma {:induction false} TraceLeavesNew(s: State, acts: seq<Action>, i: nat, j: nat)
    requires i <= j <= |acts|
    ensures var t := Trace(s, acts);
      && (!IsNew(t[i].cvr.phase) ==> !IsNew(t[j].cvr.phase))
      && (t[i].cvr.id != "" ==> t[j].cvr.id == t[i].cvr.id)
      && t[j].cvr.isClone == t[i].cvr.isClone
    decreases j
  {
    hide Do;
    if i < j {
      TraceLeavesNew(s, acts, i, j - 1);
      TraceAt(s, acts, j - 1);
      StepLeavesNew(Trace(s, acts)[j - 1], acts[j - 1]);
    }
  }

  /** A zvol of a CVR that is no clone is created with quorum=on exactly if no
      phase other than blank or Init was ever recorded for the CVR. */
  lemma QuorumOnlyForNewReplicas(s: State, acts: seq<Action>, j: nat)
    requires j < |acts| && !s.cvr.isClone
    requires CreatedBy(Trace(s, acts)[j], acts[j]).Some?
    ensures CreatedBy(Trace(s, acts)[j], acts[j]).value <==> forall i :: 0 <= i <= j ==> IsNew(Trace(s, acts)[i].cvr.phase)
  {
    TraceLeavesNew(s, acts, 0, j);
    forall i | 0 <= i <= j
      ensures !IsNew(Trace(s, acts)[i].cvr.phase) ==> !IsNew(Trace(s, acts)[j].cvr.phase)
    {
      TraceLeavesNew(s, acts, i, j);
    }
  }

  /** A replica added by scale-up starts in phase Recreate: whatever happens,
      its zvol is never created with quorum=on. */
  lemma ScaledUpReplicaHasNoQuorum(s: State, acts: seq<Action>, j: nat)
    requires j < |acts| && !s.cvr.isClone && s.cvr.phase == Recreate
    ensures CreatedBy(Trace(s, acts)[j], acts[j]) != Some(true)
  {
    TraceLeavesNew(s, acts, 0, j);
  }

  /** A replica id that is set never changes. */
  lemma ReplicaIdIsFixed(s: State, acts: seq<Action>, i: nat, j: nat)
    requires i <= j <= |acts| && Trace(s, acts)[i].cvr.id != ""
    ensures Trace(s, acts)[j].cvr.id == Trace(s, acts)[i].cvr.id
  {
    TraceLeavesNew(s, acts, i, j);
  }

  /** The hash is a function of the UID: every event sees the same value. */
  ghost predicate HashOf(acts: seq<Action>, h: string) {
    h != "" && forall i :: 0 <= i < |acts| && acts[i].Handle? && acts[i].w.checksum.Some? ==> acts[i].w.checksum.value == h
  }

  ghost predicate IdsAgree(s: State, h: string) {
    && (s.zvol.Some? && s.cvr.id != "" ==> s.zvol.value.id == s.cvr.id)
    && (s.cvr.id == "" && s.zvol.Some? ==> s.zvol.value.id == h)
  }

  lemma StepKeepsIds(s: State, a: Action, h: string)
    requires IdsAgree(s, h) && HashOf([a], h)
    ensures IdsAgree(Do(s, a), h)
  {
    hide AddEvent, ZfsToCvrStatusMapper;
    assert [a][0] == a;
    if a.Handle? { AddEventIds(s.cvr, s.zvol, a.w, h); }
  }

  /** Whether or not the CVR is stored after the event, the ids agree. */
  lemma AddEventIds(c: Cvr, z: Option<Zvol>, w: World, h: string)
    requires IdsAgree(State(c, z), h) && h != "" && (w.checksum.Some? ==> w.checksum.value == h)
    ensures var o := AddEvent(c, z, w); IdsAgree(State(o.cvr, o.zvol), h) && IdsAgree(State(c, o.zvol), h)
  {
    hide ReplicaStatus;
  }

  /** The zvol and its CVR agree on the replica id in every run, also when the
      update that should have recorded the id was lost. */
  lemma {:induction false} ZvolIdAgrees(s: State, acts: seq<Action>, h: string, j: nat)
    requires IdsAgree(s, h) && HashOf(acts, h) && j <= |acts|
    ensures IdsAgree(Trace(s, acts)[j], h)
    decreases j
  {
    hide Do, IdsAgree;
    if j > 0 {
      ZvolIdAgrees(s, acts, h, j - 1);
      TraceAt(s, acts, j - 1);
      assert HashOf([acts[j - 1]], h);
      StepKeepsIds(Trace(s, acts)[j - 1], acts[j - 1], h);
    }
  }
}
