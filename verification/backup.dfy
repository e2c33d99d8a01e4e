/** Backups: the pool-manager's backup controller
  (pkg/controllers/backup-controller/handler.go, controller.go) and the REST
  server (pkg/server/cstorvolumeconfig/v1_backup.go, backup_endpoint.go).

  A backup object is named after its volume and snapshot; the record of completed
  backups after schedule and volume. The controller works on its own copy of a
  backup, so it goes on when the object is removed, and writes the final status
  to whatever object then has the name. */
module Backup {

  type Uid = nat      // one per backup object, never reused

  datatype Name = Name(volume: string, snap: string)
  datatype Key = Key(schedule: string, volume: string)

  datatype Status = Pending | Init | InProgress | Done | Failed | Invalid

  datatype Bkp = Bkp(uid: Uid, schedule: string, status: Status)

  /** The last two completed snapshots; "" where there is none. */
  datatype Record = Record(last: string, secondLast: string)

  datatype Phase = Sending | Sent | Recorded | Broken

  /** What a worker is doing for the backup it has read. */
  datatype Work = Work(uid: Uid, schedule: string, phase: Phase)

  datatype State = State(
    backups: map<Name, Bkp>,
    records: map<Key, Record>,
    work: map<Name, Work>,
    sent: set<Name>,           // snapshots transferred so far
    own: set<Uid>,             // backups whose own transfer succeeded
    created: set<Uid>)         // uids given out so far

  datatype Action =
    | RestCreate(uid: Uid, schedule: string, name: Name)
    | RestRecord(key: Key)
    | RestPoll(name: Name)
    | RestDropRecord(key: Key, snap: string)
    | RestRemove(name: Name)
    | Accept(name: Name, pending: bool)
    | Start(name: Name)
    | Transfer(name: Name, ok: bool)
    | UpdateRecord(name: Name, ok: bool)
    | Finish(name: Name)
    | Recover(name: Name)
    | Crash

  /** The record of the schedule names the snapshot. */
  predicate IsRecorded(records: map<Key, Record>, schedule: string, name: Name) {
    var key := Key(schedule, name.volume);
    key in records && (name.snap == records[key].last || name.snap == records[key].secondLast)
  }

  /** The status concluded from the record of completed backups. */
  function LastBackupStat(records: map<Key, Record>, schedule: string, name: Name): Status {
    if IsRecorded(records, schedule, name) then Done else Failed
  }

  predicate Enabled(s: State, a: Action) {
    match a
    case RestCreate(uid, schedule, name) => uid !in s.created && name !in s.backups && name.snap != ""
    case RestRecord(key) => key !in s.records
    case RestPoll(name) => name in s.backups && !s.backups[name].status.Done? && !s.backups[name].status.Failed?
    case RestDropRecord(key, snap) => key in s.records && (s.records[key].last == snap || s.records[key].last == "")
    case RestRemove(name) => name in s.backups
    case Accept(name, _) => name in s.backups
    case Start(name) => name in s.backups && s.backups[name].status.Init? && name !in s.work
    case Transfer(name, _) => name in s.work && s.work[name].phase.Sending?
    case UpdateRecord(name, _) => name in s.work && s.work[name].phase.Sent?
    case Finish(name) => name in s.work && (s.work[name].phase.Recorded? || s.work[name].phase.Broken?)
    case Recover(name) => name in s.backups && !s.backups[name].status.Done?
    case Crash => true
  }

  function WithStatus(s: State, name: Name, status: Status): State
    requires name in s.backups
  {
    s.(backups := s.backups[name := s.backups[name].(status := status)])
  }

  function AtPhase(s: State, name: Name, phase: Phase): State
    requires name in s.work
  {
    s.(work := s.work[name := s.work[name].(phase := phase)])
  }

  function Do(s: State, a: Action): State
    requires Enabled(s, a)
  {
    match a
    case RestCreate(uid, schedule, name) =>
      var key := Key(schedule, name.volume);
      s.(backups := s.backups[name := Bkp(uid, schedule, Pending)],
         records := if key in s.records then s.records else s.records[key := Record("", "")],
         created := s.created + {uid})
    case RestRecord(key) => s.(records := s.records[key := Record("", "")])
    case RestPoll(name) => WithStatus(s, name, LastBackupStat(s.records, s.backups[name].schedule, name))
    case RestDropRecord(key, _) => s.(records := s.records - {key})
    case RestRemove(name) => s.(backups := s.backups - {name})
    case Accept(name, pending) => WithStatus(s, name, if pending then Init else Invalid)
    case Start(name) =>
      WithStatus(s, name, InProgress).(work := s.work[name := Work(s.backups[name].uid, s.backups[name].schedule, Sending)])
    case Transfer(name, ok) =>
      if ok then AtPhase(s, name, Sent).(own := s.own + {s.work[name].uid}, sent := s.sent + {name})
      else AtPhase(s, name, Broken)
    case UpdateRecord(name, ok) =>
      var key := Key(s.work[name].schedule, name.volume);
      if !ok then AtPhase(s, name, Broken)
      else if key !in s.records then AtPhase(s, name, Recorded)
      else AtPhase(s, name, Recorded).(records := s.records[key := Record(name.snap, s.records[key].last)])
    case Finish(name) =>
      var t := if name in s.backups then WithStatus(s, name, if s.work[name].phase.Recorded? then Done else Failed) else s;
      t.(work := s.work - {name})
    case Recover(name) =>
      WithStatus(s, name, if s.backups[name].status.InProgress? then LastBackupStat(s.records, s.backups[name].schedule, name) else Failed)
    case Crash => s.(work := map[])
  }

  ghost predicate Run(s: State, acts: seq<Action>, s': State)
    decreases |acts|
  {
    if acts == [] then s' == s
    else Enabled(s, acts[0]) && Run(Do(s, acts[0]), acts[1..], s')
  }

  predicate Empty(s: State) {
    s.backups == map[] && s.records == map[] && s.work == map[] && s.sent == {} && s.own == {} && s.created == {}
  }

  // ---------- truthfulness ----------

  ghost predicate Stored(s: State) {
    && (forall n :: n in s.backups ==> n.snap != "" && s.backups[n].uid in s.created)
    && (forall n, m :: n in s.backups && m in s.backups && s.backups[n].uid == s.backups[m].uid ==> n == m)
  }

  ghost predicate RecordsTrue(s: State) {
    forall k :: k in s.records ==> RecordTrue(s, k, s.records[k])
  }

  ghost predicate DoneSent(s: State) {
    && (forall n :: n in s.backups && s.backups[n].status.Done? ==> n in s.sent)
    && (forall n :: n in s.work && (s.work[n].phase.Sent? || s.work[n].phase.Recorded?) ==> n in s.sent)
  }

  ghost predicate Inv(s: State) {
    Stored(s) && RecordsTrue(s) && DoneSent(s)
  }

  /** The record holds only snapshots that were transferred. */
  predicate RecordTrue(s: State, key: Key, r: Record) {
    && (r.last != "" ==> Name(key.volume, r.last) in s.sent)
    && (r.secondLast != "" ==> Name(key.volume, r.secondLast) in s.sent)
  }

  lemma StepKeepsInv(s: State, a: Action)
    requires Inv(s) && Enabled(s, a)
    ensures Inv(Do(s, a))
  {
    hide RecordTrue, Stored, DoneSent, Do, Enabled;
    StepKeepsStored(s, a);
    StepKeepsDoneSent(s, a);
    forall k | k in Do(s, a).records ensures RecordTrue(Do(s, a), k, Do(s, a).records[k]) {
      StepKeepsRecord(s, a, k);
    }
  }

  lemma StepKeepsStored(s: State, a: Action)
    requires Stored(s) && Enabled(s, a)
    ensures Stored(Do(s, a))
  {
    hide Do;
    var s' := Do(s, a);
    UidsGiven(s, a);
    forall n | n in s'.backups ensures n.snap != "" && s'.backups[n].uid in s'.created { SameUid(s, a, n); }
    forall n, m | n in s'.backups && m in s'.backups && s'.backups[n].uid == s'.backups[m].uid ensures n == m {
      SameUid(s, a, n);
      SameUid(s, a, m);
    }
  }

  lemma UidsGiven(s: State, a: Action)
    requires Enabled(s, a)
    ensures s.created <= Do(s, a).created && (a.RestCreate? ==> a.uid in Do(s, a).created)
  {
    hide IsRecorded;
  }

  lemma StepKeepsDoneSent(s: State, a: Action)
    requires Inv(s) && Enabled(s, a)
    ensures DoneSent(Do(s, a))
  {
    hide RecordTrue, RecordsTrue, IsRecorded, Stored;
    if a.RestPoll? || a.Recover? { StatTrue(s, a.name); }
  }

  lemma StepKeepsRecord(s: State, a: Action, k: Key)
    requires Inv(s) && Enabled(s, a) && k in Do(s, a).records
    ensures RecordTrue(Do(s, a), k, Do(s, a).records[k])
  {
    hide IsRecorded, Stored;
    if k in s.records { assert RecordTrue(s, k, s.records[k]); }
  }

  /** A status concluded from the record is Done only for a transferred snapshot. */
  lemma StatTrue(s: State, name: Name)
    requires Inv(s) && name in s.backups
    ensures IsRecorded(s.records, s.backups[name].schedule, name) ==> name in s.sent
  {
    var key := Key(s.backups[name].schedule, name.volume);
    if key in s.records {
      assert RecordTrue(s, key, s.records[key]);
      assert name == Name(key.volume, name.snap);
    }
  }

  lemma {:induction false} RunKeepsInv(s: State, acts: seq<Action>, s': State)
    requires Inv(s) && Run(s, acts, s')
    ensures Inv(s')
    decreases |acts|
  {
    hide Inv, Do, Enabled;
    if acts != [] {
      StepKeepsInv(s, acts[0]);
      RunKeepsInv(Do(s, acts[0]), acts[1..], s');
    }
  }

  /** In every run, with restarts, removals and status polls anywhere, a backup
      is Done only if its snapshot has been transferred. */
  lemma DoneMeansTransferred(s0: State, acts: seq<Action>, s: State, name: Name)
    requires Empty(s0) && Run(s0, acts, s) && name in s.backups && s.backups[name].status.Done?
    ensures name in s.sent
  {
    hide Run;
    RunKeepsInv(s0, acts, s);
  }

  // ---------- the transfer of the backup itself ----------

  /** Nothing but its own transfer can make the backup under this name Done. */
  ghost predicate Clean(s: State, n: Name)
    requires n in s.backups
  {
    var b := s.backups[n];
    && (b.status.Done? ==> b.uid in s.own)
    && (IsRecorded(s.records, b.schedule, n) ==> b.uid in s.own)
    && (n in s.work ==> s.work[n].phase.Broken? || (s.work[n].uid == b.uid && (s.work[n].phase.Sending? || b.uid in s.own)))
  }

  lemma StepKeepsClean(s: State, a: Action, n: Name)
    requires Inv(s) && Enabled(s, a) && n in s.backups && Clean(s, n) && n in Do(s, a).backups
    ensures Clean(Do(s, a), n) && Do(s, a).backups[n].uid == s.backups[n].uid
  {
    hide Inv, IsRecorded, RecordTrue;
    assert n.snap != "" by { SnapNamed(s, n); }
    if a.UpdateRecord? {
      UpdateKeepsClean(s, a.name, a.ok, n);
    } else {
      RecordedBefore(s, a, n);
    }
  }

  lemma SnapNamed(s: State, n: Name)
    requires Inv(s) && n in s.backups
    ensures n.snap != ""
  {
  }

  /** No other step puts the snapshot of a stored backup into its record. */
  lemma RecordedBefore(s: State, a: Action, n: Name)
    requires Enabled(s, a) && n in s.backups && n.snap != "" && !a.UpdateRecord?
    ensures IsRecorded(Do(s, a).records, s.backups[n].schedule, n) ==> IsRecorded(s.records, s.backups[n].schedule, n)
  {
  }

  lemma UpdateKeepsClean(s: State, name: Name, ok: bool, n: Name)
    requires Enabled(s, UpdateRecord(name, ok)) && n in s.backups && Clean(s, n) && n.snap != ""
    ensures Clean(Do(s, UpdateRecord(name, ok)), n)
  {
  }

  /** A backup about to be created could be taken for an earlier one: the record
      of its schedule names its snapshot, or a worker still carries an earlier
      object of its name. */
  predicate Tainted(s: State, schedule: string, name: Name) {
    IsRecorded(s.records, schedule, name) || (name in s.work && !s.work[name].phase.Broken?)
  }

  /** The backup is Done in `s` although its own transfer has not succeeded. */
  ghost predicate FalselyDone(s: State, uid: Uid) {
    uid !in s.own && exists n :: n in s.backups && s.backups[n].uid == uid && s.backups[n].status.Done?
  }

  ghost predicate MayBeFalselyDone(s: State, uid: Uid) {
    exists acts, s' :: Run(s, acts, s') && FalselyDone(s', uid)
  }

  /** The backup with this uid, as long as it is stored, is clean. */
  ghost predicate CleanUid(s: State, uid: Uid) {
    uid in s.created && forall n :: n in s.backups && s.backups[n].uid == uid ==> Clean(s, n)
  }

  lemma StepKeepsCleanUid(s: State, a: Action, uid: Uid)
    requires Inv(s) && Enabled(s, a) && CleanUid(s, uid)
    ensures CleanUid(Do(s, a), uid)
  {
    hide Inv, Clean;
    var s' := Do(s, a);
    forall n | n in s'.backups && s'.backups[n].uid == uid ensures Clean(s', n) {
      SameUid(s, a, n);
      if n in s.backups { StepKeepsClean(s, a, n); }
    }
  }

  lemma SameUid(s: State, a: Action, n: Name)
    requires Enabled(s, a) && n in Do(s, a).backups
    ensures if n in s.backups then Do(s, a).backups[n].uid == s.backups[n].uid
            else a.RestCreate? && a.name == n && Do(s, a).backups[n].uid == a.uid && a.uid !in s.created
  {
    hide IsRecorded;
  }

  lemma {:induction false} CleanUidStays(s: State, acts: seq<Action>, s': State, uid: Uid)
    requires Inv(s) && CleanUid(s, uid) && Run(s, acts, s')
    ensures CleanUid(s', uid)
    decreases |acts|
  {
    hide Inv, Do, Enabled, CleanUid;
    if acts != [] {
      StepKeepsInv(s, acts[0]);
      StepKeepsCleanUid(s, acts[0], uid);
      CleanUidStays(Do(s, acts[0]), acts[1..], s', uid);
    }
  }

  lemma UntaintedIsClean(s: State, uid: Uid, schedule: string, name: Name)
    requires Inv(s) && Enabled(s, RestCreate(uid, schedule, name)) && !Tainted(s, schedule, name)
    ensures CleanUid(Do(s, RestCreate(uid, schedule, name)), uid)
  {
  }

  lemma TaintedLies(s: State, uid: Uid, schedule: string, name: Name)
    requires Inv(s) && Enabled(s, RestCreate(uid, schedule, name)) && Tainted(s, schedule, name) && uid !in s.own
    requires forall n :: n in s.work ==> s.work[n].uid != uid
    ensures MayBeFalselyDone(Do(s, RestCreate(uid, schedule, name)), uid)
  {
    hide Run;
    var t := Do(s, RestCreate(uid, schedule, name));
    if IsRecorded(s.records, schedule, name) {
      RunOne(t, RestPoll(name));
      assert FalselyDone(Do(t, RestPoll(name)), uid) by { assert name in Do(t, RestPoll(name)).backups; }
    } else {
      WorkerLies(t, uid, name);
    }
  }

  /** A worker of an earlier object ends by marking the new one. */
  lemma WorkerLies(t: State, uid: Uid, name: Name)
    requires name in t.backups && t.backups[name].uid == uid && uid !in t.own
    requires name in t.work && !t.work[name].phase.Broken? && t.work[name].uid != uid
    ensures MayBeFalselyDone(t, uid)
  {
    hide Run, IsRecorded;
    var acts, u := [], t;
    assert Run(t, [], t) by { RunNone(t); }
    if u.work[name].phase.Sending? {
      u := Do(t, Transfer(name, true));
      RunOne(t, Transfer(name, true));
      acts := [Transfer(name, true)];
    }
    if u.work[name].phase.Sent? {
      RunOne(u, UpdateRecord(name, true));
      RunAppend(t, acts, u, [UpdateRecord(name, true)], Do(u, UpdateRecord(name, true)));
      acts := acts + [UpdateRecord(name, true)];
      u := Do(u, UpdateRecord(name, true));
    }
    RunOne(u, Finish(name));
    RunAppend(t, acts, u, [Finish(name)], Do(u, Finish(name)));
    var v := Do(u, Finish(name));
    assert name in v.backups && v.backups[name].uid == uid && v.backups[name].status.Done?;
    assert FalselyDone(v, uid);
  }

  /** The uids in use are among those given out. */
  ghost predicate UidsOk(s: State) {
    && s.own <= s.created
    && (forall n :: n in s.work ==> s.work[n].uid in s.created)
    && (forall n :: n in s.backups ==> s.backups[n].uid in s.created)
  }

  lemma StepKeepsUids(s: State, a: Action)
    requires UidsOk(s) && Enabled(s, a)
    ensures UidsOk(Do(s, a))
  {
    hide IsRecorded;
  }

  lemma {:induction false} RunKeepsUids(s: State, acts: seq<Action>, s': State)
    requires UidsOk(s) && Run(s, acts, s')
    ensures UidsOk(s')
    decreases |acts|
  {
    hide UidsOk, Do, Enabled;
    if acts != [] {
      StepKeepsUids(s, acts[0]);
      RunKeepsUids(Do(s, acts[0]), acts[1..], s');
    }
  }

  /** Exactly when may a new backup be reported Done without its own transfer: in
      any reachable state, its creation has a continuation to that if and only if
      the record of its schedule names its snapshot or a worker still carries an
      earlier object of its name. */
  lemma FalselyDoneIff(s0: State, before: seq<Action>, s: State, uid: Uid, schedule: string, name: Name)
    requires Empty(s0) && Run(s0, before, s) && Enabled(s, RestCreate(uid, schedule, name))
    ensures MayBeFalselyDone(Do(s, RestCreate(uid, schedule, name)), uid) <==> Tainted(s, schedule, name)
  {
    hide Run, Do, Inv, Tainted, MayBeFalselyDone, UidsOk;
    var a := RestCreate(uid, schedule, name);
    assert Inv(s0) && UidsOk(s0) by { EmptyOk(s0); }
    RunKeepsInv(s0, before, s);
    RunKeepsUids(s0, before, s);
    if Tainted(s, schedule, name) {
      FreshUid(s, uid);
      TaintedLies(s, uid, schedule, name);
    } else {
      StepKeepsInv(s, a);
      UntaintedIsClean(s, uid, schedule, name);
      CleanNeverLies(Do(s, a), uid);
    }
  }

  lemma EmptyOk(s: State)
    requires Empty(s)
    ensures Inv(s) && UidsOk(s)
  {
  }

  lemma FreshUid(s: State, uid: Uid)
    requires UidsOk(s) && uid !in s.created
    ensures uid !in s.own && forall n :: n in s.work ==> s.work[n].uid != uid
  {
  }

  lemma CleanNeverLies(s: State, uid: Uid)
    requires Inv(s) && CleanUid(s, uid)
    ensures !MayBeFalselyDone(s, uid)
  {
    hide Inv, Run;
    forall acts, s' | Run(s, acts, s') ensures !FalselyDone(s', uid) {
      CleanUidStays(s, acts, s', uid);
    }
  }

  /** No backup is created while it could be taken for an earlier one. */
  ghost predicate UntaintedRun(s: State, acts: seq<Action>, s': State)
    decreases |acts|
  {
    if acts == [] then s' == s
    else
      && Enabled(s, acts[0]) && (acts[0].RestCreate? ==> !Tainted(s, acts[0].schedule, acts[0].name))
      && UntaintedRun(Do(s, acts[0]), acts[1..], s')
  }

  ghost predicate AllClean(s: State) {
    forall n :: n in s.backups ==> Clean(s, n)
  }

  lemma {:induction false} UntaintedKeepsClean(s: State, acts: seq<Action>, s': State)
    requires Inv(s) && AllClean(s) && UntaintedRun(s, acts, s')
    ensures AllClean(s')
    decreases |acts|
  {
    hide Inv, Do, Enabled, Tainted, AllClean;
    if acts != [] {
      StepKeepsInv(s, acts[0]);
      StepKeepsAllClean(s, acts[0]);
      UntaintedKeepsClean(Do(s, acts[0]), acts[1..], s');
    }
  }

  lemma StepKeepsAllClean(s: State, a: Action)
    requires Inv(s) && AllClean(s) && Enabled(s, a)
    requires a.RestCreate? ==> !Tainted(s, a.schedule, a.name)
    ensures AllClean(Do(s, a))
  {
    hide Inv, Clean, Tainted;
    var s' := Do(s, a);
    forall n | n in s'.backups ensures Clean(s', n) {
      SameUid(s, a, n);
      if n in s.backups {
        StepKeepsClean(s, a, n);
      } else {
        UntaintedIsClean(s, a.uid, a.schedule, a.name);
      }
    }
  }

  /** In runs without such creations a Done backup was transferred itself. */
  lemma DoneMeansOwnTransfer(s0: State, acts: seq<Action>, s: State, name: Name)
    requires Empty(s0) && UntaintedRun(s0, acts, s) && name in s.backups && s.backups[name].status.Done?
    ensures s.backups[name].uid in s.own
  {
    hide UntaintedRun;
    UntaintedKeepsClean(s0, acts, s);
  }

  // ---------- runs ----------

  lemma RunNone(s: State)
    ensures Run(s, [], s)
  {
  }

  lemma RunOne(s: State, a: Action)
    requires Enabled(s, a)
    ensures Run(s, [a], Do(s, a))
  {
    hide Do, Enabled;
    assert [a][1..] == [];
    assert Run(Do(s, a), [], Do(s, a));
  }

  lemma {:induction false} RunAppend(s: State, a: seq<Action>, m: State, b: seq<Action>, s': State)
    requires Run(s, a, m) && Run(m, b, s')
    ensures Run(s, a + b, s')
    decreases |a|
  {
    hide Do, Enabled;
    if a == [] {
      assert a + b == b;
    } else {
      RunAppend(Do(s, a[0]), a[1..], m, b, s');
      assert (a + b)[1..] == a[1..] + b;
    }
  }

  /** Two steps in a row, each from the state the last one left. */
  lemma Then(s: State, acts: seq<Action>, m: State, a: Action) returns (s': State)
    requires Run(s, acts, m) && Enabled(m, a)
    ensures s' == Do(m, a) && Run(s, acts + [a], s')
  {
    hide Run, Do, Enabled;
    s' := Do(m, a);
    RunOne(m, a);
    RunAppend(s, acts, m, [a], s');
  }

  // ---------- both ways of being taken for an earlier backup happen ----------

  /** A backup that goes through without trouble. */
  lemma SmoothBackup(s0: State, before: seq<Action>, s: State, uid: Uid, schedule: string, name: Name)
    returns (acts: seq<Action>, s': State)
    requires Run(s0, before, s) && Enabled(s, RestCreate(uid, schedule, name)) && name !in s.work
    ensures Run(s0, acts, s') && s'.work == s.work && s'.created == s.created + {uid}
    ensures s'.backups == s.backups[name := Bkp(uid, schedule, Done)]
    ensures var key := Key(schedule, name.volume);
      s'.records == s.records[key := Record(name.snap, if key in s.records then s.records[key].last else "")]
  {
    hide Run;
    var s1 := Then(s0, before, s, RestCreate(uid, schedule, name));
    acts := before + [RestCreate(uid, schedule, name)];
    var s2 := Then(s0, acts, s1, Accept(name, true));
    acts := acts + [Accept(name, true)];
    acts, s' := CarriedThrough(s0, acts, s2, name);
  }

  lemma CarriedThrough(s0: State, before: seq<Action>, s: State, name: Name) returns (acts: seq<Action>, s': State)
    requires Run(s0, before, s) && Enabled(s, Start(name)) && Key(s.backups[name].schedule, name.volume) in s.records
    ensures Run(s0, acts, s') && s'.work == s.work && s'.created == s.created
    ensures s'.backups == s.backups[name := s.backups[name].(status := Done)]
    ensures var key := Key(s.backups[name].schedule, name.volume);
      s'.records == s.records[key := Record(name.snap, s.records[key].last)]
  {
    hide Run;
    var s1 := Then(s0, before, s, Start(name));
    acts := before + [Start(name)];
    var s2 := Then(s0, acts, s1, Transfer(name, true));
    acts := acts + [Transfer(name, true)];
    var s3 := Then(s0, acts, s2, UpdateRecord(name, true));
    acts := acts + [UpdateRecord(name, true)];
    s' := Then(s0, acts, s3, Finish(name));
    acts := acts + [Finish(name)];
  }

  /** With a reused snapshot name, a backup that was never started can be reported
      as Done: deleting the first backup leaves the record alone, because a later
      backup is the last one, and the record still holds the name. */
  lemma ReusedNameIsReportedDone(s0: State, schedule: string, volume: string) returns (acts: seq<Action>, s: State)
    requires Empty(s0)
    ensures Run(s0, acts, s) && Enabled(s, RestCreate(3, schedule, Name(volume, "s")))
    ensures !Enabled(s, RestDropRecord(Key(schedule, volume), "s"))
    ensures MayBeFalselyDone(Do(s, RestCreate(3, schedule, Name(volume, "s"))), 3)
  {
    hide Run, MayBeFalselyDone, Do;
    RunNone(s0);
    var s1, s2;
    acts, s1 := SmoothBackup(s0, [], s0, 1, schedule, Name(volume, "s"));
    acts, s2 := SmoothBackup(s0, acts, s1, 2, schedule, Name(volume, "t"));
    s := Then(s0, acts, s2, RestRemove(Name(volume, "s")));
    acts := acts + [RestRemove(Name(volume, "s"))];
    RemoveEffect(s2, Name(volume, "s"));
    assert Tainted(s, schedule, Name(volume, "s"));
    FalselyDoneIff(s0, acts, s, 3, schedule, Name(volume, "s"));
  }

  lemma RemoveEffect(s: State, name: Name)
    requires Enabled(s, RestRemove(name))
    ensures Do(s, RestRemove(name)) == s.(backups := s.backups - {name})
  {
  }

  /** A backup removed during its transfer and created again can be marked Done
      by the worker of the removed one. */
  lemma LateWorkerMarksNewBackup(s0: State, schedule: string, name: Name) returns (acts: seq<Action>, s: State)
    requires Empty(s0) && name.snap != ""
    ensures Run(s0, acts, s) && Enabled(s, RestCreate(2, schedule, name))
    ensures !IsRecorded(s.records, schedule, name)
    ensures MayBeFalselyDone(Do(s, RestCreate(2, schedule, name)), 2)
  {
    hide Run, MayBeFalselyDone;
    RunNone(s0);
    var s1 := Then(s0, [], s0, RestCreate(1, schedule, name));
    acts := [] + [RestCreate(1, schedule, name)];
    var s2 := Then(s0, acts, s1, Accept(name, true));
    acts := acts + [Accept(name, true)];
    var s3 := Then(s0, acts, s2, Start(name));
    acts := acts + [Start(name)];
    s := Then(s0, acts, s3, RestRemove(name));
    acts := acts + [RestRemove(name)];
    FalselyDoneIff(s0, acts, s, 2, schedule, name);
  }
}
