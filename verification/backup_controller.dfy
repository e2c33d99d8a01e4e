/** The backup controller's handlers, each proved to be a run of backup steps. */
module BackupController {
  import opened Backup

  const MAX_BACKUP_RETRY_COUNT := 10

  ghost predicate Reaches(s: State, s': State) {
    exists acts :: Run(s, acts, s')
  }

  lemma ReachesStep(s: State, m: State, a: Action)
    requires Reaches(s, m) && Enabled(m, a)
    ensures Reaches(s, Do(m, a))
  {
    hide Do, Enabled, Run;
    var acts :| Run(s, acts, m);
    var s' := Then(s, acts, m, a);
  }

  /** One of the first ten attempts succeeds. */
  predicate TransferSucceeds(attempts: seq<bool>)
    requires |attempts| >= 10
  {
    exists i :: 0 <= i < 10 && attempts[i]
  }

  /** The transfer is tried until it succeeds, ten times at most. */
  method CreateVolumeBackup(attempts: seq<bool>) returns (ok: bool)
    requires |attempts| >= MAX_BACKUP_RETRY_COUNT
    ensures ok <==> TransferSucceeds(attempts)
  {
    var retryCount := 0;
    while retryCount < MAX_BACKUP_RETRY_COUNT
      invariant 0 <= retryCount <= MAX_BACKUP_RETRY_COUNT
      invariant forall i :: 0 <= i < retryCount ==> !attempts[i]
    {
      if attempts[retryCount] { return true; }
      retryCount := retryCount + 1;
    }
    return false;
  }

  class Controller {
    var s: State

    constructor (start: State)
      ensures s == start
    {
      s := start;
    }

    method Take(ghost start: State, a: Action)
      requires Inv(s) && Reaches(start, s) && Enabled(s, a)
      modifies this
      ensures s == Do(old(s), a) && Inv(s) && Reaches(start, s)
    {
      StepKeepsInv(s, a);
      ReachesStep(start, s, a);
      s := Do(s, a);
    }

    /** The sync event of a backup in state Init: the transfer runs only after
        InProgress is stored, the record is updated only after the transfer, and
        Done is stored only after both. `stored` tells which status writes succeed. */
    method SyncEventHandler(ghost start: State, name: Name, attempts: seq<bool>, recordable: bool, stored: (bool, bool))
      requires Inv(s) && Reaches(start, s) && name in s.backups && s.backups[name].status.Init? && name !in s.work
      requires |attempts| >= MAX_BACKUP_RETRY_COUNT
      modifies this
      ensures Inv(s) && Reaches(start, s) && name in s.backups
      ensures s == old(s).(backups := s.backups, records := s.records, work := s.work, own := s.own, sent := s.sent)
      ensures s.backups == old(s).backups[name := old(s).backups[name].(status :=
                if !stored.0 then Init
                else if !stored.1 then InProgress
                else if recordable && TransferSucceeds(attempts) then Done
                else Failed)]
      ensures s.backups[name].status.Done? ==> s.backups[name].uid in s.own && name in s.sent
      ensures s.sent == if stored.0 && TransferSucceeds(attempts) then old(s).sent + {name} else old(s).sent
      ensures var key := Key(old(s).backups[name].schedule, name.volume);
        s.records == if stored.0 && TransferSucceeds(attempts) && recordable && key in old(s).records
                     then old(s).records[key := Record(name.snap, old(s).records[key].last)]
                     else old(s).records
      ensures stored.1 ==> s.work == old(s).work
    {
      hide Reaches, Inv, IsRecorded, Do;
      if !stored.0 { return; }
      StartStep(s, name);
      Take(start, Start(name));
      SendAndRecord(start, name, attempts, recordable);
      if stored.1 {
        FinishStep(s, name);
        Take(start, Finish(name));
      }
    }

    /** The transfer of a started backup and, after it, the update of the record. */
    method SendAndRecord(ghost start: State, name: Name, attempts: seq<bool>, recordable: bool)
      requires Inv(s) && Reaches(start, s) && name in s.backups && name in s.work && s.work[name].phase.Sending?
      requires |attempts| >= MAX_BACKUP_RETRY_COUNT
      modifies this
      ensures Inv(s) && Reaches(start, s)
      ensures var sent := TransferSucceeds(attempts);
        var w := old(s).work[name];
        var key := Key(w.schedule, name.volume);
        s == old(s).(work := old(s).work[name := w.(phase := if sent && recordable then Recorded else Broken)],
                     own := if sent then old(s).own + {w.uid} else old(s).own,
                     sent := if sent then old(s).sent + {name} else old(s).sent,
                     records := if sent && recordable && key in old(s).records
                                then old(s).records[key := Record(name.snap, old(s).records[key].last)]
                                else old(s).records)
    {
      hide Reaches, Inv, IsRecorded, Do;
      var ok := CreateVolumeBackup(attempts);
      TransferStep(s, name, ok);
      Take(start, Transfer(name, ok));
      if ok {
        RecordStep(s, name, recordable);
        Take(start, UpdateRecord(name, recordable));
      }
    }

    /** At start-up every unfinished backup gets its final status: one that was in
        progress by the record of completed backups, any other Failed. */
    method CleanupOldBackup(ghost start: State, list: seq<Name>)
      requires Inv(s) && Reaches(start, s)
      requires forall n :: n in list ==> n in s.backups
      requires forall i, j :: 0 <= i < j < |list| ==> list[i] != list[j]
      modifies this
      ensures Inv(s) && Reaches(start, s) && s == old(s).(backups := s.backups)
      ensures s.backups.Keys == old(s).backups.Keys
      ensures forall n :: n in list ==> s.backups[n] == Settled(old(s), n)
      ensures forall n :: n in list ==> FinalStatus(old(s), n, s.backups[n].status)
      ensures forall n :: n in s.backups && n !in list ==> s.backups[n] == old(s).backups[n]
    {
      hide Reaches, Inv, LastBackupStat, Do, Enabled, FinalStatus;
      for i := 0 to |list|
        invariant Inv(s) && Reaches(start, s) && s == old(s).(backups := s.backups)
        invariant s.backups.Keys == old(s).backups.Keys
        invariant forall k :: 0 <= k < i ==> s.backups[list[k]] == Settled(old(s), list[k])
        invariant forall n :: n in s.backups && n !in list[..i] ==> s.backups[n] == old(s).backups[n]
      {
        var name := list[i];
        if !s.backups[name].status.Done? {
          RecoverStep(s, name);
          Take(start, Recover(name));
        }
      }
      forall n | n in list ensures FinalStatus(old(s), n, Settled(old(s), n).status) {
        SettledIsFinal(old(s), n);
      }
    }

    /** Polling the status of a stalled backup. The answer carries the status also
        if it could not be stored. */
    method RestGet(ghost start: State, name: Name, poolManagerDown: bool, stored: bool) returns (b: Bkp)
      requires Inv(s) && Reaches(start, s) && name in s.backups
      modifies this
      ensures Inv(s) && Reaches(start, s) && s == if stored then old(s).(backups := old(s).backups[name := b]) else old(s)
      ensures !poolManagerDown ==> b == old(s).backups[name]
      ensures b == old(s).backups[name].(status := b.status)
      ensures poolManagerDown ==>
                b.status == (if old(s).backups[name].status.Failed? then Failed
                             else if old(s).backups[name].status.Done? || InRecord(old(s), name) then Done else Failed)
      ensures b.status.Done? ==> name in s.sent
    {
      hide Reaches, RecordsTrue;
      b := s.backups[name];
      assert s.backups[name := b] == s.backups;
      if !b.status.Done? && !b.status.Failed? && poolManagerDown {
        PollSettles(s, name);
        b := b.(status := LastBackupStat(s.records, b.schedule, name));
        if stored { Take(start, RestPoll(name)); }
      }
    }

    /** A request for a backup: the record of the schedule is created if there is
        none, and the backup is to be taken on top of the last completed one. */
    method RestPost(ghost start: State, uid: Uid, schedule: string, name: Name) returns (ok: bool, prevSnap: string)
      requires Inv(s) && Reaches(start, s) && uid !in s.created && name.snap != ""
      modifies this
      ensures Inv(s) && Reaches(start, s)
      ensures ok <==> name !in old(s).backups
      ensures var key := Key(schedule, name.volume);
        && prevSnap == (if key in old(s).records then old(s).records[key].last else "")
        && s.records == (if key in old(s).records then old(s).records else old(s).records[key := Record("", "")])
      ensures s.backups == if ok then old(s).backups[name := Bkp(uid, schedule, Pending)] else old(s).backups
      ensures s == old(s).(backups := s.backups, records := s.records, created := s.created)
      ensures prevSnap != "" ==> Name(name.volume, prevSnap) in s.sent
    {
      hide Reaches;
      var key := Key(schedule, name.volume);
      LastWasSent(s, key);
      prevSnap := if key in s.records then s.records[key].last else "";
      if name in s.backups {
        if key !in s.records { Take(start, RestRecord(key)); }
        return false, prevSnap;
      }
      Take(start, RestCreate(uid, schedule, name));
      return true, prevSnap;
    }

    /** A request to delete a backup: the record goes with the last backup of its
        schedule, so that the next one is a full backup. */
    method RestDelete(ghost start: State, schedule: string, name: Name, snapshotDeleted: bool) returns (ok: bool)
      requires Inv(s) && Reaches(start, s)
      modifies this
      ensures Inv(s) && Reaches(start, s)
      ensures ok <==> name !in old(s).backups || snapshotDeleted
      ensures var key := Key(schedule, name.volume);
        s.records == if name in old(s).backups && key in old(s).records && (old(s).records[key].last == name.snap || old(s).records[key].last == "")
                     then old(s).records - {key} else old(s).records
      ensures s.backups == if ok then old(s).backups - {name} else old(s).backups
      ensures s == old(s).(backups := s.backups, records := s.records)
    {
      hide Reaches, Inv;
      if name !in s.backups {
        assert s.backups - {name} == s.backups;
        return true;
      }
      var key := Key(schedule, name.volume);
      if key in s.records && (s.records[key].last == name.snap || s.records[key].last == "") {
        Take(start, RestDropRecord(key, name.snap));
      }
      if !snapshotDeleted { return false; }
      Take(start, RestRemove(name));
      return true;
    }

    /** The add event: only a pending backup is taken up. */
    method AddEventHandler(ghost start: State, name: Name)
      requires Inv(s) && Reaches(start, s) && name in s.backups
      modifies this
      ensures Inv(s) && Reaches(start, s)
      ensures s == old(s).(backups := old(s).backups[name := old(s).backups[name].(status :=
                if old(s).backups[name].status.Pending? then Init else Invalid)])
    {
      hide Reaches, Inv;
      Take(start, Accept(name, s.backups[name].status.Pending?));
    }

    /** The manager goes down: what its workers were doing is lost, and nothing else. */
    method Restart(ghost start: State)
      requires Inv(s) && Reaches(start, s)
      modifies this
      ensures Inv(s) && Reaches(start, s) && s == old(s).(work := map[])
    {
      hide Reaches, Inv;
      Take(start, Crash);
    }
  }

  lemma PollSettles(s: State, name: Name)
    requires Inv(s) && name in s.backups
    ensures LastBackupStat(s.records, s.backups[name].schedule, name) == if InRecord(s, name) then Done else Failed
    ensures InRecord(s, name) ==> name in s.sent
  {
    hide Stored, DoneSent;
    SnapNamed(s, name);
    if InRecord(s, name) {
      var key := Key(s.backups[name].schedule, name.volume);
      assert RecordTrue(s, key, s.records[key]);
    }
  }

  lemma LastWasSent(s: State, key: Key)
    requires Inv(s)
    ensures key in s.records && s.records[key].last != "" ==> Name(key.volume, s.records[key].last) in s.sent
  {
  }

  /** The final status of a backup found at start-up. */
  function Settled(s: State, name: Name): Bkp
    requires name in s.backups
  {
    var b := s.backups[name];
    match b.status
    case Done => b
    case InProgress => b.(status := LastBackupStat(s.records, b.schedule, name))
    case _ => b.(status := Failed)
  }

  /** Done stays; a backup that was in progress is Done if its snapshot is the last
      or second last of its record; all else has failed. */
  predicate FinalStatus(s: State, name: Name, status: Status)
    requires name in s.backups
  {
    var was := s.backups[name].status;
    status == if was.Done? || (was.InProgress? && InRecord(s, name)) then Done else Failed
  }

  /** The snapshot is one of the last two in the record of its schedule. */
  predicate InRecord(s: State, name: Name)
    requires name in s.backups
  {
    var key := Key(s.backups[name].schedule, name.volume);
    key in s.records && (s.records[key].last == name.snap || s.records[key].secondLast == name.snap)
  }

  lemma RecoverStep(s: State, name: Name)
    requires name in s.backups && !s.backups[name].status.Done?
    ensures Enabled(s, Recover(name))
    ensures Do(s, Recover(name)) == s.(backups := s.backups[name := Settled(s, name)])
  {
  }

  lemma SettledIsFinal(s: State, name: Name)
    requires name in s.backups
    ensures FinalStatus(s, name, Settled(s, name).status)
  {
  }

  // ---------- the steps of a transfer, one by one ----------

  lemma StartStep(s: State, name: Name)
    requires Enabled(s, Start(name))
    ensures var b := s.backups[name];
      Do(s, Start(name)) == s.(backups := s.backups[name := b.(status := InProgress)], work := s.work[name := Work(b.uid, b.schedule, Sending)])
  {
  }

  lemma TransferStep(s: State, name: Name, ok: bool)
    requires Enabled(s, Transfer(name, ok))
    ensures var w := s.work[name];
      Do(s, Transfer(name, ok)) ==
        if ok then s.(work := s.work[name := w.(phase := Sent)], own := s.own + {w.uid}, sent := s.sent + {name})
        else s.(work := s.work[name := w.(phase := Broken)])
  {
  }

  lemma RecordStep(s: State, name: Name, ok: bool)
    requires Enabled(s, UpdateRecord(name, ok))
    ensures var w := s.work[name]; var key := Key(w.schedule, name.volume);
      Do(s, UpdateRecord(name, ok)) ==
        s.(work := s.work[name := w.(phase := if ok then Recorded else Broken)],
           records := if ok && key in s.records then s.records[key := Record(name.snap, s.records[key].last)] else s.records)
  {
  }

  lemma FinishStep(s: State, name: Name)
    requires Enabled(s, Finish(name)) && name in s.backups
    ensures Do(s, Finish(name)) ==
      s.(backups := s.backups[name := s.backups[name].(status := if s.work[name].phase.Recorded? then Done else Failed)],
         work := s.work - {name})
  {
  }
}
