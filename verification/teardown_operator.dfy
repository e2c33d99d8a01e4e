/** The deletion handlers as they update the cluster, each proved to be a run
  of teardown steps. */
module TeardownOperator {
  import opened Teardown

  /** No pool is left to destroy and no API call of the cleanup fails. */
  ghost predicate Unobstructed(s: State, failing: set<Device>, stuck: set<Name>) {
    failing !! s.claims && forall n :: n in s.cspis ==> !s.cspis[n].protected && n !in stuck
  }

  /** A CSPI that is being deleted has no pool left, and no API call of its cleanup
      fails. */
  ghost predicate CleanedUp(s: State, failing: set<Device>, stuck: set<Name>, n: Name)
    requires n in s.cspis
  {
    s.cspis[n].deleting ==>
      s.cspis[n].owned && !s.cspis[n].protected && n !in stuck && failing !! (s.cspis[n].devices * s.claims)
  }

  /** No API call of the cleanup of the CSPI fails. */
  ghost predicate Removable(s: State, failing: set<Device>, stuck: set<Name>, n: Name)
    requires n in s.cspis
  {
    n !in stuck && failing !! (s.cspis[n].devices * s.claims)
  }

  lemma SameCleanup(s: State, s': State, failing: set<Device>, stuck: set<Name>, n: Name)
    requires n in s.cspis && n in s'.cspis && s'.cspis[n] == s.cspis[n]
    requires s.cspis[n].devices * s'.claims == s.cspis[n].devices * s.claims
    ensures CleanedUp(s', failing, stuck, n) <==> CleanedUp(s, failing, stuck, n)
    ensures s.cspis[n].owned && !CanPerformCleanup(s.cspis[n]) ==> (CleanedUp(s, failing, stuck, n) <==> !s.cspis[n].deleting)
  {
  }

  ghost predicate DeviceOf(cspis: map<Name, Cspi>, list: seq<Name>, d: Device) {
    exists n :: n in list && n in cspis && d in cspis[n].devices
  }

  /** The cleanup of one CSPI leaves the claims of the others alone. */
  lemma OthersUntouched(s: State, claims: set<Device>, n: Name)
    requires Inv(s) && n in s.cspis && s.claims - s.cspis[n].devices <= claims <= s.claims
    ensures forall m :: m in s.cspis && m != n ==> s.cspis[m].devices * claims == s.cspis[m].devices * s.claims
  {
    hide Managers, WorkerOk;
    forall m | m in s.cspis && m != n ensures s.cspis[m].devices * claims == s.cspis[m].devices * s.claims {
      assert s.cspis[m].devices !! s.cspis[n].devices;
    }
  }

  class Cluster {
    var s: State

    constructor (start: State)
      ensures s == start
    {
      s := start;
    }

    /** One step of the model, kept on the record of steps since `start`. */
    method Take(ghost start: State, a: Action)
      requires Inv(s) && Reaches(start, s) && Enabled(s, a)
      modifies this
      ensures s == Do(old(s), a) && Inv(s) && Reaches(start, s)
    {
      StepKeepsInv(s, a);
      Then(start, s, a);
      s := Do(s, a);
    }

    // ---------- pool-manager ----------

    /** False is the error result; a stale object makes the update fail. */
    method AddPoolProtectionFinalizer(ghost start: State, n: Name, updated: bool) returns (ok: bool)
      requires Inv(s) && Reaches(start, s) && n in s.cspis && !s.cspis[n].deleting
      modifies this
      ensures Inv(s) && Reaches(start, s)
      ensures ok <==> updated || old(s).cspis[n].protected
      ensures ok ==> n in s.safe && n in s.cspis && s.cspis[n].protected
      ensures !ok ==> s == old(s)
    {
      if !s.cspis[n].protected && !updated { return false; }
      Take(start, AddProtection(n));
      return true;
    }

    /** Destroys the pool first and removes the finalizer only if that worked. */
    method Destroy(ghost start: State, n: Name, deleted: bool, updated: bool) returns (ok: bool)
      requires Inv(s) && Reaches(start, s) && n in s.cspis && s.cspis[n].deleting && n !in s.safe
      modifies this
      ensures Inv(s) && Reaches(start, s)
      ensures ok <==> !old(s).cspis[n].protected || (deleted && updated)
      ensures old(s).cspis[n].protected ==> s.imported == if deleted then old(s).imported - {n} else old(s).imported
      ensures ok ==> n !in s.imported && (n in s.cspis ==> !s.cspis[n].protected)
      ensures !ok ==> n in s.cspis && s.cspis[n].protected
      ensures s.claims == old(s).claims && s.cspcDeleting == old(s).cspcDeleting && s.cspcFinalizer == old(s).cspcFinalizer
      ensures s.worker == old(s).worker && s.safe == old(s).safe
      ensures forall m :: m != n ==> (m in s.cspis <==> m in old(s).cspis)
      ensures forall m :: m != n && m in s.cspis ==> s.cspis[m] == old(s).cspis[m]
      ensures n in s.cspis && s.cspis[n] == old(s).cspis[n].(protected := !ok && old(s).cspis[n].protected)
    {
      hide Reaches;
      if !s.cspis[n].protected { return true; }
      if !deleted { return false; }
      Take(start, DestroyPool(n));
      if !updated {
        Take(start, EndPass(n));
        return false;
      }
      Take(start, Unprotect(n));
      return true;
    }

    // ---------- operator ----------

    /** Releases the claims of a CSPI being cleaned up, one by one, until one
        cannot be deleted. */
    method CleanupBDC(ghost start: State, n: Name, failing: set<Device>) returns (ok: bool)
      requires Inv(s) && Reaches(start, s) && n in s.cspis && s.worker == Cleaning(n, s.cspis[n].devices * s.claims)
      modifies this
      ensures Inv(s) && Reaches(start, s) && s.worker.Cleaning? && s.worker.n == n
      ensures s == old(s).(claims := s.claims, worker := s.worker)
      ensures ok <==> failing !! (old(s).cspis[n].devices * old(s).claims)
      ensures ok ==> s.claims == old(s).claims - old(s).cspis[n].devices && s.worker.todo == {}
      ensures old(s).claims - old(s).cspis[n].devices <= s.claims <= old(s).claims
    {
      hide Reaches, Managers, Objects, Enabled, Do;
      while s.worker.todo != {}
        invariant Inv(s) && Reaches(start, s) && s.worker.Cleaning? && s.worker.n == n
        invariant s == old(s).(claims := s.claims, worker := s.worker)
        invariant s.claims <= old(s).claims && s.worker.todo == s.cspis[n].devices * s.claims
        invariant old(s).claims - old(s).cspis[n].devices <= s.claims
        invariant failing * (old(s).cspis[n].devices * old(s).claims) == failing * s.worker.todo
        decreases |s.worker.todo|
      {
        var d :| d in s.worker.todo;
        if d in failing { return false; }
        Releases(s, d);
        Take(start, ReleaseClaim(d));
      }
      AllReleased(old(s).cspis[n].devices, old(s).claims, s.claims, failing);
      return true;
    }

    /** The cleanup of one CSPI that is ready for it: first its claims, then the
        finalizer of the operator. */
    method CleanupOne(ghost start: State, n: Name, failing: set<Device>, stuck: set<Name>) returns (ok: bool)
      requires Inv(s) && Reaches(start, s) && s.worker.Resting? && n in s.cspis && CanPerformCleanup(s.cspis[n])
      modifies this
      ensures Inv(s) && Reaches(start, s) && s.worker.Resting?
      ensures ok <==> CleanedUp(old(s), failing, stuck, n)
      ensures s == old(s).(cspis := s.cspis, claims := s.claims)
      ensures s.cspis == if ok then old(s).cspis - {n} else old(s).cspis
      ensures old(s).claims - old(s).cspis[n].devices <= s.claims <= old(s).claims
      ensures ok ==> s.claims == old(s).claims - old(s).cspis[n].devices
      ensures forall m :: m in old(s).cspis && m != n ==> old(s).cspis[m].devices * s.claims == old(s).cspis[m].devices * old(s).claims
    {
      hide Reaches, Inv;
      ghost var before := s;
      Take(start, StartCleanup(n));
      var released := CleanupBDC(start, n, failing);
      OthersUntouched(before, s.claims, n);
      if !released || n in stuck {
        Take(start, StopWorker);
        return false;
      }
      Take(start, FinishCleanup);
      return true;
    }

    /** Cleans up the CSPIs on the list that are ready for it, passing by the others,
        until that fails for one; an error means that one being deleted is not
        gone. The first `done` CSPIs are seen to. */
    method CleanupCSPIResources(ghost start: State, list: seq<Name>, failing: set<Device>, stuck: set<Name>)
      returns (ok: bool, ghost done: nat)
      requires Inv(s) && Reaches(start, s) && s.worker.Resting?
      requires Listed(s, list)
      modifies this
      ensures Inv(s) && Reaches(start, s) && s.worker.Resting?
      ensures s == old(s).(cspis := s.cspis, claims := s.claims) && s.claims <= old(s).claims
      ensures forall n :: n in s.cspis ==> n in old(s).cspis && s.cspis[n] == old(s).cspis[n]
      ensures forall n :: n in old(s).cspis && n !in s.cspis ==>
                n in list && old(s).cspis[n].deleting && old(s).cspis[n].owned && !old(s).cspis[n].protected
      ensures ok <==> forall n :: n in list ==> CleanedUp(old(s), failing, stuck, n)
      ensures ok ==> forall n :: n in list && old(s).cspis[n].deleting ==> n !in s.cspis && old(s).cspis[n].devices !! s.claims
      ensures forall d :: d in old(s).claims && d !in s.claims ==> DeviceOf(old(s).cspis, list, d)
      ensures forall n :: n in old(s).cspis && n !in list ==> old(s).cspis[n].devices * s.claims == old(s).cspis[n].devices * old(s).claims
      ensures done <= |list| && forall i :: 0 <= i < |list| ==> (list[i] !in s.cspis <==> i < done && CanPerformCleanup(old(s).cspis[list[i]]))
      ensures done < |list| ==> CanPerformCleanup(old(s).cspis[list[done]]) && !CleanedUp(old(s), failing, stuck, list[done])
    {
      hide Reaches, Inv, CleanedUp, CanPerformCleanup, Cleaned;
      var waiting := false;
      CleanedNone(s, list);
      for i := 0 to |list|
        invariant Inv(s) && Reaches(start, s) && s.worker.Resting?
        invariant Cleaned(old(s), s, list, i)
        invariant !waiting <==> forall n :: n in list[..i] ==> CleanedUp(old(s), failing, stuck, n)
      {
        var n := list[i];
        assert list[..i + 1] == list[..i] + [n];
        CleanedNext(old(s), s, list, i);
        Owned(s, n);
        SameCleanup(old(s), s, failing, stuck, n);
        ghost var before := s;
        if CanPerformCleanup(s.cspis[n]) {
          var cleaned := CleanupOne(start, n, failing, stuck);
          if !cleaned {
            CleanedStopped(old(s), before, s, list, i);
            assert n in list;
            return false, i;
          }
          CleanedStep(old(s), before, s, list, i);
        } else {
          CleanedSkip(old(s), s, list, i);
          if s.cspis[n].deleting { waiting := true; }
        }
      }
      assert list[..|list|] == list;
      CleanedAll(old(s), s, list, failing, stuck);
      CleanedEnd(old(s), s, list, |list|);
      ok, done := !waiting, |list|;
    }

    /** Takes the finalizer off the claims that belong to no CSPI, until that fails
        for one. */
    method ReleaseLeftovers(ghost start: State, failing: set<Device>) returns (ok: bool)
      requires Inv(s) && Reaches(start, s) && s.worker == Finalizing(s.claims)
      modifies this
      ensures Inv(s) && Reaches(start, s) && s.worker.Finalizing?
      ensures s == old(s).(claims := s.claims, worker := s.worker)
      ensures ok <==> failing !! old(s).claims
      ensures ok ==> s.claims == {} && s.worker.todo == {}
      ensures s.claims <= old(s).claims && failing * old(s).claims <= s.claims
    {
      hide Reaches, Managers, Objects, Enabled, Do;
      while s.worker.todo != {}
        invariant Inv(s) && Reaches(start, s) && s.worker == Finalizing(s.claims)
        invariant s == old(s).(claims := s.claims, worker := s.worker)
        invariant failing * old(s).claims == failing * s.claims && s.claims <= old(s).claims
        decreases |s.worker.todo|
      {
        var d :| d in s.worker.todo;
        if d in failing {
          assert d in failing * s.claims;
          return false;
        }
        LeavesOver(s, d);
        Take(start, ReleaseLeftover(d));
      }
      assert forall d :: d in failing && d in old(s).claims ==> d in failing * old(s).claims;
      return true;
    }

    /** Deletes all CSPIs, cleans up, and removes the finalizer of the CSPC only
        if no CSPI is left and the claims left over are free of it. */
    method HandleCSPCDeletion(ghost start: State, failing: set<Device>, stuck: set<Name>, updated: bool)
      requires Inv(s) && Reaches(start, s) && s.worker.Resting? && s.cspcDeleting
      modifies this
      ensures Inv(s) && Reaches(start, s) && s.worker.Resting? && s.imported == old(s).imported
      ensures forall n :: n in s.cspis ==> n in old(s).cspis && s.cspis[n] == old(s).cspis[n].(deleting := true)
      ensures forall n :: n in old(s).cspis && n !in s.cspis ==> !old(s).cspis[n].protected
      ensures s.safe == old(s).safe && s.destroyed == old(s).destroyed && s.cspcDeleting && s.claims <= old(s).claims
      ensures old(s).cspcFinalizer && !s.cspcFinalizer ==> s.cspis == map[] && s.claims == {}
      ensures s.cspcFinalizer <==> old(s).cspcFinalizer && !(updated && Unobstructed(old(s), failing, stuck))
      ensures old(s).cspcFinalizer && (forall n :: n in old(s).cspis && !old(s).cspis[n].protected ==> Removable(old(s), failing, stuck, n)) ==>
                forall n :: n in old(s).cspis ==> (n in s.cspis <==> old(s).cspis[n].protected)
    {
      hide Reaches, Inv;
      var list := DeleteAssociatedCSPI(start);
      if !s.cspcFinalizer { return; }
      AllOwned(s);
      ghost var marked := s;
      var ok, done := CleanupCSPIResources(start, list, failing, stuck);
      ReadyGone(old(s), marked, s.cspis, list, done, failing, stuck);
      if !ok || s.cspis != map[] {
        return;
      }
      assert forall d :: d in marked.claims && d !in s.claims ==> DeviceOf(marked.cspis, list, d);
      AllUnobstructed(marked, list, s.claims, failing, stuck);
      Take(start, StartFinalize);
      ok := ReleaseLeftovers(start, failing);
      if ok && updated {
        Take(start, FinishFinalize);
      } else {
        Take(start, StopWorker);
      }
    }

    /** The deletion of a CSPC from any state without a pass under way, if no call
        fails: the handler marks the CSPIs, the pool-managers destroy their pools,
        and the handler called again finds nothing in its way. */
    method DeleteAll(ghost start: State)
      requires Inv(s) && Reaches(start, s) && s.worker.Resting? && s.cspcDeleting && s.safe == {}
      modifies this
      ensures Inv(s) && Reaches(start, s) && !s.cspcFinalizer
      ensures old(s).cspcFinalizer ==> s.cspis == map[] && s.claims == {} && s.imported == {}
    {
      hide Reaches, Inv;
      HandleCSPCDeletion(start, {}, {}, true);
      if !s.cspcFinalizer {
        NoPoolLeft(s);
        return;
      }
      var rest := s.cspis.Keys;
      while rest != {}
        invariant Inv(s) && Reaches(start, s) && s.worker.Resting? && s.cspcDeleting && s.cspcFinalizer && s.safe == {}
        invariant rest <= s.cspis.Keys
        invariant forall n :: n in s.cspis ==> s.cspis[n].deleting && (n in rest || !s.cspis[n].protected)
        decreases |rest|
      {
        var n :| n in rest;
        var destroyed := Destroy(start, n, true, true);
        rest := rest - {n};
      }
      HandleCSPCDeletion(start, {}, {}, true);
      NoPoolLeft(s);
    }

    /** Marks every CSPI as being deleted; returns their list. */
    method DeleteAssociatedCSPI(ghost start: State) returns (list: seq<Name>)
      requires Inv(s) && Reaches(start, s) && s.worker.Resting?
      modifies this
      ensures Inv(s) && Reaches(start, s) && s == old(s).(cspis := s.cspis)
      ensures s.cspis.Keys == old(s).cspis.Keys
      ensures forall n :: n in s.cspis ==> s.cspis[n] == old(s).cspis[n].(deleting := true)
      ensures forall n :: n in list <==> n in s.cspis
      ensures forall i, j :: 0 <= i < j < |list| ==> list[i] != list[j]
    {
      hide Reaches, Inv, Do, Enabled;
      list := [];
      var rest := s.cspis.Keys;
      while rest != {}
        invariant Inv(s) && Reaches(start, s) && s == old(s).(cspis := s.cspis)
        invariant s.cspis.Keys == old(s).cspis.Keys && rest <= s.cspis.Keys
        invariant forall n :: n in rest ==> s.cspis[n] == old(s).cspis[n]
        invariant forall n :: n in s.cspis && n !in rest ==> s.cspis[n] == old(s).cspis[n].(deleting := true)
        invariant forall n :: n in list <==> n in s.cspis && n !in rest
        invariant forall i, j :: 0 <= i < j < |list| ==> list[i] != list[j]
        decreases |rest|
      {
        var n :| n in rest;
        Deleted(s, n);
        Take(start, DeleteCspi(n));
        list := list + [n];
        rest := rest - {n};
      }
    }
  }

  /** The first `i` CSPIs of the list are seen to: those that were ready are gone
      with their claims, all others are as they were. */
  ghost predicate Cleaned(s0: State, s: State, list: seq<Name>, i: int) {
    && 0 <= i <= |list| && s == s0.(cspis := s.cspis, claims := s.claims) && s.claims <= s0.claims
    && (forall n :: n in s.cspis ==> n in s0.cspis && s.cspis[n] == s0.cspis[n])
    && (forall n :: n in s0.cspis && n !in s.cspis ==> n in list[..i] && CanPerformCleanup(s0.cspis[n]))
    && (forall n :: n in list[..i] && n in s0.cspis && CanPerformCleanup(s0.cspis[n]) ==> n !in s.cspis && s0.cspis[n].devices !! s.claims)
    && (forall d :: d in s0.claims && d !in s.claims ==> DeviceOf(s0.cspis, list, d))
    && (forall n :: n in s0.cspis && n !in list[..i] ==> s0.cspis[n].devices * s.claims == s0.cspis[n].devices * s0.claims)
  }

  ghost predicate Listed(s: State, list: seq<Name>) {
    && (forall n :: n in list ==> n in s.cspis)
    && (forall i, j :: 0 <= i < j < |list| ==> list[i] != list[j])
  }

  lemma CleanedNone(s: State, list: seq<Name>)
    ensures Cleaned(s, s, list, 0)
  {
  }

  lemma CleanedNext(s0: State, s: State, list: seq<Name>, i: int)
    requires Cleaned(s0, s, list, i) && Listed(s0, list) && i < |list|
    ensures list[i] in s.cspis && s.cspis[list[i]] == s0.cspis[list[i]] && list[i] !in list[..i] && list[i] in list
    ensures s0.cspis[list[i]].devices * s.claims == s0.cspis[list[i]].devices * s0.claims
  {
    hide CanPerformCleanup;
  }

  /** One more CSPI is cleaned up. */
  lemma CleanedStep(s0: State, s: State, s': State, list: seq<Name>, i: int)
    requires Cleaned(s0, s, list, i) && Listed(s0, list) && i < |list| && list[i] in s.cspis
    requires CanPerformCleanup(s.cspis[list[i]]) && s' == s.(cspis := s.cspis - {list[i]}, claims := s.claims - s.cspis[list[i]].devices)
    requires forall m :: m in s.cspis && m != list[i] ==> s.cspis[m].devices * s'.claims == s.cspis[m].devices * s.claims
    ensures Cleaned(s0, s', list, i + 1)
  {
    hide CanPerformCleanup;
    CleanedNext(s0, s, list, i);
    assert list[..i + 1] == list[..i] + [list[i]];
    StepDevices(s0, s, s'.claims, list, i);
  }

  lemma StepDevices(s0: State, s: State, claims: set<Device>, list: seq<Name>, i: int)
    requires Cleaned(s0, s, list, i) && i < |list| && list[i] in s.cspis && s.claims - s.cspis[list[i]].devices <= claims <= s.claims
    ensures forall d :: d in s0.claims && d !in claims ==> DeviceOf(s0.cspis, list, d)
  {
    hide CanPerformCleanup;
    forall d | d in s0.claims && d !in claims ensures DeviceOf(s0.cspis, list, d) {
      if d in s.claims { assert list[i] in list && d in s0.cspis[list[i]].devices; }
    }
  }

  lemma CleanedSkip(s0: State, s: State, list: seq<Name>, i: int)
    requires Cleaned(s0, s, list, i) && i < |list| && list[i] in s.cspis && !CanPerformCleanup(s.cspis[list[i]])
    ensures Cleaned(s0, s, list, i + 1)
  {
    hide CanPerformCleanup;
    assert list[..i + 1] == list[..i] + [list[i]];
  }

  /** The cleanup of a CSPI fails after some of its claims are released. */
  lemma CleanedStopped(s0: State, s: State, s': State, list: seq<Name>, i: int)
    requires Cleaned(s0, s, list, i) && Listed(s0, list) && i < |list| && list[i] in s.cspis
    requires s' == s.(claims := s'.claims) && s.claims - s.cspis[list[i]].devices <= s'.claims <= s.claims
    requires forall m :: m in s.cspis && m != list[i] ==> s.cspis[m].devices * s'.claims == s.cspis[m].devices * s.claims
    ensures s' == s0.(cspis := s'.cspis, claims := s'.claims) && s'.claims <= s0.claims
    ensures forall n :: n in s'.cspis ==> n in s0.cspis && s'.cspis[n] == s0.cspis[n]
    ensures forall n :: n in s0.cspis && n !in s'.cspis ==>
      n in list && s0.cspis[n].deleting && s0.cspis[n].owned && !s0.cspis[n].protected
    ensures forall d :: d in s0.claims && d !in s'.claims ==> DeviceOf(s0.cspis, list, d)
    ensures forall n :: n in s0.cspis && n !in list ==> s0.cspis[n].devices * s'.claims == s0.cspis[n].devices * s0.claims
    ensures forall k :: 0 <= k < |list| ==> (list[k] !in s'.cspis <==> k < i && CanPerformCleanup(s0.cspis[list[k]]))
  {
    StepDevices(s0, s, s'.claims, list, i);
    CleanedEnd(s0, s, list, i);
  }

  lemma CleanedEnd(s0: State, s: State, list: seq<Name>, i: int)
    requires Cleaned(s0, s, list, i) && Listed(s0, list)
    ensures s == s0.(cspis := s.cspis, claims := s.claims) && s.claims <= s0.claims
    ensures forall n :: n in s.cspis ==> n in s0.cspis && s.cspis[n] == s0.cspis[n]
    ensures forall n :: n in s0.cspis && n !in s.cspis ==>
      n in list && s0.cspis[n].deleting && s0.cspis[n].owned && !s0.cspis[n].protected
    ensures forall d :: d in s0.claims && d !in s.claims ==> DeviceOf(s0.cspis, list, d)
    ensures forall n :: n in s0.cspis && n !in list ==> s0.cspis[n].devices * s.claims == s0.cspis[n].devices * s0.claims
    ensures forall k :: 0 <= k < |list| ==> (list[k] !in s.cspis <==> k < i && CanPerformCleanup(s0.cspis[list[k]]))
  {
    forall k | 0 <= k < |list| ensures list[k] !in s.cspis <==> k < i && CanPerformCleanup(s0.cspis[list[k]]) {
      assert list[k] in list;
      if k < i { assert list[..i][k] == list[k]; } else { assert forall m :: 0 <= m < i ==> list[..i][m] == list[m] != list[k]; }
    }
  }

  lemma CleanedAll(s0: State, s: State, list: seq<Name>, failing: set<Device>, stuck: set<Name>)
    requires Cleaned(s0, s, list, |list|) && Listed(s0, list)
    ensures (forall n :: n in list ==> CleanedUp(s0, failing, stuck, n)) ==>
      forall n :: n in list && s0.cspis[n].deleting ==> n !in s.cspis && s0.cspis[n].devices !! s.claims
  {
    assert list[..|list|] == list;
  }

  /** If no call fails, the cleanup takes away exactly the CSPIs without a pool. */
  lemma ReadyGone(before: State, marked: State, cspis: map<Name, Cspi>, list: seq<Name>, done: nat, failing: set<Device>, stuck: set<Name>)
    requires marked == before.(cspis := marked.cspis) && marked.cspis.Keys == before.cspis.Keys
    requires forall n :: n in marked.cspis ==> marked.cspis[n] == before.cspis[n].(deleting := true) && marked.cspis[n].owned
    requires forall n :: n in list <==> n in marked.cspis
    requires done <= |list| && forall i :: 0 <= i < |list| ==> (list[i] !in cspis <==> i < done && CanPerformCleanup(marked.cspis[list[i]]))
    requires done < |list| ==> CanPerformCleanup(marked.cspis[list[done]]) && !CleanedUp(marked, failing, stuck, list[done])
    ensures (forall n :: n in before.cspis && !before.cspis[n].protected ==> Removable(before, failing, stuck, n)) ==>
      forall n :: n in before.cspis ==> (n in cspis <==> before.cspis[n].protected)
  {
    if forall n :: n in before.cspis && !before.cspis[n].protected ==> Removable(before, failing, stuck, n) {
      assert done == |list|;
      forall n | n in before.cspis ensures n in cspis <==> before.cspis[n].protected {
        var i :| 0 <= i < |list| && list[i] == n;
      }
    }
  }

  /** With every CSPI cleaned up, what is left to fail are the other claims. */
  lemma AllUnobstructed(s: State, list: seq<Name>, claims: set<Device>, failing: set<Device>, stuck: set<Name>)
    requires claims <= s.claims && forall n :: n in s.cspis ==> s.cspis[n].deleting && CleanedUp(s, failing, stuck, n)
    requires forall d :: d in s.claims && d !in claims ==> DeviceOf(s.cspis, list, d)
    ensures Unobstructed(s, failing, stuck) <==> failing !! claims
  {
  }

  lemma NoPoolLeft(s: State)
    requires Inv(s)
    ensures s.cspis == map[] ==> s.imported == {}
  {
    hide Objects, WorkerOk;
  }

  lemma AllReleased(devices: set<Device>, before: set<Device>, after: set<Device>, failing: set<Device>)
    requires before - devices <= after <= before && devices * after == {} && failing * (devices * before) == {}
    ensures after == before - devices && failing !! (devices * before)
  {
    assert forall d :: d in devices && d in after ==> d in devices * after;
    assert forall d :: d in failing && d in devices * before ==> d in failing * (devices * before);
  }

  lemma Releases(s: State, d: Device)
    requires s.worker.Cleaning? && d in s.worker.todo
    ensures Enabled(s, ReleaseClaim(d))
    ensures Do(s, ReleaseClaim(d)) == s.(claims := s.claims - {d}, worker := s.worker.(todo := s.worker.todo - {d}))
  {
  }

  lemma LeavesOver(s: State, d: Device)
    requires s.worker.Finalizing? && d in s.worker.todo
    ensures Enabled(s, ReleaseLeftover(d))
    ensures Do(s, ReleaseLeftover(d)) == s.(claims := s.claims - {d}, worker := Finalizing(s.worker.todo - {d}))
  {
  }

  /** What marking a CSPI for deletion does while it has finalizers. */
  lemma Deleted(s: State, n: Name)
    requires Inv(s) && n in s.cspis
    ensures Enabled(s, DeleteCspi(n))
    ensures Do(s, DeleteCspi(n)) == s.(cspis := s.cspis[n := s.cspis[n].(deleting := true)])
  {
    hide Managers, WorkerOk;
  }

  lemma Owned(s: State, n: Name)
    requires Inv(s) && n in s.cspis
    ensures s.cspis[n].owned
  {
    hide Managers, WorkerOk;
  }

  lemma AllOwned(s: State)
    requires Inv(s)
    ensures forall n :: n in s.cspis ==> s.cspis[n].owned
  {
    hide Managers, WorkerOk;
  }
}
