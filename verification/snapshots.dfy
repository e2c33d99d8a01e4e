/** Reconciling the snapshot lists of a replica
  (pkg/volumereplica/volumereplica.go). */
module Snapshots {

  type Name = string
  type Info = string

  datatype Phase = Online | Rebuilding | ReconstructingNewReplica | OtherPhase

  /** The union of the peers' snapshots; the first peer that has a name gives
      its information. */
  function PeerSnapshots(peers: seq<map<Name, Info>>): map<Name, Info> {
    if peers == [] then map[] else peers[|peers| - 1] + PeerSnapshots(peers[..|peers| - 1])
  }

  ghost predicate PeerHas(peers: seq<map<Name, Info>>, n: Name) {
    exists i :: 0 <= i < |peers| && n in peers[i]
  }

  /** `info` is what the first peer that has `n` tells about it. */
  ghost predicate ToldFirst(peers: seq<map<Name, Info>>, n: Name, info: Info) {
    exists i :: 0 <= i < |peers| && n in peers[i] && peers[i][n] == info && forall j :: 0 <= j < i ==> n !in peers[j]
  }

  lemma {:induction false} PeerNames(peers: seq<map<Name, Info>>, n: Name)
    ensures n in PeerSnapshots(peers) <==> PeerHas(peers, n)
    ensures n in PeerSnapshots(peers) ==> ToldFirst(peers, n, PeerSnapshots(peers)[n])
    decreases |peers|
  {
    if peers != [] {
      var init := peers[..|peers| - 1];
      PeerNames(init, n);
      assert forall i :: 0 <= i < |init| ==> init[i] == peers[i];
      if n in PeerSnapshots(init) {
        var i :| 0 <= i < |init| && n in init[i] && init[i][n] == PeerSnapshots(init)[n] && forall j :: 0 <= j < i ==> n !in init[j];
        assert n in peers[i];
      }
    }
  }

  /** `more` added to `list` where `list` has no entry. */
  method AddMissing(list: map<Name, Info>, more: map<Name, Info>) returns (r: map<Name, Info>)
    ensures r == more + list
  {
    r := list;
    var rest := more.Keys;
    while rest != {}
      invariant forall n :: n in rest ==> n in more
      invariant forall n :: n in r <==> n in list || (n in more && n !in rest)
      invariant forall n :: n in r ==> r[n] == if n in list then list[n] else more[n]
      decreases |rest|
    {
      var n :| n in rest;
      rest := rest - {n};
      if n !in r { r := r[n := more[n]]; }
    }
    SameMap(r, more + list);
  }

  lemma SameMap(a: map<Name, Info>, b: map<Name, Info>)
    requires forall n :: n in a <==> n in b
    requires forall n :: n in a ==> a[n] == b[n]
    ensures a == b
  {
  }

  method GetPeerSnapshotInfoList(peers: seq<map<Name, Info>>) returns (list: map<Name, Info>)
    ensures list == PeerSnapshots(peers)
    ensures forall n :: (n in list <==> PeerHas(peers, n)) && (n in list ==> ToldFirst(peers, n, list[n]))
  {
    list := map[];
    for i := 0 to |peers|
      invariant list == PeerSnapshots(peers[..i])
    {
      list := AddMissing(list, peers[i]);
      assert peers[..i + 1][..i] == peers[..i];
    }
    assert peers[..|peers|] == peers;
    forall n ensures (n in list <==> PeerHas(peers, n)) && (n in list ==> ToldFirst(peers, n, list[n])) {
      PeerNames(peers, n);
    }
  }

  /** The snapshot part of a CVR's status. */
  class Replica {
    var snapshots: map<Name, Info>
    var pending: map<Name, Info>

    constructor (s: map<Name, Info>, p: map<Name, Info>)
      ensures snapshots == s && pending == p
    {
      snapshots, pending := s, p;
    }

    /** Brings the list to the names ZFS has; fails if the information of a new
        one cannot be read. */
    method AddOrDeleteSnapshotListInfo(zfs: set<Name>, info: map<Name, Info>) returns (ok: bool)
      modifies this
      ensures ok <==> forall n :: n in zfs && n !in old(snapshots) ==> n in info
      ensures ok ==> forall n :: n in snapshots <==> n in zfs
      ensures forall n :: n in snapshots && n in old(snapshots) ==> snapshots[n] == old(snapshots)[n]
      ensures forall n :: n in snapshots && n !in old(snapshots) ==> n in info && n in zfs && snapshots[n] == info[n]
      ensures forall n :: n in pending <==> n in old(pending) && (ok ==> n !in zfs)
      ensures forall n :: n in pending ==> pending[n] == old(pending)[n]
      ensures !ok ==> forall n :: n in old(snapshots) ==> n in snapshots
    {
      var rest := zfs;
      while rest != {}
        invariant pending == old(pending) && forall n :: n in rest ==> n in zfs
        invariant forall n :: n in snapshots <==> n in old(snapshots) || (n in zfs && n !in rest)
        invariant forall n :: n in zfs && n !in rest && n !in old(snapshots) ==> n in info
        invariant forall n :: n in snapshots && n in old(snapshots) ==> snapshots[n] == old(snapshots)[n]
        invariant forall n :: n in snapshots && n !in old(snapshots) ==> n in info && n in zfs && snapshots[n] == info[n]
        decreases |rest|
      {
        var n :| n in rest;
        rest := rest - {n};
        if n !in snapshots {
          if n !in info { return false; }
          snapshots := snapshots[n := info[n]];
        }
      }
      snapshots := map n | n in snapshots && n in zfs :: snapshots[n];
      pending := map n | n in pending && n !in zfs :: pending[n];
      return true;
    }

    /** Brings the pending list to what the peers have and this replica has not. */
    method GetAndAddPendingSnapshotList(peers: seq<map<Name, Info>>)
      requires forall n :: n in pending ==> n !in snapshots
      modifies this`pending
      ensures forall n :: n in pending <==> n in PeerSnapshots(peers) && n !in snapshots
      ensures forall n :: n in pending ==> pending[n] == if n in old(pending) then old(pending)[n] else PeerSnapshots(peers)[n]
    {
      hide PeerSnapshots, PeerHas, ToldFirst;
      var list := GetPeerSnapshotInfoList(peers);
      pending := map n | n in pending && n in list :: pending[n];
      var rest := list.Keys;
      while rest != {}
        invariant forall n :: n in rest ==> n in list
        invariant forall n :: n in pending ==> n in list && n !in snapshots
        invariant forall n :: n in old(pending) && n in list ==> n in pending
        invariant forall n :: n in list && n !in rest && n !in snapshots ==> n in pending
        invariant forall n :: n in pending ==> pending[n] == if n in old(pending) then old(pending)[n] else list[n]
        decreases |rest|
      {
        var n :| n in rest;
        rest := rest - {n};
        if n !in snapshots && n !in pending {
          pending := pending[n := list[n]];
        }
      }
    }

    /** One pass, from any starting lists. After a successful one the snapshots
        are exactly those of ZFS, earlier entries kept; while rebuilding, pending
        are exactly the peers' snapshots that ZFS does not have; online, none; and
        no snapshot is in both lists. */
    method GetAndUpdateSnapshotInfo(phase: Phase, zfs: set<Name>, info: map<Name, Info>, peers: seq<map<Name, Info>>, listed: bool, peersRead: bool)
      returns (ok: bool)
      modifies this
      ensures ok <==> listed && (forall n :: n in zfs && n !in old(snapshots) ==> n in info) && (IsRebuilding(phase) ==> peersRead)
      ensures ok ==> forall n :: n in snapshots <==> n in zfs
      ensures ok ==> forall n :: n in snapshots ==> snapshots[n] == if n in old(snapshots) then old(snapshots)[n] else info[n]
      ensures ok && IsRebuilding(phase) ==> forall n :: n in pending <==> n !in zfs && PeerHas(peers, n)
      ensures ok && IsRebuilding(phase) ==> forall n :: n in pending && n !in old(pending) ==>
                n in PeerSnapshots(peers) && pending[n] == PeerSnapshots(peers)[n]
      ensures ok ==> forall n :: n in pending && n in old(pending) ==> pending[n] == old(pending)[n]
      ensures ok && phase == Online ==> pending == map[]
      ensures ok ==> forall n :: n in pending ==> n !in snapshots
      ensures ok && phase == OtherPhase ==> forall n :: n in pending <==> n in old(pending) && n !in zfs
    {
      hide PeerSnapshots, PeerHas, ToldFirst;
      if !listed { return false; }
      ok := AddOrDeleteSnapshotListInfo(zfs, info);
      if !ok { return false; }
      if phase == Rebuilding || phase == ReconstructingNewReplica {
        if !peersRead { return false; }
        GetAndAddPendingSnapshotList(peers);
        forall n ensures n in PeerSnapshots(peers) <==> PeerHas(peers, n) {
          PeerNames(peers, n);
        }
      }
      if phase == Online && |pending| != 0 {
        pending := map[];
      }
    }
  }

  predicate IsRebuilding(p: Phase) { p.Rebuilding? || p.ReconstructingNewReplica? }
}
