/** Admission of CStorVolumeConfig updates (pkg/webhook/cvc.go). */
module CvcAdmission {
  import opened Lists

  type Pool = string

  datatype Phase = Pending | Bound | OtherPhase

  /** The fields of a CStorVolumeConfig that the admission checks read. */
  datatype Claim = Claim(
    replicaCount: int,
    provisionedCapacity: int,
    desired: seq<Pool>,
    current: seq<Pool>,
    phase: Phase)

  predicate ScalingInProgress(c: Claim) {
    |c.desired| != |c.current|
  }

  predicate ValidReplicaCount(before: Claim, after: Claim) {
    before.replicaCount == after.replicaCount
  }

  predicate ValidProvisionedCapacity(before: Claim, after: Claim) {
    after.provisionedCapacity == before.provisionedCapacity
  }

  predicate ValidPoolListChanges(before: Claim, after: Claim) {
    var modified := ListDiff(before.current, after.desired);
    && !(before.phase != Bound && after.phase != Bound && |before.current| != |after.desired|)
    && (if |after.desired| >= |before.current| then |modified| == 0 else |modified| <= 1)
  }

  predicate ValidReplicaScaling(before: Claim, after: Claim) {
    ScalingInProgress(before) ==> |before.desired| == |after.desired|
  }

  predicate ValidPoolNames(c: Claim) {
    Unique(c.desired) && Unique(c.current)
  }

  /** The whole chain of checks of an UPDATE request. */
  predicate Admitted(before: Claim, after: Claim) {
    && ValidReplicaCount(before, after)
    && ValidProvisionedCapacity(before, after)
    && ValidPoolListChanges(before, after)
    && ValidReplicaScaling(before, after)
    && ValidPoolNames(after)
  }

  /** The duplicate test fills a map of the names met so far. */
  method IsUniqueList(list: seq<string>) returns (unique: bool)
    ensures unique <==> |Elems(list)| == |list|
    ensures unique <==> Unique(list)
  {
    ElemsCard(list);
    var listMap: map<string, bool> := map[];
    for i := 0 to |list|
      invariant Unique(list[..i])
      invariant forall x :: x in listMap <==> x in list[..i]
    {
      if list[i] in listMap {
        assert exists k :: 0 <= k < i && list[k] == list[i];
        return false;
      }
      listMap := listMap[list[i] := true];
    }
    assert list[..|list|] == list;
    return true;
  }

  /** The edit drops no pool the volume currently has. */
  ghost predicate KeepsAll(current: seq<Pool>, desired: seq<Pool>) {
    Elems(current) <= Elems(desired)
  }

  /** The edit drops exactly one current pool and names no new one. */
  ghost predicate RemovesOne(current: seq<Pool>, desired: seq<Pool>) {
    exists p :: p in current && Elems(desired) == Elems(current) - {p}
  }

  /** Before the volume is bound the number of pools must stay, unless the update
      itself binds it. */
  predicate ScalableThen(before: Claim, after: Claim) {
    before.phase.Bound? || after.phase.Bound? || |after.desired| == |before.current|
  }

  /** What the length comparisons decide: from a duplicate-free current list, a
      duplicate-free desired list passes exactly when it keeps every current
      pool or removes exactly one of them and adds none. */
  lemma PoolListChangesByCounting(before: Claim, after: Claim)
    requires Unique(before.current) && Unique(after.desired)
    ensures ValidPoolListChanges(before, after)
       <==> ScalableThen(before, after)
            && (KeepsAll(before.current, after.desired) || RemovesOne(before.current, after.desired))
  {
    hide Unique, ListDiff, Elems;
    var c, d := Elems(before.current), Elems(after.desired);
    ElemsCard(before.current);
    ElemsCard(after.desired);
    ListDiffUnique(before.current, after.desired);
    if |d| >= |c| { KeptByCounting(c, d); } else { DroppedByCounting(c, d); }
    RemovesOneOf(before.current, after.desired);
  }

  lemma RemovesOneOf(current: seq<Pool>, desired: seq<Pool>)
    ensures RemovesOne(current, desired) <==> exists p :: p in Elems(current) && Elems(desired) == Elems(current) - {p}
  {
    if RemovesOne(current, desired) {
      var p :| p in current && Elems(desired) == Elems(current) - {p};
      assert p in Elems(current);
    }
  }

  lemma KeptByCounting(c: set<Pool>, d: set<Pool>)
    requires |d| >= |c|
    ensures |c - d| == 0 <==> c <= d
    ensures !exists p :: p in c && d == c - {p}
  {
    forall p | p in c ensures d != c - {p} {
      assert c == (c - {p}) + {p};
    }
    assert c <= d ==> c - d == {};
    if |c - d| == 0 {
      forall p | p in c ensures p in d {
        assert p !in c - d;
      }
    }
  }

  lemma DroppedByCounting(c: set<Pool>, d: set<Pool>)
    requires |d| < |c|
    ensures |c - d| <= 1 <==> c <= d || exists p :: p in c && d == c - {p}
  {
    if c <= d {
      SubsetCard(c, d);
      assert false;
    }
    if |c - d| <= 1 {
      UnionCard(c, d);
      UnionCard(d, c);
      assert c * d == d * c;
      var p :| p in c - d;
      SubsetCard({p}, c - d);
      assert |d - c| == 0;
      assert d == c - {p};
    }
    forall p | p in c ensures |c - (c - {p})| == 1 {
      assert c - (c - {p}) == {p};
    }
  }

  /** Full characterisation of the updates the webhook lets through, of bound and
      of unbound volumes. */
  lemma AdmittedUpdate(before: Claim, after: Claim)
    requires Unique(before.current)
    ensures Admitted(before, after) <==>
            && after.replicaCount == before.replicaCount && after.provisionedCapacity == before.provisionedCapacity
            && Unique(after.desired) && Unique(after.current)
            && (|before.desired| != |before.current| ==> |after.desired| == |before.desired|)
            && ScalableThen(before, after)
            && (KeepsAll(before.current, after.desired) || RemovesOne(before.current, after.desired))
  {
    if Unique(after.desired) { PoolListChangesByCounting(before, after); }
  }

  /** The edits of a bound volume's pool list. */
  lemma AdmittedEdit(before: Claim, desired: seq<Pool>)
    requires before.phase == Bound && Unique(before.current)
    ensures Admitted(before, before.(desired := desired)) <==>
            && Unique(desired)
            && (ScalingInProgress(before) ==> |desired| == |before.desired|)
            && (KeepsAll(before.current, desired) || RemovesOne(before.current, desired))
  {
    if Unique(desired) {
      PoolListChangesByCounting(before, before.(desired := desired));
    }
  }

  /** After an admitted edit a pending change always shows in the lengths, so
      the "Migration" branch of the operator is not reached. */
  lemma PendingChangeShowsInLength(before: Claim, after: Claim)
    requires before.phase == Bound && Unique(before.current) && after.current == before.current
    requires Admitted(before, after)
    ensures Elems(after.desired) != Elems(after.current) ==> |after.desired| != |after.current|
    ensures |after.desired| < |after.current| ==> |after.desired| == |after.current| - 1
  {
    PoolListChangesByCounting(before, after);
    ElemsCard(after.desired);
    ElemsCard(after.current);
    if KeepsAll(before.current, after.desired) {
      SubsetCard(Elems(after.current), Elems(after.desired));
    } else {
      var p :| p in before.current && Elems(after.desired) == Elems(before.current) - {p};
    }
  }
}
