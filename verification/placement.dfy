/** Placing the replicas of a new volume on pools
  (pkg/controllers/cstorvolumeconfig/volume_operations.go). */
module Placement {
  import opened Wrappers
  import opened Lists
  import CvcAdmission
  import VolumeScaling

  type Name = string

  datatype Pool = Pool(name: Name, host: string, offline: bool, readOnly: bool)

  /** What is asked for: the number of replicas, the pools of the volume policy
      (none if empty), the pools of the source volume of a clone, and the node
      preferred by replica affinity. */
  datatype Request = Request(replicaCount: nat, policy: seq<Name>, source: Option<set<Name>>, affinity: Option<string>)

  function Names(pools: seq<Pool>): (s: seq<Name>)
    ensures |s| == |pools| && forall i :: 0 <= i < |s| ==> s[i] == pools[i].name
  {
    seq(|pools|, i requires 0 <= i < |pools| => pools[i].name)
  }

  /** A pool that may get a replica, given the pools that have one. */
  predicate Eligible(p: Pool, used: set<Name>, req: Request) {
    && p.name !in used && !p.offline && !p.readOnly
    && (req.policy != [] ==> p.name in req.policy)
    && (req.source.Some? ==> p.name in req.source.value)
  }

  // ---------- the filters ----------

  method GetPolicyBasedPoolList(pools: seq<Pool>, policy: seq<Name>) returns (list: seq<Pool>)
    requires Unique(Names(pools)) && Unique(policy)
    ensures forall p :: p in list <==> p in pools && p.name in policy
    ensures Unique(Names(list))
  {
    list := [];
    for i := 0 to |policy|
      invariant forall p :: p in list <==> p in pools && p.name in policy[..i]
      invariant Unique(Names(list))
    {
      ghost var before := list;
      for k := 0 to |pools|
        invariant list == before
        invariant forall j :: 0 <= j < k ==> pools[j].name != policy[i]
      {
        if pools[k].name == policy[i] {
          NewName(list, pools[k]);
          SameName(pools, k);
          list := list + [pools[k]];
          break;
        }
      }
      assert policy[..i + 1] == policy[..i] + [policy[i]];
    }
    assert policy[..|policy|] == policy;
  }

  lemma NewName(list: seq<Pool>, p: Pool)
    requires Unique(Names(list))
    ensures (forall q :: q in list ==> q.name != p.name) ==> Unique(Names(list + [p]))
  {
    if forall q :: q in list ==> q.name != p.name {
      forall i, j | 0 <= i < j < |list| + 1 ensures Names(list + [p])[i] != Names(list + [p])[j] {
        if j == |list| { assert list[i] in list; } else { assert Names(list)[i] != Names(list)[j]; }
      }
    }
  }

  lemma SameName(pools: seq<Pool>, k: nat)
    requires Unique(Names(pools)) && k < |pools|
    ensures forall p :: p in pools && p.name == pools[k].name ==> p == pools[k]
  {
    assert forall j :: 0 <= j < |pools| && j != k ==> Names(pools)[j] != Names(pools)[k];
  }

  /** Pools without a replica of the volume and, for a clone, with a replica of
      the source volume. */
  method GetUsablePoolList(pools: seq<Pool>, used: set<Name>, source: Option<set<Name>>) returns (list: seq<Pool>)
    requires Unique(Names(pools))
    ensures forall p :: p in list <==> p in pools && p.name !in used && (source.Some? ==> p.name in source.value)
    ensures Unique(Names(list))
  {
    list := [];
    for i := 0 to |pools|
      invariant forall p :: p in list <==> p in pools[..i] && p.name !in used && (source.Some? ==> p.name in source.value)
      invariant Unique(Names(list))
    {
      assert pools[..i + 1] == pools[..i] + [pools[i]];
      NotBefore(pools, i);
      NewName(list, pools[i]);
      if pools[i].name !in used && (source.None? || pools[i].name in source.value) {
        list := list + [pools[i]];
      }
    }
    assert pools[..|pools|] == pools;
  }

  lemma NotBefore(pools: seq<Pool>, i: nat)
    requires Unique(Names(pools)) && i < |pools|
    ensures forall p :: p in pools[..i] ==> p.name != pools[i].name
  {
    forall p | p in pools[..i] ensures p.name != pools[i].name {
      var j :| 0 <= j < i && pools[j] == p;
      assert Names(pools)[j] != Names(pools)[i];
    }
  }

  method SanitizePoolList(pools: seq<Pool>) returns (list: seq<Pool>)
    requires Unique(Names(pools))
    ensures forall p :: p in list <==> p in pools && !p.offline && !p.readOnly
    ensures Unique(Names(list))
  {
    list := [];
    for i := 0 to |pools|
      invariant forall p :: p in list <==> p in pools[..i] && !p.offline && !p.readOnly
      invariant Unique(Names(list))
    {
      assert pools[..i + 1] == pools[..i] + [pools[i]];
      NotBefore(pools, i);
      NewName(list, pools[i]);
      if pools[i].offline || pools[i].readOnly {
        continue;
      }
      list := list + [pools[i]];
    }
    assert pools[..|pools|] == pools;
  }

  /** `perm` lists the indices of `n` items in some order. */
  ghost predicate Permutation(perm: seq<nat>, n: nat) {
    && |perm| == n && Unique(perm)
    && (forall i :: 0 <= i < n ==> perm[i] < n)
    && (forall k :: 0 <= k < n ==> k in perm)
  }

  /** A random permutation for every length. */
  ghost predicate Shuffles(perm: nat -> seq<nat>) {
    forall n: nat :: Permutation(perm(n), n)
  }

  ghost function Shuffled(pools: seq<Pool>, perm: seq<nat>): seq<Pool>
    requires Permutation(perm, |pools|)
  {
    seq(|pools|, i requires 0 <= i < |pools| => pools[perm[i]])
  }

  method RandomizePoolList(pools: seq<Pool>, perm: seq<nat>) returns (list: seq<Pool>)
    requires Unique(Names(pools)) && Permutation(perm, |pools|)
    ensures list == Shuffled(pools, perm)
    ensures |list| == |pools| && forall p :: p in list <==> p in pools
    ensures Unique(Names(list))
  {
    list := [];
    for i := 0 to |perm|
      invariant |list| == i && forall k :: 0 <= k < i ==> list[k] == pools[perm[k]]
    {
      list := list + [pools[perm[i]]];
    }
    forall p | p in pools ensures p in list {
      var j: nat :| j < |pools| && pools[j] == p;
      assert j in perm;
      var k :| 0 <= k < |perm| && perm[k] == j;
      assert list[k] == p;
    }
    forall i, j | 0 <= i < j < |list| ensures Names(list)[i] != Names(list)[j] {
      assert perm[i] != perm[j];
      assert Names(pools)[perm[i]] != Names(pools)[perm[j]];
    }
  }

  /** The first pool on the node and the pool at the front change places. */
  function Prioritized(node: string, pools: seq<Pool>): seq<Pool> {
    var i := FirstOn(node, pools);
    if i < |pools| then pools[0 := pools[i]][i := pools[0]] else pools
  }

  function FirstOn(node: string, pools: seq<Pool>): (i: nat)
    ensures i <= |pools| && (i < |pools| ==> pools[i].host == node)
    ensures forall k :: 0 <= k < i ==> pools[k].host != node
  {
    if pools == [] then 0 else if pools[0].host == node then 0 else 1 + FirstOn(node, pools[1..])
  }

  method PrioritizedPoolList(node: string, items: array<Pool>)
    modifies items
    ensures items[..] == Prioritized(node, old(items[..]))
  {
    for i := 0 to items.Length
      invariant items[..] == old(items[..])
      invariant forall k :: 0 <= k < i ==> items[k].host != node
    {
      if items[i].host != node { continue; }
      assert i == FirstOn(node, items[..]);
      items[0], items[i] := items[i], items[0];
      break;
    }
  }

  /** Prioritizing keeps the pools and puts one on the node in front, if any. */
  lemma PrioritizedKeeps(node: string, pools: seq<Pool>)
    requires Unique(Names(pools))
    ensures var r := Prioritized(node, pools);
      && |r| == |pools| && (forall p :: p in r <==> p in pools) && Unique(Names(r))
      && ((exists p :: p in pools && p.host == node) ==> r[0].host == node)
  {
    var r, i := Prioritized(node, pools), FirstOn(node, pools);
    if i < |pools| {
      forall p | p in pools ensures p in r {
        var k :| 0 <= k < |pools| && pools[k] == p;
        assert r[if k == 0 then i else if k == i then 0 else k] == p;
      }
      forall a, b | 0 <= a < b < |r| ensures Names(r)[a] != Names(r)[b] {
        var a', b' := if a == 0 then i else if a == i then 0 else a, if b == 0 then i else if b == i then 0 else b;
        assert a' != b' && r[a] == pools[a'] && r[b] == pools[b'];
        if a' < b' { assert Names(pools)[a'] != Names(pools)[b']; } else { assert Names(pools)[b'] != Names(pools)[a']; }
      }
    }
  }

  // ---------- one attempt ----------

  ghost predicate NamesEligible(pools: seq<Pool>, n: Name, used: set<Name>, req: Request) {
    exists p :: p in pools && p.name == n && Eligible(p, used, req)
  }

  /** What one call does to the set of pools with a replica. */
  ghost predicate Attempt(req: Request, pools: seq<Pool>, before: set<Name>, after: set<Name>, ok: bool) {
    && before <= after
    && (forall n :: n in after - before ==> NamesEligible(pools, n, before, req))
    && (after == before || |after| <= req.replicaCount)
    && (ok ==> |after| >= req.replicaCount)
    && (req.affinity.Some? && after != before && (exists p :: p in pools && p.host == req.affinity.value && Eligible(p, before, req)) ==>
          exists p :: p in pools && p.host == req.affinity.value && Eligible(p, before, req) && p.name in after - before)
  }

  ghost function EligiblePools(pools: seq<Pool>, used: set<Name>, req: Request): set<Pool> {
    set p | p in pools && Eligible(p, used, req)
  }

  lemma EligibleCard(req: Request, pools: seq<Pool>, list: seq<Pool>, used: set<Name>)
    requires Unique(Names(list)) && forall p :: p in list <==> p in pools && Eligible(p, used, req)
    ensures |EligiblePools(pools, used, req)| == |list|
  {
    hide Eligible;
    assert Unique(list) by {
      forall i, j | 0 <= i < j < |list| ensures list[i] != list[j] {
        assert Names(list)[i] != Names(list)[j];
      }
    }
    ElemsCard(list);
    assert Elems(list) == EligiblePools(pools, used, req);
  }

  class Volume {
    var cvrs: set<Name>     // pools that hold a CVR of the volume

    constructor (start: set<Name>)
      ensures cvrs == start
    {
      cvrs := start;
    }

    /** The pools to be used, in order. */
    method UsablePools(req: Request, pools: seq<Pool>, perm: nat -> seq<nat>) returns (list: seq<Pool>, ghost base: seq<Pool>)
      requires Unique(Names(pools)) && Unique(req.policy) && Shuffles(perm)
      ensures forall p :: p in list <==> p in pools && Eligible(p, cvrs, req)
      ensures Unique(Names(list)) && forall p :: p in base <==> p in list
      ensures list == if req.affinity.Some? then Prioritized(req.affinity.value, Shuffled(base, perm(|base|))) else Shuffled(base, perm(|base|))
      ensures req.affinity.Some? && (exists p :: p in list && p.host == req.affinity.value) ==> list[0].host == req.affinity.value
    {
      var poolList := pools;
      if |req.policy| != 0 {
        poolList := GetPolicyBasedPoolList(pools, req.policy);
      }
      list := GetUsablePoolList(poolList, cvrs, req.source);
      list := SanitizePoolList(list);
      base := list;
      list := RandomizePoolList(list, perm(|list|));
      if req.affinity.Some? {
        PrioritizedKeeps(req.affinity.value, list);
        var items := new Pool[|list|](i requires 0 <= i < |list| => list[i]);
        assert items[..] == list;
        PrioritizedPoolList(req.affinity.value, items);
        list := items[..];
      }
    }

    /** Creates the pending replicas on the first usable pools, until a creation
        fails. */
    method DistributeCVRs(req: Request, pools: seq<Pool>, perm: nat -> seq<nat>, failing: set<Name>)
      returns (ok: bool, ghost list: seq<Pool>, ghost count: nat)
      requires Unique(Names(pools)) && Unique(req.policy) && Shuffles(perm)
      modifies this
      ensures Attempt(req, pools, old(cvrs), cvrs, ok)
      ensures req.policy != [] && |req.policy| != req.replicaCount ==> !ok && cvrs == old(cvrs)
      ensures forall n :: n in cvrs && n !in old(cvrs) ==> n !in failing
      ensures |old(cvrs)| + |EligiblePools(pools, old(cvrs), req)| < req.replicaCount ==> !ok && cvrs == old(cvrs)
      ensures req.policy == [] || |req.policy| == req.replicaCount ==>
                |old(cvrs)| + |EligiblePools(pools, old(cvrs), req)| >= req.replicaCount ==>
                  InOrder(req, pools, list, count, failing, old(cvrs), cvrs, ok)
    {
      hide *;
      list, count := [], 0;
      var pending := req.replicaCount - |cvrs|;
      NoAttempt(req, pools, cvrs);
      if |req.policy| != 0 && |req.policy| != req.replicaCount { ok := false; return; }
      var usable, base := UsablePools(req, pools, perm);
      list := usable;
      EligibleCard(req, pools, list, cvrs);
      if |usable| < pending { ok := false; return; }
      PlaceNone(list, cvrs);
      NotUsedYet(req, pools, list, cvrs);
      for i := 0 to |usable|
        invariant count == i && Placed(list, count, old(cvrs), cvrs)
        invariant count == 0 || count <= pending
        invariant forall k :: 0 <= k < count ==> list[k].name !in failing
        invariant forall n :: n in cvrs && n !in old(cvrs) ==> n !in failing
      {
        if i >= pending { break; }
        PlaceNext(list, count, old(cvrs), cvrs);
        if usable[i].name in failing {
          PlacedAttempt(req, pools, list, count, old(cvrs), cvrs, false);
          PlacedInOrder(req, pools, list, count, failing, old(cvrs), cvrs, false);
          ok := false;
          return;
        }
        cvrs := cvrs + {usable[i].name};
        count := count + 1;
      }
      PlacedAttempt(req, pools, list, count, old(cvrs), cvrs, true);
      PlacedInOrder(req, pools, list, count, failing, old(cvrs), cvrs, true);
      ok := true;
    }
  }

  /** The eligible pools get their replica in the order of the list, until there
      are enough or one fails; what was created before stays. */
  ghost predicate InOrder(req: Request, pools: seq<Pool>, list: seq<Pool>, count: nat, failing: set<Name>,
                          before: set<Name>, now: set<Name>, ok: bool)
  {
    && (forall p :: p in list <==> p in pools && Eligible(p, before, req))
    && count <= |list| && now == before + Elems(Names(list[..count]))
    && (forall k :: 0 <= k < count ==> list[k].name !in failing)
    && (ok ==> count == if |before| < req.replicaCount then req.replicaCount - |before| else 0)
    && (!ok ==> count < |list| && list[count].name in failing && |before| + count < req.replicaCount)
  }

  lemma PlacedInOrder(req: Request, pools: seq<Pool>, list: seq<Pool>, count: nat, failing: set<Name>,
                      before: set<Name>, now: set<Name>, ok: bool)
    requires Placed(list, count, before, now) && (forall p :: p in list <==> p in pools && Eligible(p, before, req))
    requires forall k :: 0 <= k < count ==> list[k].name !in failing
    requires ok ==> count == if |before| < req.replicaCount then req.replicaCount - |before| else 0
    requires !ok ==> count < |list| && list[count].name in failing && |before| + count < req.replicaCount
    ensures InOrder(req, pools, list, count, failing, before, now, ok)
  {
    hide Eligible;
  }

  /** The first `count` pools of the list have got a replica. */
  ghost predicate Placed(list: seq<Pool>, count: nat, before: set<Name>, now: set<Name>) {
    && count <= |list| && now == before + Elems(Names(list[..count]))
    && |now| == |before| + count
  }

  lemma PlaceNone(list: seq<Pool>, before: set<Name>)
    ensures Placed(list, 0, before, before)
  {
    assert list[..0] == [];
    assert Elems(Names(list[..0])) == {};
  }

  lemma NotUsedYet(req: Request, pools: seq<Pool>, list: seq<Pool>, before: set<Name>)
    requires forall p :: p in list <==> p in pools && Eligible(p, before, req)
    ensures forall p :: p in list ==> p.name !in before
  {
  }

  lemma NoAttempt(req: Request, pools: seq<Pool>, before: set<Name>)
    ensures Attempt(req, pools, before, before, false)
  {
  }

  lemma PlaceNext(list: seq<Pool>, count: nat, before: set<Name>, now: set<Name>)
    requires Placed(list, count, before, now) && count < |list| && Unique(Names(list))
    requires forall p :: p in list ==> p.name !in before
    ensures Placed(list, count + 1, before, now + {list[count].name})
  {
    var n := list[count].name;
    NotBefore(list, count);
    assert list[..count + 1] == list[..count] + [list[count]];
    NamesMore(list[..count], list[count]);
    assert list[count] in list;
    forall x | x in Names(list[..count]) ensures x != n {
      var k :| 0 <= k < count && Names(list[..count])[k] == x;
      assert list[..count][k] in list[..count];
    }
    assert n !in now;
  }

  lemma NamesMore(list: seq<Pool>, p: Pool)
    ensures Names(list + [p]) == Names(list) + [p.name]
    ensures Elems(Names(list + [p])) == Elems(Names(list)) + {p.name}
  {
    assert Names(list + [p]) == Names(list) + [p.name];
  }

  /** Replicas on the first pools of a list of eligible ones make an attempt. */
  lemma PlacedAttempt(req: Request, pools: seq<Pool>, list: seq<Pool>, count: nat, before: set<Name>, after: set<Name>, ok: bool)
    requires Placed(list, count, before, after)
    requires forall p :: p in list <==> p in pools && Eligible(p, before, req)
    requires req.affinity.Some? && (exists p :: p in list && p.host == req.affinity.value) ==> list[0].host == req.affinity.value
    requires count == 0 || |before| + count <= req.replicaCount
    requires ok ==> |before| + count >= req.replicaCount
    ensures Attempt(req, pools, before, after, ok)
  {
    hide Eligible;
    forall n | n in after - before ensures NamesEligible(pools, n, before, req) {
      var k :| 0 <= k < count && Names(list[..count])[k] == n;
      assert list[k] in list && list[k].name == n;
    }
    if count > 0 {
      assert list[0] in list;
      assert Names(list[..count])[0] == list[0].name;
    }
    if req.affinity.Some? && after != before && exists p :: p in pools && p.host == req.affinity.value && Eligible(p, before, req) {
      var p :| p in pools && p.host == req.affinity.value && Eligible(p, before, req);
      assert p in list;
      FirstIsNew(list, count, before, after, pools, req);
    }
  }

  lemma FirstIsNew(list: seq<Pool>, count: nat, before: set<Name>, after: set<Name>, pools: seq<Pool>, req: Request)
    requires Placed(list, count, before, after) && count > 0
    requires forall p :: p in list <==> p in pools && Eligible(p, before, req)
    ensures list[0] in pools && Eligible(list[0], before, req) && list[0].name in after - before
  {
    assert list[0] in list;
    assert Names(list[..count])[0] == list[0].name;
    assert list[0].name in Elems(Names(list[..count]));
  }

  // ---------- retries ----------

  /** The pools with a replica after each of several attempts, each with the
      pools as they were at that time. */
  ghost predicate Attempts(req: Request, rounds: seq<seq<Pool>>, history: seq<set<Name>>, oks: seq<bool>) {
    && |history| == |rounds| + 1 && |oks| == |rounds| && history[0] == {}
    && forall i :: 0 <= i < |rounds| ==> Attempt(req, rounds[i], history[i], history[i + 1], oks[i])
  }

  /** After any number of partly failed attempts there are never more replicas
      than asked for, nor two on one pool, and each is on a pool that was eligible
      when it was created; a successful attempt means exactly that many. */
  lemma {:induction false} PlacementOverRetries(req: Request, rounds: seq<seq<Pool>>, history: seq<set<Name>>, oks: seq<bool>, k: nat)
    requires Attempts(req, rounds, history, oks) && k <= |rounds|
    ensures |history[k]| <= req.replicaCount
    ensures forall n :: n in history[k] ==> EligibleInSomeRound(req, rounds, history, k, n)
    ensures k > 0 && oks[k - 1] ==> |history[k]| == req.replicaCount
    decreases k
  {
    hide Eligible;
    if k > 0 {
      PlacementOverRetries(req, rounds, history, oks, k - 1);
      assert Attempt(req, rounds[k - 1], history[k - 1], history[k - 1 + 1], oks[k - 1]);
      forall n | n in history[k] ensures EligibleInSomeRound(req, rounds, history, k, n) {
        if n in history[k - 1] {
          assert EligibleInSomeRound(req, rounds, history, k - 1, n);
          var i, p :| 0 <= i < k - 1 && p in rounds[i] && p.name == n && Eligible(p, history[i], req);
        } else {
          assert NamesEligible(rounds[k - 1], n, history[k - 1], req);
          var p :| p in rounds[k - 1] && p.name == n && Eligible(p, history[k - 1], req);
        }
      }
    }
  }

  /** `n` names a pool that was eligible in one of the first `k` rounds. */
  ghost predicate EligibleInSomeRound(req: Request, rounds: seq<seq<Pool>>, history: seq<set<Name>>, k: nat, n: Name)
    requires k <= |rounds| < |history|
  {
    exists i, p :: 0 <= i < k && p in rounds[i] && p.name == n && Eligible(p, history[i], req)
  }

  // ---------- binding ----------

  /** Appends the names that the list does not contain yet. */
  method AppendMissing(list: seq<Name>, more: seq<Name>) returns (r: seq<Name>)
    ensures Unique(more) ==> r == list + ListDiff(more, list)
    ensures forall n :: n in r <==> n in list || n in more
  {
    hide Unique, ListDiff;
    r := list;
    assert more[..0] == [] && list + ListDiff([], list) == list by { DiffNone(list); }
    for i := 0 to |more|
      invariant Unique(more) ==> r == list + ListDiff(more[..i], list)
      invariant forall n :: n in r <==> n in list || n in more[..i]
    {
      assert more[..i + 1] == more[..i] + [more[i]];
      DiffMore(more[..i], more[i], list);
      NotYet(more, i);
      if more[i] !in r {
        r := r + [more[i]];
      }
    }
    assert more[..|more|] == more;
  }

  lemma DiffNone(list: seq<Name>)
    ensures ListDiff([], list) == []
  {
  }

  lemma {:induction false} DiffMore(a: seq<Name>, x: Name, b: seq<Name>)
    ensures ListDiff(a + [x], b) == ListDiff(a, b) + if x in b then [] else [x]
    decreases |a|
  {
    if a == [] {
      assert a + [x] == [x] && [x][1..] == [];
    } else {
      assert (a + [x])[1..] == a[1..] + [x];
      DiffMore(a[1..], x, b);
    }
  }

  lemma NotYet(s: seq<Name>, i: nat)
    requires i < |s|
    ensures Unique(s) ==> s[i] !in s[..i]
  {
  }

  /** The pool lists of the CVC when it is bound: the spec gets the pools of the
      replicas, the status those of the spec. */
  method AddReplicaPoolInfo(spec: seq<Name>, status: seq<Name>, poolNames: seq<Name>) returns (spec': seq<Name>, status': seq<Name>)
    ensures Unique(poolNames) ==> spec' == spec + ListDiff(poolNames, spec)
    ensures Unique(spec') ==> status' == status + ListDiff(spec', status)
    ensures forall n :: (n in spec' <==> n in spec || n in poolNames) && (n in status' <==> n in status || n in spec')
  {
    hide Unique, ListDiff;
    spec' := AppendMissing(spec, poolNames);
    status' := AppendMissing(status, spec');
  }

  /** A volume placed over any number of attempts and then bound is a starting
      point of the scaling protocol. */
  lemma BoundVolumeIsInitial(req: Request, rounds: seq<seq<Pool>>, history: seq<set<Name>>, oks: seq<bool>,
                             poolNames: seq<Name>, spec: seq<Name>, status: seq<Name>, s: VolumeScaling.State)
    requires Attempts(req, rounds, history, oks) && |rounds| > 0 && oks[|rounds| - 1]
    requires Unique(req.policy) && (req.policy != [] ==> |req.policy| == req.replicaCount)
    requires Unique(poolNames) && Elems(poolNames) == history[|rounds|]
    requires spec == req.policy + ListDiff(poolNames, req.policy) && status == [] + ListDiff(spec, [])
    requires s.cvc.desired == spec && s.cvc.current == status
    requires s.cvrs == map n | n in history[|rounds|] :: VolumeScaling.Cvr("", false)
    requires s.cv.drf == s.cv.rf == req.replicaCount && s.cv.cf == s.cv.rf / 2 + 1
    requires s.cv.specKnown == s.cv.statusKnown == map[] && s.op.OpIdle? && s.mgr.MgrIdle?
    ensures VolumeScaling.Init(s)
  {
    hide Attempts, Unique, ListDiff;
    BoundLists(req, rounds, history, oks, poolNames, spec, status);
  }

  lemma BoundLists(req: Request, rounds: seq<seq<Pool>>, history: seq<set<Name>>, oks: seq<bool>,
                   poolNames: seq<Name>, spec: seq<Name>, status: seq<Name>)
    requires Attempts(req, rounds, history, oks) && |rounds| > 0 && oks[|rounds| - 1]
    requires Unique(req.policy) && (req.policy != [] ==> |req.policy| == req.replicaCount)
    requires Unique(poolNames) && Elems(poolNames) == history[|rounds|]
    requires spec == req.policy + ListDiff(poolNames, req.policy) && status == [] + ListDiff(spec, [])
    ensures Unique(spec) && Unique(status) && |history| == |rounds| + 1
    ensures Elems(spec) == Elems(status) == history[|rounds|] && |status| == req.replicaCount
  {
    hide Eligible, Attempt, Unique, ListDiff, EligibleInSomeRound, Attempts;
    HistoryLength(req, rounds, history, oks);
    var cvrs := history[|rounds|];
    PlacementOverRetries(req, rounds, history, oks, |rounds|);
    EmptyUnique();
    AppendDiff(req.policy, poolNames);
    AppendDiff([], spec);
    ElemsCard(status);
    if req.policy != [] {
      PlacedInPolicy(req, rounds, history, oks);
      ElemsCard(req.policy);
      SubsetCard(cvrs, Elems(req.policy));
    }
    assert Elems(spec) == cvrs;
  }

  lemma HistoryLength(req: Request, rounds: seq<seq<Pool>>, history: seq<set<Name>>, oks: seq<bool>)
    requires Attempts(req, rounds, history, oks)
    ensures |history| == |rounds| + 1 && |oks| == |rounds|
  {
  }

  lemma EmptyUnique()
    ensures Unique<Name>([])
  {
  }

  lemma PlacedInPolicy(req: Request, rounds: seq<seq<Pool>>, history: seq<set<Name>>, oks: seq<bool>)
    requires Attempts(req, rounds, history, oks) && req.policy != []
    ensures history[|rounds|] <= Elems(req.policy)
  {
    hide Attempt;
    PlacementOverRetries(req, rounds, history, oks, |rounds|);
    forall n | n in history[|rounds|] ensures n in req.policy {
      assert EligibleInSomeRound(req, rounds, history, |rounds|, n);
    }
  }
}
