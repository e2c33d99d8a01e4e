/** Block-device replacement as a protocol between the CSPC webhook
  (pkg/webhook/cspc_operations.go), the cspc-operator
  (pkg/controllers/cspc-controller/operations.go) and the pool-managers
  (pkg/pool/operations/modify.go, pool_utils.go).

  The webhook annotates the claim of an incoming device with its predecessor
  before the edit is stored; the operator copies the edit to the CSPI; the
  pool-manager releases the claim of the predecessor once the incoming device
  is in the pool, and then clears the annotation. Any number of edits may be
  under review at the same time; one can be stored only while the CSPC still has
  the version it was validated against. */
module Replacement {
  import opened Wrappers
  import opened Lists
  import opened RaidGroups
  import opened CspiSync

  /** An edit under review: it was validated against version `base` of the CSPC
      and asks for `after`; `plan` maps incoming to outgoing devices, `claimed` are
      the incoming devices whose claims are annotated by now. */
  datatype Review = Review(base: nat, after: Cspc, plan: map<Device, Device>, claimed: set<Device>)

  datatype State = State(
    name: string,
    cspc: Cspc,
    version: nat,
    cspis: seq<seq<Group>>,
    claims: map<Device, Claim>,
    reviews: map<nat, Review>)

  datatype Action =
    | Admit(k: nat, after: Cspc, matched: seq<seq<Group>>, planned: map<Device, Device>, capacity: map<Device, nat>)
    | ClaimIncoming(k: nat, x: Device)
    | Commit(k: nat)
    | Abort(k: nat)
    | ClaimExpansion(d: Device)
    | Expand(p: nat, usable: set<Device>)
    | Copy(p: nat, insts: seq<Group>, usable: set<Device>)
    | ReleaseOld(p: nat, n: Device, path: Device, topology: set<Device>)
    | ClearMark(p: nat, n: Device, path: Device, topology: set<Device>)

  // ---------- claims and marks ----------

  predicate Marked(claims: map<Device, Claim>, d: Device) {
    d in claims && claims[d].predecessor.Some?
  }

  /** The data devices of a CSPC. */
  ghost function Devices(cspc: Cspc): set<Device> {
    set p, i, d | 0 <= p < |cspc| && 0 <= i < |cspc[p].data| && d in cspc[p].data[i] :: d
  }

  /** The replacements going on: incoming device of the CSPC to predecessor. */
  ghost function Marks(claims: map<Device, Claim>, cspc: Cspc): map<Device, Device> {
    map n | n in Devices(cspc) && Marked(claims, n) :: claims[n].predecessor.value
  }

  predicate OnCspi(cspis: seq<seq<Group>>, p: nat, d: Device) {
    p < |cspis| && exists j :: 0 <= j < |cspis[p]| && d in cspis[p][j]
  }

  // ---------- steps ----------

  /** The pair of devices exchanged in group `i` of pool `p` by an edit. */
  ghost predicate Swap(cspc: Cspc, matched: seq<seq<Group>>, p: int, i: int, x: Device, y: Device) {
    && 0 <= p < |cspc| && p < |matched| && 0 <= i < |cspc[p].data| && i < |matched[p]|
    && ListDiff(cspc[p].data[i], matched[p][i]) != []
    && x == FirstMissing(matched[p][i], cspc[p].data[i])
    && y == FirstMissing(cspc[p].data[i], matched[p][i])
  }

  ghost predicate IsPlan(cspc: Cspc, matched: seq<seq<Group>>, planned: map<Device, Device>) {
    && (forall x :: x in planned ==> exists p, i :: Swap(cspc, matched, p, i, x, planned[x]))
    && (forall p, i, x, y :: Swap(cspc, matched, p, i, x, y) ==> x in planned && planned[x] == y)
  }

  /** The webhook accepts the edit of pool `p`; an unchanged pool spec is skipped. */
  ghost predicate PoolAccepted(env: Env, cspc: Cspc, o: PoolSpec, n: PoolSpec, matched: seq<Group>) {
    || (o == n && matched == o.data)
    || (&& Accepted(env, cspc, o, n, matched, [])
        && (ExpansionValid(env, cspc, o, n, matched, [], true) || ExpansionValid(env, cspc, o, n, matched, [], false)))
  }

  /** Data groups of at least two devices, no device used twice or without name. */
  ghost predicate WellFormed(cspc: Cspc) {
    && (forall p, i :: 0 <= p < |cspc| && 0 <= i < |cspc[p].data| ==> |cspc[p].data[i]| >= 2)
    && (forall p :: 0 <= p < |cspc| ==> cspc[p].cache == [] && cspc[p].dataType != STRIPED)
    && Unique(AllDevices(cspc)) && "" !in AllDevices(cspc)
  }

  ghost predicate CanAdmit(s: State, a: Action)
    requires a.Admit?
  {
    && |a.after| == |s.cspc| == |a.matched|
    && WellFormed(a.after)
    && (forall p :: 0 <= p < |s.cspc| ==>
          PoolAccepted(Env(s.name, s.claims, a.capacity), s.cspc, s.cspc[p], a.after[p], a.matched[p]))
    && IsPlan(s.cspc, a.matched, a.planned)
  }

  /** The claimed devices of this CSPC: those `isBDUsable` lets through. */
  predicate Usable(s: State, usable: set<Device>) {
    forall d :: d in usable ==> d in s.claims && s.claims[d].owner == s.name
  }

  /** The pool-manager found `path` among the paths of the vdevs. It is the path
      of device `n`, or the empty path of a raid group when the links of `n` could
      not be read. */
  predicate LookedUp(n: Device, path: Device, topology: set<Device>) {
    path in topology && (path == n || path == "")
  }

  ghost predicate Step(s: State, a: Action, s': State) {
    match a
    case Admit(k, after, _, planned, _) =>
      && k !in s.reviews && CanAdmit(s, a)
      && s' == s.(reviews := s.reviews[k := Review(s.version, after, planned, {})])
    case ClaimIncoming(k, x) =>
      && k in s.reviews && x in s.reviews[k].plan
      && s' == s.(claims := Annotated(s.claims, s.name, x, s.reviews[k].plan[x]),
                  reviews := s.reviews[k := s.reviews[k].(claimed := s.reviews[k].claimed + {x})])
    case Commit(k) =>
      && Current(s, k) && s.reviews[k].claimed == s.reviews[k].plan.Keys
      && s' == s.(cspc := s.reviews[k].after, version := s.version + 1, reviews := s.reviews - {k})
    case Abort(k) =>
      k in s.reviews && s' == s.(reviews := s.reviews - {k})
    case ClaimExpansion(d) =>
      && d in Devices(s.cspc) && d !in s.claims
      && s' == s.(claims := s.claims[d := Claim(s.name, None)])
    case Expand(p, usable) =>
      && p < |s.cspc| && p < |s.cspis| && Usable(s, usable)
      && |s.cspc[p].data| > |s.cspis[p]|
      && s' == s.(cspis := s.cspis[p := Expanded(s.cspc[p].data, s.cspis[p], usable)])
    case Copy(p, insts, usable) =>
      && p < |s.cspc| && p < |s.cspis| && Usable(s, usable)
      && CopyGroups(s.cspc[p].data, s.cspis[p], insts, usable)
      && s' == s.(cspis := s.cspis[p := insts])
    case ReleaseOld(p, n, path, topology) =>
      && OnCspi(s.cspis, p, n) && Marked(s.claims, n) && s.claims[n].predecessor != Some("") && LookedUp(n, path, topology)
      && s' == s.(claims := s.claims - {s.claims[n].predecessor.value})
    case ClearMark(p, n, path, topology) =>
      && OnCspi(s.cspis, p, n) && Marked(s.claims, n) && s.claims[n].predecessor != Some("") && LookedUp(n, path, topology)
      && s.claims[n].predecessor.value !in s.claims
      && s' == s.(claims := s.claims[n := s.claims[n].(predecessor := None)])
  }

  /** The edit can still be stored: the CSPC has not changed since it was
      validated. */
  predicate Current(s: State, k: nat) {
    k in s.reviews && s.reviews[k].base == s.version
  }

  // ---------- what the webhook does not check ----------

  /** The devices of the new groups that match no old group. */
  ghost function Unmatched(a: Action): set<Device>
    requires a.Admit?
  {
    set p, k, d | 0 <= p < |a.after| && p < |a.matched| && 0 <= k < |a.after[p].data|
                  && a.after[p].data[k] !in a.matched[p] && d in a.after[p].data[k] :: d
  }

  /** The annotation left on device `d` does no harm when `d` comes in by
      expansion: its predecessor is in use nowhere, is no other predecessor, and
      the claim is one of this CSPC. */
  ghost predicate HarmlessMark(cspc: Cspc, claims: map<Device, Claim>, name: string, after: Cspc, plan: map<Device, Device>, d: Device)
    requires Marked(claims, d)
  {
    var e := claims[d].predecessor.value;
    && e !in Devices(after) && e != "" && !Marked(claims, e)
    && e !in Marks(claims, cspc).Values && e !in plan.Values
    && claims[d].owner == name
  }

  ghost predicate OneAnnotated(claims: map<Device, Claim>, g: Group) {
    forall d, d' :: d in g && d' in g && Marked(claims, d) && Marked(claims, d') ==> d == d'
  }

  ghost predicate DistinctAnnotations(claims: map<Device, Claim>, devices: set<Device>) {
    forall d, d' :: d in devices && d' in devices && d != d' && Marked(claims, d) && Marked(claims, d') ==>
      claims[d].predecessor != claims[d'].predecessor
  }

  /** The devices that come in by expansion are not on their way out, not the
      predecessors of other devices, and carry no harmful annotation, nor two of
      them the same or two in one group. */
  ghost predicate HarmlessExpansion(s: State, a: Action)
    requires a.Admit?
  {
    var extra := Unmatched(a);
    && (forall d :: d in extra ==> d !in a.planned.Values && d !in Marks(s.claims, s.cspc).Values)
    && (forall d :: d in extra && Marked(s.claims, d) ==> HarmlessMark(s.cspc, s.claims, s.name, a.after, a.planned, d))
    && DistinctAnnotations(s.claims, extra)
    && (forall p, k :: 0 <= p < |a.after| && p < |a.matched| && 0 <= k < |a.after[p].data| && a.after[p].data[k] !in a.matched[p] ==>
          OneAnnotated(s.claims, a.after[p].data[k]))
  }

  /** The new devices of an edit that replace nothing. */
  ghost function Extra(cspc: Cspc, after: Cspc, plan: map<Device, Device>): set<Device> {
    Devices(after) - Devices(cspc) - plan.Keys
  }

  /** `x` comes in by expansion with the edit, or is the predecessor named by a
      device that does. */
  ghost predicate Mentions(s: State, r: Review, x: Device) {
    || x in Extra(s.cspc, r.after, r.plan)
    || exists d :: d in Extra(s.cspc, r.after, r.plan) && Marked(s.claims, d) && s.claims[d].predecessor.value == x
  }

  /** Annotating the claim of `x` for review `k` does no harm: it is annotated
      so already; or the CSPC does not use `x`, no device of the CSPC replaces it,
      and no other edit that can still be stored brings it in by expansion. Another
      edit may plan to use `x` too: what counts is the annotation when it is stored. */
  ghost predicate HarmlessClaim(s: State, k: nat, x: Device)
    requires k in s.reviews && x in s.reviews[k].plan
  {
    || (x in s.claims && s.claims[x].predecessor == Some(s.reviews[k].plan[x]))
    || (&& x !in Devices(s.cspc) && x !in Marks(s.claims, s.cspc).Values
        && forall j :: j in s.reviews && j != k && Current(s, j) ==> !Mentions(s, s.reviews[j], x))
  }

  /** The incoming devices of the edit carry the annotations it planned. */
  ghost predicate Intact(s: State, k: nat)
    requires k in s.reviews
  {
    forall x :: x in s.reviews[k].plan ==> x in s.claims && s.claims[x].predecessor == Some(s.reviews[k].plan[x])
  }

  /** The conditions on what the webhook lets through. */
  ghost predicate Benign(s: State, a: Action) {
    && (a.Admit? ==> HarmlessExpansion(s, a))
    && (a.Commit? && a.k in s.reviews ==> Intact(s, a.k))
    && (a.ClaimIncoming? && a.k in s.reviews && a.x in s.reviews[a.k].plan ==> HarmlessClaim(s, a.k, a.x))
  }

  ghost predicate Run(s: State, acts: seq<Action>, s': State)
    decreases |acts|
  {
    if acts == [] then s' == s
    else exists m :: Step(s, acts[0], m) && Benign(s, acts[0]) && Run(m, acts[1..], s')
  }

  /** CSPIs freshly created from the CSPC. */
  ghost predicate Init(s: State) {
    && WellFormed(s.cspc) && s.reviews == map[] && |s.cspis| == |s.cspc|
    && (forall p :: 0 <= p < |s.cspc| ==> s.cspis[p] == s.cspc[p].data)
    && (forall d :: d in Devices(s.cspc) ==> d in s.claims && s.claims[d].predecessor.None?)
  }

  // ---------- the invariant ----------

  ghost predicate Synced(cspc: Cspc, cspis: seq<seq<Group>>, marks: map<Device, Device>) {
    && |cspis| == |cspc|
    && forall p :: 0 <= p < |cspc| ==> Lagging(cspc[p].data, cspis[p], marks)
  }

  /** Predecessors are outside the CSPC, different for different devices, and
      not themselves marked. */
  ghost predicate MarksOk(marks: map<Device, Device>, claims: map<Device, Claim>, cspc: Cspc) {
    && (forall n :: n in marks ==> marks[n] !in Devices(cspc) && marks[n] != "" && !Marked(claims, marks[n]))
    && (forall n, n' :: n in marks && n' in marks && marks[n] == marks[n'] ==> n == n')
  }

  ghost predicate CspisClaimed(s: State) {
    forall p, d :: 0 <= p < |s.cspis| && OnCspi(s.cspis, p, d) ==> d in s.claims
  }

  /** Group `o` is kept by the edit, or exchanges one device as planned. */
  ghost predicate Carried(o: Group, n: Group, plan: map<Device, Device>, marks: map<Device, Device>) {
    || Elems(n) == Elems(o)
    || exists x :: && x in plan && plan[x] in o && x !in o && Elems(n) == Elems(o) - {plan[x]} + {x}
                   && forall d :: d in o ==> d !in marks
  }

  /** A new group of devices that replace nothing. */
  ghost predicate ExtraGroup(cspc: Cspc, claims: map<Device, Claim>, plan: map<Device, Device>, g: Group) {
    (forall d :: d in g ==> d !in Devices(cspc) && d !in plan) && OneAnnotated(claims, g)
  }

  ghost predicate PoolVetted(cspc: Cspc, claims: map<Device, Claim>, o: seq<Group>, n: seq<Group>, plan: map<Device, Device>) {
    && (forall i :: 0 <= i < |o| ==> CarriedOn(o[i], n, plan, Marks(claims, cspc)))
    && (forall k :: 0 <= k < |n| ==>
          CarriedFrom(o, n[k], plan, Marks(claims, cspc)) || ExtraGroup(cspc, claims, plan, n[k]))
  }

  ghost predicate CarriedOn(o: Group, news: seq<Group>, plan: map<Device, Device>, marks: map<Device, Device>) {
    exists k :: 0 <= k < |news| && Carried(o, news[k], plan, marks)
  }

  ghost predicate CarriedFrom(olds: seq<Group>, n: Group, plan: map<Device, Device>, marks: map<Device, Device>) {
    exists i :: 0 <= i < |olds| && Carried(olds[i], n, plan, marks)
  }

  ghost predicate PlanOk(cspc: Cspc, claims: map<Device, Claim>, after: Cspc, plan: map<Device, Device>) {
    && (forall x :: x in plan ==>
          && x !in Devices(cspc) && x in Devices(after) && x !in Marks(claims, cspc).Values
          && plan[x] in Devices(cspc) && plan[x] !in Devices(after) && !Marked(claims, plan[x]))
    && (forall x, x' :: x in plan && x' in plan && plan[x] == plan[x'] ==> x == x')
  }

  ghost predicate ExtraOk(cspc: Cspc, claims: map<Device, Claim>, name: string, after: Cspc, plan: map<Device, Device>) {
    var extra := Extra(cspc, after, plan);
    && (forall d :: d in extra ==> d !in Marks(claims, cspc).Values)
    && (forall d :: d in extra && Marked(claims, d) ==> HarmlessMark(cspc, claims, name, after, plan, d))
    && DistinctAnnotations(claims, extra)
  }

  /** What is known about an edit between its validation and its storing. */
  ghost predicate ReviewOk(cspc: Cspc, claims: map<Device, Claim>, name: string, after: Cspc, plan: map<Device, Device>) {
    && WellFormed(after) && |after| == |cspc|
    && PlanOk(cspc, claims, after, plan)
    && ExtraOk(cspc, claims, name, after, plan)
    && (forall p :: 0 <= p < |after| ==> PoolVetted(cspc, claims, cspc[p].data, after[p].data, plan))
    && (forall x :: x in plan && x in claims ==> claims[x].owner == name)
  }

  ghost predicate ReviewsOk(s: State) {
    && (forall k :: k in s.reviews ==> s.reviews[k].base <= s.version)
    && (forall k :: Current(s, k) ==>
          ReviewOk(s.cspc, s.claims, s.name, s.reviews[k].after, s.reviews[k].plan))
  }

  /** The claims of marked devices belong to this CSPC. */
  ghost predicate MarksOwned(claims: map<Device, Claim>, cspc: Cspc, name: string) {
    forall n :: n in Devices(cspc) && Marked(claims, n) ==> claims[n].owner == name
  }

  /** The part of the invariant that does not speak of reviews. */
  ghost predicate Core(s: State) {
    var marks := Marks(s.claims, s.cspc);
    && WellFormed(s.cspc)
    && Synced(s.cspc, s.cspis, marks)
    && MarksOk(marks, s.claims, s.cspc)
    && CspisClaimed(s)
    && MarksOwned(s.claims, s.cspc, s.name)
  }

  ghost predicate Inv(s: State) {
    Core(s) && ReviewsOk(s)
  }
}
