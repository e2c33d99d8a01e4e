/** Volume resize: the cvc-operator (pkg/controllers/cstorvolumeconfig/controller.go)
  and the volume manager (pkg/controllers/volume-mgmt/handler.go) carry a new
  capacity from the CVC to the target and back.

  The operator writes by merge patches, which are not checked against the
  version of the object read; the manager's updates are. The operator reads the
  CVC from a cache that may be stale, but not older than what it has already
  acted on. */
module Resize {

  /** What the operator holds between its reads and its write. */
  datatype Operator =
    | Resting
    | HasCvc(desired: nat)
    | HasBoth(wanted: nat, spec: nat, status: nat)

  /** What the volume manager holds of the CStorVolume it read; `done` after the
      target has been resized or created with that capacity. */
  datatype Manager = Waiting | Working(spec: nat, status: nat, done: bool)

  datatype State = State(
    cvcSpec: nat, cvcStatus: nat,
    cvSpec: nat, cvStatus: nat,
    target: nat,
    operator: Operator, manager: Manager)

  datatype Action =
    | Request(capacity: nat)
    | OpReadCvc(seen: nat) | OpReadCv | OpFinish | OpPatch | OpStop
    | MgrRead | MgrResize | MgrUpdate | MgrStop

  predicate Enabled(s: State, a: Action) {
    match a
    case Request(c) => c >= s.cvcSpec
    case OpReadCvc(seen) => s.operator.Resting? && s.cvSpec <= seen <= s.cvcSpec
    case OpReadCv => s.operator.HasCvc?
    case OpFinish => s.operator.HasBoth? && s.operator.spec <= s.operator.status && s.operator.wanted == s.operator.status
    case OpPatch => s.operator.HasBoth? && s.operator.spec <= s.operator.status && s.operator.wanted != s.operator.status
    case OpStop => true
    case MgrRead => s.manager.Waiting?
    case MgrResize => s.manager.Working?
    case MgrUpdate =>
      && s.manager.Working? && s.manager.done
      && s.manager.spec == s.cvSpec && s.manager.status == s.cvStatus    // not stale
    case MgrStop => true
  }

  function Do(s: State, a: Action): State
    requires Enabled(s, a)
  {
    match a
    case Request(c) => s.(cvcSpec := c)
    case OpReadCvc(seen) => s.(operator := HasCvc(seen))
    case OpReadCv => s.(operator := HasBoth(s.operator.desired, s.cvSpec, s.cvStatus))
    case OpFinish => s.(cvcStatus := s.operator.wanted, operator := Resting)
    case OpPatch => s.(cvSpec := s.operator.wanted, operator := Resting)
    case OpStop => s.(operator := Resting)
    case MgrRead => s.(manager := Working(s.cvSpec, s.cvStatus, false))
    case MgrResize => s.(target := s.manager.spec, manager := s.manager.(done := true))
    case MgrUpdate => s.(cvStatus := s.manager.spec, manager := Waiting)
    case MgrStop => s.(manager := Waiting)
  }

  ghost predicate Run(s: State, acts: seq<Action>, s': State)
    decreases |acts|
  {
    if acts == [] then s' == s
    else Enabled(s, acts[0]) && Run(Do(s, acts[0]), acts[1..], s')
  }

  /** All capacities equal and nothing in flight. */
  predicate Init(s: State) {
    s.cvcSpec == s.cvcStatus == s.cvSpec == s.cvStatus == s.target && s.operator.Resting? && s.manager.Waiting?
  }

  predicate Chain(s: State) {
    s.cvcStatus <= s.cvStatus <= s.target <= s.cvSpec <= s.cvcSpec
  }

  predicate Inv(s: State) {
    && Chain(s)
    && (s.operator.HasCvc? ==> s.cvSpec <= s.operator.desired <= s.cvcSpec)
    && (s.operator.HasBoth? ==>
          && s.cvSpec <= s.operator.wanted <= s.cvcSpec && s.operator.spec == s.cvSpec
          && s.operator.status <= s.cvStatus)
    && (s.manager.Working? ==>
          && s.manager.status == s.cvStatus
          && (s.manager.spec == s.cvSpec
              || (s.manager.spec == s.cvStatus == s.target && s.manager.spec < s.cvSpec))
          && (s.manager.done ==> s.manager.spec <= s.target))
  }

  lemma StepKeepsInv(s: State, a: Action)
    requires Inv(s) && Enabled(s, a)
    ensures Inv(Do(s, a))
  {
  }

  lemma {:induction false} RunKeepsInv(s: State, acts: seq<Action>, s': State)
    requires Inv(s) && Run(s, acts, s')
    ensures Inv(s')
    decreases |acts|
  {
    if acts != [] {
      StepKeepsInv(s, acts[0]);
      RunKeepsInv(Do(s, acts[0]), acts[1..], s');
    }
  }

  /** In every run the capacities are ordered, and a CVC that reports the
      requested size has all five equal. */
  lemma CapacitiesInEveryRun(s0: State, acts: seq<Action>, s: State)
    requires Init(s0) && Run(s0, acts, s)
    ensures s.cvcStatus <= s.cvStatus <= s.target <= s.cvSpec <= s.cvcSpec
    ensures s.cvcStatus == s.cvcSpec ==> s.cvStatus == s.target == s.cvSpec == s.cvcSpec
  {
    RunKeepsInv(s0, acts, s);
  }

  /** A size the volume manager has not yet completed is never overwritten, and
      no step makes the volume, the target or a reported size smaller. */
  lemma OutstandingSizeIsKept(s0: State, acts: seq<Action>, s: State, a: Action)
    requires Init(s0) && Run(s0, acts, s) && Enabled(s, a)
    ensures s.cvStatus < s.cvSpec ==> Do(s, a).cvSpec == s.cvSpec
    ensures var s' := Do(s, a);
      s.cvSpec <= s'.cvSpec && s.cvStatus <= s'.cvStatus && s.target <= s'.target && s.cvcStatus <= s'.cvcStatus
  {
    RunKeepsInv(s0, acts, s);
  }

  // ---------- completion from any intermediate state ----------

  lemma {:induction false} RunAppend(s: State, a: seq<Action>, m: State, b: seq<Action>, s': State)
    requires Run(s, a, m) && Run(m, b, s')
    ensures Run(s, a + b, s')
    decreases |a|
  {
    if a == [] {
      assert a + b == b;
    } else {
      RunAppend(Do(s, a[0]), a[1..], m, b, s');
      assert (a + b)[1..] == a[1..] + b;
    }
  }

  lemma {:induction false} RunOne(s: State, a: Action)
    requires Enabled(s, a)
    ensures Run(s, [a], Do(s, a))
  {
    assert [a][1..] == [];
    assert Run(Do(s, a), [], Do(s, a));
  }

  /** A full pass of the volume manager brings target and status to the spec. */
  lemma ManagerPass(s: State) returns (s': State)
    requires Inv(s)
    ensures s' == s.(target := s.cvSpec, cvStatus := s.cvSpec, manager := Waiting) && Inv(s')
    ensures Run(s, [MgrStop, MgrRead, MgrResize, MgrUpdate], s')
  {
    var s1 := Do(s, MgrStop);
    var s2 := Do(s1, MgrRead);
    var s3 := Do(s2, MgrResize);
    s' := Do(s3, MgrUpdate);
    RunOne(s, MgrStop);
    RunOne(s1, MgrRead);
    RunOne(s2, MgrResize);
    RunOne(s3, MgrUpdate);
    RunAppend(s, [MgrStop], s1, [MgrRead], s2);
    RunAppend(s, [MgrStop] + [MgrRead], s2, [MgrResize], s3);
    RunAppend(s, [MgrStop] + [MgrRead] + [MgrResize], s3, [MgrUpdate], s');
    assert [MgrStop] + [MgrRead] + [MgrResize] + [MgrUpdate] == [MgrStop, MgrRead, MgrResize, MgrUpdate];
  }

  /** A full pass of the operator on a volume without outstanding size. */
  lemma OperatorPass(s: State) returns (acts: seq<Action>, s': State)
    requires Inv(s) && s.cvStatus == s.cvSpec && s.cvcStatus < s.cvcSpec
    ensures Run(s, acts, s') && Inv(s') && s'.operator.Resting?
    ensures s'.cvcSpec == s.cvcSpec && s'.cvSpec == s.cvcSpec
    ensures s.cvSpec == s.cvcSpec ==> s' == s.(cvcStatus := s.cvcSpec, operator := Resting)
  {
    var s1 := Do(s, OpStop);
    var s2 := Do(s1, OpReadCvc(s.cvcSpec));
    var s3 := Do(s2, OpReadCv);
    var last := if s.cvSpec == s.cvcSpec then OpFinish else OpPatch;
    s' := Do(s3, last);
    RunOne(s, OpStop);
    RunOne(s1, OpReadCvc(s.cvcSpec));
    RunOne(s2, OpReadCv);
    RunOne(s3, last);
    RunAppend(s, [OpStop], s1, [OpReadCvc(s.cvcSpec)], s2);
    RunAppend(s, [OpStop] + [OpReadCvc(s.cvcSpec)], s2, [OpReadCv], s3);
    acts := [OpStop] + [OpReadCvc(s.cvcSpec)] + [OpReadCv] + [last];
    RunAppend(s, [OpStop] + [OpReadCvc(s.cvcSpec)] + [OpReadCv], s3, [last], s');
    RunKeepsInv(s, acts, s');
  }

  /** Wherever a resize was interrupted, the two controllers can carry it to the
      end: all five capacities equal to the one last requested. */
  lemma ResizeCompletes(s0: State, before: seq<Action>, s: State) returns (acts: seq<Action>, s': State)
    requires Init(s0) && Run(s0, before, s)
    ensures Run(s, acts, s')
    ensures s'.cvcSpec == s'.cvcStatus == s'.cvSpec == s'.cvStatus == s'.target == s.cvcSpec
  {
    RunKeepsInv(s0, before, s);
    s' := ManagerPass(s);
    acts := [MgrStop, MgrRead, MgrResize, MgrUpdate];
    if s'.cvcStatus < s'.cvcSpec && s'.cvSpec < s'.cvcSpec {
      var more, m := OperatorPass(s');
      RunAppend(s, acts, s', more, m);
      acts := acts + more;
      s' := ManagerPass(m);
      RunAppend(s, acts, m, [MgrStop, MgrRead, MgrResize, MgrUpdate], s');
      acts := acts + [MgrStop, MgrRead, MgrResize, MgrUpdate];
    }
    if s'.cvcStatus < s'.cvcSpec {
      var more, m := OperatorPass(s');
      RunAppend(s, acts, s', more, m);
      acts := acts + more;
      s' := m;
    }
  }

  // ---------- the operations ----------

  /** The stored objects and the target, as the two controllers update them. */
  class Volume {
    var s: State

    constructor (start: State)
      ensures s == start
    {
      s := start;
    }

    /** resizeCVC, called when the CVC asks for more than it reports. */
    method ResizeCVC(patched: bool) returns (ghost acts: seq<Action>)
      requires Inv(s) && s.operator.Resting? && s.cvcSpec > s.cvcStatus
      modifies this
      ensures Run(old(s), acts, s) && Inv(s) && s.operator.Resting?
      ensures s == old(s).(cvSpec := s.cvSpec, cvcStatus := s.cvcStatus)
      ensures s.cvSpec == if patched && old(s).cvStatus == old(s).cvSpec then s.cvcSpec else old(s).cvSpec
      ensures s.cvcStatus == if patched && old(s).cvStatus == old(s).cvSpec == s.cvcSpec then s.cvcSpec else old(s).cvcStatus
      ensures s.cvSpec != old(s).cvSpec ==> s.cvcStatus == old(s).cvcStatus
    {
      ghost var s1 := Do(s, OpReadCvc(s.cvcSpec));
      ghost var s2 := Do(s1, OpReadCv);
      RunOne(s, OpReadCvc(s.cvcSpec));
      RunOne(s1, OpReadCv);
      RunAppend(s, [OpReadCvc(s.cvcSpec)], s1, [OpReadCv], s2);
      acts := [OpReadCvc(s.cvcSpec)] + [OpReadCv];
      var desired := s.cvcSpec;
      if s.cvSpec > s.cvStatus || !patched {
        RunOne(s2, OpStop);
        RunAppend(s, acts, s2, [OpStop], Do(s2, OpStop));
        acts := acts + [OpStop];
        return;
      }
      if desired == s.cvStatus {
        RunOne(s2, OpFinish);
        RunAppend(s, acts, s2, [OpFinish], Do(s2, OpFinish));
        acts := acts + [OpFinish];
        s := s.(cvcStatus := desired);
        return;
      }
      RunOne(s2, OpPatch);
      RunAppend(s, acts, s2, [OpPatch], Do(s2, OpPatch));
      acts := acts + [OpPatch];
      s := s.(cvSpec := desired);
    }

    /** resizeCStorVolume on a fresh copy of a volume with a pending resize. */
    method ResizeCStorVolume(resized: bool, updated: bool) returns (ok: bool, ghost acts: seq<Action>)
      requires Inv(s) && s.manager.Waiting? && s.cvStatus < s.cvSpec
      modifies this
      ensures Run(old(s), acts, s) && Inv(s) && s.manager.Waiting?
      ensures ok <==> resized && updated
      ensures s == if ok then old(s).(target := s.cvSpec, cvStatus := s.cvSpec)
                   else if resized then old(s).(target := s.cvSpec)
                   else old(s)
    {
      ghost var s1 := Do(s, MgrRead);
      RunOne(s, MgrRead);
      acts := [MgrRead];
      if !resized {
        RunOne(s1, MgrStop);
        RunAppend(s, acts, s1, [MgrStop], Do(s1, MgrStop));
        acts := acts + [MgrStop];
        return false, acts;
      }
      ghost var s2 := Do(s1, MgrResize);
      RunOne(s1, MgrResize);
      RunAppend(s, acts, s1, [MgrResize], s2);
      acts := acts + [MgrResize];
      ghost var last := if updated then MgrUpdate else MgrStop;
      RunOne(s2, last);
      RunAppend(s, acts, s2, [last], Do(s2, last));
      acts := acts + [last];
      s := s.(target := s.cvSpec);
      if !updated { return false, acts; }
      s := s.(cvStatus := s.cvSpec);
      return true, acts;
    }
  }
}
