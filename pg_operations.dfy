/** The operations a pod-group controller puts on its queue, the sequence each intent enqueues
    ("plans"), and what those sequences do to instances and to the list of pod controllers. */
module PgOperations {
  import opened Common
  import opened EngineTypes

  /** One constructor per pgOper* operation type. */
  datatype PgOp =
    | LogOperation(msg: string)
    | SaveStore(force: bool)
    | RemoveStore
    | SnapshotEagleView(name: string)
    | SnapshotGroup(force: bool)
    | SnapshotPrevState
    | DeployInstance(instanceNo: int, version: int)
    | UpgradeInstance(instanceNo: int, version: int, oldPod: PodSpec, newPod: PodSpec)
    | DriftInstance(instanceNo: int, fromNode: string, toNode: string, force: bool)
    | RemoveInstance(instanceNo: int, pod: PodSpec)
    | RefreshInstance(instanceNo: int, spec: PodGroupSpec)
    | VerifyInstanceCount(spec: PodGroupSpec)
    | PushPodCtrl(pod: PodSpec)
    | PopPodCtrl
    | Purge

  /** Operations that act on one numbered instance. */
  predicate PerInstance(op: PgOp) {
    op.DeployInstance? || op.UpgradeInstance? || op.DriftInstance? || op.RemoveInstance? || op.RefreshInstance?
  }

  /** Operations that neither act on an instance nor grow or shrink the pod-controller list. */
  predicate Bookkeeping(ops: seq<PgOp>) {
    forall k :: 0 <= k < |ops| ==> !PerInstance(ops[k]) && !ops[k].PushPodCtrl? && !ops[k].PopPodCtrl?
  }

  /** Instance numbers touched by per-instance operations, in queue order. */
  function Targets(ops: seq<PgOp>): seq<int> {
    if ops == [] then []
    else
      var last := ops[|ops| - 1];
      Targets(ops[..|ops| - 1]) + (if PerInstance(last) then [last.instanceNo] else [])
  }

  /** Net pod-controller count after `ops`, starting from `len`: each PushPodCtrl adds one and each
      PopPodCtrl takes one away. It is the length of the worker's list only on the assumption that
      those two operations each change the list by exactly one; their bodies are not modelled. */
  function CtrlLen(len: int, ops: seq<PgOp>): int {
    if ops == [] then len
    else
      var last := ops[|ops| - 1];
      CtrlLen(len, ops[..|ops| - 1]) + (if last.PushPodCtrl? then 1 else if last.PopPodCtrl? then -1 else 0)
  }

  /** from+1, from+2, ..., from+n */
  function CountUp(from: int, n: nat): (r: seq<int>)
    ensures |r| == n && forall j :: 0 <= j < n ==> r[j] == from + j + 1
  {
    seq(n, j => from + j + 1)
  }

  /** from, from-1, ..., from-n+1 */
  function CountDown(from: int, n: nat): (r: seq<int>)
    ensures |r| == n && forall j :: 0 <= j < n ==> r[j] == from - j
  {
    seq(n, j => from - j)
  }

  lemma {:induction false} TargetsAppend(a: seq<PgOp>, b: seq<PgOp>)
    ensures Targets(a + b) == Targets(a) + Targets(b)
    decreases |b|
  {
    if b == [] {
      assert a + b == a;
    } else {
      var b' := b[..|b| - 1];
      TargetsAppend(a, b');
      assert (a + b)[..|a + b| - 1] == a + b';
    }
  }

  lemma {:induction false} CtrlLenAppend(len: int, a: seq<PgOp>, b: seq<PgOp>)
    ensures CtrlLen(len, a + b) == CtrlLen(CtrlLen(len, a), b)
    decreases |b|
  {
    if b == [] {
      assert a + b == a;
    } else {
      var b' := b[..|b| - 1];
      CtrlLenAppend(len, a, b');
      assert (a + b)[..|a + b| - 1] == a + b';
    }
  }

  /** Bookkeeping operations touch no instance and leave the pod-controller list alone. */
  lemma {:induction false} BookkeepingIsInert(len: int, ops: seq<PgOp>)
    requires Bookkeeping(ops)
    ensures Targets(ops) == [] && CtrlLen(len, ops) == len
    decreases |ops|
  {
    if ops != [] {
      BookkeepingIsInert(len, ops[..|ops| - 1]);
    }
  }

  /** Effect of a two-operation step on the instance list and the controller count. */
  lemma PairEffect(a: PgOp, b: PgOp, len: int)
    ensures Targets([a, b]) ==
      (if PerInstance(a) then [a.instanceNo] else []) + (if PerInstance(b) then [b.instanceNo] else [])
    ensures CtrlLen(len, [a, b]) ==
      len + (if a.PushPodCtrl? then 1 else if a.PopPodCtrl? then -1 else 0)
          + (if b.PushPodCtrl? then 1 else if b.PopPodCtrl? then -1 else 0)
  {
    assert [a, b][..1] == [a];
    assert [a][..0] == [];
    assert Targets([a]) == (if PerInstance(a) then [a.instanceNo] else []);
    assert CtrlLen(len, [a]) == len + (if a.PushPodCtrl? then 1 else if a.PopPodCtrl? then -1 else 0);
  }

  /** Effect of appending one operation on the instance list and the controller count. */
  lemma StepEffect(ops: seq<PgOp>, op: PgOp, len: int)
    ensures Targets(ops + [op]) == Targets(ops) + (if PerInstance(op) then [op.instanceNo] else [])
    ensures CtrlLen(len, ops + [op]) == CtrlLen(len, ops) + (if op.PushPodCtrl? then 1 else if op.PopPodCtrl? then -1 else 0)
  {
    assert (ops + [op])[..|ops|] == ops;
  }

  /** Bookkeeping around a middle part changes neither the instances touched nor the controller count. */
  lemma Framed(pre: seq<PgOp>, mid: seq<PgOp>, post: seq<PgOp>, len: int)
    requires Bookkeeping(pre) && Bookkeeping(post)
    ensures Targets(pre + mid + post) == Targets(mid)
    ensures CtrlLen(len, pre + mid + post) == CtrlLen(len, mid)
  {
    TargetsAppend(pre, mid);
    TargetsAppend(pre + mid, post);
    CtrlLenAppend(len, pre, mid);
    CtrlLenAppend(len, pre + mid, post);
    BookkeepingIsInert(len, pre);
    BookkeepingIsInert(CtrlLen(len, mid), post);
  }

  /** The per-instance operation of each ascending loop over 1..N. */
  datatype Sweep =
    | DeployEach(version: int)
    | UpgradeEach(version: int, oldPod: PodSpec, newPod: PodSpec)
    | DriftEach(fromNode: string, toNode: string, force: bool)
    | RemoveEach(pod: PodSpec)
    | RefreshEach(spec: PodGroupSpec)

  function InstanceOp(s: Sweep, k: int): (op: PgOp)
    ensures PerInstance(op) && op.instanceNo == k
  {
    match s
    case DeployEach(v) => DeployInstance(k, v)
    case UpgradeEach(v, o, p) => UpgradeInstance(k, v, o, p)
    case DriftEach(f, t, force) => DriftInstance(k, f, t, force)
    case RemoveEach(p) => RemoveInstance(k, p)
    case RefreshEach(spec) => RefreshInstance(k, spec)
  }

  /** The operations of `for i := 0; i < n; i++ { enqueue(op(i + 1)) }`. */
  function Ascending(s: Sweep, n: nat): seq<PgOp> {
    if n == 0 then [] else Ascending(s, n - 1) + [InstanceOp(s, n)]
  }

  /** An ascending sweep has one operation per instance 1..n, in order. */
  lemma {:induction false} AscendingLayout(s: Sweep, n: nat)
    ensures |Ascending(s, n)| == n
    ensures forall k :: 0 <= k < n ==> Ascending(s, n)[k] == InstanceOp(s, k + 1)
    decreases n
  {
    if n > 0 {
      AscendingLayout(s, n - 1);
    }
  }

  lemma CountUpSnoc(n: nat)
    requires n > 0
    ensures CountUp(0, n) == CountUp(0, n - 1) + [n]
  {
  }

  /** An ascending sweep touches instances 1..n and pushes or pops nothing. */
  lemma {:induction false} AscendingEffect(s: Sweep, n: nat, len: int)
    ensures Targets(Ascending(s, n)) == CountUp(0, n)
    ensures CtrlLen(len, Ascending(s, n)) == len
    decreases n
  {
    if n > 0 {
      var a', a := Ascending(s, n - 1), Ascending(s, n);
      AscendingEffect(s, n - 1, len);
      StepEffect(a', InstanceOp(s, n), len);
      CountUpSnoc(n);
    }
  }

  lemma AscendingAt(s: Sweep, n: nat, len: int)
    ensures |Ascending(s, n)| == n
    ensures forall k :: 0 <= k < n ==> Ascending(s, n)[k] == InstanceOp(s, k + 1)
    ensures Targets(Ascending(s, n)) == CountUp(0, n)
    ensures CtrlLen(len, Ascending(s, n)) == len
  {
    AscendingLayout(s, n);
    AscendingEffect(s, n, len);
  }

  /** Growing from `cur`: i (push, deploy) pairs for instances cur+1 .. cur+i. */
  function Grow(pod: PodSpec, version: int, cur: int, i: nat): seq<PgOp> {
    if i == 0 then [] else Grow(pod, version, cur, i - 1) + [PushPodCtrl(pod), DeployInstance(cur + i, version)]
  }

  /** Shrinking from `cur`: i (remove, pop) pairs for instances cur, cur-1, .., cur-i+1. */
  function Shrink(pod: PodSpec, cur: int, i: nat): seq<PgOp> {
    if i == 0 then [] else Shrink(pod, cur, i - 1) + [RemoveInstance(cur - (i - 1), pod), PopPodCtrl]
  }

  lemma {:induction false} GrowAt(pod: PodSpec, version: int, cur: int, i: nat, len: int)
    ensures |Grow(pod, version, cur, i)| == 2 * i
    ensures forall j :: 0 <= j < i ==>
      Grow(pod, version, cur, i)[2 * j] == PushPodCtrl(pod) &&
      Grow(pod, version, cur, i)[2 * j + 1] == DeployInstance(cur + j + 1, version)
    ensures Targets(Grow(pod, version, cur, i)) == CountUp(cur, i)
    ensures CtrlLen(len, Grow(pod, version, cur, i)) == len + i
    decreases i
  {
    if i > 0 {
      var g' := Grow(pod, version, cur, i - 1);
      GrowAt(pod, version, cur, i - 1, len);
      var tail := [PushPodCtrl(pod), DeployInstance(cur + i, version)];
      TargetsAppend(g', tail);
      CtrlLenAppend(len, g', tail);
      PairEffect(PushPodCtrl(pod), DeployInstance(cur + i, version), len + i - 1);
      assert CountUp(cur, i) == CountUp(cur, i - 1) + [cur + i];
    }
  }

  lemma {:induction false} ShrinkAt(pod: PodSpec, cur: int, i: nat, len: int)
    ensures |Shrink(pod, cur, i)| == 2 * i
    ensures forall j :: 0 <= j < i ==>
      Shrink(pod, cur, i)[2 * j] == RemoveInstance(cur - j, pod) &&
      Shrink(pod, cur, i)[2 * j + 1] == PopPodCtrl
    ensures Targets(Shrink(pod, cur, i)) == CountDown(cur, i)
    ensures CtrlLen(len, Shrink(pod, cur, i)) == len - i
    decreases i
  {
    if i > 0 {
      var s' := Shrink(pod, cur, i - 1);
      ShrinkAt(pod, cur, i - 1, len);
      var tail := [RemoveInstance(cur - (i - 1), pod), PopPodCtrl];
      TargetsAppend(s', tail);
      CtrlLenAppend(len, s', tail);
      PairEffect(RemoveInstance(cur - (i - 1), pod), PopPodCtrl, len - (i - 1));
      assert CountDown(cur, i) == CountDown(cur, i - 1) + [cur - (i - 1)];
    }
  }

  /** Where each operation of a sweep framed by bookkeeping operations sits. */
  lemma FramedSweepLayout(pre: seq<PgOp>, s: Sweep, n: nat, post: seq<PgOp>)
    ensures |pre + Ascending(s, n) + post| == |pre| + n + |post|
    ensures forall k :: |pre| <= k < |pre| + n ==> (pre + Ascending(s, n) + post)[k] == InstanceOp(s, k - |pre| + 1)
    ensures (pre + Ascending(s, n) + post)[..|pre|] == pre
    ensures (pre + Ascending(s, n) + post)[|pre| + n..] == post
  {
    var a := Ascending(s, n);
    AscendingLayout(s, n);
    var p := pre + a + post;
    forall k | |pre| <= k < |pre| + n
      ensures p[k] == InstanceOp(s, k - |pre| + 1)
    {
      assert p[k] == a[k - |pre|];
    }
    assert p[..|pre|] == pre;
    assert p[|pre| + n..] == post;
  }

  /** A sweep framed by bookkeeping operations touches exactly instances 1..n and leaves the
      controller list alone. */
  lemma FramedSweepEffect(pre: seq<PgOp>, s: Sweep, n: nat, post: seq<PgOp>, len: int)
    requires Bookkeeping(pre) && Bookkeeping(post)
    ensures Targets(pre + Ascending(s, n) + post) == CountUp(0, n)
    ensures CtrlLen(len, pre + Ascending(s, n) + post) == len
  {
    AscendingEffect(s, n, len);
    Framed(pre, Ascending(s, n), post, len);
  }

  /** A sweep framed by bookkeeping operations: its layout and its effect together. */
  lemma FramedSweep(pre: seq<PgOp>, s: Sweep, n: nat, post: seq<PgOp>, len: int)
    requires Bookkeeping(pre) && Bookkeeping(post)
    ensures |pre + Ascending(s, n) + post| == |pre| + n + |post|
    ensures forall k :: |pre| <= k < |pre| + n ==> (pre + Ascending(s, n) + post)[k] == InstanceOp(s, k - |pre| + 1)
    ensures (pre + Ascending(s, n) + post)[..|pre|] == pre
    ensures (pre + Ascending(s, n) + post)[|pre| + n..] == post
    ensures Targets(pre + Ascending(s, n) + post) == CountUp(0, n)
    ensures CtrlLen(len, pre + Ascending(s, n) + post) == len
  {
    FramedSweepLayout(pre, s, n, post);
    FramedSweepEffect(pre, s, n, post, len);
  }

  // ---- Deploy ----

  function DeployPlan(spec: PodGroupSpec): seq<PgOp> {
    [LogOperation("Start to deploy"), SaveStore(true), SnapshotEagleView(spec.name)]
    + Ascending(DeployEach(spec.version), spec.numInstances)
    + [SnapshotGroup(true), SnapshotPrevState, SaveStore(true), LogOperation("deploy finished")]
  }

  /** Deploy enqueues N + 7 operations: three bookkeeping steps, DeployInstance(k, Version) for
      k = 1..N ascending, then four bookkeeping steps; it touches each instance 1..N exactly once. */
  lemma DeployPlanShape(spec: PodGroupSpec, len: int)
    ensures var p, n := DeployPlan(spec), spec.numInstances;
      && |p| == n + 7
      && p[..3] == [LogOperation("Start to deploy"), SaveStore(true), SnapshotEagleView(spec.name)]
      && (forall k :: 3 <= k < n + 3 ==> p[k] == DeployInstance(k - 2, spec.version))
      && p[n + 3..] == [SnapshotGroup(true), SnapshotPrevState, SaveStore(true), LogOperation("deploy finished")]
      && Targets(p) == CountUp(0, n)
      && CtrlLen(len, p) == len
  {
    FramedSweep([LogOperation("Start to deploy"), SaveStore(true), SnapshotEagleView(spec.name)],
      DeployEach(spec.version), spec.numInstances,
      [SnapshotGroup(true), SnapshotPrevState, SaveStore(true), LogOperation("deploy finished")], len);
  }

  // ---- RescheduleInstance ----

  /** The resize part of a rescale, for a signed change `delta` of the instance count. */
  function Resize(spec: PodGroupSpec, cur: nat, delta: int): seq<PgOp> {
    if delta == 0 then []
    else
      [SnapshotEagleView(spec.name)]
      + (if delta > 0 then Grow(spec.pod, spec.version, cur, delta) else Shrink(spec.pod, cur, -delta))
      + [SnapshotGroup(true), SnapshotPrevState, SaveStore(true)]
  }

  function RescaleLog(cur: nat, target: int): string {
    "Start to reschedule instance from " + IntToString(cur) + " to " + IntToString(target)
  }

  /** A resize by `delta` between the rescale log and store operations and the closing log. */
  function RescaleOps(spec: PodGroupSpec, cur: nat, target: int, delta: int): seq<PgOp> {
    [LogOperation(RescaleLog(cur, target)), SaveStore(true)]
    + Resize(spec, cur, delta)
    + [LogOperation("Reschedule instance number finished")]
  }

  /** What RescheduleInstance enqueues once it has installed `spec`: the change is computed from the
      caller's raw `target`, also when that target was negative and ignored for the spec. */
  function RescalePlan(spec: PodGroupSpec, cur: nat, target: int): seq<PgOp> {
    RescaleOps(spec, cur, target, target - cur)
  }

  lemma {:induction false} ResizeEffect(spec: PodGroupSpec, cur: nat, delta: int)
    ensures delta > 0 ==> Targets(Resize(spec, cur, delta)) == CountUp(cur, delta)
    ensures delta < 0 ==> Targets(Resize(spec, cur, delta)) == CountDown(cur, -delta)
    ensures delta == 0 ==> Resize(spec, cur, delta) == []
    ensures CtrlLen(cur, Resize(spec, cur, delta)) == cur + delta
  {
    if delta != 0 {
      var pre := [SnapshotEagleView(spec.name)];
      var post := [SnapshotGroup(true), SnapshotPrevState, SaveStore(true)];
      var mid := if delta > 0 then Grow(spec.pod, spec.version, cur, delta) else Shrink(spec.pod, cur, -delta);
      if delta > 0 {
        GrowAt(spec.pod, spec.version, cur, delta, cur);
      } else {
        ShrinkAt(spec.pod, cur, -delta, cur);
      }
      Framed(pre, mid, post, cur);
    }
  }

  /** The log and store operations around any middle part change neither the instances touched
      nor the controller count. */
  lemma RescaleLogFramed(cur: nat, target: int, mid: seq<PgOp>)
    ensures var p := [LogOperation(RescaleLog(cur, target)), SaveStore(true)] + mid
                     + [LogOperation("Reschedule instance number finished")];
      Targets(p) == Targets(mid) && CtrlLen(cur, p) == CtrlLen(cur, mid)
  {
    Framed([LogOperation(RescaleLog(cur, target)), SaveStore(true)], mid,
      [LogOperation("Reschedule instance number finished")], cur);
  }

  lemma RescaleFrame(spec: PodGroupSpec, cur: nat, target: int, delta: int)
    ensures Targets(RescaleOps(spec, cur, target, delta)) == Targets(Resize(spec, cur, delta))
    ensures CtrlLen(cur, RescaleOps(spec, cur, target, delta)) == CtrlLen(cur, Resize(spec, cur, delta))
  {
    RescaleLogFramed(cur, target, Resize(spec, cur, delta));
  }

  /** Growing from c to t deploys t-c new instances c+1..t in ascending order, each after a push;
      shrinking removes c, c-1, .., t+1 in descending order, each followed by a pop; either way the
      worker ends with exactly t pod controllers. */
  lemma RescalePlanEffect(spec: PodGroupSpec, cur: nat, target: nat)
    ensures target > cur ==> Targets(RescalePlan(spec, cur, target)) == CountUp(cur, target - cur)
    ensures target < cur ==> Targets(RescalePlan(spec, cur, target)) == CountDown(cur, cur - target)
    ensures CtrlLen(cur, RescalePlan(spec, cur, target)) == target
  {
    RescaleFrame(spec, cur, target, target - cur);
    ResizeEffect(spec, cur, target - cur);
  }

  /** An unchanged count (a policy-only change) enqueues only the log and store operations. */
  lemma RescaleSameCount(spec: PodGroupSpec, cur: nat)
    ensures RescalePlan(spec, cur, cur) ==
      [LogOperation(RescaleLog(cur, cur)), SaveStore(true), LogOperation("Reschedule instance number finished")]
  {
    assert Resize(spec, cur, 0) == [];
  }

  /** A negative target (meant as "keep the count") still yields cur + 1 remove/pop pairs, down to
      instance 0, and leaves the worker with a controller count of -1. */
  lemma NegativeTargetRemovesAll(spec: PodGroupSpec, cur: nat)
    ensures Targets(RescalePlan(spec, cur, -1)) == CountDown(cur, cur + 1)
    ensures CtrlLen(cur, RescalePlan(spec, cur, -1)) == -1
  {
    RescaleFrame(spec, cur, -1, -1 - cur);
    ResizeEffect(spec, cur, -1 - cur);
  }

  /** The evidently intended rescale: the change is taken from the count actually installed, which
      is the target when it is not negative and the current count otherwise. */
  function IntendedRescalePlan(spec: PodGroupSpec, cur: nat, target: int): seq<PgOp> {
    RescaleOps(spec, cur, target, (if target >= 0 then target else cur) - cur)
  }

  /** The intended plan agrees with the written one for every target that is not negative. */
  lemma IntendedRescaleAgrees(spec: PodGroupSpec, cur: nat, target: int)
    requires target >= 0
    ensures IntendedRescalePlan(spec, cur, target) == RescalePlan(spec, cur, target)
  {
    assert (if target >= 0 then target else cur) - cur == target - cur;
  }

  /** A resize that does not go below zero touches only instances numbered 1 or more. */
  lemma ResizeTargetsPositive(spec: PodGroupSpec, cur: nat, delta: int)
    requires cur + delta >= 0
    ensures forall k :: 0 <= k < |Targets(Resize(spec, cur, delta))| ==> 1 <= Targets(Resize(spec, cur, delta))[k]
  {
    ResizeEffect(spec, cur, delta);
  }

  /** For any target the intended plan leaves the worker with exactly the installed count of
      controllers and touches only instances numbered 1 or more. */
  lemma IntendedRescaleKeepsCount(spec: PodGroupSpec, cur: nat, target: int)
    ensures CtrlLen(cur, IntendedRescalePlan(spec, cur, target)) == (if target >= 0 then target else cur)
    ensures forall k :: 0 <= k < |Targets(IntendedRescalePlan(spec, cur, target))| ==>
      1 <= Targets(IntendedRescalePlan(spec, cur, target))[k]
  {
    var delta := (if target >= 0 then target else cur) - cur;
    RescaleFrame(spec, cur, target, delta);
    ResizeEffect(spec, cur, delta);
    ResizeTargetsPositive(spec, cur, delta);
  }

  // ---- RescheduleSpec ----

  function UpgradePlan(spec: PodGroupSpec, oldPod: PodSpec): seq<PgOp> {
    [LogOperation("Start to reschedule spec"), SaveStore(true), SnapshotEagleView(spec.name)]
    + Ascending(UpgradeEach(spec.version, oldPod, spec.pod), spec.numInstances)
    + [SnapshotGroup(true), SnapshotPrevState, SaveStore(true), LogOperation("Reschedule spec finished")]
  }

  /** One UpgradeInstance(k, Version, oldPod, newPod) per instance k = 1..N ascending, framed by
      bookkeeping. */
  lemma UpgradePlanShape(spec: PodGroupSpec, oldPod: PodSpec, len: int)
    ensures var p, n := UpgradePlan(spec, oldPod), spec.numInstances;
      && |p| == n + 7
      && (forall k :: 3 <= k < n + 3 ==> p[k] == UpgradeInstance(k - 2, spec.version, oldPod, spec.pod))
      && Targets(p) == CountUp(0, n)
      && CtrlLen(len, p) == len
  {
    FramedSweep([LogOperation("Start to reschedule spec"), SaveStore(true), SnapshotEagleView(spec.name)],
      UpgradeEach(spec.version, oldPod, spec.pod), spec.numInstances,
      [SnapshotGroup(true), SnapshotPrevState, SaveStore(true), LogOperation("Reschedule spec finished")], len);
  }

  // ---- RescheduleDrift ----

  function DriftTail(): seq<PgOp> {
    [SnapshotGroup(false), SnapshotPrevState, SaveStore(false), LogOperation("Reschedule drift finished")]
  }

  function DriftPlan(spec: PodGroupSpec, fromNode: string, toNode: string, instanceNo: int, force: bool): seq<PgOp> {
    [LogOperation("Start to reschedule drift from " + fromNode)]
    + (if instanceNo == -1 then Ascending(DriftEach(fromNode, toNode, force), spec.numInstances)
       else [DriftInstance(instanceNo, fromNode, toNode, force)])
    + DriftTail()
  }

  /** instanceNo -1 drifts every instance 1..N in ascending order, between the start log and the tail. */
  lemma DriftAllLayout(spec: PodGroupSpec, fromNode: string, toNode: string, force: bool)
    ensures var p := DriftPlan(spec, fromNode, toNode, -1, force);
      && |p| == spec.numInstances + 5
      && (forall k :: 1 <= k <= spec.numInstances ==> p[k] == DriftInstance(k, fromNode, toNode, force))
      && p[|p| - 4..] == DriftTail()
  {
    FramedSweepLayout([LogOperation("Start to reschedule drift from " + fromNode)],
      DriftEach(fromNode, toNode, force), spec.numInstances, DriftTail());
  }

  /** Drifting every instance touches exactly instances 1..N and leaves the controller list alone. */
  lemma DriftAllEffect(spec: PodGroupSpec, fromNode: string, toNode: string, force: bool, len: int)
    ensures Targets(DriftPlan(spec, fromNode, toNode, -1, force)) == CountUp(0, spec.numInstances)
    ensures CtrlLen(len, DriftPlan(spec, fromNode, toNode, -1, force)) == len
  {
    FramedSweepEffect([LogOperation("Start to reschedule drift from " + fromNode)],
      DriftEach(fromNode, toNode, force), spec.numInstances, DriftTail(), len);
  }

  /** Any other instance number drifts exactly that instance. */
  lemma DriftOneShape(spec: PodGroupSpec, fromNode: string, toNode: string, instanceNo: int, force: bool, len: int)
    requires instanceNo != -1
    ensures var p := DriftPlan(spec, fromNode, toNode, instanceNo, force);
      && |p| == 6
      && p[1] == DriftInstance(instanceNo, fromNode, toNode, force)
      && p[|p| - 4..] == DriftTail()
      && Targets(p) == [instanceNo]
      && CtrlLen(len, p) == len
  {
    var pre, one := [LogOperation("Start to reschedule drift from " + fromNode)],
      [DriftInstance(instanceNo, fromNode, toNode, force)];
    Framed(pre, one, DriftTail(), len);
    assert one[..0] == [];
    assert (pre + one + DriftTail())[2..] == DriftTail();
  }

  /** instanceNo -1 drifts every instance 1..N in ascending order, any other number drifts just that
      instance; the group snapshot and the store save are never forced. */
  lemma DriftPlanShape(spec: PodGroupSpec, fromNode: string, toNode: string, instanceNo: int, force: bool, len: int)
    ensures var p := DriftPlan(spec, fromNode, toNode, instanceNo, force);
      && (instanceNo == -1 ==> Targets(p) == CountUp(0, spec.numInstances) && |p| == spec.numInstances + 5)
      && (instanceNo != -1 ==> Targets(p) == [instanceNo] && |p| == 6)
      && p[|p| - 4..] == DriftTail()
      && CtrlLen(len, p) == len
  {
    if instanceNo == -1 {
      DriftAllLayout(spec, fromNode, toNode, force);
      DriftAllEffect(spec, fromNode, toNode, force, len);
    } else {
      DriftOneShape(spec, fromNode, toNode, instanceNo, force, len);
    }
  }

  // ---- Remove ----

  function RemovePlan(spec: PodGroupSpec): seq<PgOp> {
    [LogOperation("Start to remove"), RemoveStore]
    + Ascending(RemoveEach(spec.pod), spec.numInstances)
    + [LogOperation("Remove finished"), SnapshotEagleView(spec.name), Purge]
  }

  /** Remove drops the stored group first, then removes instances 1..N ascending, then logs and
      snapshots the eagle view, and ends with Purge. */
  lemma RemovePlanShape(spec: PodGroupSpec, len: int)
    ensures var p, n := RemovePlan(spec), spec.numInstances;
      && |p| == n + 5
      && p[..2] == [LogOperation("Start to remove"), RemoveStore]
      && (forall k :: 2 <= k < n + 2 ==> p[k] == RemoveInstance(k - 1, spec.pod))
      && p[n + 2..] == [LogOperation("Remove finished"), SnapshotEagleView(spec.name), Purge]
      && p[|p| - 1] == Purge
      && Targets(p) == CountUp(0, n)
      && CtrlLen(len, p) == len
  {
    FramedSweep([LogOperation("Start to remove"), RemoveStore], RemoveEach(spec.pod), spec.numInstances,
      [LogOperation("Remove finished"), SnapshotEagleView(spec.name), Purge], len);
  }

  // ---- Refresh ----

  function RefreshPlan(spec: PodGroupSpec, force: bool): seq<PgOp> {
    [LogOperation("Start to refresh PodGroup"), SnapshotEagleView(spec.name)]
    + Ascending(RefreshEach(spec), spec.numInstances)
    + [VerifyInstanceCount(spec), SnapshotGroup(force), SnapshotPrevState, SaveStore(false),
       LogOperation("PodGroup refreshing finished")]
  }

  /** Refresh logs and snapshots the eagle view, re-verifies instances 1..N ascending, then verifies
      the instance count once and runs the fixed tail. */
  lemma RefreshPlanShape(spec: PodGroupSpec, force: bool, len: int)
    ensures var p, n := RefreshPlan(spec, force), spec.numInstances;
      && |p| == n + 7
      && p[..2] == [LogOperation("Start to refresh PodGroup"), SnapshotEagleView(spec.name)]
      && (forall k :: 2 <= k < n + 2 ==> p[k] == RefreshInstance(k - 1, spec))
      && p[n + 2] == VerifyInstanceCount(spec)
      && p[n + 2..] == [VerifyInstanceCount(spec), SnapshotGroup(force), SnapshotPrevState, SaveStore(false),
                        LogOperation("PodGroup refreshing finished")]
      && Targets(p) == CountUp(0, n)
      && CtrlLen(len, p) == len
  {
    var post := [VerifyInstanceCount(spec), SnapshotGroup(force), SnapshotPrevState, SaveStore(false),
       LogOperation("PodGroup refreshing finished")];
    FramedSweep([LogOperation("Start to refresh PodGroup"), SnapshotEagleView(spec.name)],
      RefreshEach(spec), spec.numInstances, post, len);
  }
}
