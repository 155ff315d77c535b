/** The pod-group controller: its state (spec, group record, pod controllers, operation queue) and
    the intents that guard on that state, install a new spec and enqueue operation sequences. */
module PodGroupCtrl {
  import opened Common
  import opened EngineTypes
  import opened PgOperations
  import opened PortDiff

  // ---- building the pod controllers ----

  /** The pod a slot holds before any loaded pod is overlaid: numbered, Pending, otherwise zero. */
  function PendingPod(instanceNo: int): Pod {
    Pod(instanceNo, "", HealthNone, Pending, 0)
  }

  /** The template slot i (0-based) runs with: the group's template carrying the i-th stored previous
      state, or a fresh one-address previous state when none was stored. */
  function SlotSpec(pod: PodSpec, states: seq<PodPrevState>, i: nat): PodSpec {
    pod.(prevState := if i < |states| then states[i] else NewPodPrevState(1))
  }

  /** The last of the loaded pods numbered `no`, if any. */
  function LastLoaded(pods: seq<Pod>, no: int): (r: Option<Pod>)
    ensures r.Some? ==> r.value in pods && r.value.instanceNo == no
    ensures r.None? <==> forall k :: 0 <= k < |pods| ==> pods[k].instanceNo != no
  {
    if pods == [] then None
    else if pods[|pods| - 1].instanceNo == no then Some(pods[|pods| - 1])
    else LastLoaded(pods[..|pods| - 1], no)
  }

  /** The pod LastLoaded finds is the last one numbered `no`: it sits at index k and no later pod
      carries that number. */
  lemma {:induction false} LastLoadedIsLast(pods: seq<Pod>, no: int) returns (k: nat)
    requires LastLoaded(pods, no).Some?
    ensures k < |pods| && pods[k] == LastLoaded(pods, no).value
    ensures forall j :: k < j < |pods| ==> pods[j].instanceNo != no
  {
    var init := pods[..|pods| - 1];
    if pods[|pods| - 1].instanceNo == no {
      k := |pods| - 1;
    } else {
      k := LastLoadedIsLast(init, no);
      assert pods[k] == init[k];
      forall j | k < j < |pods| ensures pods[j].instanceNo != no {
        if j < |pods| - 1 {
          assert pods[j] == init[j];
        }
      }
    }
  }

  function SlotPod(pods: seq<Pod>, no: int): Pod {
    match LastLoaded(pods, no)
    case Some(p) => p
    case None => PendingPod(no)
  }

  /** The slot-filling loops of newPodGroupController: N slots numbered 1..N, each Pending with its
      template, then every loaded pod numbered within 1..N overlaid on its slot (a later one wins);
      loaded pods numbered outside 1..N are ignored. */
  method BuildPodCtrls(spec: PodGroupSpec, states: seq<PodPrevState>, pods: seq<Pod>) returns (ctrls: seq<PodCtrl>)
    ensures |ctrls| == spec.numInstances
    ensures forall i :: 0 <= i < |ctrls| ==> ctrls[i].pod.instanceNo == i + 1
    ensures forall i :: 0 <= i < |ctrls| ==> ctrls[i].spec == SlotSpec(spec.pod, states, i)
    ensures forall i :: 0 <= i < |ctrls| ==> ctrls[i].pod == SlotPod(pods, i + 1)
    ensures forall i :: 0 <= i < |ctrls| ==> ctrls[i].pod == PendingPod(i + 1) || ctrls[i].pod in pods
  {
    var n := spec.numInstances;
    var slots := new PodCtrl[n];
    for i := 0 to n
      invariant forall k :: 0 <= k < i ==> slots[k] == PodCtrl(SlotSpec(spec.pod, states, k), PendingPod(k + 1))
    {
      slots[i] := PodCtrl(SlotSpec(spec.pod, states, i), PendingPod(i + 1));
    }
    for j := 0 to |pods|
      invariant forall k :: 0 <= k < n ==> slots[k] == PodCtrl(SlotSpec(spec.pod, states, k), SlotPod(pods[..j], k + 1))
    {
      var pod := pods[j];
      assert pods[..j + 1][..j] == pods[..j];
      if pod.instanceNo < 1 || pod.instanceNo > n {
        continue;
      }
      slots[pod.instanceNo - 1] := slots[pod.instanceNo - 1].(pod := pod);
    }
    assert pods[..|pods|] == pods;
    ctrls := slots[..];
  }

  // ---- health ----

  /** Index of the first controller whose pod has no address, or the count when all have one. */
  function FirstWithoutIp(ctrls: seq<PodCtrl>): (r: nat)
    ensures r <= |ctrls|
    ensures forall k :: 0 <= k < r ==> ctrls[k].pod.ip != ""
    ensures r < |ctrls| ==> ctrls[r].pod.ip == ""
  {
    if ctrls == [] then 0
    else if ctrls[0].pod.ip == "" then 0
    else 1 + FirstWithoutIp(ctrls[1..])
  }

  // ---- ports ----

  /** Rendering of the conflicting entries in the error message. */
  function ShowProcs(procs: seq<StreamProc>): string {
    if procs == [] then "" else ShowProcs(procs[..|procs| - 1]) + " " + IntToString(procs[|procs| - 1].port.srcPort)
  }

  function ConflictMessage(name: string, existing: seq<StreamProc>): (msg: string)
    ensures |msg| > 0
  {
    "Cannot start podgroup " + name + ", some ports like [" + ShowProcs(existing) + "] were alerady in used!"
  }

  /** The registry entries of the group's declared ports, or None when the annotation does not decode. */
  function PortsOf(env: Env, spec: PodGroupSpec): Option<seq<StreamProc>> {
    match env.decodePorts(spec.pod.annotation)
    case Some(ports) => Some(Procs(ports, spec.namespace, spec.name))
    case None => None
  }

  datatype PortPlan = PortsMalformed | PortsUnchanged | PortsDiff(freshProcs: seq<StreamProc>, datedProcs: seq<StreamProc>, updatedProcs: seq<StreamProc>)

  /** What updatePodPorts has to do to move the group from `spec`'s template to `podSpec`. */
  function PlanPortUpdate(env: Env, spec: PodGroupSpec, podSpec: PodSpec): PortPlan {
    if env.podSpecEquals(spec.pod, podSpec) then PortsUnchanged
    else
      match (env.decodePorts(spec.pod.annotation), env.decodePorts(podSpec.annotation))
      case (Some(olds), Some(news)) =>
        if olds == news then PortsUnchanged
        else PortsDiff(Procs(FreshPorts(olds, news), spec.namespace, spec.name),
                       Procs(DatedPorts(olds, news), spec.namespace, spec.name),
                       Procs(UpdatedPorts(olds, news), spec.namespace, spec.name))
      case _ => PortsMalformed
  }

  /** When both templates decode to different port lists, the plan is their diff. */
  lemma PlanIsDiff(env: Env, spec: PodGroupSpec, podSpec: PodSpec, olds: seq<StreamPort>, news: seq<StreamPort>)
    requires !env.podSpecEquals(spec.pod, podSpec)
    requires env.decodePorts(spec.pod.annotation) == Some(olds) && env.decodePorts(podSpec.annotation) == Some(news)
    requires olds != news
    ensures PlanPortUpdate(env, spec, podSpec) ==
      PortsDiff(Procs(FreshPorts(olds, news), spec.namespace, spec.name),
                Procs(DatedPorts(olds, news), spec.namespace, spec.name),
                Procs(UpdatedPorts(olds, news), spec.namespace, spec.name))
  {
  }

  function PortUpdateSucceeds(env: Env, spec: PodGroupSpec, podSpec: PodSpec): bool {
    match PlanPortUpdate(env, spec, podSpec)
    case PortsMalformed => false
    case PortsUnchanged => true
    case PortsDiff(freshProcs, _, _) => env.registerPorts(freshProcs).Registered?
  }

  // ---- the controller ----

  class PodGroupController {
    var spec: PodGroupSpec
    var prevState: seq<PodPrevState>
    var group: PodGroup
    var podCtrls: seq<PodCtrl>
    /** The operation queue: intents append, the worker (not modelled) drains. */
    var ops: seq<PgOp>
    /** Calls made on the port registry. */
    ghost var portCalls: seq<PortCall>

    /** newPodGroupController. */
    constructor (spec: PodGroupSpec, states: seq<PodPrevState>, pg: PodGroup)
      ensures this.spec == spec && group == pg && prevState == [] && ops == [] && portCalls == []
      ensures |podCtrls| == spec.numInstances
      ensures forall i :: 0 <= i < |podCtrls| ==>
        podCtrls[i].pod.instanceNo == i + 1 &&
        podCtrls[i].spec == SlotSpec(spec.pod, states, i) &&
        podCtrls[i].pod == SlotPod(pg.pods, i + 1)
    {
      var ctrls := BuildPodCtrls(spec, states, pg.pods);
      this.spec := spec;
      prevState := [];
      group := pg;
      podCtrls := ctrls;
      ops := [];
      portCalls := [];
    }

    /** Whether the stored group has been removed. */
    predicate IsRemoved(): (r: bool)
      reads this
      ensures r <==> group.state == Removed
    {
      group.state == Removed
    }

    /** Whether the stored group is still pending; a pending group is never also removed. */
    predicate IsPending(): (r: bool)
      reads this
      ensures r <==> group.state == Pending
      ensures r ==> !IsRemoved()
    {
      group.state == Pending
    }

    /** Scan the pod controllers: healthy iff every pod has an address; the scan stops at the first
        pod without one and raises the "pod IP lost" notice only if that pod's state is Success. */
    method IsHealthy(now: int) returns (healthy: bool, notice: Option<NotifySpec>)
      ensures healthy <==> forall k :: 0 <= k < |podCtrls| ==> podCtrls[k].pod.ip != ""
      ensures healthy ==> notice == None
      ensures !healthy ==>
        var c := podCtrls[FirstWithoutIp(podCtrls)];
        notice == (if c.pod.state == Success
                   then Some(NotifySpec(c.spec.namespace, c.spec.name, c.pod.instanceNo, now, NotifyPodIPLost))
                   else None)
    {
      notice := None;
      for i := 0 to |podCtrls|
        invariant forall k :: 0 <= k < i ==> podCtrls[k].pod.ip != ""
      {
        var pc := podCtrls[i];
        if pc.pod.ip == "" {
          if pc.pod.state == Success {
            notice := Some(NotifySpec(pc.spec.namespace, pc.spec.name, pc.pod.instanceNo, now, NotifyPodIPLost));
          }
          assert FirstWithoutIp(podCtrls) == i;
          return false, notice;
        }
      }
      return true, notice;
    }

    /** The indices waitLastPodStarted reads exist for every instance of the current spec. */
    predicate PacingInRange()
      reads this
    {
      spec.numInstances <= 1 || spec.numInstances <= |podCtrls|
    }

    /** Pacing before instance i (0-based) with the pods' health frozen as it is now: seconds slept.
        Nothing for the first instance; the template's setup time when this slot never reported
        health; otherwise up to five 10-second polls while the previous instance is starting. */
    method WaitLastPodStarted(i: nat, podSpec: PodSpec) returns (slept: nat)
      requires i == 0 || i < |podCtrls|
      ensures i == 0 ==> slept == 0
      ensures i > 0 && podCtrls[i].pod.healthst == HealthNone ==> slept == podSpec.setupTime
      ensures i > 0 && podCtrls[i].pod.healthst != HealthNone ==>
        slept == (if podCtrls[i - 1].pod.healthst == HealthStarting then 50 else 0)
    {
      slept := 0;
      var retries := 5;
      if i > 0 {
        if podCtrls[i].pod.healthst == HealthNone {
          slept := podSpec.setupTime;
        } else {
          var retryTimes := 0;
          while true
            invariant 0 <= retryTimes <= retries
            invariant slept == (if podCtrls[i - 1].pod.healthst == HealthStarting then 10 * retryTimes else 0)
            decreases retries - retryTimes
          {
            if retryTimes == retries {
              break;
            }
            retryTimes := retryTimes + 1;
            if podCtrls[i - 1].pod.healthst != HealthStarting {
              break;
            }
            slept := slept + 10;
          }
        }
      }
    }

    /** checkPodPorts: register the declared ports; a conflict marks the group Fail with a message. */
    method CheckPodPorts(env: Env) returns (ok: bool)
      modifies this`group, this`portCalls
      ensures PortsOf(env, spec) == None ==> !ok && group == old(group) && portCalls == old(portCalls)
      ensures PortsOf(env, spec).Some? ==>
        var procs := PortsOf(env, spec).value;
        && portCalls == old(portCalls) + [Register(procs)]
        && (ok <==> env.registerPorts(procs).Registered?)
        && (ok ==> group == old(group))
        && (!ok ==> group == old(group).(state := Fail,
                                         lastError := ConflictMessage(spec.name, env.registerPorts(procs).existing)))
    {
      var s := spec;
      var decoded := env.decodePorts(s.pod.annotation);
      if decoded.None? {
        return false;
      }
      var stProc := Procs(decoded.value, spec.namespace, spec.name);
      var reply := env.registerPorts(stProc);
      portCalls := portCalls + [Register(stProc)];
      if reply.Registered? {
        return true;
      } else {
        group := group.(state := Fail, lastError := ConflictMessage(spec.name, reply.existing));
        return false;
      }
    }

    /** cancelPodPorts: release every declared port; nothing when the annotation does not decode. */
    method CancelPodPorts(env: Env)
      modifies this`portCalls
      ensures portCalls == old(portCalls) + (if PortsOf(env, spec).Some? then [Cancel(PortsOf(env, spec).value)] else [])
    {
      var decoded := env.decodePorts(spec.pod.annotation);
      if decoded.None? {
        return;
      }
      portCalls := portCalls + [Cancel(Procs(decoded.value, spec.namespace, spec.name))];
    }

    /** updatePodPorts: register the fresh ports first; only when that succeeds update the updated
        bucket and cancel the dated one; on a conflict mark the group Fail. */
    method UpdatePodPorts(env: Env, podSpec: PodSpec) returns (ok: bool)
      modifies this`group, this`portCalls
      ensures ok == PortUpdateSucceeds(env, spec, podSpec)
      ensures match PlanPortUpdate(env, spec, podSpec)
        case PortsMalformed => group == old(group) && portCalls == old(portCalls)
        case PortsUnchanged => group == old(group) && portCalls == old(portCalls)
        case PortsDiff(freshProcs, datedProcs, updatedProcs) =>
          if env.registerPorts(freshProcs).Registered? then
            group == old(group) && portCalls == old(portCalls) + [Register(freshProcs), Update(updatedProcs), Cancel(datedProcs)]
          else
            group == old(group).(state := Fail, lastError := ConflictMessage(spec.name, env.registerPorts(freshProcs).existing))
            && portCalls == old(portCalls) + [Register(freshProcs)]
    {
      var s := spec;
      if env.podSpecEquals(s.pod, podSpec) {
        return true;
      }
      var oldsps := env.decodePorts(s.pod.annotation);
      if oldsps.None? {
        return false;
      }
      var sps := env.decodePorts(podSpec.annotation);
      if sps.None? {
        return false;
      }
      if oldsps.value != sps.value {
        var freshArr, datedArr, updateArr := DiffPorts(oldsps.value, sps.value, s.namespace, s.name);
        PlanIsDiff(env, s, podSpec, oldsps.value, sps.value);
        ok := RegisterDiff(env, freshArr, datedArr, updateArr);
        return;
      }
      return true;
    }

    /** The ports part of updatePodPorts once the diff is known: register the fresh ports; on
        success update and cancel, on a conflict fail the group with the conflict message. */
    method RegisterDiff(env: Env, freshArr: seq<StreamProc>, datedArr: seq<StreamProc>, updateArr: seq<StreamProc>)
      returns (ok: bool)
      modifies this`group, this`portCalls
      ensures ok == env.registerPorts(freshArr).Registered?
      ensures ok ==> group == old(group) && portCalls == old(portCalls) + [Register(freshArr), Update(updateArr), Cancel(datedArr)]
      ensures !ok ==>
        && group == old(group).(state := Fail, lastError := ConflictMessage(spec.name, env.registerPorts(freshArr).existing))
        && portCalls == old(portCalls) + [Register(freshArr)]
    {
      var reply := env.registerPorts(freshArr);
      portCalls := portCalls + [Register(freshArr)];
      if reply.Registered? {
        portCalls := portCalls + [Update(updateArr)];
        portCalls := portCalls + [Cancel(datedArr)];
        return true;
      } else {
        group := group.(state := Fail, lastError := ConflictMessage(spec.name, reply.existing));
        return false;
      }
    }

    /** Deploy: clear the last error, register ports, and on success enqueue the deploy plan. */
    method Deploy(env: Env)
      modifies this`group, this`portCalls, this`ops
      ensures PortsOf(env, spec) == None ==>
        group == old(group).(lastError := "") && ops == old(ops) && portCalls == old(portCalls)
      ensures PortsOf(env, spec).Some? ==>
        var procs := PortsOf(env, spec).value;
        && portCalls == old(portCalls) + [Register(procs)]
        && match env.registerPorts(procs)
           case Registered =>
             group == old(group).(lastError := "") && ops == old(ops) + DeployPlan(spec)
           case Conflict(existing) =>
             group == old(group).(state := Fail, lastError := ConflictMessage(spec.name, existing)) && ops == old(ops)
    {
      var s := spec;
      group := group.(lastError := "");
      var ok := CheckPodPorts(env);
      if !ok {
        return;
      }
      ops := ops + [LogOperation("Start to deploy"), SaveStore(true), SnapshotEagleView(s.name)];
      ghost var head := ops;
      var i := 0;
      while i < s.numInstances
        invariant 0 <= i <= s.numInstances
        invariant ops == head + Ascending(DeployEach(s.version), i)
        modifies this`ops
      {
        ops := ops + [DeployInstance(i + 1, s.version)];
        i := i + 1;
      }
      ops := ops + [SnapshotGroup(true), SnapshotPrevState, SaveStore(true), LogOperation("deploy finished")];
    }

    /** RescheduleInstance(numInstances, restartPolicy...): nothing unless the count (when not
        negative) or the policy (when given) differs; otherwise install the new spec and enqueue the
        rescale plan, whose size change is computed from the raw `numInstances`. */
    method RescheduleInstance(numInstances: int, restartPolicy: seq<RestartPolicy>)
      modifies this`spec, this`ops
      ensures !RescaleChanges(old(spec), numInstances, restartPolicy) ==> spec == old(spec) && ops == old(ops)
      ensures RescaleChanges(old(spec), numInstances, restartPolicy) ==>
        && spec == old(spec).(numInstances := if numInstances >= 0 then numInstances else old(spec).numInstances,
                              restartPolicy := if |restartPolicy| > 0 then restartPolicy[0] else old(spec).restartPolicy)
        && ops == old(ops) + RescalePlan(spec, old(spec).numInstances, numInstances)
    {
      var s := spec;
      var isDirty := false;
      var curNumInstances := s.numInstances;
      if numInstances >= 0 && curNumInstances != numInstances {
        s := s.(numInstances := numInstances);
        isDirty := true;
      }
      if |restartPolicy| > 0 && spec.restartPolicy != restartPolicy[0] {
        s := s.(restartPolicy := restartPolicy[0]);
        isDirty := true;
      }
      if !isDirty {
        return;
      }
      spec := s;
      EnqueueRescale(s, curNumInstances, numInstances);
    }

    /** The enqueuing part of RescheduleInstance once `s` is installed: the start log and store
        save, the resize for the raw change `numInstances - cur`, and the closing log. */
    method EnqueueRescale(s: PodGroupSpec, cur: nat, numInstances: int)
      modifies this`ops
      ensures ops == old(ops) + RescalePlan(s, cur, numInstances)
    {
      ghost var before := ops;
      var head := [LogOperation(RescaleLog(cur, numInstances)), SaveStore(true)];
      var tail := [LogOperation("Reschedule instance number finished")];
      ops := ops + head;
      EnqueueResize(s, cur, numInstances - cur);
      ops := ops + tail;
      AppendAssoc(before, head, Resize(s, cur, numInstances - cur), tail);
    }

    /** The middle of RescheduleInstance: for a change `delta` from `cur` instances, push and deploy
        the new instances in ascending order, or remove and pop the surplus from the top down. */
    method EnqueueResize(s: PodGroupSpec, cur: nat, delta: int)
      modifies this`ops
      ensures ops == old(ops) + Resize(s, cur, delta)
    {
      if delta == 0 {
        return;
      }
      ops := ops + [SnapshotEagleView(s.name)];
      ghost var mid := ops;
      if delta > 0 {
        var i := 0;
        while i < delta
          invariant 0 <= i <= delta
          invariant ops == mid + Grow(s.pod, s.version, cur, i)
        {
          var instanceNo := i + 1 + cur;
          ops := ops + [PushPodCtrl(s.pod), DeployInstance(instanceNo, s.version)];
          i := i + 1;
        }
      } else {
        var count := -delta;
        var i := 0;
        while i < count
          invariant 0 <= i <= count
          invariant ops == mid + Shrink(s.pod, cur, i)
        {
          ops := ops + [RemoveInstance(cur - i, s.pod), PopPodCtrl];
          i := i + 1;
        }
      }
      ops := ops + [SnapshotGroup(true), SnapshotPrevState, SaveStore(true)];
    }

    /** RescheduleSpec: nothing for an equal template; otherwise clear the last error and update
        the ports; on success install the merged template with the next version and enqueue one
        upgrade per instance, pacing before each. */
    method RescheduleSpec(env: Env, podSpec: PodSpec, now: int)
      requires !env.podSpecEquals(spec.pod, podSpec) && PortUpdateSucceeds(env, spec, podSpec) ==> PacingInRange()
      modifies this`spec, this`group, this`portCalls, this`ops
      ensures env.podSpecEquals(old(spec).pod, podSpec) ==>
        spec == old(spec) && group == old(group) && portCalls == old(portCalls) && ops == old(ops)
      ensures !env.podSpecEquals(old(spec).pod, podSpec) ==>
        var plan := PlanPortUpdate(env, old(spec), podSpec);
        && (plan.PortsMalformed? ==> group == old(group).(lastError := "") && portCalls == old(portCalls))
        && (plan.PortsUnchanged? ==> group == old(group).(lastError := "") && portCalls == old(portCalls))
        && (plan.PortsDiff? && env.registerPorts(plan.freshProcs).Registered? ==>
              group == old(group).(lastError := "") &&
              portCalls == old(portCalls) + [Register(plan.freshProcs), Update(plan.updatedProcs), Cancel(plan.datedProcs)])
        && (plan.PortsDiff? && env.registerPorts(plan.freshProcs).Conflict? ==>
              group == old(group).(state := Fail,
                                   lastError := ConflictMessage(old(spec).name, env.registerPorts(plan.freshProcs).existing)) &&
              portCalls == old(portCalls) + [Register(plan.freshProcs)])
      ensures !env.podSpecEquals(old(spec).pod, podSpec) && !PortUpdateSucceeds(env, old(spec), podSpec) ==>
        spec == old(spec) && ops == old(ops)
      ensures !env.podSpecEquals(old(spec).pod, podSpec) && PortUpdateSucceeds(env, old(spec), podSpec) ==>
        && spec == old(spec).(pod := env.merge(old(spec).pod, podSpec), version := old(spec).version + 1, updatedAt := now)
        && ops == old(ops) + UpgradePlan(spec, old(spec).pod)
    {
      var s := spec;
      if env.podSpecEquals(s.pod, podSpec) {
        return;
      }
      group := group.(lastError := "");
      var ok := UpdatePodPorts(env, podSpec);
      if !ok {
        return;
      }
      var oldPodSpec := s.pod;
      s := s.(pod := env.merge(s.pod, podSpec), version := s.version + 1, updatedAt := now);
      spec := s;
      EnqueueUpgrades(s, oldPodSpec, podSpec);
    }

    /** The enqueuing part of RescheduleSpec once `s` is installed: the frame operations and one
        upgrade per instance 1..N, pacing before each. */
    method EnqueueUpgrades(s: PodGroupSpec, oldPodSpec: PodSpec, podSpec: PodSpec)
      requires s.numInstances <= 1 || s.numInstances <= |podCtrls|
      modifies this`ops
      ensures ops == old(ops) + UpgradePlan(s, oldPodSpec)
    {
      ops := ops + [LogOperation("Start to reschedule spec"), SaveStore(true), SnapshotEagleView(s.name)];
      ghost var head := ops;
      var i := 0;
      while i < s.numInstances
        invariant 0 <= i <= s.numInstances
        invariant ops == head + Ascending(UpgradeEach(s.version, oldPodSpec, s.pod), i)
      {
        var _ := WaitLastPodStarted(i, podSpec);
        ops := ops + [UpgradeInstance(i + 1, s.version, oldPodSpec, s.pod)];
        i := i + 1;
      }
      ops := ops + [SnapshotGroup(true), SnapshotPrevState, SaveStore(true), LogOperation("Reschedule spec finished")];
    }

    /** RescheduleDrift: nothing for an empty group; otherwise drift every instance (instanceNo -1,
        pacing before each) or just the named one. */
    method RescheduleDrift(fromNode: string, toNode: string, instanceNo: int, force: bool)
      requires instanceNo == -1 ==> PacingInRange()
      modifies this`ops
      ensures spec.numInstances == 0 ==> ops == old(ops)
      ensures spec.numInstances > 0 ==> ops == old(ops) + DriftPlan(spec, fromNode, toNode, instanceNo, force)
    {
      var s := spec;
      if s.numInstances == 0 {
        return;
      }
      ops := ops + [LogOperation("Start to reschedule drift from " + fromNode)];
      ghost var head := ops;
      if instanceNo == -1 {
        var i := 0;
        while i < s.numInstances
          invariant 0 <= i <= s.numInstances
          invariant ops == head + Ascending(DriftEach(fromNode, toNode, force), i)
          modifies this`ops
        {
          var _ := WaitLastPodStarted(i, s.pod);
          ops := ops + [DriftInstance(i + 1, fromNode, toNode, force)];
          i := i + 1;
        }
      } else {
        ops := ops + [DriftInstance(instanceNo, fromNode, toNode, force)];
      }
      ops := ops + [SnapshotGroup(false), SnapshotPrevState, SaveStore(false), LogOperation("Reschedule drift finished")];
    }

    /** Remove: cancel the declared ports, then enqueue the remove plan. */
    method Remove(env: Env)
      modifies this`portCalls, this`ops
      ensures portCalls == old(portCalls) + (if PortsOf(env, spec).Some? then [Cancel(PortsOf(env, spec).value)] else [])
      ensures ops == old(ops) + RemovePlan(spec)
    {
      var s := spec;
      CancelPodPorts(env);
      ops := ops + [LogOperation("Start to remove"), RemoveStore];
      ghost var head := ops;
      var i := 0;
      while i < s.numInstances
        invariant 0 <= i <= s.numInstances
        invariant ops == head + Ascending(RemoveEach(s.pod), i)
        modifies this`ops
      {
        ops := ops + [RemoveInstance(i + 1, s.pod)];
        i := i + 1;
      }
      ops := ops + [LogOperation("Remove finished"), SnapshotEagleView(s.name), Purge];
    }

    /** Refresh: nothing for a Removed or Pending group; otherwise enqueue the refresh plan. */
    method Refresh(force: bool)
      modifies this`ops
      ensures IsRemoved() || IsPending() ==> ops == old(ops)
      ensures !IsRemoved() && !IsPending() ==> ops == old(ops) + RefreshPlan(spec, force)
    {
      if IsRemoved() || IsPending() {
        return;
      }
      var s := spec;
      ops := ops + [LogOperation("Start to refresh PodGroup"), SnapshotEagleView(s.name)];
      ghost var head := ops;
      var i := 0;
      while i < s.numInstances
        invariant 0 <= i <= s.numInstances
        invariant ops == head + Ascending(RefreshEach(s), i)
        modifies this`ops
      {
        ops := ops + [RefreshInstance(i + 1, s)];
        i := i + 1;
      }
      ops := ops + [VerifyInstanceCount(s), SnapshotGroup(force), SnapshotPrevState, SaveStore(false),
                    LogOperation("PodGroup refreshing finished")];
    }

    /** emitChangeEvent: one event per declared dependency, in order; once a node-level dependency
        has been seen every later event carries the node name as namespace. */
    method EmitChangeEvent(changeType: string, podSpec: PodSpec, nodeName: string) returns (events: seq<DependencyEvent>)
      ensures changeType == "" || nodeName == "" ==> events == []
      ensures changeType != "" && nodeName != "" ==>
        && |events| == |podSpec.dependencies|
        && forall k :: 0 <= k < |events| ==>
             events[k] == DependencyEvent(changeType, podSpec.dependencies[k].podName, nodeName,
                                          if NodeLevelUpTo(podSpec.dependencies, k) then nodeName else podSpec.namespace)
    {
      events := [];
      if changeType == "" || nodeName == "" {
        return;
      }
      var namespace := podSpec.namespace;
      for i := 0 to |podSpec.dependencies|
        invariant |events| == i
        invariant namespace == (if i > 0 && NodeLevelUpTo(podSpec.dependencies, i - 1) then nodeName else podSpec.namespace)
        invariant forall k :: 0 <= k < i ==>
          events[k] == DependencyEvent(changeType, podSpec.dependencies[k].podName, nodeName,
                                       if NodeLevelUpTo(podSpec.dependencies, k) then nodeName else podSpec.namespace)
      {
        var dep := podSpec.dependencies[i];
        if dep.policy == NodeLevel {
          namespace := nodeName;
        }
        events := events + [DependencyEvent(changeType, dep.podName, nodeName, namespace)];
      }
    }
  }

  /** Whether the dependencies up to index k include a node-level one, as the loop sees it: the
      namespace switches at a node-level dependency and is never switched back. */
  predicate NodeLevelUpTo(deps: seq<Dependency>, k: nat)
    requires k < |deps|
    decreases k
  {
    deps[k].policy == NodeLevel || (k > 0 && NodeLevelUpTo(deps, k - 1))
  }

  /** The namespace switch is sticky: it holds at k iff some dependency at or before k is
      node-level. */
  lemma {:induction false} NodeLevelUpToSeen(deps: seq<Dependency>, k: nat)
    requires k < |deps|
    ensures NodeLevelUpTo(deps, k) <==> exists j :: 0 <= j <= k && deps[j].policy == NodeLevel
    decreases k
  {
    if k > 0 {
      NodeLevelUpToSeen(deps, k - 1);
    }
  }

  lemma AppendAssoc(a: seq<PgOp>, b: seq<PgOp>, c: seq<PgOp>, d: seq<PgOp>)
    ensures a + b + c + d == a + (b + c + d)
  {
  }

  /** Whether RescheduleInstance has anything to do. */
  predicate RescaleChanges(spec: PodGroupSpec, numInstances: int, restartPolicy: seq<RestartPolicy>) {
    (numInstances >= 0 && numInstances != spec.numInstances) ||
    (|restartPolicy| > 0 && restartPolicy[0] != spec.restartPolicy)
  }
}
