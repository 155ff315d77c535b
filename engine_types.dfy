/** The deployd engine's records as the pod-group controller sees them, and the collaborators it calls
    but that are not part of this model (annotation decoding, pod-spec equality and merge, the port
    registry). */
module EngineTypes {
  import opened Common

  /** Group- and pod-level run state (the values the controller tests or sets). */
  datatype RunState = Pending | Success | Fail | Removed

  /** Health-check state of one pod. */
  datatype HealthState = HealthNone | HealthStarting | HealthHealthy | HealthUnhealthy

  datatype RestartPolicy = RestartPolicyNever | RestartPolicyAlways | RestartPolicyOnFail

  datatype DependencyPolicy = NamespaceLevel | NodeLevel

  datatype Dependency = Dependency(podName: string, policy: DependencyPolicy)

  /** Last known runtime placement of one instance. */
  datatype PodPrevState = PodPrevState(nodeName: string, ips: seq<string>)

  /** NewPodPrevState(n): no node and n empty addresses. */
  function NewPodPrevState(n: nat): (st: PodPrevState)
    ensures st.nodeName == "" && |st.ips| == n
  {
    PodPrevState("", seq(n, _ => ""))
  }

  /** The pod template. `annotation` holds the JSON port declaration; `containers` stands for the
      template fields the controller never inspects. */
  datatype PodSpec = PodSpec(
    namespace: string,
    name: string,
    annotation: string,
    dependencies: seq<Dependency>,
    setupTime: nat,
    prevState: PodPrevState,
    containers: seq<string>)

  datatype PodGroupSpec = PodGroupSpec(
    namespace: string,
    name: string,
    pod: PodSpec,
    numInstances: nat,
    restartPolicy: RestartPolicy,
    version: int,
    updatedAt: int)

  /** Runtime record of one instance; `ip` is what PodIp() reports ("" when none). */
  datatype Pod = Pod(instanceNo: int, ip: string, healthst: HealthState, state: RunState, version: int)

  datatype PodGroup = PodGroup(namespace: string, name: string, state: RunState, lastError: string, pods: seq<Pod>)

  /** A pod controller: the instance's own spec and its runtime record. */
  datatype PodCtrl = PodCtrl(spec: PodSpec, pod: Pod)

  datatype StreamPort = StreamPort(srcPort: int, dstPort: int, proto: string)

  /** A declared port bound to its owner for registry bookkeeping. */
  datatype StreamProc = StreamProc(port: StreamPort, namespace: string, procName: string)

  datatype DependencyEvent = DependencyEvent(eventType: string, name: string, nodeName: string, namespace: string)

  datatype NotifyKind = NotifyPodIPLost

  datatype NotifySpec = NotifySpec(namespace: string, name: string, instanceNo: int, time: int, kind: NotifyKind)

  /** What RegisterPorts answers: success, or the ports already owned by someone else. */
  datatype RegisterReply = Registered | Conflict(existing: seq<StreamProc>)

  /** Calls the controller makes on the port registry, in the order made. */
  datatype PortCall = Register(procs: seq<StreamProc>) | Update(procs: seq<StreamProc>) | Cancel(procs: seq<StreamProc>)

  /** Collaborators outside the model, as functions: json.Unmarshal of a port annotation,
      PodSpec.Equals, PodSpec.Merge, and the registry's answer to RegisterPorts. */
  datatype Env = Env(
    decodePorts: string -> Option<seq<StreamPort>>,
    podSpecEquals: (PodSpec, PodSpec) -> bool,
    merge: (PodSpec, PodSpec) -> PodSpec,
    registerPorts: seq<StreamProc> -> RegisterReply)

  /** The registry entries for `ports` owned by the group (namespace, name). */
  function Procs(ports: seq<StreamPort>, namespace: string, procName: string): (procs: seq<StreamProc>)
    ensures |procs| == |ports|
    ensures forall k :: 0 <= k < |ports| ==> procs[k] == StreamProc(ports[k], namespace, procName)
  {
    if ports == [] then []
    else Procs(ports[..|ports| - 1], namespace, procName) + [StreamProc(ports[|ports| - 1], namespace, procName)]
  }
}
