# Pod-group controller and lain log processors, in Dafny

This project models three pieces of the laincloud beats repository and proves properties of them.

- **The deployd pod-group controller** (`podGroupController`). It holds:
  - a pod group's spec;
  - the stored group record;
  - one pod controller per instance;
  - a queue of operations for a worker.

  Each intent (Deploy, RescheduleInstance, RescheduleSpec, RescheduleDrift, Remove, Refresh) checks the state. It may install a new spec, and it may register, update or cancel the group's stream ports. It then appends a fixed sequence of operations to the queue.
  - The controller is a class. Its fields are reassigned by methods whose loops carry invariants.
  - Each method's `ensures` ties the new queue to a plan function. Examples are `DeployPlan`, `RescalePlan` and `RemovePlan`.
  - Lemmas state what each plan means:
    - where each per-instance operation sits;
    - which instances it touches, in order (`Targets`);
    - the net count of pod controllers pushed and popped (`CtrlLen`); this is the worker's list length if each push and pop changes it by one.
  - The port diff of a template change (fresh, dated and updated ports) is defined by functions. The nested scans that build it are proved against them.
- **The parse_regex_fields processor.** It clones an event and stores every capture group of a match under the group's name. An unnamed group is stored under its decimal index.
- **The tag_lain_fields processor.** It tags an event in place with the lain app, proc and instance of its container. It also builds the short-container-id table from a lainlet watch message.

Modules:
- `Common`: Option and Result, and decimal rendering.
- `EngineTypes`: the engine's records.
- `PgOperations`: the queued operations and the plans.
- `PortDiff`: the port diff.
- `PodGroupCtrl`: the controller class.
- `Events`: the event map class.
- `ParseRegexFields` and `TagLainFields`: the two processors.

Collaborators that are not part of this model become values of the `Env` datatype:
- JSON decoding of the port annotation;
- `PodSpec.Equals` and `PodSpec.Merge`;
- the answer of `RegisterPorts`.

Calls made on the port registry are recorded in the ghost field `portCalls`. `StreamPort.Equals` and `StreamPorts.Equals` are taken as structural equality. Time is passed in as a parameter. The regular-expression engine is a record: the group names plus a first-match function.

The controller follows the code as written, including the behaviours listed under "## Findings". The evidently intended versions are defined beside them and proved.

## Model

| member | source | states |
|---|---|---|
| PodGroupCtrl.BuildPodCtrls | vendor/github.com/laincloud/deployd/engine/podgroup.go:414-438 | There are exactly NumInstances slots. Slot i is numbered i+1 and carries the template with the i-th stored previous state, or a fresh one. Its pod is the last loaded pod with that number, or a Pending pod. Loaded pods numbered outside 1..N never appear. |
| PodGroupCtrl.PodGroupController.constructor | vendor/github.com/laincloud/deployd/engine/podgroup.go:414-452 | The new controller has the given spec and group, an empty queue, and the slots described for BuildPodCtrls. |
| PodGroupCtrl.LastLoaded | vendor/github.com/laincloud/deployd/engine/podgroup.go:432-438 | The overlay finds a loaded pod with the requested number exactly when one exists, and the pod it returns is one of the loaded pods. |
| PodGroupCtrl.LastLoadedIsLast | vendor/github.com/laincloud/deployd/engine/podgroup.go:432-438 | The overlay keeps the last loaded pod with the number: the pod found sits at some index k, and no pod after k carries that number. |
| PodGroupCtrl.PodGroupController.IsHealthy | vendor/github.com/laincloud/deployd/engine/podgroup.go:47-59 | The result is true iff every pod has an address. When it is false, at most one notice is raised: the "pod IP lost" notice for the first pod without an address, and only if that pod's state is Success. |
| PodGroupCtrl.PodGroupController.IsRemoved | vendor/github.com/laincloud/deployd/engine/podgroup.go:61-65 | True iff the stored group's state is Removed. |
| PodGroupCtrl.PodGroupController.IsPending | vendor/github.com/laincloud/deployd/engine/podgroup.go:67-71 | True iff the stored group's state is Pending; a pending group is never reported as removed. |
| PodGroupCtrl.FirstWithoutIp | vendor/github.com/laincloud/deployd/engine/podgroup.go:50-57 | Every pod before the result has an address. The pod at the result, if any, has none. |
| PodGroupCtrl.PodGroupController.WaitLastPodStarted | vendor/github.com/laincloud/deployd/engine/podgroup.go:391-412 | For the first instance nothing is slept. A slot with no health report sleeps the setup time. Otherwise there are at most five 10-second polls, and only while the previous instance is starting. |
| PodGroupCtrl.PodGroupController.CheckPodPorts | vendor/github.com/laincloud/deployd/engine/podgroup.go:289-313 | An undecodable annotation fails with no registry call. Otherwise all declared ports are registered once. Success iff there is no conflict. A conflict sets the group to Fail with a non-empty error naming the group. |
| PodGroupCtrl.PodGroupController.CancelPodPorts | vendor/github.com/laincloud/deployd/engine/podgroup.go:271-287 | All declared ports are cancelled in one call. There is no call when the annotation does not decode. |
| PodGroupCtrl.PodGroupController.UpdatePodPorts | vendor/github.com/laincloud/deployd/engine/podgroup.go:315-389 | An equal template, or equal port lists, succeed with no call. An undecodable annotation fails with no call. Otherwise the fresh bucket is registered first. Update and cancel follow only if that succeeds. On a conflict the group is set to Fail, and nothing is updated or cancelled. The buckets are those of DiffPorts, so the update bucket is the one the code builds, aliasing included. |
| PodGroupCtrl.PodGroupController.RegisterDiff | vendor/github.com/laincloud/deployd/engine/podgroup.go:377-386 | Fresh ports are registered in one call. On success the update bucket and then the dated bucket follow, and the result is true. On a conflict there is no further call; the group is set to Fail with the conflict message, and the result is false. |
| PodGroupCtrl.PodGroupController.Deploy | vendor/github.com/laincloud/deployd/engine/podgroup.go:73-93 | The last error is cleared. If registration fails, the group is set to Fail and nothing is enqueued. On success, exactly DeployPlan(spec) is appended. |
| PodGroupCtrl.PodGroupController.RescheduleInstance | vendor/github.com/laincloud/deployd/engine/podgroup.go:95-140 | With no real change (the count is negative or equal, and the policy is absent or equal), the spec and queue are untouched. Otherwise the new count and policy are installed and RescalePlan from the old count to the raw argument is appended. |
| PodGroupCtrl.PodGroupController.EnqueueRescale | vendor/github.com/laincloud/deployd/engine/podgroup.go:117-139 | Once the spec is installed, exactly RescalePlan for the raw target is appended. |
| PodGroupCtrl.PodGroupController.EnqueueResize | vendor/github.com/laincloud/deployd/engine/podgroup.go:119-137 | The grow loop (push, deploy) or the shrink loop (remove, pop) appends exactly Resize for the signed change. |
| PodGroupCtrl.PodGroupController.RescheduleSpec | vendor/github.com/laincloud/deployd/engine/podgroup.go:142-172 | Callers must provide a pod controller for each instance only when the update will enqueue upgrades. An equal template changes nothing. Otherwise the last error is cleared and the port update runs with the effects stated for UpdatePodPorts. If it fails, the spec and queue are unchanged. If it succeeds, the merged template is installed with Version+1 and the new time, and UpgradePlan is appended. |
| PodGroupCtrl.PodGroupController.EnqueueUpgrades | vendor/github.com/laincloud/deployd/engine/podgroup.go:161-171 | Once the merged spec is installed, exactly UpgradePlan is appended, with one pacing wait before each upgrade. |
| PodGroupCtrl.PodGroupController.RescheduleDrift | vendor/github.com/laincloud/deployd/engine/podgroup.go:174-194 | An empty group enqueues nothing. Otherwise exactly DriftPlan is appended. |
| PodGroupCtrl.PodGroupController.Remove | vendor/github.com/laincloud/deployd/engine/podgroup.go:196-209 | The declared ports are cancelled, then RemovePlan is appended. |
| PodGroupCtrl.PodGroupController.Refresh | vendor/github.com/laincloud/deployd/engine/podgroup.go:211-228 | A Removed or Pending group enqueues nothing. Otherwise RefreshPlan is appended. |
| PodGroupCtrl.PodGroupController.EmitChangeEvent | vendor/github.com/laincloud/deployd/engine/podgroup.go:248-269 | An empty change type or node name emits nothing. Otherwise there is one event per dependency, in order. Once a node-level dependency has been seen, that event and every later one carry the node name as namespace. |
| PodGroupCtrl.NodeLevelUpToSeen | vendor/github.com/laincloud/deployd/engine/podgroup.go:253-257 | The loop's namespace switch holds at dependency k iff some dependency at or before k is node-level; it is never switched back. |
| PodGroupCtrl.ConflictMessage | vendor/github.com/laincloud/deployd/engine/podgroup.go:384 | The error recorded on a port conflict is never empty. |
| EngineTypes.Procs | vendor/github.com/laincloud/deployd/engine/podgroup.go:278-285 | There is one registry entry per declared port, in order, owned by the group's namespace and name. |
| PgOperations.AscendingAt | vendor/github.com/laincloud/deployd/engine/podgroup.go:86-88 | A `for i < N` sweep enqueues one operation per instance 1..N in ascending order, and pushes or pops no controller. |
| PgOperations.BookkeepingIsInert | vendor/github.com/laincloud/deployd/engine/podgroup.go:83-91 | Log, store and snapshot operations touch no instance and leave the controller count alone. |
| PgOperations.FramedSweep | vendor/github.com/laincloud/deployd/engine/podgroup.go:83-91 | A sweep between bookkeeping prefix and suffix keeps both frames intact and places operation k at offset k-1 after the prefix. |
| PgOperations.DeployPlanShape | vendor/github.com/laincloud/deployd/engine/podgroup.go:83-92 | Deploy enqueues N+7 operations: log, SaveStore(true), SnapshotEagleView; then DeployInstance(k, Version) for k = 1..N ascending; then SnapshotGroup(true), SnapshotPrevState, SaveStore(true), log. |
| PgOperations.GrowAt | vendor/github.com/laincloud/deployd/engine/podgroup.go:122-128 | Growing by i gives i (PushPodCtrl, DeployInstance(cur+j+1)) pairs. Instances cur+1.. are touched ascending, and the controller count rises by i. |
| PgOperations.ShrinkAt | vendor/github.com/laincloud/deployd/engine/podgroup.go:129-134 | Shrinking by i gives i (RemoveInstance(cur-j), PopPodCtrl) pairs. Instances cur, cur-1, .. are touched, and the controller count falls by i. |
| PgOperations.ResizeEffect | vendor/github.com/laincloud/deployd/engine/podgroup.go:119-137 | A change delta touches cur+1..cur+delta or cur down to cur+delta+1. A zero change enqueues nothing. The controller count ends at cur+delta. |
| PgOperations.RescalePlanEffect | vendor/github.com/laincloud/deployd/engine/podgroup.go:114-138 | Rescaling from c to a target t >= 0 deploys c+1..t ascending, or removes c down to t+1. The controller count ends at t. |
| PgOperations.RescaleSameCount | vendor/github.com/laincloud/deployd/engine/podgroup.go:117-138 | An unchanged count (a policy-only change) enqueues only the start log, the store save and the closing log. |
| PgOperations.NegativeTargetRemovesAll | vendor/github.com/laincloud/deployd/engine/podgroup.go:119-137 | As written, a target of -1 removes instances cur down to 0 (cur+1 pairs) and so enqueues one more PopPodCtrl than there are controllers: the net controller count ends at -1. |
| PgOperations.IntendedRescaleKeepsCount | vendor/github.com/laincloud/deployd/engine/podgroup.go:102-137 | With the change taken from the installed count, the worker ends with exactly spec.NumInstances controllers and touches only instances >= 1. |
| PgOperations.UpgradePlanShape | vendor/github.com/laincloud/deployd/engine/podgroup.go:160-171 | There are N+7 operations, with UpgradeInstance(k, Version, oldPod, newPod) for k = 1..N ascending between the fixed frames. |
| PgOperations.DriftAllLayout | vendor/github.com/laincloud/deployd/engine/podgroup.go:181-193 | Instance -1 gives N+5 operations, with DriftInstance(k) at position k for k = 1..N, and ends with the tail SnapshotGroup(false), SnapshotPrevState, SaveStore(false), log. |
| PgOperations.DriftAllEffect | vendor/github.com/laincloud/deployd/engine/podgroup.go:182-186 | Instance -1 touches exactly instances 1..N in ascending order and pushes or pops no controller. |
| PgOperations.DriftOneShape | vendor/github.com/laincloud/deployd/engine/podgroup.go:187-193 | Any other instance number gives 6 operations that touch only that instance, with the same unforced tail. |
| PgOperations.DriftPlanShape | vendor/github.com/laincloud/deployd/engine/podgroup.go:181-193 | Instance -1 drifts 1..N ascending (N+5 operations). Any other number drifts exactly that instance (6 operations). SnapshotGroup and SaveStore always use false. |
| PgOperations.RemovePlanShape | vendor/github.com/laincloud/deployd/engine/podgroup.go:200-208 | There are N+5 operations. Log and RemoveStore come first, then RemoveInstance(k) for k = 1..N ascending. The closing log, SnapshotEagleView and Purge follow at positions N+2..N+4. Exactly instances 1..N are touched, and no controller is pushed or popped. |
| PgOperations.RefreshPlanShape | vendor/github.com/laincloud/deployd/engine/podgroup.go:215-227 | There are N+7 operations. Log and SnapshotEagleView come first, then RefreshInstance(k) for k = 1..N ascending. Then come exactly one VerifyInstanceCount, SnapshotGroup(force), SnapshotPrevState, SaveStore(false) and the closing log. Exactly instances 1..N are touched, and no controller is pushed or popped. |
| PortDiff.FirstSameSrc | vendor/github.com/laincloud/deployd/engine/podgroup.go:337-350 | The inner scan stops at an old port with the same source port exactly when one exists. The port it stops at is the first such port: no earlier old port has that source port. |
| PortDiff.FreshPortsMembers | vendor/github.com/laincloud/deployd/engine/podgroup.go:335-358 | A port is fresh iff it is a new port whose source port no old port uses. |
| PortDiff.DatedPortsMembers | vendor/github.com/laincloud/deployd/engine/podgroup.go:360-375 | A port is dated iff it is an old port whose source port no new port uses. |
| PortDiff.UpdatedPortsMembers | vendor/github.com/laincloud/deployd/engine/podgroup.go:335-358 | Everything in the update bucket is a new port that is either fresh or an updated match. |
| PortDiff.IdenticalPortGoesNowhere | vendor/github.com/laincloud/deployd/engine/podgroup.go:338-340 | A new port identical to the old port its scan stops at lands in no bucket. |
| PortDiff.ScanOldFor | vendor/github.com/laincloud/deployd/engine/podgroup.go:336-350 | The inner loop reports "exists" iff some old port has the same source port, and "update" iff the first such port differs. |
| PortDiff.DiffPorts | vendor/github.com/laincloud/deployd/engine/podgroup.go:331-375 | The nested loops build the fresh and dated buckets, and the update bucket as written, as registry entries of the group. The update bucket includes Go's slice aliasing: it shares freshArr's backing array while freshArr has spare capacity. |
| PortDiff.ScanNewPorts | vendor/github.com/laincloud/deployd/engine/podgroup.go:335-358 | The first nested scan yields exactly the fresh bucket and the as-written update bucket. |
| PortDiff.ScanNewPort | vendor/github.com/laincloud/deployd/engine/podgroup.go:336-357 | One new port moves the slices, freshArr's capacity and the sharing flag exactly as one ScanStep does. An updated port makes updateArr a copy of freshArr plus itself, sharing freshArr's array when there is room. A fresh port written into a shared slot overwrites updateArr's last entry. |
| PortDiff.FreshCap | vendor/github.com/laincloud/deployd/engine/podgroup.go:336 | The capacity of freshArr is never less than its length. It doubles when full, starting from 1. |
| PortDiff.ScanNewsShape | vendor/github.com/laincloud/deployd/engine/podgroup.go:335-358 | The scan's freshArr is the fresh bucket. While updateArr shares freshArr's array, it is freshArr plus one entry sitting in freshArr's spare capacity. |
| PortDiff.UpdateOverwrittenByFresh | vendor/github.com/laincloud/deployd/engine/podgroup.go:343-356 | Old port 80 against new ports 81, 82, 83, 80' and 84: the update bucket is [81, 82, 83, 84], and the change of port 80 is never sent. The intended bucket is [80']. |
| PortDiff.UpdateBucketQuirk | vendor/github.com/laincloud/deployd/engine/podgroup.go:343 | Old ports 80 and 90 against new ports 81, 80' and 90': the update bucket is [81, 90'], port 80' is lost, and port 81 is both registered and updated. |
| PortDiff.IntendedBucketsPartition | vendor/github.com/laincloud/deployd/engine/podgroup.go:335-358 | With the intended update bucket, every new port is in exactly one place: fresh, updated, or nowhere because it is unchanged. |
| ParseRegexFields.NewParseRegexFields | libbeat/processors/actions/parse_regex_fields.go:29-46 | An empty source field means "message", so the source field is never empty. A failing compile yields the prefixed error and no processor. |
| ParseRegexFields.Run | libbeat/processors/actions/parse_regex_fields.go:48-75 | The caller's event is never changed. No source field or no match returns an equal copy. A non-string source value fails. A match returns the copy with groups 1.. stored. |
| ParseRegexFields.GroupKey | libbeat/processors/actions/parse_regex_fields.go:69-71 | A named group is stored under its name. An unnamed group is stored under a non-empty all-digit key. |
| ParseRegexFields.LastGroupWith | libbeat/processors/actions/parse_regex_fields.go:65-73 | It finds the last group numbered 1 or more that is stored under a key, or reports that none is. |
| ParseRegexFields.PutGroupsKeys | libbeat/processors/actions/parse_regex_fields.go:65-73 | After extraction, the fields are the event's fields plus exactly the keys of groups 1..; group 0 is never written. |
| ParseRegexFields.PutGroupsValues | libbeat/processors/actions/parse_regex_fields.go:65-73 | Each field holds the text of the last group stored under it. A field no group is stored under keeps its value. |
| ParseRegexFields.SourceFieldKept | libbeat/processors/actions/parse_regex_fields_test.go:56-77 | The source field survives extraction with its text unless a group is stored under its name. |
| ParseRegexFields.UnnamedGroupsApart | libbeat/processors/actions/parse_regex_fields.go:69-71 | Different unnamed groups are stored under different fields. |
| ParseRegexFields.DistinctNamesStored | libbeat/processors/actions/parse_regex_fields.go:65-73 | When group keys are distinct, every group i >= 1 appears with its own text. |
| ParseRegexFields.MultiSubmatchExample | libbeat/processors/actions/parse_regex_fields_test.go:56-77 | The named-groups test case yields the four fields with their texts and keeps test_message. |
| Common.NatToStringRoundTrip | libbeat/processors/actions/parse_regex_fields.go:70 | Reading back the decimal key of a group index gives the index. |
| TagLainFields.Tagged | libbeat/processors/actions/tag_lain_fields.go:60-73 | A known, non-empty container id is replaced by app_name, proc_name and instance_no. Any other id stays, and the event is tagged "public" without instance_no. No other field changes. |
| TagLainFields.TagLainFields.Run | libbeat/processors/actions/tag_lain_fields.go:60-73 | The event is tagged in place as Tagged says. A missing or non-string container_id is a failed type assertion, and the event is left as it was. |
| TagLainFields.ShortId | libbeat/processors/actions/tag_lain_fields.go:78 | A short id is 12 characters from [a-z0-9]. |
| TagLainFields.ShortIdRoundTrip | libbeat/processors/actions/tag_lain_fields.go:78 | Host, "/" and an id of at least 13 [a-z0-9] characters yield the id's first 12 characters when the width is the host's character count. |
| TagLainFields.ShortIdShape | libbeat/processors/actions/tag_lain_fields.go:78 | Every matching key is a width-character prefix, a slash, and an id whose first 12 characters are the short id. |
| TagLainFields.AsciiHostWidth | libbeat/processors/actions/tag_lain_fields.go:78 | For an ASCII host name, len(hostName) equals its character count, so the pattern lines up with the host's keys. |
| TagLainFields.NonAsciiHostNeverMatches | libbeat/processors/actions/tag_lain_fields.go:78 | For a host name with a non-ASCII character, no key of that host yields a short id with the pattern built from len(hostName). |
| TagLainFields.ShortIdData | libbeat/processors/actions/tag_lain_fields.go:92-98 | The keys of the table are exactly the short ids of the matching keys. Each entry is the info of a key with that short id, whatever the iteration order. |
| TagLainFields.TagLainFields.ApplyWatchEvent | libbeat/processors/actions/tag_lain_fields.go:86-104 | Only decodable init, update and delete messages are used. The table is replaced only when the short-id table differs from it, and then by the full-key table of the message. |

## Left out

- Activate (the worker goroutine), the operation channel's capacity of 500 and its blocking, and the read/write locks are concurrency. The queue is a sequence that intents append to and nothing drains.
- The bodies of the queued operations (`Do`), the publisher behind EmitEvent, the notification sender, logging, `String()` and `Inspect()` are left out. Emitted events and the health notice are returned as values instead.
- JSON decoding of the port annotation, `PodSpec.Equals` and `Merge`, and the port registry are not part of this model. The `Env` functions are decoding, Equals, Merge and the registry's reply to RegisterPorts. RegisterPorts, UpdatePorts and CancelPorts calls are recorded in order in the ghost field `portCalls`.
- `Clone()` on specs and pods is taken as the identity, because specs and pods are immutable values here.
- storedKey and storedKeyDir depend on root-key constants that are not part of this model.
- PodGroupCtrl.PodGroupController.WaitLastPodStarted: the health states are read once, as they are at the call. The real wait re-reads them while the worker changes them, so the model gives the seconds slept for a frozen snapshot. GetSetupTime is taken as the template field `setupTime`.
- PodGroupCtrl.PodGroupController.RescheduleSpec and RescheduleDrift: the pacing wait's result is discarded, as in the code. Callers must have a pod controller for every instance the wait inspects. RescheduleSpec asks for this only when it will enqueue upgrades.
- PortDiff.FreshCap: capacity doubling is Go's growth rule for appending one pointer to a small slice on a 64-bit platform. On a 32-bit target the first append rounds up to the 8-byte size class and gives capacity 2, so the aliasing differs there. Newer Go runtimes grow a slice of more than 256 elements by less than double and round to size classes; that is not modelled, so the aliasing of the update bucket is exact only while freshArr holds at most 256 ports.
- PodGroupCtrl.ConflictMessage: Go's `%v` rendering of a slice of pointers is replaced by the source ports of the conflicting entries.
- PodGroupCtrl.PodGroupController.EmitChangeEvent: the unused `pod` parameter is dropped.
- Events.MapStr: field names are flat. Dotted names, which MapStr treats as paths into nested maps, are not modelled, so the GetValue error branch of parseRegexFields.Run (a present key that cannot be read) cannot occur.
- The regular-expression engine is abstract. `Compiled` states what the regexp package guarantees of a compiled expression.
- ParseRegexFields.Run: a non-string source value makes the code call `Error()` on a nil error. That is a panic, and it is modelled as `failed`.
- TagLainFields.TagLainFields.Run: a missing or non-string container_id makes the type assertion panic, which is modelled as `panicked`.
- The lainlet watch loop, `client.New`, the 3-second retry, `os.Hostname`, the `newTagLainFields` goroutine and the unsynchronised swap of the table are network I/O and concurrency. One watch message is one call to ApplyWatchEvent, and the table is a field of the holder.
- Config unpacking (`common.Config.Unpack`) and plugin registration in `init()` are framework plumbing.

## Findings

| source | as written | input that shows it | evidently intended | confidence | as-written member | corrected member |
|---|---|---|---|---|---|---|
| vendor/github.com/laincloud/deployd/engine/podgroup.go:343 | `updateArr = append(freshArr, ...)`: each updated port replaces the update bucket with the fresh ports so far plus itself | old ports 80→8080 and 90→9090, new ports 81→8181, 80→8000 and 90→9000: the update bucket is [81, 90→9000] | `append(updateArr, ...)`: the update bucket is every changed port, here [80→8000, 90→9000] | high, not executed | PortDiff.UpdateBucketQuirk | PortDiff.IntendedBucketsPartition |
| vendor/github.com/laincloud/deployd/engine/podgroup.go:343 | the update slice returned by `append(freshArr, ...)` shares freshArr's backing array when freshArr has spare capacity, so the next fresh port's append overwrites the updated port | old port 80→8080, new ports 81, 82, 83, 80→8000 and 84: UpdatePorts receives [81, 82, 83, 84] | the change of port 80 reaches UpdatePorts: the update bucket is [80→8000] | high, not executed | PortDiff.UpdateOverwrittenByFresh | PortDiff.IntendedBucketsPartition |
| vendor/github.com/laincloud/deployd/engine/podgroup.go:119 | the change is `numInstances - curNumInstances` even when a negative count was ignored for the spec | RescheduleInstance(-1, newPolicy) on 3 instances enqueues removal of instances 3, 2, 1 and 0 | the change is taken from the count installed in the spec, so a policy-only change resizes nothing | high, not executed | PgOperations.NegativeTargetRemovesAll | PgOperations.IntendedRescaleKeepsCount |
| libbeat/processors/actions/tag_lain_fields.go:78 | the prefix width is `len(t.hostName)`, a byte count, while `.` matches one character | a host name containing "é": no key of that host yields a short id | the width is the host name's character count | low, not executed | TagLainFields.NonAsciiHostNeverMatches | TagLainFields.ShortIdRoundTrip |

The controller and the tagging processor follow the code as written. The corrected definitions are proved beside them.
