/** Computing a resource's status and writing it back as standard conditions. */
module KStatus {
  import opened Base

  datatype Status = InProgress | Failed | Current | Terminating

  datatype ConditionType = Stalled | Reconciling

  /** A standard condition; its status is always True. */
  datatype Condition = Condition(kind: ConditionType, reason: string, message: string)

  datatype Outcome = Outcome(status: Status, message: string, conditions: seq<Condition>)

  // ---------- The object ----------

  datatype Text = Missing | Text(text: string) | NotText

  datatype Number = NoNumber | Number(value: int) | NotNumber

  /** One entry of status.conditions as it is in the object. */
  datatype RawCondition =
    | NotAMap
    | Raw(kind: Text, status: Text, reason: Text, message: Text, transition: Text, update: Text)

  datatype RawConditions = Absent | NotAList | List(entries: seq<RawCondition>)

  datatype Container = Container(name: Option<string>, waitingReason: Option<string>)

  datatype Containers = NoContainers | NotContainers | Containers(list: seq<Container>)

  /** Everything but the conditions; fields by path. */
  datatype Meta = Meta(
    group: string,
    kind: string,
    deletionTimestamp: Text,
    generation: Number,
    observedGeneration: Number,
    created: int,
    ints: map<string, int>,
    strings: map<string, string>,
    bools: map<string, bool>,
    containers: Containers)

  datatype Object = Object(meta: Meta, conditions: RawConditions)

  datatype Error =
    | BadDeletionTimestamp
    | BadGeneration
    | BadConditions
    | BadContainers
    | UnknownPhase
    | BadStructure

  /** A condition with the fields the checks read. */
  datatype Basic = Basic(kind: string, status: string, reason: string, message: string)

  function IntField(m: Meta, path: string, default: int): int {
    if path in m.ints then m.ints[path] else default
  }

  function StringField(m: Meta, path: string, default: string): string {
    if path in m.strings then m.strings[path] else default
  }

  function BoolField(m: Meta, path: string, default: bool): bool {
    if path in m.bools then m.bools[path] else default
  }

  /** A missing text field reads as the empty string. */
  function OrEmpty(t: Text): string {
    if t.Text? then t.text else ""
  }

  predicate Convertible(c: RawCondition) {
    c.Raw? && !c.kind.NotText? && !c.status.NotText? && !c.reason.NotText? && !c.message.NotText?
  }

  function ToBasic(c: RawCondition): Basic
    requires c.Raw?
  {
    Basic(OrEmpty(c.kind), OrEmpty(c.status), OrEmpty(c.reason), OrEmpty(c.message))
  }

  /** Converts the whole list, or fails. */
  function Decode(entries: seq<RawCondition>): (r: Option<seq<Basic>>)
    ensures r.Some? ==> |r.value| == |entries|
  {
    if entries == [] then Some([])
    else
      var front, last := Decode(entries[..|entries| - 1]), entries[|entries| - 1];
      if front.None? || !Convertible(last) then None else Some(front.value + [ToBasic(last)])
  }

  function DecodeAll(c: RawConditions): Option<seq<Basic>> {
    match c
    case Absent => Some([])
    case NotAList => None
    case List(entries) => Decode(entries)
  }

  // ---------- Results ----------

  function InProgressResult(reason: string, message: string): Outcome {
    Outcome(InProgress, message, [Condition(Reconciling, reason, message)])
  }

  function FailedResult(reason: string, message: string): Outcome {
    Outcome(Failed, message, [Condition(Stalled, reason, message)])
  }

  function CurrentResult(message: string): Outcome {
    Outcome(Current, message, [])
  }

  // ---------- Checks that do not depend on the kind ----------

  predicate IsTrue(c: Basic, kind: string) {
    c.kind == kind && c.status == "True"
  }

  /** The verdict of the first standard condition that is True. */
  function StandardVerdict(conds: seq<Basic>): Option<Outcome> {
    if conds == [] then None
    else if IsTrue(conds[0], "Reconciling") then Some(InProgressResult(conds[0].reason, conds[0].message))
    else if IsTrue(conds[0], "Stalled") then Some(FailedResult(conds[0].reason, conds[0].message))
    else StandardVerdict(conds[1..])
  }

  function CheckGeneration(m: Meta): Result<Option<Outcome>, Error> {
    if m.generation.NotNumber? then Err(BadGeneration)
    else if m.generation.NoNumber? then Ok(None)
    else if m.observedGeneration.NotNumber? then Err(BadGeneration)
    else if m.observedGeneration.Number? && m.observedGeneration.value != m.generation.value then
      Ok(Some(InProgressResult("LatestGenerationNotObserved", "latest generation not observed")))
    else Ok(None)
  }

  /** Deletion, then the observed generation; these decide without looking at the conditions. */
  function CheckMeta(m: Meta): Result<Option<Outcome>, Error> {
    if m.deletionTimestamp.NotText? then Err(BadDeletionTimestamp)
    else if OrEmpty(m.deletionTimestamp) != "" then Ok(Some(Outcome(Terminating, "Resource scheduled for deletion", [])))
    else CheckGeneration(m)
  }

  function ReadyVerdict(conds: seq<Basic>): Option<Outcome> {
    if conds == [] then None
    else if conds[0].kind == "Ready" && conds[0].status == "True" then Some(CurrentResult("Resource is Ready"))
    else if conds[0].kind == "Ready" && (conds[0].status == "False" || conds[0].status == "Unknown") then
      Some(InProgressResult(conds[0].reason, conds[0].message))
    else ReadyVerdict(conds[1..])
  }

  // ---------- The built-in kinds ----------

  datatype Legacy =
    | Service | Pod | AlwaysReady | PVC | StatefulSet | DaemonSet | Deployment | ReplicaSet | PDB | Job | CRD | NotLegacy

  function LegacyKind(group: string, kind: string): Legacy {
    var key := if group == "" then kind else group + "/" + kind;
    if key == "Service" then Service
    else if key == "Pod" then Pod
    else if key == "Secret" || key == "ConfigMap" || key == "batch/CronJob" then AlwaysReady
    else if key == "PersistentVolumeClaim" then PVC
    else if key == "apps/StatefulSet" then StatefulSet
    else if key == "apps/DaemonSet" || key == "extensions/DaemonSet" then DaemonSet
    else if key == "apps/Deployment" || key == "extensions/Deployment" then Deployment
    else if key == "apps/ReplicaSet" || key == "extensions/ReplicaSet" then ReplicaSet
    else if key == "policy/PodDisruptionBudget" then PDB
    else if key == "batch/Job" then Job
    else if key == "apiextensions.k8s.io/CustomResourceDefinition" then CRD
    else NotLegacy
  }

  function ServiceStatus(m: Meta): Outcome {
    if StringField(m, ".spec.type", "ClusterIP") == "LoadBalancer" && StringField(m, ".spec.clusterIP", "") == "" then
      InProgressResult("NoIPAssigned", "ClusterIP not set")
    else CurrentResult("Service is ready")
  }

  function PVCStatus(m: Meta): Outcome {
    if StringField(m, ".status.phase", "unknown") != "Bound" then InProgressResult("NotBound", "PVC is not Bound")
    else CurrentResult("PVC is Bound")
  }

  function StatefulSetStatus(m: Meta): Outcome {
    var specReplicas := IntField(m, ".spec.replicas", 1);
    var statusReplicas := IntField(m, ".status.replicas", 0);
    var partition := IntField(m, ".spec.updateStrategy.rollingUpdate.partition", -1);
    if StringField(m, ".spec.updateStrategy.type", "") == "OnDelete" then
      CurrentResult("StatefulSet is using the ondelete update strategy")
    else if specReplicas > statusReplicas then InProgressResult("LessReplicas", "Replicas")
    else if specReplicas > IntField(m, ".status.readyReplicas", 0) then InProgressResult("LessReady", "Ready")
    else if statusReplicas > specReplicas then InProgressResult("ExtraPods", "Pending termination")
    else if partition != -1 then
      if IntField(m, ".status.updatedReplicas", 0) < specReplicas - partition then InProgressResult("PartitionRollout", "updated")
      else CurrentResult("Partition rollout complete")
    else if specReplicas > IntField(m, ".status.currentReplicas", 0) then InProgressResult("LessCurrent", "current")
    else if StringField(m, ".status.currentRevision", "") != StringField(m, ".status.updateRevision", "") then
      InProgressResult("RevisionMismatch", "Waiting for updated revision to match current")
    else CurrentResult("All replicas scheduled as expected")
  }

  /** What the conditions of a deployment say: exceeded its deadline, or whether it progresses and is available. */
  datatype Rollout = Exceeded(reason: string, message: string) | Rollout(progressing: bool, available: bool)

  function DeploymentScan(conds: seq<Basic>, progressing: bool): Rollout {
    if conds == [] then Rollout(progressing, false)
    else
      var before, c := DeploymentScan(conds[..|conds| - 1], progressing), conds[|conds| - 1];
      if before.Exceeded? then before
      else if c.kind == "Progressing" then
        if c.reason == "ProgressDeadlineExceeded" then Exceeded(c.reason, c.message)
        else if c.status == "True" && c.reason == "NewReplicaSetAvailable" then before.(progressing := true)
        else before
      else if c.kind == "Available" && c.status == "True" then before.(available := true)
      else before
  }

  const MAX_INT32 := 2147483647

  function DeploymentStatus(m: Meta, conds: seq<Basic>): Outcome {
    var scan := DeploymentScan(conds, IntField(m, ".spec.progressDeadlineSeconds", MAX_INT32) == MAX_INT32);
    var specReplicas := IntField(m, ".spec.replicas", 1);
    var statusReplicas := IntField(m, ".status.replicas", 0);
    var updatedReplicas := IntField(m, ".status.updatedReplicas", 0);
    if scan.Exceeded? then Outcome(Failed, "Progress deadline exceeded", [Condition(Stalled, scan.reason, scan.message)])
    else if specReplicas > statusReplicas then InProgressResult("LessReplicas", "Replicas")
    else if specReplicas > updatedReplicas then InProgressResult("LessUpdated", "Updated")
    else if statusReplicas > specReplicas then InProgressResult("ExtraPods", "Pending termination")
    else if updatedReplicas > IntField(m, ".status.availableReplicas", 0) then InProgressResult("LessAvailable", "Available")
    else if specReplicas > IntField(m, ".status.readyReplicas", 0) then InProgressResult("LessReady", "Ready")
    else if !scan.progressing then InProgressResult("ReplicaSetNotAvailable", "ReplicaSet not Available")
    else if !scan.available then InProgressResult("DeploymentNotAvailable", "Deployment not Available")
    else CurrentResult("Deployment is available")
  }

  function ReplicaSetStatus(m: Meta, conds: seq<Basic>): Outcome {
    var specReplicas := IntField(m, ".spec.replicas", 1);
    if exists i :: 0 <= i < |conds| && IsTrue(conds[i], "ReplicaFailure") then
      InProgressResult("ReplicaFailure", "Replica Failure condition. Check Pods")
    else if specReplicas > IntField(m, ".status.fullyLabeledReplicas", 0) then InProgressResult("LessLabelled", "Labelled")
    else if specReplicas > IntField(m, ".status.availableReplicas", 0) then InProgressResult("LessAvailable", "Available")
    else if specReplicas > IntField(m, ".status.readyReplicas", 0) then InProgressResult("LessReady", "Ready")
    else if IntField(m, ".status.replicas", 0) > specReplicas then InProgressResult("ExtraPods", "Pending termination")
    else CurrentResult("ReplicaSet is available")
  }

  /** A daemon set must have both generations; that they agree was checked before. */
  function DaemonSetStatus(m: Meta): Result<Outcome, Error> {
    var desired := IntField(m, ".status.desiredNumberScheduled", -1);
    if m.generation.NotNumber? then Err(BadGeneration)
    else if m.generation.NoNumber? then Ok(InProgressResult("NoGeneration", "metadata.generation not found"))
    else if m.observedGeneration.NotNumber? then Err(BadGeneration)
    else if m.observedGeneration.NoNumber? then
      Ok(InProgressResult("NoObservedGeneration", "status.observedGeneration not found"))
    else Ok(
      if desired == -1 then InProgressResult("NoDesiredNumber", "Missing .status.desiredNumberScheduled")
      else if desired > IntField(m, ".status.currentNumberScheduled", 0) then InProgressResult("LessCurrent", "Current")
      else if desired > IntField(m, ".status.updatedNumberScheduled", 0) then InProgressResult("LessUpdated", "Updated")
      else if desired > IntField(m, ".status.numberAvailable", 0) then InProgressResult("LessAvailable", "Available")
      else if desired > IntField(m, ".status.numberReady", 0) then InProgressResult("LessReady", "Ready")
      else CurrentResult("All replicas scheduled as expected"))
  }

  function CrashLooping(list: seq<Container>): seq<string> {
    if list == [] then []
    else
      var before, c := CrashLooping(list[..|list| - 1]), list[|list| - 1];
      if c.name.Some? && c.waitingReason == Some("CrashLoopBackOff") then before + [c.name.value] else before
  }

  function FirstWith(conds: seq<Basic>, kind: string, status: string): Option<Basic> {
    if conds == [] then None
    else if conds[0].kind == kind && conds[0].status == status then Some(conds[0])
    else FirstWith(conds[1..], kind, status)
  }

  const SCHEDULE_WINDOW := 15

  function PodStatus(m: Meta, conds: seq<Basic>, now: int): Result<Outcome, Error> {
    var phase := StringField(m, ".status.phase", "");
    if phase == "Succeeded" then Ok(CurrentResult("Pod has completed successfully"))
    else if phase == "Failed" then Ok(CurrentResult("Pod has completed, but not successfully"))
    else if phase == "Running" then
      if FirstWith(conds, "Ready", "True").Some? then Ok(CurrentResult("Pod is Ready"))
      else if m.containers.NotContainers? then Err(BadContainers)
      else if m.containers.Containers? && CrashLooping(m.containers.list) != [] then
        Ok(FailedResult("ContainerCrashLooping", "Containers in CrashLoop state"))
      else Ok(InProgressResult("PodRunningNotReady", "Pod is running but is not Ready"))
    else if phase == "Pending" then
      var c := FirstWith(conds, "PodScheduled", "False");
      if c.Some? && c.value.reason == "Unschedulable" then
        if now - SCHEDULE_WINDOW < m.created then Ok(InProgressResult("PodNotScheduled", "Pod has not been scheduled"))
        else Ok(FailedResult("PodUnschedulable", "Pod could not be scheduled"))
      else Ok(InProgressResult("PodPending", "Pod is in the Pending phase"))
    else if phase == "" then Ok(InProgressResult("PodNotObserved", "Pod phase not available"))
    else Err(UnknownPhase)
  }

  function JobVerdict(conds: seq<Basic>, suspended: bool): Option<Outcome> {
    if conds == [] then None
    else if IsTrue(conds[0], "Complete") then Some(CurrentResult("Job Completed"))
    else if IsTrue(conds[0], "Failed") then Some(FailedResult("JobFailed", "Job Failed"))
    else if IsTrue(conds[0], "Suspended") && suspended then Some(CurrentResult("Job is suspended"))
    else JobVerdict(conds[1..], suspended)
  }

  function JobStatus(m: Meta, conds: seq<Basic>): Outcome {
    var verdict := JobVerdict(conds, BoolField(m, ".spec.suspend", false));
    if verdict.Some? then verdict.value
    else if StringField(m, ".status.startTime", "") == "" then InProgressResult("JobNotStarted", "Job not started")
    else CurrentResult("Job in progress")
  }

  function CRDVerdict(conds: seq<Basic>): Option<Outcome> {
    if conds == [] then None
    else
      var c := conds[0];
      if c.kind == "NamesAccepted" && c.status == "False" then Some(FailedResult(c.reason, c.message))
      else if c.kind == "Established" && c.status == "False" && c.reason != "Installing" then Some(FailedResult(c.reason, c.message))
      else if c.kind == "Established" && c.status == "True" then Some(CurrentResult("CRD is established"))
      else CRDVerdict(conds[1..])
  }

  function CRDStatus(conds: seq<Basic>): Outcome {
    var verdict := CRDVerdict(conds);
    if verdict.Some? then verdict.value else InProgressResult("Installing", "Install in progress")
  }

  function LegacyStatus(m: Meta, conds: seq<Basic>, now: int, kind: Legacy): Result<Outcome, Error>
    requires kind != NotLegacy
  {
    match kind
    case Service => Ok(ServiceStatus(m))
    case Pod => PodStatus(m, conds, now)
    case AlwaysReady => Ok(CurrentResult("Resource is always ready"))
    case PVC => Ok(PVCStatus(m))
    case StatefulSet => Ok(StatefulSetStatus(m))
    case DaemonSet => DaemonSetStatus(m)
    case Deployment => Ok(DeploymentStatus(m, conds))
    case ReplicaSet => Ok(ReplicaSetStatus(m, conds))
    case PDB => Ok(CurrentResult("AllowedDisruptions has been computed."))
    case Job => Ok(JobStatus(m, conds))
    case CRD => Ok(CRDStatus(conds))
  }

  /** The kind's own rules, or the Ready condition, or Current. */
  function KindStatus(m: Meta, conds: seq<Basic>, now: int): Result<Outcome, Error> {
    var kind := LegacyKind(m.group, m.kind);
    if kind != NotLegacy then LegacyStatus(m, conds, now, kind)
    else if ReadyVerdict(conds).Some? then Ok(ReadyVerdict(conds).value)
    else Ok(CurrentResult("Resource is current"))
  }

  function Compute(o: Object, now: int): Result<Outcome, Error> {
    match CheckMeta(o.meta)
    case Err(e) => Err(e)
    case Ok(Some(decided)) => Ok(decided)
    case Ok(None) =>
      match DecodeAll(o.conditions)
      case None => Err(BadConditions)
      case Some(conds) =>
        if StandardVerdict(conds).Some? then Ok(StandardVerdict(conds).value) else KindStatus(o.meta, conds, now)
  }

  // ---------- Writing the conditions back ----------

  function TypeName(t: ConditionType): string {
    if t == Stalled then "Stalled" else "Reconciling"
  }

  predicate Matches(c: RawCondition, t: ConditionType) {
    c.Raw? && c.kind == Text(TypeName(t))
  }

  /** Whether one entry has the structure that writing requires. */
  predicate Writable(c: RawCondition, t: ConditionType) {
    c.Raw? && c.kind.Text? && (Matches(c, t) ==> c.status.Text?)
  }

  function Rewrite(c: RawCondition, std: Condition, clock: string): RawCondition
    requires c.Raw?
  {
    c.(transition := if c.status == Text("True") then c.transition else Text(clock),
       status := Text("True"), update := Text(clock), reason := Text(std.reason), message := Text(std.message))
  }

  /** Overwrites every entry of the standard condition's type. */
  function RewriteAll(entries: seq<RawCondition>, std: Condition, clock: string): seq<RawCondition> {
    if entries == [] then []
    else
      var front, last := RewriteAll(entries[..|entries| - 1], std, clock), entries[|entries| - 1];
      front + [if Matches(last, std.kind) then Rewrite(last, std, clock) else last]
  }

  predicate Present(entries: seq<RawCondition>, t: ConditionType) {
    exists i :: 0 <= i < |entries| && Matches(entries[i], t)
  }

  function NewEntry(std: Condition, clock: string): RawCondition {
    Raw(Text(TypeName(std.kind)), Text("True"), Text(std.reason), Text(std.message), Text(clock), Text(clock))
  }

  /** One standard condition written into the list, or nothing if some entry is malformed. */
  function Write(entries: seq<RawCondition>, std: Condition, clock: string): Option<seq<RawCondition>> {
    if exists i :: 0 <= i < |entries| && !Writable(entries[i], std.kind) then None
    else
      var rewritten := RewriteAll(entries, std, clock);
      Some(if Present(entries, std.kind) then rewritten else rewritten + [NewEntry(std, clock)])
  }

  function WriteEach(entries: seq<RawCondition>, stds: seq<Condition>, clock: string): Option<seq<RawCondition>> {
    if stds == [] then Some(entries)
    else
      var front := WriteEach(entries, stds[..|stds| - 1], clock);
      if front.None? then None else Write(front.value, stds[|stds| - 1], clock)
  }

  function Entries(c: RawConditions): seq<RawCondition> {
    if c.List? then c.entries else []
  }

  function AugmentSpec(o: Object, now: int, clock: string): Result<Object, Error> {
    match Compute(o, now)
    case Err(e) => Err(e)
    case Ok(res) =>
      if o.conditions.NotAList? then Err(BadConditions)
      else
        match WriteEach(Entries(o.conditions), res.conditions, clock)
        case None => Err(BadStructure)
        case Some(entries) => Ok(o.(conditions := List(entries)))
  }

  /** The inner loop: scans the entries for one standard condition, overwriting in place. */
  method WriteCondition(entries: seq<RawCondition>, std: Condition, clock: string) returns (r: Option<seq<RawCondition>>)
    ensures r == Write(entries, std, clock)
  {
    var conditions: seq<RawCondition> := entries;
    var present := false;
    for i := 0 to |entries|
      invariant |conditions| == |entries| && conditions[i..] == entries[i..]
      invariant conditions[..i] == RewriteAll(entries[..i], std, clock)
      invariant forall k :: 0 <= k < i ==> Writable(entries[k], std.kind)
      invariant present <==> exists k :: 0 <= k < i && Matches(entries[k], std.kind)
    {
      assert entries[..i + 1][..i] == entries[..i];
      assert conditions[i] == entries[i] by { assert conditions[i..][0] == entries[i..][0]; }
      var c := conditions[i];
      if !c.Raw? || !c.kind.Text? {
        assert !Writable(entries[i], std.kind);
        return None;
      }
      if c.kind.text == TypeName(std.kind) {
        if !c.status.Text? {
          assert !Writable(entries[i], std.kind);
          return None;
        }
        var transition := if c.status.text != "True" then Text(clock) else c.transition;
        conditions := conditions[i := c.(transition := transition, status := Text("True"), update := Text(clock),
          reason := Text(std.reason), message := Text(std.message))];
        present := true;
      }
      assert conditions[..i + 1] == conditions[..i] + [conditions[i]];
    }
    assert entries[..|entries|] == entries && conditions[..|entries|] == conditions;
    if !present {
      conditions := conditions + [NewEntry(std, clock)];
    }
    r := Some(conditions);
  }

  method Augment(o: Object, now: int, clock: string) returns (r: Result<Object, Error>)
    ensures r == AugmentSpec(o, now, clock)
  {
    hide Compute, Write;
    var computed := Compute(o, now);
    if computed.Err? {
      return Err(computed.error);
    }
    if o.conditions.NotAList? {
      return Err(BadConditions);
    }
    var stds := computed.value.conditions;
    var conditions: seq<RawCondition> := Entries(o.conditions);
    for i := 0 to |stds|
      invariant WriteEach(Entries(o.conditions), stds[..i], clock) == Some(conditions)
    {
      assert stds[..i + 1][..i] == stds[..i];
      var next := WriteCondition(conditions, stds[i], clock);
      if next.None? {
        WriteFails(Entries(o.conditions), stds, i + 1, clock);
        return Err(BadStructure);
      }
      conditions := next.value;
    }
    assert stds[..|stds|] == stds;
    r := Ok(o.(conditions := List(conditions)));
  }

  lemma {:induction false} WriteFails(entries: seq<RawCondition>, stds: seq<Condition>, i: nat, clock: string)
    requires i <= |stds| && WriteEach(entries, stds[..i], clock) == None
    ensures WriteEach(entries, stds, clock) == None
  {
    hide Write;
    if i < |stds| {
      assert stds[..|stds| - 1][..i] == stds[..i];
      WriteFails(entries, stds[..|stds| - 1], i, clock);
    } else {
      assert stds[..i] == stds;
    }
  }

  // ---------- The two kind rules that loop over local state ----------

  method DeploymentLoop(conds: seq<Basic>, start: bool) returns (r: Rollout)
    ensures r == DeploymentScan(conds, start)
  {
    var progressing, available := start, false;
    for i := 0 to |conds|
      invariant DeploymentScan(conds[..i], start) == Rollout(progressing, available)
    {
      assert conds[..i + 1][..i] == conds[..i];
      var c := conds[i];
      if c.kind == "Progressing" {
        if c.reason == "ProgressDeadlineExceeded" {
          ExceededStays(conds, i + 1, start);
          return Exceeded(c.reason, c.message);
        }
        if c.status == "True" && c.reason == "NewReplicaSetAvailable" {
          progressing := true;
        }
      } else if c.kind == "Available" {
        if c.status == "True" {
          available := true;
        }
      }
    }
    assert conds[..|conds|] == conds;
    r := Rollout(progressing, available);
  }

  lemma {:induction false} ExceededStays(conds: seq<Basic>, i: nat, start: bool)
    requires i <= |conds| && DeploymentScan(conds[..i], start).Exceeded?
    ensures DeploymentScan(conds, start) == DeploymentScan(conds[..i], start)
  {
    if i < |conds| {
      assert conds[..|conds| - 1][..i] == conds[..i];
      ExceededStays(conds[..|conds| - 1], i, start);
    } else {
      assert conds[..i] == conds;
    }
  }

  method CrashLoopingContainers(list: seq<Container>) returns (names: seq<string>, looping: bool)
    ensures names == CrashLooping(list) && (looping <==> names != [])
  {
    names := [];
    for i := 0 to |list|
      invariant names == CrashLooping(list[..i])
    {
      assert list[..i + 1][..i] == list[..i];
      if list[i].name.Some? && list[i].waitingReason.Some? {
        if list[i].waitingReason.value == "CrashLoopBackOff" {
          names := names + [list[i].name.value];
        }
      }
    }
    assert list[..|list|] == list;
    looping := |names| > 0;
  }
}
