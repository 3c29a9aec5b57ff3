/** When a resource of each kind is current, failed or in progress, in terms of its fields and conditions. */
module KStatusKinds {
  import opened Base
  import opened KStatus
  import KStatusFacts

  // ---------- Reading the object ----------

  /** conds are the object's conditions, field by field; a missing field reads as the empty string. */
  ghost predicate Reads(c: RawConditions, conds: seq<Basic>) {
    match c
    case Absent => conds == []
    case NotAList => false
    case List(entries) => |conds| == |entries| && forall i :: 0 <= i < |entries| ==> ReadsOne(entries[i], conds[i])
  }

  predicate ReadsOne(raw: RawCondition, c: Basic) {
    && raw.Raw?
    && IsText(raw.kind, c.kind) && IsText(raw.status, c.status) && IsText(raw.reason, c.reason) && IsText(raw.message, c.message)
  }

  predicate IsText(t: Text, s: string) {
    t == Text(s) || (t == Missing && s == "")
  }

  lemma ReadsIff(c: RawConditions, conds: seq<Basic>)
    ensures Reads(c, conds) <==> DecodeAll(c) == Some(conds)
  {
    if c.List? {
      KStatusFacts.DecodeFacts(c.entries);
      if Reads(c, conds) {
        forall i | 0 <= i < |c.entries| ensures Convertible(c.entries[i]) && conds[i] == ToBasic(c.entries[i]) {
          assert ReadsOne(c.entries[i], conds[i]);
        }
        assert conds == Decode(c.entries).value;
      }
      hide Decode;
    }
  }

  /** What a field lookup gives: the value there, or the default. */
  lemma FieldsRead(m: Meta, path: string)
    ensures forall d :: IntField(m, path, d) == (if path in m.ints then m.ints[path] else d)
    ensures forall d :: StringField(m, path, d) == (if path in m.strings then m.strings[path] else d)
    ensures forall d :: BoolField(m, path, d) == (if path in m.bools then m.bools[path] else d)
  {
  }

  // ---------- What holds of every kind ----------

  /** A resource is terminating exactly when it has a deletion timestamp, whatever else it says. */
  lemma TerminatingIff(o: Object, now: int)
    ensures (Compute(o, now).Ok? && Compute(o, now).value.status == Terminating)
      <==> o.meta.deletionTimestamp.Text? && o.meta.deletionTimestamp.text != ""
  {
    if CheckMeta(o.meta) == Ok(None) && Compute(o, now).Ok? {
      KStatusFacts.ComputeUndecided(o, now);
      var conds := DecodeAll(o.conditions).value;
      KStatusFacts.StandardShaped(conds);
      KStatusFacts.KindShaped(o.meta, conds, now);
    }
    hide KindStatus, StandardVerdict, DecodeAll;
  }

  /** Not being deleted, its generations readable. */
  predicate Readable(m: Meta) {
    && (m.deletionTimestamp == Missing || m.deletionTimestamp == Text(""))
    && !m.generation.NotNumber? && (m.generation.Number? ==> !m.observedGeneration.NotNumber?)
  }

  predicate Lagging(m: Meta) {
    m.generation.Number? && m.observedGeneration.Number? && m.observedGeneration.value != m.generation.value
  }

  /** While the controller has not seen the latest generation the resource is in progress, whatever its kind and conditions. */
  lemma LaggingInProgress(o: Object, now: int)
    requires Readable(o.meta) && Lagging(o.meta)
    ensures Compute(o, now).Ok? && Compute(o, now).value.status == InProgress
    ensures |Compute(o, now).value.conditions| == 1 && Compute(o, now).value.conditions[0].reason == "LatestGenerationNotObserved"
  {
    hide KindStatus, StandardVerdict, DecodeAll;
  }

  /** What cannot be read is an error: the deletion timestamp, then the generations, then the conditions. */
  lemma UnreadableFails(o: Object, now: int)
    ensures Compute(o, now) == Err(BadDeletionTimestamp) <==> o.meta.deletionTimestamp.NotText?
    ensures (o.meta.deletionTimestamp == Missing || o.meta.deletionTimestamp == Text("")) && !Readable(o.meta) ==>
      Compute(o, now) == Err(BadGeneration)
    ensures Readable(o.meta) && !Lagging(o.meta) && (forall conds :: !Reads(o.conditions, conds)) ==>
      Compute(o, now) == Err(BadConditions)
  {
    if DecodeAll(o.conditions).Some? {
      ReadsIff(o.conditions, DecodeAll(o.conditions).value);
      KindErrors(o.meta, DecodeAll(o.conditions).value, now);
    }
    hide KindStatus, StandardVerdict, DecodeAll, Reads;
  }

  lemma KindErrors(m: Meta, conds: seq<Basic>, now: int)
    ensures KindStatus(m, conds, now).Err? ==> KindStatus(m, conds, now).error != BadDeletionTimestamp
  {
    hide LegacyKind, ServiceStatus, PVCStatus, StatefulSetStatus, DeploymentStatus, ReplicaSetStatus, JobStatus, CRDStatus;
    hide ReadyVerdict, FirstWith, CrashLooping, StringField;
  }

  predicate Standard(c: Basic) {
    c.status == "True" && (c.kind == "Reconciling" || c.kind == "Stalled")
  }

  ghost predicate FirstStandard(conds: seq<Basic>, k: int) {
    0 <= k < |conds| && Standard(conds[k]) && forall i :: 0 <= i < k ==> !Standard(conds[i])
  }

  ghost predicate NoStandard(conds: seq<Basic>) {
    forall i :: 0 <= i < |conds| ==> !Standard(conds[i])
  }

  lemma {:induction false} StandardAt(conds: seq<Basic>, k: nat)
    requires FirstStandard(conds, k)
    ensures StandardVerdict(conds) == Some(Outcome(
      if conds[k].kind == "Reconciling" then InProgress else Failed, conds[k].message,
      [Condition(if conds[k].kind == "Reconciling" then Reconciling else Stalled, conds[k].reason, conds[k].message)]))
  {
    if k > 0 {
      assert Standard(conds[0]) == false;
      assert conds[1..][k - 1] == conds[k];
      assert forall i :: 0 <= i < k - 1 ==> conds[1..][i] == conds[i + 1];
      StandardAt(conds[1..], k - 1);
    }
  }

  lemma {:induction false} StandardNone(conds: seq<Basic>)
    requires NoStandard(conds)
    ensures StandardVerdict(conds) == None
  {
    if conds != [] {
      assert !Standard(conds[0]);
      forall i | 0 <= i < |conds| - 1 ensures !Standard(conds[1..][i]) {
        assert !Standard(conds[i + 1]);
      }
      StandardNone(conds[1..]);
    }
  }

  /** The first standard condition that is True decides, before any rule of the kind: Reconciling is in progress, Stalled
      is failed, with its reason and message. */
  lemma StandardDecides(o: Object, now: int, conds: seq<Basic>, k: nat)
    requires Readable(o.meta) && !Lagging(o.meta) && Reads(o.conditions, conds) && FirstStandard(conds, k)
    ensures var c := conds[k];
      Compute(o, now) == Ok(Outcome(
        if c.kind == "Reconciling" then InProgress else Failed, c.message,
        [Condition(if c.kind == "Reconciling" then Reconciling else Stalled, c.reason, c.message)]))
  {
    ReadsIff(o.conditions, conds);
    StandardAt(conds, k);
    hide KindStatus, StandardVerdict, DecodeAll, FirstStandard;
  }

  /** The object is left to the rules of its kind. */
  ghost predicate Plain(o: Object, conds: seq<Basic>) {
    Readable(o.meta) && !Lagging(o.meta) && Reads(o.conditions, conds) && NoStandard(conds)
  }

  lemma PlainComputes(o: Object, now: int, conds: seq<Basic>)
    requires Plain(o, conds)
    ensures Compute(o, now) == KindStatus(o.meta, conds, now)
  {
    ReadsIff(o.conditions, conds);
    StandardNone(conds);
    hide KindStatus, StandardVerdict, DecodeAll, NoStandard;
  }

  predicate IsKind(o: Object, group: string, kind: string) {
    o.meta.group == group && o.meta.kind == kind
  }

  /** Text lookup. */
  function Str(o: Object, path: string, default: string): string {
    if path in o.meta.strings then o.meta.strings[path] else default
  }

  /** Number lookup. */
  function Num(o: Object, path: string, default: int): int {
    if path in o.meta.ints then o.meta.ints[path] else default
  }

  predicate CurrentIff(r: Result<Outcome, Error>, current: bool) {
    r.Ok? && r.value.status == if current then Current else InProgress
  }

  // ---------- Kinds that look at fields only ----------

  lemma ServiceIs(o: Object, now: int, conds: seq<Basic>)
    requires Plain(o, conds) && IsKind(o, "", "Service")
    ensures Compute(o, now) == Ok(ServiceStatus(o.meta))
  {
    PlainComputes(o, now, conds);
    hide Plain, Compute, ServiceStatus;
  }

  /** A service is current unless it is a load balancer without a cluster IP. */
  lemma ServiceCurrent(o: Object, now: int, conds: seq<Basic>)
    requires Plain(o, conds) && IsKind(o, "", "Service")
    ensures CurrentIff(Compute(o, now), !(Str(o, ".spec.type", "ClusterIP") == "LoadBalancer" && Str(o, ".spec.clusterIP", "") == ""))
  {
    ServiceIs(o, now, conds);
    hide Plain, Compute;
  }

  lemma PVCIs(o: Object, now: int, conds: seq<Basic>)
    requires Plain(o, conds) && IsKind(o, "", "PersistentVolumeClaim")
    ensures Compute(o, now) == Ok(PVCStatus(o.meta))
  {
    PlainComputes(o, now, conds);
    hide Plain, Compute, PVCStatus;
  }

  /** A volume claim is current exactly when it is bound. */
  lemma PVCCurrent(o: Object, now: int, conds: seq<Basic>)
    requires Plain(o, conds) && IsKind(o, "", "PersistentVolumeClaim")
    ensures CurrentIff(Compute(o, now), Str(o, ".status.phase", "unknown") == "Bound")
  {
    PVCIs(o, now, conds);
    hide Plain, Compute;
  }

  /** Kinds that are current as soon as they exist. */
  lemma AlwaysCurrent(o: Object, now: int, conds: seq<Basic>)
    requires Plain(o, conds)
    requires IsKind(o, "", "Secret") || IsKind(o, "", "ConfigMap")
    ensures CurrentIff(Compute(o, now), true)
  {
    PlainComputes(o, now, conds);
    hide Plain, Compute;
  }

  lemma CronJobKind()
    ensures LegacyKind("batch", "CronJob") == AlwaysReady
  {
    assert "batch" + "/" + "CronJob" == "batch/CronJob";
  }

  lemma CronJobCurrent(o: Object, now: int, conds: seq<Basic>)
    requires Plain(o, conds) && IsKind(o, "batch", "CronJob")
    ensures CurrentIff(Compute(o, now), true)
  {
    hide LegacyKind, Plain, Compute;
    PlainComputes(o, now, conds);
    CronJobKind();
  }

  lemma DisruptionBudgetKind()
    ensures LegacyKind("policy", "PodDisruptionBudget") == PDB
  {
    assert "policy" + "/" + "PodDisruptionBudget" == "policy/PodDisruptionBudget";
  }

  lemma DisruptionBudgetCurrent(o: Object, now: int, conds: seq<Basic>)
    requires Plain(o, conds) && IsKind(o, "policy", "PodDisruptionBudget")
    ensures CurrentIff(Compute(o, now), true)
  {
    hide LegacyKind, Plain, Compute;
    PlainComputes(o, now, conds);
    DisruptionBudgetKind();
  }

  lemma StatefulSetKind()
    ensures LegacyKind("apps", "StatefulSet") == StatefulSet
  {
    assert "apps" + "/" + "StatefulSet" == "apps/StatefulSet";
  }

  lemma StatefulSetIs(o: Object, now: int, conds: seq<Basic>)
    requires Plain(o, conds) && IsKind(o, "apps", "StatefulSet")
    ensures Compute(o, now) == Ok(StatefulSetStatus(o.meta))
  {
    hide LegacyKind, Plain, Compute, StatefulSetStatus;
    PlainComputes(o, now, conds);
    StatefulSetKind();
  }

  /** A stateful set is current exactly when it is updated on delete, or it has the replicas it should have, all
      of them ready and, with a partition, those beyond it updated, otherwise all of them of the one revision. */
  lemma StatefulSetCurrent(o: Object, now: int, conds: seq<Basic>)
    requires Plain(o, conds) && IsKind(o, "apps", "StatefulSet")
    ensures var want, partition := Num(o, ".spec.replicas", 1), Num(o, ".spec.updateStrategy.rollingUpdate.partition", -1);
      CurrentIff(Compute(o, now),
        || Str(o, ".spec.updateStrategy.type", "") == "OnDelete"
        || (&& Num(o, ".status.replicas", 0) == want && Num(o, ".status.readyReplicas", 0) >= want
            && if partition != -1 then Num(o, ".status.updatedReplicas", 0) >= want - partition
               else && Num(o, ".status.currentReplicas", 0) >= want
                    && Str(o, ".status.currentRevision", "") == Str(o, ".status.updateRevision", "")))
  {
    StatefulSetIs(o, now, conds);
    hide Plain, Compute;
  }

  lemma DaemonSetKind()
    ensures LegacyKind("apps", "DaemonSet") == DaemonSet
  {
    assert "apps" + "/" + "DaemonSet" == "apps/DaemonSet";
  }

  lemma OldDaemonSetKind()
    ensures LegacyKind("extensions", "DaemonSet") == DaemonSet
  {
    assert "extensions" + "/" + "DaemonSet" == "extensions/DaemonSet";
  }

  lemma DaemonSetIs(o: Object, now: int, conds: seq<Basic>)
    requires Plain(o, conds) && (IsKind(o, "apps", "DaemonSet") || IsKind(o, "extensions", "DaemonSet"))
    ensures Compute(o, now) == DaemonSetStatus(o.meta)
  {
    hide LegacyKind, Plain, Compute, DaemonSetStatus;
    PlainComputes(o, now, conds);
    DaemonSetKind();
    OldDaemonSetKind();
  }

  /** A daemon set is current exactly when both generations are there and as many pods as are wanted are scheduled, updated,
      available and ready. */
  lemma DaemonSetCurrent(o: Object, now: int, conds: seq<Basic>)
    requires Plain(o, conds) && (IsKind(o, "apps", "DaemonSet") || IsKind(o, "extensions", "DaemonSet"))
    ensures var want := Num(o, ".status.desiredNumberScheduled", -1);
      CurrentIff(Compute(o, now),
        && o.meta.generation.Number? && o.meta.observedGeneration.Number? && want != -1
        && Num(o, ".status.currentNumberScheduled", 0) >= want && Num(o, ".status.updatedNumberScheduled", 0) >= want
        && Num(o, ".status.numberAvailable", 0) >= want && Num(o, ".status.numberReady", 0) >= want)
  {
    DaemonSetIs(o, now, conds);
    assert Readable(o.meta);
    hide Plain, Compute;
  }

  // ---------- Kinds that look at conditions ----------

  ghost predicate Has(conds: seq<Basic>, kind: string, status: string) {
    exists i :: 0 <= i < |conds| && conds[i].kind == kind && conds[i].status == status
  }

  lemma ReplicaSetKind()
    ensures LegacyKind("apps", "ReplicaSet") == ReplicaSet
  {
    assert "apps" + "/" + "ReplicaSet" == "apps/ReplicaSet";
  }

  lemma OldReplicaSetKind()
    ensures LegacyKind("extensions", "ReplicaSet") == ReplicaSet
  {
    assert "extensions" + "/" + "ReplicaSet" == "extensions/ReplicaSet";
  }

  lemma ReplicaSetIs(o: Object, now: int, conds: seq<Basic>)
    requires Plain(o, conds) && (IsKind(o, "apps", "ReplicaSet") || IsKind(o, "extensions", "ReplicaSet"))
    ensures Compute(o, now) == Ok(ReplicaSetStatus(o.meta, conds))
  {
    hide LegacyKind, Plain, Compute, ReplicaSetStatus;
    PlainComputes(o, now, conds);
    ReplicaSetKind();
    OldReplicaSetKind();
  }

  /** A replica set is current exactly when no condition reports a replica failure and enough replicas, and no extra
      ones, are labelled, available and ready. */
  lemma ReplicaSetCurrent(o: Object, now: int, conds: seq<Basic>)
    requires Plain(o, conds) && (IsKind(o, "apps", "ReplicaSet") || IsKind(o, "extensions", "ReplicaSet"))
    ensures var want := Num(o, ".spec.replicas", 1);
      CurrentIff(Compute(o, now),
        && !Has(conds, "ReplicaFailure", "True") && Num(o, ".status.replicas", 0) <= want
        && Num(o, ".status.fullyLabeledReplicas", 0) >= want && Num(o, ".status.availableReplicas", 0) >= want
        && Num(o, ".status.readyReplicas", 0) >= want)
  {
    ReplicaSetIs(o, now, conds);
    assert Has(conds, "ReplicaFailure", "True") <==> exists i :: 0 <= i < |conds| && IsTrue(conds[i], "ReplicaFailure");
    hide Plain, Compute, Has;
  }

  lemma DeploymentKind()
    ensures LegacyKind("apps", "Deployment") == Deployment
  {
    assert "apps" + "/" + "Deployment" == "apps/Deployment";
  }

  lemma OldDeploymentKind()
    ensures LegacyKind("extensions", "Deployment") == Deployment
  {
    assert "extensions" + "/" + "Deployment" == "extensions/Deployment";
  }

  lemma DeploymentIs(o: Object, now: int, conds: seq<Basic>)
    requires Plain(o, conds) && (IsKind(o, "apps", "Deployment") || IsKind(o, "extensions", "Deployment"))
    ensures Compute(o, now) == Ok(DeploymentStatus(o.meta, conds))
  {
    hide LegacyKind, Plain, Compute, DeploymentStatus;
    PlainComputes(o, now, conds);
    DeploymentKind();
    OldDeploymentKind();
  }

  /** Some condition says that the rollout took too long. */
  ghost predicate Overdue(conds: seq<Basic>) {
    exists i :: 0 <= i < |conds| && conds[i].kind == "Progressing" && conds[i].reason == "ProgressDeadlineExceeded"
  }

  ghost predicate RolledOut(conds: seq<Basic>) {
    exists i :: 0 <= i < |conds| && conds[i].kind == "Progressing" && conds[i].reason == "NewReplicaSetAvailable" && conds[i].status == "True"
  }

  lemma {:induction false} ScanMeans(conds: seq<Basic>, start: bool)
    ensures var scan := DeploymentScan(conds, start);
      && (scan.Exceeded? <==> Overdue(conds))
      && (!scan.Exceeded? ==> (scan.progressing <==> start || RolledOut(conds)) && (scan.available <==> Has(conds, "Available", "True")))
  {
    if conds != [] {
      var front, c := conds[..|conds| - 1], conds[|conds| - 1];
      ScanMeans(front, start);
      assert conds == front + [c];
      OverdueSnoc(front, c);
      RolledOutSnoc(front, c);
      HasSnoc(front, c, "Available", "True");
      DistinctNames();
      hide Overdue, RolledOut, Has;
    }
  }

  lemma DistinctNames()
    ensures "Progressing" != "Available" && "NewReplicaSetAvailable" != "ProgressDeadlineExceeded"
  {
    assert |"Progressing"| != |"Available"| && "NewReplicaSetAvailable"[0] != "ProgressDeadlineExceeded"[0];
  }

  lemma OverdueSnoc(front: seq<Basic>, c: Basic)
    ensures Overdue(front + [c]) <==> Overdue(front) || (c.kind == "Progressing" && c.reason == "ProgressDeadlineExceeded")
  {
    var conds := front + [c];
    assert conds[|front|] == c;
    if Overdue(front) {
      var i :| 0 <= i < |front| && front[i].kind == "Progressing" && front[i].reason == "ProgressDeadlineExceeded";
      assert conds[i] == front[i];
    }
  }

  lemma RolledOutSnoc(front: seq<Basic>, c: Basic)
    ensures RolledOut(front + [c]) <==>
      RolledOut(front) || (c.kind == "Progressing" && c.reason == "NewReplicaSetAvailable" && c.status == "True")
  {
    var conds := front + [c];
    assert conds[|front|] == c;
    if RolledOut(front) {
      var i :| 0 <= i < |front| && front[i].kind == "Progressing" && front[i].reason == "NewReplicaSetAvailable" && front[i].status == "True";
      assert conds[i] == front[i];
    }
  }

  lemma HasSnoc(front: seq<Basic>, c: Basic, kind: string, status: string)
    ensures Has(front + [c], kind, status) <==> Has(front, kind, status) || (c.kind == kind && c.status == status)
  {
    var conds := front + [c];
    assert conds[|front|] == c;
    if Has(front, kind, status) {
      var i :| 0 <= i < |front| && front[i].kind == kind && front[i].status == status;
      assert conds[i] == front[i];
    }
  }

  /** A deployment has failed exactly when some condition reports an exceeded deadline.  Otherwise it is current exactly when
      it has the replicas it should have, updated, available and ready, and it is available and progressing, which
      without a deadline it always is. */
  lemma DeploymentCurrent(o: Object, now: int, conds: seq<Basic>)
    requires Plain(o, conds) && (IsKind(o, "apps", "Deployment") || IsKind(o, "extensions", "Deployment"))
    ensures Compute(o, now).Ok?
    ensures Compute(o, now).value.status == Failed <==> Overdue(conds)
    ensures var want, updated := Num(o, ".spec.replicas", 1), Num(o, ".status.updatedReplicas", 0);
      !Overdue(conds) ==> CurrentIff(Compute(o, now),
        && Num(o, ".status.replicas", 0) == want && updated >= want
        && Num(o, ".status.availableReplicas", 0) >= updated && Num(o, ".status.readyReplicas", 0) >= want
        && Has(conds, "Available", "True")
        && (RolledOut(conds) || Num(o, ".spec.progressDeadlineSeconds", 2147483647) == 2147483647))
  {
    DeploymentIs(o, now, conds);
    ScanMeans(conds, IntField(o.meta, ".spec.progressDeadlineSeconds", MAX_INT32) == MAX_INT32);
    hide Plain, Compute, Overdue, RolledOut, Has, DeploymentScan;
  }

  // ---------- Kinds decided by the first telling condition ----------

  /** The condition settles a job: complete, failed, or suspended when the job is meant to be. */
  predicate JobTold(c: Basic, suspend: bool) {
    c.status == "True" && (c.kind == "Complete" || c.kind == "Failed" || (c.kind == "Suspended" && suspend))
  }

  ghost predicate FirstJobTold(conds: seq<Basic>, suspend: bool, k: int) {
    0 <= k < |conds| && JobTold(conds[k], suspend) && forall i :: 0 <= i < k ==> !JobTold(conds[i], suspend)
  }

  ghost predicate NoJobTold(conds: seq<Basic>, suspend: bool) {
    forall i :: 0 <= i < |conds| ==> !JobTold(conds[i], suspend)
  }

  lemma {:induction false} JobVerdictAt(conds: seq<Basic>, suspend: bool, k: nat)
    requires FirstJobTold(conds, suspend, k)
    ensures JobVerdict(conds, suspend).Some?
    ensures JobVerdict(conds, suspend).value.status == if conds[k].kind == "Failed" then Failed else Current
  {
    if k > 0 {
      assert !JobTold(conds[0], suspend);
      assert conds[1..][k - 1] == conds[k];
      assert forall i :: 0 <= i < k - 1 ==> conds[1..][i] == conds[i + 1];
      JobVerdictAt(conds[1..], suspend, k - 1);
    } else {
      assert |"Complete"| != |"Failed"| && |"Suspended"| != |"Failed"|;
    }
  }

  lemma {:induction false} JobVerdictNone(conds: seq<Basic>, suspend: bool)
    requires NoJobTold(conds, suspend)
    ensures JobVerdict(conds, suspend) == None
  {
    if conds != [] {
      assert !JobTold(conds[0], suspend);
      forall i | 0 <= i < |conds| - 1 ensures !JobTold(conds[1..][i], suspend) {
        assert !JobTold(conds[i + 1], suspend);
      }
      JobVerdictNone(conds[1..], suspend);
    }
  }

  lemma JobKind()
    ensures LegacyKind("batch", "Job") == Legacy.Job
  {
    assert "batch" + "/" + "Job" == "batch/Job";
  }

  lemma JobIs(o: Object, now: int, conds: seq<Basic>)
    requires Plain(o, conds) && IsKind(o, "batch", "Job")
    ensures Compute(o, now) == Ok(JobStatus(o.meta, conds))
  {
    hide LegacyKind, Plain, Compute, JobStatus;
    PlainComputes(o, now, conds);
    JobKind();
  }

  predicate Suspends(o: Object) {
    ".spec.suspend" in o.meta.bools && o.meta.bools[".spec.suspend"]
  }

  /** The first true condition that says Complete, Failed or, for a job meant to be suspended, Suspended decides: only Failed
      is a failure. */
  lemma JobSettled(o: Object, now: int, conds: seq<Basic>, k: nat)
    requires Plain(o, conds) && IsKind(o, "batch", "Job") && FirstJobTold(conds, Suspends(o), k)
    ensures Compute(o, now).Ok? && Compute(o, now).value.status == if conds[k].kind == "Failed" then Failed else Current
  {
    JobIs(o, now, conds);
    JobVerdictAt(conds, Suspends(o), k);
    hide Plain, Compute, FirstJobTold, JobVerdict;
  }

  /** Without one a job is current once it has a start time, and in progress before. */
  lemma JobUnsettled(o: Object, now: int, conds: seq<Basic>)
    requires Plain(o, conds) && IsKind(o, "batch", "Job") && NoJobTold(conds, Suspends(o))
    ensures CurrentIff(Compute(o, now), Str(o, ".status.startTime", "") != "")
  {
    JobIs(o, now, conds);
    JobVerdictNone(conds, Suspends(o));
    hide Plain, Compute, NoJobTold, JobVerdict;
  }

  /** The condition refuses a custom resource definition. */
  predicate Refused(c: Basic) {
    c.status == "False" && (c.kind == "NamesAccepted" || (c.kind == "Established" && c.reason != "Installing"))
  }

  predicate Established(c: Basic) {
    c.kind == "Established" && c.status == "True"
  }

  ghost predicate FirstCRDTold(conds: seq<Basic>, k: int) {
    && 0 <= k < |conds| && (Refused(conds[k]) || Established(conds[k]))
    && forall i :: 0 <= i < k ==> !Refused(conds[i]) && !Established(conds[i])
  }

  ghost predicate NoCRDTold(conds: seq<Basic>) {
    forall i :: 0 <= i < |conds| ==> !Refused(conds[i]) && !Established(conds[i])
  }

  lemma {:induction false} CRDVerdictAt(conds: seq<Basic>, k: nat)
    requires FirstCRDTold(conds, k)
    ensures CRDVerdict(conds).Some? && CRDVerdict(conds).value.status == if Established(conds[k]) then Current else Failed
  {
    if k > 0 {
      assert !Refused(conds[0]) && !Established(conds[0]);
      assert conds[1..][k - 1] == conds[k];
      assert forall i :: 0 <= i < k - 1 ==> conds[1..][i] == conds[i + 1];
      CRDVerdictAt(conds[1..], k - 1);
    } else {
      assert |"True"| != |"False"| && |"NamesAccepted"| != |"Established"|;
    }
  }

  lemma {:induction false} CRDVerdictNone(conds: seq<Basic>)
    requires NoCRDTold(conds)
    ensures CRDVerdict(conds) == None
  {
    if conds != [] {
      assert !Refused(conds[0]) && !Established(conds[0]);
      forall i | 0 <= i < |conds| - 1 ensures !Refused(conds[1..][i]) && !Established(conds[1..][i]) {
        assert !Refused(conds[i + 1]) && !Established(conds[i + 1]);
      }
      CRDVerdictNone(conds[1..]);
    }
  }

  lemma CRDText()
    ensures "apiextensions.k8s.io/CustomResourceDefinition" == "apiextensions.k8s.io" + "/" + "CustomResourceDefinition"
  {
    var s := "apiextensions.k8s.io/CustomResourceDefinition";
    assert s[..20] == "apiextensions.k8s.io";
    assert s[21..] == "CustomResourceDefinition";
    assert s == s[..20] + [s[20]] + s[21..];
  }

  lemma CRDKind()
    ensures LegacyKind("apiextensions.k8s.io", "CustomResourceDefinition") == CRD
  {
    CRDText();
  }

  lemma CRDIs(o: Object, now: int, conds: seq<Basic>)
    requires Plain(o, conds) && IsKind(o, "apiextensions.k8s.io", "CustomResourceDefinition")
    ensures Compute(o, now) == Ok(CRDStatus(conds))
  {
    hide LegacyKind, Plain, Compute, CRDStatus;
    PlainComputes(o, now, conds);
    CRDKind();
  }

  /** The first condition that refuses the names, says that the definition is not established (other than that it is
      being installed), or says that it is established decides; until there is one the definition is in progress. */
  lemma CRDSettled(o: Object, now: int, conds: seq<Basic>, k: nat)
    requires Plain(o, conds) && IsKind(o, "apiextensions.k8s.io", "CustomResourceDefinition") && FirstCRDTold(conds, k)
    ensures Compute(o, now).Ok? && Compute(o, now).value.status == if Established(conds[k]) then Current else Failed
  {
    CRDIs(o, now, conds);
    CRDVerdictAt(conds, k);
    hide Plain, Compute, FirstCRDTold, CRDVerdict;
  }

  lemma CRDUnsettled(o: Object, now: int, conds: seq<Basic>)
    requires Plain(o, conds) && IsKind(o, "apiextensions.k8s.io", "CustomResourceDefinition") && NoCRDTold(conds)
    ensures CurrentIff(Compute(o, now), false)
  {
    CRDIs(o, now, conds);
    CRDVerdictNone(conds);
    hide Plain, Compute, NoCRDTold, CRDVerdict;
  }

  // ---------- Pods ----------

  lemma PodIs(o: Object, now: int, conds: seq<Basic>)
    requires Plain(o, conds) && IsKind(o, "", "Pod")
    ensures Compute(o, now) == PodStatus(o.meta, conds, now)
  {
    PlainComputes(o, now, conds);
    hide Plain, Compute, PodStatus;
  }

  /** A named container waits to be restarted after crashing. */
  ghost predicate SomeCrashLooping(m: Meta) {
    m.containers.Containers? &&
    exists i :: (0 <= i < |m.containers.list|
      && m.containers.list[i].name.Some? && m.containers.list[i].waitingReason == Some("CrashLoopBackOff"))
  }

  predicate Loops(c: Container, name: string) {
    c.name == Some(name) && c.waitingReason == Some("CrashLoopBackOff")
  }

  /** The containers listed are exactly the named ones that wait to be restarted after crashing. */
  lemma {:induction false} CrashLoopingExactly(list: seq<Container>, name: string)
    ensures name in CrashLooping(list) <==> exists i :: 0 <= i < |list| && Loops(list[i], name)
  {
    if list != [] {
      var front, c := list[..|list| - 1], list[|list| - 1];
      CrashLoopingExactly(front, name);
      assert list == front + [c];
      if name in CrashLooping(front) {
        var i :| 0 <= i < |front| && Loops(front[i], name);
        assert Loops(list[i], name);
      }
      if i :| 0 <= i < |list| && Loops(list[i], name) {
        assert i < |front| ==> Loops(front[i], name);
      }
      assert Loops(c, name) ==> Loops(list[|front|], name);
      hide Loops;
    }
  }

  lemma CrashLoopingIff(list: seq<Container>)
    ensures CrashLooping(list) != [] <==>
      exists i :: 0 <= i < |list| && list[i].name.Some? && list[i].waitingReason == Some("CrashLoopBackOff")
  {
    hide CrashLooping;
    if CrashLooping(list) != [] {
      CrashLoopingExactly(list, CrashLooping(list)[0]);
    }
    if i :| 0 <= i < |list| && list[i].name.Some? && list[i].waitingReason == Some("CrashLoopBackOff") {
      CrashLoopingExactly(list, list[i].name.value);
      assert Loops(list[i], list[i].name.value);
    }
  }

  lemma {:induction false} FirstWithIff(conds: seq<Basic>, kind: string, status: string)
    ensures FirstWith(conds, kind, status).Some? <==> Has(conds, kind, status)
    ensures forall k :: 0 <= k < |conds| ==>
      conds[k].kind == kind && conds[k].status == status && !Has(conds[..k], kind, status) ==>
      FirstWith(conds, kind, status) == Some(conds[k])
  {
    if conds != [] {
      FirstWithIff(conds[1..], kind, status);
      assert conds == [conds[0]] + conds[1..];
      HasCons(conds[0], conds[1..], kind, status);
      if !(conds[0].kind == kind && conds[0].status == status) {
        forall k | 0 <= k < |conds| && conds[k].kind == kind && conds[k].status == status && !Has(conds[..k], kind, status)
          ensures FirstWith(conds, kind, status) == Some(conds[k])
        {
          assert conds[1..][k - 1] == conds[k];
          assert conds[..k] == [conds[0]] + conds[1..][..k - 1];
          HasCons(conds[0], conds[1..][..k - 1], kind, status);
        }
      } else {
        forall k | 0 < k < |conds| ensures Has(conds[..k], kind, status) {
          assert conds[..k][0] == conds[0];
        }
      }
    }
  }

  lemma HasCons(c: Basic, rest: seq<Basic>, kind: string, status: string)
    ensures Has([c] + rest, kind, status) <==> (c.kind == kind && c.status == status) || Has(rest, kind, status)
  {
    var conds := [c] + rest;
    assert conds[0] == c;
    if Has(rest, kind, status) {
      var i :| 0 <= i < |rest| && rest[i].kind == kind && rest[i].status == status;
      assert conds[i + 1] == rest[i];
    }
    if Has(conds, kind, status) {
      var i :| 0 <= i < |conds| && conds[i].kind == kind && conds[i].status == status;
      assert i > 0 ==> rest[i - 1] == conds[i];
    }
  }

  lemma PhasesDiffer()
    ensures "Running" != "Succeeded" && "Running" != "Failed" && "Running" != ""
    ensures "Pending" != "Succeeded" && "Pending" != "Failed" && "Pending" != "Running" && "Pending" != ""
  {
    assert |"Running"| != |"Succeeded"| && |"Running"| != |"Failed"| && "Pending"[0] != "Running"[0];
  }

  /** A pod that has ended is current, however it ended. */
  lemma PodEnded(o: Object, now: int, conds: seq<Basic>)
    requires Plain(o, conds) && IsKind(o, "", "Pod")
    requires Str(o, ".status.phase", "") == "Succeeded" || Str(o, ".status.phase", "") == "Failed"
    ensures CurrentIff(Compute(o, now), true)
  {
    PodIs(o, now, conds);
    hide Plain, Compute, FirstWith, CrashLooping;
  }

  /** A running pod is current exactly when it is Ready; otherwise it has failed exactly when a container is in a crash loop. */
  lemma PodRunning(o: Object, now: int, conds: seq<Basic>)
    requires Plain(o, conds) && IsKind(o, "", "Pod") && Str(o, ".status.phase", "") == "Running"
    ensures Compute(o, now) == Err(BadContainers) <==> !Has(conds, "Ready", "True") && o.meta.containers.NotContainers?
    ensures Compute(o, now).Err? ==> Compute(o, now).error == BadContainers
    ensures Compute(o, now).Ok? ==> (Compute(o, now).value.status == Current <==> Has(conds, "Ready", "True"))
    ensures Compute(o, now).Ok? ==>
      (Compute(o, now).value.status == Failed <==> !Has(conds, "Ready", "True") && SomeCrashLooping(o.meta))
    ensures Compute(o, now).Ok? ==> Compute(o, now).value.status != Terminating
  {
    PodIs(o, now, conds);
    PhasesDiffer();
    FirstWithIff(conds, "Ready", "True");
    if o.meta.containers.Containers? {
      CrashLoopingIff(o.meta.containers.list);
    }
    hide Plain, Compute, FirstWith, CrashLooping, Has;
  }

  /** The first condition saying that the pod is not scheduled calls it unschedulable. */
  ghost predicate Unschedulable(conds: seq<Basic>) {
    exists k :: 0 <= k < |conds| && conds[k].kind == "PodScheduled" && conds[k].status == "False"
      && conds[k].reason == "Unschedulable" && !Has(conds[..k], "PodScheduled", "False")
  }

  lemma {:induction false} FirstWithAt(conds: seq<Basic>, kind: string, status: string) returns (k: nat)
    requires Has(conds, kind, status)
    ensures k < |conds| && conds[k].kind == kind && conds[k].status == status && !Has(conds[..k], kind, status)
  {
    if conds[0].kind == kind && conds[0].status == status {
      k := 0;
    } else {
      assert conds == [conds[0]] + conds[1..];
      HasCons(conds[0], conds[1..], kind, status);
      var j := FirstWithAt(conds[1..], kind, status);
      k := j + 1;
      assert conds[..k] == [conds[0]] + conds[1..][..j];
      HasCons(conds[0], conds[1..][..j], kind, status);
    }
  }

  lemma UnschedulableIff(conds: seq<Basic>)
    ensures var c := FirstWith(conds, "PodScheduled", "False");
      Unschedulable(conds) <==> c.Some? && c.value.reason == "Unschedulable"
  {
    FirstWithIff(conds, "PodScheduled", "False");
    if Has(conds, "PodScheduled", "False") {
      var k := FirstWithAt(conds, "PodScheduled", "False");
    }
    hide FirstWith, Has;
  }

  /** A pending pod has failed exactly when it is reported unschedulable 15 seconds or more after its creation;
      otherwise it is in progress. */
  lemma PodPending(o: Object, now: int, conds: seq<Basic>)
    requires Plain(o, conds) && IsKind(o, "", "Pod") && Str(o, ".status.phase", "") == "Pending"
    ensures Compute(o, now).Ok?
    ensures Compute(o, now).value.status == if Unschedulable(conds) && now >= o.meta.created + 15 then Failed else InProgress
  {
    PodIs(o, now, conds);
    PhasesDiffer();
    UnschedulableIff(conds);
    hide Plain, Compute, FirstWith, CrashLooping, Unschedulable;
  }

  /** A pod without a phase is in progress; any other phase is an error. */
  lemma PodOtherwise(o: Object, now: int, conds: seq<Basic>)
    requires Plain(o, conds) && IsKind(o, "", "Pod")
    requires var phase := Str(o, ".status.phase", "");
      phase != "Succeeded" && phase != "Failed" && phase != "Running" && phase != "Pending"
    ensures Str(o, ".status.phase", "") == "" ==> CurrentIff(Compute(o, now), false)
    ensures Str(o, ".status.phase", "") != "" ==> Compute(o, now) == Err(UnknownPhase)
  {
    PodIs(o, now, conds);
    hide Plain, Compute, FirstWith, CrashLooping;
  }

  // ---------- All other kinds ----------

  /** The kinds with rules of their own. */
  predicate BuiltIn(group: string, kind: string) {
    || (group == "" && (kind == "Service" || kind == "Pod" || kind == "Secret" || kind == "ConfigMap" || kind == "PersistentVolumeClaim"))
    || (group == "batch" && (kind == "CronJob" || kind == "Job"))
    || (group == "apps" && (kind == "StatefulSet" || kind == "DaemonSet" || kind == "Deployment" || kind == "ReplicaSet"))
    || (group == "extensions" && (kind == "DaemonSet" || kind == "Deployment" || kind == "ReplicaSet"))
    || (group == "policy" && kind == "PodDisruptionBudget")
    || (group == "apiextensions.k8s.io" && kind == "CustomResourceDefinition")
  }

  /** The condition says whether the resource is ready. */
  predicate ReadyTold(c: Basic) {
    c.kind == "Ready" && (c.status == "True" || c.status == "False" || c.status == "Unknown")
  }

  ghost predicate FirstReadyTold(conds: seq<Basic>, k: int) {
    0 <= k < |conds| && ReadyTold(conds[k]) && forall i :: 0 <= i < k ==> !ReadyTold(conds[i])
  }

  ghost predicate NoReadyTold(conds: seq<Basic>) {
    forall i :: 0 <= i < |conds| ==> !ReadyTold(conds[i])
  }

  lemma {:induction false} ReadyVerdictAt(conds: seq<Basic>, k: nat)
    requires FirstReadyTold(conds, k)
    ensures ReadyVerdict(conds).Some?
    ensures ReadyVerdict(conds).value.status == if conds[k].status == "True" then Current else InProgress
    ensures conds[k].status != "True" ==> ReadyVerdict(conds).value.conditions == [Condition(Reconciling, conds[k].reason, conds[k].message)]
  {
    if k > 0 {
      assert !ReadyTold(conds[0]);
      assert conds[1..][k - 1] == conds[k];
      assert forall i :: 0 <= i < k - 1 ==> conds[1..][i] == conds[i + 1];
      ReadyVerdictAt(conds[1..], k - 1);
    }
  }

  lemma {:induction false} ReadyVerdictNone(conds: seq<Basic>)
    requires NoReadyTold(conds)
    ensures ReadyVerdict(conds) == None
  {
    if conds != [] {
      assert !ReadyTold(conds[0]);
      forall i | 0 <= i < |conds| - 1 ensures !ReadyTold(conds[1..][i]) {
        assert !ReadyTold(conds[i + 1]);
      }
      ReadyVerdictNone(conds[1..]);
    }
  }

  lemma SlashNotBefore(group: string, kind: string, g: string, k: string)
    requires '/' !in kind && group + "/" + kind == g + "/" + k
    ensures |g| <= |group|
  {
    var s := group + "/" + kind;
    assert (g + "/" + k)[|g|] == '/';
    assert forall i :: |group| < i < |s| ==> s[i] == kind[i - |group| - 1];
  }

  /** A text has one way to be cut at its last slash. */
  lemma CutAtSlash(group: string, kind: string, g: string, k: string)
    requires '/' !in kind && '/' !in k && group + "/" + kind == g + "/" + k
    ensures group == g && kind == k
  {
    SlashNotBefore(group, kind, g, k);
    SlashNotBefore(g, k, group, kind);
    var s := group + "/" + kind;
    assert s[..|group|] == group && s[|group| + 1..] == kind && (g + "/" + k)[..|g|] == g && (g + "/" + k)[|g| + 1..] == k;
  }

  function Key(group: string, kind: string): string {
    if group == "" then kind else group + "/" + kind
  }

  /** The kind's text form is that of a kind with rules of its own. */
  ghost predicate ReadsBuiltIn(group: string, kind: string) {
    exists g, k :: BuiltIn(g, k) && Key(g, k) == Key(group, kind)
  }

  lemma KeyText(group: string, kind: string)
    ensures group == "" ==> Key(group, kind) == kind
    ensures group != "" ==> Key(group, kind) == group + "/" + kind && '/' in Key(group, kind)
  {
    assert group != "" ==> Key(group, kind)[|group|] == '/';
  }

  lemma KeyCuts(group: string, kind: string, g: string, k: string)
    requires '/' !in kind && '/' !in k && Key(group, kind) == Key(g, k)
    ensures group == g && kind == k
  {
    KeyText(group, kind);
    KeyText(g, k);
    hide Key;
    if group != "" && g != "" {
      CutAtSlash(group, kind, g, k);
    }
  }

  lemma BuiltInNoSlash(group: string, kind: string)
    requires BuiltIn(group, kind)
    ensures '/' !in kind
  {
  }

  /** A kind without a slash reads as one of them exactly when it is one. */
  lemma ReadsBuiltInIff(group: string, kind: string)
    requires '/' !in kind
    ensures ReadsBuiltIn(group, kind) <==> BuiltIn(group, kind)
  {
    hide BuiltIn, Key;
    if g, k :| BuiltIn(g, k) && Key(g, k) == Key(group, kind) {
      BuiltInNoSlash(g, k);
      KeyCuts(group, kind, g, k);
    }
  }

  lemma NotText(group: string, kind: string, g: string, k: string, text: string)
    requires !ReadsBuiltIn(group, kind) && BuiltIn(g, k) && text == if g == "" then k else g + "/" + k
    ensures Key(group, kind) != text
  {
    hide BuiltIn;
  }

  lemma NotCore(group: string, kind: string)
    requires !ReadsBuiltIn(group, kind)
    ensures Key(group, kind) != "Service"
    ensures Key(group, kind) != "Pod"
    ensures Key(group, kind) != "Secret"
    ensures Key(group, kind) != "ConfigMap"
    ensures Key(group, kind) != "PersistentVolumeClaim"
  {
    hide Key;
    NotText(group, kind, "", "Service", "Service");
    NotText(group, kind, "", "Pod", "Pod");
    NotText(group, kind, "", "Secret", "Secret");
    NotText(group, kind, "", "ConfigMap", "ConfigMap");
    NotText(group, kind, "", "PersistentVolumeClaim", "PersistentVolumeClaim");
  }

  lemma NotBatch(group: string, kind: string)
    requires !ReadsBuiltIn(group, kind)
    ensures Key(group, kind) != "batch/CronJob"
    ensures Key(group, kind) != "batch/Job"
    ensures Key(group, kind) != "policy/PodDisruptionBudget"
  {
    hide Key;
    NotText(group, kind, "batch", "CronJob", "batch/CronJob");
    NotText(group, kind, "batch", "Job", "batch/Job");
    NotText(group, kind, "policy", "PodDisruptionBudget", "policy/PodDisruptionBudget");
  }

  lemma NotApps(group: string, kind: string)
    requires !ReadsBuiltIn(group, kind)
    ensures Key(group, kind) != "apps/StatefulSet"
    ensures Key(group, kind) != "apps/DaemonSet"
    ensures Key(group, kind) != "apps/Deployment"
    ensures Key(group, kind) != "apps/ReplicaSet"
  {
    hide Key;
    NotText(group, kind, "apps", "StatefulSet", "apps/StatefulSet");
    NotText(group, kind, "apps", "DaemonSet", "apps/DaemonSet");
    NotText(group, kind, "apps", "Deployment", "apps/Deployment");
    NotText(group, kind, "apps", "ReplicaSet", "apps/ReplicaSet");
  }

  lemma NotExtensions(group: string, kind: string)
    requires !ReadsBuiltIn(group, kind)
    ensures Key(group, kind) != "extensions/DaemonSet"
    ensures Key(group, kind) != "extensions/Deployment"
    ensures Key(group, kind) != "extensions/ReplicaSet"
  {
    hide Key;
    NotText(group, kind, "extensions", "DaemonSet", "extensions/DaemonSet");
    NotText(group, kind, "extensions", "Deployment", "extensions/Deployment");
    NotText(group, kind, "extensions", "ReplicaSet", "extensions/ReplicaSet");
  }

  lemma NotCRD(group: string, kind: string)
    requires !ReadsBuiltIn(group, kind)
    ensures Key(group, kind) != "apiextensions.k8s.io/CustomResourceDefinition"
  {
    hide Key;
    CRDText();
    NotText(group, kind, "apiextensions.k8s.io", "CustomResourceDefinition", "apiextensions.k8s.io/CustomResourceDefinition");
  }

  lemma NotBuiltIn(group: string, kind: string)
    requires !ReadsBuiltIn(group, kind)
    ensures LegacyKind(group, kind) == NotLegacy
  {
    hide ReadsBuiltIn, BuiltIn;
    NotCore(group, kind);
    NotBatch(group, kind);
    NotApps(group, kind);
    NotExtensions(group, kind);
    NotCRD(group, kind);
  }

  /** A kind that does not read as one with rules of its own is decided by its first Ready condition, and current without one. */
  lemma OtherReady(o: Object, now: int, conds: seq<Basic>, k: nat)
    requires Plain(o, conds) && !ReadsBuiltIn(o.meta.group, o.meta.kind) && FirstReadyTold(conds, k)
    ensures CurrentIff(Compute(o, now), conds[k].status == "True")
    ensures conds[k].status != "True" ==> Compute(o, now).value.conditions == [Condition(Reconciling, conds[k].reason, conds[k].message)]
  {
    PlainComputes(o, now, conds);
    NotBuiltIn(o.meta.group, o.meta.kind);
    ReadyVerdictAt(conds, k);
    hide Plain, Compute, LegacyKind, ReadsBuiltIn, FirstReadyTold, ReadyVerdict, LegacyStatus;
  }

  lemma OtherCurrent(o: Object, now: int, conds: seq<Basic>)
    requires Plain(o, conds) && !ReadsBuiltIn(o.meta.group, o.meta.kind) && NoReadyTold(conds)
    ensures CurrentIff(Compute(o, now), true)
  {
    PlainComputes(o, now, conds);
    NotBuiltIn(o.meta.group, o.meta.kind);
    ReadyVerdictNone(conds);
    hide Plain, Compute, LegacyKind, ReadsBuiltIn, NoReadyTold, ReadyVerdict, LegacyStatus;
  }
}
