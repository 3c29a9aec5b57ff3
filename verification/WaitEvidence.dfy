/** Every reconcile status a run records rests on something the run has seen. */
module WaitEvidence {
  import opened Base
  import opened Records
  import opened Objects
  import opened DependencyFilter
  import opened Actuate
  import opened Engine
  import opened PlanSpec
  import opened RunInvariant
  import opened WaitOutcomes
  import RunSafety
  import WaitSpec
  import WaitProofs

  /** The watcher reported rs for id at some time. */
  ghost predicate Reported(labels: seq<Label>, id: ObjMetadata, rs: ResourceStatus) {
    StatusEvent(id, rs) in labels
  }

  /** What a reconcile status rests on.  Success: a report of the awaited status, at the recorded generation or
      later, or, after a delete, of another object under the name.  Failure: a reported failure, or, after an apply,
      another object under the name.  Timeout: a deadline passed.  Skipped: the actuation failed or was skipped. */
  ghost predicate Backed(r: Record, labels: seq<Label>, id: ObjMetadata) {
    match r.reconcile
    case ReconcileSucceeded => exists rs :: Reported(labels, id, rs) && ShowsDone(r, rs)
    case ReconcileFailed => exists rs :: Reported(labels, id, rs) && ShowsFailed(r, rs)
    case ReconcileTimeout => Expire in labels
    case ReconcileSkipped => r.actuation == Skipped || r.actuation == Failed
    case ReconcilePending => true
    case UnknownReconcile => false
  }

  predicate ShowsDone(r: Record, rs: ResourceStatus) {
    if r.strategy == ApplyStrategy then rs.status == CurrentStatus && SeenGeneration(rs) >= r.generation
    else (rs.status == NotFoundStatus && SeenGeneration(rs) >= r.generation) || Differs(r, rs)
  }

  predicate ShowsFailed(r: Record, rs: ResourceStatus) {
    rs.status == FailedStatus || (r.strategy == ApplyStrategy && Differs(r, rs))
  }

  function SeenGeneration(rs: ResourceStatus): int {
    if rs.resource.Some? then rs.resource.value.generation else 0
  }

  /** The cache holds nothing but reported statuses. */
  ghost predicate CacheSeen(cache: Cache, labels: seq<Label>) {
    forall id :: id in cache ==> Reported(labels, id, cache[id])
  }

  ghost predicate AllBacked(recs: RecordMap, labels: seq<Label>) {
    forall id :: id in recs ==> Backed(recs[id], labels, id)
  }

  ghost predicate Evidence(s: State, labels: seq<Label>) {
    && CacheSeen(s.cache, labels)
    && AllBacked(s.recs, labels)
    && (s.phase.Running? && s.phase.ts.Waiting? && s.phase.ts.ctx == WaitSpec.Expired ==> Expire in labels)
  }

  /** What was seen stays seen, and only the reconcile status, UID, generation and strategy matter. */
  lemma BackedLater(r: Record, labels: seq<Label>, l: Label, id: ObjMetadata)
    requires Backed(r, labels, id)
    ensures Backed(r, labels + [l], id)
  {
    forall rs | Reported(labels, id, rs) ensures Reported(labels + [l], id, rs) {}
  }

  /** The strategy under which a wait task's ids were actuated. */
  lemma AwaitedStrategy(p: Plan, recs: RecordMap, i: nat, id: ObjMetadata)
    requires WaitsFollow(p) && SlotsRegistered(p) && Registered(p, recs) && i < |p.tasks| && p.tasks[i].Wait?
    requires id in p.tasks[i].ids
    ensures id in recs && recs[id].strategy == if p.tasks[i].cond == AllCurrent then ApplyStrategy else DeleteStrategy
  {
    var m := WaitSlot(p, i, id);
    assert Slot(p, i - 1, m);
  }

  lemma ReachedBacks(r: Record, cache: Cache, labels: seq<Label>, cond: Condition, id: ObjMetadata)
    requires CacheSeen(cache, labels) && r.strategy == if cond == AllCurrent then ApplyStrategy else DeleteStrategy
    requires if Recreated(r, cache, id) then cond == AllNotFound else Reached(r, cache, cond, id)
    ensures Backed(r.(reconcile := ReconcileSucceeded), labels, id)
  {
    assert Reported(labels, id, cache[id]) && ShowsDone(r.(reconcile := ReconcileSucceeded), cache[id]);
  }

  lemma FailureBacks(r: Record, cache: Cache, labels: seq<Label>, cond: Condition, id: ObjMetadata)
    requires CacheSeen(cache, labels) && r.strategy == if cond == AllCurrent then ApplyStrategy else DeleteStrategy
    requires (Recreated(r, cache, id) && cond == AllCurrent) || (id in cache && cache[id].status == FailedStatus)
    ensures Backed(r.(reconcile := ReconcileFailed), labels, id)
  {
    assert Reported(labels, id, cache[id]) && ShowsFailed(r.(reconcile := ReconcileFailed), cache[id]);
  }

  // ---------- Starting a wait task ----------

  lemma StartBacks(p: Plan, s: State, labels: seq<Label>, i: nat, id: ObjMetadata)
    requires WaitsFollow(p) && SlotsRegistered(p) && Registered(p, s.recs) && CacheSeen(s.cache, labels)
    requires i < |p.tasks| && p.tasks[i].Wait? && id in p.tasks[i].ids
    ensures id in NextTask(p, s, i).recs && Backed(NextTask(p, s, i).recs[id], labels, id)
  {
    var cond := p.tasks[i].cond;
    AwaitedStrategy(p, s.recs, i, id);
    var w := WaitSpec.Wait(s.recs, [], [], s.waits, WaitSpec.Live);
    StartOutcome(w, cond, s.cache, p.tasks[i].ids, id);
    var r, v := s.recs[id], WaitSpec.Start(w, cond, s.cache, p.tasks[i].ids);
    assert NextTask(p, s, i).recs == v.recs;
    hide WaitSpec.Start, Recreated, Reached, NextTask, CacheSeen, Registered, SlotsRegistered, WaitsFollow;
    match v.recs[id].reconcile
    case ReconcileSucceeded => ReachedBacks(r, s.cache, labels, cond, id);
    case ReconcileFailed => FailureBacks(r, s.cache, labels, cond, id);
    case _ =>
  }

  lemma StartFrame(p: Plan, s: State, i: nat)
    ensures NextTask(p, s, i).cache == s.cache
    ensures NextTask(p, s, i).phase.Running? && NextTask(p, s, i).phase.ts.Waiting? ==>
      NextTask(p, s, i).phase.ts.ctx != WaitSpec.Expired
    ensures i >= |p.tasks| || !p.tasks[i].Wait? ==> NextTask(p, s, i).recs == s.recs
    ensures i < |p.tasks| && p.tasks[i].Wait? ==> WaitProofs.OnlyReconcile(s.recs, NextTask(p, s, i).recs, p.tasks[i].ids)
  {
    if i < |p.tasks| && p.tasks[i].Wait? {
      var w := WaitSpec.Wait(s.recs, [], [], s.waits, WaitSpec.Live);
      WaitProofs.StartAllFrame(w, p.tasks[i].cond, s.cache, p.tasks[i].ids);
    }
    hide AppliedUIDs, WaitProofs.OnlyReconcile;
  }

  lemma NextEvidence(p: Plan, s: State, labels: seq<Label>, i: nat)
    requires WellPlanned(p) && Registered(p, s.recs) && CacheSeen(s.cache, labels) && AllBacked(s.recs, labels)
    ensures Evidence(NextTask(p, s, i), labels)
  {
    StartFrame(p, s, i);
    var t := NextTask(p, s, i);
    assert WaitsFollow(p) && SlotsRegistered(p);
    hide NextTask, Backed, Registered, WellPlanned, WaitsFollow, SlotsRegistered;
    forall id | id in t.recs ensures Backed(t.recs[id], labels, id) {
      if i < |p.tasks| && p.tasks[i].Wait? && id in p.tasks[i].ids {
        StartBacks(p, s, labels, i, id);
      }
    }
  }

  // ---------- Status events ----------

  lemma UpdateBacks(r: Record, r': Record, pending: bool, failed: bool, cond: Condition, cache: Cache, labels: seq<Label>, id: ObjMetadata)
    requires CacheSeen(cache, labels) && Backed(r, labels, id)
    requires r.strategy == if cond == AllCurrent then ApplyStrategy else DeleteStrategy
    requires r' == r.(reconcile := r'.reconcile)
    requires r'.reconcile == (
      if pending then
        if Recreated(r, cache, id) then (if cond == AllNotFound then ReconcileSucceeded else ReconcileFailed)
        else if Reached(r, cache, cond, id) then ReconcileSucceeded
        else if id in cache && cache[id].status == FailedStatus then ReconcileFailed
        else r.reconcile
      else if PutAside(r, cond) then r.reconcile
      else if failed then
        if Reached(r, cache, cond, id) then ReconcileSucceeded
        else if id in cache && cache[id].status == FailedStatus then r.reconcile
        else ReconcilePending
      else if Reached(r, cache, cond, id) then r.reconcile
      else ReconcilePending)
    ensures Backed(r', labels, id)
  {
    if Reached(r, cache, cond, id) && (failed || !Recreated(r, cache, id)) {
      ReachedAloneBacks(r, cache, labels, cond, id);
    } else if Recreated(r, cache, id) && cond == AllNotFound {
      ReachedBacks(r, cache, labels, cond, id);
    } else if (Recreated(r, cache, id) && cond == AllCurrent) || (id in cache && cache[id].status == FailedStatus) {
      FailureBacks(r, cache, labels, cond, id);
    }
    hide Recreated, Reached, PutAside, CacheSeen;
  }

  lemma ReachedAloneBacks(r: Record, cache: Cache, labels: seq<Label>, cond: Condition, id: ObjMetadata)
    requires CacheSeen(cache, labels) && r.strategy == if cond == AllCurrent then ApplyStrategy else DeleteStrategy
    requires Reached(r, cache, cond, id)
    ensures Backed(r.(reconcile := ReconcileSucceeded), labels, id)
  {
    assert Reported(labels, id, cache[id]) && ShowsDone(r.(reconcile := ReconcileSucceeded), cache[id]);
  }

  lemma StatusEvidence(p: Plan, s: State, t: State, labels: seq<Label>, id: ObjMetadata, rs: ResourceStatus)
    requires WellPlanned(p) && Core(p, s) && Evidence(s, labels) && StepStatus(p, s, id, rs) == Some(t)
    ensures Evidence(t, labels + [StatusEvent(id, rs)])
  {
    var labels' := labels + [StatusEvent(id, rs)];
    EvidenceLater(s, labels, StatusEvent(id, rs));
    if s.abort.None? {
      CacheGrows(s.cache, labels, id, rs);
      StatusCacheIs(p, s, t, id, rs);
      if s.phase.Running? && p.tasks[s.phase.i].Wait? && id in p.tasks[s.phase.i].ids {
        HeededEvidence(p, s, t, labels', id, rs);
      } else {
        assert t == s.(cache := t.cache);
      }
    }
  }

  lemma StatusCacheIs(p: Plan, s: State, t: State, id: ObjMetadata, rs: ResourceStatus)
    requires s.abort.None? && StepStatus(p, s, id, rs) == Some(t)
    ensures t.cache == s.cache[id := rs]
  {
    hide WaitSpec.StatusUpdate;
  }

  lemma EvidenceLater(s: State, labels: seq<Label>, l: Label)
    requires Evidence(s, labels)
    ensures Evidence(s, labels + [l])
  {
    forall id | id in s.recs ensures Backed(s.recs[id], labels + [l], id) {
      BackedLater(s.recs[id], labels, l, id);
    }
    hide Backed;
  }

  lemma CacheGrows(cache: Cache, labels: seq<Label>, id: ObjMetadata, rs: ResourceStatus)
    requires CacheSeen(cache, labels)
    ensures CacheSeen(cache[id := rs], labels + [StatusEvent(id, rs)])
  {
    var labels' := labels + [StatusEvent(id, rs)];
    assert labels'[|labels|] == StatusEvent(id, rs);
  }

  /** An update that the current wait task heeds. */
  lemma HeededEvidence(p: Plan, s: State, t: State, labels: seq<Label>, id: ObjMetadata, rs: ResourceStatus)
    requires WellPlanned(p) && Core(p, s) && Evidence(s, labels) && StepStatus(p, s, id, rs) == Some(t) && s.abort.None?
    requires s.phase.Running? && p.tasks[s.phase.i].Wait? && id in p.tasks[s.phase.i].ids
    requires CacheSeen(t.cache, labels)
    ensures Evidence(t, labels)
  {
    var task, w := p.tasks[s.phase.i], WaitOf(s);
    HeededIs(p, s, t, id, rs);
    assert Registered(p, s.recs) && WaitsFollow(p) && SlotsRegistered(p) && WaitProofs.Lists(w, task.ids);
    AwaitedStrategy(p, s.recs, s.phase.i, id);
    hide WellPlanned, Core, StepStatus, Registered, WaitsFollow, SlotsRegistered, WaitSpec.StatusUpdate, WaitProofs.Lists;
    UpdateOutcome(w, task.ids, task.cond, t.cache, id);
    assert Backed(s.recs[id], labels, id);
    UpdateBacks(s.recs[id], t.recs[id], id in w.pending, id in w.failed, task.cond, t.cache, labels, id);
    hide Backed, Recreated, Reached, PutAside, CacheSeen;
  }

  lemma HeededIs(p: Plan, s: State, t: State, id: ObjMetadata, rs: ResourceStatus)
    requires Core(p, s) && StepStatus(p, s, id, rs) == Some(t) && s.abort.None?
    requires s.phase.Running? && p.tasks[s.phase.i].Wait? && id in p.tasks[s.phase.i].ids
    ensures s.phase.ts.Waiting? && t.phase.Running? && t.phase.ts.Waiting?
    ensures WaitProofs.Lists(WaitOf(s), p.tasks[s.phase.i].ids)
    ensures t.recs == WaitSpec.StatusUpdate(WaitOf(s), p.tasks[s.phase.i].ids, p.tasks[s.phase.i].cond, t.cache, id).recs
    ensures t.phase.ts.ctx == WaitSpec.Expired ==> s.phase.ts.ctx == WaitSpec.Expired
  {
    UpdateKeepsExpired(WaitOf(s), p.tasks[s.phase.i].ids, p.tasks[s.phase.i].cond, t.cache, id);
    hide WaitSpec.StatusUpdate;
  }

  lemma UpdateKeepsExpired(w: WaitSpec.Wait, ids: seq<ObjMetadata>, cond: Condition, cache: Cache, id: ObjMetadata)
    ensures WaitSpec.StatusUpdate(w, ids, cond, cache, id).ctx == WaitSpec.Expired ==> w.ctx == WaitSpec.Expired
  {
    hide ConditionMet, WaitSpec.ChangedUID, WaitSpec.SkippedBefore;
  }

  // ---------- The other labels ----------

  lemma GoroutineEvidence(p: Plan, s: State, t: State, labels: seq<Label>)
    requires Core(p, s) && Evidence(s, labels) && StepWaitGoroutine(p, s) == Some(t)
    ensures Evidence(t, labels)
  {
    if s.phase.ts.ctx == WaitSpec.Expired {
      WaitProofs.TimeoutAllFacts(WaitOf(s), s.phase.ts.pending);
    }
    hide Core;
    forall id | id in t.recs ensures Backed(t.recs[id], labels, id) {
      assert Backed(s.recs[id], labels, id);
    }
  }

  lemma ActuateEvidence(s: State, t: State, labels: seq<Label>, id: ObjMetadata, r: Record)
    requires Evidence(s, labels) && t.recs == s.recs[id := r] && r.reconcile == ReconcilePending
    requires t.cache == s.cache && t.phase.Running? && !t.phase.ts.Waiting?
    ensures Evidence(t, labels)
  {
  }

  lemma ApplyRecordPending(env: ApplyEnv, verdict: Verdict)
    ensures ApplyRecord(env, verdict).reconcile == ReconcilePending
  {
  }

  lemma PruneRecordPending(env: PruneEnv, verdict: Verdict, uid: string, uids: set<string>, dryRun: bool)
    ensures PruneOne(env, verdict, uid, uids, dryRun).record.reconcile == ReconcilePending
  {
  }

  lemma ApplyEvidence(p: Plan, s: State, t: State, labels: seq<Label>, env: ApplyEnv)
    requires Evidence(s, labels) && StepApply(p, s, env) == Some(t)
    ensures Evidence(t, labels)
  {
    var id := CurrentObject(p, s, ApplyStrategy).id;
    var verdict := FilterObject(p, s.recs, ApplyStrategy, id);
    ApplyRecordPending(env, verdict);
    hide ApplyRecord, FilterObject, Evidence;
    ActuateEvidence(s, t, labels, id, ApplyRecord(env, verdict));
  }

  lemma PruneEvidence(p: Plan, s: State, t: State, labels: seq<Label>, env: PruneEnv)
    requires Evidence(s, labels) && StepPrune(p, s, env) == Some(t)
    ensures Evidence(t, labels)
  {
    var obj := CurrentObject(p, s, DeleteStrategy);
    var verdict := FilterObject(p, s.recs, DeleteStrategy, obj.id);
    PruneRecordPending(env, verdict, obj.uid, s.phase.ts.currentUIDs, p.dryRun);
    hide PruneOne, FilterObject, Evidence;
    ActuateEvidence(s, t, labels, obj.id, PruneOne(env, verdict, obj.uid, s.phase.ts.currentUIDs, p.dryRun).record);
  }

  lemma QuietEvidence(p: Plan, s: State, l: Label, t: State, labels: seq<Label>)
    requires Evidence(s, labels) && Step(p, s, l) == Some(t) && (l.WatchError? || l.CtxDone? || l.InvStep? || l.Expire?)
    requires l.Expire? ==> Expire in labels
    ensures Evidence(t, labels)
  {
    hide FinalRefs, DestroySuccessful, CacheSeen, AllBacked;
  }

  lemma ResultEvidence(p: Plan, s: State, t: State, labels: seq<Label>)
    requires WellPlanned(p) && Registered(p, s.recs) && Evidence(s, labels) && StepResult(p, s) == Some(t)
    ensures Evidence(t, labels)
  {
    var s1 := s.(groups := s.groups + [Finished(s.phase.i)]);
    NextEvidence(p, s1, labels, s.phase.i + 1);
    hide WellPlanned, Registered, NextTask, CacheSeen, AllBacked;
  }

  lemma StepEvidence(p: Plan, s: State, l: Label, t: State, labels: seq<Label>)
    requires WellPlanned(p) && Core(p, s) && Evidence(s, labels) && Step(p, s, l) == Some(t)
    ensures Evidence(t, labels + [l])
  {
    var labels' := labels + [l];
    assert l in labels' by { assert labels'[|labels|] == l; }
    EvidenceLater(s, labels, l);
    assert Registered(p, s.recs);
    hide WellPlanned, Core, Registered, Evidence, StepStatus, StepApply, StepPrune, StepWaitGoroutine, StepResult, StepInv;
    hide StepAbort, StepExpire, NextTask;
    match l
    case Sync => NextEvidenceOf(p, s, labels', 0);
    case StatusEvent(id, rs) => StatusEvidence(p, s, t, labels, id, rs);
    case ApplyStep(env) => ApplyEvidence(p, s, t, labels', env);
    case PruneStep(env) => PruneEvidence(p, s, t, labels', env);
    case WaitGoroutine => GoroutineEvidence(p, s, t, labels');
    case TaskResult => ResultEvidence(p, s, t, labels');
    case _ => QuietEvidence(p, s, l, t, labels');
  }

  lemma NextEvidenceOf(p: Plan, s: State, labels: seq<Label>, i: nat)
    requires WellPlanned(p) && Registered(p, s.recs) && Evidence(s, labels)
    ensures Evidence(NextTask(p, s, i), labels)
  {
    NextEvidence(p, s, labels, i);
  }

  lemma {:induction false} ExecEvidence(p: Plan, stored: Option<set<ObjMetadata>>, labels: seq<Label>)
    requires WellPlanned(p) && Exec(p, Init(p, stored), labels).Some?
    ensures Evidence(Exec(p, Init(p, stored), labels).value, labels)
  {
    if labels == [] {
      InitEvidence(p, stored);
      assert Exec(p, Init(p, stored), labels).value == Init(p, stored);
    } else {
      var front, l := labels[..|labels| - 1], labels[|labels| - 1];
      assert labels == front + [l];
      var s, t := Exec(p, Init(p, stored), front).value, Exec(p, Init(p, stored), labels).value;
      assert Step(p, s, l) == Some(t);
      hide *;
      ExecEvidence(p, stored, front);
      ExecCore(p, stored, front);
      StepEvidence(p, s, l, t, front);
    }
  }

  lemma InitEvidence(p: Plan, stored: Option<set<ObjMetadata>>)
    ensures Evidence(Init(p, stored), [])
  {
  }

  /** In every state of every run each recorded reconcile status rests on something the run has seen: a success on
      a report of the awaited status that is not older than the apply (or, for a delete, of another object under the name),
      a failure on a reported failure or (for an apply) a recreation, a timeout on a passed deadline, a skip on an
      actuation that failed or was skipped. */
  lemma StatusesBacked(p: Plan, stored: Option<set<ObjMetadata>>, labels: seq<Label>, s: State, id: ObjMetadata)
    requires WellPlanned(p) && Exec(p, Init(p, stored), labels) == Some(s) && id in s.recs
    ensures Backed(s.recs[id], labels, id)
  {
    ExecEvidence(p, stored, labels);
    hide WellPlanned, Backed;
  }

  /** A settled apply: the watcher reported the object Current, at the generation that was applied or a later one. */
  lemma AppliedSeenCurrent(p: Plan, stored: Option<set<ObjMetadata>>, labels: seq<Label>, s: State, id: ObjMetadata)
    returns (rs: ResourceStatus)
    requires WellPlanned(p) && Exec(p, Init(p, stored), labels) == Some(s) && Settled(s.recs, ApplyStrategy, id)
    ensures StatusEvent(id, rs) in labels && rs.status == CurrentStatus
    ensures (if rs.resource.Some? then rs.resource.value.generation else 0) >= s.recs[id].generation
  {
    StatusesBacked(p, stored, labels, s, id);
    hide WellPlanned;
    rs :| Reported(labels, id, rs) && ShowsDone(s.recs[id], rs);
  }

  /** A settled delete: the watcher reported the object not found, or another object under its name. */
  lemma DeletedSeenGone(p: Plan, stored: Option<set<ObjMetadata>>, labels: seq<Label>, s: State, id: ObjMetadata)
    returns (rs: ResourceStatus)
    requires WellPlanned(p) && Exec(p, Init(p, stored), labels) == Some(s) && Settled(s.recs, DeleteStrategy, id)
    ensures StatusEvent(id, rs) in labels
    ensures rs.status == NotFoundStatus || (rs.resource.Some? && rs.resource.value.uid != "" && rs.resource.value.uid != s.recs[id].uid)
  {
    StatusesBacked(p, stored, labels, s, id);
    hide WellPlanned;
    rs :| Reported(labels, id, rs) && ShowsDone(s.recs[id], rs);
  }

  /** The converse, step by step: a report for an object that is waited for settles it exactly when it shows another object
      under the name of a deleted one, or the same object in the awaited status at the recorded generation or later. */
  lemma ReportSettles(p: Plan, s: State, id: ObjMetadata, rs: ResourceStatus, t: State)
    requires WellPlanned(p) && Core(p, s) && s.abort.None? && Step(p, s, StatusEvent(id, rs)) == Some(t)
    requires s.phase.Running? && s.phase.ts.Waiting? && id in s.phase.ts.pending && id in s.recs
    requires s.phase.i < |p.tasks| && p.tasks[s.phase.i].Wait?
    ensures id in t.recs
    ensures var r, cond := s.recs[id], p.tasks[s.phase.i].cond;
      t.recs[id].reconcile == ReconcileSucceeded <==> if Differs(r, rs) then cond == AllNotFound else Meets(r, rs, cond)
  {
    hide *;
    var task, w := p.tasks[s.phase.i], WaitOf(s);
    PendingFacts(p, s, id);
    StepIsStatus(p, s, id, rs);
    StatusCacheIs(p, s, t, id, rs);
    HeededIs(p, s, t, id, rs);
    WaitFields(s);
    PendingOutcome(w, task.ids, task.cond, t.cache, id);
    BecomesMeans(s.recs[id], t.cache, task.cond, id, rs, t.recs[id].reconcile);
  }

  lemma PendingFacts(p: Plan, s: State, id: ObjMetadata)
    requires Core(p, s) && s.phase.Running? && s.phase.ts.Waiting? && id in s.phase.ts.pending && id in s.recs
    requires s.phase.i < |p.tasks| && p.tasks[s.phase.i].Wait?
    ensures id in p.tasks[s.phase.i].ids && s.recs[id].reconcile != ReconcileSucceeded
  {
    assert WaitProofs.Tracks(WaitOf(s), p.tasks[s.phase.i].ids, s.phase.ts.timedOut);
    hide Core;
    assert id in p.tasks[s.phase.i].ids;
    assert WaitProofs.Agrees(WaitOf(s), s.phase.ts.timedOut, id);
  }

  lemma StepIsStatus(p: Plan, s: State, id: ObjMetadata, rs: ResourceStatus)
    ensures Step(p, s, StatusEvent(id, rs)) == StepStatus(p, s, id, rs)
  {
    hide StepStatus;
  }

  lemma WaitFields(s: State)
    requires s.phase.Running? && s.phase.ts.Waiting?
    ensures WaitOf(s).pending == s.phase.ts.pending && WaitOf(s).recs == s.recs
  {
  }

  lemma BecomesMeans(r: Record, cache: Cache, cond: Condition, id: ObjMetadata, rs: ResourceStatus, status: Reconcile)
    requires id in cache && cache[id] == rs && PendingBecomes(r, cache, cond, id, status) && r.reconcile != ReconcileSucceeded
    ensures status == ReconcileSucceeded <==> if Differs(r, rs) then cond == AllNotFound else Meets(r, rs, cond)
  {
    hide Differs, Meets;
  }
}
