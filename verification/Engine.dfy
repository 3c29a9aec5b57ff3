/** The task runner executing a plan, as a state machine.  A label says which goroutine moves
    next and what the cluster answered; everything else is determined. */
module Engine {
  import opened Base
  import opened Records
  import opened Objects
  import opened DependencyFilter
  import opened Actuate
  import WaitSpec

  datatype Task =
    | InvAdd(objs: seq<Unstructured>)
    | Apply(objs: seq<Unstructured>)
    | Prune(objs: seq<Unstructured>)
    | Wait(ids: seq<ObjMetadata>, cond: Condition, timed: bool)
    | InvSet

  datatype Plan = Plan(
    tasks: seq<Task>,
    planned: map<ObjMetadata, Strategy>,
    deps: map<ObjMetadata, seq<ObjMetadata>>,
    rdeps: map<ObjMetadata, seq<ObjMetadata>>,
    invalid: set<ObjMetadata>,
    prior: set<ObjMetadata>,
    dryRun: bool,
    destroy: bool)

  datatype TaskState =
    | Writing
    | Reporting(failed: bool)
    | Actuating(k: nat, currentUIDs: set<string>)
    | Waiting(pending: seq<ObjMetadata>, failing: seq<ObjMetadata>, ctx: WaitSpec.Ctx, timedOut: bool, finished: bool)

  datatype AbortReason = WatchFailed | ContextDone

  datatype Outcome = Success | TaskFailed | Aborted(reason: AbortReason)

  datatype Phase =
    | Idle
    | Running(i: nat, ts: TaskState)
    | Returned(outcome: Outcome)

  datatype GroupEvent = Started(task: nat) | Finished(task: nat)

  datatype Deletion = Deletion(id: ObjMetadata, uid: string)

  datatype State = State(
    phase: Phase,
    abort: Option<AbortReason>,
    recs: RecordMap,
    cache: Cache,
    abandoned: set<ObjMetadata>,
    refs: set<ObjMetadata>,
    stored: Option<set<ObjMetadata>>,
    deletions: seq<Deletion>,
    groups: seq<GroupEvent>,
    waits: seq<WaitSpec.WaitEvent>)

  /** precheckOk: no inventory object among the inputs and the namespace could be created.
      landed: the write took effect although an error was returned. */
  datatype InvEnv = InvEnv(precheckOk: bool, writeOk: bool, landed: bool)

  datatype Label =
    | Sync
    | StatusEvent(id: ObjMetadata, rs: ResourceStatus)
    | WatchError
    | CtxDone
    | ApplyStep(applyEnv: ApplyEnv)
    | PruneStep(pruneEnv: PruneEnv)
    | InvStep(invEnv: InvEnv)
    | Expire
    | WaitGoroutine
    | TaskResult

  // ---------- Initial state ----------

  function Register(planned: map<ObjMetadata, Strategy>): RecordMap {
    map id | id in planned :: NewRecord(planned[id], Pending)
  }

  function Init(p: Plan, stored: Option<set<ObjMetadata>>): State {
    State(Idle, None, Register(p.planned), map[], {}, p.prior, stored, [], [], [])
  }

  // ---------- Starting tasks ----------

  function StartState(p: Plan, s: State, t: Task): (TaskState, RecordMap, seq<WaitSpec.WaitEvent>) {
    match t
    case Apply(_) => (Actuating(0, {}), s.recs, s.waits)
    case Prune(_) => (Actuating(0, AppliedUIDs(s.recs)), s.recs, s.waits)
    case Wait(ids, cond, _) =>
      var w := WaitSpec.Start(WaitSpec.Wait(s.recs, [], [], s.waits, WaitSpec.Live), cond, s.cache, ids);
      (Waiting(w.pending, w.failed, w.ctx, false, false), w.recs, w.log)
    case _ => (Writing, s.recs, s.waits)
  }

  /** nextTask: start task i, or return when the queue is empty. */
  function NextTask(p: Plan, s: State, i: nat): State {
    if i >= |p.tasks| then s.(phase := Returned(Success))
    else
      var (ts, recs, waits) := StartState(p, s, p.tasks[i]);
      s.(phase := Running(i, ts), recs := recs, waits := waits, groups := s.groups + [Started(i)])
  }

  // ---------- The runner's event loop ----------

  function StepSync(p: Plan, s: State): Option<State> {
    if s.phase == Idle then Some(NextTask(p, s, 0)) else None
  }

  /** Status events are ignored once the run is aborting. */
  function StepStatus(p: Plan, s: State, id: ObjMetadata, rs: ResourceStatus): Option<State> {
    if s.phase.Returned? then None
    else if s.abort.Some? then Some(s)
    else
      var s1 := s.(cache := s.cache[id := rs]);
      if s.phase.Running? && s.phase.i < |p.tasks| && p.tasks[s.phase.i].Wait? && s.phase.ts.Waiting? && id in p.tasks[s.phase.i].ids then
        var t, ts := p.tasks[s.phase.i], s.phase.ts;
        var w := WaitSpec.StatusUpdate(
          WaitSpec.Wait(s.recs, ts.pending, ts.failing, s.waits, ts.ctx), t.ids, t.cond, s1.cache, id);
        Some(s1.(recs := w.recs, waits := w.log,
                 phase := Running(s.phase.i, ts.(pending := w.pending, failing := w.failed, ctx := w.ctx))))
      else Some(s1)
  }

  /** Only wait tasks can be cancelled. */
  function CancelTask(ts: TaskState): TaskState {
    if ts.Waiting? then ts.(ctx := WaitSpec.Cancel(ts.ctx)) else ts
  }

  function StepAbort(s: State, reason: AbortReason): Option<State> {
    match s.phase
    case Idle => Some(s.(phase := Returned(Aborted(reason)), abort := Some(reason)))
    case Running(i, ts) => Some(s.(phase := Running(i, CancelTask(ts)), abort := Some(reason)))
    case Returned(_) => None
  }

  /** A failed watch is noticed once; later events on its channel are ignored. */
  function StepWatchError(s: State): Option<State> {
    if s.abort.Some? then (if s.phase.Returned? then None else Some(s)) else StepAbort(s, WatchFailed)
  }

  function StepCtxDone(s: State): Option<State> {
    if s.abort == Some(ContextDone) then None else StepAbort(s, ContextDone)
  }

  /** The current task has put its result on the task channel. */
  predicate ResultReady(t: Task, ts: TaskState) {
    match ts
    case Writing => false
    case Reporting(_) => true
    case Actuating(k, _) => (t.Apply? || t.Prune?) && k >= |t.objs|
    case Waiting(_, _, _, _, finished) => finished
  }

  function StepResult(p: Plan, s: State): Option<State> {
    if s.phase.Running? && s.phase.i < |p.tasks| && ResultReady(p.tasks[s.phase.i], s.phase.ts) then
      var s1 := s.(groups := s.groups + [Finished(s.phase.i)]);
      if s.phase.ts == Reporting(true) then Some(s1.(phase := Returned(TaskFailed)))
      else if s.abort.Some? then Some(s1.(phase := Returned(Aborted(s.abort.value))))
      else Some(NextTask(p, s1, s.phase.i + 1))
    else None
  }

  // ---------- The tasks' goroutines ----------

  function FilterObject(p: Plan, recs: RecordMap, strategy: Strategy, id: ObjMetadata): Verdict {
    Filter(recs, p.invalid, p.deps, p.rdeps, strategy, p.dryRun, id)
  }

  predicate AtObject(p: Plan, s: State, strategy: Strategy) {
    && s.phase.Running? && s.phase.i < |p.tasks| && s.phase.ts.Actuating?
    && (if strategy == ApplyStrategy then p.tasks[s.phase.i].Apply? else p.tasks[s.phase.i].Prune?)
    && s.phase.ts.k < |p.tasks[s.phase.i].objs|
  }

  function CurrentObject(p: Plan, s: State, strategy: Strategy): Unstructured
    requires AtObject(p, s, strategy)
  {
    p.tasks[s.phase.i].objs[s.phase.ts.k]
  }

  function NextObject(s: State): Phase
    requires s.phase.Running? && s.phase.ts.Actuating?
  {
    Running(s.phase.i, s.phase.ts.(k := s.phase.ts.k + 1))
  }

  function StepApply(p: Plan, s: State, env: ApplyEnv): Option<State> {
    if AtObject(p, s, ApplyStrategy) then
      var id := CurrentObject(p, s, ApplyStrategy).id;
      Some(s.(recs := s.recs[id := ApplyRecord(env, FilterObject(p, s.recs, ApplyStrategy, id))], phase := NextObject(s)))
    else None
  }

  function StepPrune(p: Plan, s: State, env: PruneEnv): Option<State> {
    if AtObject(p, s, DeleteStrategy) then
      var obj := CurrentObject(p, s, DeleteStrategy);
      var e := PruneOne(env, FilterObject(p, s.recs, DeleteStrategy, obj.id), obj.uid, s.phase.ts.currentUIDs, p.dryRun);
      Some(s.(recs := s.recs[obj.id := e.record],
              abandoned := if e.abandoned then s.abandoned + {obj.id} else s.abandoned,
              deletions := if e.deleteSent then s.deletions + [Deletion(obj.id, obj.uid)] else s.deletions,
              phase := NextObject(s)))
    else None
  }

  /** The references the final task keeps. */
  function FinalRefs(recs: RecordMap, refs: set<ObjMetadata>, abandoned: set<ObjMetadata>, invalid: set<ObjMetadata>): set<ObjMetadata> {
    var kept :=
      WithActuation(recs, ApplyStrategy, Succeeded)
      + refs * WithActuation(recs, ApplyStrategy, Failed)
      + refs * WithActuation(recs, ApplyStrategy, Skipped)
      + refs * WithActuation(recs, DeleteStrategy, Failed)
      + refs * WithActuation(recs, DeleteStrategy, Skipped)
      + refs * WithReconcile(recs, ReconcileFailed)
      + refs * WithReconcile(recs, ReconcileTimeout);
    (kept - abandoned) + refs * invalid
  }

  /** Skipped deletes do not count against a destroy. */
  predicate DestroySuccessful(recs: RecordMap) {
    && WithActuation(recs, DeleteStrategy, Failed) == {}
    && WithReconcile(recs, ReconcileFailed) == {}
    && WithReconcile(recs, ReconcileTimeout) == {}
  }

  /** Write the inventory held in memory; a failing write may have landed. */
  function Write(p: Plan, s: State, refs: set<ObjMetadata>, inv: Option<set<ObjMetadata>>, env: InvEnv): State
    requires s.phase.Running?
  {
    if p.dryRun then s.(phase := Running(s.phase.i, Reporting(false)))
    else s.(refs := refs,
            stored := if env.writeOk || env.landed then inv else s.stored,
            phase := Running(s.phase.i, Reporting(!env.writeOk)))
  }

  function StepInv(p: Plan, s: State, env: InvEnv): Option<State> {
    if s.phase.Running? && s.phase.i < |p.tasks| && s.phase.ts == Writing then
      match p.tasks[s.phase.i]
      case InvAdd(objs) =>
        if !env.precheckOk then Some(s.(phase := Running(s.phase.i, Reporting(true))))
        else
          var refs := s.refs + ToSet(Ids(objs));
          Some(Write(p, s, refs, Some(refs), env).(refs := refs))
      case InvSet =>
        if p.destroy && DestroySuccessful(s.recs) then Some(Write(p, s, s.refs, None, env))
        else
          var refs := FinalRefs(s.recs, s.refs, s.abandoned, p.invalid);
          Some(Write(p, s, refs, Some(refs), env))
      case _ => None
    else None
  }

  /** The deadline of a wait task passes. */
  function StepExpire(p: Plan, s: State): Option<State> {
    if s.phase.Running? && s.phase.i < |p.tasks| && p.tasks[s.phase.i].Wait? && p.tasks[s.phase.i].timed
      && s.phase.ts.Waiting? && s.phase.ts.ctx == WaitSpec.Live
    then Some(s.(phase := Running(s.phase.i, s.phase.ts.(ctx := WaitSpec.Expired))))
    else None
  }

  /** The wait task's goroutine wakes up, sends the timeout events if its deadline passed, and reports. */
  function StepWaitGoroutine(p: Plan, s: State): Option<State> {
    if s.phase.Running? && s.phase.ts.Waiting? && s.phase.ts.ctx != WaitSpec.Live && !s.phase.ts.finished then
      var ts := s.phase.ts;
      if ts.ctx == WaitSpec.Canceled then Some(s.(phase := Running(s.phase.i, ts.(finished := true))))
      else
        var w := WaitSpec.SendTimeoutEvents(WaitSpec.Wait(s.recs, ts.pending, ts.failing, s.waits, ts.ctx));
        Some(s.(recs := w.recs, waits := w.log, phase := Running(s.phase.i, ts.(timedOut := true, finished := true))))
    else None
  }

  function Step(p: Plan, s: State, l: Label): Option<State> {
    match l
    case Sync => StepSync(p, s)
    case StatusEvent(id, rs) => StepStatus(p, s, id, rs)
    case WatchError => StepWatchError(s)
    case CtxDone => StepCtxDone(s)
    case ApplyStep(env) => StepApply(p, s, env)
    case PruneStep(env) => StepPrune(p, s, env)
    case InvStep(env) => StepInv(p, s, env)
    case Expire => StepExpire(p, s)
    case WaitGoroutine => StepWaitGoroutine(p, s)
    case TaskResult => StepResult(p, s)
  }

  /** The state a sequence of labels leads to, if each was possible in turn. */
  function Exec(p: Plan, s: State, labels: seq<Label>): Option<State> {
    if labels == [] then Some(s)
    else
      match Exec(p, s, labels[..|labels| - 1])
      case None => None
      case Some(t) => Step(p, t, labels[|labels| - 1])
  }

  /** Some sequence of goroutine moves and cluster answers leads to s. */
  ghost predicate Reachable(p: Plan, stored: Option<set<ObjMetadata>>, s: State) {
    exists labels :: Exec(p, Init(p, stored), labels) == Some(s)
  }
}
