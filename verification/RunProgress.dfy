/** Cancelling always works: a run that is told to stop can always get to the end of its current task and return. */
module RunProgress {
  import opened Base
  import opened Records
  import opened Objects
  import opened DependencyFilter
  import opened Actuate
  import opened Engine
  import opened PlanSpec
  import opened RunInvariant
  import WaitSpec

  /** Moves of the tasks and the runner themselves, none of the watcher, the clock or the caller. */
  predicate Internal(l: Label) {
    l.ApplyStep? || l.PruneStep? || l.InvStep? || l.WaitGoroutine? || l.TaskResult?
  }

  /** An upper bound for the moves left until the current task's result is taken. */
  function Left(p: Plan, s: State): nat
    requires Shape(p, s)
  {
    if !s.phase.Running? then 0
    else
      match s.phase.ts
      case Writing => 2
      case Reporting(_) => 1
      case Actuating(k, _) => |p.tasks[s.phase.i].objs| - k + 1
      case Waiting(_, _, _, _, finished) => if finished then 1 else 2
  }

  lemma {:induction false} ExecCons(p: Plan, s: State, l: Label, rest: seq<Label>)
    requires Step(p, s, l).Some?
    ensures Exec(p, s, [l] + rest) == Exec(p, Step(p, s, l).value, rest)
  {
    hide Step;
    if rest == [] {
      assert [l] + rest == [l] && [l][..0] == [];
      assert Exec(p, s, []) == Some(s);
    } else {
      var front := rest[..|rest| - 1];
      ExecCons(p, s, l, front);
      assert ([l] + rest)[..|[l] + rest| - 1] == [l] + front;
    }
  }

  const SOME_APPLY := ApplyEnv(true, Allow, true, None)
  const SOME_PRUNE := PruneEnv(Allow, true, Deleted)
  const SOME_WRITE := InvEnv(true, true, true)

  /** The move that the current task can make. */
  function Move(p: Plan, s: State): Label
    requires Shape(p, s) && s.phase.Running?
  {
    match s.phase.ts
    case Writing => InvStep(SOME_WRITE)
    case Reporting(_) => TaskResult
    case Actuating(k, _) =>
      if k >= |p.tasks[s.phase.i].objs| then TaskResult
      else if p.tasks[s.phase.i].Apply? then ApplyStep(SOME_APPLY)
      else PruneStep(SOME_PRUNE)
    case Waiting(_, _, _, _, finished) => if finished then TaskResult else WaitGoroutine
  }

  /** An aborting run whose wait, if any, is over. */
  ghost predicate Stopping(s: State) {
    s.abort.Some? && s.phase.Running? && (s.phase.ts.Waiting? ==> s.phase.ts.ctx != WaitSpec.Live)
  }

  lemma MoveWorks(p: Plan, s: State)
    requires Shape(p, s) && Stopping(s)
    ensures Internal(Move(p, s)) && Step(p, s, Move(p, s)).Some?
    ensures var t := Step(p, s, Move(p, s)).value;
      t.phase.Returned? || (Stopping(t) && (Shape(p, t) ==> Left(p, t) < Left(p, s)))
  {
    hide FilterObject, PruneOne, ApplyRecord, FinalRefs, DestroySuccessful, WaitSpec.SendTimeoutEvents;
  }

  /** An aborting run can always finish its current task and return, by its own moves alone. */
  lemma {:induction false} StoppingReturns(p: Plan, s: State) returns (labels: seq<Label>)
    requires WellPlanned(p) && Core(p, s) && Stopping(s)
    ensures Exec(p, s, labels).Some? && Exec(p, s, labels).value.phase.Returned?
    ensures forall l :: l in labels ==> Internal(l)
    decreases Left(p, s)
  {
    var l := Move(p, s);
    MoveWorks(p, s);
    StepCore(p, s, l);
    var t := Step(p, s, l).value;
    assert Shape(p, t);
    hide WellPlanned, Core, Step, Stopping, Left, Move;
    if t.phase.Returned? {
      ExecCons(p, s, l, []);
      assert [l] + [] == [l] && Exec(p, t, []) == Some(t);
      labels := [l];
    } else {
      var rest := StoppingReturns(p, t);
      ExecCons(p, s, l, rest);
      labels := [l] + rest;
    }
  }

  lemma CancelStops(s: State)
    requires s.abort.None? && s.phase.Running?
    ensures StepCtxDone(s).Some? && Stopping(StepCtxDone(s).value)
  {
  }

  /** No run can hang on its caller: from every reachable state of a run in progress, cancelling it and letting its
      current task finish leads to the end, whatever the watcher does or fails to do. */
  lemma CancelReturns(p: Plan, stored: Option<set<ObjMetadata>>, s: State) returns (labels: seq<Label>)
    requires WellPlanned(p) && Reachable(p, stored, s) && s.phase.Running? && s.abort.None?
    ensures Exec(p, s, [CtxDone] + labels).Some? && Exec(p, s, [CtxDone] + labels).value.phase.Returned?
    ensures forall l :: l in labels ==> Internal(l)
  {
    ReachableCore(p, stored, s);
    CancelStops(s);
    assert Step(p, s, CtxDone) == StepCtxDone(s);
    StepCore(p, s, CtxDone);
    hide WellPlanned, Core, Step, Stopping;
    labels := StoppingReturns(p, Step(p, s, CtxDone).value);
    ExecCons(p, s, CtxDone, labels);
  }
}
