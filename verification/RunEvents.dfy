/** The group events of a run and how it returns. */
module RunEvents {
  import opened Base
  import opened Records
  import opened Actuate
  import opened Engine
  import WaitSpec

  /** The first n tasks started and finished, one after the other. */
  function Brackets(n: nat): seq<GroupEvent> {
    if n == 0 then [] else Brackets(n - 1) + [Started(n - 1), Finished(n - 1)]
  }

  /** Finished tasks, then at most one open one; Run returns nil only at the end of the queue. */
  ghost predicate Bracketed(p: Plan, s: State) {
    match s.phase
    case Idle => s.groups == [] && s.abort.None?
    case Running(i, _) => i < |p.tasks| && s.groups == Brackets(i) + [Started(i)]
    case Returned(outcome) =>
      && (exists n :: 0 <= n <= |p.tasks| && s.groups == Brackets(n) && (outcome == Success ==> n == |p.tasks|))
      && (outcome == Success ==> s.abort.None?)
  }

  lemma ResultBracketed(p: Plan, s: State, t: State)
    requires Bracketed(p, s) && StepResult(p, s) == Some(t)
    ensures Bracketed(p, t)
  {
    hide StartState;
    var i := s.phase.i;
    assert t.phase.Returned? || t.phase.Running?;
    assert Brackets(i + 1) == Brackets(i) + [Started(i)] + [Finished(i)];
    if t.phase.Returned? {
      assert t.groups == Brackets(i + 1);
    }
  }

  lemma QuietBracketed(p: Plan, s: State, l: Label, t: State)
    requires Step(p, s, l) == Some(t) && !l.Sync? && !l.TaskResult?
    ensures t.groups == s.groups
    ensures t.phase.Idle? ==> s.phase.Idle? && t.abort == s.abort
    ensures t.phase.Running? ==> s.phase.Running? && t.phase.i == s.phase.i
    ensures t.phase.Returned? ==> s.phase.Idle? && t.phase.outcome != Success
  {
    hide FilterObject, ApplyRecord, PruneOne, WaitSpec.StatusUpdate, FinalRefs, WaitSpec.SendTimeoutEvents;
  }

  lemma StepBracketed(p: Plan, s: State, l: Label, t: State)
    requires Bracketed(p, s) && Step(p, s, l) == Some(t)
    ensures Bracketed(p, t)
  {
    if l.TaskResult? {
      ResultBracketed(p, s, t);
    } else if l.Sync? {
      hide StartState;
      assert Brackets(0) == [];
    } else {
      QuietBracketed(p, s, l, t);
      hide Step;
      if t.phase.Returned? {
        assert t.groups == Brackets(0);
      }
    }
  }

  lemma {:induction false} ExecBracketed(p: Plan, stored: Option<set<ObjMetadata>>, labels: seq<Label>)
    requires Exec(p, Init(p, stored), labels).Some?
    ensures Bracketed(p, Exec(p, Init(p, stored), labels).value)
  {
    if labels != [] {
      var before := labels[..|labels| - 1];
      ExecBracketed(p, stored, before);
      StepBracketed(p, Exec(p, Init(p, stored), before).value, labels[|labels| - 1], Exec(p, Init(p, stored), labels).value);
    }
  }

  /** In every reachable state the group events are Started/Finished pairs of the queue's tasks in order,
      never overlapping; a run that returned nil has started and finished every task. */
  lemma EventsBracketed(p: Plan, stored: Option<set<ObjMetadata>>, s: State)
    requires Reachable(p, stored, s)
    ensures Bracketed(p, s)
    ensures s.phase == Returned(Success) ==> s.groups == Brackets(|p.tasks|) && s.abort.None?
  {
    var labels :| Exec(p, Init(p, stored), labels) == Some(s);
    ExecBracketed(p, stored, labels);
  }

  /** Once an error event or a cancellation has been seen, no step starts a task. */
  lemma AbortStarts(p: Plan, s: State, l: Label, t: State)
    requires Bracketed(p, s) && s.abort.Some? && Step(p, s, l) == Some(t)
    ensures t.abort.Some? && t.phase != Returned(Success)
    ensures t.groups == s.groups || (t.phase.Returned? && s.phase.Running? && t.groups == s.groups + [Finished(s.phase.i)])
  {
    assert !l.Sync?;
    if !l.TaskResult? {
      QuietBracketed(p, s, l, t);
      AbortStays(p, s, l, t);
      hide Step;
    }
  }

  lemma StepPhases(p: Plan, s: State, l: Label, t: State)
    requires s.abort.Some? && Step(p, s, l) == Some(t)
    ensures !s.phase.Returned?
    ensures s.phase.Running? && t.phase.Running? ==> s.phase.i == t.phase.i && t.groups == s.groups
    ensures s.phase.Running? ==> !t.phase.Idle?
    ensures s.phase.Running? && t.phase.Returned? ==> t.groups == s.groups + [Finished(s.phase.i)]
    ensures t.cache == s.cache
  {
    hide FilterObject, ApplyRecord, PruneOne, WaitSpec.StatusUpdate, FinalRefs, WaitSpec.SendTimeoutEvents, StartState;
  }

  lemma AbortStays(p: Plan, s: State, l: Label, t: State)
    requires s.abort.Some? && Step(p, s, l) == Some(t)
    ensures t.abort.Some?
  {
    hide FilterObject, ApplyRecord, PruneOne, WaitSpec.StatusUpdate, FinalRefs, WaitSpec.SendTimeoutEvents, StartState;
  }

  /** t comes after the aborting state s: the task of s is still open, or was the last to finish. */
  ghost predicate Ending(p: Plan, s: State, t: State)
    requires s.phase.Running?
  {
    && t.abort.Some? && Bracketed(p, t) && t.phase != Returned(Success)
    && (t.phase.Running? ==> t.phase.i == s.phase.i && t.groups == s.groups)
    && (t.phase.Returned? ==> t.groups == s.groups + [Finished(s.phase.i)])
    && !t.phase.Idle? && t.cache == s.cache
  }

  lemma EndingStep(p: Plan, s: State, u: State, l: Label, t: State)
    requires s.phase.Running? && Ending(p, s, u) && Step(p, u, l) == Some(t)
    ensures Ending(p, s, t)
  {
    StepBracketed(p, u, l, t);
    AbortStarts(p, u, l, t);
    StepPhases(p, u, l, t);
    hide Step, Bracketed;
  }

  /** From an aborted state on, no task starts, at most the current one finishes, no status is taken in any more, and the
      run never returns nil. */
  lemma {:induction false} AbortEndsRun(p: Plan, s: State, labels: seq<Label>)
    requires Bracketed(p, s) && s.abort.Some? && s.phase.Running? && Exec(p, s, labels).Some?
    ensures Ending(p, s, Exec(p, s, labels).value)
  {
    if labels != [] {
      var before := labels[..|labels| - 1];
      AbortEndsRun(p, s, before);
      EndingStep(p, s, Exec(p, s, before).value, labels[|labels| - 1], Exec(p, s, labels).value);
    }
  }
}
