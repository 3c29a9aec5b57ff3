/** Records are frozen once their wait task is over; when a related object can still be found unreconciled. */
module RunWaiting {
  import opened Base
  import opened Records
  import opened Objects
  import opened DependencyFilter
  import opened Actuate
  import opened Engine
  import opened PlanSpec
  import opened RunInvariant
  import RunSafety
  import WaitSpec
  import WaitProofs

  /** The object was actuated by a task whose wait task is over. */
  ghost predicate WaitOver(p: Plan, s: State, id: ObjMetadata) {
    s.phase.Running? && exists j, m :: Slot(p, j, m) && IdAt(p, j, m) == id && j + 1 < s.phase.i
  }

  lemma NotWaitedFor(p: Plan, s: State, id: ObjMetadata, i: nat)
    requires WellPlanned(p) && WaitOver(p, s, id) && i < |p.tasks| && s.phase.i <= i && p.tasks[i].Wait?
    ensures id !in p.tasks[i].ids
  {
    var j, m :| Slot(p, j, m) && IdAt(p, j, m) == id && j + 1 < s.phase.i;
    forall k | 0 <= k < |p.tasks[i].ids| ensures p.tasks[i].ids[k] != id {
      var m' := WaitSlot(p, i, p.tasks[i].ids[k]);
      assert j != i - 1;
    }
  }

  lemma StillOver(p: Plan, s: State, t: State, id: ObjMetadata)
    requires WaitOver(p, s, id) && t.phase.Running? && s.phase.i <= t.phase.i
    ensures WaitOver(p, t, id)
  {
    var j, m :| Slot(p, j, m) && IdAt(p, j, m) == id && j + 1 < s.phase.i;
    assert Slot(p, j, m) && IdAt(p, j, m) == id && j + 1 < t.phase.i;
  }

  /** Only the object at the cursor gets a new record. */
  lemma CursorElsewhere(p: Plan, s: State, id: ObjMetadata)
    requires WellPlanned(p) && WaitOver(p, s, id) && s.phase.ts.Actuating? && Slot(p, s.phase.i, s.phase.ts.k)
    ensures IdAt(p, s.phase.i, s.phase.ts.k) != id
  {
    var j, m :| Slot(p, j, m) && IdAt(p, j, m) == id && j + 1 < s.phase.i;
    assert SlotsRegistered(p);
    hide WellPlanned;
  }

  lemma ActuateFrame(p: Plan, s: State, l: Label, t: State, id: ObjMetadata)
    requires WellPlanned(p) && Step(p, s, l) == Some(t) && (l.ApplyStep? || l.PruneStep?)
    requires WaitOver(p, s, id) && id in s.recs
    ensures id in t.recs && t.recs[id] == s.recs[id]
  {
    assert Slot(p, s.phase.i, s.phase.ts.k);
    CursorElsewhere(p, s, id);
    hide FilterObject, ApplyRecord, PruneOne, WellPlanned, WaitOver;
    if l.ApplyStep? {
      assert StepApply(p, s, l.applyEnv) == Some(t);
    } else {
      assert StepPrune(p, s, l.pruneEnv) == Some(t);
    }
  }

  /** What a step does to reconcile statuses: at most those of one wait task's ids change. */
  lemma WaitFrame(p: Plan, s: State, l: Label, t: State, id: ObjMetadata)
    requires WellPlanned(p) && Core(p, s) && Step(p, s, l) == Some(t)
    requires l.StatusEvent? || l.WaitGoroutine? || l.TaskResult?
    requires WaitOver(p, s, id) && id in s.recs
    ensures id in t.recs && t.recs[id] == s.recs[id]
  {
    hide WellPlanned, Core, WaitSpec.StatusUpdate, WaitSpec.StartAll, WaitSpec.TimeoutAll;
    match l
    case StatusEvent(x, rs) =>
      if s.abort.None? && s.phase.ts.Waiting? {
        CurrentWait(p, s);
        NotWaitedFor(p, s, id, s.phase.i);
        WaitProofs.StatusUpdateFrame(WaitOf(s), p.tasks[s.phase.i].ids, p.tasks[s.phase.i].cond, t.cache, x);
      }
    case WaitGoroutine =>
      CurrentWait(p, s);
      NotWaitedFor(p, s, id, s.phase.i);
      WaitProofs.TimeoutAllFacts(WaitOf(s), s.phase.ts.pending);
    case TaskResult =>
      var i := s.phase.i + 1;
      if !t.phase.Returned? && p.tasks[i].Wait? {
        NotWaitedFor(p, s, id, i);
        WaitProofs.StartAllFrame(WaitSpec.Wait(s.recs, [], [], s.waits, WaitSpec.Live), p.tasks[i].cond, s.cache, p.tasks[i].ids);
      }
  }

  lemma CurrentWait(p: Plan, s: State)
    requires Core(p, s) && s.phase.Running? && s.phase.ts.Waiting?
    ensures s.phase.i < |p.tasks| && p.tasks[s.phase.i].Wait?
    ensures WaitProofs.Tracks(WaitOf(s), p.tasks[s.phase.i].ids, s.phase.ts.timedOut)
    ensures forall x :: x in s.phase.ts.pending ==> x in p.tasks[s.phase.i].ids
  {
  }

  lemma OtherFrame(p: Plan, s: State, l: Label, t: State)
    requires Step(p, s, l) == Some(t) && s.phase.Running?
    requires !l.ApplyStep? && !l.PruneStep? && !l.StatusEvent? && !l.WaitGoroutine? && !l.TaskResult?
    ensures t.recs == s.recs
  {
    hide FinalRefs, DestroySuccessful;
  }

  /** No step touches the record of an object whose wait task is over. */
  lemma StepFrozen(p: Plan, s: State, l: Label, t: State, id: ObjMetadata)
    requires WellPlanned(p) && Core(p, s) && Step(p, s, l) == Some(t) && WaitOver(p, s, id) && id in s.recs
    ensures id in t.recs && t.recs[id] == s.recs[id]
    ensures t.phase.Running? ==> WaitOver(p, t, id)
  {
    if l.ApplyStep? || l.PruneStep? {
      ActuateFrame(p, s, l, t, id);
    } else if l.StatusEvent? || l.WaitGoroutine? || l.TaskResult? {
      WaitFrame(p, s, l, t, id);
    } else {
      OtherFrame(p, s, l, t);
    }
    RunSafety.CursorMoves(p, s, l, t);
    hide Step, Core, WellPlanned;
    if t.phase.Running? {
      StillOver(p, s, t, id);
    }
  }

  lemma {:induction false} ReachOn(p: Plan, stored: Option<set<ObjMetadata>>, s: State, labels: seq<Label>)
    requires Reachable(p, stored, s) && Exec(p, s, labels).Some?
    ensures Reachable(p, stored, Exec(p, s, labels).value)
  {
    if labels != [] {
      var front, l := labels[..|labels| - 1], labels[|labels| - 1];
      ReachOn(p, stored, s, front);
      var before :| Exec(p, Init(p, stored), before) == Some(Exec(p, s, front).value);
      assert (before + [l])[..|before|] == before;
      assert Exec(p, Init(p, stored), before + [l]) == Exec(p, s, labels);
    }
  }

  /** Records are frozen: from the moment an object's wait task is over, its record never changes again. */
  lemma {:induction false} FrozenAfterWait(p: Plan, stored: Option<set<ObjMetadata>>, s: State, labels: seq<Label>, id: ObjMetadata)
    requires WellPlanned(p) && Reachable(p, stored, s) && Exec(p, s, labels).Some?
    requires WaitOver(p, s, id) && id in s.recs
    ensures var t := Exec(p, s, labels).value;
      id in t.recs && t.recs[id] == s.recs[id] && (t.phase.Running? ==> WaitOver(p, t, id))
  {
    if labels != [] {
      var front, l := labels[..|labels| - 1], labels[|labels| - 1];
      FrozenAfterWait(p, stored, s, front, id);
      var t := Exec(p, s, front).value;
      ReachOn(p, stored, s, front);
      ReachableCore(p, stored, t);
      hide Step, Core, WellPlanned, WaitOver;
      if t.phase.Running? {
        StepFrozen(p, t, l, Exec(p, s, labels).value, id);
      } else {
        StaysStopped(p, stored, s, front, l, id);
      }
    }
  }

  /** A run that has started and is not running has returned, and takes no more steps. */
  lemma StaysStopped(p: Plan, stored: Option<set<ObjMetadata>>, s: State, front: seq<Label>, l: Label, id: ObjMetadata)
    requires s.phase.Running? && Exec(p, s, front).Some? && !Exec(p, s, front).value.phase.Running?
    ensures Step(p, Exec(p, s, front).value, l) == None
  {
    NeverIdleAgain(p, s, front);
  }

  lemma {:induction false} NeverIdleAgain(p: Plan, s: State, labels: seq<Label>)
    requires s.phase.Running? && Exec(p, s, labels).Some?
    ensures !Exec(p, s, labels).value.phase.Idle?
  {
    if labels != [] {
      var front := labels[..|labels| - 1];
      NeverIdleAgain(p, s, front);
      RunSafety.CursorMoves(p, Exec(p, s, front).value, labels[|labels| - 1], Exec(p, s, labels).value);
      hide Step;
    }
  }
}
