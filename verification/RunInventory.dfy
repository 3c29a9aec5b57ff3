/** What the stored inventory remembers, in every state of a run. */
module RunInventory {
  import opened Base
  import opened Records
  import opened Objects
  import opened DependencyFilter
  import opened Actuate
  import opened Engine
  import opened PlanSpec
  import opened RunInvariant
  import RunSafety
  import WaitSpec

  /** The prior inventory and everything about to be applied. */
  ghost function AllRefs(p: Plan): set<ObjMetadata> {
    if p.destroy then p.prior else p.prior + set id | id in p.planned && p.planned[id] == ApplyStrategy
  }

  /** What the final task stores. */
  ghost function FinalStored(p: Plan, s: State): Option<set<ObjMetadata>> {
    if p.destroy && DestroySuccessful(s.recs) then None
    else Some(FinalRefs(s.recs, AllRefs(p), s.abandoned, p.invalid))
  }

  ghost predicate Resolved(recs: RecordMap) {
    forall id :: id in recs ==> recs[id].actuation != Pending
  }

  /** Every record has one of the four outcomes the tasks know. */
  ghost predicate Known(recs: RecordMap) {
    forall id :: id in recs ==> recs[id].actuation != UnknownActuation
  }

  /** The object was deleted, and waiting for it to go did not fail. */
  predicate Gone(recs: RecordMap, id: ObjMetadata) {
    Is(recs, id, DeleteStrategy, Succeeded) && recs[id].reconcile != ReconcileFailed && recs[id].reconcile != ReconcileTimeout
  }

  /** Once every planned object is resolved, the final references are exactly the planned objects that are
      neither gone nor abandoned, and the remembered invalid ones. */
  lemma FinalRefsExactly(p: Plan, recs: RecordMap, abandoned: set<ObjMetadata>, id: ObjMetadata)
    requires RefsPlanned(p) && Registered(p, recs) && Resolved(recs) && Known(recs)
    requires p.destroy ==> forall x :: x in p.planned ==> p.planned[x] == DeleteStrategy
    requires forall x :: x in abandoned ==> x in p.planned && p.planned[x] == DeleteStrategy
    ensures id in FinalRefs(recs, AllRefs(p), abandoned, p.invalid) <==>
      || (id in AllRefs(p) && id in p.invalid)
      || (id in p.planned && id !in abandoned && !Gone(recs, id))
  {
    if id in p.planned {
      assert id in AllRefs(p);
    }
  }

  /** What is stored between the first and the last task. */
  ghost function Between(p: Plan, stored: Option<set<ObjMetadata>>): Option<set<ObjMetadata>> {
    if p.destroy then stored else Some(AllRefs(p))
  }

  /** The inventory has not been extended yet, or extending it failed. */
  ghost predicate AtStart(p: Plan, s: State) {
    s.phase.Idle? || (!p.destroy && s.phase.Running? && s.phase.i == 0 && s.phase.ts != Reporting(false))
  }

  /** The final write has been tried. */
  ghost predicate AtEnd(p: Plan, s: State) {
    s.phase.Running? && s.phase.i == |p.tasks| - 1 && s.phase.ts.Reporting?
  }

  ghost predicate FinalWritten(p: Plan, s: State) {
    Resolved(s.recs) && s.stored == FinalStored(p, s)
  }

  /** No object has been applied, or even attempted. */
  ghost predicate NothingApplied(recs: RecordMap) {
    forall id :: id in recs && recs[id].strategy == ApplyStrategy ==> recs[id].actuation == Pending
  }

  /** The stored inventory is the one found, the extended one, or the final one. */
  ghost predicate Accounted(p: Plan, stored: Option<set<ObjMetadata>>, s: State) {
    || (s.stored == stored && NothingApplied(s.recs))
    || s.stored == Between(p, stored)
    || FinalWritten(p, s)
  }

  ghost predicate AbandonedPlanned(p: Plan, s: State) {
    forall id :: id in s.abandoned ==> id in p.planned && p.planned[id] == DeleteStrategy
  }

  /** References in memory and in the cluster, by phase. */
  ghost predicate InventoryOk(p: Plan, stored: Option<set<ObjMetadata>>, s: State) {
    && AbandonedPlanned(p, s)
    && (if s.phase.Returned? then
          Accounted(p, stored, s) && (s.phase.outcome == Success ==> FinalWritten(p, s))
        else if AtStart(p, s) then
          && (s.stored == stored || s.stored == Between(p, stored))
          && (s.phase.Idle? || s.phase.ts == Writing ==> s.refs == p.prior)
        else if AtEnd(p, s) then
          FinalWritten(p, s) || (s.phase.ts == Reporting(true) && s.stored == Between(p, stored))
        else
          s.refs == AllRefs(p) && s.stored == Between(p, stored))
  }

  /** At the final task every planned object has been dealt with. */
  lemma AllResolved(p: Plan, s: State)
    requires WellPlanned(p) && Core(p, s) && s.phase.Running? && s.phase.i == |p.tasks| - 1
    ensures Resolved(s.recs)
  {
    forall id | id in s.recs ensures s.recs[id].actuation != Pending {
      var j, m :| Slot(p, j, m) && IdAt(p, j, m) == id;
      assert Done(s, j, m);
    }
  }

  /** While the first task extends the inventory nothing has been applied. */
  lemma StartAppliesNothing(p: Plan, s: State)
    requires WellPlanned(p) && Core(p, s) && AtStart(p, s)
    ensures NothingApplied(s.recs)
  {
    forall id | id in s.recs && s.recs[id].strategy == ApplyStrategy ensures s.recs[id].actuation == Pending {
      var j, m :| Slot(p, j, m) && IdAt(p, j, m) == id;
      assert !Done(s, j, m);
    }
  }

  lemma AddInventory(p: Plan, stored: Option<set<ObjMetadata>>, s: State, t: State, env: InvEnv)
    requires Staged(p) && RefsPlanned(p) && !p.dryRun && InventoryOk(p, stored, s)
    requires StepInv(p, s, env) == Some(t) && p.tasks[s.phase.i].InvAdd?
    ensures InventoryOk(p, stored, t)
  {
    assert p.prior + ToSet(Ids(p.tasks[0].objs)) == AllRefs(p);
  }

  lemma SetInventory(p: Plan, stored: Option<set<ObjMetadata>>, s: State, t: State, env: InvEnv)
    requires Staged(p) && !p.dryRun && InventoryOk(p, stored, s) && Resolved(s.recs)
    requires StepInv(p, s, env) == Some(t) && p.tasks[s.phase.i].InvSet?
    ensures InventoryOk(p, stored, t)
  {
    hide FinalRefs, DestroySuccessful, Resolved;
    assert !AtStart(p, s) && !AtEnd(p, s);
    assert s.refs == AllRefs(p);
  }

  lemma InvInventory(p: Plan, stored: Option<set<ObjMetadata>>, s: State, t: State, env: InvEnv)
    requires WellPlanned(p) && !p.dryRun && Core(p, s) && InventoryOk(p, stored, s)
    requires StepInv(p, s, env) == Some(t)
    ensures InventoryOk(p, stored, t)
  {
    if p.tasks[s.phase.i].InvAdd? {
      AddInventory(p, stored, s, t, env);
    } else {
      AllResolved(p, s);
      SetInventory(p, stored, s, t, env);
    }
  }

  /** Starting a task leaves the inventory alone. */
  lemma NextTaskFields(p: Plan, s: State, i: nat)
    ensures var t := NextTask(p, s, i);
      && t.refs == s.refs && t.stored == s.stored && t.abandoned == s.abandoned
      && (i >= |p.tasks| ==> t.phase == Returned(Success) && t.recs == s.recs)
      && (i < |p.tasks| ==> t.phase.Running? && t.phase.i == i && !t.phase.ts.Reporting?)
  {
  }

  /** A result is taken and the next task starts, or the run is over. */
  lemma MoveOnInventory(p: Plan, stored: Option<set<ObjMetadata>>, s: State, t: State)
    requires Staged(p) && Shape(p, s) && InventoryOk(p, stored, s) && s.abort.None? && s.phase.Running?
    requires s.phase.ts != Reporting(true) && StepResult(p, s) == Some(t)
    ensures InventoryOk(p, stored, t)
  {
    var s1 := s.(groups := s.groups + [Finished(s.phase.i)]);
    NextTaskFields(p, s1, s.phase.i + 1);
    assert t == NextTask(p, s1, s.phase.i + 1);
    hide NextTask, StepResult, NothingApplied, FinalRefs, DestroySuccessful, Resolved;
    assert p.tasks[s.phase.i].InvSet? <==> s.phase.i == |p.tasks| - 1;
    if s.phase.i + 1 < |p.tasks| {
      assert !AtStart(p, s) && !AtEnd(p, s) && !AtStart(p, t) && !AtEnd(p, t);
    } else {
      assert AtEnd(p, s);
    }
  }

  /** A result is taken and the run returns early. */
  lemma GiveUpInventory(p: Plan, stored: Option<set<ObjMetadata>>, s: State, t: State)
    requires Staged(p) && InventoryOk(p, stored, s) && s.phase.Running?
    requires AtStart(p, s) ==> NothingApplied(s.recs)
    requires s.abort.Some? || s.phase.ts == Reporting(true)
    requires StepResult(p, s) == Some(t)
    ensures InventoryOk(p, stored, t)
  {
    hide NothingApplied, FinalRefs, DestroySuccessful, Resolved, NextTask;
    assert t.phase.Returned? && t.phase.outcome != Success;
    assert t.recs == s.recs && t.stored == s.stored && t.abandoned == s.abandoned;
    hide StepResult, Staged;
  }

  lemma SyncInventory(p: Plan, stored: Option<set<ObjMetadata>>, s: State, t: State)
    requires Staged(p) && InventoryOk(p, stored, s)
    requires StepSync(p, s) == Some(t)
    ensures InventoryOk(p, stored, t)
  {
  }

  lemma AbortInventory(p: Plan, stored: Option<set<ObjMetadata>>, s: State, t: State, reason: AbortReason)
    requires WellPlanned(p) && Core(p, s) && InventoryOk(p, stored, s)
    requires StepAbort(s, reason) == Some(t)
    ensures InventoryOk(p, stored, t)
  {
    if s.phase.Idle? {
      StartAppliesNothing(p, s);
    }
    hide Core, WellPlanned, NothingApplied, FinalRefs, DestroySuccessful, Resolved;
  }

  /** Steps that touch neither the inventory nor the set of abandoned objects, and stay in the same task. */
  ghost predicate SameInventory(s: State, t: State) {
    && t.refs == s.refs && t.stored == s.stored && t.abandoned == s.abandoned
    && (s.phase.Running? <==> t.phase.Running?) && (s.phase.Idle? <==> t.phase.Idle?)
    && (s.phase.Running? ==>
      && t.phase.i == s.phase.i
      && (t.phase.ts.Writing? <==> s.phase.ts.Writing?)
      && (s.phase.ts.Reporting? || t.phase.ts.Reporting? ==> t.phase.ts == s.phase.ts && t.recs == s.recs))
  }

  lemma SameInventoryOk(p: Plan, stored: Option<set<ObjMetadata>>, s: State, t: State)
    requires InventoryOk(p, stored, s) && SameInventory(s, t) && !s.phase.Returned?
    ensures InventoryOk(p, stored, t)
  {
    hide NothingApplied, FinalRefs, DestroySuccessful, Resolved;
  }

  lemma PruneInventory(p: Plan, stored: Option<set<ObjMetadata>>, s: State, t: State, env: PruneEnv)
    requires Staged(p) && SlotsRegistered(p) && Shape(p, s) && InventoryOk(p, stored, s) && StepPrune(p, s, env) == Some(t)
    ensures InventoryOk(p, stored, t)
  {
    assert Slot(p, s.phase.i, s.phase.ts.k);
    assert IdAt(p, s.phase.i, s.phase.ts.k) == CurrentObject(p, s, DeleteStrategy).id;
    hide NothingApplied, FinalRefs, DestroySuccessful, Resolved, FilterObject, PruneOne;
    assert !AtStart(p, s) && !AtEnd(p, s);
  }

  lemma OtherStepsSame(p: Plan, s: State, l: Label, t: State)
    requires Shape(p, s) && Step(p, s, l) == Some(t)
    requires l.StatusEvent? || l.ApplyStep? || l.Expire? || l.WaitGoroutine?
    ensures SameInventory(s, t)
  {
    hide FilterObject, ApplyRecord, WaitSpec.StatusUpdate, WaitSpec.SendTimeoutEvents;
  }

  lemma NoStepAfterReturn(p: Plan, s: State, l: Label, t: State)
    requires Step(p, s, l) == Some(t)
    ensures !s.phase.Returned?
  {
  }

  lemma StepInventory(p: Plan, stored: Option<set<ObjMetadata>>, s: State, l: Label, t: State)
    requires WellPlanned(p) && !p.dryRun && Core(p, s) && InventoryOk(p, stored, s) && Step(p, s, l) == Some(t)
    ensures InventoryOk(p, stored, t)
  {
    assert Shape(p, s) && Staged(p) && SlotsRegistered(p);
    NoStepAfterReturn(p, s, l, t);
    hide Core, WellPlanned, InventoryOk, Shape, Staged, SlotsRegistered, StepStatus, StepSync, StepInv, StepApply, StepPrune, StepAbort;
    match l
    case Sync => SyncInventory(p, stored, s, t);
    case WatchError => if s.abort.None? { AbortInventory(p, stored, s, t, WatchFailed); }
    case CtxDone => AbortInventory(p, stored, s, t, ContextDone);
    case PruneStep(env) => PruneInventory(p, stored, s, t, env);
    case InvStep(env) => InvInventory(p, stored, s, t, env);
    case TaskResult =>
      if AtStart(p, s) {
        StartAppliesNothing(p, s);
      }
      if s.abort.Some? || s.phase.ts == Reporting(true) {
        GiveUpInventory(p, stored, s, t);
      } else {
        MoveOnInventory(p, stored, s, t);
      }
    case _ =>
      OtherStepsSame(p, s, l, t);
      SameInventoryOk(p, stored, s, t);
  }

  lemma StepKnown(p: Plan, s: State, l: Label, t: State)
    requires Core(p, s) && Known(s.recs) && Step(p, s, l) == Some(t)
    ensures Known(t.recs)
  {
    if !l.ApplyStep? && !l.PruneStep? {
      RunSafety.OnlyReconcileChanges(p, s, l, t);
      hide Step, Core;
    } else {
      hide FilterObject, Core;
    }
  }

  lemma {:induction false} ExecInventory(p: Plan, stored: Option<set<ObjMetadata>>, labels: seq<Label>)
    requires WellPlanned(p) && !p.dryRun && Exec(p, Init(p, stored), labels).Some?
    ensures InventoryOk(p, stored, Exec(p, Init(p, stored), labels).value)
    ensures Known(Exec(p, Init(p, stored), labels).value.recs)
  {
    if labels != [] {
      var before := labels[..|labels| - 1];
      ExecInventory(p, stored, before);
      ExecCore(p, stored, before);
      var s, t := Exec(p, Init(p, stored), before).value, Exec(p, Init(p, stored), labels).value;
      hide WellPlanned, Core, InventoryOk, Known, Step;
      StepInventory(p, stored, s, labels[|labels| - 1], t);
      StepKnown(p, s, labels[|labels| - 1], t);
    }
  }

  lemma OkAccounted(p: Plan, stored: Option<set<ObjMetadata>>, s: State)
    requires WellPlanned(p) && Core(p, s) && InventoryOk(p, stored, s)
    ensures Accounted(p, stored, s)
  {
    if !s.phase.Returned? && AtStart(p, s) {
      StartAppliesNothing(p, s);
    }
    hide WellPlanned, Core, NothingApplied, Resolved, FinalRefs, DestroySuccessful;
  }

  /** Write-ahead: in every reachable state of an apply run, aborted and failed runs included, each object
      whose apply has been attempted is in the stored inventory. */
  lemma AttemptedAppliesStored(p: Plan, stored: Option<set<ObjMetadata>>, s: State, id: ObjMetadata)
    requires WellPlanned(p) && !p.dryRun && !p.destroy && Reachable(p, stored, s)
    requires id in s.recs && s.recs[id].strategy == ApplyStrategy && s.recs[id].actuation != Pending
    ensures s.stored.Some? && id in s.stored.value
  {
    var labels :| Exec(p, Init(p, stored), labels) == Some(s);
    ExecInventory(p, stored, labels);
    ExecCore(p, stored, labels);
    OkAccounted(p, stored, s);
    if FinalWritten(p, s) {
      FinalRefsExactly(p, s.recs, s.abandoned, id);
    }
  }

  /** After a successful apply run the stored inventory is exactly the planned objects that are neither
      gone nor abandoned, and the invalid objects it already knew; the loss or gain of any other id is excluded. */
  lemma FinalInventoryExact(p: Plan, stored: Option<set<ObjMetadata>>, s: State, id: ObjMetadata)
    requires WellPlanned(p) && !p.dryRun && !p.destroy && Reachable(p, stored, s)
    requires s.phase == Returned(Success)
    ensures s.stored.Some?
    ensures id in s.stored.value <==>
      || (id in AllRefs(p) && id in p.invalid)
      || (id in p.planned && id !in s.abandoned && !Gone(s.recs, id))
    ensures id in s.abandoned ==> id in p.planned && p.planned[id] == DeleteStrategy
  {
    var labels :| Exec(p, Init(p, stored), labels) == Some(s);
    ExecInventory(p, stored, labels);
    ExecCore(p, stored, labels);
    FinalRefsExactly(p, s.recs, s.abandoned, id);
  }

  /** In every reachable state of an apply run, a prior id missing from the stored inventory was dropped
      by the final write, and only because it was abandoned, is gone, or was never planned and is not invalid. */
  lemma NothingForgottenSilently(p: Plan, stored: Option<set<ObjMetadata>>, s: State, id: ObjMetadata)
    requires WellPlanned(p) && !p.dryRun && !p.destroy && Reachable(p, stored, s)
    requires stored == Some(p.prior) && id in p.prior
    ensures s.stored.Some?
    ensures id !in s.stored.value ==>
      Resolved(s.recs) && id !in p.invalid && (id in s.abandoned || Gone(s.recs, id) || id !in p.planned)
  {
    var labels :| Exec(p, Init(p, stored), labels) == Some(s);
    ExecInventory(p, stored, labels);
    ExecCore(p, stored, labels);
    OkAccounted(p, stored, s);
    if FinalWritten(p, s) {
      FinalRefsExactly(p, s.recs, s.abandoned, id);
    }
  }

  /** A destroy plan deletes and applies nothing. */
  lemma DestroyPlansDeletes(p: Plan, id: ObjMetadata)
    requires WellPlanned(p) && p.destroy && id in p.planned
    ensures p.planned[id] == DeleteStrategy
  {
    var j, m :| Slot(p, j, m) && IdAt(p, j, m) == id;
  }

  /** Neither failed nor stuck: skipped deletes pass. */
  predicate Harmless(r: Record) {
    && (r.actuation == Succeeded || r.actuation == Skipped)
    && r.reconcile != ReconcileFailed && r.reconcile != ReconcileTimeout
  }

  lemma DestroySuccessfulIff(recs: RecordMap)
    requires Resolved(recs) && Known(recs) && forall id :: id in recs ==> recs[id].strategy == DeleteStrategy
    ensures DestroySuccessful(recs) <==> forall id :: id in recs ==> Harmless(recs[id])
  {
    if DestroySuccessful(recs) {
      forall id | id in recs ensures Harmless(recs[id]) {
        assert id !in WithActuation(recs, DeleteStrategy, Failed);
        assert id !in WithReconcile(recs, ReconcileFailed) && id !in WithReconcile(recs, ReconcileTimeout);
      }
    } else if WithActuation(recs, DeleteStrategy, Failed) != {} {
      var id :| id in WithActuation(recs, DeleteStrategy, Failed);
      assert !Harmless(recs[id]);
    } else if WithReconcile(recs, ReconcileFailed) != {} {
      var id :| id in WithReconcile(recs, ReconcileFailed);
      assert !Harmless(recs[id]);
    } else {
      var id :| id in WithReconcile(recs, ReconcileTimeout);
      assert !Harmless(recs[id]);
    }
  }

  /** After a successful destroy run the inventory object is gone exactly when no delete failed and no wait
      failed or timed out.  Skipped deletes do not keep it alive. */
  lemma DestroyedIff(p: Plan, stored: Option<set<ObjMetadata>>, s: State)
    requires WellPlanned(p) && !p.dryRun && p.destroy && Reachable(p, stored, s)
    requires s.phase == Returned(Success)
    ensures s.stored == None <==> forall id :: id in s.recs ==> Harmless(s.recs[id])
  {
    var labels :| Exec(p, Init(p, stored), labels) == Some(s);
    ExecInventory(p, stored, labels);
    ExecCore(p, stored, labels);
    forall id | id in s.recs ensures s.recs[id].strategy == DeleteStrategy {
      DestroyPlansDeletes(p, id);
    }
    DestroySuccessfulIff(s.recs);
    hide WellPlanned, FinalRefs, Core, DestroySuccessful, Harmless;
  }

  /** When the inventory object survives a destroy run, it holds exactly what is left. */
  lemma FinalDestroyExact(p: Plan, stored: Option<set<ObjMetadata>>, s: State, id: ObjMetadata)
    requires WellPlanned(p) && !p.dryRun && p.destroy && Reachable(p, stored, s)
    requires s.phase == Returned(Success) && s.stored.Some?
    ensures id in s.stored.value <==>
      || (id in p.prior && id in p.invalid)
      || (id in p.planned && id !in s.abandoned && !Gone(s.recs, id))
  {
    var labels :| Exec(p, Init(p, stored), labels) == Some(s);
    ExecInventory(p, stored, labels);
    ExecCore(p, stored, labels);
    forall x | x in p.planned ensures p.planned[x] == DeleteStrategy {
      DestroyPlansDeletes(p, x);
    }
    assert RefsPlanned(p) && AllRefs(p) == p.prior;
    hide WellPlanned, Reachable, FinalRefs, DestroySuccessful;
    FinalRefsExactly(p, s.recs, s.abandoned, id);
  }

  lemma DryStep(p: Plan, s: State, l: Label, t: State)
    requires p.dryRun && Step(p, s, l) == Some(t)
    ensures t.stored == s.stored && t.deletions == s.deletions && t.abandoned == s.abandoned
  {
    if l.PruneStep? {
      hide FilterObject;
    } else {
      hide FilterObject, ApplyRecord, PruneOne, WaitSpec.StatusUpdate, WaitSpec.Start, FinalRefs, WaitSpec.SendTimeoutEvents, DestroySuccessful;
    }
  }

  /** A dry run writes nothing, deletes nothing and abandons nothing. */
  lemma {:induction false} DryRunWritesNothing(p: Plan, stored: Option<set<ObjMetadata>>, labels: seq<Label>)
    requires p.dryRun && Exec(p, Init(p, stored), labels).Some?
    ensures var s := Exec(p, Init(p, stored), labels).value;
      s.stored == stored && s.deletions == [] && s.abandoned == {}
  {
    if labels != [] {
      DryRunWritesNothing(p, stored, labels[..|labels| - 1]);
      DryStep(p, Exec(p, Init(p, stored), labels[..|labels| - 1]).value, labels[|labels| - 1],
        Exec(p, Init(p, stored), labels).value);
    }
  }

  /** An inventory task fails exactly when its checks fail before anything is applied, or its write fails outside a dry run;
      the failure ends the run with "task failed", and then nothing after that task has been started. */
  lemma InventoryFailureEndsRun(p: Plan, s: State, env: InvEnv, t: State, u: State)
    requires Step(p, s, InvStep(env)) == Some(t) && Step(p, t, TaskResult) == Some(u)
    ensures s.phase.Running? && s.phase.i < |p.tasks| && (p.tasks[s.phase.i].InvAdd? || p.tasks[s.phase.i].InvSet?)
    ensures u.phase == Returned(TaskFailed) <==>
      (p.tasks[s.phase.i].InvAdd? && !env.precheckOk) || (!p.dryRun && !env.writeOk)
    ensures p.tasks[s.phase.i].InvAdd? && !env.precheckOk ==> u.stored == s.stored && u.refs == s.refs
    ensures u.phase == Returned(TaskFailed) ==> u.groups == s.groups + [Finished(s.phase.i)] && u.recs == s.recs
  {
    hide FinalRefs, DestroySuccessful, StartState;
  }
}
