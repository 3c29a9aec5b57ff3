/** The loops of the apply and prune tasks over the shared context, and the engine steps they are. */
module ActuationTasks {
  import opened Base
  import opened Records
  import opened Objects
  import opened DependencyFilter
  import opened Actuate
  import opened ActuationOutcomes
  import opened Engine
  import opened Graphs
  import opened InventoryManager
  import opened TaskContexts

  /** What the dependency filter looks at besides the records. */
  datatype World = World(invalid: set<ObjMetadata>, g: GraphVal, dryRun: bool)

  ghost function WorldOf(tc: TaskContext, dryRun: bool): World
    reads tc, tc.graph
  {
    World(tc.invalid, tc.graph.Value(), dryRun)
  }

  function Judge(w: World, recs: RecordMap, strategy: Strategy, id: ObjMetadata): Verdict {
    Filter(recs, w.invalid, w.g.edges, w.g.reverse, strategy, w.dryRun, id)
  }

  /** Every related object is valid, actuated the same way and, outside dry runs, reconciled. */
  ghost predicate Unhindered(w: World, recs: RecordMap, strategy: Strategy, id: ObjMetadata) {
    AllClear(recs, w.invalid, strategy, w.dryRun, Relations(w.g.edges, w.g.reverse, strategy, id))
  }

  lemma JudgeKinds(w: World, recs: RecordMap, strategy: Strategy, id: ObjMetadata)
    requires strategy != UnknownStrategy
    ensures Judge(w, recs, strategy, id) == Pass <==> Unhindered(w, recs, strategy, id)
    ensures Judge(w, recs, strategy, id).Skip? <==>
      Hindered(recs, w.invalid, strategy, w.dryRun, Relations(w.g.edges, w.g.reverse, strategy, id))
  {
    VerdictKinds(recs, w.invalid, strategy, w.dryRun, Relations(w.g.edges, w.g.reverse, strategy, id));
    hide AllClear, Hindered, FilterAll, Relations;
  }

  // ---------- The dependency filter on the shared context ----------

  method FilterRelation(tc: TaskContext, strategy: Strategy, dryRun: bool, b: ObjMetadata) returns (v: Verdict)
    requires tc.manager.Valid()
    ensures v == FilterByRelationship(tc.manager.Contents(), tc.invalid, strategy, dryRun, b)
  {
    if b in tc.invalid {
      return Fatal(InvalidRelation);
    }
    var at := tc.manager.ObjectStatus(b);
    if at.None? {
      return Fatal(UnknownRelation);
    }
    var status := tc.manager.statuses[at.value].record;
    if status.strategy != strategy {
      return Skip(ActuationMismatch(b));
    }
    match status.actuation {
      case Pending => return Fatal(PrematureActuation);
      case Skipped => return Skip(ActuationPrevented(b));
      case Failed => return Skip(ActuationPrevented(b));
      case UnknownActuation => return Fatal(InvalidActuation);
      case Succeeded =>
    }
    if dryRun {
      return Pass;
    }
    match status.reconcile {
      case ReconcilePending => v := Fatal(PrematureReconcile);
      case ReconcileSkipped => v := Skip(ReconcilePrevented(b));
      case ReconcileFailed => v := Skip(ReconcilePrevented(b));
      case ReconcileTimeout => v := Skip(ReconcilePrevented(b));
      case UnknownReconcile => v := Fatal(InvalidReconcile);
      case ReconcileSucceeded => v := Pass;
    }
  }

  lemma {:induction false} FirstObjection(
    recs: RecordMap, invalid: set<ObjMetadata>, strategy: Strategy, dryRun: bool, rels: seq<ObjMetadata>, i: nat)
    requires i <= |rels|
    requires forall k :: 0 <= k < i ==> FilterByRelationship(recs, invalid, strategy, dryRun, rels[k]) == Pass
    ensures FilterAll(recs, invalid, strategy, dryRun, rels) == FilterAll(recs, invalid, strategy, dryRun, rels[i..])
  {
    hide FilterByRelationship;
    if i > 0 {
      FirstObjection(recs, invalid, strategy, dryRun, rels[1..], i - 1);
      assert rels[1..][i - 1..] == rels[i..];
    } else {
      assert rels[0..] == rels;
    }
  }

  method FilterContext(tc: TaskContext, strategy: Strategy, dryRun: bool, id: ObjMetadata) returns (v: Verdict)
    requires tc.manager.Valid()
    ensures v == Judge(WorldOf(tc, dryRun), tc.manager.Contents(), strategy, id)
  {
    hide FilterByRelationship;
    var rels;
    if strategy == ApplyStrategy {
      rels := tc.graph.Dependencies(id);
    } else if strategy == DeleteStrategy {
      rels := tc.graph.Dependents(id);
    } else {
      return Fatal(InvalidStrategy);
    }
    for i := 0 to |rels|
      invariant forall k :: 0 <= k < i ==>
        FilterByRelationship(tc.manager.Contents(), tc.invalid, strategy, dryRun, rels[k]) == Pass
    {
      v := FilterRelation(tc, strategy, dryRun, rels[i]);
      if v != Pass {
        FirstObjection(tc.manager.Contents(), tc.invalid, strategy, dryRun, rels, i);
        return v;
      }
    }
    FirstObjection(tc.manager.Contents(), tc.invalid, strategy, dryRun, rels, |rels|);
    v := Pass;
  }

  // ---------- Applying ----------

  function ApplyAll(w: World, recs: RecordMap, objs: seq<Unstructured>, envs: nat -> ApplyEnv): RecordMap {
    if objs == [] then recs
    else
      var n := |objs| - 1;
      var before := ApplyAll(w, recs, objs[..n], envs);
      before[objs[n].id := ApplyRecord(envs(n), Judge(w, before, ApplyStrategy, objs[n].id))]
  }

  method ApplyObject(tc: TaskContext, dryRun: bool, id: ObjMetadata, env: ApplyEnv)
    requires tc.manager.Valid()
    modifies tc.manager
    ensures tc.manager.Valid()
    ensures tc.manager.Contents() == old(tc.manager.Contents())[id :=
      ApplyRecord(env, Judge(WorldOf(tc, dryRun), old(tc.manager.Contents()), ApplyStrategy, id))]
    ensures Is(tc.manager.Contents(), id, ApplyStrategy, Succeeded) <==>
      Applies(env, Unhindered(WorldOf(tc, dryRun), old(tc.manager.Contents()), ApplyStrategy, id))
  {
    JudgeKinds(WorldOf(tc, dryRun), tc.manager.Contents(), ApplyStrategy, id);
    ApplyOutcome(env, Judge(WorldOf(tc, dryRun), tc.manager.Contents(), ApplyStrategy, id));
    hide Judge, Unhindered, Applies, Hindered;
    if !env.infoOk {
      tc.manager.Add(id, ApplyStrategy, Failed);
      return;
    }
    if env.policy == Abort {
      tc.manager.Add(id, ApplyStrategy, Failed);
      return;
    } else if env.policy != Allow {
      tc.manager.Add(id, ApplyStrategy, Skipped);
      return;
    }
    var v := FilterContext(tc, ApplyStrategy, dryRun, id);
    if v.Fatal? {
      tc.manager.Add(id, ApplyStrategy, Failed);
      return;
    } else if v.Skip? {
      tc.manager.Add(id, ApplyStrategy, Skipped);
      return;
    }
    if !env.mutateOk {
      tc.manager.Add(id, ApplyStrategy, Failed);
      return;
    }
    match env.applied {
      case None => tc.manager.Add(id, ApplyStrategy, Failed);
      case Some(res) => tc.manager.AddSuccessfulApply(id, res.uid, res.generation);
    }
  }

  /** ApplyTask.Start: whatever happens to one object, the loop goes on to the next. */
  method ApplyObjects(tc: TaskContext, dryRun: bool, objs: seq<Unstructured>, envs: nat -> ApplyEnv)
    requires tc.manager.Valid()
    modifies tc.manager
    ensures tc.manager.Valid()
    ensures tc.manager.Contents() == ApplyAll(WorldOf(tc, dryRun), old(tc.manager.Contents()), objs, envs)
  {
    hide Judge, ApplyRecord;
    for i := 0 to |objs|
      invariant tc.manager.Valid() && WorldOf(tc, dryRun) == old(WorldOf(tc, dryRun))
      invariant tc.manager.Contents() == ApplyAll(WorldOf(tc, dryRun), old(tc.manager.Contents()), objs[..i], envs)
    {
      assert objs[..i + 1][..i] == objs[..i];
      ApplyObject(tc, dryRun, objs[i].id, envs(i));
    }
    assert objs[..|objs|] == objs;
  }

  // ---------- Pruning ----------

  datatype Pruning = Pruning(recs: RecordMap, abandoned: set<ObjMetadata>, deletions: seq<Deletion>)

  function Pruned(b: Pruning, obj: Unstructured, e: PruneEffect): Pruning {
    Pruning(
      b.recs[obj.id := e.record],
      if e.abandoned then b.abandoned + {obj.id} else b.abandoned,
      if e.deleteSent then b.deletions + [Deletion(obj.id, obj.uid)] else b.deletions)
  }

  function PruneAll(w: World, b: Pruning, objs: seq<Unstructured>, uids: set<string>, envs: nat -> PruneEnv): Pruning {
    if objs == [] then b
    else
      var n := |objs| - 1;
      var before := PruneAll(w, b, objs[..n], uids, envs);
      var verdict := Judge(w, before.recs, DeleteStrategy, objs[n].id);
      Pruned(before, objs[n], PruneOne(envs(n), verdict, objs[n].uid, uids, w.dryRun))
  }

  ghost function PruningOf(tc: TaskContext, sent: seq<Deletion>): Pruning
    reads tc, tc.manager
  {
    Pruning(tc.manager.Contents(), tc.abandoned, sent)
  }

  /** One turn of the prune loop; sent is the list of delete requests so far. */
  method PruneObject(tc: TaskContext, dryRun: bool, obj: Unstructured, uids: set<string>, env: PruneEnv, sent: seq<Deletion>)
    returns (sent': seq<Deletion>)
    requires tc.manager.Valid()
    modifies tc`abandoned, tc.manager
    ensures tc.manager.Valid()
    ensures PruningOf(tc, sent') == Pruned(old(PruningOf(tc, sent)), obj,
      PruneOne(env, Judge(WorldOf(tc, dryRun), old(tc.manager.Contents()), DeleteStrategy, obj.id), obj.uid, uids, dryRun))
    ensures var pass := Unhindered(WorldOf(tc, dryRun), old(tc.manager.Contents()), DeleteStrategy, obj.id);
      && tc.abandoned == old(tc.abandoned) + (if Abandons(env, pass, obj.uid, uids, dryRun) then {obj.id} else {})
      && sent' == sent + (if Sends(env, pass, obj.uid, uids, dryRun) then [Deletion(obj.id, obj.uid)] else [])
      && (Is(tc.manager.Contents(), obj.id, DeleteStrategy, Succeeded) <==> Deletes(env, pass, obj.uid, uids, dryRun))
  {
    JudgeKinds(WorldOf(tc, dryRun), tc.manager.Contents(), DeleteStrategy, obj.id);
    PruneOutcome(env, Judge(WorldOf(tc, dryRun), tc.manager.Contents(), DeleteStrategy, obj.id), obj.uid, uids, dryRun);
    hide Judge, Unhindered, Abandons, Sends, Deletes, PruneSkips, Hindered, WorldOf, Filter, AppliedUIDs;
    sent' := sent;
    if obj.uid == "" {
      tc.manager.Add(obj.id, DeleteStrategy, Failed);
      return;
    }
    if env.policy == Abort {
      tc.manager.Add(obj.id, DeleteStrategy, Failed);
      return;
    }
    if env.policy == RefuseByAnnotation {
      if !dryRun {
        if !env.annotationRemoved {
          tc.manager.Add(obj.id, DeleteStrategy, Failed);
          return;
        }
        tc.AddAbandonedObject(obj.id);
      }
      tc.manager.Add(obj.id, DeleteStrategy, Skipped);
      return;
    }
    if env.policy == Refuse {
      tc.manager.Add(obj.id, DeleteStrategy, Skipped);
      return;
    }
    var v := FilterContext(tc, DeleteStrategy, dryRun, obj.id);
    if v.Fatal? {
      tc.manager.Add(obj.id, DeleteStrategy, Failed);
      return;
    }
    if v.Skip? {
      tc.manager.Add(obj.id, DeleteStrategy, Skipped);
      return;
    }
    sent' := DeleteUnlessApplied(tc, dryRun, obj, uids, env, sent);
  }

  /** The end of a turn that no filter stopped: an object that was applied under another identity is abandoned, any
      other is deleted. */
  method DeleteUnlessApplied(tc: TaskContext, dryRun: bool, obj: Unstructured, uids: set<string>, env: PruneEnv, sent: seq<Deletion>)
    returns (sent': seq<Deletion>)
    requires tc.manager.Valid()
    modifies tc`abandoned, tc.manager
    ensures tc.manager.Valid()
    ensures tc.abandoned == old(tc.abandoned) + (if !dryRun && obj.uid in uids then {obj.id} else {})
    ensures sent' == sent + (if !dryRun && obj.uid !in uids then [Deletion(obj.id, obj.uid)] else [])
    ensures tc.manager.Contents() == old(tc.manager.Contents())[obj.id :=
      if obj.uid in uids then NewRecord(DeleteStrategy, Skipped)
      else if !dryRun && env.deleted == DeleteError then NewRecord(DeleteStrategy, Failed)
      else Record(DeleteStrategy, Succeeded, ReconcilePending, obj.uid, 0)]
  {
    sent' := sent;
    if obj.uid in uids {
      if !dryRun {
        tc.AddAbandonedObject(obj.id);
      }
      tc.manager.Add(obj.id, DeleteStrategy, Skipped);
      return;
    }
    if !dryRun {
      sent' := sent + [Deletion(obj.id, obj.uid)];
      if env.deleted == DeleteError {
        tc.manager.Add(obj.id, DeleteStrategy, Failed);
        return;
      }
    }
    tc.manager.AddSuccessfulDelete(obj.id, obj.uid);
  }

  /** PruneTask.Start: takes the applied UIDs once, then prunes the objects in order. */
  method PruneObjects(tc: TaskContext, dryRun: bool, objs: seq<Unstructured>, envs: nat -> PruneEnv, sent: seq<Deletion>)
    returns (sent': seq<Deletion>)
    requires tc.manager.Valid()
    modifies tc`abandoned, tc.manager
    ensures tc.manager.Valid()
    ensures PruningOf(tc, sent') ==
      PruneAll(WorldOf(tc, dryRun), old(PruningOf(tc, sent)), objs, AppliedUIDs(old(tc.manager.Contents())), envs)
  {
    hide Judge, PruneOne;
    var uids := tc.manager.AppliedResourceUIDs();
    sent' := sent;
    for i := 0 to |objs|
      invariant tc.manager.Valid() && WorldOf(tc, dryRun) == old(WorldOf(tc, dryRun))
      invariant PruningOf(tc, sent') == PruneAll(WorldOf(tc, dryRun), old(PruningOf(tc, sent)), objs[..i], uids, envs)
    {
      assert objs[..i + 1][..i] == objs[..i];
      sent' := PruneObject(tc, dryRun, objs[i], uids, envs(i), sent');
    }
    assert objs[..|objs|] == objs;
  }

  // ---------- The loops are runs of the engine ----------

  ghost function PlanWorld(p: Plan): World {
    World(p.invalid, GraphVal(p.deps, p.rdeps), p.dryRun)
  }

  function ApplyLabels(envs: nat -> ApplyEnv, n: nat): seq<Label> {
    if n == 0 then [] else ApplyLabels(envs, n - 1) + [ApplyStep(envs(n - 1))]
  }

  function PruneLabels(envs: nat -> PruneEnv, n: nat): seq<Label> {
    if n == 0 then [] else PruneLabels(envs, n - 1) + [PruneStep(envs(n - 1))]
  }

  /** One turn of the apply loop is one step. */
  lemma ApplyTurn(p: Plan, s: State, env: ApplyEnv)
    requires AtObject(p, s, ApplyStrategy)
    ensures var id := CurrentObject(p, s, ApplyStrategy).id;
      Step(p, s, ApplyStep(env)) == Some(s.(
        recs := s.recs[id := ApplyRecord(env, Judge(PlanWorld(p), s.recs, ApplyStrategy, id))],
        phase := Running(s.phase.i, s.phase.ts.(k := s.phase.ts.k + 1))))
  {
    JudgeIsFilter(p, s.recs, ApplyStrategy, CurrentObject(p, s, ApplyStrategy).id);
    hide Judge, FilterObject, ApplyRecord;
  }

  /** An uninterrupted apply task takes the engine from its first object to its last, with the loop's records. */
  lemma {:induction false} ApplyLoopIsRun(p: Plan, s: State, envs: nat -> ApplyEnv, n: nat)
    requires s.phase.Running? && s.phase.i < |p.tasks| && p.tasks[s.phase.i].Apply?
    requires s.phase.ts.Actuating? && s.phase.ts.k == 0 && n <= |p.tasks[s.phase.i].objs|
    ensures Exec(p, s, ApplyLabels(envs, n)) == Some(s.(
      recs := ApplyAll(PlanWorld(p), s.recs, p.tasks[s.phase.i].objs[..n], envs),
      phase := Running(s.phase.i, s.phase.ts.(k := n))))
  {
    hide Step, PlanWorld, Judge, ApplyRecord;
    if n > 0 {
      ApplyLoopIsRun(p, s, envs, n - 1);
      var objs := p.tasks[s.phase.i].objs;
      assert objs[..n][..n - 1] == objs[..n - 1];
      ApplyTurn(p, Exec(p, s, ApplyLabels(envs, n - 1)).value, envs(n - 1));
      assert ApplyLabels(envs, n)[..|ApplyLabels(envs, n)| - 1] == ApplyLabels(envs, n - 1);
    }
  }

  lemma JudgeIsFilter(p: Plan, recs: RecordMap, strategy: Strategy, id: ObjMetadata)
    ensures FilterObject(p, recs, strategy, id) == Judge(PlanWorld(p), recs, strategy, id)
  {
  }

  /** One turn of the prune loop is one step. */
  lemma PruneTurn(p: Plan, s: State, env: PruneEnv)
    requires AtObject(p, s, DeleteStrategy)
    ensures var obj := CurrentObject(p, s, DeleteStrategy);
      var e := PruneOne(env, Judge(PlanWorld(p), s.recs, DeleteStrategy, obj.id), obj.uid, s.phase.ts.currentUIDs, p.dryRun);
      var b := Pruned(Pruning(s.recs, s.abandoned, s.deletions), obj, e);
      Step(p, s, PruneStep(env)) == Some(s.(recs := b.recs, abandoned := b.abandoned, deletions := b.deletions,
        phase := Running(s.phase.i, s.phase.ts.(k := s.phase.ts.k + 1))))
  {
    JudgeIsFilter(p, s.recs, DeleteStrategy, CurrentObject(p, s, DeleteStrategy).id);
    hide Judge, FilterObject, PruneOne;
  }

  /** The same for a prune task. */
  lemma {:induction false} PruneLoopIsRun(p: Plan, s: State, envs: nat -> PruneEnv, n: nat)
    requires s.phase.Running? && s.phase.i < |p.tasks| && p.tasks[s.phase.i].Prune?
    requires s.phase.ts.Actuating? && s.phase.ts.k == 0 && n <= |p.tasks[s.phase.i].objs|
    ensures var b := PruneAll(PlanWorld(p), Pruning(s.recs, s.abandoned, s.deletions),
        p.tasks[s.phase.i].objs[..n], s.phase.ts.currentUIDs, envs);
      Exec(p, s, PruneLabels(envs, n)) == Some(s.(
        recs := b.recs, abandoned := b.abandoned, deletions := b.deletions,
        phase := Running(s.phase.i, s.phase.ts.(k := n))))
  {
    assert PlanWorld(p).dryRun == p.dryRun;
    hide Step, PlanWorld, Judge, PruneOne, Pruned;
    if n > 0 {
      PruneLoopIsRun(p, s, envs, n - 1);
      var objs := p.tasks[s.phase.i].objs;
      assert objs[..n][..n - 1] == objs[..n - 1];
      PruneTurn(p, Exec(p, s, PruneLabels(envs, n - 1)).value, envs(n - 1));
      assert PruneLabels(envs, n)[..|PruneLabels(envs, n)| - 1] == PruneLabels(envs, n - 1);
    }
  }
}
