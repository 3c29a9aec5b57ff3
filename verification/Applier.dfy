/** Preparing an apply or a destroy, and what a whole run guarantees in terms of its inputs. */
module Applier {
  import opened Base
  import opened Records
  import opened Objects
  import opened ObjMetadataSets
  import opened DependencyFilter
  import opened Engine
  import opened PlanSpec
  import RunInvariant
  import opened RunSafety
  import opened RunInventory
  import opened RunTurns
  import WaitEvidence
  import opened DependencyGraph
  import opened DependencyGraphFacts
  import opened Graphs
  import opened TaskContexts
  import opened Validation
  import opened Solver
  import opened SolverFacts
  import opened SolverTheorems
  import opened TaskQueueBuilder

  // ---------- Fetching the objects to prune ----------

  /** The cluster's answer to a get: an object, no such object, no such type, or a failure. */
  datatype Fetch = Found(obj: Unstructured) | NotFound | NoMatch | Failure

  type Cluster = ObjMetadata -> Fetch

  /** An object is fetched under its own name. */
  ghost predicate Honest(cluster: Cluster) {
    forall id :: cluster(id).Found? ==> cluster(id).obj.id == id
  }

  /** Fetch the listed objects in order, skipping those that are not there; stop at the first failure. */
  function FetchAll(ids: seq<ObjMetadata>, cluster: Cluster): Option<seq<Unstructured>> {
    if ids == [] then Some([])
    else
      match FetchAll(ids[..|ids| - 1], cluster)
      case None => None
      case Some(objs) =>
        match cluster(ids[|ids| - 1])
        case Found(obj) => Some(objs + [obj])
        case NotFound => Some(objs)
        case NoMatch => Some(objs)
        case Failure => None
  }

  /** The prior objects that are not given locally, in inventory order. */
  function PruneIds(refs: seq<ObjMetadata>, objs: seq<Unstructured>): seq<ObjMetadata> {
    Pick(refs, ToSet(refs) - ToSet(Ids(objs)))
  }

  method GetPruneObjs(refs: seq<ObjMetadata>, objs: seq<Unstructured>, cluster: Cluster) returns (r: Option<seq<Unstructured>>)
    ensures r == FetchAll(PruneIds(refs, objs), cluster)
    ensures r.None? <==> exists id :: id in refs && id !in Ids(objs) && cluster(id).Failure?
  {
    FetchFailsIff(refs, objs, cluster);
    var ids := Diff(refs, Ids(objs));
    var found: seq<Unstructured> := [];
    for i := 0 to |ids|
      invariant FetchAll(ids[..i], cluster) == Some(found)
    {
      assert ids[..i + 1][..i] == ids[..i];
      match cluster(ids[i])
      case Found(obj) => found := found + [obj];
      case NotFound =>
      case NoMatch =>
      case Failure =>
        FailureSticks(ids, i + 1, cluster);
        return None;
    }
    assert ids[..|ids|] == ids;
    r := Some(found);
  }

  lemma {:induction false} FailureSticks(ids: seq<ObjMetadata>, i: nat, cluster: Cluster)
    requires i <= |ids| && FetchAll(ids[..i], cluster) == None
    ensures FetchAll(ids, cluster) == None
  {
    if i < |ids| {
      assert ids[..|ids| - 1][..i] == ids[..i];
      FailureSticks(ids[..|ids| - 1], i, cluster);
    } else {
      assert ids[..i] == ids;
    }
  }

  lemma {:induction false} FetchAllFacts(ids: seq<ObjMetadata>, cluster: Cluster)
    requires Honest(cluster) && NoDup(ids) && FetchAll(ids, cluster).Some?
    ensures var objs := FetchAll(ids, cluster).value;
      && NoDup(Ids(objs))
      && ToSet(Ids(objs)) == set id | id in ids && cluster(id).Found?
  {
    if ids != [] {
      var front, id := ids[..|ids| - 1], ids[|ids| - 1];
      FetchAllFacts(front, cluster);
      ToSetSnoc(ids);
      var objs := FetchAll(front, cluster).value;
      if cluster(id).Found? {
        assert id !in ToSet(Ids(objs));
        AppendId(objs, cluster(id).obj);
      }
      hide NoDup, Ids;
      assert forall x :: x in ids <==> x in ToSet(ids);
      assert forall x :: x in front <==> x in ToSet(front);
    }
  }

  lemma {:induction false} FetchAllFails(ids: seq<ObjMetadata>, cluster: Cluster)
    ensures FetchAll(ids, cluster).None? <==> exists id :: id in ids && cluster(id).Failure?
  {
    if ids != [] {
      var front, last := ids[..|ids| - 1], ids[|ids| - 1];
      FetchAllFails(front, cluster);
      assert forall id :: id in ids <==> id in front || id == last by {
        assert ids == front + [last];
      }
    }
  }

  lemma {:induction false} FetchAllAnswers(ids: seq<ObjMetadata>, cluster: Cluster)
    requires FetchAll(ids, cluster).Some? && Honest(cluster)
    ensures forall o :: o in FetchAll(ids, cluster).value ==> cluster(o.id) == Found(o)
  {
    if ids != [] {
      FetchAllAnswers(ids[..|ids| - 1], cluster);
    }
  }

  lemma InPruneIds(refs: seq<ObjMetadata>, objs: seq<Unstructured>, id: ObjMetadata)
    ensures id in PruneIds(refs, objs) <==> id in refs && id !in Ids(objs)
  {
    PickFacts(refs, ToSet(refs) - ToSet(Ids(objs)));
    assert id in PruneIds(refs, objs) <==> id in ToSet(PruneIds(refs, objs));
    hide NoDup, Pick;
  }

  /** Fetching fails exactly when some object to prune can neither be got nor be told missing. */
  lemma FetchFailsIff(refs: seq<ObjMetadata>, objs: seq<Unstructured>, cluster: Cluster)
    ensures FetchAll(PruneIds(refs, objs), cluster).None? <==>
      exists id :: id in refs && id !in Ids(objs) && cluster(id).Failure?
  {
    FetchAllFails(PruneIds(refs, objs), cluster);
    forall id ensures id in PruneIds(refs, objs) <==> id in refs && id !in Ids(objs) {
      InPruneIds(refs, objs, id);
    }
    hide FetchAll, PruneIds, Ids;
  }

  /** The objects to prune are exactly the prior objects that are not given locally and were there to fetch. */
  lemma PruneObjsExactly(refs: seq<ObjMetadata>, objs: seq<Unstructured>, cluster: Cluster, pruneObjs: seq<Unstructured>)
    requires Honest(cluster) && FetchAll(PruneIds(refs, objs), cluster) == Some(pruneObjs)
    ensures NoDup(Ids(pruneObjs))
    ensures forall id :: id in ToSet(Ids(pruneObjs)) <==> id in refs && id !in Ids(objs) && cluster(id).Found?
    ensures forall o :: o in pruneObjs ==> cluster(o.id) == Found(o)
  {
    FetchAllAnswers(PruneIds(refs, objs), cluster);
    PickFacts(refs, ToSet(refs) - ToSet(Ids(objs)));
    FetchAllFacts(PruneIds(refs, objs), cluster);
    forall id ensures id in PruneIds(refs, objs) <==> id in refs && id !in Ids(objs) {
      assert id in PruneIds(refs, objs) <==> id in ToSet(PruneIds(refs, objs));
    }
    hide NoDup, Pick, FetchAll, Ids;
  }

  lemma FetchedPrepared(refs: seq<ObjMetadata>, objs: seq<Unstructured>, cluster: Cluster, pruneObjs: seq<Unstructured>, o: Options)
    requires Honest(cluster) && FetchAll(PruneIds(refs, objs), cluster) == Some(pruneObjs)
    requires o.destroy ==> objs == []
    ensures Prepared(objs, pruneObjs, ToSet(refs), o)
  {
    PruneObjsExactly(refs, objs, cluster, pruneObjs);
    hide FetchAll, PruneIds, Ids;
  }

  // ---------- From inputs to a plan ----------

  datatype Policy = ExitEarly | SkipInvalid | UnknownPolicy

  datatype PlanError = FetchFailed | ValidationFailed | BadPolicy

  /** What Run does before it starts the runner: fetch, build, and decide what to do about invalid objects. */
  method Prepare(
    ctx: TaskContext, collector: Collector, refs: seq<ObjMetadata>, objs: seq<Unstructured>,
    cluster: Cluster, policy: Policy, o: Options)
    returns (r: Result<seq<Task>, PlanError>)
    requires ctx.manager.Valid() && ctx.manager.Contents() == map[] && collector.Valid() && ctx.invalid == {}
    modifies collector, ctx, ctx.manager
    ensures ctx.manager.Valid() && collector.Valid()
    ensures r == Err(FetchFailed) <==> exists id :: id in refs && id !in Ids(objs) && cluster(id).Failure?
    ensures r == Err(ValidationFailed) <==> r != Err(FetchFailed) && policy == ExitEarly && collector.errors != []
    ensures r == Err(BadPolicy) <==> r != Err(FetchFailed) && policy == UnknownPolicy
    ensures r.Ok? ==>
      && FetchAll(PruneIds(refs, objs), cluster).Some?
      && policy != UnknownPolicy && (policy == ExitEarly ==> collector.errors == [])
      && var pruneObjs := FetchAll(PruneIds(refs, objs), cluster).value;
      var p := BuildPlan(objs, pruneObjs, old(ToSet(collector.invalidIDs)), ToSet(refs), o);
      && r.value == p.tasks
      && ctx.graph.Value() == GraphVal(p.deps, p.rdeps)
      && ctx.manager.Contents() == Register(p.planned)
      && ctx.invalid == p.invalid
  {
    hide BuildPlan, FetchAll, PruneIds, Register;
    var pruneObjs := GetPruneObjs(refs, objs, cluster);
    if pruneObjs.None? {
      return Err(FetchFailed);
    }
    var builder := new TaskQueueBuilder(collector);
    builder.WithApplyObjects(objs);
    builder.WithPruneObjects(pruneObjs.value);
    ghost var p := BuildPlan(objs, pruneObjs.value, ToSet(collector.invalidIDs), ToSet(refs), o);
    var tasks := builder.Build(ctx, o, ToSet(refs));
    EmptyMerge(Register(p.planned));
    match policy {
      case UnknownPolicy => return Err(BadPolicy);
      case ExitEarly =>
        if |collector.errors| > 0 {
          return Err(ValidationFailed);
        }
      case SkipInvalid =>
    }
    RegisterInvalid(ctx, collector.invalidIDs);
    r := Ok(tasks);
  }

  lemma EmptyMerge(m: RecordMap)
    ensures map[] + m == m
  {
  }

  /** Invalid objects are remembered so that the inventory keeps them. */
  method RegisterInvalid(ctx: TaskContext, ids: seq<ObjMetadata>)
    modifies ctx`invalid
    ensures ctx.invalid == old(ctx.invalid) + ToSet(ids)
  {
    for i := 0 to |ids|
      invariant ctx.invalid == old(ctx.invalid) + ToSet(ids[..i])
    {
      ToSetSnoc(ids[..i + 1]);
      assert ids[..i + 1][..i] == ids[..i];
      ctx.AddInvalidObject(ids[i]);
    }
    assert ids[..|ids|] == ids;
  }

  // ---------- What a whole apply guarantees ----------

  /** What a run starts from: the inventory read, the objects given, the cluster, what was fetched to be pruned,
      and what earlier validation found invalid. */
  datatype Inputs = Inputs(
    refs: seq<ObjMetadata>,
    objs: seq<Unstructured>,
    cluster: Cluster,
    pruneObjs: seq<Unstructured>,
    invalid: set<ObjMetadata>,
    o: Options)

  /** The plan of an apply run, or of a destroy run, which is given no objects. */
  ghost predicate Prepares(inp: Inputs, p: Plan) {
    && Honest(inp.cluster)
    && FetchAll(PruneIds(inp.refs, inp.objs), inp.cluster) == Some(inp.pruneObjs)
    && (inp.o.destroy ==> inp.objs == [])
    && p == BuildPlan(inp.objs, inp.pruneObjs, inp.invalid, ToSet(inp.refs), inp.o)
  }

  /** Whatever is read, given, fetched and invalid, the plan is one the engine can rely on; its ids are exactly the
      valid given ones and, pruning on, the valid prior ones found in the cluster. */
  lemma PlanForFacts(inp: Inputs, p: Plan)
    requires Prepares(inp, p)
    ensures WellPlanned(p) && p.dryRun == inp.o.dryRun && p.destroy == inp.o.destroy && p.prior == ToSet(inp.refs)
    ensures forall id :: id in p.planned <==>
      id !in p.invalid && (id in Ids(inp.objs) || (inp.o.prune && id in inp.refs && inp.cluster(id).Found?))
    ensures forall id :: id in p.planned ==> p.planned[id] == if id in Ids(inp.objs) then ApplyStrategy else DeleteStrategy
  {
    PruneObjsExactly(inp.refs, inp.objs, inp.cluster, inp.pruneObjs);
    FetchedPrepared(inp.refs, inp.objs, inp.cluster, inp.pruneObjs, inp.o);
    hide WellPlanned, Prepared, FetchAll, PruneIds, Ids, FilterOut, Queue, AllInvalid, GraphFor;
    BuildWellPlanned(inp.objs, inp.pruneObjs, inp.invalid, ToSet(inp.refs), inp.o);
    PlannedIds(inp.objs, inp.pruneObjs, inp.invalid, ToSet(inp.refs), inp.o);
  }

  /** Conservation.  After a successful apply the stored inventory is exactly: the invalid objects it knew already,
      the valid objects given, and (pruning on) the prior objects found in the cluster that were neither
      abandoned nor deleted and gone.  Whatever else was in the prior inventory was not retrievable. */
  lemma ApplyConserves(inp: Inputs, p: Plan, stored: Option<set<ObjMetadata>>, s: State, id: ObjMetadata)
    requires Prepares(inp, p) && !inp.o.destroy && !inp.o.dryRun
    requires Reachable(p, stored, s) && s.phase == Returned(Success)
    ensures s.stored.Some?
    ensures id in s.stored.value <==>
      || (id in inp.refs && id in p.invalid)
      || (id in Ids(inp.objs) && id !in p.invalid)
      || (inp.o.prune && id in inp.refs && id !in Ids(inp.objs) && id !in p.invalid && inp.cluster(id).Found?
        && id !in s.abandoned && !Gone(s.recs, id))
  {
    hide WellPlanned, Prepares, Ids, Reachable;
    PlanForFacts(inp, p);
    FinalInventoryExact(p, stored, s, id);
    FinalKinds(p, stored, s, id);
  }

  /** An applied object is never abandoned and never gone. */
  lemma FinalKinds(p: Plan, stored: Option<set<ObjMetadata>>, s: State, id: ObjMetadata)
    requires WellPlanned(p) && !p.dryRun && Reachable(p, stored, s)
    ensures id in p.planned && p.planned[id] == ApplyStrategy ==> !Gone(s.recs, id)
    ensures id !in p.planned ==> !Gone(s.recs, id)
  {
    RunInvariant.ReachableCore(p, stored, s);
    hide WellPlanned, Reachable;
  }

  /** In particular, with pruning on, nothing is lost: an id of the prior inventory or of a valid given object
      that the new inventory lacks was abandoned, or deleted and gone, or not there to be fetched. */
  lemma NothingLost(inp: Inputs, p: Plan, stored: Option<set<ObjMetadata>>, s: State, id: ObjMetadata)
    requires Prepares(inp, p) && !inp.o.destroy && !inp.o.dryRun && inp.o.prune
    requires Reachable(p, stored, s) && s.phase == Returned(Success)
    requires id in inp.refs || (id in Ids(inp.objs) && id !in p.invalid)
    ensures s.stored.Some?
    ensures id in s.stored.value || id in s.abandoned || Gone(s.recs, id) || !inp.cluster(id).Found?
  {
    ApplyConserves(inp, p, stored, s, id);
    hide Prepares, Ids, Reachable, Gone;
  }

  /** With pruning off a prior object survives exactly when it is given again or invalid: objects that would
      have been pruned are forgotten although nothing deleted them. */
  lemma NoPruneForgets(inp: Inputs, p: Plan, stored: Option<set<ObjMetadata>>, s: State, id: ObjMetadata)
    requires Prepares(inp, p) && !inp.o.destroy && !inp.o.dryRun && !inp.o.prune
    requires Reachable(p, stored, s) && s.phase == Returned(Success)
    requires id in inp.refs
    ensures s.stored.Some?
    ensures id in s.stored.value <==> id in Ids(inp.objs) || id in p.invalid
  {
    ApplyConserves(inp, p, stored, s, id);
    hide Prepares, Ids, Reachable, Gone;
  }

  /** After a successful destroy the inventory object is gone exactly when every found object was deleted or skipped
      without a failed or timed-out wait; otherwise it holds exactly the invalid objects and those found objects that
      were neither abandoned nor deleted and gone. */
  lemma DestroyConserves(inp: Inputs, p: Plan, stored: Option<set<ObjMetadata>>, s: State, id: ObjMetadata)
    requires Prepares(inp, p) && inp.o.destroy && inp.o.prune && !inp.o.dryRun
    requires Reachable(p, stored, s) && s.phase == Returned(Success)
    ensures s.stored == None <==> forall x :: x in s.recs ==> Harmless(s.recs[x])
    ensures forall x :: x in s.recs <==> x in inp.refs && x !in p.invalid && inp.cluster(x).Found?
    ensures s.stored.Some? ==> (id in s.stored.value <==>
      (id in inp.refs && id in p.invalid) || (id in s.recs && id !in s.abandoned && !Gone(s.recs, id)))
  {
    assert inp.objs == [] && Ids(inp.objs) == [];
    hide WellPlanned, Prepares, Ids, Reachable, Harmless, Gone;
    PlanForFacts(inp, p);
    DestroyedIff(p, stored, s);
    RecordsPlanned(p, stored, s);
    if s.stored.Some? {
      FinalDestroyExact(p, stored, s, id);
    }
  }

  lemma RecordsPlanned(p: Plan, stored: Option<set<ObjMetadata>>, s: State)
    requires WellPlanned(p) && Reachable(p, stored, s)
    ensures s.recs.Keys == p.planned.Keys
  {
    RunInvariant.ReachableCore(p, stored, s);
    hide WellPlanned, Reachable;
  }

  /** Each id on the path belongs to an object that needs the next one first. */
  ghost predicate NeedsPath(all: seq<Unstructured>, path: seq<ObjMetadata>) {
    |path| > 0 &&
    forall i :: 0 <= i < |path| - 1 ==> exists obj :: obj in all && obj.id == path[i] && NeedsFirst(all, obj, path[i + 1])
  }

  lemma NeedsPathDepends(inp: Inputs, p: Plan, path: seq<ObjMetadata>)
    requires Prepares(inp, p) && NeedsPath(Graphed(inp.objs, inp.pruneObjs, inp.invalid), path)
    ensures DependencyPath(p, path)
  {
    hide FetchAll, PruneIds, BuildPlan, NeedsFirst, Graphed;
    forall i | 0 <= i < |path| - 1 ensures path[i + 1] in Related(p, ApplyStrategy, path[i]) {
      RelatedExactly(inp.objs, inp.pruneObjs, inp.invalid, ToSet(inp.refs), inp.o, path[i], path[i + 1]);
    }
  }

  /** Safety of apply, end to end.  In every state of every run: if an object was applied successfully, then whatever
      it needs first, through any chain of CRDs, namespaces and annotations, was applied and has reconciled. */
  lemma ApplySafety(inp: Inputs, p: Plan, stored: Option<set<ObjMetadata>>, s: State, path: seq<ObjMetadata>, k: nat)
    requires Prepares(inp, p) && !inp.o.dryRun && Reachable(p, stored, s)
    requires NeedsPath(Graphed(inp.objs, inp.pruneObjs, inp.invalid), path) && 0 < k < |path|
    requires Is(s.recs, path[0], ApplyStrategy, Succeeded)
    ensures Settled(s.recs, ApplyStrategy, path[k])
  {
    hide WellPlanned, Prepares, NeedsPath, DependencyPath, Reachable;
    PlanForFacts(inp, p);
    NeedsPathDepends(inp, p, path);
    AppliedOnlyOnSettled(p, stored, s, path, k);
  }

  /** Safety of deletion, end to end: if an object was deleted, then everything that needs it, through any chain,
      was deleted before and is gone; nothing is deleted under a live or to-be-applied dependent. */
  lemma DeleteSafety(inp: Inputs, p: Plan, stored: Option<set<ObjMetadata>>, s: State, path: seq<ObjMetadata>, k: nat)
    requires Prepares(inp, p) && !inp.o.dryRun && Reachable(p, stored, s)
    requires NeedsPath(Graphed(inp.objs, inp.pruneObjs, inp.invalid), path) && k < |path| - 1
    requires Is(s.recs, path[|path| - 1], DeleteStrategy, Succeeded)
    ensures Settled(s.recs, DeleteStrategy, path[k])
  {
    hide WellPlanned, Prepares, NeedsPath, DependencyPath, Reachable;
    PlanForFacts(inp, p);
    NeedsPathDepends(inp, p, path);
    DeletedOnlyUnderGone(p, stored, s, path, k);
  }

  /** What the safety of apply rests on: for whatever an applied object needs first, the watcher reported during this run that
      it is Current, at the generation that this run applied or a later one. */
  lemma ApplyRestsOnReports(
    inp: Inputs, p: Plan, stored: Option<set<ObjMetadata>>, labels: seq<Label>, s: State, path: seq<ObjMetadata>, k: nat)
    returns (rs: ResourceStatus)
    requires Prepares(inp, p) && !inp.o.dryRun && Exec(p, Init(p, stored), labels) == Some(s)
    requires NeedsPath(Graphed(inp.objs, inp.pruneObjs, inp.invalid), path) && 0 < k < |path|
    requires Is(s.recs, path[0], ApplyStrategy, Succeeded)
    ensures path[k] in s.recs && StatusEvent(path[k], rs) in labels && rs.status == CurrentStatus
    ensures (if rs.resource.Some? then rs.resource.value.generation else 0) >= s.recs[path[k]].generation
  {
    assert Reachable(p, stored, s);
    hide WellPlanned, Prepares, NeedsPath, Reachable, Exec, Init;
    PlanForFacts(inp, p);
    ApplySafety(inp, p, stored, s, path, k);
    rs := WaitEvidence.AppliedSeenCurrent(p, stored, labels, s, path[k]);
  }

  /** The object had its turn to be pruned, and there the inventory's mark was taken off because an annotation protects
      it, or it is the same cluster object as one this run applied. */
  ghost predicate Released(p: Plan, stored: Option<set<ObjMetadata>>, labels: seq<Label>, s: State, id: ObjMetadata) {
    exists n, obj :: ReleasedAt(p, stored, labels, s, id, n, obj)
  }

  ghost predicate ReleasedAt(
    p: Plan, stored: Option<set<ObjMetadata>>, labels: seq<Label>, s: State, id: ObjMetadata, n: int, obj: Unstructured)
  {
    && Turn(p, stored, labels, n, DeleteStrategy, obj) && labels[n].PruneStep? && obj.id == id && obj.uid != ""
    && ((labels[n].pruneEnv.policy.RefuseByAnnotation? && labels[n].pruneEnv.annotationRemoved) || AppliedAs(s.recs, obj.uid))
  }

  /** Nothing is lost silently: an id of the prior inventory or of a valid given object that the new inventory lacks was
      released, or deleted, or not there to be fetched. */
  lemma NothingLostSilently(
    inp: Inputs, p: Plan, stored: Option<set<ObjMetadata>>, labels: seq<Label>, s: State, id: ObjMetadata)
    requires Prepares(inp, p) && !inp.o.destroy && !inp.o.dryRun && inp.o.prune
    requires Exec(p, Init(p, stored), labels) == Some(s) && s.phase == Returned(Success)
    requires id in inp.refs || (id in Ids(inp.objs) && id !in p.invalid)
    ensures s.stored.Some?
    ensures id !in s.stored.value ==>
      !inp.cluster(id).Found? || Is(s.recs, id, DeleteStrategy, Succeeded) || Released(p, stored, labels, s, id)
  {
    assert Reachable(p, stored, s);
    hide WellPlanned, Prepares, Reachable, Exec, Init, Ids, Turn, AppliedAs;
    PlanForFacts(inp, p);
    NothingLost(inp, p, stored, s, id);
    if id in s.abandoned {
      var n, obj := AbandonedForCause(p, stored, labels, s, id);
      assert ReleasedAt(p, stored, labels, s, id, n, obj);
    }
  }
}
