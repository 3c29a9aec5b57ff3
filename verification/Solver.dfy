/** From objects to a queue of tasks: what the queue is, independent of any map order. */
module Solver {
  import opened Base
  import opened Records
  import opened Objects
  import opened Engine
  import opened Ordering
  import opened Layers
  import opened Graphs
  import opened DependencyGraph

  datatype Options = Options(destroy: bool, prune: bool, dryRun: bool, reconcileTimeout: int, pruneTimeout: int)

  /** The objects that are not invalid, in order. */
  function FilterOut(objs: seq<Unstructured>, invalid: set<ObjMetadata>): seq<Unstructured> {
    if objs == [] then []
    else
      var front, obj := FilterOut(objs[..|objs| - 1], invalid), objs[|objs| - 1];
      if obj.id in invalid then front else front + [obj]
  }

  /** The object for each id; the last one listed wins. */
  function ObjectMap(objs: seq<Unstructured>): map<ObjMetadata, Unstructured> {
    if objs == [] then map[] else ObjectMap(objs[..|objs| - 1])[objs[|objs| - 1].id := objs[|objs| - 1]]
  }

  /** The objects of one layer in apply order. */
  ghost function HydrateLayer(m: map<ObjMetadata, Unstructured>, layer: set<ObjMetadata>): (objs: seq<Unstructured>)
  {
    SortedSeqSorts(layer * m.Keys);
    var ids := SortedSeq(layer * m.Keys);
    assert forall i :: 0 <= i < |ids| ==> ids[i] in ToSet(ids);
    seq(|ids|, i requires 0 <= i < |ids| => m[ids[i]])
  }

  /** The objects of each layer; layers without objects are dropped. */
  ghost function Hydrate(m: map<ObjMetadata, Unstructured>, layers: seq<set<ObjMetadata>>): seq<seq<Unstructured>> {
    if layers == [] then []
    else
      var front, layer := Hydrate(m, layers[..|layers| - 1]), layers[|layers| - 1];
      if layer * m.Keys == {} then front else front + [HydrateLayer(m, layer)]
  }

  function Reversed<T>(s: seq<T>): (r: seq<T>)
    ensures |r| == |s| && forall i :: 0 <= i < |s| ==> r[i] == s[|s| - 1 - i]
  {
    seq(|s|, i requires 0 <= i < |s| => s[|s| - 1 - i])
  }

  /** Last set first, and each set back to front. */
  function ReversedSets<T>(sets: seq<seq<T>>): (r: seq<seq<T>>)
    ensures |r| == |sets| && forall i :: 0 <= i < |sets| ==> r[i] == Reversed(sets[|sets| - 1 - i])
  {
    seq(|sets|, i requires 0 <= i < |sets| => Reversed(sets[|sets| - 1 - i]))
  }

  /** The task that actuates a set, and the task that waits for it. */
  function ActTask(strategy: Strategy, objs: seq<Unstructured>): Task {
    if strategy == ApplyStrategy then Apply(objs) else Prune(objs)
  }

  function WaitTask(strategy: Strategy, ids: seq<ObjMetadata>, timeout: int): Task {
    Wait(ids, if strategy == ApplyStrategy then AllCurrent else AllNotFound, timeout > 0)
  }

  /** One actuation task per set, each followed by its wait task unless this is a dry run. */
  function Stage(sets: seq<seq<Unstructured>>, strategy: Strategy, dryRun: bool, timeout: int): (r: seq<Task>)
    ensures |r| == if dryRun then |sets| else 2 * |sets|
  {
    if dryRun then seq(|sets|, i requires 0 <= i < |sets| => ActTask(strategy, sets[i]))
    else
      seq(2 * |sets|, i requires 0 <= i < 2 * |sets| =>
        if i % 2 == 0 then ActTask(strategy, sets[i / 2]) else WaitTask(strategy, Ids(sets[i / 2]), timeout))
  }

  function AddStage(objs: seq<Unstructured>, destroy: bool): seq<Task> {
    if destroy then [] else [InvAdd(objs)]
  }

  ghost function ApplySets(objs: seq<Unstructured>, layers: seq<set<ObjMetadata>>): seq<seq<Unstructured>> {
    Hydrate(ObjectMap(objs), layers)
  }

  ghost function PruneSets(objs: seq<Unstructured>, layers: seq<set<ObjMetadata>>): seq<seq<Unstructured>> {
    ReversedSets(Hydrate(ObjectMap(objs), layers))
  }

  /** The queue for valid objects whose dependency graph has these layers. */
  ghost function Queue(
    applyObjs: seq<Unstructured>, pruneObjs: seq<Unstructured>, layers: seq<set<ObjMetadata>>, o: Options): seq<Task>
  {
    AddStage(applyObjs, o.destroy)
    + Stage(ApplySets(applyObjs, layers), ApplyStrategy, o.dryRun, o.reconcileTimeout)
    + (if o.prune then Stage(PruneSets(pruneObjs, layers), DeleteStrategy, o.dryRun, o.pruneTimeout) else [])
    + [InvSet]
  }

  /** The strategy registered for each id; registering a delete overrides an apply. */
  function Planned(applyIds: set<ObjMetadata>, pruneIds: set<ObjMetadata>): map<ObjMetadata, Strategy> {
    map id | id in applyIds + pruneIds :: if id in pruneIds then DeleteStrategy else ApplyStrategy
  }

  /** The graph of the objects that passed the earlier validation. */
  function GraphFor(applyObjs: seq<Unstructured>, pruneObjs: seq<Unstructured>, invalid: set<ObjMetadata>): Built {
    DependencyGraphV(FilterOut(applyObjs, invalid) + FilterOut(pruneObjs, invalid))
  }

  /** Everything invalid: from earlier validation, by a bad annotation, or stuck on a cycle. */
  function AllInvalid(applyObjs: seq<Unstructured>, pruneObjs: seq<Unstructured>, invalid: set<ObjMetadata>): set<ObjMetadata> {
    var b := GraphFor(applyObjs, pruneObjs, invalid);
    invalid + ToSet(b.invalid) + Residue(b.g.edges, b.g.edges.Keys)
  }

  /** The plan that the builder makes for any objects at all. */
  ghost function BuildPlan(
    applyObjs: seq<Unstructured>, pruneObjs: seq<Unstructured>, invalid: set<ObjMetadata>,
    prior: set<ObjMetadata>, o: Options): Plan
  {
    var b := GraphFor(applyObjs, pruneObjs, invalid);
    var all := AllInvalid(applyObjs, pruneObjs, invalid);
    var a, d := FilterOut(applyObjs, all), FilterOut(pruneObjs, all);
    Plan(
      Queue(a, d, LayersOf(b.g.edges, b.g.edges.Keys), o),
      Planned(ToSet(Ids(a)), if o.prune then ToSet(Ids(d)) else {}),
      b.g.edges,
      b.g.reverse,
      all,
      prior,
      o.dryRun,
      o.destroy)
  }
}
