/** The builder: sorts, hydrates, reverses and queues in place, and always arrives at the same plan. */
module TaskQueueBuilder {
  import opened Base
  import opened Records
  import opened Objects
  import opened ObjMetadataSets
  import opened Engine
  import opened Ordering
  import opened Layers
  import opened Graphs
  import opened DependencyGraph
  import opened DependencyGraphFacts
  import opened InventoryManager
  import opened TaskContexts
  import opened Solver
  import opened SolverFacts
  import opened Validation

  // ---------- Sorting one set ----------

  lemma IdsSorted(objs: seq<Unstructured>, i: nat, x: Unstructured)
    requires i <= |objs| && Sorted(Ids(objs)) && x.id !in Ids(objs)
    requires forall k :: 0 <= k < i ==> Less(objs[k].id, x.id)
    requires i < |objs| ==> !Less(objs[i].id, x.id)
    ensures Sorted(Ids(objs[..i] + [x] + objs[i..]))
  {
    hide Less;
    var ids, r := Ids(objs), Ids(objs[..i] + [x] + objs[i..]);
    forall k | i <= k < |ids| ensures Less(x.id, ids[k]) {
      LessConnected(x.id, ids[i]);
      if i < k {
        LessTransitive(x.id, ids[i], ids[k]);
      }
    }
    forall a, b | 0 <= a < b < |r| ensures Less(r[a], r[b]) {
      assert r[a] == if a < i then ids[a] else if a == i then x.id else ids[a - 1];
      assert r[b] == if b < i then ids[b] else if b == i then x.id else ids[b - 1];
    }
  }

  /** Sorts objects with different ids into apply order. */
  method SortObjects(objs: seq<Unstructured>) returns (r: seq<Unstructured>)
    requires NoDup(Ids(objs))
    ensures Sorted(Ids(r)) && ToSet(r) == ToSet(objs)
  {
    hide Less;
    r := [];
    for n := 0 to |objs|
      invariant Sorted(Ids(r)) && ToSet(r) == ToSet(objs[..n])
    {
      var x := objs[n];
      assert x.id !in Ids(r) by {
        NewId(objs, n, r);
      }
      var i := 0;
      while i < |r| && Less(r[i].id, x.id)
        invariant i <= |r|
        invariant forall k :: 0 <= k < i ==> Less(r[k].id, x.id)
      {
        i := i + 1;
      }
      IdsSorted(r, i, x);
      ToSetSnoc(objs[..n + 1]);
      assert objs[..n + 1][..n] == objs[..n];
      assert ToSet(r[..i] + [x] + r[i..]) == ToSet(r) + {x} by {
        assert r == r[..i] + r[i..];
      }
      r := r[..i] + [x] + r[i..];
    }
    assert objs[..|objs|] == objs;
  }

  lemma NewId(objs: seq<Unstructured>, n: nat, r: seq<Unstructured>)
    requires NoDup(Ids(objs)) && n < |objs| && ToSet(r) == ToSet(objs[..n])
    ensures objs[n].id !in Ids(r)
  {
    forall k | 0 <= k < |r| ensures Ids(r)[k] != objs[n].id {
      assert r[k] in ToSet(objs[..n]);
      var j :| 0 <= j < n && objs[j] == r[k];
      assert Ids(objs)[j] != Ids(objs)[n];
    }
  }

  lemma SortedIsHydrated(m: map<ObjMetadata, Unstructured>, layer: set<ObjMetadata>, objs: seq<Unstructured>)
    requires forall id :: id in m ==> m[id].id == id
    requires Sorted(Ids(objs)) && ToSet(Ids(objs)) == layer * m.Keys
    requires forall o :: o in objs ==> o.id in m && o == m[o.id]
    ensures objs == HydrateLayer(m, layer)
  {
    HydrateLayerFacts(m, layer);
    var h := HydrateLayer(m, layer);
    SortedUnique(Ids(objs), layer * m.Keys);
    assert Ids(objs) == Ids(h) && |objs| == |Ids(objs)| == |h|;
    forall i | 0 <= i < |objs| ensures objs[i] == h[i] {
      assert Ids(objs)[i] == Ids(h)[i];
      assert objs[i] in objs && h[i] in h;
    }
  }

  lemma MembersToIds(a: seq<Unstructured>, b: seq<Unstructured>)
    requires ToSet(a) == ToSet(b)
    ensures ToSet(Ids(a)) == ToSet(Ids(b))
    ensures forall o :: o in a <==> o in b
  {
    forall o ensures o in a <==> o in b {
      assert o in ToSet(a) <==> o in ToSet(b);
    }
    forall id | id in Ids(a) ensures id in Ids(b) {
      var i :| 0 <= i < |a| && a[i].id == id;
      assert a[i] in b;
      var j :| 0 <= j < |b| && b[j] == a[i];
      assert Ids(b)[j] == id;
    }
    forall id | id in Ids(b) ensures id in Ids(a) {
      var i :| 0 <= i < |b| && b[i].id == id;
      assert b[i] in a;
      var j :| 0 <= j < |a| && a[j] == b[i];
      assert Ids(a)[j] == id;
    }
  }

  // ---------- Hydrating ----------

  method MapObjects(objs: seq<Unstructured>) returns (m: map<ObjMetadata, Unstructured>)
    ensures m == ObjectMap(objs)
  {
    m := map[];
    for i := 0 to |objs|
      invariant m == ObjectMap(objs[..i])
    {
      assert objs[..i + 1][..i] == objs[..i];
      m := m[objs[i].id := objs[i]];
    }
    assert objs[..|objs|] == objs;
  }

  /** The objects found for a list of ids. */
  method HydrateSet(m: map<ObjMetadata, Unstructured>, ids: seq<ObjMetadata>) returns (objs: seq<Unstructured>)
    requires NoDup(ids) && forall id :: id in m ==> m[id].id == id
    ensures NoDup(Ids(objs)) && ToSet(Ids(objs)) == ToSet(ids) * m.Keys
    ensures forall o :: o in objs ==> o.id in m && o == m[o.id]
  {
    objs := [];
    for i := 0 to |ids|
      invariant NoDup(Ids(objs)) && ToSet(Ids(objs)) == ToSet(ids[..i]) * m.Keys
      invariant forall o :: o in objs ==> o.id in m && o == m[o.id]
    {
      FreshNext(ids, i);
      if ids[i] in m {
        AppendId(objs, m[ids[i]]);
        hide NoDup, ToSet, Ids;
        objs := objs + [m[ids[i]]];
      }
    }
    assert ids[..|ids|] == ids;
  }

  lemma FreshNext(ids: seq<ObjMetadata>, i: nat)
    requires NoDup(ids) && i < |ids|
    ensures ToSet(ids[..i + 1]) == ToSet(ids[..i]) + {ids[i]} && ids[i] !in ToSet(ids[..i])
  {
    ToSetSnoc(ids[..i + 1]);
    assert ids[..i + 1][..i] == ids[..i];
  }

  lemma AppendId(objs: seq<Unstructured>, obj: Unstructured)
    requires NoDup(Ids(objs)) && obj.id !in ToSet(Ids(objs))
    ensures NoDup(Ids(objs + [obj])) && ToSet(Ids(objs + [obj])) == ToSet(Ids(objs)) + {obj.id}
  {
    assert Ids(objs + [obj]) == Ids(objs) + [obj.id];
    ToSetSnoc(Ids(objs + [obj]));
  }

  method HydrateSetList(idSetList: seq<seq<ObjMetadata>>, objs: seq<Unstructured>, ghost layers: seq<set<ObjMetadata>>)
    returns (sets: seq<seq<Unstructured>>)
    requires Lists(idSetList, layers)
    ensures sets == Hydrate(ObjectMap(objs), layers)
  {
    hide Less, HydrateLayer;
    ObjectMapFacts(objs);
    var m := MapObjects(objs);
    sets := [];
    for i := 0 to |idSetList|
      invariant sets == Hydrate(m, layers[..i])
    {
      assert layers[..i + 1][..i] == layers[..i];
      var current := HydrateSet(m, idSetList[i]);
      if |current| > 0 {
        var sorted := SortObjects(current);
        MembersToIds(sorted, current);
        SortedIsHydrated(m, layers[i], sorted);
        assert current[0].id in layers[i] * m.Keys by {
          assert Ids(current)[0] in ToSet(Ids(current));
        }
        sets := sets + [sorted];
      } else {
        assert Ids(current) == [];
        assert layers[i] * m.Keys == {};
      }
    }
    assert layers[..|idSetList|] == layers;
  }

  // ---------- Reversing ----------

  method ReverseInPlace<T>(a: array<T>)
    modifies a
    ensures a[..] == Reversed(old(a[..]))
  {
    var i, j := 0, a.Length - 1;
    while i < j
      invariant 0 <= i && i + j == a.Length - 1 && i <= j + 1
      invariant forall k :: (0 <= k < i || j < k < a.Length) ==> a[k] == old(a[a.Length - 1 - k])
      invariant forall k :: i <= k <= j ==> a[k] == old(a[k])
      decreases j - i
    {
      a[i], a[j] := a[j], a[i];
      i, j := i + 1, j - 1;
    }
  }

  method ReverseSet<T>(set_: seq<T>) returns (r: seq<T>)
    ensures r == Reversed(set_)
  {
    var elements := new T[|set_|](i requires 0 <= i < |set_| => set_[i]);
    assert elements[..] == set_;
    ReverseInPlace(elements);
    r := elements[..];
  }

  method ReverseEach<T>(setList: array<seq<T>>)
    modifies setList
    ensures forall i :: 0 <= i < setList.Length ==> setList[i] == Reversed(old(setList[i]))
  {
    for k := 0 to setList.Length
      invariant forall i :: 0 <= i < k ==> setList[i] == Reversed(old(setList[i]))
      invariant forall i :: k <= i < setList.Length ==> setList[i] == old(setList[i])
    {
      var one := ReverseSet(setList[k]);
      hide Reversed;
      setList[k] := one;
    }
  }

  /** Reverses the list of sets and then each set. */
  method ReverseSetList<T>(setList: array<seq<T>>)
    modifies setList
    ensures setList[..] == ReversedSets(old(setList[..]))
  {
    ghost var before := setList[..];
    ReverseInPlace(setList);
    ghost var mid := setList[..];
    ReverseEach(setList);
    forall i | 0 <= i < setList.Length ensures setList[i] == ReversedSets(before)[i] {
      assert mid[i] == before[|before| - 1 - i];
    }
  }

  // ---------- Building the queue ----------

  /** Records that are all pending under one strategy. */
  function PendingRecords(ids: set<ObjMetadata>, strategy: Strategy): RecordMap {
    map id | id in ids :: NewRecord(strategy, Pending)
  }

  lemma PendingSnoc(recs: RecordMap, ids: seq<ObjMetadata>, i: nat, strategy: Strategy)
    requires i < |ids|
    ensures recs + PendingRecords(ToSet(ids[..i + 1]), strategy)
      == (recs + PendingRecords(ToSet(ids[..i]), strategy))[ids[i] := NewRecord(strategy, Pending)]
  {
    ToSetSnoc(ids[..i + 1]);
    assert ids[..i + 1][..i] == ids[..i];
  }

  method RegisterPending(manager: Manager, ids: seq<ObjMetadata>, strategy: Strategy)
    requires manager.Valid()
    modifies manager
    ensures manager.Valid() && manager.Contents() == old(manager.Contents()) + PendingRecords(ToSet(ids), strategy)
  {
    for i := 0 to |ids|
      invariant manager.Valid()
      invariant manager.Contents() == old(manager.Contents()) + PendingRecords(ToSet(ids[..i]), strategy)
    {
      hide PendingRecords, MapOf;
      PendingSnoc(old(manager.Contents()), ids, i, strategy);
      manager.Add(ids[i], strategy, Pending);
    }
    assert ids[..|ids|] == ids;
  }

  /** The errors of the dependency graph: one per bad annotation. */
  function AnnotationErrors(ids: seq<ObjMetadata>): seq<Error> {
    seq(|ids|, i requires 0 <= i < |ids| => Error([ids[i]]))
  }

  lemma {:induction false} AnnotationErrorsName(ids: seq<ObjMetadata>)
    ensures Named(AnnotationErrors(ids)) == ToSet(ids)
  {
    if ids != [] {
      AnnotationErrorsName(ids[..|ids| - 1]);
      assert AnnotationErrors(ids)[..|ids| - 1] == AnnotationErrors(ids[..|ids| - 1]);
      ToSetSnoc(ids);
    }
  }

  /** Sets whose members are valid and differ. */
  ghost predicate CleanSets(sets: seq<seq<Unstructured>>, invalid: set<ObjMetadata>) {
    forall k :: 0 <= k < |sets| ==> NoDup(Ids(sets[k])) && ToSet(Ids(sets[k])) !! invalid
  }

  lemma StageSnoc(sets: seq<seq<Unstructured>>, i: nat, strategy: Strategy, dryRun: bool, timeout: int)
    requires i < |sets|
    ensures Stage(sets[..i + 1], strategy, dryRun, timeout) == Stage(sets[..i], strategy, dryRun, timeout)
      + [ActTask(strategy, sets[i])] + if dryRun then [] else [WaitTask(strategy, Ids(sets[i]), timeout)]
  {
    hide ActTask, WaitTask, Ids;
    var front, whole := Stage(sets[..i], strategy, dryRun, timeout), Stage(sets[..i + 1], strategy, dryRun, timeout);
    if dryRun {
      assert whole == front + [ActTask(strategy, sets[i])];
    } else {
      assert |whole| == 2 * i + 2 && whole[2 * i] == ActTask(strategy, sets[i]);
      assert whole[2 * i + 1] == WaitTask(strategy, Ids(sets[i]), timeout);
      forall k | 0 <= k < 2 * i ensures whole[k] == front[k] {
        assert sets[..i + 1][k / 2] == sets[..i][k / 2];
      }
      assert whole == front + [whole[2 * i]] + [whole[2 * i + 1]];
    }
  }

  class TaskQueueBuilder {
    const collector: Collector
    var applyObjs: seq<Unstructured>
    var pruneObjs: seq<Unstructured>

    constructor (c: Collector)
      ensures collector == c && applyObjs == [] && pruneObjs == []
    {
      collector, applyObjs, pruneObjs := c, [], [];
    }

    method WithApplyObjects(objs: seq<Unstructured>)
      modifies this
      ensures applyObjs == objs && pruneObjs == old(pruneObjs)
    {
      applyObjs := objs;
    }

    method WithPruneObjects(objs: seq<Unstructured>)
      modifies this
      ensures pruneObjs == objs && applyObjs == old(applyObjs)
    {
      pruneObjs := objs;
    }

    /** newApplyTask and newPruneTask: what is invalid by now stays out. */
    method NewActTask(objs: seq<Unstructured>, strategy: Strategy) returns (t: Task)
      ensures t == ActTask(strategy, FilterOut(objs, ToSet(collector.invalidIDs)))
    {
      var valid := collector.FilterInvalidObjects(objs);
      t := if strategy == ApplyStrategy then Apply(valid) else Prune(valid);
    }

    method NewWaitTask(ids: seq<ObjMetadata>, strategy: Strategy, timeout: int) returns (t: Task)
      ensures t == WaitTask(strategy, Pick(ids, ToSet(ids) - ToSet(collector.invalidIDs)), timeout)
    {
      var valid := collector.FilterInvalidIds(ids);
      t := Wait(valid, if strategy == ApplyStrategy then AllCurrent else AllNotFound, timeout > 0);
    }

    /** Appends the tasks for one set. */
    method AppendSet(queue: seq<Task>, objs: seq<Unstructured>, strategy: Strategy, dryRun: bool, timeout: int)
      returns (tasks: seq<Task>)
      requires NoDup(Ids(objs)) && ToSet(Ids(objs)) !! ToSet(collector.invalidIDs)
      ensures tasks == queue + [ActTask(strategy, objs)] + if dryRun then [] else [WaitTask(strategy, Ids(objs), timeout)]
    {
      NothingToFilter(objs, ToSet(collector.invalidIDs));
      hide *;
      var act := NewActTask(objs, strategy);
      tasks := queue + [act];
      if !dryRun {
        var wait := NewWaitTask(Ids(objs), strategy, timeout);
        tasks := tasks + [wait];
      }
    }

    /** Appends the tasks for a list of sets. */
    method AppendStage(queue: seq<Task>, sets: seq<seq<Unstructured>>, strategy: Strategy, dryRun: bool, timeout: int)
      returns (tasks: seq<Task>)
      requires CleanSets(sets, ToSet(collector.invalidIDs))
      ensures tasks == queue + Stage(sets, strategy, dryRun, timeout)
    {
      assert Stage(sets[..0], strategy, dryRun, timeout) == [];
      assert sets[..|sets|] == sets;
      hide Stage, ToSet, Ids, NoDup, ActTask, WaitTask;
      tasks := queue;
      for i := 0 to |sets|
        invariant tasks == queue + Stage(sets[..i], strategy, dryRun, timeout)
      {
        StageSnoc(sets, i, strategy, dryRun, timeout);
        tasks := AppendSet(tasks, sets[i], strategy, dryRun, timeout);
      }
    }

    /** Graphs the objects that passed the earlier validation. */
    method GraphValid() returns (g: Graph, bad: seq<ObjMetadata>, valid: seq<Unstructured>, prunes: seq<Unstructured>)
      ensures fresh(g) && GraphOk(g.Value())
      ensures valid == FilterOut(applyObjs, ToSet(collector.invalidIDs))
      ensures prunes == FilterOut(pruneObjs, ToSet(collector.invalidIDs))
      ensures Built(g.Value(), bad) == GraphFor(applyObjs, pruneObjs, ToSet(collector.invalidIDs))
    {
      GraphForFacts(applyObjs, pruneObjs, ToSet(collector.invalidIDs));
      hide GraphOk, DependencyGraphV, FilterOut;
      valid := collector.FilterInvalidObjects(applyObjs);
      prunes := collector.FilterInvalidObjects(pruneObjs);
      g, bad := BuildDependencyGraph(valid + prunes);
    }

    /** Graphs the objects, collects what is wrong with them, and sorts the rest into layers. */
    method GraphObjects(ctx: TaskContext)
      returns (idSetList: seq<seq<ObjMetadata>>, valid: seq<Unstructured>, prunes: seq<Unstructured>)
      requires collector.Valid()
      modifies collector, ctx`graph
      ensures collector.Valid()
      ensures var invalid := old(ToSet(collector.invalidIDs));
        && Lists(idSetList, LayersFor(applyObjs, pruneObjs, invalid))
        && ctx.graph.Value() == GraphFor(applyObjs, pruneObjs, invalid).g
        && ToSet(collector.invalidIDs) == AllInvalid(applyObjs, pruneObjs, invalid)
        && valid == FilterOut(applyObjs, invalid) && prunes == FilterOut(pruneObjs, invalid)
    {
      hide *;
      ghost var invalid := ToSet(collector.invalidIDs);
      var g, bad;
      g, bad, valid, prunes := GraphValid();
      InvalidParts(applyObjs, pruneObjs, invalid);
      CollectBad(bad);
      ctx.SetGraph(g);
      var cyclic;
      idSetList, cyclic := g.Sort();
      GraphFields(g);
      CollectCyclic(cyclic, Residue(g.edges, g.edges.Keys));
    }

    method CollectBad(bad: seq<ObjMetadata>)
      requires collector.Valid()
      modifies collector
      ensures collector.Valid() && ToSet(collector.invalidIDs) == old(ToSet(collector.invalidIDs)) + ToSet(bad)
    {
      if |bad| > 0 {
        AnnotationErrorsName(bad);
        collector.Collect(AnnotationErrors(bad));
      }
    }

    method CollectCyclic(cyclic: Option<seq<ObjMetadata>>, ghost rest: set<ObjMetadata>)
      requires collector.Valid()
      requires (cyclic.None? <==> rest == {}) && (cyclic.Some? ==> cyclic.value == SortedSeq(rest))
      modifies collector
      ensures collector.Valid() && ToSet(collector.invalidIDs) == old(ToSet(collector.invalidIDs)) + rest
    {
      if cyclic.Some? {
        NamedOne(cyclic.value);
        SortedSeqSorts(rest);
        collector.Collect([Error(cyclic.value)]);
      }
    }

    /** The sets to apply, in order. */
    method QueueApplies(queue: seq<Task>, idSetList: seq<seq<ObjMetadata>>, objs: seq<Unstructured>, o: Options,
      ghost layers: seq<set<ObjMetadata>>)
      returns (tasks: seq<Task>)
      requires Lists(idSetList, layers) && ToSet(Ids(objs)) !! ToSet(collector.invalidIDs)
      ensures tasks == queue + Stage(ApplySets(objs, layers), ApplyStrategy, o.dryRun, o.reconcileTimeout)
    {
      var sets := HydrateSetList(idSetList, objs, layers);
      SetsClean(objs, layers, ToSet(collector.invalidIDs));
      tasks := AppendStage(queue, sets, ApplyStrategy, o.dryRun, o.reconcileTimeout);
    }

    /** The sets to prune, in reverse order. */
    method QueuePrunes(queue: seq<Task>, idSetList: seq<seq<ObjMetadata>>, objs: seq<Unstructured>, o: Options,
      ghost layers: seq<set<ObjMetadata>>)
      returns (tasks: seq<Task>)
      requires Lists(idSetList, layers) && ToSet(Ids(objs)) !! ToSet(collector.invalidIDs)
      ensures tasks == queue + Stage(PruneSets(objs, layers), DeleteStrategy, o.dryRun, o.pruneTimeout)
    {
      var sets := HydrateSetList(idSetList, objs, layers);
      var list := new seq<Unstructured>[|sets|](i requires 0 <= i < |sets| => sets[i]);
      assert list[..] == sets;
      ReverseSetList(list);
      assert list[..] == PruneSets(objs, layers);
      SetsClean(objs, layers, ToSet(collector.invalidIDs));
      tasks := AppendStage(queue, list[..], DeleteStrategy, o.dryRun, o.pruneTimeout);
    }

    /** Builds the queue and registers the plan.  The result is a function of the objects, the ids found invalid
        before and the options: no choice of map order shows in it. */
    method Build(ctx: TaskContext, o: Options, ghost prior: set<ObjMetadata>) returns (tasks: seq<Task>)
      requires ctx.manager.Valid() && collector.Valid()
      modifies collector, ctx`graph, ctx.manager
      ensures ctx.manager.Valid() && collector.Valid()
      ensures var p := BuildPlan(applyObjs, pruneObjs, old(ToSet(collector.invalidIDs)), prior, o);
        && tasks == p.tasks
        && ctx.graph.Value() == GraphVal(p.deps, p.rdeps)
        && ToSet(collector.invalidIDs) == p.invalid
        && ctx.manager.Contents() == old(ctx.manager.Contents()) + Register(p.planned)
    {
      hide *;
      ghost var invalid := ToSet(collector.invalidIDs);
      ghost var recs := ctx.manager.Contents();
      ghost var layers := LayersFor(applyObjs, pruneObjs, invalid);
      var idSetList, valid, prunes := GraphObjects(ctx);
      InvalidGrows(applyObjs, pruneObjs, invalid);
      FilterTwice(applyObjs, invalid, ToSet(collector.invalidIDs));
      FilterTwice(pruneObjs, invalid, ToSet(collector.invalidIDs));
      valid := collector.FilterInvalidObjects(valid);
      prunes := collector.FilterInvalidObjects(prunes);
      PlanTasks(applyObjs, pruneObjs, invalid, prior, o, valid, prunes);
      PlanRecords(applyObjs, pruneObjs, invalid, prior, o, valid, prunes, recs);
      tasks := AddTasks(valid, o.destroy);
      if |valid| > 0 {
        RegisterPending(ctx.manager, Ids(valid), ApplyStrategy);
        tasks := QueueApplies(tasks, idSetList, valid, o, layers);
      }
      assert ctx.manager.Contents() == recs + PendingRecords(ToSet(Ids(valid)), ApplyStrategy);
      if o.prune && |prunes| > 0 {
        RegisterPending(ctx.manager, Ids(prunes), DeleteStrategy);
        tasks := QueuePrunes(tasks, idSetList, prunes, o, layers);
      }
      tasks := tasks + [InvSet];
    }

    method AddTasks(objs: seq<Unstructured>, destroy: bool) returns (tasks: seq<Task>)
      ensures tasks == AddStage(objs, destroy)
    {
      tasks := [];
      if !destroy {
        tasks := tasks + [InvAdd(objs)];
      }
    }
  }

  lemma GraphFields(g: Graph)
    ensures g.edges == g.Value().edges
  {
  }

  lemma InvalidParts(applyObjs: seq<Unstructured>, pruneObjs: seq<Unstructured>, invalid: set<ObjMetadata>)
    ensures var b := GraphFor(applyObjs, pruneObjs, invalid);
      && AllInvalid(applyObjs, pruneObjs, invalid) == invalid + ToSet(b.invalid) + Residue(b.g.edges, b.g.edges.Keys)
      && LayersFor(applyObjs, pruneObjs, invalid) == LayersOf(b.g.edges, b.g.edges.Keys)
  {
    hide GraphFor, Residue, LayersOf;
  }

  lemma InvalidGrows(applyObjs: seq<Unstructured>, pruneObjs: seq<Unstructured>, invalid: set<ObjMetadata>)
    ensures invalid <= AllInvalid(applyObjs, pruneObjs, invalid)
  {
    hide GraphFor, Residue;
  }

  lemma NamedOne(ids: seq<ObjMetadata>)
    ensures Named([Error(ids)]) == ToSet(ids)
  {
    assert [Error(ids)][..0] == [];
  }

  lemma EmptyStages(layers: seq<set<ObjMetadata>>)
    ensures forall t, d :: Stage(ApplySets([], layers), ApplyStrategy, d, t) == []
    ensures forall t, d :: Stage(PruneSets([], layers), DeleteStrategy, d, t) == []
  {
    NothingToHydrate(layers);
  }

  /** The parts of the built queue, by which objects are still valid; empty stages add nothing. */
  lemma PlanTasks(
    applyObjs: seq<Unstructured>, pruneObjs: seq<Unstructured>, invalid: set<ObjMetadata>, prior: set<ObjMetadata>, o: Options,
    valid: seq<Unstructured>, prunes: seq<Unstructured>)
    requires valid == FilterOut(applyObjs, AllInvalid(applyObjs, pruneObjs, invalid))
    requires prunes == FilterOut(pruneObjs, AllInvalid(applyObjs, pruneObjs, invalid))
    ensures var p, layers := BuildPlan(applyObjs, pruneObjs, invalid, prior, o), LayersFor(applyObjs, pruneObjs, invalid);
      && p.tasks == AddStage(valid, o.destroy)
        + (if |valid| > 0 then Stage(ApplySets(valid, layers), ApplyStrategy, o.dryRun, o.reconcileTimeout) else [])
        + (if o.prune && |prunes| > 0 then Stage(PruneSets(prunes, layers), DeleteStrategy, o.dryRun, o.pruneTimeout) else [])
        + [InvSet]
      && GraphVal(p.deps, p.rdeps) == GraphFor(applyObjs, pruneObjs, invalid).g
      && p.invalid == AllInvalid(applyObjs, pruneObjs, invalid)
      && ToSet(Ids(valid)) !! p.invalid && ToSet(Ids(prunes)) !! p.invalid
  {
    FilterOutFacts(applyObjs, AllInvalid(applyObjs, pruneObjs, invalid));
    FilterOutFacts(pruneObjs, AllInvalid(applyObjs, pruneObjs, invalid));
    EmptyStages(LayersFor(applyObjs, pruneObjs, invalid));
    hide AllInvalid, GraphFor, FilterOut, LayersOf, Stage, ApplySets, PruneSets, Planned;
  }

  lemma PlanRecords(
    applyObjs: seq<Unstructured>, pruneObjs: seq<Unstructured>, invalid: set<ObjMetadata>, prior: set<ObjMetadata>, o: Options,
    valid: seq<Unstructured>, prunes: seq<Unstructured>, recs: RecordMap)
    requires valid == FilterOut(applyObjs, AllInvalid(applyObjs, pruneObjs, invalid))
    requires prunes == FilterOut(pruneObjs, AllInvalid(applyObjs, pruneObjs, invalid))
    ensures var p := BuildPlan(applyObjs, pruneObjs, invalid, prior, o);
      recs + Register(p.planned) == recs + PendingRecords(ToSet(Ids(valid)), ApplyStrategy)
        + (if o.prune && |prunes| > 0 then PendingRecords(ToSet(Ids(prunes)), DeleteStrategy) else map[])
    ensures valid == [] ==> recs + PendingRecords(ToSet(Ids(valid)), ApplyStrategy) == recs
  {
    var p := BuildPlan(applyObjs, pruneObjs, invalid, prior, o);
    var a, d := ToSet(Ids(valid)), if o.prune then ToSet(Ids(prunes)) else {};
    assert p.planned == Planned(a, d);
    RegisterParts(recs, a, d);
    assert valid == [] ==> a == {};
    assert prunes == [] ==> d == {};
    assert PendingRecords({}, DeleteStrategy) == map[];
    hide BuildPlan, AllInvalid, FilterOut, Register, PendingRecords, Planned;
  }

  lemma RegisterParts(recs: RecordMap, a: set<ObjMetadata>, d: set<ObjMetadata>)
    ensures recs + Register(Planned(a, d)) == recs + PendingRecords(a, ApplyStrategy) + PendingRecords(d, DeleteStrategy)
    ensures forall r: RecordMap, s :: r + PendingRecords({}, s) == r
  {
  }

  lemma SetsClean(objs: seq<Unstructured>, layers: seq<set<ObjMetadata>>, invalid: set<ObjMetadata>)
    requires ToSet(Ids(objs)) !! invalid
    ensures CleanSets(ApplySets(objs, layers), invalid) && CleanSets(PruneSets(objs, layers), invalid)
  {
    SetsStaircase(objs, layers, ToSet(Ids(objs)));
    hide ApplySets, PruneSets, Depths;
  }

  lemma NothingToFilter(objs: seq<Unstructured>, invalid: set<ObjMetadata>)
    requires NoDup(Ids(objs)) && ToSet(Ids(objs)) !! invalid
    ensures FilterOut(objs, invalid) == objs
    ensures Pick(Ids(objs), ToSet(Ids(objs)) - invalid) == Ids(objs)
  {
    IdsCover(objs);
    FilterAgain(objs, invalid);
    PickAll(Ids(objs), ToSet(Ids(objs)) - invalid);
  }
}
