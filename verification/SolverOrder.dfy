/** The order of the queue: which task an object is in, its place within the task, and which waits have a deadline. */
module SolverOrder {
  import opened Base
  import opened Records
  import opened Objects
  import opened Engine
  import opened PlanSpec
  import opened Ordering
  import opened Layers
  import opened DependencyGraph
  import opened Solver
  import opened SolverFacts
  import SolverTheorems

  lemma {:induction false} HydratedSorted(m: map<ObjMetadata, Unstructured>, layers: seq<set<ObjMetadata>>)
    requires forall id :: id in m ==> m[id].id == id
    ensures forall k :: 0 <= k < |Hydrate(m, layers)| ==> Sorted(Ids(Hydrate(m, layers)[k]))
  {
    if layers != [] {
      var front, layer := layers[..|layers| - 1], layers[|layers| - 1];
      HydratedSorted(m, front);
      HydrateLayerFacts(m, layer);
      SortedSeqSorts(layer * m.Keys);
      hide Sorted, HydrateLayer, Ids, SortedSeq;
    }
  }

  /** Sets of apply tasks are ascending, those of prune tasks descending. */
  ghost predicate InOrder(objs: seq<Unstructured>, strategy: Strategy, m: int, m': int)
    requires 0 <= m < |objs| && 0 <= m' < |objs|
  {
    if strategy == ApplyStrategy then Less(objs[m].id, objs[m'].id) else Less(objs[m'].id, objs[m].id)
  }

  lemma SortedInOrder(objs: seq<Unstructured>, m: nat, m': nat)
    requires Sorted(Ids(objs)) && m < m' < |objs|
    ensures InOrder(objs, ApplyStrategy, m, m')
  {
    hide Less;
    assert Less(Ids(objs)[m], Ids(objs)[m']);
  }

  lemma ReversedInOrder(objs: seq<Unstructured>, m: nat, m': nat)
    requires Sorted(Ids(objs)) && m < m' < |objs|
    ensures InOrder(Reversed(objs), DeleteStrategy, m, m')
  {
    hide Less;
    var n := |objs|;
    assert Less(Ids(objs)[n - 1 - m'], Ids(objs)[n - 1 - m]);
  }

  lemma SetsInOrder(objs: seq<Unstructured>, layers: seq<set<ObjMetadata>>, k: nat, m: nat, m': nat)
    requires m < m'
    ensures k < |ApplySets(objs, layers)| && m' < |ApplySets(objs, layers)[k]| ==>
      InOrder(ApplySets(objs, layers)[k], ApplyStrategy, m, m')
    ensures k < |PruneSets(objs, layers)| && m' < |PruneSets(objs, layers)[k]| ==>
      InOrder(PruneSets(objs, layers)[k], DeleteStrategy, m, m')
  {
    ObjectMapFacts(objs);
    HydratedSorted(ObjectMap(objs), layers);
    var H := Hydrate(ObjectMap(objs), layers);
    assert ApplySets(objs, layers) == H && PruneSets(objs, layers) == ReversedSets(H);
    hide *;
    if k < |H| && m' < |H[k]| {
      SortedInOrder(H[k], m, m');
    }
    var r: seq<seq<Unstructured>> := ReversedSets(H);
    if k < |r| && m' < |r[k]| {
      ReversedInOrder(H[|H| - 1 - k], m, m');
    }
  }

  lemma PositionRises(q: Layout, s: Strategy, k: nat, k': nat)
    ensures Position(q, s, k) < Position(q, s, k') <==> k < k'
    ensures Position(q, s, k) == Position(q, s, k') <==> k == k'
  {
  }

  lemma SlopesOrder(D: seq<nat>, k: nat, k': nat)
    requires k < |D| && k' < |D|
    ensures Rising(D) ==> (D[k] < D[k'] <==> k < k')
    ensures Falling(D) ==> (D[k] > D[k'] <==> k < k')
  {
    if k > k' {
      assert Rising(D) ==> D[k'] < D[k];
      assert Falling(D) ==> D[k'] > D[k];
    } else if k < k' {
      assert Rising(D) ==> D[k] < D[k'];
      assert Falling(D) ==> D[k] > D[k'];
    }
  }

  lemma LayerUnique(layers: seq<set<ObjMetadata>>, x: ObjMetadata, l: int, l': int)
    requires DisjointSets(layers) && In(layers, x, l) && In(layers, x, l')
    ensures l == l'
  {
  }

  lemma LaidFields(p: Plan, q: Layout, g: Layering)
    requires Laid(p, q, g)
    ensures Rising(g.D) && Falling(g.E) && DisjointSets(g.layers)
  {
  }

  /** Two slots of one strategy: where their tasks are. */
  lemma TaskOrder(p: Plan, q: Layout, g: Layering, j: nat, m: nat, j': nat, m': nat, l: int, l': int)
    requires Laid(p, q, g) && Slot(p, j, m) && Slot(p, j', m') && StrategyOf(p.tasks[j]) == StrategyOf(p.tasks[j'])
    requires In(g.layers, IdAt(p, j, m), l) && In(g.layers, IdAt(p, j', m'), l')
    ensures j < j' <==> if p.tasks[j].Apply? then l < l' else l' < l
    ensures j == j' <==> l == l'
  {
    var s, k := SlotCell(p, q, g, j, m);
    var s', k' := SlotCell(p, q, g, j', m');
    LaidFields(p, q, g);
    hide Laid, Rising, Falling, DisjointSets, In, Position;
    LayerUnique(g.layers, IdAt(p, j, m), l, DepthsOf(g, s)[k]);
    LayerUnique(g.layers, IdAt(p, j', m'), l', DepthsOf(g, s)[k']);
    PositionRises(q, s, k, k');
    SlopesOrder(DepthsOf(g, s), k, k');
    SlopesOrder(DepthsOf(g, s), k', k);
  }

  /** The order of the queue, for two objects of one strategy: the one in the lower layer of the dependency graph is applied
      in an earlier task and deleted in a later one; objects of the same layer share a task, in which they stand in
      the fixed order of kinds, namespaces and names when applied, and in the opposite order when deleted. */
  lemma QueueOrder(
    applyObjs: seq<Unstructured>, pruneObjs: seq<Unstructured>, invalid: set<ObjMetadata>,
    prior: set<ObjMetadata>, o: Options, j: nat, m: nat, j': nat, m': nat, l: int, l': int)
    requires Prepared(applyObjs, pruneObjs, prior, o)
    requires var p := BuildPlan(applyObjs, pruneObjs, invalid, prior, o);
      && Slot(p, j, m) && Slot(p, j', m') && StrategyOf(p.tasks[j]) == StrategyOf(p.tasks[j'])
      && In(LayersFor(applyObjs, pruneObjs, invalid), IdAt(p, j, m), l)
      && In(LayersFor(applyObjs, pruneObjs, invalid), IdAt(p, j', m'), l')
    ensures var p := BuildPlan(applyObjs, pruneObjs, invalid, prior, o);
      && (j < j' <==> if p.tasks[j].Apply? then l < l' else l' < l)
      && (j == j' <==> l == l')
      && (j == j' && m < m' ==>
        if p.tasks[j].Apply? then Less(IdAt(p, j, m), IdAt(p, j, m')) else Less(IdAt(p, j, m'), IdAt(p, j, m)))
  {
    var p := BuildPlan(applyObjs, pruneObjs, invalid, prior, o);
    var q, g := BuildLayout(applyObjs, pruneObjs, invalid, o), BuildLayering(applyObjs, pruneObjs, invalid, o);
    var all, layers := AllInvalid(applyObjs, pruneObjs, invalid), LayersFor(applyObjs, pruneObjs, invalid);
    var a, d := FilterOut(applyObjs, all), FilterOut(pruneObjs, all);
    assert q.applySets == ApplySets(a, layers) && q.pruneSets == (if o.prune then PruneSets(d, layers) else []);
    assert g.layers == layers;
    hide BuildPlan, BuildLayout, BuildLayering, AllInvalid, LayersFor, FilterOut, Laid, ApplySets, PruneSets, In, Less, Prepared;
    BuildLaid(applyObjs, pruneObjs, invalid, prior, o);
    TaskOrder(p, q, g, j, m, j', m', l, l');
    if j == j' && m < m' {
      var s, k := SlotCell(p, q, g, j, m);
      SetsInOrder(a, layers, k, m, m');
      SetsInOrder(d, layers, k, m, m');
    }
  }

  /** objs[i] is the last object listed under its id. */
  ghost predicate LastListed(objs: seq<Unstructured>, id: ObjMetadata, i: int) {
    0 <= i < |objs| && objs[i].id == id && forall k :: i < k < |objs| ==> objs[k].id != id
  }

  lemma {:induction false} LastWins(objs: seq<Unstructured>, invalid: set<ObjMetadata>, id: ObjMetadata, i: nat)
    requires LastListed(objs, id, i) && id !in invalid
    ensures id in ObjectMap(FilterOut(objs, invalid)) && ObjectMap(FilterOut(objs, invalid))[id] == objs[i]
  {
    var n := |objs| - 1;
    var front := objs[..n];
    if i < n {
      assert objs[n].id != id;
      LastWins(front, invalid, id, i);
    }
    if objs[n].id !in invalid {
      var kept := FilterOut(front, invalid);
      assert FilterOut(objs, invalid) == kept + [objs[n]];
      assert (kept + [objs[n]])[..|kept + [objs[n]]| - 1] == kept;
    }
  }

  lemma SetsFromMap(objs: seq<Unstructured>, layers: seq<set<ObjMetadata>>, k: nat, m: nat)
    ensures k < |ApplySets(objs, layers)| && m < |ApplySets(objs, layers)[k]| ==>
      var o := ApplySets(objs, layers)[k][m]; o.id in ObjectMap(objs) && o == ObjectMap(objs)[o.id]
    ensures k < |PruneSets(objs, layers)| && m < |PruneSets(objs, layers)[k]| ==>
      var o := PruneSets(objs, layers)[k][m]; o.id in ObjectMap(objs) && o == ObjectMap(objs)[o.id]
  {
    ObjectMapFacts(objs);
    HydrateFacts(ObjectMap(objs), layers);
    SolverTheorems.ReversedFromMap(Hydrate(ObjectMap(objs), layers), ObjectMap(objs));
    hide Hydrate, ObjectMap, Staircase;
  }

  /** When an id is given more than once, the object that is actuated is the last one listed. */
  lemma LastListedActuated(
    applyObjs: seq<Unstructured>, pruneObjs: seq<Unstructured>, invalid: set<ObjMetadata>,
    prior: set<ObjMetadata>, o: Options, j: nat, m: nat, i: nat)
    requires Prepared(applyObjs, pruneObjs, prior, o)
    requires var p := BuildPlan(applyObjs, pruneObjs, invalid, prior, o);
      Slot(p, j, m) && LastListed(if p.tasks[j].Apply? then applyObjs else pruneObjs, IdAt(p, j, m), i)
    ensures var p := BuildPlan(applyObjs, pruneObjs, invalid, prior, o);
      p.tasks[j].objs[m] == if p.tasks[j].Apply? then applyObjs[i] else pruneObjs[i]
  {
    var p := BuildPlan(applyObjs, pruneObjs, invalid, prior, o);
    var q, g := BuildLayout(applyObjs, pruneObjs, invalid, o), BuildLayering(applyObjs, pruneObjs, invalid, o);
    var all, layers := AllInvalid(applyObjs, pruneObjs, invalid), LayersFor(applyObjs, pruneObjs, invalid);
    var a, d := FilterOut(applyObjs, all), FilterOut(pruneObjs, all);
    assert p.invalid == all;
    assert q.applySets == ApplySets(a, layers) && q.pruneSets == (if o.prune then PruneSets(d, layers) else []);
    SolverTheorems.SlotHolds(applyObjs, pruneObjs, invalid, prior, o, j, m);
    hide BuildPlan, BuildLayout, BuildLayering, AllInvalid, LayersFor, FilterOut, Laid, ApplySets, PruneSets, ObjectMap, LastListed, Prepared;
    BuildLaid(applyObjs, pruneObjs, invalid, prior, o);
    var s, k := SlotCell(p, q, g, j, m);
    SetsFromMap(a, layers, k, m);
    SetsFromMap(d, layers, k, m);
    LastWins(if s == ApplyStrategy then applyObjs else pruneObjs, all, IdAt(p, j, m), i);
  }

  lemma WaitCellTimed(q: Layout, j: nat)
    requires j < |Tasks(q)| && Tasks(q)[j].Wait?
    ensures j > 0
    ensures Tasks(q)[j].timed <==> if Tasks(q)[j - 1].Apply? then q.o.reconcileTimeout > 0 else q.o.pruneTimeout > 0
  {
    hide Tasks, Locate;
    TaskAt(q, j);
    WaitAfter(q, j);
    TaskAt(q, j - 1);
  }

  /** A wait has a deadline exactly when the timeout of its kind, reconcile after applying or prune after deleting, is positive. */
  lemma WaitsTimed(
    applyObjs: seq<Unstructured>, pruneObjs: seq<Unstructured>, invalid: set<ObjMetadata>,
    prior: set<ObjMetadata>, o: Options, j: nat)
    requires var p := BuildPlan(applyObjs, pruneObjs, invalid, prior, o); j < |p.tasks| && p.tasks[j].Wait?
    ensures var p := BuildPlan(applyObjs, pruneObjs, invalid, prior, o);
      j > 0 && (p.tasks[j].timed <==> if p.tasks[j - 1].Apply? then o.reconcileTimeout > 0 else o.pruneTimeout > 0)
  {
    var q := BuildLayout(applyObjs, pruneObjs, invalid, o);
    assert q.o == o;
    BuildTasks(applyObjs, pruneObjs, invalid, prior, o);
    hide *;
    WaitCellTimed(q, j);
  }
}
