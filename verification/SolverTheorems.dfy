/** What a built plan contains, in terms of the objects it was built from. */
module SolverTheorems {
  import opened Base
  import opened Records
  import opened Objects
  import opened DependencyFilter
  import opened Engine
  import opened PlanSpec
  import opened Layers
  import opened Graphs
  import opened DependencyGraph
  import opened DependencyGraphFacts
  import opened Solver
  import opened SolverFacts

  /** The objects that are graphed together. */
  function Graphed(applyObjs: seq<Unstructured>, pruneObjs: seq<Unstructured>, invalid: set<ObjMetadata>): seq<Unstructured> {
    FilterOut(applyObjs, invalid) + FilterOut(pruneObjs, invalid)
  }

  lemma GraphClosed(g: GraphVal)
    requires GraphOk(g)
    ensures ClosedGraph(g.edges)
  {
    forall v, w | v in g.edges && w in g.edges[v] ensures w in g.edges {
      assert w in g.reverse;
    }
  }

  /** An id ends up invalid exactly when it was invalid before, or one of its objects has a bad annotation,
      or it can reach a cycle of dependencies. */
  lemma InvalidExactly(applyObjs: seq<Unstructured>, pruneObjs: seq<Unstructured>, invalid: set<ObjMetadata>, id: ObjMetadata)
    ensures var all := Graphed(applyObjs, pruneObjs, invalid);
      id in AllInvalid(applyObjs, pruneObjs, invalid) <==>
        || id in invalid
        || (exists o :: o in all && o.id == id && BadAnnotation(all, o))
        || (id in ToSet(Ids(all)) && ReachesCycle(DependencyGraphV(all).g.edges, id))
  {
    var all := Graphed(applyObjs, pruneObjs, invalid);
    var b := DependencyGraphV(all);
    assert AllInvalid(applyObjs, pruneObjs, invalid) == invalid + ToSet(b.invalid) + Residue(b.g.edges, b.g.edges.Keys);
    hide AllInvalid, Graphed, NeedsFirst, BadAnnotation, HasEdge, DependencyGraphV, GraphOk, Residue, ReachesCycle, ClosedGraph;
    GraphExactly(all);
    GraphClosed(b.g);
    LayersPartition(b.g.edges, b.g.edges.Keys, id);
    if id in b.g.edges {
      ResidueIffReachesCycle(b.g.edges, id);
    }
  }

  /** The relation the filter looks at is exactly what the objects' definitions and annotations ask for. */
  lemma RelatedExactly(
    applyObjs: seq<Unstructured>, pruneObjs: seq<Unstructured>, invalid: set<ObjMetadata>,
    prior: set<ObjMetadata>, o: Options, x: ObjMetadata, y: ObjMetadata)
    ensures var all := Graphed(applyObjs, pruneObjs, invalid);
      y in Related(BuildPlan(applyObjs, pruneObjs, invalid, prior, o), ApplyStrategy, x) <==>
        exists obj :: obj in all && obj.id == x && NeedsFirst(all, obj, y)
  {
    var all := Graphed(applyObjs, pruneObjs, invalid);
    var p := BuildPlan(applyObjs, pruneObjs, invalid, prior, o);
    assert p.deps == DependencyGraphV(all).g.edges;
    hide Graphed, BuildPlan, NeedsFirst, BadAnnotation, DependencyGraphV, GraphOk;
    GraphExactly(all);
    assert y in Related(p, ApplyStrategy, x) <==> HasEdge(DependencyGraphV(all).g, x, y);
  }

  lemma ReversedFromMap(sets: seq<seq<Unstructured>>, m: map<ObjMetadata, Unstructured>)
    requires FromMap(sets, m)
    ensures FromMap(ReversedSets(sets), m)
  {
    var r: seq<seq<Unstructured>>, n := ReversedSets(sets), |sets|;
    forall k, i | 0 <= k < |r| && 0 <= i < |r[k]| ensures r[k][i].id in m && r[k][i] == m[r[k][i].id] {
      assert r[k][i] == sets[n - 1 - k][|r[k]| - 1 - i];
    }
  }

  /** The sets hold objects of the list. */
  lemma SetsFrom(objs: seq<Unstructured>, layers: seq<set<ObjMetadata>>, k: nat, i: nat)
    ensures k < |ApplySets(objs, layers)| && i < |ApplySets(objs, layers)[k]| ==> ApplySets(objs, layers)[k][i] in objs
    ensures k < |PruneSets(objs, layers)| && i < |PruneSets(objs, layers)[k]| ==> PruneSets(objs, layers)[k][i] in objs
  {
    ObjectMapFacts(objs);
    HydrateFacts(ObjectMap(objs), layers);
    ReversedFromMap(Hydrate(ObjectMap(objs), layers), ObjectMap(objs));
    hide Hydrate, ObjectMap, Staircase;
  }

  /** The object in a slot is one of the given objects, still valid, of the task's own kind. */
  lemma SlotHolds(
    applyObjs: seq<Unstructured>, pruneObjs: seq<Unstructured>, invalid: set<ObjMetadata>,
    prior: set<ObjMetadata>, o: Options, j: nat, m: nat)
    requires Prepared(applyObjs, pruneObjs, prior, o)
    requires Slot(BuildPlan(applyObjs, pruneObjs, invalid, prior, o), j, m)
    ensures var p := BuildPlan(applyObjs, pruneObjs, invalid, prior, o);
      && p.tasks[j].objs[m] in (if p.tasks[j].Apply? then applyObjs else pruneObjs)
      && p.tasks[j].objs[m].id !in p.invalid
      && (p.tasks[j].Prune? ==> o.prune)
  {
    var p := BuildPlan(applyObjs, pruneObjs, invalid, prior, o);
    var q, g := BuildLayout(applyObjs, pruneObjs, invalid, o), BuildLayering(applyObjs, pruneObjs, invalid, o);
    var all, layers := AllInvalid(applyObjs, pruneObjs, invalid), LayersFor(applyObjs, pruneObjs, invalid);
    var a, d := FilterOut(applyObjs, all), FilterOut(pruneObjs, all);
    assert p.invalid == all && q.applySets == ApplySets(a, layers);
    assert q.pruneSets == if o.prune then PruneSets(d, layers) else [];
    FilterOutFacts(applyObjs, all);
    FilterOutFacts(pruneObjs, all);
    hide BuildPlan, BuildLayout, BuildLayering, AllInvalid, LayersFor, FilterOut, Laid, ApplySets, PruneSets;
    BuildLaid(applyObjs, pruneObjs, invalid, prior, o);
    var s, k := SlotCell(p, q, g, j, m);
    SetsFrom(a, layers, k, m);
    SetsFrom(d, layers, k, m);
  }

  lemma IdsMember(objs: seq<Unstructured>, obj: Unstructured)
    requires obj in objs
    ensures obj.id in ToSet(Ids(objs))
  {
    var i :| 0 <= i < |objs| && objs[i] == obj;
    assert Ids(objs)[i] == obj.id;
  }

  lemma SameIdSame(objs: seq<Unstructured>, a: Unstructured, b: Unstructured)
    requires NoDup(Ids(objs)) && a in objs && b in objs && a.id == b.id
    ensures a == b
  {
    var i :| 0 <= i < |objs| && objs[i] == a;
    var j :| 0 <= j < |objs| && objs[j] == b;
    assert Ids(objs)[i] == Ids(objs)[j];
  }

  lemma PlannedIds(
    applyObjs: seq<Unstructured>, pruneObjs: seq<Unstructured>, invalid: set<ObjMetadata>,
    prior: set<ObjMetadata>, o: Options)
    requires Prepared(applyObjs, pruneObjs, prior, o)
    ensures var p := BuildPlan(applyObjs, pruneObjs, invalid, prior, o);
      forall id :: id in p.planned <==>
        id !in p.invalid && (id in ToSet(Ids(applyObjs)) || (o.prune && id in ToSet(Ids(pruneObjs))))
    ensures var p := BuildPlan(applyObjs, pruneObjs, invalid, prior, o);
      forall id :: id in p.planned ==> p.planned[id] == if id in ToSet(Ids(applyObjs)) then ApplyStrategy else DeleteStrategy
  {
    BuildRegisters(applyObjs, pruneObjs, invalid, prior, o);
    hide Queue, LayersFor, FilterOut, AllInvalid, Depths;
  }

  /** The object is in exactly one place of exactly one task, of the right kind. */
  ghost predicate Covered(p: Plan, obj: Unstructured, toApply: bool) {
    exists j, m :: OnlyAt(p, obj, toApply, j, m)
  }

  ghost predicate OnlyAt(p: Plan, obj: Unstructured, toApply: bool, j: int, m: int) {
    && Slot(p, j, m) && p.tasks[j].objs[m] == obj && (p.tasks[j].Apply? <==> toApply)
    && forall j', m' :: Slot(p, j', m') && IdAt(p, j', m') == obj.id ==> j' == j && m' == m
  }

  /** Coverage: each given object whose id is not invalid is in exactly one place of exactly one task: an apply
      task if it is to be applied, a prune task if it is to be pruned and pruning is on. */
  lemma BuildCovers(
    applyObjs: seq<Unstructured>, pruneObjs: seq<Unstructured>, invalid: set<ObjMetadata>,
    prior: set<ObjMetadata>, o: Options, obj: Unstructured)
    requires Prepared(applyObjs, pruneObjs, prior, o) && NoDup(Ids(applyObjs)) && NoDup(Ids(pruneObjs))
    requires obj in applyObjs || (o.prune && obj in pruneObjs)
    requires obj.id !in AllInvalid(applyObjs, pruneObjs, invalid)
    ensures Covered(BuildPlan(applyObjs, pruneObjs, invalid, prior, o), obj, obj in applyObjs)
  {
    var p := BuildPlan(applyObjs, pruneObjs, invalid, prior, o);
    assert p.invalid == AllInvalid(applyObjs, pruneObjs, invalid);
    assert ToSet(Ids(applyObjs)) !! ToSet(Ids(pruneObjs));
    hide BuildPlan, AllInvalid, Ids, WellPlanned, SlotsComplete, Covered, Prepared, NoDup, ToSet;
    if obj in applyObjs {
      IdsMember(applyObjs, obj);
    } else {
      IdsMember(pruneObjs, obj);
    }
    PlannedIds(applyObjs, pruneObjs, invalid, prior, o);
    BuildWellPlanned(applyObjs, pruneObjs, invalid, prior, o);
    WellPlannedSlots(p);
    var j, m := PlacedSomewhere(p, obj.id);
    SlotHolds(applyObjs, pruneObjs, invalid, prior, o, j, m);
    if obj in applyObjs {
      SameIdSame(applyObjs, p.tasks[j].objs[m], obj);
    } else {
      SameIdSame(pruneObjs, p.tasks[j].objs[m], obj);
    }
    CoveredAt(p, obj, obj in applyObjs, j, m);
  }

  lemma WellPlannedSlots(p: Plan)
    requires WellPlanned(p)
    ensures SlotsRegistered(p) && SlotsComplete(p)
  {
  }

  lemma CoveredAt(p: Plan, obj: Unstructured, toApply: bool, j: nat, m: nat)
    requires SlotsRegistered(p) && Slot(p, j, m) && p.tasks[j].objs[m] == obj && (p.tasks[j].Apply? <==> toApply)
    ensures Covered(p, obj, toApply)
  {
    assert OnlyAt(p, obj, toApply, j, m);
  }

  lemma PlacedSomewhere(p: Plan, id: ObjMetadata) returns (j: nat, m: nat)
    requires SlotsComplete(p) && id in p.planned
    ensures Slot(p, j, m) && IdAt(p, j, m) == id
  {
    j, m :| Slot(p, j, m) && IdAt(p, j, m) == id;
  }

  /** Order: when x needs y first, y is applied by an earlier task than x, and deleted by a later one. */
  lemma BuildOrders(
    applyObjs: seq<Unstructured>, pruneObjs: seq<Unstructured>, invalid: set<ObjMetadata>,
    prior: set<ObjMetadata>, o: Options, obj: Unstructured, y: ObjMetadata, j: nat, m: nat, j': nat, m': nat)
    requires Prepared(applyObjs, pruneObjs, prior, o)
    requires obj in Graphed(applyObjs, pruneObjs, invalid) && NeedsFirst(Graphed(applyObjs, pruneObjs, invalid), obj, y)
    requires var p := BuildPlan(applyObjs, pruneObjs, invalid, prior, o);
      Slot(p, j, m) && Slot(p, j', m') && IdAt(p, j, m) == obj.id && IdAt(p, j', m') == y
    ensures var p := BuildPlan(applyObjs, pruneObjs, invalid, prior, o);
      && (p.tasks[j].Apply? && p.tasks[j'].Apply? ==> j' < j)
      && (p.tasks[j].Prune? && p.tasks[j'].Prune? ==> j < j')
  {
    var p := BuildPlan(applyObjs, pruneObjs, invalid, prior, o);
    RelatedExactly(applyObjs, pruneObjs, invalid, prior, o, obj.id, y);
    BuildWellPlanned(applyObjs, pruneObjs, invalid, prior, o);
    assert Ordered(p) && Transposed(p);
    hide BuildPlan, WellPlanned, NeedsFirst, Graphed;
    assert y in Related(p, ApplyStrategy, obj.id) && obj.id in Related(p, DeleteStrategy, y);
  }
}
