/** Every plan that is built is one the engine can rely on. */
module SolverFacts {
  import opened Base
  import opened Records
  import opened Objects
  import opened DependencyFilter
  import opened Engine
  import opened PlanSpec
  import opened Ordering
  import opened Layers
  import opened Graphs
  import opened DependencyGraph
  import opened DependencyGraphFacts
  import opened Solver

  // ---------- Filtering and hydrating ----------

  lemma {:induction false} FilterOutFacts(objs: seq<Unstructured>, invalid: set<ObjMetadata>)
    ensures forall o :: o in FilterOut(objs, invalid) <==> o in objs && o.id !in invalid
    ensures ToSet(Ids(FilterOut(objs, invalid))) == ToSet(Ids(objs)) - invalid
  {
    if objs != [] {
      var front, obj := objs[..|objs| - 1], objs[|objs| - 1];
      FilterOutFacts(front, invalid);
      MembersSnoc(objs);
      assert Ids(objs) == Ids(front) + [obj.id];
      assert Ids(FilterOut(front, invalid) + [obj]) == Ids(FilterOut(front, invalid)) + [obj.id];
    }
  }

  lemma {:induction false} ObjectMapFacts(objs: seq<Unstructured>)
    ensures ObjectMap(objs).Keys == ToSet(Ids(objs))
    ensures forall id :: id in ObjectMap(objs) ==> ObjectMap(objs)[id].id == id && ObjectMap(objs)[id] in objs
  {
    if objs != [] {
      var front, obj := objs[..|objs| - 1], objs[|objs| - 1];
      ObjectMapFacts(front);
      MembersSnoc(objs);
      assert Ids(objs) == Ids(front) + [obj.id];
    }
  }

  lemma HydrateLayerFacts(m: map<ObjMetadata, Unstructured>, layer: set<ObjMetadata>)
    requires forall id :: id in m ==> m[id].id == id
    ensures Ids(HydrateLayer(m, layer)) == SortedSeq(layer * m.Keys)
    ensures NoDup(Ids(HydrateLayer(m, layer))) && ToSet(Ids(HydrateLayer(m, layer))) == layer * m.Keys
    ensures forall o :: o in HydrateLayer(m, layer) ==> o.id in m && o == m[o.id]
  {
    SortedSeqSorts(layer * m.Keys);
    SortedNoDup(SortedSeq(layer * m.Keys));
    var ids := SortedSeq(layer * m.Keys);
    assert forall i :: 0 <= i < |ids| ==> ids[i] in ToSet(ids);
  }

  /** The layers whose objects make up each set. */
  function Depths(ids: set<ObjMetadata>, layers: seq<set<ObjMetadata>>): seq<nat> {
    if layers == [] then []
    else
      var front := Depths(ids, layers[..|layers| - 1]);
      if layers[|layers| - 1] * ids == {} then front else front + [|layers| - 1]
  }

  /** The k-th set holds the objects of layer D[k]; every layer with objects has its set. */
  ghost predicate Staircase(sets: seq<seq<Unstructured>>, D: seq<nat>, layers: seq<set<ObjMetadata>>, ids: set<ObjMetadata>) {
    && |sets| == |D|
    && (forall k :: 0 <= k < |D| ==> D[k] < |layers|)
    && (forall k :: 0 <= k < |sets| ==> NoDup(Ids(sets[k])) && ToSet(Ids(sets[k])) == layers[D[k]] * ids)
    && (forall l :: 0 <= l < |layers| && layers[l] * ids != {} ==> exists k :: 0 <= k < |D| && D[k] == l)
  }

  ghost predicate Rising(D: seq<nat>) {
    forall i, j :: 0 <= i < j < |D| ==> D[i] < D[j]
  }

  ghost predicate Falling(D: seq<nat>) {
    forall i, j :: 0 <= i < j < |D| ==> D[i] > D[j]
  }

  ghost predicate FromMap(sets: seq<seq<Unstructured>>, m: map<ObjMetadata, Unstructured>) {
    forall k, i :: 0 <= k < |sets| && 0 <= i < |sets[k]| ==> sets[k][i].id in m && sets[k][i] == m[sets[k][i].id]
  }

  lemma StaircaseSkip(sets: seq<seq<Unstructured>>, D: seq<nat>, layers: seq<set<ObjMetadata>>, ids: set<ObjMetadata>, layer: set<ObjMetadata>)
    requires Staircase(sets, D, layers, ids) && layer * ids == {}
    ensures Staircase(sets, D, layers + [layer], ids)
  {
  }

  lemma StaircaseAdd(
    sets: seq<seq<Unstructured>>, D: seq<nat>, layers: seq<set<ObjMetadata>>, ids: set<ObjMetadata>,
    layer: set<ObjMetadata>, objs: seq<Unstructured>)
    requires Staircase(sets, D, layers, ids)
    requires NoDup(Ids(objs)) && ToSet(Ids(objs)) == layer * ids
    ensures Staircase(sets + [objs], D + [|layers|], layers + [layer], ids)
  {
    var D', layers' := D + [|layers|], layers + [layer];
    forall l | 0 <= l < |layers'| && layers'[l] * ids != {} ensures exists k :: 0 <= k < |D'| && D'[k] == l {
      if l < |layers| {
        var k :| 0 <= k < |D| && D[k] == l;
        assert D'[k] == l;
      } else {
        assert D'[|D|] == l;
      }
    }
  }

  lemma {:induction false} HydrateFacts(m: map<ObjMetadata, Unstructured>, layers: seq<set<ObjMetadata>>)
    requires forall id :: id in m ==> m[id].id == id
    ensures Staircase(Hydrate(m, layers), Depths(m.Keys, layers), layers, m.Keys)
    ensures Rising(Depths(m.Keys, layers)) && FromMap(Hydrate(m, layers), m)
  {
    if layers != [] {
      var front, layer := layers[..|layers| - 1], layers[|layers| - 1];
      HydrateFacts(m, front);
      HydrateLayerFacts(m, layer);
      var H, D := Hydrate(m, front), Depths(m.Keys, front);
      assert front + [layer] == layers;
      assert forall k :: 0 <= k < |D| ==> D[k] < |front|;
      hide HydrateLayer, Staircase, FromMap;
      if layer * m.Keys == {} {
        StaircaseSkip(H, D, front, m.Keys, layer);
      } else {
        StaircaseAdd(H, D, front, m.Keys, layer, HydrateLayer(m, layer));
        FromMapAdd(H, m, HydrateLayer(m, layer));
      }
    }
  }

  lemma FromMapAdd(sets: seq<seq<Unstructured>>, m: map<ObjMetadata, Unstructured>, objs: seq<Unstructured>)
    requires FromMap(sets, m) && forall o :: o in objs ==> o.id in m && o == m[o.id]
    ensures FromMap(sets + [objs], m)
  {
  }

  lemma ReverseIds(objs: seq<Unstructured>)
    ensures NoDup(Ids(objs)) ==> NoDup(Ids(Reversed(objs)))
    ensures ToSet(Ids(Reversed(objs))) == ToSet(Ids(objs))
  {
    var r, n := Reversed(objs), |objs|;
    forall id | id in Ids(objs) ensures id in Ids(r) {
      var i :| 0 <= i < n && Ids(objs)[i] == id;
      assert Ids(r)[n - 1 - i] == id;
    }
    if NoDup(Ids(objs)) {
      forall i, j | 0 <= i < j < n ensures Ids(r)[i] != Ids(r)[j] {
        assert Ids(objs)[n - 1 - j] != Ids(objs)[n - 1 - i];
      }
    }
  }

  /** Reversing the sets turns a rising staircase into a falling one. */
  lemma ReverseFacts(sets: seq<seq<Unstructured>>, D: seq<nat>, layers: seq<set<ObjMetadata>>, ids: set<ObjMetadata>)
    requires Staircase(sets, D, layers, ids) && Rising(D)
    ensures Staircase(ReversedSets(sets), Reversed(D), layers, ids) && Falling(Reversed(D))
  {
    var r, E, n := ReversedSets(sets), Reversed(D), |sets|;
    forall k | 0 <= k < n ensures NoDup(Ids(r[k])) && ToSet(Ids(r[k])) == layers[E[k]] * ids {
      ReverseIds(sets[n - 1 - k]);
    }
    forall l | 0 <= l < |layers| && layers[l] * ids != {} ensures exists k :: 0 <= k < n && E[k] == l {
      var k :| 0 <= k < n && D[k] == l;
      assert E[n - 1 - k] == l;
    }
  }

  // ---------- Where things are in the queue ----------

  /** The queue's ingredients. */
  datatype Layout = Layout(add: seq<Unstructured>, applySets: seq<seq<Unstructured>>, pruneSets: seq<seq<Unstructured>>, o: Options)

  datatype Cell = AddCell | ActCell(strategy: Strategy, k: nat) | WaitCell(strategy: Strategy, k: nat) | SetCell

  function Tasks(q: Layout): seq<Task> {
    AddStage(q.add, q.o.destroy)
    + Stage(q.applySets, ApplyStrategy, q.o.dryRun, q.o.reconcileTimeout)
    + Stage(q.pruneSets, DeleteStrategy, q.o.dryRun, q.o.pruneTimeout)
    + [InvSet]
  }

  function Sets(q: Layout, strategy: Strategy): seq<seq<Unstructured>> {
    if strategy == ApplyStrategy then q.applySets else q.pruneSets
  }

  /** The number of tasks for n sets. */
  function Span(dryRun: bool, n: nat): nat {
    if dryRun then n else 2 * n
  }

  function StageCell(dryRun: bool, strategy: Strategy, i: nat): Cell {
    if dryRun then ActCell(strategy, i)
    else if i % 2 == 0 then ActCell(strategy, i / 2)
    else WaitCell(strategy, i / 2)
  }

  function Offset(q: Layout): nat {
    if q.o.destroy then 0 else 1
  }

  function Locate(q: Layout, j: nat): Cell {
    var mid := Offset(q) + Span(q.o.dryRun, |q.applySets|);
    if j < Offset(q) then AddCell
    else if j < mid then StageCell(q.o.dryRun, ApplyStrategy, j - Offset(q))
    else if j < mid + Span(q.o.dryRun, |q.pruneSets|) then StageCell(q.o.dryRun, DeleteStrategy, j - mid)
    else SetCell
  }

  /** Where the k-th set of a strategy is actuated. */
  function Position(q: Layout, strategy: Strategy, k: nat): nat {
    Offset(q) + Span(q.o.dryRun, k) + if strategy == ApplyStrategy then 0 else Span(q.o.dryRun, |q.applySets|)
  }

  ghost predicate CellIs(q: Layout, c: Cell, t: Task) {
    match c
    case AddCell => t == InvAdd(q.add)
    case ActCell(s, k) => (s == ApplyStrategy || s == DeleteStrategy) && k < |Sets(q, s)| && t == ActTask(s, Sets(q, s)[k])
    case WaitCell(s, k) =>
      && (s == ApplyStrategy || s == DeleteStrategy) && k < |Sets(q, s)|
      && t == WaitTask(s, Ids(Sets(q, s)[k]), if s == ApplyStrategy then q.o.reconcileTimeout else q.o.pruneTimeout)
    case SetCell => t == InvSet
  }

  lemma StageAt(sets: seq<seq<Unstructured>>, s: Strategy, dryRun: bool, timeout: int, i: nat)
    requires i < |Stage(sets, s, dryRun, timeout)|
    ensures var c := StageCell(dryRun, s, i);
      && c.k < |sets| && i == Span(dryRun, c.k) + (if c.ActCell? then 0 else 1)
      && Stage(sets, s, dryRun, timeout)[i] ==
        if c.ActCell? then ActTask(s, sets[c.k]) else WaitTask(s, Ids(sets[c.k]), timeout)
  {
    var r := Stage(sets, s, dryRun, timeout);
    if dryRun {
      assert r[i] == ActTask(s, sets[i]);
    } else {
      assert i == 2 * (i / 2) + i % 2 && i / 2 < |sets|;
      assert r[i] == if i % 2 == 0 then ActTask(s, sets[i / 2]) else WaitTask(s, Ids(sets[i / 2]), timeout);
    }
    hide Stage, ActTask, WaitTask, Ids;
  }

  lemma ConcatAt<T>(a: seq<T>, b: seq<T>, c: seq<T>, d: T, j: nat)
    requires j <= |a| + |b| + |c|
    ensures (a + b + c + [d])[j] ==
      if j < |a| then a[j]
      else if j < |a| + |b| then b[j - |a|]
      else if j < |a| + |b| + |c| then c[j - |a| - |b|]
      else d
  {
  }

  /** The task at a position, by stage. */
  lemma TaskIn(q: Layout, j: nat)
    requires j < |Tasks(q)|
    ensures var A, P := Stage(q.applySets, ApplyStrategy, q.o.dryRun, q.o.reconcileTimeout),
        Stage(q.pruneSets, DeleteStrategy, q.o.dryRun, q.o.pruneTimeout);
      && |A| == Span(q.o.dryRun, |q.applySets|) && |P| == Span(q.o.dryRun, |q.pruneSets|)
      && |Tasks(q)| == Offset(q) + |A| + |P| + 1
      && Tasks(q)[j] ==
        if j < Offset(q) then InvAdd(q.add)
        else if j < Offset(q) + |A| then A[j - Offset(q)]
        else if j < Offset(q) + |A| + |P| then P[j - Offset(q) - |A|]
        else InvSet
  {
    var A := Stage(q.applySets, ApplyStrategy, q.o.dryRun, q.o.reconcileTimeout);
    var P := Stage(q.pruneSets, DeleteStrategy, q.o.dryRun, q.o.pruneTimeout);
    assert Tasks(q) == AddStage(q.add, q.o.destroy) + A + P + [InvSet];
    ConcatAt(AddStage(q.add, q.o.destroy), A, P, InvSet, j);
    hide Tasks, Stage;
  }

  lemma TaskAt(q: Layout, j: nat)
    requires j < |Tasks(q)|
    ensures CellIs(q, Locate(q, j), Tasks(q)[j])
    ensures Locate(q, j) == SetCell <==> j == |Tasks(q)| - 1
    ensures Locate(q, j) == AddCell <==> j == 0 && !q.o.destroy
    ensures Locate(q, j).ActCell? ==> j == Position(q, Locate(q, j).strategy, Locate(q, j).k)
  {
    hide Tasks, Stage, ActTask, WaitTask, Ids;
    TaskIn(q, j);
    var mid := Offset(q) + Span(q.o.dryRun, |q.applySets|);
    if Offset(q) <= j < mid {
      StageAt(q.applySets, ApplyStrategy, q.o.dryRun, q.o.reconcileTimeout, j - Offset(q));
    } else if mid <= j < mid + Span(q.o.dryRun, |q.pruneSets|) {
      StageAt(q.pruneSets, DeleteStrategy, q.o.dryRun, q.o.pruneTimeout, j - mid);
    }
  }

  lemma PositionAt(q: Layout, strategy: Strategy, k: nat)
    requires (strategy == ApplyStrategy || strategy == DeleteStrategy) && k < |Sets(q, strategy)|
    ensures var j := Position(q, strategy, k);
      && j < |Tasks(q)| - 1 && Tasks(q)[j] == ActTask(strategy, Sets(q, strategy)[k])
      && (!q.o.dryRun ==> Locate(q, j + 1) == WaitCell(strategy, k))
  {
    hide Tasks, Stage, ActTask, WaitTask, Ids;
    assert |Tasks(q)| == Offset(q) + Span(q.o.dryRun, |q.applySets|) + Span(q.o.dryRun, |q.pruneSets|) + 1 by {
      LastTask(q);
    }
    var j := Position(q, strategy, k);
    TaskIn(q, j);
    if strategy == ApplyStrategy {
      StageAt(q.applySets, strategy, q.o.dryRun, q.o.reconcileTimeout, Span(q.o.dryRun, k));
    } else {
      StageAt(q.pruneSets, strategy, q.o.dryRun, q.o.pruneTimeout, Span(q.o.dryRun, k));
    }
  }

  lemma LastTask(q: Layout)
    ensures |Tasks(q)| == Offset(q) + Span(q.o.dryRun, |q.applySets|) + Span(q.o.dryRun, |q.pruneSets|) + 1
  {
  }

  lemma WaitAfter(q: Layout, j: nat)
    requires j < |Tasks(q)| && Locate(q, j).WaitCell?
    ensures j > 0 && Locate(q, j - 1) == ActCell(Locate(q, j).strategy, Locate(q, j).k) && !q.o.dryRun
  {
  }

  // ---------- A plan laid out in layers is well planned ----------

  ghost predicate DisjointSets(layers: seq<set<ObjMetadata>>) {
    forall i, j, x :: 0 <= i < |layers| && 0 <= j < |layers| && x in layers[i] && x in layers[j] ==> i == j
  }

  ghost predicate In(layers: seq<set<ObjMetadata>>, x: ObjMetadata, l: int) {
    0 <= l < |layers| && x in layers[l]
  }

  /** Dependencies sit in lower layers. */
  ghost predicate Downhill(p: Plan, layers: seq<set<ObjMetadata>>) {
    forall x, y, l, l' :: In(layers, x, l) && In(layers, y, l') && y in Related(p, ApplyStrategy, x) ==> l' < l
  }

  datatype Layering = Layering(
    layers: seq<set<ObjMetadata>>, D: seq<nat>, E: seq<nat>, applyIds: set<ObjMetadata>, pruneIds: set<ObjMetadata>)

  function DepthsOf(g: Layering, strategy: Strategy): seq<nat> {
    if strategy == ApplyStrategy then g.D else g.E
  }

  function IdsOf(g: Layering, strategy: Strategy): set<ObjMetadata> {
    if strategy == ApplyStrategy then g.applyIds else g.pruneIds
  }

  ghost predicate Laid(p: Plan, q: Layout, g: Layering) {
    && p.tasks == Tasks(q) && p.dryRun == q.o.dryRun && p.destroy == q.o.destroy
    && Staircase(q.applySets, g.D, g.layers, g.applyIds) && Rising(g.D)
    && Staircase(q.pruneSets, g.E, g.layers, g.pruneIds) && Falling(g.E)
    && DisjointSets(g.layers) && g.applyIds !! g.pruneIds
    && (forall x :: x in g.applyIds + g.pruneIds ==> exists l :: In(g.layers, x, l))
    && p.planned == Planned(g.applyIds, g.pruneIds)
    && ToSet(Ids(q.add)) == g.applyIds && g.pruneIds <= p.prior
    && (p.destroy ==> q.applySets == [])
  }

  /** A slot is an object of one set of one strategy. */
  lemma SlotCell(p: Plan, q: Layout, g: Layering, j: nat, m: nat) returns (s: Strategy, k: nat)
    requires Laid(p, q, g) && Slot(p, j, m)
    ensures s == StrategyOf(p.tasks[j]) && (s == ApplyStrategy || s == DeleteStrategy) && k < |Sets(q, s)|
    ensures p.tasks[j].objs == Sets(q, s)[k] && j == Position(q, s, k)
    ensures k < |DepthsOf(g, s)| && IdAt(p, j, m) in IdsOf(g, s) && In(g.layers, IdAt(p, j, m), DepthsOf(g, s)[k])
  {
    TaskAt(q, j);
    s, k := Locate(q, j).strategy, Locate(q, j).k;
    var objs := Sets(q, s)[k];
    assert Ids(objs)[m] == IdAt(p, j, m) && Ids(objs)[m] in ToSet(Ids(objs));
  }

  lemma LaidRegistered(p: Plan, q: Layout, g: Layering)
    requires Laid(p, q, g)
    ensures SlotsRegistered(p)
  {
    forall j, m | Slot(p, j, m)
      ensures IdAt(p, j, m) in p.planned && p.planned[IdAt(p, j, m)] == StrategyOf(p.tasks[j])
    {
      var s, k := SlotCell(p, q, g, j, m);
    }
    forall j, m, j', m' | Slot(p, j, m) && Slot(p, j', m') && IdAt(p, j, m) == IdAt(p, j', m') ensures j == j' && m == m' {
      SlotUnique(p, q, g, j, m, j', m');
    }
  }

  lemma SlotUnique(p: Plan, q: Layout, g: Layering, j: nat, m: nat, j': nat, m': nat)
    requires Laid(p, q, g) && Slot(p, j, m) && Slot(p, j', m') && IdAt(p, j, m) == IdAt(p, j', m')
    ensures j == j' && m == m'
  {
    var s, k := SlotCell(p, q, g, j, m);
    var s', k' := SlotCell(p, q, g, j', m');
    assert s == s';
    var D := DepthsOf(g, s);
    assert D[k] == D[k'];
    assert k == k';
    assert Ids(Sets(q, s)[k])[m] == Ids(Sets(q, s)[k])[m'];
  }

  lemma LaidComplete(p: Plan, q: Layout, g: Layering)
    requires Laid(p, q, g)
    ensures SlotsComplete(p)
  {
    forall id | id in p.planned ensures exists j, m :: Slot(p, j, m) && IdAt(p, j, m) == id {
      var j, m := SlotOf(p, q, g, id);
    }
  }

  lemma SlotOf(p: Plan, q: Layout, g: Layering, id: ObjMetadata) returns (j: nat, m: nat)
    requires Laid(p, q, g) && id in p.planned
    ensures Slot(p, j, m) && IdAt(p, j, m) == id
  {
    var s := p.planned[id];
    var l :| In(g.layers, id, l);
    var D, sets := DepthsOf(g, s), Sets(q, s);
    assert id in g.layers[l] * IdsOf(g, s);
    var k :| 0 <= k < |D| && D[k] == l;
    assert id in ToSet(Ids(sets[k]));
    m :| 0 <= m < |Ids(sets[k])| && Ids(sets[k])[m] == id;
    j := Position(q, s, k);
    PositionAt(q, s, k);
  }

  lemma LaidOrdered(p: Plan, q: Layout, g: Layering)
    requires Laid(p, q, g) && Downhill(p, g.layers) && Transposed(p)
    ensures Ordered(p)
  {
    forall j, m, j', m' | (Slot(p, j, m) && Slot(p, j', m')
        && StrategyOf(p.tasks[j]) == StrategyOf(p.tasks[j'])
        && IdAt(p, j', m') in Related(p, StrategyOf(p.tasks[j]), IdAt(p, j, m)))
      ensures j' < j
    {
      var s, k := SlotCell(p, q, g, j, m);
      var s', k' := SlotCell(p, q, g, j', m');
      hide Laid, Staircase, Related;
      var x, y, D := IdAt(p, j, m), IdAt(p, j', m'), DepthsOf(g, s);
      if s == ApplyStrategy {
        assert D[k'] < D[k];
        assert Rising(D) by { LaidSlopes(p, q, g); }
        assert k' < k;
      } else {
        assert x in Related(p, ApplyStrategy, y);
        assert D[k] < D[k'];
        assert Falling(D) by { LaidSlopes(p, q, g); }
        assert k' < k;
      }
    }
  }

  lemma LaidSlopes(p: Plan, q: Layout, g: Layering)
    requires Laid(p, q, g)
    ensures Rising(g.D) && Falling(g.E)
  {
  }

  lemma WaitCellFollows(q: Layout, j: nat)
    requires j < |Tasks(q)| && Tasks(q)[j].Wait?
    ensures !q.o.dryRun && j > 0 && Actuates(Tasks(q)[j - 1]) && Tasks(q)[j].ids == Ids(Tasks(q)[j - 1].objs)
    ensures Tasks(q)[j].cond == if Tasks(q)[j - 1].Apply? then AllCurrent else AllNotFound
  {
    hide Tasks, Locate;
    TaskAt(q, j);
    WaitAfter(q, j);
    TaskAt(q, j - 1);
  }

  lemma ActCellFollowed(q: Layout, j: nat)
    requires j < |Tasks(q)| && Actuates(Tasks(q)[j]) && !q.o.dryRun
    ensures j + 1 < |Tasks(q)| && Tasks(q)[j + 1].Wait?
  {
    hide Tasks, Locate, Position;
    TaskAt(q, j);
    PositionAt(q, Locate(q, j).strategy, Locate(q, j).k);
    TaskAt(q, j + 1);
  }

  lemma LaidWaits(p: Plan, q: Layout, g: Layering)
    requires Laid(p, q, g)
    ensures WaitsFollow(p)
  {
    assert p.tasks == Tasks(q) && p.dryRun == q.o.dryRun;
    hide Tasks, Laid;
    forall j | 0 <= j < |p.tasks| && p.tasks[j].Wait?
      ensures !q.o.dryRun && j > 0 && Actuates(p.tasks[j - 1]) && p.tasks[j].ids == Ids(p.tasks[j - 1].objs)
      ensures p.tasks[j].cond == if p.tasks[j - 1].Apply? then AllCurrent else AllNotFound
    {
      WaitCellFollows(q, j);
    }
    forall j | 0 <= j < |p.tasks| && Actuates(p.tasks[j]) && !p.dryRun
      ensures j + 1 < |p.tasks| && p.tasks[j + 1].Wait?
    {
      ActCellFollowed(q, j);
    }
  }

  lemma LaidStaged(p: Plan, q: Layout, g: Layering)
    requires Laid(p, q, g)
    ensures Staged(p)
  {
    forall j | 0 <= j < |p.tasks|
      ensures p.tasks[j].InvSet? <==> j == |p.tasks| - 1
      ensures p.tasks[j].InvAdd? <==> j == 0 && !p.destroy
      ensures p.tasks[j].Apply? ==> q.applySets != [] && j < Offset(q) + Span(q.o.dryRun, |q.applySets|)
      ensures p.tasks[j].Prune? ==> j >= Offset(q) + Span(q.o.dryRun, |q.applySets|)
    {
      TaskAt(q, j);
    }
  }

  lemma LaidRefs(p: Plan, q: Layout, g: Layering)
    requires Laid(p, q, g)
    ensures RefsPlanned(p)
  {
    TaskAt(q, 0);
    assert g.applyIds == set id | id in p.planned && p.planned[id] == ApplyStrategy;
  }

  lemma LaidWellPlanned(p: Plan, q: Layout, g: Layering)
    requires Laid(p, q, g) && Downhill(p, g.layers) && Transposed(p)
    ensures WellPlanned(p)
  {
    LaidRegistered(p, q, g);
    LaidComplete(p, q, g);
    LaidOrdered(p, q, g);
    LaidWaits(p, q, g);
    LaidStaged(p, q, g);
    LaidRefs(p, q, g);
    hide Laid, Downhill, Transposed, SlotsRegistered, SlotsComplete, Ordered, WaitsFollow, Staged, RefsPlanned;
  }

  // ---------- Build ----------

  /** The two adjacency maps of a good graph are transposed, as the filter reads them. */
  lemma GraphTransposed(p: Plan, g: GraphVal)
    requires GraphOk(g) && p.deps == g.edges && p.rdeps == g.reverse
    ensures Transposed(p)
  {
    forall a, b ensures a in Related(p, ApplyStrategy, b) <==> b in Related(p, DeleteStrategy, a) {
      if a in Related(p, ApplyStrategy, b) {
        assert b in g.edges && a in g.edges[b];
      }
      if b in Related(p, DeleteStrategy, a) {
        assert a in g.reverse && b in g.reverse[a];
      }
    }
  }

  lemma LayersDownhill(p: Plan, g: GraphVal)
    requires GraphOk(g) && p.deps == g.edges
    ensures Downhill(p, LayersOf(g.edges, g.edges.Keys)) && DisjointSets(LayersOf(g.edges, g.edges.Keys))
  {
    var V, layers := g.edges.Keys, LayersOf(g.edges, g.edges.Keys);
    forall x, y, l, l' | In(layers, x, l) && In(layers, y, l') && y in Related(p, ApplyStrategy, x) ensures l' < l {
      LayersPartition(g.edges, V, y);
      assert InLayer(g.edges, V, x, l) && InLayer(g.edges, V, y, l');
      var h := EdgesGoDown(g.edges, V, x, y, l);
    }
    forall i, j, x | 0 <= i < |layers| && 0 <= j < |layers| && x in layers[i] && x in layers[j] ensures i == j {
      LayersPartition(g.edges, V, x);
      assert InLayer(g.edges, V, x, i) && InLayer(g.edges, V, x, j);
    }
  }

  /** Every vertex that is not left over is in a layer. */
  lemma LayersCover(g: GraphVal, x: ObjMetadata)
    requires x in g.edges && x !in Residue(g.edges, g.edges.Keys)
    ensures exists l :: In(LayersOf(g.edges, g.edges.Keys), x, l)
  {
    LayersPartition(g.edges, g.edges.Keys, x);
    var k :| InLayer(g.edges, g.edges.Keys, x, k);
    assert In(LayersOf(g.edges, g.edges.Keys), x, k);
  }

  lemma IdsConcat(a: seq<Unstructured>, b: seq<Unstructured>)
    ensures ToSet(Ids(a + b)) == ToSet(Ids(a)) + ToSet(Ids(b))
  {
    assert Ids(a + b) == Ids(a) + Ids(b);
  }

  ghost function BuildLayout(applyObjs: seq<Unstructured>, pruneObjs: seq<Unstructured>, invalid: set<ObjMetadata>, o: Options): Layout {
    var layers := LayersFor(applyObjs, pruneObjs, invalid);
    var all := AllInvalid(applyObjs, pruneObjs, invalid);
    Layout(
      FilterOut(applyObjs, all),
      ApplySets(FilterOut(applyObjs, all), layers),
      if o.prune then PruneSets(FilterOut(pruneObjs, all), layers) else [],
      o)
  }

  ghost function LayersFor(applyObjs: seq<Unstructured>, pruneObjs: seq<Unstructured>, invalid: set<ObjMetadata>): seq<set<ObjMetadata>> {
    LayersOf(GraphFor(applyObjs, pruneObjs, invalid).g.edges, GraphFor(applyObjs, pruneObjs, invalid).g.edges.Keys)
  }

  ghost function BuildLayering(applyObjs: seq<Unstructured>, pruneObjs: seq<Unstructured>, invalid: set<ObjMetadata>, o: Options): Layering {
    var layers := LayersFor(applyObjs, pruneObjs, invalid);
    var all := AllInvalid(applyObjs, pruneObjs, invalid);
    var applyIds, pruneIds := ToSet(Ids(applyObjs)) - all, if o.prune then ToSet(Ids(pruneObjs)) - all else {};
    Layering(
      layers,
      Depths(applyIds, layers),
      if o.prune then Reversed(Depths(pruneIds, layers)) else [],
      applyIds, pruneIds)
  }

  lemma SetsStaircase(objs: seq<Unstructured>, layers: seq<set<ObjMetadata>>, ids: set<ObjMetadata>)
    requires ids == ToSet(Ids(objs))
    ensures Staircase(ApplySets(objs, layers), Depths(ids, layers), layers, ids) && Rising(Depths(ids, layers))
    ensures Staircase(PruneSets(objs, layers), Reversed(Depths(ids, layers)), layers, ids) && Falling(Reversed(Depths(ids, layers)))
  {
    ObjectMapFacts(objs);
    HydrateFacts(ObjectMap(objs), layers);
    hide Staircase, Rising, Falling, Depths, Hydrate, FromMap;
    ReverseFacts(Hydrate(ObjectMap(objs), layers), Depths(ids, layers), layers, ids);
  }

  lemma GraphForFacts(applyObjs: seq<Unstructured>, pruneObjs: seq<Unstructured>, invalid: set<ObjMetadata>)
    ensures GraphOk(GraphFor(applyObjs, pruneObjs, invalid).g)
    ensures GraphFor(applyObjs, pruneObjs, invalid).g.edges.Keys == ToSet(Ids(applyObjs)) + ToSet(Ids(pruneObjs)) - invalid
  {
    var a, d := FilterOut(applyObjs, invalid), FilterOut(pruneObjs, invalid);
    FilterOutFacts(applyObjs, invalid);
    FilterOutFacts(pruneObjs, invalid);
    IdsConcat(a, d);
    hide NeedsFirst, BadAnnotation, HasEdge, DependencyGraphV, GraphOk, FilterOut;
    GraphExactly(a + d);
  }

  /** An id that is not invalid is in a layer. */
  lemma ValidLayered(applyObjs: seq<Unstructured>, pruneObjs: seq<Unstructured>, invalid: set<ObjMetadata>, x: ObjMetadata)
    requires x in ToSet(Ids(applyObjs)) + ToSet(Ids(pruneObjs)) && x !in AllInvalid(applyObjs, pruneObjs, invalid)
    ensures exists l :: In(LayersFor(applyObjs, pruneObjs, invalid), x, l)
  {
    var g := GraphFor(applyObjs, pruneObjs, invalid).g;
    assert x !in invalid && x !in Residue(g.edges, g.edges.Keys);
    assert LayersFor(applyObjs, pruneObjs, invalid) == LayersOf(g.edges, g.edges.Keys);
    hide GraphOk, GraphFor, Residue, LayersOf, LayersFor, AllInvalid, In;
    GraphForFacts(applyObjs, pruneObjs, invalid);
    LayersCover(g, x);
  }

  /** What the callers of Build guarantee: prune objects come from the prior inventory and are not among
      the objects to apply; a destroy applies nothing. */
  ghost predicate Prepared(applyObjs: seq<Unstructured>, pruneObjs: seq<Unstructured>, prior: set<ObjMetadata>, o: Options) {
    && ToSet(Ids(applyObjs)) !! ToSet(Ids(pruneObjs))
    && ToSet(Ids(pruneObjs)) <= prior
    && (o.destroy ==> applyObjs == [])
  }

  lemma NoPruneStaircase(layers: seq<set<ObjMetadata>>)
    ensures Staircase([], [], layers, {}) && Falling([])
    ensures forall t :: Stage([], DeleteStrategy, true, t) == [] && Stage([], DeleteStrategy, false, t) == []
  {
  }

  lemma BuildTasks(
    applyObjs: seq<Unstructured>, pruneObjs: seq<Unstructured>, invalid: set<ObjMetadata>,
    prior: set<ObjMetadata>, o: Options)
    ensures BuildPlan(applyObjs, pruneObjs, invalid, prior, o).tasks == Tasks(BuildLayout(applyObjs, pruneObjs, invalid, o))
  {
    NoPruneStaircase([]);
    hide ApplySets, PruneSets, FilterOut, AllInvalid, GraphFor, LayersOf, Stage;
  }

  lemma BuildSides(applyObjs: seq<Unstructured>, pruneObjs: seq<Unstructured>, invalid: set<ObjMetadata>, o: Options)
    ensures var q, g := BuildLayout(applyObjs, pruneObjs, invalid, o), BuildLayering(applyObjs, pruneObjs, invalid, o);
      && Staircase(q.applySets, g.D, g.layers, g.applyIds) && Rising(g.D)
      && Staircase(q.pruneSets, g.E, g.layers, g.pruneIds) && Falling(g.E)
      && ToSet(Ids(q.add)) == g.applyIds
  {
    var all := AllInvalid(applyObjs, pruneObjs, invalid);
    var layers := LayersFor(applyObjs, pruneObjs, invalid);
    var a, d := FilterOut(applyObjs, all), FilterOut(pruneObjs, all);
    FilterOutFacts(applyObjs, all);
    FilterOutFacts(pruneObjs, all);
    hide ApplySets, PruneSets, FilterOut, AllInvalid, LayersFor, Staircase, Rising, Falling, Depths;
    SetsStaircase(a, layers, ToSet(Ids(a)));
    SetsStaircase(d, layers, ToSet(Ids(d)));
    NoPruneStaircase(layers);
  }

  lemma BuildRegisters(
    applyObjs: seq<Unstructured>, pruneObjs: seq<Unstructured>, invalid: set<ObjMetadata>,
    prior: set<ObjMetadata>, o: Options)
    ensures var p, g := BuildPlan(applyObjs, pruneObjs, invalid, prior, o), BuildLayering(applyObjs, pruneObjs, invalid, o);
      && p.planned == Planned(g.applyIds, g.pruneIds) && p.dryRun == o.dryRun && p.destroy == o.destroy && p.prior == prior
  {
    var all := AllInvalid(applyObjs, pruneObjs, invalid);
    FilterOutFacts(applyObjs, all);
    FilterOutFacts(pruneObjs, all);
    hide Queue, FilterOut, AllInvalid, LayersFor, LayersOf, GraphFor, Depths;
  }

  lemma BuildLaid(
    applyObjs: seq<Unstructured>, pruneObjs: seq<Unstructured>, invalid: set<ObjMetadata>,
    prior: set<ObjMetadata>, o: Options)
    requires Prepared(applyObjs, pruneObjs, prior, o)
    ensures Laid(BuildPlan(applyObjs, pruneObjs, invalid, prior, o),
              BuildLayout(applyObjs, pruneObjs, invalid, o),
              BuildLayering(applyObjs, pruneObjs, invalid, o))
  {
    var g := BuildLayering(applyObjs, pruneObjs, invalid, o);
    var q := BuildLayout(applyObjs, pruneObjs, invalid, o);
    var p := BuildPlan(applyObjs, pruneObjs, invalid, prior, o);
    assert q.o == o && g.layers == LayersFor(applyObjs, pruneObjs, invalid);
    assert g.applyIds <= ToSet(Ids(applyObjs)) - AllInvalid(applyObjs, pruneObjs, invalid);
    assert g.pruneIds <= ToSet(Ids(pruneObjs)) - AllInvalid(applyObjs, pruneObjs, invalid);
    assert o.destroy ==> q.applySets == [] by {
      if o.destroy {
        NothingToHydrate(g.layers);
      }
    }
    hide BuildLayering, BuildLayout, BuildPlan, LayersFor, AllInvalid, Staircase, Rising, Falling, DisjointSets, Tasks, Planned;
    BuildTasks(applyObjs, pruneObjs, invalid, prior, o);
    BuildSides(applyObjs, pruneObjs, invalid, o);
    BuildRegisters(applyObjs, pruneObjs, invalid, prior, o);
    BuildLayersDisjoint(applyObjs, pruneObjs, invalid);
    forall x | x in g.applyIds + g.pruneIds ensures exists l :: In(g.layers, x, l) {
      ValidLayered(applyObjs, pruneObjs, invalid, x);
    }
  }

  lemma BuildLayersDisjoint(applyObjs: seq<Unstructured>, pruneObjs: seq<Unstructured>, invalid: set<ObjMetadata>)
    ensures DisjointSets(LayersFor(applyObjs, pruneObjs, invalid))
  {
    var g := GraphFor(applyObjs, pruneObjs, invalid).g;
    GraphForFacts(applyObjs, pruneObjs, invalid);
    LayersDownhill(Plan([], map[], g.edges, g.reverse, {}, {}, false, false), g);
  }

  lemma {:induction false} NothingToHydrate(layers: seq<set<ObjMetadata>>)
    ensures ApplySets([], layers) == []
  {
    if layers != [] {
      NothingToHydrate(layers[..|layers| - 1]);
    }
  }

  /** Whatever the objects, their annotations and their cycles, and whatever was invalid before,
      the plan that is built is one the engine can rely on. */
  lemma BuildWellPlanned(
    applyObjs: seq<Unstructured>, pruneObjs: seq<Unstructured>, invalid: set<ObjMetadata>,
    prior: set<ObjMetadata>, o: Options)
    requires Prepared(applyObjs, pruneObjs, prior, o)
    ensures WellPlanned(BuildPlan(applyObjs, pruneObjs, invalid, prior, o))
  {
    var p := BuildPlan(applyObjs, pruneObjs, invalid, prior, o);
    var g := GraphFor(applyObjs, pruneObjs, invalid).g;
    assert p.deps == g.edges && p.rdeps == g.reverse;
    assert LayersFor(applyObjs, pruneObjs, invalid) == LayersOf(g.edges, g.edges.Keys);
    hide WellPlanned, Laid, Transposed, Downhill, Prepared, BuildPlan, LayersOf, GraphFor, GraphOk;
    GraphForFacts(applyObjs, pruneObjs, invalid);
    GraphTransposed(p, g);
    LayersDownhill(p, g);
    BuildLaid(applyObjs, pruneObjs, invalid, prior, o);
    LaidWellPlanned(p, BuildLayout(applyObjs, pruneObjs, invalid, o), BuildLayering(applyObjs, pruneObjs, invalid, o));
  }
}
