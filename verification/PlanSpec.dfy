/** What the engine may rely on in a plan. */
module PlanSpec {
  import opened Base
  import opened Records
  import opened Objects
  import opened DependencyFilter
  import opened Engine

  predicate Actuates(t: Task) {
    t.Apply? || t.Prune?
  }

  function StrategyOf(t: Task): Strategy
    requires Actuates(t)
  {
    if t.Apply? then ApplyStrategy else DeleteStrategy
  }

  /** The m-th object of the j-th task is actuated. */
  ghost predicate Slot(p: Plan, j: int, m: int) {
    0 <= j < |p.tasks| && Actuates(p.tasks[j]) && 0 <= m < |p.tasks[j].objs|
  }

  ghost function IdAt(p: Plan, j: int, m: int): ObjMetadata
    requires Slot(p, j, m)
  {
    p.tasks[j].objs[m].id
  }

  function Related(p: Plan, strategy: Strategy, id: ObjMetadata): seq<ObjMetadata> {
    Relations(p.deps, p.rdeps, strategy, id)
  }

  /** Every slot's object is registered under its task's strategy, and no object has two slots. */
  ghost predicate SlotsRegistered(p: Plan) {
    && (forall j, m :: Slot(p, j, m) ==>
      IdAt(p, j, m) in p.planned && p.planned[IdAt(p, j, m)] == StrategyOf(p.tasks[j]))
    && (forall j, m, j', m' :: Slot(p, j, m) && Slot(p, j', m') && IdAt(p, j, m) == IdAt(p, j', m') ==> j == j' && m == m')
  }

  /** Every registered object has a slot. */
  ghost predicate SlotsComplete(p: Plan) {
    forall id :: id in p.planned ==> exists j, m :: Slot(p, j, m) && IdAt(p, j, m) == id
  }

  /** A related object under the same strategy sits in an earlier task. */
  ghost predicate Ordered(p: Plan) {
    forall j, m, j', m' :: Slot(p, j, m) && Slot(p, j', m') ==>
      StrategyOf(p.tasks[j]) == StrategyOf(p.tasks[j']) ==>
      IdAt(p, j', m') in Related(p, StrategyOf(p.tasks[j]), IdAt(p, j, m)) ==>
      j' < j
  }

  /** Outside a dry run a wait task follows each actuation task at once, on the same objects; there are no other wait tasks. */
  ghost predicate WaitsFollow(p: Plan) {
    && (forall j :: 0 <= j < |p.tasks| && p.tasks[j].Wait? ==>
      && j > 0 && Actuates(p.tasks[j - 1]) && p.tasks[j].ids == Ids(p.tasks[j - 1].objs)
      && p.tasks[j].cond == if p.tasks[j - 1].Apply? then AllCurrent else AllNotFound)
    && (!p.dryRun ==> forall j :: 0 <= j < |p.tasks| && Actuates(p.tasks[j]) ==>
      j + 1 < |p.tasks| && p.tasks[j + 1].Wait?)
    && (p.dryRun ==> forall j :: 0 <= j < |p.tasks| ==> !p.tasks[j].Wait?)
  }

  /** The inventory is extended before anything else and finally set after everything else;
      no apply task follows a prune task; a destroy applies nothing. */
  ghost predicate Staged(p: Plan) {
    && |p.tasks| > 0
    && (forall j :: 0 <= j < |p.tasks| ==> (p.tasks[j].InvSet? <==> j == |p.tasks| - 1))
    && (forall j :: 0 <= j < |p.tasks| ==> (p.tasks[j].InvAdd? <==> j == 0 && !p.destroy))
    && (forall i, j :: 0 <= i < j < |p.tasks| && p.tasks[i].Prune? ==> !p.tasks[j].Apply?)
    && (p.destroy ==> forall j :: 0 <= j < |p.tasks| ==> !p.tasks[j].Apply?)
  }

  /** The ids the run adds to the inventory are those planned for apply; prune ids are already there. */
  ghost predicate RefsPlanned(p: Plan) {
    && (!p.destroy ==>
      && |p.tasks| > 0 && p.tasks[0].InvAdd?
      && ToSet(Ids(p.tasks[0].objs)) == (set id | id in p.planned && p.planned[id] == ApplyStrategy))
    && (forall id :: id in p.planned && p.planned[id] == DeleteStrategy ==> id in p.prior)
    && (forall id :: id in p.planned ==> p.planned[id] == ApplyStrategy || p.planned[id] == DeleteStrategy)
  }

  /** The two adjacency maps hold the same edges. */
  ghost predicate Transposed(p: Plan) {
    forall a, b :: a in Related(p, ApplyStrategy, b) <==> b in Related(p, DeleteStrategy, a)
  }

  ghost predicate WellPlanned(p: Plan) {
    Transposed(p) && SlotsRegistered(p) && SlotsComplete(p) && Ordered(p) && WaitsFollow(p) && Staged(p) && RefsPlanned(p)
  }
}
