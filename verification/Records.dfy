/** The actuation records kept for every planned object, and the status cache. */
module Records {
  import opened Base

  datatype Strategy = UnknownStrategy | ApplyStrategy | DeleteStrategy

  datatype Actuation = UnknownActuation | Pending | Succeeded | Skipped | Failed

  datatype Reconcile =
    | UnknownReconcile
    | ReconcilePending
    | ReconcileSucceeded
    | ReconcileSkipped
    | ReconcileFailed
    | ReconcileTimeout

  datatype Record = Record(
    strategy: Strategy,
    actuation: Actuation,
    reconcile: Reconcile,
    uid: string,
    generation: int)

  /** What the record list means: one record for each known id. */
  type RecordMap = map<ObjMetadata, Record>

  function NewRecord(strategy: Strategy, actuation: Actuation): Record {
    Record(strategy, actuation, ReconcilePending, "", 0)
  }

  /** Only a known id can have its reconcile status changed. */
  function SetReconcile(recs: RecordMap, id: ObjMetadata, r: Reconcile): RecordMap {
    if id in recs then recs[id := recs[id].(reconcile := r)] else recs
  }

  predicate Is(recs: RecordMap, id: ObjMetadata, strategy: Strategy, actuation: Actuation) {
    id in recs && recs[id].strategy == strategy && recs[id].actuation == actuation
  }

  /** Ids by strategy and actuation. */
  function WithActuation(recs: RecordMap, strategy: Strategy, actuation: Actuation): set<ObjMetadata> {
    set id | id in recs && recs[id].strategy == strategy && recs[id].actuation == actuation
  }

  /** Ids by reconcile status, whatever their strategy. */
  function WithReconcile(recs: RecordMap, r: Reconcile): set<ObjMetadata> {
    set id | id in recs && recs[id].reconcile == r
  }

  /** The non-empty UIDs of the successfully applied objects. */
  function AppliedUIDs(recs: RecordMap): set<string> {
    set id | id in recs && recs[id].strategy == ApplyStrategy && recs[id].actuation == Succeeded && recs[id].uid != ""
      :: recs[id].uid
  }

  // The last status the watcher reported for an object.
  datatype Status =
    | InProgressStatus
    | FailedStatus
    | CurrentStatus
    | TerminatingStatus
    | NotFoundStatus
    | UnknownStatus

  datatype Resource = Resource(uid: string, generation: int)

  datatype ResourceStatus = ResourceStatus(resource: Option<Resource>, status: Status)

  type Cache = map<ObjMetadata, ResourceStatus>

  /** A cache miss reads as an Unknown status with no resource. */
  function Get(cache: Cache, id: ObjMetadata): ResourceStatus {
    if id in cache then cache[id] else ResourceStatus(None, UnknownStatus)
  }

  datatype Condition = AllCurrent | AllNotFound

  /** The cached status meets the condition and is not older than the applied generation. */
  predicate ConditionMet(recs: RecordMap, cache: Cache, id: ObjMetadata, cond: Condition) {
    var cached := Get(cache, id);
    var applyGen := if id in recs then recs[id].generation else 0;
    var cachedGen := if cached.resource.Some? then cached.resource.value.generation else 0;
    cached.status == (if cond == AllCurrent then CurrentStatus else NotFoundStatus) && cachedGen >= applyGen
  }
}
