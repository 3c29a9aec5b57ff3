/** One object's way through an apply or a prune task.  The cluster's answers are given by an
    environment value; only the answers that the code asks for are read. */
module Actuate {
  import opened Base
  import opened Records
  import opened DependencyFilter

  /** The verdict of the filters in front of the dependency filter. */
  datatype Policy = Allow | Refuse | Abort | RefuseByAnnotation

  datatype ApplyEnv = ApplyEnv(
    infoOk: bool,
    policy: Policy,
    mutateOk: bool,
    applied: Option<Resource>)

  /** What the apply task records for one object. */
  function ApplyRecord(env: ApplyEnv, verdict: Verdict): Record {
    if !env.infoOk then NewRecord(ApplyStrategy, Failed)
    else if env.policy == Abort then NewRecord(ApplyStrategy, Failed)
    else if env.policy != Allow then NewRecord(ApplyStrategy, Skipped)
    else if verdict.Fatal? then NewRecord(ApplyStrategy, Failed)
    else if verdict.Skip? then NewRecord(ApplyStrategy, Skipped)
    else if !env.mutateOk then NewRecord(ApplyStrategy, Failed)
    else match env.applied
      case None => NewRecord(ApplyStrategy, Failed)
      case Some(res) => Record(ApplyStrategy, Succeeded, ReconcilePending, res.uid, res.generation)
  }

  datatype DeleteResult = Deleted | NotFound | DeleteError

  datatype PruneEnv = PruneEnv(
    policy: Policy,
    annotationRemoved: bool,
    deleted: DeleteResult)

  /** What the prune task does for one object: its record, whether the object is abandoned,
      and whether a delete request carrying its UID was sent. */
  datatype PruneEffect = PruneEffect(record: Record, abandoned: bool, deleteSent: bool)

  function NotDeleted(actuation: Actuation, abandoned: bool): PruneEffect {
    PruneEffect(NewRecord(DeleteStrategy, actuation), abandoned, false)
  }

  function PruneOne(env: PruneEnv, verdict: Verdict, uid: string, currentUIDs: set<string>, dryRun: bool): PruneEffect {
    if uid == "" then NotDeleted(Failed, false)
    else if env.policy == Abort then NotDeleted(Failed, false)
    else if env.policy == RefuseByAnnotation then
      if dryRun then NotDeleted(Skipped, false)
      else if env.annotationRemoved then NotDeleted(Skipped, true)
      else NotDeleted(Failed, false)
    else if env.policy == Refuse then NotDeleted(Skipped, false)
    else if verdict.Fatal? then NotDeleted(Failed, false)
    else if verdict.Skip? then NotDeleted(Skipped, false)
    else if uid in currentUIDs then NotDeleted(Skipped, !dryRun)
    else if !dryRun && env.deleted == DeleteError then
      PruneEffect(NewRecord(DeleteStrategy, Failed), false, true)
    else
      PruneEffect(Record(DeleteStrategy, Succeeded, ReconcilePending, uid, 0), false, !dryRun)
  }
}
