/** When an object is applied, deleted, abandoned, skipped or failed, in terms of what the cluster, the policy filters
    and the dependency filter answered. */
module ActuationOutcomes {
  import opened Base
  import opened Records
  import opened DependencyFilter
  import opened Actuate

  // ---------- Applying ----------

  /** Everything in front of the request agreed and the request was answered with an object. */
  predicate Applies(env: ApplyEnv, pass: bool) {
    env.infoOk && env.policy == Allow && pass && env.mutateOk && env.applied.Some?
  }

  /** A filter, but no error, kept the object from being applied. */
  predicate ApplySkips(env: ApplyEnv, skip: bool) {
    env.infoOk && (env.policy == Refuse || env.policy == RefuseByAnnotation || (env.policy == Allow && skip))
  }

  /** An object is recorded as applied exactly when everything succeeded, with the UID and generation of the answer;
      as skipped exactly when a filter refused it; otherwise as failed. */
  lemma ApplyOutcome(env: ApplyEnv, verdict: Verdict)
    ensures var r := ApplyRecord(env, verdict);
      && r.strategy == ApplyStrategy && r.reconcile == ReconcilePending
      && (r.actuation == Succeeded <==> Applies(env, verdict == Pass))
      && (r.actuation == Skipped <==> ApplySkips(env, verdict.Skip?))
      && (r.actuation == Succeeded || r.actuation == Skipped || r.actuation == Failed)
      && (r.actuation == Succeeded ==> r.uid == env.applied.value.uid && r.generation == env.applied.value.generation)
      && (r.actuation != Succeeded ==> r.uid == "" && r.generation == 0)
  {
  }

  // ---------- Pruning ----------

  /** A delete request is due: the object can be identified, nothing refuses it and it is not one that was applied. */
  predicate MayDelete(env: PruneEnv, pass: bool, uid: string, uids: set<string>) {
    uid != "" && env.policy == Allow && pass && uid !in uids
  }

  predicate Sends(env: PruneEnv, pass: bool, uid: string, uids: set<string>, dryRun: bool) {
    !dryRun && MayDelete(env, pass, uid, uids)
  }

  predicate Deletes(env: PruneEnv, pass: bool, uid: string, uids: set<string>, dryRun: bool) {
    MayDelete(env, pass, uid, uids) && (dryRun || env.deleted.Deleted? || env.deleted.NotFound?)
  }

  /** The object leaves the inventory without being deleted: an annotation protects it and the inventory's mark was
      taken off, or it is the same object as one that was applied under another identity. */
  predicate Abandons(env: PruneEnv, pass: bool, uid: string, uids: set<string>, dryRun: bool) {
    !dryRun && uid != "" &&
    ((env.policy == RefuseByAnnotation && env.annotationRemoved) || (env.policy == Allow && pass && uid in uids))
  }

  /** A filter, but no error, kept the object from being deleted. */
  predicate PruneSkips(env: PruneEnv, pass: bool, skip: bool, uid: string, uids: set<string>, dryRun: bool) {
    uid != "" &&
    (|| env.policy == Refuse
     || (env.policy == RefuseByAnnotation && (dryRun || env.annotationRemoved))
     || (env.policy == Allow && (skip || (pass && uid in uids))))
  }

  lemma PruneOutcome(env: PruneEnv, verdict: Verdict, uid: string, uids: set<string>, dryRun: bool)
    ensures var e := PruneOne(env, verdict, uid, uids, dryRun);
      && e.record.strategy == DeleteStrategy && e.record.reconcile == ReconcilePending
      && (e.record.actuation == Succeeded <==> Deletes(env, verdict == Pass, uid, uids, dryRun))
      && (e.record.actuation == Skipped <==> PruneSkips(env, verdict == Pass, verdict.Skip?, uid, uids, dryRun))
      && (e.record.actuation == Succeeded || e.record.actuation == Skipped || e.record.actuation == Failed)
      && e.record.uid == (if e.record.actuation == Succeeded then uid else "") && e.record.generation == 0
      && (e.abandoned <==> Abandons(env, verdict == Pass, uid, uids, dryRun))
      && (e.deleteSent <==> Sends(env, verdict == Pass, uid, uids, dryRun))
  {
  }
}
