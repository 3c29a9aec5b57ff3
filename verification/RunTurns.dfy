/** Every object has one turn in a run; what happens at its turn decides, for good, whether it was applied, deleted,
    skipped, failed or abandoned. */
module RunTurns {
  import opened Base
  import opened Records
  import opened Objects
  import opened DependencyFilter
  import opened Actuate
  import opened ActuationOutcomes
  import opened Engine
  import opened PlanSpec
  import opened RunInvariant
  import RunSafety
  import WaitSpec

  /** The run before its n-th move. */
  ghost function Before(p: Plan, stored: Option<set<ObjMetadata>>, labels: seq<Label>, n: int): Option<State> {
    if 0 <= n <= |labels| then Exec(p, Init(p, stored), labels[..n]) else None
  }

  /** In state s the label deals with the object obj. */
  ghost predicate Deals(p: Plan, s: State, l: Label, strategy: Strategy, obj: Unstructured) {
    && AtObject(p, s, strategy) && CurrentObject(p, s, strategy) == obj
    && (strategy == ApplyStrategy ==> l.ApplyStep?) && (strategy == DeleteStrategy ==> l.PruneStep?)
  }

  /** The n-th move of the run is the turn of obj. */
  ghost predicate Turn(
    p: Plan, stored: Option<set<ObjMetadata>>, labels: seq<Label>, n: int, strategy: Strategy, obj: Unstructured)
  {
    && 0 <= n < |labels| && (strategy == ApplyStrategy || strategy == DeleteStrategy)
    && Before(p, stored, labels, n).Some? && Deals(p, Before(p, stored, labels, n).value, labels[n], strategy, obj)
  }

  lemma TurnEarlier(
    p: Plan, stored: Option<set<ObjMetadata>>, front: seq<Label>, l: Label, n: int, strategy: Strategy, obj: Unstructured)
    requires n < |front|
    ensures Turn(p, stored, front + [l], n, strategy, obj) <==> Turn(p, stored, front, n, strategy, obj)
    ensures n >= 0 ==> Before(p, stored, front + [l], n) == Before(p, stored, front, n)
  {
    hide Deals;
    assert n >= 0 ==> (front + [l])[..n] == front[..n];
  }

  lemma BeforeAll(p: Plan, stored: Option<set<ObjMetadata>>, front: seq<Label>, l: Label)
    ensures Before(p, stored, front + [l], |front|) == Exec(p, Init(p, stored), front)
    ensures Exec(p, Init(p, stored), front + [l]) ==
      if Exec(p, Init(p, stored), front).None? then None else Step(p, Exec(p, Init(p, stored), front).value, l)
  {
    hide Step;
    assert (front + [l])[..|front|] == front;
  }

  // ---------- One turn ----------

  /** A related object was actuated the same way, is valid and, outside dry runs, reconciled; for all of them. */
  ghost predicate Unhindered(p: Plan, recs: RecordMap, strategy: Strategy, id: ObjMetadata) {
    forall b :: b in Related(p, strategy, id) ==>
      b !in p.invalid && Is(recs, b, strategy, Succeeded) && (p.dryRun || recs[b].reconcile == ReconcileSucceeded)
  }

  lemma FilterKinds(p: Plan, recs: RecordMap, strategy: Strategy, id: ObjMetadata)
    requires strategy == ApplyStrategy || strategy == DeleteStrategy
    ensures FilterObject(p, recs, strategy, id) == Pass <==> Unhindered(p, recs, strategy, id)
    ensures FilterObject(p, recs, strategy, id).Skip? <==>
      Hindered(recs, p.invalid, strategy, p.dryRun, Related(p, strategy, id))
  {
    var rels := Related(p, strategy, id);
    VerdictKinds(recs, p.invalid, strategy, p.dryRun, rels);
    assert AllClear(recs, p.invalid, strategy, p.dryRun, rels) <==> Unhindered(p, recs, strategy, id);
    hide AllClear, Hindered, FilterAll, Unhindered;
  }

  /** What an apply step records. */
  lemma ApplyTurn(p: Plan, s: State, env: ApplyEnv, t: State, obj: Unstructured)
    requires Deals(p, s, ApplyStep(env), ApplyStrategy, obj) && Step(p, s, ApplyStep(env)) == Some(t)
    ensures obj.id in t.recs && t.recs == s.recs[obj.id := t.recs[obj.id]]
    ensures t.abandoned == s.abandoned && t.deletions == s.deletions && t.phase == NextObject(s)
    ensures var r, pass, skip :=
        t.recs[obj.id], Unhindered(p, s.recs, ApplyStrategy, obj.id),
        Hindered(s.recs, p.invalid, ApplyStrategy, p.dryRun, Related(p, ApplyStrategy, obj.id));
      && r.strategy == ApplyStrategy && r.reconcile == ReconcilePending
      && (r.actuation == Succeeded <==> Applies(env, pass))
      && (r.actuation == Skipped <==> ApplySkips(env, skip))
      && (r.actuation == Succeeded || r.actuation == Skipped || r.actuation == Failed)
      && (r.actuation == Succeeded ==> r.uid == env.applied.value.uid && r.generation == env.applied.value.generation)
  {
    FilterKinds(p, s.recs, ApplyStrategy, obj.id);
    ApplyOutcome(env, FilterObject(p, s.recs, ApplyStrategy, obj.id));
    hide FilterObject, ApplyRecord, Unhindered, Hindered, Applies, ApplySkips;
  }

  /** What a prune step records, sends and abandons. */
  lemma PruneTurn(p: Plan, s: State, env: PruneEnv, t: State, obj: Unstructured)
    requires Deals(p, s, PruneStep(env), DeleteStrategy, obj) && Step(p, s, PruneStep(env)) == Some(t)
    ensures obj.id in t.recs && t.recs == s.recs[obj.id := t.recs[obj.id]] && t.phase == NextObject(s)
    ensures var r, uids, pass, skip :=
        t.recs[obj.id], s.phase.ts.currentUIDs, Unhindered(p, s.recs, DeleteStrategy, obj.id),
        Hindered(s.recs, p.invalid, DeleteStrategy, p.dryRun, Related(p, DeleteStrategy, obj.id));
      && r.strategy == DeleteStrategy && r.reconcile == ReconcilePending
      && (r.actuation == Succeeded <==> Deletes(env, pass, obj.uid, uids, p.dryRun))
      && (r.actuation == Skipped <==> PruneSkips(env, pass, skip, obj.uid, uids, p.dryRun))
      && (r.actuation == Succeeded || r.actuation == Skipped || r.actuation == Failed)
      && (r.actuation == Succeeded ==> r.uid == obj.uid)
      && t.abandoned == s.abandoned + (if Abandons(env, pass, obj.uid, uids, p.dryRun) then {obj.id} else {})
      && t.deletions == s.deletions + (if Sends(env, pass, obj.uid, uids, p.dryRun) then [Deletion(obj.id, obj.uid)] else [])
  {
    FilterKinds(p, s.recs, DeleteStrategy, obj.id);
    PruneOutcome(env, FilterObject(p, s.recs, DeleteStrategy, obj.id), obj.uid, s.phase.ts.currentUIDs, p.dryRun);
    hide FilterObject, PruneOne, Unhindered, Hindered, Deletes, PruneSkips, Abandons, Sends;
  }

  /** Steps that are nobody's turn. */
  lemma NoTurn(p: Plan, s: State, l: Label, t: State)
    requires Core(p, s) && Step(p, s, l) == Some(t) && !l.ApplyStep? && !l.PruneStep?
    ensures RunSafety.SameButReconcile(s.recs, t.recs) && t.abandoned == s.abandoned && t.deletions == s.deletions
  {
    RunSafety.OnlyReconcileChanges(p, s, l, t);
    RunSafety.OnlyPruneSends(p, s, l, t);
    AbandonedStay(p, s, l, t);
    hide Step, Core, RunSafety.SameButReconcile;
  }

  lemma AbandonedStay(p: Plan, s: State, l: Label, t: State)
    requires Step(p, s, l) == Some(t) && !l.PruneStep?
    ensures t.abandoned == s.abandoned
  {
    hide FilterObject, ApplyRecord, WaitSpec.StatusUpdate, WaitSpec.Start, FinalRefs, WaitSpec.SendTimeoutEvents;
  }

  lemma Dealt(p: Plan, s: State, l: Label, t: State) returns (strategy: Strategy, obj: Unstructured)
    requires Step(p, s, l) == Some(t) && (l.ApplyStep? || l.PruneStep?)
    ensures strategy == ApplyStrategy || strategy == DeleteStrategy
    ensures Deals(p, s, l, strategy, obj)
  {
    AtObjectOnly(p, s);
    strategy := if l.ApplyStep? then ApplyStrategy else DeleteStrategy;
    hide StepApply, StepPrune;
    obj := CurrentObject(p, s, strategy);
  }

  /** Any turn: the object was pending, and its record is the only one that changes. */
  lemma DealtFacts(p: Plan, s: State, l: Label, t: State, strategy: Strategy, obj: Unstructured)
    requires WellPlanned(p) && Core(p, s) && Step(p, s, l) == Some(t) && Deals(p, s, l, strategy, obj)
    requires strategy == ApplyStrategy || strategy == DeleteStrategy
    ensures Is(s.recs, obj.id, strategy, Pending)
    ensures obj.id in t.recs && t.recs == s.recs[obj.id := t.recs[obj.id]]
    ensures t.recs[obj.id].strategy == strategy && t.recs[obj.id].actuation != Pending
  {
    assert Slot(p, s.phase.i, s.phase.ts.k) && IdAt(p, s.phase.i, s.phase.ts.k) == obj.id;
    CurrentPending(p, s);
    if strategy == ApplyStrategy {
      ApplyTurn(p, s, l.applyEnv, t, obj);
    } else {
      PruneTurn(p, s, l.pruneEnv, t, obj);
    }
    hide WellPlanned, Core, Step, Unhindered, Hindered, Deletes, PruneSkips, Abandons, Sends, Applies, ApplySkips;
  }

  // ---------- Over a whole run ----------

  /** Whoever was abandoned, or had a delete sent, is no longer pending. */
  ghost predicate EffectsDone(s: State) {
    && (forall id :: id in s.abandoned ==> id in s.recs && s.recs[id].actuation != Pending)
    && (forall d :: d in s.deletions ==> d.id in s.recs && s.recs[d.id].actuation != Pending)
  }

  /** The effects on id are the same in both states. */
  ghost predicate SameEffects(s: State, t: State, id: ObjMetadata) {
    && (id in t.abandoned <==> id in s.abandoned)
    && (forall uid :: Deletion(id, uid) in t.deletions <==> Deletion(id, uid) in s.deletions)
  }

  /** At another object's turn, or at nobody's, nothing happens to id. */
  lemma TurnElsewhere(p: Plan, s: State, l: Label, t: State, strategy: Strategy, obj: Unstructured)
    requires Step(p, s, l) == Some(t) && Deals(p, s, l, strategy, obj) && (strategy == ApplyStrategy || strategy == DeleteStrategy)
    ensures t.abandoned == s.abandoned || t.abandoned == s.abandoned + {obj.id}
    ensures t.deletions == s.deletions || t.deletions == s.deletions + [Deletion(obj.id, obj.uid)]
  {
    if strategy == ApplyStrategy {
      ApplyTurn(p, s, l.applyEnv, t, obj);
    } else {
      PruneTurn(p, s, l.pruneEnv, t, obj);
    }
    hide Step, Unhindered, Hindered, Deletes, PruneSkips, Abandons, Sends, Applies, ApplySkips;
  }

  lemma EffectsStep(p: Plan, s: State, l: Label, t: State)
    requires WellPlanned(p) && Core(p, s) && EffectsDone(s) && Step(p, s, l) == Some(t)
    ensures EffectsDone(t)
  {
    hide WellPlanned, Core, Step, Deals;
    if l.ApplyStep? || l.PruneStep? {
      var strategy, obj := Dealt(p, s, l, t);
      DealtFacts(p, s, l, t, strategy, obj);
      TurnElsewhere(p, s, l, t, strategy, obj);
      forall d | d in t.deletions ensures d in s.deletions || d.id == obj.id {}
    } else {
      NoTurn(p, s, l, t);
    }
  }

  lemma {:induction false} ExecEffects(p: Plan, stored: Option<set<ObjMetadata>>, labels: seq<Label>)
    requires WellPlanned(p) && Exec(p, Init(p, stored), labels).Some?
    ensures EffectsDone(Exec(p, Init(p, stored), labels).value)
  {
    if labels != [] {
      var front := labels[..|labels| - 1];
      ExecEffects(p, stored, front);
      ExecCore(p, stored, front);
      hide WellPlanned, Core, Step, EffectsDone;
      EffectsStep(p, Exec(p, Init(p, stored), front).value, labels[|labels| - 1], Exec(p, Init(p, stored), labels).value);
    }
  }

  lemma KeptStep(p: Plan, s: State, l: Label, t: State, id: ObjMetadata)
    requires WellPlanned(p) && Core(p, s) && Step(p, s, l) == Some(t)
    requires id in s.recs && s.recs[id].actuation != Pending
    ensures id in t.recs && t.recs[id] == s.recs[id].(reconcile := t.recs[id].reconcile)
    ensures SameEffects(s, t, id)
  {
    hide WellPlanned, Core, Step, Deals;
    if l.ApplyStep? || l.PruneStep? {
      var strategy, obj := Dealt(p, s, l, t);
      DealtFacts(p, s, l, t, strategy, obj);
      TurnElsewhere(p, s, l, t, strategy, obj);
      forall d | d in t.deletions ensures d in s.deletions || d.id == obj.id {}
    } else {
      NoTurn(p, s, l, t);
    }
  }

  /** Once an object is no longer pending, nothing but the reconcile status of its record changes. */
  lemma {:induction false} KeptFrom(p: Plan, stored: Option<set<ObjMetadata>>, labels: seq<Label>, n: nat, id: ObjMetadata)
    requires WellPlanned(p) && n <= |labels| && Exec(p, Init(p, stored), labels).Some?
    requires Before(p, stored, labels, n).Some?
    requires id in Before(p, stored, labels, n).value.recs && Before(p, stored, labels, n).value.recs[id].actuation != Pending
    ensures var s, u := Exec(p, Init(p, stored), labels).value, Before(p, stored, labels, n).value;
      && id in s.recs && s.recs[id] == u.recs[id].(reconcile := s.recs[id].reconcile) && SameEffects(u, s, id)
  {
    hide WellPlanned, Core, Step, Exec, Init, SameEffects;
    if n == |labels| {
      assert labels[..n] == labels;
      SameEffectsSelf(Exec(p, Init(p, stored), labels).value, id);
    } else {
      var front, l := labels[..|labels| - 1], labels[|labels| - 1];
      assert labels == front + [l];
      BeforeAll(p, stored, front, l);
      ExecCore(p, stored, front);
      assert labels[..n] == front[..n];
      KeptFrom(p, stored, front, n, id);
      KeptStep(p, Exec(p, Init(p, stored), front).value, l, Exec(p, Init(p, stored), labels).value, id);
      SameEffectsTrans(Before(p, stored, labels, n).value, Exec(p, Init(p, stored), front).value,
        Exec(p, Init(p, stored), labels).value, id);
    }
  }

  lemma SameEffectsSelf(s: State, id: ObjMetadata)
    ensures SameEffects(s, s, id)
  {
  }

  lemma SameEffectsTrans(s: State, t: State, u: State, id: ObjMetadata)
    requires SameEffects(s, t, id) && SameEffects(t, u, id)
    ensures SameEffects(s, u, id)
  {
  }

  lemma {:induction false} ExecPrefix(p: Plan, s: State, labels: seq<Label>, n: nat)
    requires n <= |labels| && Exec(p, s, labels).Some?
    ensures Exec(p, s, labels[..n]).Some?
    decreases |labels| - n
  {
    hide Step;
    if n < |labels| {
      ExecPrefix(p, s, labels, n + 1);
      assert labels[..n + 1][..n] == labels[..n];
    } else {
      assert labels[..n] == labels;
    }
  }

  /** The states around a turn, and what stays afterwards. */
  lemma AfterTurn(
    p: Plan, stored: Option<set<ObjMetadata>>, labels: seq<Label>, n: nat, strategy: Strategy, obj: Unstructured)
    returns (u: State, t: State)
    requires WellPlanned(p) && Exec(p, Init(p, stored), labels).Some? && Turn(p, stored, labels, n, strategy, obj)
    ensures Before(p, stored, labels, n) == Some(u) && Step(p, u, labels[n]) == Some(t) && Deals(p, u, labels[n], strategy, obj)
    ensures Core(p, u) && EffectsDone(u) && Is(u.recs, obj.id, strategy, Pending)
    ensures var s := Exec(p, Init(p, stored), labels).value;
      && obj.id in t.recs && obj.id in s.recs && s.recs[obj.id] == t.recs[obj.id].(reconcile := s.recs[obj.id].reconcile)
      && SameEffects(t, s, obj.id)
  {
    u := Before(p, stored, labels, n).value;
    ExecPrefix(p, Init(p, stored), labels, n + 1);
    assert labels[..n + 1] == labels[..n] + [labels[n]];
    BeforeAll(p, stored, labels[..n], labels[n]);
    t := Step(p, u, labels[n]).value;
    ExecCore(p, stored, labels[..n]);
    ExecEffects(p, stored, labels[..n]);
    hide WellPlanned, Core, Step, Deals, Exec, Init, SameEffects;
    DealtFacts(p, u, labels[n], t, strategy, obj);
    KeptFrom(p, stored, labels, n + 1, obj.id);
  }

  /** Whatever is no longer pending has had its turn. */
  lemma {:induction false} HadTurn(p: Plan, stored: Option<set<ObjMetadata>>, labels: seq<Label>, id: ObjMetadata)
    returns (n: nat, obj: Unstructured)
    requires WellPlanned(p) && Exec(p, Init(p, stored), labels).Some?
    requires var recs := Exec(p, Init(p, stored), labels).value.recs; id in recs && recs[id].actuation != Pending
    ensures obj.id == id
    ensures Turn(p, stored, labels, n, Exec(p, Init(p, stored), labels).value.recs[id].strategy, obj)
  {
    assert labels != [];
    var front, l := labels[..|labels| - 1], labels[|labels| - 1];
    assert labels == front + [l];
    BeforeAll(p, stored, front, l);
    var s, t := Exec(p, Init(p, stored), front).value, Exec(p, Init(p, stored), labels).value;
    hide *;
    ExecCore(p, stored, front);
    if l.ApplyStep? || l.PruneStep? {
      var strategy, o := Dealt(p, s, l, t);
      DealtFacts(p, s, l, t, strategy, o);
      if o.id == id {
        n, obj := |front|, o;
        LastTurn(p, stored, front, l, strategy, o);
      } else {
        n, obj := HadTurn(p, stored, front, id);
        TurnEarlier(p, stored, front, l, n, t.recs[id].strategy, obj);
      }
    } else {
      NoTurn(p, s, l, t);
      SameActuation(s.recs, t.recs, id);
      n, obj := HadTurn(p, stored, front, id);
      TurnEarlier(p, stored, front, l, n, t.recs[id].strategy, obj);
    }
  }

  lemma SameActuation(a: RecordMap, b: RecordMap, id: ObjMetadata)
    requires RunSafety.SameButReconcile(a, b) && id in b
    ensures id in a && b[id].actuation == a[id].actuation && b[id].strategy == a[id].strategy
  {
  }

  lemma LastTurn(p: Plan, stored: Option<set<ObjMetadata>>, front: seq<Label>, l: Label, strategy: Strategy, obj: Unstructured)
    requires Exec(p, Init(p, stored), front).Some? && (strategy == ApplyStrategy || strategy == DeleteStrategy)
    requires Deals(p, Exec(p, Init(p, stored), front).value, l, strategy, obj)
    ensures Turn(p, stored, front + [l], |front|, strategy, obj)
  {
    BeforeAll(p, stored, front, l);
    hide Deals, Exec, Init, Before;
  }

  // ---------- What a turn decides ----------

  /** What is recorded of an object once its turn to be applied has come, in whatever state the run is by then:
      applied exactly when the object could be read, no filter refused it, everything it depends on was clear, its
      mutation worked and the request was answered with an object, whose UID and generation are recorded; skipped
      exactly when a filter refused it; otherwise failed. */
  lemma ApplyDecided(
    p: Plan, stored: Option<set<ObjMetadata>>, labels: seq<Label>, s: State, n: nat, obj: Unstructured, env: ApplyEnv)
    requires WellPlanned(p) && Exec(p, Init(p, stored), labels) == Some(s)
    requires Turn(p, stored, labels, n, ApplyStrategy, obj) && labels[n] == ApplyStep(env)
    ensures obj.id in s.recs && s.recs[obj.id].strategy == ApplyStrategy
    ensures var r, u := s.recs[obj.id], Before(p, stored, labels, n).value;
      var refused := env.policy == Refuse || env.policy == RefuseByAnnotation;
      var hindered := Hindered(u.recs, p.invalid, ApplyStrategy, p.dryRun, Related(p, ApplyStrategy, obj.id));
      && (r.actuation == Succeeded <==>
        env.infoOk && env.policy == Allow && Unhindered(p, u.recs, ApplyStrategy, obj.id) && env.mutateOk && env.applied.Some?)
      && (r.actuation == Succeeded ==> r.uid == env.applied.value.uid && r.generation == env.applied.value.generation)
      && (r.actuation == Skipped <==> env.infoOk && (refused || (env.policy == Allow && hindered)))
      && (r.actuation == Succeeded || r.actuation == Skipped || r.actuation == Failed)
  {
    var u, t := AfterTurn(p, stored, labels, n, ApplyStrategy, obj);
    ApplyTurn(p, u, env, t, obj);
    hide WellPlanned, Core, Step, Deals, Exec, Init, Unhindered, Hindered, Turn, EffectsDone, SameEffects;
  }

  /** Some object applied in the run has the UID. */
  ghost predicate AppliedAs(recs: RecordMap, uid: string) {
    exists x :: x in recs && recs[x].strategy == ApplyStrategy && recs[x].actuation == Succeeded && recs[x].uid == uid
  }

  /** A prune task looks at the UIDs of all the objects applied in the run. */
  lemma KnownUIDs(p: Plan, stored: Option<set<ObjMetadata>>, labels: seq<Label>, u: State, uid: string)
    requires WellPlanned(p) && Exec(p, Init(p, stored), labels) == Some(u) && AtObject(p, u, DeleteStrategy)
    requires uid != ""
    ensures uid in u.phase.ts.currentUIDs <==> AppliedAs(u.recs, uid)
  {
    RunSafety.ExecDeletionsApart(p, stored, labels);
    hide WellPlanned, Exec, Init;
    assert u.phase.ts.currentUIDs == AppliedUIDs(u.recs);
  }

  /** What becomes of an object once its turn to be pruned has come, in whatever state the run is by then: it is
      recorded as deleted exactly when it has a UID, no filter refused it, everything that depends on it was clear, it
      is none of the applied objects and the request did not fail (not found counts as deleted); it is abandoned
      exactly when an annotation protects it and the inventory's mark was taken off, or nothing is in the way
      but it was applied under another identity; a delete is sent exactly when it is due; dry runs send and abandon nothing. */
  lemma PruneDecided(
    p: Plan, stored: Option<set<ObjMetadata>>, labels: seq<Label>, s: State, n: nat, obj: Unstructured, env: PruneEnv)
    requires WellPlanned(p) && Exec(p, Init(p, stored), labels) == Some(s)
    requires Turn(p, stored, labels, n, DeleteStrategy, obj) && labels[n] == PruneStep(env)
    ensures obj.id in s.recs && s.recs[obj.id].strategy == DeleteStrategy
    ensures var r, u := s.recs[obj.id], Before(p, stored, labels, n).value;
      var free := env.policy == Allow && Unhindered(p, u.recs, DeleteStrategy, obj.id);
      var applied := AppliedAs(u.recs, obj.uid);
      var protected := env.policy == RefuseByAnnotation;
      var hindered := Hindered(u.recs, p.invalid, DeleteStrategy, p.dryRun, Related(p, DeleteStrategy, obj.id));
      && (r.actuation == Succeeded <==> obj.uid != "" && free && !applied && (p.dryRun || !env.deleted.DeleteError?))
      && (r.actuation == Succeeded ==> r.uid == obj.uid)
      && (r.actuation == Skipped <==>
        obj.uid != "" && (env.policy == Refuse || (protected && (p.dryRun || env.annotationRemoved))
          || (env.policy == Allow && hindered) || (free && applied)))
      && (r.actuation == Succeeded || r.actuation == Skipped || r.actuation == Failed)
      && (obj.id in s.abandoned <==> !p.dryRun && obj.uid != "" && ((protected && env.annotationRemoved) || (free && applied)))
      && (Deletion(obj.id, obj.uid) in s.deletions <==> !p.dryRun && obj.uid != "" && free && !applied)
  {
    assert n < |labels|;
    hide *;
    var u, t := AfterTurn(p, stored, labels, n, DeleteStrategy, obj);
    TurnIsPrune(p, u, labels[n], obj);
    PruneTurn(p, u, env, t, obj);
    if obj.uid != "" {
      PrefixRun(p, stored, labels, n, u);
      KnownUIDs(p, stored, labels[..n], u, obj.uid);
    }
    NotYet(u, obj.id);
    EffectsAgree(t, s, obj.id, obj.uid);
    PruneMeans(env, Unhindered(p, u.recs, DeleteStrategy, obj.id),
      Hindered(u.recs, p.invalid, DeleteStrategy, p.dryRun, Related(p, DeleteStrategy, obj.id)),
      obj.uid, u.phase.ts.currentUIDs, p.dryRun, AppliedAs(u.recs, obj.uid));
  }

  lemma PrefixRun(p: Plan, stored: Option<set<ObjMetadata>>, labels: seq<Label>, n: nat, u: State)
    requires n <= |labels| && Before(p, stored, labels, n) == Some(u)
    ensures Exec(p, Init(p, stored), labels[..n]) == Some(u)
  {
  }

  lemma TurnIsPrune(p: Plan, u: State, l: Label, obj: Unstructured)
    requires Deals(p, u, l, DeleteStrategy, obj)
    ensures AtObject(p, u, DeleteStrategy) && u.phase.Running? && u.phase.ts.Actuating?
  {
  }

  lemma EffectsAgree(t: State, s: State, id: ObjMetadata, uid: string)
    requires SameEffects(t, s, id)
    ensures id in t.abandoned <==> id in s.abandoned
    ensures Deletion(id, uid) in t.deletions <==> Deletion(id, uid) in s.deletions
  {
  }

  /** The conditions of a prune, spelled out. */
  lemma PruneMeans(env: PruneEnv, pass: bool, skip: bool, uid: string, uids: set<string>, dryRun: bool, applied: bool)
    requires uid != "" ==> (uid in uids <==> applied)
    ensures var free, protected := env.policy == Allow && pass, env.policy == RefuseByAnnotation;
      && (Deletes(env, pass, uid, uids, dryRun) <==> uid != "" && free && !applied && (dryRun || !env.deleted.DeleteError?))
      && (PruneSkips(env, pass, skip, uid, uids, dryRun) <==>
        uid != "" && (env.policy == Refuse || (protected && (dryRun || env.annotationRemoved))
          || (env.policy == Allow && skip) || (free && applied)))
      && (Abandons(env, pass, uid, uids, dryRun) <==>
        !dryRun && uid != "" && ((protected && env.annotationRemoved) || (free && applied)))
      && (Sends(env, pass, uid, uids, dryRun) <==> !dryRun && uid != "" && free && !applied)
  {
  }

  lemma NotYet(u: State, id: ObjMetadata)
    requires EffectsDone(u) && Is(u.recs, id, DeleteStrategy, Pending)
    ensures id !in u.abandoned && forall uid :: Deletion(id, uid) !in u.deletions
  {
  }

  /** Nothing is abandoned silently: every abandoned object had its turn to be pruned, and there the inventory's mark was
      taken off because an annotation protects it, or it is the same cluster object as one this run applied. */
  lemma AbandonedForCause(p: Plan, stored: Option<set<ObjMetadata>>, labels: seq<Label>, s: State, id: ObjMetadata)
    returns (n: nat, obj: Unstructured)
    requires WellPlanned(p) && Exec(p, Init(p, stored), labels) == Some(s) && id in s.abandoned
    ensures obj.id == id && Turn(p, stored, labels, n, DeleteStrategy, obj) && labels[n].PruneStep? && obj.uid != ""
    ensures (labels[n].pruneEnv.policy == RefuseByAnnotation && labels[n].pruneEnv.annotationRemoved) || AppliedAs(s.recs, obj.uid)
  {
    ExecEffects(p, stored, labels);
    n, obj := HadTurn(p, stored, labels, id);
    AbandonedDeletes(p, stored, labels, id);
    hide WellPlanned, Exec, Init, EffectsDone, Deals, AtObject;
    assert labels[n].PruneStep? by { PruneLabel(p, Before(p, stored, labels, n).value, labels[n], obj); }
    PruneDecided(p, stored, labels, s, n, obj, labels[n].pruneEnv);
    if AppliedAs(Before(p, stored, labels, n).value.recs, obj.uid) {
      AppliedStays(p, stored, labels, n, obj.uid);
    }
    hide Unhindered, AppliedAs, Turn, Hindered;
  }

  lemma PruneLabel(p: Plan, u: State, l: Label, obj: Unstructured)
    requires Deals(p, u, l, DeleteStrategy, obj)
    ensures l.PruneStep?
  {
  }

  lemma AppliedStays(p: Plan, stored: Option<set<ObjMetadata>>, labels: seq<Label>, n: nat, uid: string)
    requires WellPlanned(p) && n <= |labels| && Exec(p, Init(p, stored), labels).Some?
    requires Before(p, stored, labels, n).Some? && AppliedAs(Before(p, stored, labels, n).value.recs, uid)
    ensures AppliedAs(Exec(p, Init(p, stored), labels).value.recs, uid)
  {
    hide WellPlanned, Exec, Init, SameEffects;
    var recs := Before(p, stored, labels, n).value.recs;
    var x :| x in recs && recs[x].strategy == ApplyStrategy && recs[x].actuation == Succeeded && recs[x].uid == uid;
    KeptFrom(p, stored, labels, n, x);
  }

  lemma {:induction false} AbandonedDeletes(p: Plan, stored: Option<set<ObjMetadata>>, labels: seq<Label>, id: ObjMetadata)
    requires WellPlanned(p) && Exec(p, Init(p, stored), labels).Some? && id in Exec(p, Init(p, stored), labels).value.abandoned
    ensures id in Exec(p, Init(p, stored), labels).value.recs
    ensures Exec(p, Init(p, stored), labels).value.recs[id].strategy == DeleteStrategy
  {
    if labels != [] {
      var front, l := labels[..|labels| - 1], labels[|labels| - 1];
      var s, t := Exec(p, Init(p, stored), front).value, Exec(p, Init(p, stored), labels).value;
      ExecCore(p, stored, front);
      ExecEffects(p, stored, front);
      hide WellPlanned, Core, Step, Exec, Init, Deals, SameEffects;
      if id in s.abandoned {
        AbandonedDeletes(p, stored, front, id);
        KeptStep(p, s, l, t, id);
      } else {
        Abandoning(p, s, l, t, id);
      }
    }
  }

  /** Only its own turn to be pruned abandons an object. */
  lemma Abandoning(p: Plan, s: State, l: Label, t: State, id: ObjMetadata)
    requires WellPlanned(p) && Core(p, s) && Step(p, s, l) == Some(t) && id in t.abandoned && id !in s.abandoned
    ensures id in t.recs && t.recs[id].strategy == DeleteStrategy
  {
    hide WellPlanned, Core, Step, Deals, Unhindered, Hindered, Deletes, PruneSkips, Abandons, Sends, Applies, ApplySkips;
    if l.ApplyStep? || l.PruneStep? {
      var strategy, obj := Dealt(p, s, l, t);
      DealtFacts(p, s, l, t, strategy, obj);
      TurnElsewhere(p, s, l, t, strategy, obj);
      if strategy == ApplyStrategy {
        assert l.ApplyStep? by { ApplyLabel(p, s, l, obj); }
        ApplyTurn(p, s, l.applyEnv, t, obj);
      }
    } else {
      NoTurn(p, s, l, t);
    }
  }

  lemma ApplyLabel(p: Plan, u: State, l: Label, obj: Unstructured)
    requires Deals(p, u, l, ApplyStrategy, obj)
    ensures l.ApplyStep?
  {
  }
}
