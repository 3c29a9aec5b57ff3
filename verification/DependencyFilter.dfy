/** Gates each actuation on the records of the related objects. */
module DependencyFilter {
  import opened Base
  import opened Records

  datatype FatalReason =
    | InvalidStrategy
    | InvalidRelation
    | UnknownRelation
    | PrematureActuation
    | InvalidActuation
    | PrematureReconcile
    | InvalidReconcile

  datatype SkipReason =
    | ActuationMismatch(relation: ObjMetadata)
    | ActuationPrevented(relation: ObjMetadata)
    | ReconcilePrevented(relation: ObjMetadata)

  datatype Verdict = Pass | Skip(why: SkipReason) | Fatal(reason: FatalReason)

  function FilterByRelationship(
    recs: RecordMap, invalid: set<ObjMetadata>, strategy: Strategy, dryRun: bool, b: ObjMetadata): Verdict
  {
    if b in invalid then Fatal(InvalidRelation)
    else if b !in recs then Fatal(UnknownRelation)
    else if recs[b].strategy != strategy then Skip(ActuationMismatch(b))
    else match recs[b].actuation
      case Pending => Fatal(PrematureActuation)
      case Skipped => Skip(ActuationPrevented(b))
      case Failed => Skip(ActuationPrevented(b))
      case UnknownActuation => Fatal(InvalidActuation)
      case Succeeded =>
        if dryRun then Pass
        else match recs[b].reconcile
          case ReconcilePending => Fatal(PrematureReconcile)
          case ReconcileSkipped => Skip(ReconcilePrevented(b))
          case ReconcileFailed => Skip(ReconcilePrevented(b))
          case ReconcileTimeout => Skip(ReconcilePrevented(b))
          case UnknownReconcile => Fatal(InvalidReconcile)
          case ReconcileSucceeded => Pass
  }

  /** The first objection of the related objects, in graph order. */
  function FilterAll(
    recs: RecordMap, invalid: set<ObjMetadata>, strategy: Strategy, dryRun: bool, rels: seq<ObjMetadata>): Verdict
  {
    if rels == [] then Pass
    else
      var v := FilterByRelationship(recs, invalid, strategy, dryRun, rels[0]);
      if v == Pass then FilterAll(recs, invalid, strategy, dryRun, rels[1..]) else v
  }

  /** The adjacency list a strategy looks at: dependencies for applies, dependents for deletes. */
  function Relations(
    deps: map<ObjMetadata, seq<ObjMetadata>>, rdeps: map<ObjMetadata, seq<ObjMetadata>>,
    strategy: Strategy, id: ObjMetadata): seq<ObjMetadata>
  {
    var edges := if strategy == ApplyStrategy then deps else rdeps;
    if id in edges then edges[id] else []
  }

  function Filter(
    recs: RecordMap, invalid: set<ObjMetadata>,
    deps: map<ObjMetadata, seq<ObjMetadata>>, rdeps: map<ObjMetadata, seq<ObjMetadata>>,
    strategy: Strategy, dryRun: bool, id: ObjMetadata): Verdict
  {
    if strategy == UnknownStrategy then Fatal(InvalidStrategy)
    else FilterAll(recs, invalid, strategy, dryRun, Relations(deps, rdeps, strategy, id))
  }

  /** The object was actuated the same way and is reconciled. */
  ghost predicate Settled(recs: RecordMap, strategy: Strategy, id: ObjMetadata) {
    Is(recs, id, strategy, Succeeded) && recs[id].reconcile == ReconcileSucceeded
  }

  /** Outside a dry run the filter lets an object through exactly when every related
      object is valid and already settled under the same strategy. */
  lemma {:induction false} PassIffSettled(
    recs: RecordMap, invalid: set<ObjMetadata>, strategy: Strategy, rels: seq<ObjMetadata>)
    ensures FilterAll(recs, invalid, strategy, false, rels) == Pass
      <==> forall b :: b in rels ==> b !in invalid && Settled(recs, strategy, b)
  {
    if rels != [] {
      PassIffSettled(recs, invalid, strategy, rels[1..]);
      assert forall b :: b in rels <==> b == rels[0] || b in rels[1..];
    }
  }

  /** A fatal verdict is owed to one related object. */
  lemma {:induction false} VerdictHasCause(
    recs: RecordMap, invalid: set<ObjMetadata>, strategy: Strategy, dryRun: bool, rels: seq<ObjMetadata>)
    requires FilterAll(recs, invalid, strategy, dryRun, rels) != Pass
    ensures exists b :: (b in rels
      && FilterByRelationship(recs, invalid, strategy, dryRun, b) == FilterAll(recs, invalid, strategy, dryRun, rels))
  {
    if FilterByRelationship(recs, invalid, strategy, dryRun, rels[0]) == Pass {
      VerdictHasCause(recs, invalid, strategy, dryRun, rels[1..]);
    }
  }

  /** The relation whose reconcile status is still pending, although it was actuated successfully. */
  ghost predicate Unreconciled(recs: RecordMap, invalid: set<ObjMetadata>, strategy: Strategy, b: ObjMetadata) {
    b !in invalid && Is(recs, b, strategy, Succeeded) && recs[b].reconcile == ReconcilePending
  }

  /** The filter's "reconcile pending" failure is reached exactly when the first relation that is not valid
      and settled was actuated successfully and has an unfinished wait. */
  lemma {:induction false} PrematureReconcileIff(
    recs: RecordMap, invalid: set<ObjMetadata>, strategy: Strategy, rels: seq<ObjMetadata>)
    ensures FilterAll(recs, invalid, strategy, false, rels) == Fatal(PrematureReconcile) <==>
      exists k :: 0 <= k < |rels| && Unreconciled(recs, invalid, strategy, rels[k])
        && forall i :: 0 <= i < k ==> rels[i] !in invalid && Settled(recs, strategy, rels[i])
  {
    if rels != [] {
      var rest := rels[1..];
      PrematureReconcileIff(recs, invalid, strategy, rest);
      if FilterByRelationship(recs, invalid, strategy, false, rels[0]) == Pass {
        assert rels[0] !in invalid && Settled(recs, strategy, rels[0]);
        forall k | 0 <= k < |rest| ensures rest[k] == rels[k + 1] {}
        if FilterAll(recs, invalid, strategy, false, rest) == Fatal(PrematureReconcile) {
          var k :| 0 <= k < |rest| && Unreconciled(recs, invalid, strategy, rest[k])
            && forall i :: 0 <= i < k ==> rest[i] !in invalid && Settled(recs, strategy, rest[i]);
          forall i | 0 <= i < k + 1 ensures rels[i] !in invalid && Settled(recs, strategy, rels[i]) {
            if i > 0 {
              assert rels[i] == rest[i - 1];
            }
          }
          assert Unreconciled(recs, invalid, strategy, rels[k + 1]);
        } else {
          forall k | 0 <= k < |rels| && (forall i :: 0 <= i < k ==> rels[i] !in invalid && Settled(recs, strategy, rels[i]))
            ensures !Unreconciled(recs, invalid, strategy, rels[k])
          {
            if k > 0 {
              forall i | 0 <= i < k - 1 ensures rest[i] !in invalid && Settled(recs, strategy, rest[i]) {
                assert rest[i] == rels[i + 1];
              }
              assert rels[k] == rest[k - 1];
            }
          }
        }
      }
    }
  }

  // ---------- All three kinds of verdict ----------

  /** The related object is no obstacle: valid, actuated the same way and, outside dry runs, reconciled. */
  predicate Clear(recs: RecordMap, invalid: set<ObjMetadata>, strategy: Strategy, dryRun: bool, b: ObjMetadata) {
    b !in invalid && Is(recs, b, strategy, Succeeded) && (dryRun || recs[b].reconcile == ReconcileSucceeded)
  }

  /** The related object holds this one back: it is to be actuated the other way, or it was not actuated, or
      (outside dry runs) waiting for it was skipped, failed or timed out. */
  predicate Hinders(recs: RecordMap, invalid: set<ObjMetadata>, strategy: Strategy, dryRun: bool, b: ObjMetadata) {
    && b !in invalid && b in recs
    && (|| recs[b].strategy != strategy
        || recs[b].actuation == Skipped || recs[b].actuation == Failed
        || (!dryRun && recs[b].actuation == Succeeded
          && (recs[b].reconcile == ReconcileSkipped || recs[b].reconcile == ReconcileFailed || recs[b].reconcile == ReconcileTimeout)))
  }

  /** The first related object that is not clear holds this one back. */
  ghost predicate Hindered(recs: RecordMap, invalid: set<ObjMetadata>, strategy: Strategy, dryRun: bool, rels: seq<ObjMetadata>) {
    exists k :: (0 <= k < |rels| && Hinders(recs, invalid, strategy, dryRun, rels[k])
      && forall i :: 0 <= i < k ==> Clear(recs, invalid, strategy, dryRun, rels[i]))
  }

  ghost predicate AllClear(recs: RecordMap, invalid: set<ObjMetadata>, strategy: Strategy, dryRun: bool, rels: seq<ObjMetadata>) {
    forall i :: 0 <= i < |rels| ==> Clear(recs, invalid, strategy, dryRun, rels[i])
  }

  lemma OneVerdict(recs: RecordMap, invalid: set<ObjMetadata>, strategy: Strategy, dryRun: bool, b: ObjMetadata)
    ensures var v := FilterByRelationship(recs, invalid, strategy, dryRun, b);
      && (v == Pass <==> Clear(recs, invalid, strategy, dryRun, b))
      && (v.Skip? <==> Hinders(recs, invalid, strategy, dryRun, b))
      && (v.Skip? ==> v.why.relation == b)
  {
  }

  lemma ClearCons(recs: RecordMap, invalid: set<ObjMetadata>, strategy: Strategy, dryRun: bool, rels: seq<ObjMetadata>)
    requires rels != []
    ensures AllClear(recs, invalid, strategy, dryRun, rels) <==>
      Clear(recs, invalid, strategy, dryRun, rels[0]) && AllClear(recs, invalid, strategy, dryRun, rels[1..])
  {
    hide Clear;
    if Clear(recs, invalid, strategy, dryRun, rels[0]) && AllClear(recs, invalid, strategy, dryRun, rels[1..]) {
      forall i | 0 <= i < |rels| ensures Clear(recs, invalid, strategy, dryRun, rels[i]) {
        assert i > 0 ==> rels[i] == rels[1..][i - 1];
      }
    }
  }

  lemma HinderedCons(recs: RecordMap, invalid: set<ObjMetadata>, strategy: Strategy, dryRun: bool, rels: seq<ObjMetadata>)
    requires rels != [] && Clear(recs, invalid, strategy, dryRun, rels[0])
    ensures Hindered(recs, invalid, strategy, dryRun, rels) <==> Hindered(recs, invalid, strategy, dryRun, rels[1..])
  {
    OneVerdict(recs, invalid, strategy, dryRun, rels[0]);
    hide Clear, Hinders, FilterByRelationship;
    var rest := rels[1..];
    if Hindered(recs, invalid, strategy, dryRun, rels) {
      var k :| 0 <= k < |rels| && Hinders(recs, invalid, strategy, dryRun, rels[k])
        && forall i :: 0 <= i < k ==> Clear(recs, invalid, strategy, dryRun, rels[i]);
      assert k > 0 && rest[k - 1] == rels[k];
    }
    if Hindered(recs, invalid, strategy, dryRun, rest) {
      var k :| 0 <= k < |rest| && Hinders(recs, invalid, strategy, dryRun, rest[k])
        && forall i :: 0 <= i < k ==> Clear(recs, invalid, strategy, dryRun, rest[i]);
      assert rels[k + 1] == rest[k];
      forall i | 0 <= i < k + 1 ensures Clear(recs, invalid, strategy, dryRun, rels[i]) {
        assert i > 0 ==> rels[i] == rest[i - 1];
      }
    }
  }

  /** The filter passes exactly when every related object is clear, skips exactly when the first one that is not
      clear holds this one back, and otherwise fails; in dry runs too. */
  lemma {:induction false} VerdictKinds(
    recs: RecordMap, invalid: set<ObjMetadata>, strategy: Strategy, dryRun: bool, rels: seq<ObjMetadata>)
    ensures FilterAll(recs, invalid, strategy, dryRun, rels) == Pass <==> AllClear(recs, invalid, strategy, dryRun, rels)
    ensures FilterAll(recs, invalid, strategy, dryRun, rels).Skip? <==> Hindered(recs, invalid, strategy, dryRun, rels)
  {
    if rels != [] {
      VerdictKinds(recs, invalid, strategy, dryRun, rels[1..]);
      OneVerdict(recs, invalid, strategy, dryRun, rels[0]);
      ClearCons(recs, invalid, strategy, dryRun, rels);
      hide Clear, Hinders, FilterByRelationship, AllClear, Hindered;
      if Clear(recs, invalid, strategy, dryRun, rels[0]) {
        HinderedCons(recs, invalid, strategy, dryRun, rels);
      } else {
        HinderedFirst(recs, invalid, strategy, dryRun, rels);
      }
    }
  }

  lemma HinderedFirst(recs: RecordMap, invalid: set<ObjMetadata>, strategy: Strategy, dryRun: bool, rels: seq<ObjMetadata>)
    requires rels != [] && !Clear(recs, invalid, strategy, dryRun, rels[0])
    ensures Hindered(recs, invalid, strategy, dryRun, rels) <==> Hinders(recs, invalid, strategy, dryRun, rels[0])
  {
    hide Clear, Hinders;
    if Hindered(recs, invalid, strategy, dryRun, rels) {
      var k :| 0 <= k < |rels| && Hinders(recs, invalid, strategy, dryRun, rels[k])
        && forall i :: 0 <= i < k ==> Clear(recs, invalid, strategy, dryRun, rels[i]);
      assert k == 0;
    }
  }
}
