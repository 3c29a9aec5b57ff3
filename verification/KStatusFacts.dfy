/** The status decides the conditions, and writing them back does not change the status. */
module KStatusFacts {
  import opened Base
  import opened KStatus

  /** The conditions that belong to each status. */
  ghost predicate Shaped(r: Outcome) {
    match r.status
    case InProgress => |r.conditions| == 1 && r.conditions[0].kind == Reconciling
    case Failed => |r.conditions| == 1 && r.conditions[0].kind == Stalled
    case Current => r.conditions == []
    case Terminating => r.conditions == []
  }

  /** A verdict reached by a kind's rules or from conditions: never Terminating. */
  ghost predicate Judged(r: Outcome) {
    Shaped(r) && r.status != Terminating
  }

  lemma {:induction false} JobShaped(conds: seq<Basic>, suspended: bool)
    ensures JobVerdict(conds, suspended).Some? ==> Judged(JobVerdict(conds, suspended).value)
  {
    if conds != [] {
      JobShaped(conds[1..], suspended);
    }
  }

  lemma {:induction false} CRDShaped(conds: seq<Basic>)
    ensures CRDVerdict(conds).Some? ==> Judged(CRDVerdict(conds).value)
  {
    if conds != [] {
      CRDShaped(conds[1..]);
    }
  }

  lemma {:induction false} ReadyShaped(conds: seq<Basic>)
    ensures ReadyVerdict(conds).Some? ==> Judged(ReadyVerdict(conds).value)
  {
    if conds != [] {
      ReadyShaped(conds[1..]);
    }
  }

  lemma {:induction false} StandardShaped(conds: seq<Basic>)
    ensures StandardVerdict(conds).Some? ==> Judged(StandardVerdict(conds).value)
  {
    if conds != [] {
      StandardShaped(conds[1..]);
    }
  }

  lemma ResultsShaped()
    ensures forall reason, message :: Judged(InProgressResult(reason, message))
    ensures forall reason, message :: Judged(FailedResult(reason, message))
    ensures forall message :: Judged(CurrentResult(message))
  {
  }

  lemma StatefulSetShaped(m: Meta)
    ensures Judged(StatefulSetStatus(m))
  {
    hide IntField, StringField;
  }

  lemma DeploymentShaped(m: Meta, conds: seq<Basic>)
    ensures Judged(DeploymentStatus(m, conds))
  {
    ResultsShaped();
    hide IntField, DeploymentScan, InProgressResult, CurrentResult;
  }

  lemma ReplicaSetShaped(m: Meta, conds: seq<Basic>)
    ensures Judged(ReplicaSetStatus(m, conds))
  {
    ResultsShaped();
    hide IntField, IsTrue, InProgressResult, CurrentResult, Judged;
  }

  lemma DaemonSetShaped(m: Meta)
    ensures DaemonSetStatus(m).Ok? ==> Judged(DaemonSetStatus(m).value)
  {
    hide IntField;
  }

  lemma WorkloadsShaped(m: Meta, conds: seq<Basic>)
    ensures Judged(ServiceStatus(m)) && Judged(PVCStatus(m)) && Judged(StatefulSetStatus(m))
    ensures Judged(DeploymentStatus(m, conds)) && Judged(ReplicaSetStatus(m, conds))
    ensures DaemonSetStatus(m).Ok? ==> Judged(DaemonSetStatus(m).value)
  {
    hide IntField, StringField, BoolField, DeploymentScan, IsTrue;
    hide StatefulSetStatus, DeploymentStatus, ReplicaSetStatus, DaemonSetStatus;
    StatefulSetShaped(m);
    DeploymentShaped(m, conds);
    ReplicaSetShaped(m, conds);
    DaemonSetShaped(m);
  }

  lemma KindShaped(m: Meta, conds: seq<Basic>, now: int)
    ensures KindStatus(m, conds, now).Ok? ==> Judged(KindStatus(m, conds, now).value)
  {
    WorkloadsShaped(m, conds);
    PodShaped(m, conds, now);
    JobShaped(conds, BoolField(m, ".spec.suspend", false));
    CRDShaped(conds);
    ReadyShaped(conds);
    hide LegacyKind, ServiceStatus, PVCStatus, StatefulSetStatus, DeploymentStatus, ReplicaSetStatus, DaemonSetStatus;
    hide PodStatus, JobVerdict, CRDVerdict, ReadyVerdict, StringField, BoolField;
  }

  lemma PodShaped(m: Meta, conds: seq<Basic>, now: int)
    ensures PodStatus(m, conds, now).Ok? ==> Judged(PodStatus(m, conds, now).value)
  {
    hide StringField, FirstWith, CrashLooping;
  }

  /** A computed status determines the conditions: one Reconciling when in progress, one Stalled when failed,
      none when current or terminating. */
  lemma ComputeShaped(o: Object, now: int)
    ensures Compute(o, now).Ok? ==> Shaped(Compute(o, now).value)
  {
    if DecodeAll(o.conditions).Some? {
      var conds := DecodeAll(o.conditions).value;
      StandardShaped(conds);
      KindShaped(o.meta, conds, now);
    }
    hide StandardVerdict, KindStatus, DecodeAll;
  }

  // ---------- Writing back ----------

  lemma {:induction false} DecodeFacts(entries: seq<RawCondition>)
    ensures Decode(entries).Some? <==> forall i :: 0 <= i < |entries| ==> Convertible(entries[i])
    ensures Decode(entries).Some? ==> |Decode(entries).value| == |entries|
    ensures Decode(entries).Some? ==> forall i :: 0 <= i < |entries| ==> Decode(entries).value[i] == ToBasic(entries[i])
  {
    if entries != [] {
      DecodeFacts(entries[..|entries| - 1]);
    }
  }

  lemma {:induction false} RewriteFacts(entries: seq<RawCondition>, std: Condition, clock: string)
    ensures var r := RewriteAll(entries, std, clock);
      && |r| == |entries|
      && forall i :: 0 <= i < |entries| ==> r[i] == if Matches(entries[i], std.kind) then Rewrite(entries[i], std, clock) else entries[i]
  {
    if entries != [] {
      RewriteFacts(entries[..|entries| - 1], std, clock);
    }
  }

  function StatusOf(t: ConditionType): Status {
    if t == Stalled then Failed else InProgress
  }

  function Other(t: ConditionType): ConditionType {
    if t == Stalled then Reconciling else Stalled
  }

  /** A true condition decides when no true one of the other type precedes it. */
  lemma {:induction false} DecidedBy(conds: seq<Basic>, t: ConditionType, p: nat)
    requires p < |conds| && IsTrue(conds[p], TypeName(t))
    requires forall k :: 0 <= k < p ==> !IsTrue(conds[k], TypeName(Other(t)))
    ensures StandardVerdict(conds).Some? && StandardVerdict(conds).value.status == StatusOf(t)
  {
    if p > 0 && !IsTrue(conds[0], TypeName(t)) {
      DecidedBy(conds[1..], t, p - 1);
    }
  }

  /** What a verdict says about the conditions before it. */
  lemma {:induction false} VerdictFrom(conds: seq<Basic>, t: ConditionType) returns (p: nat)
    requires StandardVerdict(conds).Some? ==> StandardVerdict(conds).value.status == StatusOf(t)
    ensures p <= |conds| && forall k :: 0 <= k < p ==> !IsTrue(conds[k], TypeName(Other(t)))
    ensures p < |conds| ==> IsTrue(conds[p], TypeName(t))
    ensures StandardVerdict(conds).Some? ==> p < |conds|
  {
    p := 0;
    if conds != [] && !IsTrue(conds[0], TypeName(t)) {
      var q := VerdictFrom(conds[1..], t);
      p := q + 1;
      assert forall k :: 0 < k < |conds| ==> conds[k] == conds[1..][k - 1];
    }
  }

  /** Writing a condition keeps the list readable and every entry of another type as it was; the written type is True. */
  lemma WriteFacts(entries: seq<RawCondition>, std: Condition, clock: string)
    requires Decode(entries).Some? && Write(entries, std, clock).Some?
    ensures var w, conds := Write(entries, std, clock).value, Decode(entries).value;
      && Decode(w).Some? && |w| >= |entries|
      && (forall i :: 0 <= i < |entries| && conds[i].kind == TypeName(std.kind) ==> IsTrue(Decode(w).value[i], TypeName(std.kind)))
      && (forall i :: 0 <= i < |entries| && conds[i].kind != TypeName(std.kind) ==> Decode(w).value[i] == conds[i])
      && (|w| > |entries| ==> |w| == |entries| + 1 && IsTrue(Decode(w).value[|entries|], TypeName(std.kind)))
      && (|w| == |entries| ==> exists i :: 0 <= i < |entries| && conds[i].kind == TypeName(std.kind))
  {
    var w := Write(entries, std, clock).value;
    DecodeFacts(entries);
    DecodeFacts(w);
    RewriteFacts(entries, std, clock);
    var conds := Decode(entries).value;
    forall i | 0 <= i < |entries| ensures Matches(entries[i], std.kind) <==> conds[i].kind == TypeName(std.kind) {
      assert conds[i] == ToBasic(entries[i]);
    }
    hide Decode, RewriteAll, TypeName;
    if Present(entries, std.kind) {
      var i :| 0 <= i < |entries| && Matches(entries[i], std.kind);
      assert conds[i].kind == TypeName(std.kind);
    }
  }

  /** An entry of the condition's type as it is after writing: True, with the new reason, message and update time, and
      a new transition time unless it was True before. */
  predicate Rewritten(old_: RawCondition, new_: RawCondition, std: Condition, clock: string) {
    && old_.Raw? && new_.Raw? && new_.kind == old_.kind
    && new_.status == Text("True") && new_.reason == Text(std.reason) && new_.message == Text(std.message)
    && new_.update == Text(clock)
    && new_.transition == (if old_.status == Text("True") then old_.transition else Text(clock))
  }

  /** A new entry for the condition. */
  predicate Fresh(c: RawCondition, std: Condition, clock: string) {
    && HasType(c, std.kind) && c.status == Text("True") && c.reason == Text(std.reason) && c.message == Text(std.message)
    && c.transition == Text(clock) && c.update == Text(clock)
  }

  predicate HasType(c: RawCondition, t: ConditionType) {
    c.Raw? && c.kind == Text(if t.Stalled? then "Stalled" else "Reconciling")
  }

  /** What writing one condition gives: every entry of its type rewritten, every other one kept, and a new True entry
      at the end exactly when there was none; it fails exactly when some entry is no map or has no type, or one of the
      condition's type has no status. */
  lemma WriteExactly(entries: seq<RawCondition>, std: Condition, clock: string)
    ensures Write(entries, std, clock).None? <==>
      exists i :: 0 <= i < |entries| &&
        (!entries[i].Raw? || !entries[i].kind.Text? || (HasType(entries[i], std.kind) && !entries[i].status.Text?))
    ensures Write(entries, std, clock).Some? ==>
      var w, found := Write(entries, std, clock).value, exists i :: 0 <= i < |entries| && HasType(entries[i], std.kind);
      && |w| == |entries| + (if found then 0 else 1)
      && (forall i :: 0 <= i < |entries| && HasType(entries[i], std.kind) ==> Rewritten(entries[i], w[i], std, clock))
      && (forall i :: 0 <= i < |entries| && !HasType(entries[i], std.kind) ==> w[i] == entries[i])
      && (!found ==> Fresh(w[|entries|], std, clock))
  {
    RewriteFacts(entries, std, clock);
    forall i | 0 <= i < |entries| ensures Matches(entries[i], std.kind) <==> HasType(entries[i], std.kind) {}
    forall i | 0 <= i < |entries|
      ensures Writable(entries[i], std.kind) <==>
        entries[i].Raw? && entries[i].kind.Text? && (HasType(entries[i], std.kind) ==> entries[i].status.Text?)
    {
    }
    assert Fresh(NewEntry(std, clock), std, clock);
    hide Fresh, Matches, HasType, RewriteAll, TypeName, Writable;
  }

  /** After writing, the written condition decides. */
  lemma WrittenDecides(entries: seq<RawCondition>, std: Condition, clock: string)
    requires Decode(entries).Some? && Write(entries, std, clock).Some?
    requires StandardVerdict(Decode(entries).value).Some? ==> StandardVerdict(Decode(entries).value).value.status == StatusOf(std.kind)
    ensures var w := Write(entries, std, clock).value;
      && Decode(w).Some? && StandardVerdict(Decode(w).value).Some?
      && StandardVerdict(Decode(w).value).value.status == StatusOf(std.kind)
  {
    WriteFacts(entries, std, clock);
    DecodeFacts(entries);
    var t, conds, w := std.kind, Decode(entries).value, Write(entries, std, clock).value;
    var conds' := Decode(w).value;
    DecodeFacts(w);
    var p := VerdictFrom(conds, t);
    hide Decode, Write, StandardVerdict;
    assert TypeName(t) != TypeName(Other(t)) by { assert TypeName(t)[0] != TypeName(Other(t))[0] || TypeName(t)[0] == 'S'; }
    hide TypeName;
    forall k | 0 <= k < |entries| && IsTrue(conds'[k], TypeName(Other(t))) ensures IsTrue(conds[k], TypeName(Other(t))) {
    }
    if p < |conds| {
      DecidedBy(conds', t, p);
    } else if |w| > |entries| {
      DecidedBy(conds', t, |entries|);
    } else {
      var i :| 0 <= i < |entries| && conds[i].kind == TypeName(t);
      DecidedBy(conds', t, i);
    }
  }

  /** Being current does not depend on the clock. */
  lemma CurrentTimeless(m: Meta, conds: seq<Basic>, now: int, later: int)
    requires KindStatus(m, conds, now).Ok? && KindStatus(m, conds, now).value.status == Current
    ensures KindStatus(m, conds, later) == KindStatus(m, conds, now)
  {
    hide StringField, ServiceStatus, PVCStatus, StatefulSetStatus, DeploymentStatus, ReplicaSetStatus, DaemonSetStatus;
    hide JobStatus, CRDStatus, ReadyVerdict, FirstWith, CrashLooping;
    hide LegacyKind;
  }

  lemma OneWrite(entries: seq<RawCondition>, std: Condition, clock: string)
    ensures WriteEach(entries, [std], clock) == Write(entries, std, clock)
    ensures WriteEach(entries, [], clock) == Some(entries)
  {
    hide Write;
    assert [std][..0] == [];
  }

  /** A computation that has to look at the conditions. */
  lemma ComputeUndecided(o: Object, now: int)
    requires CheckMeta(o.meta) == Ok(None) && Compute(o, now).Ok?
    ensures DecodeAll(o.conditions).Some?
    ensures var conds := DecodeAll(o.conditions).value;
      Compute(o, now) == if StandardVerdict(conds).Some? then Ok(StandardVerdict(conds).value) else KindStatus(o.meta, conds, now)
  {
    hide KindStatus, StandardVerdict, CheckMeta, DecodeAll;
  }

  lemma NothingWritten(o: Object, now: int, later: int, o': Object)
    requires CheckMeta(o.meta) == Ok(None) && Compute(o, now).Ok? && Compute(o, now).value.conditions == []
    requires o'.meta == o.meta && DecodeAll(o'.conditions) == DecodeAll(o.conditions)
    ensures Compute(o', later) == Compute(o, now)
  {
    ComputeUndecided(o, now);
    ComputeShaped(o, now);
    var conds := DecodeAll(o.conditions).value;
    StandardShaped(conds);
    hide KindStatus, StandardVerdict, CheckMeta, DecodeAll;
    if KindStatus(o.meta, conds, now).Ok? && KindStatus(o.meta, conds, now).value.status == Current {
      CurrentTimeless(o.meta, conds, now, later);
    } else {
      StandardNotCurrent(conds);
      KindShaped(o.meta, conds, now);
    }
  }

  lemma {:induction false} StandardNotCurrent(conds: seq<Basic>)
    ensures StandardVerdict(conds).Some? ==> StandardVerdict(conds).value.status == InProgress || StandardVerdict(conds).value.status == Failed
  {
    if conds != [] {
      StandardNotCurrent(conds[1..]);
    }
  }

  /** Augment is a fixpoint of Compute: for every kind and every list of conditions, once the conditions were
      written back the computed status is the same, at whatever later time it is computed. */
  lemma AugmentFixpoint(o: Object, now: int, clock: string, later: int)
    requires AugmentSpec(o, now, clock).Ok?
    ensures var o' := AugmentSpec(o, now, clock).value;
      && Compute(o, now).Ok? && Compute(o', later).Ok?
      && Compute(o', later).value.status == Compute(o, now).value.status
  {
    ComputeShaped(o, now);
    var res, o', entries := Compute(o, now).value, AugmentSpec(o, now, clock).value, Entries(o.conditions);
    assert o'.meta == o.meta && o'.conditions.List?;
    assert WriteEach(entries, res.conditions, clock) == Some(o'.conditions.entries);
    if CheckMeta(o.meta) == Ok(None) {
      ComputeUndecided(o, now);
      assert Decode(entries) == DecodeAll(o.conditions) && DecodeAll(o'.conditions) == Decode(o'.conditions.entries);
      hide KindStatus, StandardVerdict, CheckMeta, Decode, DecodeAll, WriteEach, Write, AugmentSpec;
      if res.conditions == [] {
        OneWrite(entries, Condition(Stalled, "", ""), clock);
        NothingWritten(o, now, later, o');
      } else {
        assert res.conditions == [res.conditions[0]];
        OneWrite(entries, res.conditions[0], clock);
        WrittenDecides(entries, res.conditions[0], clock);
      }
    }
  }

  /** Augmenting changes nothing but the conditions: the computed condition is written (Reconciling when in progress, Stalled
      when failed), and without one, when current or terminating, the conditions are kept. */
  lemma AugmentWrites(o: Object, now: int, clock: string)
    requires AugmentSpec(o, now, clock).Ok?
    ensures Compute(o, now).Ok?
    ensures var res, o' := Compute(o, now).value, AugmentSpec(o, now, clock).value;
      var before := if o.conditions.List? then o.conditions.entries else [];
      && o'.meta == o.meta && o'.conditions.List?
      && (res.conditions == [] ==> o'.conditions.entries == before)
      && (res.conditions != [] ==>
        res.conditions == [res.conditions[0]] && Write(before, res.conditions[0], clock) == Some(o'.conditions.entries))
  {
    AugmentParts(o, now, clock);
    ComputeShaped(o, now);
    var res := Compute(o, now).value;
    hide Compute, Write, WriteEach, AugmentSpec;
    if res.conditions != [] {
      assert res.conditions == [res.conditions[0]];
      OneWrite(Entries(o.conditions), res.conditions[0], clock);
    } else {
      OneWrite(Entries(o.conditions), Condition(Stalled, "", ""), clock);
    }
  }

  lemma AugmentParts(o: Object, now: int, clock: string)
    requires AugmentSpec(o, now, clock).Ok?
    ensures Compute(o, now).Ok?
    ensures var o' := AugmentSpec(o, now, clock).value;
      && o'.meta == o.meta && o'.conditions.List?
      && WriteEach(Entries(o.conditions), Compute(o, now).value.conditions, clock) == Some(o'.conditions.entries)
  {
    hide Compute, WriteEach;
  }
}
