/** The total order in which the objects of one layer are applied. */
module Ordering {
  import opened Base

  /** Byte order of strings; on code points the two agree. */
  predicate StringLess(a: string, b: string) {
    if b == "" then false
    else if a == "" then true
    else if a[0] != b[0] then a[0] < b[0]
    else StringLess(a[1..], b[1..])
  }

  const ORDER_FIRST: seq<GroupKind> := [
    GroupKind("", "Namespace"),
    GroupKind("", "ResourceQuota"),
    GroupKind("storage.k8s.io", "StorageClass"),
    GroupKind("apiextensions.k8s.io", "CustomResourceDefinition"),
    GroupKind("admissionregistration.k8s.io", "MutatingWebhookConfiguration"),
    GroupKind("", "ServiceAccount"),
    GroupKind("extensions", "PodSecurityPolicy"),
    GroupKind("policy", "PodSecurityPolicy"),
    GroupKind("rbac.authorization.k8s.io", "Role"),
    GroupKind("rbac.authorization.k8s.io", "ClusterRole"),
    GroupKind("rbac.authorization.k8s.io", "RoleBinding"),
    GroupKind("rbac.authorization.k8s.io", "ClusterRoleBinding"),
    GroupKind("", "ConfigMap"),
    GroupKind("", "Secret"),
    GroupKind("", "Service"),
    GroupKind("", "LimitRange"),
    GroupKind("scheduling.k8s.io", "PriorityClass"),
    GroupKind("extensions", "Deployment"),
    GroupKind("apps", "Deployment"),
    GroupKind("apps", "StatefulSet"),
    GroupKind("batch", "CronJob"),
    GroupKind("policy", "PodDisruptionBudget")]

  const ORDER_LAST: seq<GroupKind> := [
    GroupKind("admissionregistration.k8s.io", "ValidatingWebhookConfiguration")]

  /** Each listed kind gets its (last) position, counted from base. */
  function IndexTable(kinds: seq<GroupKind>, base: int): map<GroupKind, int> {
    if kinds == [] then map[]
    else IndexTable(kinds[..|kinds| - 1], base)[kinds[|kinds| - 1] := base + |kinds| - 1]
  }

  /** Kinds listed first have negative indices, kinds listed last positive ones. */
  function GroupKindTable(first: seq<GroupKind>, last: seq<GroupKind>): map<GroupKind, int> {
    IndexTable(first, -|first|) + IndexTable(last, 1)
  }

  /** Fills the index table the way the package does at start-up. */
  method ComputeGroupKind2Index(first: seq<GroupKind>, last: seq<GroupKind>) returns (m: map<GroupKind, int>)
    ensures m == GroupKindTable(first, last)
  {
    m := map[];
    for i := 0 to |first|
      invariant m == IndexTable(first[..i], -|first|)
    {
      assert first[..i + 1][..i] == first[..i];
      m := m[first[i] := i - |first|];
    }
    assert first[..|first|] == first;
    for i := 0 to |last|
      invariant m == IndexTable(first, -|first|) + IndexTable(last[..i], 1)
    {
      assert last[..i + 1][..i] == last[..i];
      m := m[last[i] := 1 + i];
    }
    assert last[..|last|] == last;
  }

  /** A kind that is not listed has index 0. */
  function GroupKindIndex(gk: GroupKind): int {
    var table := GroupKindTable(ORDER_FIRST, ORDER_LAST);
    if gk in table then table[gk] else 0
  }

  predicate IsLessThan(i: GroupKind, j: GroupKind) {
    if GroupKindIndex(i) != GroupKindIndex(j) then GroupKindIndex(i) < GroupKindIndex(j)
    else if i.group != j.group then StringLess(i.group, j.group)
    else StringLess(i.kind, j.kind)
  }

  predicate Less(i: ObjMetadata, j: ObjMetadata) {
    if i.groupKind != j.groupKind then IsLessThan(i.groupKind, j.groupKind)
    else if i.namespace != j.namespace then StringLess(i.namespace, j.namespace)
    else StringLess(i.name, j.name)
  }

  lemma {:induction false} StringConnected(a: string, b: string)
    ensures StringLess(a, b) || StringLess(b, a) || a == b
    ensures !(StringLess(a, b) && StringLess(b, a))
    ensures StringLess(a, b) ==> a != b
  {
    if a != "" && b != "" && a[0] == b[0] {
      StringConnected(a[1..], b[1..]);
      assert a == [a[0]] + a[1..] && b == [b[0]] + b[1..];
    }
  }

  lemma {:induction false} StringTransitive(a: string, b: string, c: string)
    requires StringLess(a, b) && StringLess(b, c)
    ensures StringLess(a, c)
  {
    if a != "" && a[0] == b[0] && b[0] == c[0] {
      StringTransitive(a[1..], b[1..], c[1..]);
    }
  }

  lemma KindConnected(a: GroupKind, b: GroupKind)
    ensures IsLessThan(a, b) || IsLessThan(b, a) || a == b
    ensures !(IsLessThan(a, b) && IsLessThan(b, a))
  {
    hide GroupKindIndex;
    StringConnected(a.group, b.group);
    StringConnected(a.kind, b.kind);
  }

  lemma KindTransitive(a: GroupKind, b: GroupKind, c: GroupKind)
    requires IsLessThan(a, b) && IsLessThan(b, c)
    ensures IsLessThan(a, c)
  {
    hide GroupKindIndex, StringLess;
    StringConnected(a.group, b.group);
    if StringLess(a.group, b.group) && StringLess(b.group, c.group) {
      StringTransitive(a.group, b.group, c.group);
      StringConnected(a.group, c.group);
    }
    if StringLess(a.kind, b.kind) && StringLess(b.kind, c.kind) {
      StringTransitive(a.kind, b.kind, c.kind);
    }
  }

  /** Any two different ids are ordered one way, and only one. */
  lemma LessConnected(a: ObjMetadata, b: ObjMetadata)
    ensures Less(a, b) || Less(b, a) || a == b
    ensures !(Less(a, b) && Less(b, a))
    ensures !Less(a, a)
  {
    hide IsLessThan, StringLess;
    KindConnected(a.groupKind, b.groupKind);
    StringConnected(a.namespace, b.namespace);
    StringConnected(a.name, b.name);
    StringConnected(a.name, a.name);
  }

  lemma LessTransitive(a: ObjMetadata, b: ObjMetadata, c: ObjMetadata)
    requires Less(a, b) && Less(b, c)
    ensures Less(a, c)
  {
    hide IsLessThan, StringLess;
    if a.groupKind != b.groupKind && b.groupKind != c.groupKind {
      KindTransitive(a.groupKind, b.groupKind, c.groupKind);
      KindConnected(a.groupKind, b.groupKind);
    } else if a.groupKind == c.groupKind {
      StringConnected(a.namespace, b.namespace);
      if a.namespace != b.namespace && b.namespace != c.namespace {
        StringTransitive(a.namespace, b.namespace, c.namespace);
      } else if a.namespace == c.namespace {
        StringTransitive(a.name, b.name, c.name);
      }
    }
  }

  // ---------- What the order is ----------

  /** Byte order: a proper prefix comes first, otherwise the first character that differs decides. */
  ghost predicate TextBefore(a: string, b: string) {
    (a < b) || exists k :: 0 <= k < |a| && k < |b| && a[..k] == b[..k] && a[k] < b[k]
  }

  lemma {:induction false} StringLessIff(a: string, b: string)
    ensures StringLess(a, b) <==> TextBefore(a, b)
  {
    if a != "" && b != "" && a[0] == b[0] {
      StringLessIff(a[1..], b[1..]);
      TextBeforeCons(a, b);
    } else if a != "" && b != "" {
      assert a[..0] == b[..0];
      assert a[0] < b[0] ==> TextBefore(a, b);
      if TextBefore(a, b) {
        assert !(a < b);
        PrefixesAgree(a, b);
        var k :| 0 <= k < |a| && k < |b| && a[..k] == b[..k] && a[k] < b[k];
        assert k == 0;
      }
    }
  }

  lemma PrefixesAgree(a: string, b: string)
    ensures forall k :: 0 < k <= |a| && k <= |b| && a[..k] == b[..k] ==> a[0] == b[0]
  {
    forall k | 0 < k <= |a| && k <= |b| && a[..k] == b[..k] ensures a[0] == b[0] {
      assert a[..k][0] == a[0] && b[..k][0] == b[0];
    }
  }

  lemma TextBeforeCons(a: string, b: string)
    requires a != "" && b != "" && a[0] == b[0]
    ensures TextBefore(a, b) <==> TextBefore(a[1..], b[1..])
  {
    var x, y := a[1..], b[1..];
    assert a == [a[0]] + x && b == [b[0]] + y;
    assert (a < b) <==> (x < y);
    if k :| 0 <= k < |a| && k < |b| && a[..k] == b[..k] && a[k] < b[k] {
      assert x[..k - 1] == a[..k][1..] && y[..k - 1] == b[..k][1..];
      assert x[k - 1] < y[k - 1];
    }
    if k :| 0 <= k < |x| && k < |y| && x[..k] == y[..k] && x[k] < y[k] {
      assert a[..k + 1] == [a[0]] + x[..k] && b[..k + 1] == [b[0]] + y[..k];
      assert a[k + 1] < b[k + 1];
    }
  }

  /** The kind's (last) place in a list. */
  ghost predicate PlaceIn(kinds: seq<GroupKind>, gk: GroupKind, i: int) {
    0 <= i < |kinds| && kinds[i] == gk && forall j :: i < j < |kinds| ==> kinds[j] != gk
  }

  lemma {:induction false} TableHolds(kinds: seq<GroupKind>, base: int, gk: GroupKind)
    ensures gk in IndexTable(kinds, base) <==> gk in kinds
    ensures forall i :: PlaceIn(kinds, gk, i) ==> gk in IndexTable(kinds, base) && IndexTable(kinds, base)[gk] == base + i
    ensures gk in IndexTable(kinds, base) ==> base <= IndexTable(kinds, base)[gk] < base + |kinds|
    ensures gk in IndexTable(kinds, base) && IndexTable(kinds, base)[gk] == base ==> gk == kinds[0]
  {
    if kinds != [] {
      var front, last := kinds[..|kinds| - 1], kinds[|kinds| - 1];
      TableHolds(front, base, gk);
      assert kinds == front + [last];
      forall i | PlaceIn(kinds, gk, i) ensures gk == last || PlaceIn(front, gk, i) {
        if gk != last {
          assert front[i] == gk;
          assert forall j :: i < j < |front| ==> front[j] == kinds[j];
        }
      }
    }
  }

  lemma IndexRanges(gk: GroupKind)
    ensures gk in ORDER_LAST <==> GroupKindIndex(gk) > 0
    ensures gk in ORDER_FIRST && gk !in ORDER_LAST <==> GroupKindIndex(gk) < 0
    ensures forall i :: PlaceIn(ORDER_FIRST, gk, i) && gk !in ORDER_LAST ==> GroupKindIndex(gk) == i - |ORDER_FIRST|
    ensures forall i :: PlaceIn(ORDER_LAST, gk, i) ==> GroupKindIndex(gk) == i + 1
    ensures GroupKindIndex(gk) >= -|ORDER_FIRST|
    ensures GroupKindIndex(gk) == -|ORDER_FIRST| && |ORDER_FIRST| > 0 ==> gk == ORDER_FIRST[0]
  {
    IndexOfLists(ORDER_FIRST, ORDER_LAST, gk);
    hide ORDER_FIRST, ORDER_LAST;
  }

  lemma IndexOfLists(first: seq<GroupKind>, last: seq<GroupKind>, gk: GroupKind)
    ensures var table := GroupKindTable(first, last);
      var index := if gk in table then table[gk] else 0;
      && (gk in last <==> index > 0)
      && (gk in first && gk !in last <==> index < 0)
      && (forall i :: PlaceIn(first, gk, i) && gk !in last ==> index == i - |first|)
      && (forall i :: PlaceIn(last, gk, i) ==> index == i + 1)
      && index >= -|first|
      && (index == -|first| && |first| > 0 ==> gk == first[0])
  {
    TableHolds(first, -|first|, gk);
    TableHolds(last, 1, gk);
    hide IndexTable;
  }

  /** Objects of listed kinds come in the order of the lists: those listed first before everything that is not, those listed
      last after everything else; kinds that are not listed by group, then by kind. */
  lemma KindsInOrder(a: ObjMetadata, b: ObjMetadata)
    requires a.groupKind != b.groupKind
    ensures a.groupKind in ORDER_FIRST && a.groupKind !in ORDER_LAST && b.groupKind !in ORDER_FIRST ==> Less(a, b)
    ensures a.groupKind !in ORDER_LAST && b.groupKind in ORDER_LAST ==> Less(a, b)
    ensures a.groupKind !in ORDER_LAST && b.groupKind !in ORDER_LAST ==>
      forall i, j :: PlaceIn(ORDER_FIRST, a.groupKind, i) && PlaceIn(ORDER_FIRST, b.groupKind, j) && i < j ==> Less(a, b)
    ensures forall i, j :: PlaceIn(ORDER_LAST, a.groupKind, i) && PlaceIn(ORDER_LAST, b.groupKind, j) && i < j ==> Less(a, b)
    ensures a.groupKind !in ORDER_FIRST && a.groupKind !in ORDER_LAST && b.groupKind !in ORDER_FIRST && b.groupKind !in ORDER_LAST ==>
      (Less(a, b) <==> if a.groupKind.group != b.groupKind.group then TextBefore(a.groupKind.group, b.groupKind.group)
                       else TextBefore(a.groupKind.kind, b.groupKind.kind))
  {
    IndexRanges(a.groupKind);
    IndexRanges(b.groupKind);
    StringLessIff(a.groupKind.group, b.groupKind.group);
    StringLessIff(a.groupKind.kind, b.groupKind.kind);
    hide GroupKindIndex, StringLess, TextBefore, PlaceIn, ORDER_FIRST, ORDER_LAST;
  }

  /** Objects of one kind are ordered by namespace, and within one by name. */
  lemma WithinKind(a: ObjMetadata, b: ObjMetadata)
    requires a.groupKind == b.groupKind
    ensures Less(a, b) <==> if a.namespace != b.namespace then TextBefore(a.namespace, b.namespace) else TextBefore(a.name, b.name)
  {
    StringLessIff(a.namespace, b.namespace);
    StringLessIff(a.name, b.name);
    hide StringLess, TextBefore;
  }

  /** Namespaces come before everything else. */
  lemma NamespacesFirst(a: ObjMetadata, b: ObjMetadata)
    requires a.groupKind == GroupKind("", "Namespace") && b.groupKind != GroupKind("", "Namespace")
    ensures Less(a, b)
  {
    IndexRanges(a.groupKind);
    IndexRanges(b.groupKind);
    NamespacePlace();
    hide GroupKindIndex, StringLess, ORDER_LAST, PlaceIn;
    assert ORDER_FIRST[0] == GroupKind("", "Namespace");
  }

  lemma NamespacePlace()
    ensures PlaceIn(ORDER_FIRST, GroupKind("", "Namespace"), 0) && GroupKind("", "Namespace") !in ORDER_LAST
  {
    var ns := GroupKind("", "Namespace");
    forall j | 0 < j < |ORDER_FIRST| ensures ORDER_FIRST[j] != ns {
      assert ORDER_FIRST[j].group != "" || |ORDER_FIRST[j].kind| != |"Namespace"| || ORDER_FIRST[j].kind[0] != 'N';
    }
  }

  // ---------- Sorted lists ----------

  ghost predicate Sorted(s: seq<ObjMetadata>) {
    forall i, j :: 0 <= i < j < |s| ==> Less(s[i], s[j])
  }

  ghost predicate IsLeast(m: ObjMetadata, s: set<ObjMetadata>) {
    m in s && forall x :: x in s && x != m ==> Less(m, x)
  }

  lemma {:induction false} HasLeast(s: set<ObjMetadata>)
    requires s != {}
    ensures exists m :: IsLeast(m, s)
    decreases |s|
  {
    hide Less;
    var x :| x in s;
    if s == {x} {
      assert IsLeast(x, s);
    } else {
      HasLeast(s - {x});
      var m :| IsLeast(m, s - {x});
      LessConnected(x, m);
      if Less(m, x) {
        assert IsLeast(m, s);
      } else {
        forall y | y in s && y != x ensures Less(x, y) {
          if y != m {
            LessTransitive(x, m, y);
          }
        }
        assert IsLeast(x, s);
      }
    }
  }

  /** The elements of a set in order. */
  ghost function SortedSeq(s: set<ObjMetadata>): seq<ObjMetadata>
    decreases |s|
  {
    if s == {} then []
    else
      HasLeast(s);
      var m :| IsLeast(m, s);
      [m] + SortedSeq(s - {m})
  }

  lemma SortedCons(m: ObjMetadata, t: seq<ObjMetadata>)
    requires Sorted(t) && forall x :: x in ToSet(t) ==> Less(m, x)
    ensures Sorted([m] + t) && ToSet([m] + t) == {m} + ToSet(t)
  {
    hide Less;
    forall j | 0 <= j < |t| ensures Less(m, t[j]) {
      assert t[j] in ToSet(t);
    }
  }

  lemma {:induction false} SortedSeqSorts(s: set<ObjMetadata>)
    ensures Sorted(SortedSeq(s)) && ToSet(SortedSeq(s)) == s
    decreases |s|
  {
    hide Less, Sorted;
    if s != {} {
      var m, t := SortedSeqCons(s);
      SortedSeqSorts(s - {m});
      SortedCons(m, t);
      hide SortedSeq, ToSet;
      assert {m} + (s - {m}) == s;
    } else {
      SortedNil();
    }
  }

  lemma SortedNil()
    ensures Sorted([])
  {
  }

  lemma SortedSeqCons(s: set<ObjMetadata>) returns (m: ObjMetadata, t: seq<ObjMetadata>)
    requires s != {}
    ensures IsLeast(m, s) && t == SortedSeq(s - {m}) && SortedSeq(s) == [m] + t
  {
    HasLeast(s);
    m := SortedSeq(s)[0];
    t := SortedSeq(s)[1..];
  }

  lemma SortedNoDup(s: seq<ObjMetadata>)
    requires Sorted(s)
    ensures NoDup(s)
  {
    hide Less;
    forall i, j | 0 <= i < j < |s| ensures s[i] != s[j] {
      LessConnected(s[i], s[j]);
    }
  }

  /** The head of a sorted listing is the least element; its tail lists the rest. */
  lemma SortedHead(a: seq<ObjMetadata>, s: set<ObjMetadata>)
    requires Sorted(a) && ToSet(a) == s && s != {}
    ensures a != [] && IsLeast(a[0], s) && Sorted(a[1..]) && ToSet(a[1..]) == s - {a[0]}
  {
    hide Less;
    var x :| x in s;
    assert x in a;
    SortedNoDup(a);
    forall y | y in s && y != a[0] ensures Less(a[0], y) && y in a[1..] {
      var j :| 0 <= j < |a| && a[j] == y;
      assert a[1..][j - 1] == y;
    }
    assert a[0] in ToSet(a);
    forall y | y in a[1..] ensures y in s && y != a[0] {
      var j :| 0 <= j < |a| - 1 && a[1..][j] == y;
      assert a[j + 1] in ToSet(a);
    }
  }

  lemma LeastUnique(a: ObjMetadata, b: ObjMetadata, s: set<ObjMetadata>)
    requires IsLeast(a, s) && IsLeast(b, s)
    ensures a == b
  {
    hide Less;
    LessConnected(a, b);
  }

  /** There is only one way to sort a set: any sorted listing of it is this one. */
  lemma {:induction false} SortedUnique(a: seq<ObjMetadata>, s: set<ObjMetadata>)
    requires Sorted(a) && ToSet(a) == s
    ensures a == SortedSeq(s)
    decreases |s|
  {
    assert |a| > 0 ==> a[0] in ToSet(a);
    if s != {} {
      SortedHead(a, s);
      var m, t := SortedSeqCons(s);
      LeastUnique(a[0], m, s);
      hide Less, SortedSeq, Sorted, IsLeast;
      SortedUnique(a[1..], s - {a[0]});
      assert a == [a[0]] + a[1..];
    }
  }
}
