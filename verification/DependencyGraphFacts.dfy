/** Which edges the dependency graph has and which objects are found invalid. */
module DependencyGraphFacts {
  import opened Base
  import opened Objects
  import opened Graphs
  import opened DependencyGraph
  import DependsOn

  /** A graph on the right vertices. */
  ghost predicate Over(g: GraphVal, V: set<ObjMetadata>) {
    GraphOk(g) && g.edges.Keys == V
  }

  lemma LinkFacts(g: GraphVal, V: set<ObjMetadata>, from: ObjMetadata, to: Option<ObjMetadata>)
    requires Over(g, V) && from in V && (to.Some? ==> to.value in V)
    ensures Over(Link(g, from, to), V)
    ensures forall a, b :: HasEdge(Link(g, from, to), a, b) <==> HasEdge(g, a, b) || (a == from && to == Some(b))
  {
    if to.Some? {
      WithEdgeOk(g, from, to.value);
    }
    hide WithEdge, GraphOk;
  }

  lemma {:induction false} VerticesFacts(ids: seq<ObjMetadata>)
    ensures Over(AddVerticesV(EMPTY, ids), ToSet(ids))
    ensures forall a, b :: !HasEdge(AddVerticesV(EMPTY, ids), a, b)
  {
    if ids != [] {
      VerticesFacts(ids[..|ids| - 1]);
      WithVertexOk(AddVerticesV(EMPTY, ids[..|ids| - 1]), ids[|ids| - 1]);
      ToSetSnoc(ids);
      hide WithVertex, GraphOk, HasEdge;
    }
  }

  lemma MembersSnoc(objs: seq<Unstructured>)
    requires objs != []
    ensures forall o :: o in objs <==> o in objs[..|objs| - 1] || o == objs[|objs| - 1]
  {
    assert objs == objs[..|objs| - 1] + [objs[|objs| - 1]];
  }

  lemma {:induction false} CRDEdgesFacts(g: GraphVal, V: set<ObjMetadata>, crds: map<string, ObjMetadata>, objs: seq<Unstructured>)
    requires Over(g, V) && (forall k :: k in crds ==> crds[k] in V) && forall o :: o in objs ==> o.id in V
    ensures Over(AddCRDEdgesV(g, crds, objs), V)
    ensures forall a, b :: HasEdge(AddCRDEdgesV(g, crds, objs), a, b) <==>
      HasEdge(g, a, b) || exists o :: o in objs && o.id == a && CRDTarget(crds, o) == Some(b)
  {
    if objs != [] {
      var front, obj := objs[..|objs| - 1], objs[|objs| - 1];
      var to := CRDTarget(crds, obj);
      assert to.Some? ==> to.value in V;
      assert AddCRDEdgesV(g, crds, objs) == Link(AddCRDEdgesV(g, crds, front), obj.id, to);
      hide *;
      MembersSnoc(objs);
      CRDEdgesFacts(g, V, crds, front);
      LinkFacts(AddCRDEdgesV(g, crds, front), V, obj.id, to);
    }
  }

  lemma {:induction false} NamespaceEdgesFacts(g: GraphVal, V: set<ObjMetadata>, namespaces: map<string, ObjMetadata>, objs: seq<Unstructured>)
    requires Over(g, V) && (forall k :: k in namespaces ==> namespaces[k] in V) && forall o :: o in objs ==> o.id in V
    ensures Over(AddNamespaceEdgesV(g, namespaces, objs), V)
    ensures forall a, b :: HasEdge(AddNamespaceEdgesV(g, namespaces, objs), a, b) <==>
      HasEdge(g, a, b) || exists o :: o in objs && o.id == a && NamespaceTarget(namespaces, o) == Some(b)
  {
    if objs != [] {
      var front, obj := objs[..|objs| - 1], objs[|objs| - 1];
      var to := NamespaceTarget(namespaces, obj);
      assert to.Some? ==> to.value in V;
      assert AddNamespaceEdgesV(g, namespaces, objs) == Link(AddNamespaceEdgesV(g, namespaces, front), obj.id, to);
      hide *;
      MembersSnoc(objs);
      NamespaceEdgesFacts(g, V, namespaces, front);
      LinkFacts(AddNamespaceEdgesV(g, namespaces, front), V, obj.id, to);
    }
  }

  lemma {:induction false} CRDValues(objs: seq<Unstructured>)
    ensures forall k :: k in CRDs(objs) ==> CRDs(objs)[k] in ToSet(Ids(objs))
  {
    if objs != [] {
      var front, obj := objs[..|objs| - 1], objs[|objs| - 1];
      CRDValues(front);
      assert Ids(objs) == Ids(front) + [obj.id];
    }
  }

  lemma {:induction false} NamespaceValues(objs: seq<Unstructured>)
    ensures forall k :: k in Namespaces(objs) ==> Namespaces(objs)[k] in ToSet(Ids(objs))
  {
    if objs != [] {
      var front, obj := objs[..|objs| - 1], objs[|objs| - 1];
      NamespaceValues(front);
      assert Ids(objs) == Ids(front) + [obj.id];
    }
  }

  // ---------- Annotations ----------

  /** Something is wrong with a reference list: outside the set, or (when strict) given twice. */
  ghost predicate BadList(ids: seq<ObjMetadata>, deps: seq<ObjMetadata>, strict: bool) {
    (exists d :: d in deps && d !in ids) || (strict && !NoDup(deps))
  }

  ghost predicate BadRefs(ids: seq<ObjMetadata>, refs: Refs, strict: bool) {
    match refs
    case Absent => false
    case Malformed => true
    case Listed(deps) => BadList(ids, deps, strict)
  }

  ghost predicate Refers(ids: seq<ObjMetadata>, refs: Refs, b: ObjMetadata) {
    refs.Listed? && b in refs.ids && b in ids
  }

  lemma BadListSnoc(ids: seq<ObjMetadata>, deps: seq<ObjMetadata>, strict: bool)
    requires deps != []
    ensures var front, dep := deps[..|deps| - 1], deps[|deps| - 1];
      BadList(ids, deps, strict) <==> BadList(ids, front, strict) || dep !in ids || (strict && dep in front)
  {
    var front, dep := deps[..|deps| - 1], deps[|deps| - 1];
    assert deps == front + [dep];
    if NoDup(front) && dep !in front {
      NoDupSnoc(front, dep);
    }
    if dep in front {
      var i :| 0 <= i < |front| && front[i] == dep;
      assert deps[i] == deps[|deps| - 1];
    }
  }

  lemma LinkOneFacts(h: GraphVal, V: set<ObjMetadata>, from: ObjMetadata, dep: ObjMetadata)
    requires Over(h, V) && from in V && dep in V
    ensures Over(WithEdge(h, from, dep), V)
    ensures forall a, b :: HasEdge(WithEdge(h, from, dep), a, b) <==> HasEdge(h, a, b) || (a == from && b == dep)
  {
    WithEdgeOk(h, from, dep);
    hide WithEdge, GraphOk, HasEdge;
  }

  lemma {:induction false} LinkAllFacts(g: GraphVal, V: set<ObjMetadata>, ids: seq<ObjMetadata>, from: ObjMetadata, deps: seq<ObjMetadata>, strict: bool)
    requires Over(g, V) && ToSet(ids) <= V && from in V
    ensures Over(LinkAll(g, ids, from, deps, strict).0, V)
    ensures forall a, b :: HasEdge(LinkAll(g, ids, from, deps, strict).0, a, b) <==>
      HasEdge(g, a, b) || (a == from && b in deps && b in ids)
    ensures LinkAll(g, ids, from, deps, strict).1 <==> BadList(ids, deps, strict)
  {
    if deps != [] {
      var front, dep := deps[..|deps| - 1], deps[|deps| - 1];
      LinkAllFacts(g, V, ids, from, front, strict);
      BadListSnoc(ids, deps, strict);
      assert forall d :: d in deps <==> d in front || d == dep by {
        assert deps == front + [dep];
      }
      hide WithEdge, HasEdge, BadList, Over;
      if dep !in front && dep in ids {
        LinkOneFacts(LinkAll(g, ids, from, front, strict).0, V, from, dep);
      }
    }
  }

  lemma AddRefsFacts(b: Built, V: set<ObjMetadata>, ids: seq<ObjMetadata>, from: ObjMetadata, refs: Refs, strict: bool)
    requires Over(b.g, V) && ToSet(ids) <= V && from in V
    ensures var c := AddRefs(b, ids, from, refs, strict);
      && Over(c.g, V)
      && (forall x, y :: HasEdge(c.g, x, y) <==> HasEdge(b.g, x, y) || (x == from && Refers(ids, refs, y)))
      && (forall x :: x in c.invalid <==> x in b.invalid || (x == from && BadRefs(ids, refs, strict)))
  {
    if refs.Listed? {
      LinkAllFacts(b.g, V, ids, from, refs.ids, strict);
    }
    hide LinkAll, HasEdge, BadList, Over;
  }

  lemma {:induction false} DependsOnFacts(b: Built, V: set<ObjMetadata>, ids: seq<ObjMetadata>, objs: seq<Unstructured>)
    requires Over(b.g, V) && ToSet(ids) <= V && forall o :: o in objs ==> o.id in V
    ensures var c := AddDependsOnEdgesV(b, ids, objs);
      && Over(c.g, V)
      && (forall x, y :: HasEdge(c.g, x, y) <==>
        HasEdge(b.g, x, y) || exists o :: o in objs && o.id == x && Refers(ids, DependsOnRefs(o), y))
      && (forall x :: x in c.invalid <==>
        x in b.invalid || exists o :: o in objs && o.id == x && BadRefs(ids, DependsOnRefs(o), true))
  {
    if objs != [] {
      var front, obj := objs[..|objs| - 1], objs[|objs| - 1];
      MembersSnoc(objs);
      DependsOnFacts(b, V, ids, front);
      AddRefsFacts(AddDependsOnEdgesV(b, ids, front), V, ids, obj.id, DependsOnRefs(obj), true);
      hide AddRefs, HasEdge, Over, Refers, BadRefs, DependsOnRefs;
    }
  }

  lemma {:induction false} MutationFacts(b: Built, V: set<ObjMetadata>, ids: seq<ObjMetadata>, objs: seq<Unstructured>)
    requires Over(b.g, V) && ToSet(ids) <= V && forall o :: o in objs ==> o.id in V
    ensures var c := AddMutationEdgesV(b, ids, objs);
      && Over(c.g, V)
      && (forall x, y :: HasEdge(c.g, x, y) <==>
        HasEdge(b.g, x, y) || exists o :: o in objs && o.id == x && Refers(ids, MutationRefs(o), y))
      && (forall x :: x in c.invalid <==>
        x in b.invalid || exists o :: o in objs && o.id == x && BadRefs(ids, MutationRefs(o), false))
  {
    if objs != [] {
      var front, obj := objs[..|objs| - 1], objs[|objs| - 1];
      MembersSnoc(objs);
      MutationFacts(b, V, ids, front);
      AddRefsFacts(AddMutationEdgesV(b, ids, front), V, ids, obj.id, MutationRefs(obj), false);
      hide AddRefs, HasEdge, Over, Refers, BadRefs, MutationRefs;
    }
  }

  // ---------- What an object needs first ----------

  /** Two group kinds read the same in text form, in which an empty group leaves the kind alone. */
  predicate SameText(a: GroupKind, b: GroupKind) {
    (if a.group == "" then a.kind else a.kind + "." + a.group) == (if b.group == "" then b.kind else b.kind + "." + b.group)
  }

  /** The CustomResourceDefinition objs[i] is the last one listed that defines the kind. */
  ghost predicate LastDefiner(objs: seq<Unstructured>, gk: GroupKind, i: int) {
    0 <= i < |objs| && Defines(objs[i], gk) && forall j :: i < j < |objs| ==> !Defines(objs[j], gk)
  }

  predicate Defines(obj: Unstructured, gk: GroupKind) {
    && obj.id.groupKind == GroupKind("apiextensions.k8s.io", "CustomResourceDefinition")
    && obj.crdGroupKind.Some? && SameText(obj.crdGroupKind.value, gk)
  }

  predicate IsNamespaceNamed(obj: Unstructured, name: string) {
    obj.id.groupKind == GroupKind("", "Namespace") && obj.id.name == name
  }

  /** The Namespace objs[i] is the last one listed of that name. */
  ghost predicate LastNamespace(objs: seq<Unstructured>, name: string, i: int) {
    0 <= i < |objs| && IsNamespaceNamed(objs[i], name) && forall j :: i < j < |objs| ==> !IsNamespaceNamed(objs[j], name)
  }

  ghost predicate InCRD(objs: seq<Unstructured>, obj: Unstructured, b: ObjMetadata) {
    exists i :: LastDefiner(objs, obj.id.groupKind, i) && objs[i].id == b
  }

  ghost predicate InNamespace(objs: seq<Unstructured>, obj: Unstructured, b: ObjMetadata) {
    obj.id.namespace != "" && exists i :: LastNamespace(objs, obj.id.namespace, i) && objs[i].id == b
  }

  /** The depends-on annotation parses and lists b. */
  predicate DependsOnListed(obj: Unstructured, b: ObjMetadata) {
    obj.dependsOn.Some? && DependsOn.ParseSet(obj.dependsOn.value).Ok? && b in DependsOn.ParseSet(obj.dependsOn.value).value
  }

  predicate MutationListed(obj: Unstructured, b: ObjMetadata) {
    obj.mutation.MutationSources? && b in obj.mutation.refs
  }

  ghost predicate Given(objs: seq<Unstructured>, b: ObjMetadata) {
    exists i :: 0 <= i < |objs| && objs[i].id == b
  }

  /** obj has to wait for b: the CRD that defines its kind, its namespace, or a given object that one of its
      annotations lists. */
  ghost predicate NeedsFirst(objs: seq<Unstructured>, obj: Unstructured, b: ObjMetadata) {
    || InCRD(objs, obj, b)
    || InNamespace(objs, obj, b)
    || (DependsOnListed(obj, b) && Given(objs, b))
    || (MutationListed(obj, b) && Given(objs, b))
  }

  /** One of obj's annotations does not parse, lists an object that is not given, or (depends-on) repeats one. */
  ghost predicate BadAnnotation(objs: seq<Unstructured>, obj: Unstructured) {
    || (obj.dependsOn.Some? && DependsOn.ParseSet(obj.dependsOn.value).Err?)
    || (obj.dependsOn.Some? && DependsOn.ParseSet(obj.dependsOn.value).Ok? && !NoDup(DependsOn.ParseSet(obj.dependsOn.value).value))
    || (exists b :: DependsOnListed(obj, b) && !Given(objs, b))
    || obj.mutation.MalformedMutation?
    || (exists b :: MutationListed(obj, b) && !Given(objs, b))
  }

  /** Group kinds read the same only when they are the same, unless a kind contains a dot. */
  lemma SameTextIff(a: GroupKind, b: GroupKind)
    requires '.' !in a.kind && '.' !in b.kind
    ensures SameText(a, b) <==> a == b
  {
    if SameText(a, b) {
      var s := if a.group == "" then a.kind else a.kind + "." + a.group;
      var t := if b.group == "" then b.kind else b.kind + "." + b.group;
      assert |a.kind| < |s| ==> s[|a.kind|] == '.';
      assert |b.kind| < |t| ==> t[|b.kind|] == '.';
      assert |a.kind| == |b.kind|;
      assert s[..|a.kind|] == a.kind && t[..|b.kind|] == b.kind;
      assert a.group != "" ==> s[|a.kind| + 1..] == a.group;
      assert b.group != "" ==> t[|b.kind| + 1..] == b.group;
    }
  }

  lemma DefinesIff(obj: Unstructured, gk: GroupKind)
    ensures Defines(obj, gk) <==>
      IsCRD(obj) && obj.crdGroupKind.Some? && GroupKindString(obj.crdGroupKind.value) == GroupKindString(gk)
  {
  }

  /** The CRD recorded for a kind is the last listed one that defines it. */
  lemma {:induction false} CRDsExactly(objs: seq<Unstructured>, gk: GroupKind, id: ObjMetadata)
    ensures (GroupKindString(gk) in CRDs(objs) && CRDs(objs)[GroupKindString(gk)] == id) <==>
      exists i :: LastDefiner(objs, gk, i) && objs[i].id == id
  {
    if objs != [] {
      var n := |objs| - 1;
      var front := objs[..n];
      CRDsExactly(front, gk, id);
      DefinesIff(objs[n], gk);
      hide GroupKindString, Defines, IsCRD;
      if Defines(objs[n], gk) {
        assert LastDefiner(objs, gk, n) && CRDs(objs)[GroupKindString(gk)] == objs[n].id;
      } else {
        assert GroupKindString(gk) in CRDs(objs) <==> GroupKindString(gk) in CRDs(front);
        forall i ensures LastDefiner(objs, gk, i) <==> LastDefiner(front, gk, i) {
          assert forall j :: 0 <= j < n ==> front[j] == objs[j];
        }
      }
    }
  }

  /** The namespace object recorded for a name is the last listed one. */
  lemma {:induction false} NamespacesExactly(objs: seq<Unstructured>, name: string, id: ObjMetadata)
    ensures (name in Namespaces(objs) && Namespaces(objs)[name] == id) <==>
      exists i :: LastNamespace(objs, name, i) && objs[i].id == id
  {
    if objs != [] {
      var n := |objs| - 1;
      var front := objs[..n];
      NamespacesExactly(front, name, id);
      assert IsNamespaceNamed(objs[n], name) <==> IsKindNamespace(objs[n]) && objs[n].id.name == name;
      hide IsKindNamespace, IsNamespaceNamed;
      if IsNamespaceNamed(objs[n], name) {
        assert LastNamespace(objs, name, n) && Namespaces(objs)[name] == objs[n].id;
      } else {
        assert name in Namespaces(objs) <==> name in Namespaces(front);
        forall i ensures LastNamespace(objs, name, i) <==> LastNamespace(front, name, i) {
          assert forall j :: 0 <= j < n ==> front[j] == objs[j];
        }
      }
    }
  }

  lemma CRDTargetIff(objs: seq<Unstructured>, obj: Unstructured, b: ObjMetadata)
    ensures CRDTarget(CRDs(objs), obj) == Some(b) <==> InCRD(objs, obj, b)
  {
    CRDsExactly(objs, obj.id.groupKind, b);
    hide CRDs, LastDefiner, GroupKindString;
  }

  lemma NamespaceTargetIff(objs: seq<Unstructured>, obj: Unstructured, b: ObjMetadata)
    ensures NamespaceTarget(Namespaces(objs), obj) == Some(b) <==> InNamespace(objs, obj, b)
  {
    NamespacesExactly(objs, obj.id.namespace, b);
    hide Namespaces, LastNamespace;
  }

  lemma GivenIff(objs: seq<Unstructured>, b: ObjMetadata)
    ensures b in Ids(objs) <==> Given(objs, b)
  {
  }

  lemma RefersIff(objs: seq<Unstructured>, obj: Unstructured, b: ObjMetadata)
    ensures Refers(Ids(objs), DependsOnRefs(obj), b) <==> DependsOnListed(obj, b) && Given(objs, b)
    ensures Refers(Ids(objs), MutationRefs(obj), b) <==> MutationListed(obj, b) && Given(objs, b)
  {
    GivenIff(objs, b);
    hide DependsOn.ParseSet, Ids, Given;
  }

  /** What an object needs first, rule by rule. */
  lemma NeedsFirstIff(objs: seq<Unstructured>, obj: Unstructured, b: ObjMetadata)
    ensures NeedsFirst(objs, obj, b) <==>
      || CRDTarget(CRDs(objs), obj) == Some(b)
      || NamespaceTarget(Namespaces(objs), obj) == Some(b)
      || Refers(Ids(objs), DependsOnRefs(obj), b)
      || Refers(Ids(objs), MutationRefs(obj), b)
  {
    CRDTargetIff(objs, obj, b);
    NamespaceTargetIff(objs, obj, b);
    RefersIff(objs, obj, b);
    hide CRDTarget, NamespaceTarget, CRDs, Namespaces, Refers, DependsOnRefs, MutationRefs, Ids;
    hide InCRD, InNamespace, DependsOnListed, MutationListed, Given;
  }

  lemma BadAnnotationIff(objs: seq<Unstructured>, obj: Unstructured)
    ensures BadAnnotation(objs, obj) <==> BadRefs(Ids(objs), DependsOnRefs(obj), true) || BadRefs(Ids(objs), MutationRefs(obj), false)
  {
    forall b ensures b in Ids(objs) <==> Given(objs, b) {
      GivenIff(objs, b);
    }
    hide DependsOn.ParseSet, Ids, Given, NoDup;
  }

  // ---------- The whole graph ----------

  /** The graph after the CRD and namespace rules. */
  function ImplicitGraph(objs: seq<Unstructured>): GraphVal {
    AddNamespaceEdgesV(AddCRDEdgesV(AddVerticesV(EMPTY, Ids(objs)), CRDs(objs), objs), Namespaces(objs), objs)
  }

  lemma IdsCover(objs: seq<Unstructured>)
    ensures forall o :: o in objs ==> o.id in ToSet(Ids(objs))
  {
    forall o | o in objs ensures o.id in ToSet(Ids(objs)) {
      var i :| 0 <= i < |objs| && objs[i] == o;
      assert Ids(objs)[i] == o.id;
    }
  }

  lemma ImplicitGraphFacts(objs: seq<Unstructured>)
    ensures Over(ImplicitGraph(objs), ToSet(Ids(objs)))
    ensures forall x, y :: HasEdge(ImplicitGraph(objs), x, y) <==>
      || (exists o :: o in objs && o.id == x && CRDTarget(CRDs(objs), o) == Some(y))
      || (exists o :: o in objs && o.id == x && NamespaceTarget(Namespaces(objs), o) == Some(y))
  {
    var V := ToSet(Ids(objs));
    VerticesFacts(Ids(objs));
    IdsCover(objs);
    CRDValues(objs);
    NamespaceValues(objs);
    hide Over, HasEdge, CRDTarget, NamespaceTarget, AddVerticesV, AddCRDEdgesV, AddNamespaceEdgesV, CRDs, Namespaces;
    var g0 := AddVerticesV(EMPTY, Ids(objs));
    CRDEdgesFacts(g0, V, CRDs(objs), objs);
    NamespaceEdgesFacts(AddCRDEdgesV(g0, CRDs(objs), objs), V, Namespaces(objs), objs);
  }

  lemma NeedsFirstSplit(objs: seq<Unstructured>, x: ObjMetadata, y: ObjMetadata)
    ensures (exists o :: o in objs && o.id == x && NeedsFirst(objs, o, y)) <==>
      || (exists o :: o in objs && o.id == x && CRDTarget(CRDs(objs), o) == Some(y))
      || (exists o :: o in objs && o.id == x && NamespaceTarget(Namespaces(objs), o) == Some(y))
      || (exists o :: o in objs && o.id == x && Refers(Ids(objs), DependsOnRefs(o), y))
      || (exists o :: o in objs && o.id == x && Refers(Ids(objs), MutationRefs(o), y))
  {
    forall o ensures NeedsFirst(objs, o, y) <==>
      || CRDTarget(CRDs(objs), o) == Some(y)
      || NamespaceTarget(Namespaces(objs), o) == Some(y)
      || Refers(Ids(objs), DependsOnRefs(o), y)
      || Refers(Ids(objs), MutationRefs(o), y)
    {
      NeedsFirstIff(objs, o, y);
    }
    hide CRDTarget, NamespaceTarget, Refers, DependsOnRefs, MutationRefs, CRDs, Namespaces, NeedsFirst, Ids;
  }

  lemma BadAnnotationSplit(objs: seq<Unstructured>, x: ObjMetadata)
    ensures (exists o :: o in objs && o.id == x && BadAnnotation(objs, o)) <==>
      || (exists o :: o in objs && o.id == x && BadRefs(Ids(objs), DependsOnRefs(o), true))
      || (exists o :: o in objs && o.id == x && BadRefs(Ids(objs), MutationRefs(o), false))
  {
    forall o ensures BadAnnotation(objs, o) <==> BadRefs(Ids(objs), DependsOnRefs(o), true) || BadRefs(Ids(objs), MutationRefs(o), false) {
      BadAnnotationIff(objs, o);
    }
    hide BadRefs, DependsOnRefs, MutationRefs, BadAnnotation, Ids;
  }

  lemma ImplicitGraphAt(objs: seq<Unstructured>, x: ObjMetadata, y: ObjMetadata)
    ensures Over(ImplicitGraph(objs), ToSet(Ids(objs)))
    ensures HasEdge(ImplicitGraph(objs), x, y) <==>
      || (exists o :: o in objs && o.id == x && CRDTarget(CRDs(objs), o) == Some(y))
      || (exists o :: o in objs && o.id == x && NamespaceTarget(Namespaces(objs), o) == Some(y))
  {
    hide *;
    ImplicitGraphFacts(objs);
  }

  lemma DependsOnAt(b: Built, V: set<ObjMetadata>, ids: seq<ObjMetadata>, objs: seq<Unstructured>, x: ObjMetadata, y: ObjMetadata)
    requires Over(b.g, V) && ToSet(ids) <= V && forall o :: o in objs ==> o.id in V
    ensures var c := AddDependsOnEdgesV(b, ids, objs);
      && Over(c.g, V)
      && (HasEdge(c.g, x, y) <==>
        HasEdge(b.g, x, y) || exists o :: o in objs && o.id == x && Refers(ids, DependsOnRefs(o), y))
      && (x in c.invalid <==>
        x in b.invalid || exists o :: o in objs && o.id == x && BadRefs(ids, DependsOnRefs(o), true))
  {
    hide *;
    DependsOnFacts(b, V, ids, objs);
  }

  lemma MutationAt(b: Built, V: set<ObjMetadata>, ids: seq<ObjMetadata>, objs: seq<Unstructured>, x: ObjMetadata, y: ObjMetadata)
    requires Over(b.g, V) && ToSet(ids) <= V && forall o :: o in objs ==> o.id in V
    ensures var c := AddMutationEdgesV(b, ids, objs);
      && Over(c.g, V)
      && (HasEdge(c.g, x, y) <==>
        HasEdge(b.g, x, y) || exists o :: o in objs && o.id == x && Refers(ids, MutationRefs(o), y))
      && (x in c.invalid <==>
        x in b.invalid || exists o :: o in objs && o.id == x && BadRefs(ids, MutationRefs(o), false))
  {
    hide *;
    MutationFacts(b, V, ids, objs);
  }

  /** The graph after all four rules, with the rules kept apart. */
  lemma WholeGraphFacts(objs: seq<Unstructured>, x: ObjMetadata, y: ObjMetadata)
    ensures HasEdge(DependencyGraphV(objs).g, x, y) <==>
      || (exists o :: o in objs && o.id == x && CRDTarget(CRDs(objs), o) == Some(y))
      || (exists o :: o in objs && o.id == x && NamespaceTarget(Namespaces(objs), o) == Some(y))
      || (exists o :: o in objs && o.id == x && Refers(Ids(objs), DependsOnRefs(o), y))
      || (exists o :: o in objs && o.id == x && Refers(Ids(objs), MutationRefs(o), y))
    ensures x in DependencyGraphV(objs).invalid <==>
      || (exists o :: o in objs && o.id == x && BadRefs(Ids(objs), DependsOnRefs(o), true))
      || (exists o :: o in objs && o.id == x && BadRefs(Ids(objs), MutationRefs(o), false))
  {
    var ids, V := Ids(objs), ToSet(Ids(objs));
    ImplicitGraphAt(objs, x, y);
    IdsCover(objs);
    var b2 := Built(ImplicitGraph(objs), []);
    var b3 := AddDependsOnEdgesV(b2, ids, objs);
    assert DependencyGraphV(objs) == AddMutationEdgesV(b3, ids, objs);
    hide *;
    DependsOnAt(b2, V, ids, objs, x, y);
    MutationAt(b3, V, ids, objs, x, y);
  }

  lemma WholeGraphOver(objs: seq<Unstructured>)
    ensures GraphOk(DependencyGraphV(objs).g) && DependencyGraphV(objs).g.edges.Keys == ToSet(Ids(objs))
  {
    var ids, V := Ids(objs), ToSet(Ids(objs));
    ImplicitGraphFacts(objs);
    IdsCover(objs);
    var b2 := Built(ImplicitGraph(objs), []);
    var b3 := AddDependsOnEdgesV(b2, ids, objs);
    assert DependencyGraphV(objs) == AddMutationEdgesV(b3, ids, objs);
    hide HasEdge, CRDTarget, NamespaceTarget, Refers, BadRefs, DependsOnRefs, MutationRefs, GraphOk;
    hide ImplicitGraph, AddDependsOnEdgesV, AddMutationEdgesV, DependencyGraphV, CRDs, Namespaces;
    DependsOnFacts(b2, V, ids, objs);
    MutationFacts(b3, V, ids, objs);
  }

  /** The graph's vertices are the objects; its edges are exactly those the four rules ask for; the objects
      reported invalid are exactly those with a bad annotation. */
  lemma GraphExactly(objs: seq<Unstructured>)
    ensures var b := DependencyGraphV(objs);
      && GraphOk(b.g) && b.g.edges.Keys == ToSet(Ids(objs))
      && (forall x, y :: HasEdge(b.g, x, y) <==> exists o :: o in objs && o.id == x && NeedsFirst(objs, o, y))
      && (forall x :: x in b.invalid <==> exists o :: o in objs && o.id == x && BadAnnotation(objs, o))
  {
    hide HasEdge, NeedsFirst, BadAnnotation, CRDTarget, NamespaceTarget, Refers, BadRefs, GraphOk;
    hide DependsOnRefs, MutationRefs, DependencyGraphV, CRDs, Namespaces;
    var b := DependencyGraphV(objs);
    WholeGraphOver(objs);
    forall x, y
      ensures HasEdge(b.g, x, y) <==> exists o :: o in objs && o.id == x && NeedsFirst(objs, o, y)
    {
      WholeGraphFacts(objs, x, y);
      NeedsFirstSplit(objs, x, y);
    }
    forall x
      ensures x in b.invalid <==> exists o :: o in objs && o.id == x && BadAnnotation(objs, o)
    {
      WholeGraphFacts(objs, x, x);
      BadAnnotationSplit(objs, x);
    }
  }
}
