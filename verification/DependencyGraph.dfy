/** The dependency graph of a set of objects. */
module DependencyGraph {
  import opened Base
  import opened Objects
  import opened Graphs
  import DependsOn

  /** schema.GroupKind's text form. */
  function GroupKindString(gk: GroupKind): string {
    if gk.group == "" then gk.kind else gk.kind + "." + gk.group
  }

  predicate IsCRD(obj: Unstructured) {
    obj.id.groupKind == GroupKind("apiextensions.k8s.io", "CustomResourceDefinition")
  }

  predicate IsKindNamespace(obj: Unstructured) {
    obj.id.groupKind == GroupKind("", "Namespace")
  }

  predicate IsNamespaced(obj: Unstructured) {
    obj.id.namespace != ""
  }

  // ---------- Edges by rule ----------

  /** The CRD that defines each group kind; the last one listed wins. */
  function CRDs(objs: seq<Unstructured>): map<string, ObjMetadata> {
    if objs == [] then map[]
    else
      var m, obj := CRDs(objs[..|objs| - 1]), objs[|objs| - 1];
      if IsCRD(obj) && obj.crdGroupKind.Some? then m[GroupKindString(obj.crdGroupKind.value) := obj.id] else m
  }

  function Namespaces(objs: seq<Unstructured>): map<string, ObjMetadata> {
    if objs == [] then map[]
    else
      var m, obj := Namespaces(objs[..|objs| - 1]), objs[|objs| - 1];
      if IsKindNamespace(obj) then m[obj.id.name := obj.id] else m
  }

  function CRDTarget(crds: map<string, ObjMetadata>, obj: Unstructured): Option<ObjMetadata> {
    var key := GroupKindString(obj.id.groupKind);
    if key in crds then Some(crds[key]) else None
  }

  function NamespaceTarget(namespaces: map<string, ObjMetadata>, obj: Unstructured): Option<ObjMetadata> {
    if IsNamespaced(obj) && obj.id.namespace in namespaces then Some(namespaces[obj.id.namespace]) else None
  }

  function Link(g: GraphVal, from: ObjMetadata, to: Option<ObjMetadata>): GraphVal {
    if to.Some? then WithEdge(g, from, to.value) else g
  }

  function AddVerticesV(g: GraphVal, ids: seq<ObjMetadata>): GraphVal {
    if ids == [] then g else WithVertex(AddVerticesV(g, ids[..|ids| - 1]), ids[|ids| - 1])
  }

  function AddCRDEdgesV(g: GraphVal, crds: map<string, ObjMetadata>, objs: seq<Unstructured>): GraphVal {
    if objs == [] then g
    else
      var obj := objs[|objs| - 1];
      Link(AddCRDEdgesV(g, crds, objs[..|objs| - 1]), obj.id, CRDTarget(crds, obj))
  }

  function AddNamespaceEdgesV(g: GraphVal, namespaces: map<string, ObjMetadata>, objs: seq<Unstructured>): GraphVal {
    if objs == [] then g
    else
      var obj := objs[|objs| - 1];
      Link(AddNamespaceEdgesV(g, namespaces, objs[..|objs| - 1]), obj.id, NamespaceTarget(namespaces, obj))
  }

  /** A graph under construction and the objects found invalid on the way. */
  datatype Built = Built(g: GraphVal, invalid: seq<ObjMetadata>)

  /** Edges to the listed dependencies that are in the set, each once; bad if one was outside the set,
      or (when strict) listed twice. */
  function LinkAll(g: GraphVal, ids: seq<ObjMetadata>, from: ObjMetadata, deps: seq<ObjMetadata>, strict: bool): (GraphVal, bool) {
    if deps == [] then (g, false)
    else
      var front, dep := deps[..|deps| - 1], deps[|deps| - 1];
      var (h, bad) := LinkAll(g, ids, from, front, strict);
      if dep in front then (h, bad || strict)
      else if dep !in ids then (h, true)
      else (WithEdge(h, from, dep), bad)
  }

  /** What an annotation says: nothing, nonsense, or references. */
  datatype Refs = Absent | Malformed | Listed(ids: seq<ObjMetadata>)

  function DependsOnRefs(obj: Unstructured): Refs {
    if obj.dependsOn.None? then Absent
    else match DependsOn.ParseSet(obj.dependsOn.value)
      case Err(_) => Malformed
      case Ok(deps) => Listed(deps)
  }

  function MutationRefs(obj: Unstructured): Refs {
    match obj.mutation
    case NoMutation => Absent
    case MalformedMutation => Malformed
    case MutationSources(refs) => Listed(refs)
  }

  function AddRefs(b: Built, ids: seq<ObjMetadata>, from: ObjMetadata, refs: Refs, strict: bool): Built {
    match refs
    case Absent => b
    case Malformed => b.(invalid := b.invalid + [from])
    case Listed(deps) =>
      var (g, bad) := LinkAll(b.g, ids, from, deps, strict);
      Built(g, if bad then b.invalid + [from] else b.invalid)
  }

  function AddDependsOnEdgesV(b: Built, ids: seq<ObjMetadata>, objs: seq<Unstructured>): Built {
    if objs == [] then b
    else
      var obj := objs[|objs| - 1];
      AddRefs(AddDependsOnEdgesV(b, ids, objs[..|objs| - 1]), ids, obj.id, DependsOnRefs(obj), true)
  }

  function AddMutationEdgesV(b: Built, ids: seq<ObjMetadata>, objs: seq<Unstructured>): Built {
    if objs == [] then b
    else
      var obj := objs[|objs| - 1];
      AddRefs(AddMutationEdgesV(b, ids, objs[..|objs| - 1]), ids, obj.id, MutationRefs(obj), false)
  }

  function DependencyGraphV(objs: seq<Unstructured>): Built {
    var ids := Ids(objs);
    var g0 := AddVerticesV(EMPTY, ids);
    var g1 := AddCRDEdgesV(g0, CRDs(objs), objs);
    var g2 := AddNamespaceEdgesV(g1, Namespaces(objs), objs);
    AddMutationEdgesV(AddDependsOnEdgesV(Built(g2, []), ids, objs), ids, objs)
  }

  // ---------- The same, in place ----------

  lemma Prefix<T>(s: seq<T>, i: nat)
    requires i < |s|
    ensures s[..i + 1] != [] && s[..i + 1][..|s[..i + 1]| - 1] == s[..i] && s[..i + 1][|s[..i + 1]| - 1] == s[i]
  {
  }

  method AddVertices(g: Graph, ids: seq<ObjMetadata>)
    modifies g
    ensures g.Value() == AddVerticesV(old(g.Value()), ids)
  {
    for i := 0 to |ids|
      invariant g.Value() == AddVerticesV(old(g.Value()), ids[..i])
    {
      Prefix(ids, i);
      g.AddVertex(ids[i]);
    }
    assert ids[..|ids|] == ids;
  }

  method AddCRDEdges(g: Graph, objs: seq<Unstructured>)
    modifies g
    ensures g.Value() == AddCRDEdgesV(old(g.Value()), CRDs(objs), objs)
  {
    hide WithEdge;
    var crds := map[];
    for i := 0 to |objs|
      invariant crds == CRDs(objs[..i]) && g.Value() == old(g.Value())
    {
      Prefix(objs, i);
      if IsCRD(objs[i]) && objs[i].crdGroupKind.Some? {
        crds := crds[GroupKindString(objs[i].crdGroupKind.value) := objs[i].id];
      }
    }
    assert objs[..|objs|] == objs;
    for i := 0 to |objs|
      invariant g.Value() == AddCRDEdgesV(old(g.Value()), crds, objs[..i])
    {
      Prefix(objs, i);
      var key := GroupKindString(objs[i].id.groupKind);
      if key in crds {
        g.AddEdge(objs[i].id, crds[key]);
      }
    }
  }

  method AddNamespaceEdges(g: Graph, objs: seq<Unstructured>)
    modifies g
    ensures g.Value() == AddNamespaceEdgesV(old(g.Value()), Namespaces(objs), objs)
  {
    hide WithEdge;
    var namespaces := map[];
    for i := 0 to |objs|
      invariant namespaces == Namespaces(objs[..i]) && g.Value() == old(g.Value())
    {
      Prefix(objs, i);
      if IsKindNamespace(objs[i]) {
        namespaces := namespaces[objs[i].id.name := objs[i].id];
      }
    }
    assert objs[..|objs|] == objs;
    for i := 0 to |objs|
      invariant g.Value() == AddNamespaceEdgesV(old(g.Value()), namespaces, objs[..i])
    {
      Prefix(objs, i);
      if IsNamespaced(objs[i]) && objs[i].id.namespace in namespaces {
        g.AddEdge(objs[i].id, namespaces[objs[i].id.namespace]);
      }
    }
  }

  /** The loop over one object's dependencies. */
  method LinkDependencies(g: Graph, ids: seq<ObjMetadata>, from: ObjMetadata, deps: seq<ObjMetadata>, strict: bool)
    returns (bad: bool)
    modifies g
    ensures (g.Value(), bad) == LinkAll(old(g.Value()), ids, from, deps, strict)
  {
    hide WithEdge;
    bad := false;
    var seen := {};
    for i := 0 to |deps|
      invariant (g.Value(), bad) == LinkAll(old(g.Value()), ids, from, deps[..i], strict)
      invariant seen == ToSet(deps[..i])
    {
      Prefix(deps, i);
      ToSetSnoc(deps[..i + 1]);
      if deps[i] in seen {
        bad := bad || strict;
      } else {
        seen := seen + {deps[i]};
        if deps[i] !in ids {
          bad := true;
        } else {
          g.AddEdge(from, deps[i]);
        }
      }
    }
    assert deps[..|deps|] == deps;
  }

  method AddDependsOnEdges(g: Graph, ids: seq<ObjMetadata>, objs: seq<Unstructured>, found: seq<ObjMetadata>)
    returns (invalid: seq<ObjMetadata>)
    modifies g
    ensures Built(g.Value(), invalid) == AddDependsOnEdgesV(Built(old(g.Value()), found), ids, objs)
  {
    hide LinkAll;
    invalid := found;
    for i := 0 to |objs|
      invariant Built(g.Value(), invalid) == AddDependsOnEdgesV(Built(old(g.Value()), found), ids, objs[..i])
    {
      Prefix(objs, i);
      if objs[i].dependsOn.Some? {
        var deps, failure := DependsOn.ParseDependencySet(objs[i].dependsOn.value);
        if failure.Some? {
          invalid := invalid + [objs[i].id];
        } else {
          var bad := LinkDependencies(g, ids, objs[i].id, deps, true);
          if bad {
            invalid := invalid + [objs[i].id];
          }
        }
      }
    }
    assert objs[..|objs|] == objs;
  }

  method AddApplyTimeMutationEdges(g: Graph, ids: seq<ObjMetadata>, objs: seq<Unstructured>, found: seq<ObjMetadata>)
    returns (invalid: seq<ObjMetadata>)
    modifies g
    ensures Built(g.Value(), invalid) == AddMutationEdgesV(Built(old(g.Value()), found), ids, objs)
  {
    hide LinkAll;
    invalid := found;
    for i := 0 to |objs|
      invariant Built(g.Value(), invalid) == AddMutationEdgesV(Built(old(g.Value()), found), ids, objs[..i])
    {
      Prefix(objs, i);
      match objs[i].mutation
      case NoMutation =>
      case MalformedMutation => invalid := invalid + [objs[i].id];
      case MutationSources(refs) =>
        var bad := LinkDependencies(g, ids, objs[i].id, refs, false);
        if bad {
          invalid := invalid + [objs[i].id];
        }
    }
    assert objs[..|objs|] == objs;
  }

  method BuildDependencyGraph(objs: seq<Unstructured>) returns (g: Graph, invalid: seq<ObjMetadata>)
    ensures fresh(g)
    ensures Built(g.Value(), invalid) == DependencyGraphV(objs)
  {
    g := new Graph();
    invalid := [];
    if |objs| == 0 {
      assert Ids(objs) == [];
      return;
    }
    var ids := Ids(objs);
    AddVertices(g, ids);
    AddCRDEdges(g, objs);
    AddNamespaceEdges(g, objs);
    invalid := AddDependsOnEdges(g, ids, objs, []);
    invalid := AddApplyTimeMutationEdges(g, ids, objs, invalid);
  }
}
