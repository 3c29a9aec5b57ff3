/** The dependency graph: adjacency lists in both directions, and its topological sort. */
module Graphs {
  import opened Base
  import opened ObjMetadataSets
  import opened Ordering
  import opened Layers

  datatype GraphVal = GraphVal(edges: Adjacency, reverse: Adjacency)

  const EMPTY := GraphVal(map[], map[])

  function EnsureVertex(m: Adjacency, v: ObjMetadata): Adjacency {
    if v in m then m else m[v := []]
  }

  function WithVertex(g: GraphVal, v: ObjMetadata): GraphVal {
    GraphVal(EnsureVertex(g.edges, v), EnsureVertex(g.reverse, v))
  }

  function WithEdge(g: GraphVal, from: ObjMetadata, to: ObjMetadata): GraphVal {
    var h := WithVertex(WithVertex(g, from), to);
    if to in h.edges[from] then h
    else GraphVal(h.edges[from := h.edges[from] + [to]], h.reverse[to := h.reverse[to] + [from]])
  }

  predicate HasEdge(g: GraphVal, from: ObjMetadata, to: ObjMetadata) {
    from in g.edges && to in g.edges[from]
  }

  /** Duplicate-free lists over one vertex set, each the transpose of the other. */
  ghost predicate GraphOk(g: GraphVal) {
    && g.edges.Keys == g.reverse.Keys
    && (forall v :: v in g.edges ==> NoDup(g.edges[v]) && NoDup(g.reverse[v]))
    && (forall v, w :: v in g.edges && w in g.edges[v] ==> w in g.reverse && v in g.reverse[w])
    && (forall v, w :: w in g.reverse && v in g.reverse[w] ==> v in g.edges && w in g.edges[v])
  }

  lemma WithVertexOk(g: GraphVal, v: ObjMetadata)
    requires GraphOk(g)
    ensures GraphOk(WithVertex(g, v))
    ensures WithVertex(g, v).edges.Keys == g.edges.Keys + {v}
    ensures forall a, b :: HasEdge(WithVertex(g, v), a, b) <==> HasEdge(g, a, b)
  {
  }

  lemma LinkOk(h: GraphVal, from: ObjMetadata, to: ObjMetadata, g': GraphVal)
    requires GraphOk(h) && from in h.edges && to in h.edges && to !in h.edges[from]
    requires g' == GraphVal(h.edges[from := h.edges[from] + [to]], h.reverse[to := h.reverse[to] + [from]])
    ensures GraphOk(g')
    ensures forall a, b :: HasEdge(g', a, b) <==> HasEdge(h, a, b) || (a == from && b == to)
  {
    assert from !in h.reverse[to];
    forall v | v in g'.edges ensures NoDup(g'.edges[v]) && NoDup(g'.reverse[v]) {
      NoDupSnoc(h.edges[from], to);
      NoDupSnoc(h.reverse[to], from);
    }
  }

  /** Adding an edge adds that edge and nothing else, and keeps the two maps transposed. */
  lemma WithEdgeOk(g: GraphVal, from: ObjMetadata, to: ObjMetadata)
    requires GraphOk(g)
    ensures GraphOk(WithEdge(g, from, to))
    ensures WithEdge(g, from, to).edges.Keys == g.edges.Keys + {from, to}
    ensures forall a, b :: HasEdge(WithEdge(g, from, to), a, b) <==> HasEdge(g, a, b) || (a == from && b == to)
  {
    var h := WithVertex(WithVertex(g, from), to);
    VerticesOk(g, from, to, h);
    var g' := WithEdge(g, from, to);
    if to !in h.edges[from] {
      LinkOk(h, from, to, g');
    }
    hide GraphOk, WithVertex;
  }

  lemma VerticesOk(g: GraphVal, from: ObjMetadata, to: ObjMetadata, h: GraphVal)
    requires GraphOk(g) && h == WithVertex(WithVertex(g, from), to)
    ensures GraphOk(h) && h.edges.Keys == g.edges.Keys + {from, to}
    ensures forall a, b :: HasEdge(h, a, b) <==> HasEdge(g, a, b)
  {
    WithVertexOk(g, from);
    WithVertexOk(WithVertex(g, from), to);
    hide GraphOk, WithVertex, HasEdge;
  }

  // ---------- Sorting ----------

  /** The copy being peeled: duplicate-free lists holding the original edges among what is left. */
  ghost predicate Peeling(edges: Adjacency, work: Adjacency) {
    && work.Keys <= edges.Keys
    && forall v :: v in work ==> NoDup(work[v]) && ToSet(work[v]) == ToSet(edges[v]) * work.Keys
  }

  lemma PeelOne(edges: Adjacency, work: Adjacency, r: ObjMetadata, work': Adjacency)
    requires Peeling(edges, work) && r in work
    requires work'.Keys == work.Keys - {r} && forall v :: v in work' ==> work'[v] == Remove(work[v], r)
    ensures Peeling(edges, work')
  {
    forall v | v in work' ensures NoDup(work'[v]) && ToSet(work'[v]) == ToSet(edges[v]) * work'.Keys {
      RemoveIsDifference(work[v], r);
      assert work'[v] == Remove(work[v], r);
    }
  }

  lemma EmptyIffLeaf(edges: Adjacency, work: Adjacency, v: ObjMetadata)
    requires Peeling(edges, work) && v in work
    ensures work[v] == [] <==> v in Leaves(edges, work.Keys)
  {
    if work[v] != [] {
      assert work[v][0] in ToSet(work[v]);
      assert work[v][0] in edges[v] && work[v][0] in work.Keys;
    } else {
      assert ToSet(edges[v]) * work.Keys == {};
      forall w | w in edges[v] ensures w !in work.Keys {
        assert w in ToSet(edges[v]) && w !in ToSet(edges[v]) * work.Keys;
      }
    }
  }

  /** removeVertex: takes r out of every list, then out of the map. */
  method RemoveVertex(edges: Adjacency, r: ObjMetadata) returns (edges': Adjacency)
    ensures edges'.Keys == edges.Keys - {r}
    ensures forall v :: v in edges' ==> edges'[v] == Remove(edges[v], r)
  {
    edges' := edges;
    var todo := edges.Keys;
    while todo != {}
      invariant todo <= edges.Keys == edges'.Keys
      invariant forall v :: v in edges' ==> edges'[v] == if v in todo then edges[v] else Remove(edges[v], r)
      decreases |todo|
    {
      var v :| v in todo;
      SmallerDifference(todo, {v});
      edges' := edges'[v := Remove(edges'[v], r)];
      todo := todo - {v};
    }
    edges' := edges' - {r};
  }

  /** The leaves, in whatever order the map yields them. */
  method CollectLeaves(work: Adjacency) returns (leaves: seq<ObjMetadata>)
    ensures NoDup(leaves) && ToSet(leaves) == set v | v in work && work[v] == []
  {
    leaves := [];
    var todo := work.Keys;
    while todo != {}
      invariant todo <= work.Keys && NoDup(leaves)
      invariant ToSet(leaves) == set v | v in work.Keys - todo && work[v] == []
      decreases |todo|
    {
      var v :| v in todo;
      SmallerDifference(todo, {v});
      todo := todo - {v};
      if work[v] == [] {
        assert v !in ToSet(leaves);
        leaves := leaves + [v];
        ToSetSnoc(leaves);
        assert leaves[..|leaves| - 1] + [v] == leaves;
      }
    }
  }

  method RemoveVertices(ghost edges: Adjacency, work: Adjacency, leaves: seq<ObjMetadata>) returns (work': Adjacency)
    requires Peeling(edges, work) && NoDup(leaves) && ToSet(leaves) <= work.Keys
    ensures Peeling(edges, work') && work'.Keys == work.Keys - ToSet(leaves)
  {
    work' := work;
    for i := 0 to |leaves|
      invariant Peeling(edges, work') && work'.Keys == work.Keys - ToSet(leaves[..i])
    {
      ToSetSnoc(leaves[..i + 1]);
      assert leaves[..i + 1][..i] == leaves[..i];
      assert leaves[i] in ToSet(leaves) && leaves[i] !in leaves[..i];
      var next := RemoveVertex(work', leaves[i]);
      PeelOne(edges, work', leaves[i], next);
      work' := next;
    }
    assert leaves[..|leaves|] == leaves;
  }

  /** Each list enumerates its layer once. */
  ghost predicate Lists(sorted: seq<seq<ObjMetadata>>, layers: seq<set<ObjMetadata>>) {
    && |sorted| == |layers|
    && forall k :: 0 <= k < |sorted| ==> NoDup(sorted[k]) && ToSet(sorted[k]) == layers[k]
  }

  lemma ListsSnoc(sorted: seq<seq<ObjMetadata>>, layers: seq<set<ObjMetadata>>, list: seq<ObjMetadata>, layer: set<ObjMetadata>)
    requires Lists(sorted, layers) && NoDup(list) && ToSet(list) == layer
    ensures Lists(sorted + [list], layers + [layer])
  {
  }

  class Graph {
    var edges: Adjacency
    var reverseEdges: Adjacency

    function Value(): GraphVal
      reads this
    {
      GraphVal(edges, reverseEdges)
    }

    constructor ()
      ensures Value() == EMPTY
    {
      edges, reverseEdges := map[], map[];
    }

    method AddVertex(v: ObjMetadata)
      modifies this
      ensures Value() == WithVertex(old(Value()), v)
    {
      if v !in edges {
        edges := edges[v := []];
      }
      if v !in reverseEdges {
        reverseEdges := reverseEdges[v := []];
      }
    }

    method IsAdjacent(from: ObjMetadata, to: ObjMetadata) returns (b: bool)
      ensures b <==> HasEdge(Value(), from, to)
    {
      if from !in edges {
        return false;
      }
      var adj := edges[from];
      for i := 0 to |adj|
        invariant to !in adj[..i]
      {
        if adj[i] == to {
          return true;
        }
      }
      return false;
    }

    method AddEdge(from: ObjMetadata, to: ObjMetadata)
      modifies this
      ensures Value() == WithEdge(old(Value()), from, to)
    {
      AddVertex(from);
      AddVertex(to);
      var adjacent := IsAdjacent(from, to);
      if !adjacent {
        edges := edges[from := edges[from] + [to]];
        reverseEdges := reverseEdges[to := reverseEdges[to] + [from]];
      }
    }

    /** The objects this object depends on. */
    method Dependencies(from: ObjMetadata) returns (deps: seq<ObjMetadata>)
      ensures forall to :: to in deps <==> HasEdge(Value(), from, to)
      ensures deps == if from in edges then edges[from] else []
    {
      deps := if from in edges then edges[from] else [];
    }

    /** The objects that depend on this object. */
    method Dependents(to: ObjMetadata) returns (deps: seq<ObjMetadata>)
      ensures GraphOk(Value()) ==> forall from :: from in deps <==> HasEdge(Value(), from, to)
      ensures deps == if to in reverseEdges then reverseEdges[to] else []
    {
      deps := if to in reverseEdges then reverseEdges[to] else [];
    }

    /** The layers in order; on a cycle, the layers below it and the vertices left over.
        Every choice of map order gives the same layers and the same error. */
    method Sort() returns (sorted: seq<seq<ObjMetadata>>, cyclic: Option<seq<ObjMetadata>>)
      requires GraphOk(Value())
      ensures Lists(sorted, LayersOf(edges, edges.Keys))
      ensures cyclic.None? <==> Residue(edges, edges.Keys) == {}
      ensures cyclic.Some? ==> cyclic.value == SortedSeq(Residue(edges, edges.Keys))
    {
      StartPeeling(Value());
      sorted, cyclic := SortEdges(edges);
    }
  }

  /** Peels a copy of the edge map until it is empty or has no leaves. */
  method SortEdges(edges: Adjacency) returns (sorted: seq<seq<ObjMetadata>>, cyclic: Option<seq<ObjMetadata>>)
    requires Peeling(edges, edges)
    ensures Lists(sorted, LayersOf(edges, edges.Keys))
    ensures cyclic.None? <==> Residue(edges, edges.Keys) == {}
    ensures cyclic.Some? ==> cyclic.value == SortedSeq(Residue(edges, edges.Keys))
  {
    var work := edges;
    sorted := [];
    ghost var layers: seq<set<ObjMetadata>> := [];
    hide LayersOf, Residue, SortedSeq, Lists;
    assert Lists([], []) by { ListsNil(); }
    while work.Keys != {}
      invariant Peeling(edges, work)
      invariant Lists(sorted, layers)
      invariant LayersOf(edges, edges.Keys) == layers + LayersOf(edges, work.Keys)
      invariant Residue(edges, edges.Keys) == Residue(edges, work.Keys)
      decreases |work.Keys|
    {
      var leaves;
      leaves, work := PeelRound(edges, work);
      if |leaves| == 0 {
        var keys := EdgeMapKeys(work);
        assert LayersOf(edges, edges.Keys) == layers;
        return sorted, Some(keys);
      }
      ListsSnoc(sorted, layers, leaves, ToSet(leaves));
      sorted := sorted + [leaves];
      layers := layers + [ToSet(leaves)];
    }
    assert ToSet<ObjMetadata>([]) == Leaves(edges, work.Keys);
    UnfoldLayers(edges, work.Keys, []);
    assert LayersOf(edges, edges.Keys) == layers;
    cyclic := None;
  }

  lemma ListsNil()
    ensures Lists([], [])
  {
  }

  /** One iteration of the sort: collect the leaves and remove them. */
  method PeelRound(ghost edges: Adjacency, work: Adjacency) returns (leaves: seq<ObjMetadata>, work': Adjacency)
    requires Peeling(edges, work)
    ensures Peeling(edges, work') && NoDup(leaves)
    ensures leaves == [] ==> work' == work && LayersOf(edges, work.Keys) == [] && Residue(edges, work.Keys) == work.Keys
    ensures leaves != [] ==>
      && |work'.Keys| < |work.Keys|
      && LayersOf(edges, work.Keys) == [ToSet(leaves)] + LayersOf(edges, work'.Keys)
      && Residue(edges, work.Keys) == Residue(edges, work'.Keys)
  {
    leaves := CollectLeaves(work);
    LeavesAgree(edges, work, leaves);
    UnfoldLayers(edges, work.Keys, leaves);
    hide LayersOf, Residue, Peeling;
    if |leaves| == 0 {
      work' := work;
    } else {
      work' := RemoveVertices(edges, work, leaves);
    }
  }

  /** One round of peeling. */
  lemma UnfoldLayers(edges: Adjacency, V: set<ObjMetadata>, leaves: seq<ObjMetadata>)
    requires V <= edges.Keys && ToSet(leaves) == Leaves(edges, V)
    ensures leaves == [] ==> LayersOf(edges, V) == [] && Residue(edges, V) == V
    ensures leaves != [] ==>
      && |V - ToSet(leaves)| < |V|
      && LayersOf(edges, V) == [ToSet(leaves)] + LayersOf(edges, V - ToSet(leaves))
      && Residue(edges, V) == Residue(edges, V - ToSet(leaves))
  {
    if leaves == [] {
      assert ToSet(leaves) == {};
    } else {
      assert leaves[0] in ToSet(leaves);
      SmallerDifference(V, ToSet(leaves));
    }
  }

  lemma StartPeeling(g: GraphVal)
    requires GraphOk(g)
    ensures Peeling(g.edges, g.edges)
  {
    forall v | v in g.edges ensures ToSet(g.edges[v]) == ToSet(g.edges[v]) * g.edges.Keys {}
  }

  lemma LeavesAgree(edges: Adjacency, work: Adjacency, leaves: seq<ObjMetadata>)
    requires Peeling(edges, work) && ToSet(leaves) == set v | v in work && work[v] == []
    ensures ToSet(leaves) == Leaves(edges, work.Keys)
  {
    forall v | v in work ensures work[v] == [] <==> v in Leaves(edges, work.Keys) {
      EmptyIffLeaf(edges, work, v);
    }
  }

  // ---------- Listing keys in order ----------

  /** Puts x in its place in a sorted list. */
  method Insert(s: seq<ObjMetadata>, x: ObjMetadata) returns (r: seq<ObjMetadata>)
    requires Sorted(s) && x !in s
    ensures Sorted(r) && ToSet(r) == ToSet(s) + {x}
  {
    hide Less;
    var i := 0;
    while i < |s| && Less(s[i], x)
      invariant i <= |s|
      invariant forall k :: 0 <= k < i ==> Less(s[k], x)
    {
      i := i + 1;
    }
    r := s[..i] + [x] + s[i..];
    forall k | i <= k < |s| ensures Less(x, s[k]) {
      LessConnected(x, s[i]);
      if i < k {
        LessTransitive(x, s[i], s[k]);
      }
    }
    assert forall y :: y in r <==> y in s || y == x by {
      assert s == s[..i] + s[i..];
    }
  }

  /** edgeMapKeys: the vertices in order, whatever order the map yields them in. */
  method EdgeMapKeys(work: Adjacency) returns (keys: seq<ObjMetadata>)
    ensures keys == SortedSeq(work.Keys)
  {
    keys := [];
    var todo := work.Keys;
    while todo != {}
      invariant todo <= work.Keys
      invariant Sorted(keys) && ToSet(keys) == work.Keys - todo
      decreases |todo|
    {
      var v :| v in todo;
      SmallerDifference(todo, {v});
      assert v !in ToSet(keys);
      keys := Insert(keys, v);
      todo := todo - {v};
    }
    SortedUnique(keys, work.Keys);
  }
}
