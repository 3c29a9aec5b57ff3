/** Peeling a finite directed graph into layers, and what a layer number means. */
module Layers {
  import opened Base

  type Adjacency = map<ObjMetadata, seq<ObjMetadata>>

  /** The vertices of V without an edge into V. */
  function Leaves(edges: Adjacency, V: set<ObjMetadata>): set<ObjMetadata>
    requires V <= edges.Keys
  {
    set v | v in V && forall w :: w in edges[v] ==> w !in V
  }

  /** Repeatedly take the leaves away; stop when there are none. */
  function LayersOf(edges: Adjacency, V: set<ObjMetadata>): seq<set<ObjMetadata>>
    requires V <= edges.Keys
    decreases |V|
  {
    var leaves := Leaves(edges, V);
    if leaves == {} then []
    else
      SubsetCard(V - leaves, V);
      assert |V - leaves| < |V| by { SmallerDifference(V, leaves); }
      [leaves] + LayersOf(edges, V - leaves)
  }

  /** What is left when there are no leaves. */
  function Residue(edges: Adjacency, V: set<ObjMetadata>): set<ObjMetadata>
    requires V <= edges.Keys
    decreases |V|
  {
    var leaves := Leaves(edges, V);
    if leaves == {} then V
    else
      assert |V - leaves| < |V| by { SmallerDifference(V, leaves); }
      Residue(edges, V - leaves)
  }

  lemma SmallerDifference<T>(a: set<T>, b: set<T>)
    requires b <= a && b != {}
    ensures |a - b| < |a|
  {
    assert a == (a - b) + b;
  }

  /** v is in layer k. */
  ghost predicate InLayer(edges: Adjacency, V: set<ObjMetadata>, v: ObjMetadata, k: int)
    requires V <= edges.Keys
  {
    0 <= k < |LayersOf(edges, V)| && v in LayersOf(edges, V)[k]
  }

  /** Membership one round later. */
  lemma InLayerShift(edges: Adjacency, V: set<ObjMetadata>, v: ObjMetadata, k: int)
    requires V <= edges.Keys && Leaves(edges, V) != {}
    ensures InLayer(edges, V, v, k) <==>
      if k == 0 then v in Leaves(edges, V) else InLayer(edges, V - Leaves(edges, V), v, k - 1)
    ensures Residue(edges, V) == Residue(edges, V - Leaves(edges, V))
  {
    assert LayersOf(edges, V) == [Leaves(edges, V)] + LayersOf(edges, V - Leaves(edges, V));
  }

  /** Each vertex is in one layer or in the residue, never in two places. */
  lemma {:induction false} LayersPartition(edges: Adjacency, V: set<ObjMetadata>, v: ObjMetadata)
    requires V <= edges.Keys
    ensures Residue(edges, V) <= V
    ensures v in V <==> v in Residue(edges, V) || exists k :: InLayer(edges, V, v, k)
    ensures forall k :: InLayer(edges, V, v, k) ==> v !in Residue(edges, V)
    ensures forall j, k :: InLayer(edges, V, v, j) && InLayer(edges, V, v, k) ==> j == k
    decreases |V|
  {
    var leaves := Leaves(edges, V);
    if leaves != {} {
      SmallerDifference(V, leaves);
      LayersPartition(edges, V - leaves, v);
      forall k ensures InLayer(edges, V, v, k) <==> if k == 0 then v in leaves else InLayer(edges, V - leaves, v, k - 1) {
        InLayerShift(edges, V, v, k);
      }
      InLayerShift(edges, V, v, 0);
      NoNegativeLayer(edges, V - leaves, v);
      assert leaves <= V;
      hide LayersOf, Residue, InLayer, Leaves;
      if v in V {
        if v in leaves {
          assert InLayer(edges, V, v, 0);
        } else if v !in Residue(edges, V) {
          var k :| InLayer(edges, V - leaves, v, k);
          assert InLayer(edges, V, v, k + 1);
        }
      }
    }
  }

  lemma NoNegativeLayer(edges: Adjacency, V: set<ObjMetadata>, v: ObjMetadata)
    requires V <= edges.Keys
    ensures forall k :: InLayer(edges, V, v, k) ==> k >= 0 && v in V
    decreases |V|
  {
    var leaves := Leaves(edges, V);
    if leaves != {} {
      SmallerDifference(V, leaves);
      NoNegativeLayer(edges, V - leaves, v);
      forall k | InLayer(edges, V, v, k) ensures k >= 0 && v in V {
        InLayerShift(edges, V, v, k);
      }
    }
  }

  /** All edges of a layered vertex lead to lower layers. */
  lemma {:induction false} EdgesGoDown(edges: Adjacency, V: set<ObjMetadata>, v: ObjMetadata, w: ObjMetadata, k: nat) returns (j: nat)
    requires V <= edges.Keys && InLayer(edges, V, v, k) && v in edges && w in edges[v] && w in V
    ensures j < k && InLayer(edges, V, w, j)
    decreases |V|
  {
    var leaves := Leaves(edges, V);
    SmallerDifference(V, leaves);
    assert LayersOf(edges, V) == [leaves] + LayersOf(edges, V - leaves);
    if w in leaves {
      j := 0;
    } else {
      var h := EdgesGoDown(edges, V - leaves, v, w, k - 1);
      j := h + 1;
    }
  }

  /** A vertex above the bottom has an edge into the layer just below. */
  lemma {:induction false} EdgeJustBelow(edges: Adjacency, V: set<ObjMetadata>, v: ObjMetadata, k: nat) returns (w: ObjMetadata)
    requires V <= edges.Keys && InLayer(edges, V, v, k) && k > 0
    ensures v in edges && w in edges[v] && w in V && InLayer(edges, V, w, k - 1)
    decreases |V|
  {
    var leaves := Leaves(edges, V);
    SmallerDifference(V, leaves);
    assert LayersOf(edges, V) == [leaves] + LayersOf(edges, V - leaves);
    LayersPartition(edges, V - leaves, v);
    assert InLayer(edges, V - leaves, v, k - 1);
    if k == 1 {
      assert v in Leaves(edges, V - leaves);
      w :| w in edges[v] && w in V;
    } else {
      w := EdgeJustBelow(edges, V - leaves, v, k - 1);
      assert InLayer(edges, V, w, k - 1);
    }
  }

  /** Every vertex of the residue has an edge inside the residue. */
  lemma {:induction false} ResidueGoesOn(edges: Adjacency, V: set<ObjMetadata>, v: ObjMetadata) returns (w: ObjMetadata)
    requires V <= edges.Keys && v in Residue(edges, V)
    ensures v in edges && w in edges[v] && w in Residue(edges, V)
    decreases |V|
  {
    LayersPartition(edges, V, v);
    var leaves := Leaves(edges, V);
    if leaves == {} {
      assert v !in leaves;
      w :| w in edges[v] && w in V;
    } else {
      SmallerDifference(V, leaves);
      w := ResidueGoesOn(edges, V - leaves, v);
    }
  }

  // ---------- Paths ----------

  /** Each vertex of the path has an edge to the next. */
  ghost predicate Path(edges: Adjacency, path: seq<ObjMetadata>) {
    && |path| > 0
    && (forall i :: 0 <= i < |path| ==> path[i] in edges)
    && (forall i :: 0 <= i < |path| - 1 ==> path[i + 1] in edges[path[i]])
  }

  /** Some path with this many edges starts at v. */
  ghost predicate HasPath(edges: Adjacency, v: ObjMetadata, length: nat) {
    exists path :: Path(edges, path) && path[0] == v && |path| == length + 1
  }

  /** Some path from v meets a vertex twice. */
  ghost predicate ReachesCycle(edges: Adjacency, v: ObjMetadata) {
    exists path, i, j :: Path(edges, path) && path[0] == v && 0 <= i < j < |path| && path[i] == path[j]
  }

  ghost predicate ClosedGraph(edges: Adjacency) {
    forall v, w :: v in edges && w in edges[v] ==> w in edges
  }

  lemma PathCons(edges: Adjacency, v: ObjMetadata, path: seq<ObjMetadata>)
    requires Path(edges, path) && v in edges && path[0] in edges[v]
    ensures Path(edges, [v] + path)
  {
    var p := [v] + path;
    forall i | 0 <= i < |p| - 1 ensures p[i + 1] in edges[p[i]] {
      if i > 0 {
        assert path[i - 1 + 1] in edges[path[i - 1]];
      }
    }
  }

  /** Along a path the layers strictly fall. */
  lemma {:induction false} PathFalls(edges: Adjacency, path: seq<ObjMetadata>, k: nat, i: nat) returns (j: nat)
    requires ClosedGraph(edges) && Path(edges, path) && InLayer(edges, edges.Keys, path[0], k) && i < |path|
    ensures InLayer(edges, edges.Keys, path[i], j) && j + i <= k
  {
    if i == 0 {
      j := k;
    } else {
      var h := PathFalls(edges, path, k, i - 1);
      assert path[i - 1 + 1] in edges[path[i - 1]];
      j := EdgesGoDown(edges, edges.Keys, path[i - 1], path[i], h);
    }
  }

  lemma {:induction false} LayerHasPath(edges: Adjacency, v: ObjMetadata, k: nat)
    requires InLayer(edges, edges.Keys, v, k)
    ensures HasPath(edges, v, k)
    decreases k
  {
    LayersPartition(edges, edges.Keys, v);
    if k == 0 {
      assert Path(edges, [v]);
    } else {
      var w := EdgeJustBelow(edges, edges.Keys, v, k);
      LayerHasPath(edges, w, k - 1);
      var path :| Path(edges, path) && path[0] == w && |path| == k;
      PathCons(edges, v, path);
      assert ([v] + path)[0] == v;
    }
  }

  /** A vertex's layer is the length of its longest path. */
  lemma LayerIsLongestPath(edges: Adjacency, v: ObjMetadata, k: nat)
    requires ClosedGraph(edges) && InLayer(edges, edges.Keys, v, k)
    ensures forall length: nat :: HasPath(edges, v, length) ==> length <= k
    ensures HasPath(edges, v, k)
  {
    LayerHasPath(edges, v, k);
    forall length: nat | HasPath(edges, v, length) ensures length <= k {
      var path :| Path(edges, path) && path[0] == v && |path| == length + 1;
      var j := PathFalls(edges, path, k, length);
    }
  }

  /** From a residue vertex one can walk on inside the residue for as long as one likes. */
  lemma {:induction false} ResidueWalk(edges: Adjacency, v: ObjMetadata, length: nat) returns (path: seq<ObjMetadata>)
    requires v in Residue(edges, edges.Keys)
    ensures Path(edges, path) && path[0] == v && |path| == length + 1
    decreases length
  {
    LayersPartition(edges, edges.Keys, v);
    if length == 0 {
      path := [v];
    } else {
      var w := ResidueGoesOn(edges, edges.Keys, v);
      path := ResidueWalk(edges, w, length - 1);
      PathCons(edges, v, path);
      path := [v] + path;
    }
  }

  /** A path longer than the number of vertices repeats one. */
  lemma LongPathRepeats(edges: Adjacency, path: seq<ObjMetadata>)
    requires Path(edges, path) && |path| > |edges.Keys|
    ensures !NoDup(path)
  {
    if NoDup(path) {
      NoDupCard(path);
      SubsetCard(ToSet(path), edges.Keys);
    }
  }

  /** The residue is exactly the set of vertices that can reach a cycle. */
  lemma ResidueIffReachesCycle(edges: Adjacency, v: ObjMetadata)
    requires ClosedGraph(edges) && v in edges
    ensures v in Residue(edges, edges.Keys) <==> ReachesCycle(edges, v)
  {
    if v in Residue(edges, edges.Keys) {
      var path := ResidueWalk(edges, v, |edges.Keys|);
      LongPathRepeats(edges, path);
    } else {
      LayersPartition(edges, edges.Keys, v);
      var k :| InLayer(edges, edges.Keys, v, k);
      LayeredReachesNoCycle(edges, v, k);
    }
  }

  lemma LayeredReachesNoCycle(edges: Adjacency, v: ObjMetadata, k: nat)
    requires ClosedGraph(edges) && InLayer(edges, edges.Keys, v, k)
    ensures !ReachesCycle(edges, v)
  {
    forall path, i, j | Path(edges, path) && path[0] == v && 0 <= i < j < |path|
      ensures path[i] != path[j]
    {
      PathNoRepeat(edges, path, k, i, j);
    }
  }

  lemma PathNoRepeat(edges: Adjacency, path: seq<ObjMetadata>, k: nat, i: nat, j: nat)
    requires ClosedGraph(edges) && Path(edges, path) && InLayer(edges, edges.Keys, path[0], k)
    requires i < j < |path|
    ensures path[i] != path[j]
  {
    var a := PathFalls(edges, path, k, i);
    var sub := path[i..];
    assert Path(edges, sub) by {
      forall m | 0 <= m < |sub| - 1 ensures sub[m + 1] in edges[sub[m]] {
        assert path[i + m + 1] in edges[path[i + m]];
      }
    }
    var b := PathFalls(edges, sub, a, j - i);
    LayersPartition(edges, edges.Keys, path[i]);
    assert sub[j - i] == path[j];
  }
}
