/** Ordered lists of ids used as sets. */
module ObjMetadataSets {
  import opened Base

  /** The first position of x, or |s|. */
  function Find<T(==)>(s: seq<T>, x: T): (k: nat)
    ensures k <= |s|
    ensures k < |s| ==> s[k] == x
    ensures x !in s[..k]
    ensures k < |s| <==> x in s
  {
    if s == [] then 0
    else if s[0] == x then 0
    else
      var k := 1 + Find(s[1..], x);
      assert s[..k] == [s[0]] + s[1..][..k - 1];
      k
  }

  /** Drops one occurrence of x by moving the last element into its place. */
  function Remove<T(==)>(s: seq<T>, x: T): seq<T> {
    var k := Find(s, x);
    if k == |s| then s else s[k := s[|s| - 1]][..|s| - 1]
  }

  /** On a list without duplicates, removing is set difference. */
  lemma RemoveIsDifference<T>(s: seq<T>, x: T)
    requires NoDup(s)
    ensures NoDup(Remove(s, x))
    ensures ToSet(Remove(s, x)) == ToSet(s) - {x}
    ensures forall y :: y in Remove(s, x) <==> y in s && y != x
  {
    var k := Find(s, x);
    var r := Remove(s, x);
    if k < |s| {
      forall y | y in s && y != x ensures y in r {
        var i :| 0 <= i < |s| && s[i] == y;
        if i == |s| - 1 {
          assert r[k] == y;
        } else {
          assert r[i] == y;
        }
      }
    }
  }

  /** The same on a slice of an array: the dropped occurrence is swapped out past the new end. */
  method RemoveInPlace<T(==)>(a: array<T>, n: nat, x: T) returns (m: nat)
    requires n <= a.Length
    modifies a
    ensures m <= n && a[..m] == Remove(old(a[..n]), x)
    ensures multiset(a[..n]) == multiset(old(a[..n])) && a[n..] == old(a[n..])
    ensures m < n <==> x in old(a[..n])
  {
    for i := 0 to n
      invariant a[..] == old(a[..])
      invariant x !in a[..i]
    {
      if a[i] == x {
        SwapOut(a, n, i, x);
        return n - 1;
      }
    }
    assert x !in a[..n] && Find(a[..n], x) == n;
    m := n;
  }

  method Swap<T>(a: array<T>, n: nat, i: nat)
    requires i < n <= a.Length
    modifies a
    ensures a[..n] == old(a[..n][i := a[n - 1]][n - 1 := a[i]])
    ensures a[..n][..n - 1] == a[..n - 1] && a[n..] == old(a[n..])
  {
    a[n - 1], a[i] := a[i], a[n - 1];
  }

  /** Swaps the element at i with the last one of the slice. */
  method SwapOut<T(==)>(a: array<T>, n: nat, i: nat, ghost x: T)
    requires i < n <= a.Length && a[i] == x && x !in a[..i]
    modifies a
    ensures a[..n - 1] == Remove(old(a[..n]), x)
    ensures multiset(a[..n]) == multiset(old(a[..n])) && a[n..] == old(a[n..])
  {
    ghost var s := a[..n];
    assert s[..i] == a[..i] && s[i] == x && s[|s| - 1] == a[n - 1];
    RemoveSwap(s, x, i);
    ghost var t := s[i := s[|s| - 1]][|s| - 1 := x];
    hide *;
    Swap(a, n, i);
    assert a[..n] == t;
  }

  /** Swapping the found element with the last one, then dropping the last, is removing it. */
  lemma RemoveSwap<T>(s: seq<T>, x: T, i: nat)
    requires i < |s| && s[i] == x && x !in s[..i]
    ensures var t := s[i := s[|s| - 1]][|s| - 1 := x];
      Remove(s, x) == t[..|s| - 1] && multiset(t) == multiset(s)
  {
    FindAt(s, x, i);
  }

  lemma {:induction false} FindAt<T>(s: seq<T>, x: T, i: nat)
    requires i < |s| && s[i] == x && x !in s[..i]
    ensures Find(s, x) == i
  {
    assert i > 0 ==> s[..i][0] == s[0];
    if s[0] != x {
      assert s[1..][..i - 1] == s[..i][1..];
      FindAt(s[1..], x, i - 1);
    }
  }

  // ---------- Union, intersection, difference ----------

  /** The elements of s that are in w, each at its first occurrence. */
  function Pick<T(==)>(s: seq<T>, w: set<T>): seq<T> {
    if s == [] then []
    else
      var front, x := s[..|s| - 1], s[|s| - 1];
      if x in w && x !in front then Pick(front, w) + [x] else Pick(front, w)
  }

  lemma FindSnoc<T>(s: seq<T>, y: T)
    requires s != [] && y in s[..|s| - 1]
    ensures Find(s, y) == Find(s[..|s| - 1], y) < |s| - 1
  {
    var front := s[..|s| - 1];
    var k := Find(front, y);
    assert s[..k] == front[..k];
    FindAt(s, y, k);
  }

  /** Picking lists a set without repetition and keeps the order of first occurrences. */
  lemma {:induction false} PickFacts<T>(s: seq<T>, w: set<T>)
    ensures NoDup(Pick(s, w)) && ToSet(Pick(s, w)) == ToSet(s) * w
    ensures forall i, j :: 0 <= i < j < |Pick(s, w)| ==> Find(s, Pick(s, w)[i]) < Find(s, Pick(s, w)[j])
  {
    if s != [] {
      var front, x := s[..|s| - 1], s[|s| - 1];
      PickFacts(front, w);
      ToSetSnoc(s);
      var r, p := Pick(s, w), Pick(front, w);
      hide Find;
      forall i | 0 <= i < |p| ensures p[i] in front && Find(s, p[i]) == Find(front, p[i]) < |front| {
        assert p[i] in ToSet(p);
        FindSnoc(s, p[i]);
      }
      if x in w && x !in front {
        FindAt(s, x, |front|);
        ToSetSnoc(r);
        assert r[..|r| - 1] == p;
      }
    }
  }

  lemma PickStep<T>(s: seq<T>, w: set<T>, i: nat)
    requires i < |s|
    ensures Pick(s[..i + 1], w) == if s[i] in w && s[i] !in s[..i] then Pick(s[..i], w) + [s[i]] else Pick(s[..i], w)
    ensures ToSet(s[..i + 1]) == ToSet(s[..i]) + {s[i]}
  {
    assert s[..i + 1][..i] == s[..i];
    ToSetSnoc(s[..i + 1]);
  }

  lemma PickNext<T>(s: seq<T>, w: set<T>, b: seq<T>, i: nat)
    requires i < |b|
    ensures b[i] in w - ToSet(s + b[..i]) ==> Pick(s + b[..i + 1], w) == Pick(s + b[..i], w) + [b[i]]
    ensures b[i] !in w - ToSet(s + b[..i]) ==> Pick(s + b[..i + 1], w) == Pick(s + b[..i], w)
    ensures ToSet(s + b[..i + 1]) == ToSet(s + b[..i]) + {b[i]}
  {
    assert (s + b)[..|s| + i] == s + b[..i] && (s + b)[..|s| + i + 1] == s + b[..i + 1];
    PickStep(s + b, w, |s| + i);
    hide Pick;
  }

  /** One of the loops that list a set: appends the wanted elements of b, each taken out of m once listed. */
  method PickLoop<T(==)>(ghost s: seq<T>, ghost w: set<T>, r0: seq<T>, m0: set<T>, b: seq<T>) returns (r: seq<T>, m: set<T>)
    requires r0 == Pick(s, w) && m0 == w - ToSet(s)
    ensures r == Pick(s + b, w) && m == w - ToSet(s + b)
  {
    hide Pick, ToSet;
    r, m := r0, m0;
    assert s + b[..0] == s && b[..|b|] == b;
    for i := 0 to |b|
      invariant r == Pick(s + b[..i], w) && m == w - ToSet(s + b[..i])
    {
      PickNext(s, w, b, i);
      if b[i] in m {
        r, m := r + [b[i]], m - {b[i]};
      }
    }
  }

  /** The elements of both lists, in order, each once. */
  method Union<T(==)>(a: seq<T>, b: seq<T>) returns (r: seq<T>)
    ensures NoDup(r) && ToSet(r) == ToSet(a) + ToSet(b)
    ensures r == Pick(a + b, ToSet(a) + ToSet(b))
  {
    ghost var w := ToSet(a) + ToSet(b);
    PickFacts(a + b, w);
    assert ToSet(a + b) == w && [] + a == a;
    var m := ToSet(a) + ToSet(b);
    r, m := PickLoop([], w, [], m, a);
    r, m := PickLoop(a, w, r, m, b);
  }

  /** The elements of a that are also in b, in a's order, each once.  (The source then scans b as well,
      but by that time its map of wanted ids is empty.) */
  method Intersection<T(==)>(a: seq<T>, b: seq<T>) returns (r: seq<T>)
    ensures NoDup(r) && ToSet(r) == ToSet(a) * ToSet(b)
    ensures r == Pick(a, ToSet(a) * ToSet(b))
  {
    ghost var w := ToSet(a) * ToSet(b);
    PickFacts(a, w);
    assert [] + a == a;
    var m := ToSet(a) * ToSet(b);
    r, m := PickLoop([], w, [], m, a);
  }

  /** The elements of a that are not in b, in a's order, each once. */
  method Diff<T(==)>(a: seq<T>, b: seq<T>) returns (r: seq<T>)
    ensures NoDup(r) && ToSet(r) == ToSet(a) - ToSet(b)
    ensures r == Pick(a, ToSet(a) - ToSet(b))
  {
    ghost var w := ToSet(a) - ToSet(b);
    PickFacts(a, w);
    var m := ToSet(a);
    for i := 0 to |b|
      invariant m == ToSet(a) - ToSet(b[..i])
    {
      PickStep(b, {}, i);
      m := m - {b[i]};
    }
    assert b[..|b|] == b;
    assert [] + a == a;
    r, m := PickLoop([], w, [], m, a);
  }

  /** Lists a set in whatever order a map yields it. */
  method ListSet<T(==)>(s: set<T>) returns (ids: seq<T>)
    ensures NoDup(ids) && ToSet(ids) == s
  {
    ids := [];
    var todo := s;
    while todo != {}
      invariant todo <= s && NoDup(ids) && ToSet(ids) == s - todo
      decreases |todo|
    {
      var id :| id in todo;
      assert id !in ToSet(ids);
      assert todo == (todo - {id}) + {id};
      ids := ids + [id];
      ToSetSnoc(ids);
      todo := todo - {id};
    }
  }
}
