/** Names and small sequence facts shared by every component. */
module Base {
  datatype Option<+T> = None | Some(value: T)

  datatype Result<+T, +E> = Ok(value: T) | Err(error: E)

  datatype GroupKind = GroupKind(group: string, kind: string)

  /** The identity of a cluster object: everything but its version. */
  datatype ObjMetadata = ObjMetadata(namespace: string, name: string, groupKind: GroupKind)

  function ToSet<T(==)>(s: seq<T>): set<T> {
    set x | x in s
  }

  ghost predicate NoDup<T>(s: seq<T>) {
    forall i, j :: 0 <= i < j < |s| ==> s[i] != s[j]
  }

  /** The ids seen in a list, less its last element, plus that element. */
  lemma ToSetSnoc<T>(s: seq<T>)
    requires s != []
    ensures ToSet(s) == ToSet(s[..|s| - 1]) + {s[|s| - 1]}
  {
    var p := s[..|s| - 1];
    assert s == p + [s[|s| - 1]];
  }

  lemma NoDupSnoc<T>(s: seq<T>, x: T)
    requires NoDup(s) && x !in s
    ensures NoDup(s + [x])
  {
  }

  lemma {:induction false} NoDupCard<T>(s: seq<T>)
    requires NoDup(s)
    ensures |ToSet(s)| == |s|
  {
    if s != [] {
      var p := s[..|s| - 1];
      NoDupCard(p);
      ToSetSnoc(s);
      assert s[|s| - 1] !in ToSet(p);
    } else {
      assert ToSet(s) == {};
    }
  }

  lemma SubsetCard<T>(a: set<T>, b: set<T>)
    requires a <= b
    ensures |a| <= |b|
  {
    assert b == a + (b - a);
  }
}
