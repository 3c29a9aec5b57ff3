/** Collecting validation errors and the ids they name. */
module Validation {
  import opened Base
  import opened Objects
  import opened ObjMetadataSets
  import opened Solver

  /** A validation error, reduced to the ids it names; other errors name none. */
  datatype Error = Error(ids: seq<ObjMetadata>)

  /** All ids named by some error. */
  function Named(errs: seq<Error>): set<ObjMetadata> {
    if errs == [] then {} else Named(errs[..|errs| - 1]) + ToSet(errs[|errs| - 1].ids)
  }

  lemma {:induction false} NamedConcat(a: seq<Error>, b: seq<Error>)
    ensures Named(a + b) == Named(a) + Named(b)
  {
    if b != [] {
      assert (a + b)[..|a + b| - 1] == a + b[..|b| - 1];
      NamedConcat(a, b[..|b| - 1]);
    } else {
      assert a + b == a;
    }
  }

  class Collector {
    var errors: seq<Error>
    var invalidIDs: seq<ObjMetadata>

    /** The invalid ids are those the collected errors name. */
    ghost predicate Valid()
      reads this
    {
      ToSet(invalidIDs) == Named(errors)
    }

    constructor ()
      ensures Valid() && errors == [] && invalidIDs == []
    {
      errors, invalidIDs := [], [];
    }

    method Collect(errs: seq<Error>)
      requires Valid()
      modifies this
      ensures Valid() && errors == old(errors) + errs && NoDup(invalidIDs)
      ensures ToSet(invalidIDs) == old(ToSet(invalidIDs)) + Named(errs)
    {
      var found := ExtractInvalidIDs(errs);
      NamedConcat(errors, errs);
      invalidIDs := Union(invalidIDs, found);
      errors := errors + errs;
    }

    method FilterInvalidObjects(objs: seq<Unstructured>) returns (diff: seq<Unstructured>)
      ensures diff == FilterOut(objs, ToSet(invalidIDs))
    {
      diff := [];
      for i := 0 to |objs|
        invariant diff == FilterOut(objs[..i], ToSet(invalidIDs))
      {
        assert objs[..i + 1][..i] == objs[..i];
        if objs[i].id !in invalidIDs {
          diff := diff + [objs[i]];
        }
      }
      assert objs[..|objs|] == objs;
    }

    method FilterInvalidIds(ids: seq<ObjMetadata>) returns (diff: seq<ObjMetadata>)
      ensures diff == Pick(ids, ToSet(ids) - ToSet(invalidIDs))
    {
      diff := Diff(ids, invalidIDs);
    }
  }

  method ExtractInvalidIDs(errs: seq<Error>) returns (ids: seq<ObjMetadata>)
    ensures NoDup(ids) && ToSet(ids) == Named(errs)
  {
    ids := [];
    for i := 0 to |errs|
      invariant NoDup(ids) && ToSet(ids) == Named(errs[..i])
    {
      assert errs[..i + 1][..i] == errs[..i];
      ids := Union(ids, errs[i].ids);
    }
    assert errs[..|errs|] == errs;
  }

  /** Filtering what is already valid changes nothing. */
  lemma {:induction false} FilterAgain(objs: seq<Unstructured>, invalid: set<ObjMetadata>)
    requires forall o :: o in objs ==> o.id !in invalid
    ensures FilterOut(objs, invalid) == objs
  {
    if objs != [] {
      FilterAgain(objs[..|objs| - 1], invalid);
    }
  }

  lemma {:induction false} PickAll<T>(s: seq<T>, w: set<T>)
    requires NoDup(s) && ToSet(s) <= w
    ensures Pick(s, w) == s
  {
    if s != [] {
      ToSetSnoc(s);
      PickAll(s[..|s| - 1], w);
    }
  }

  /** Filtering in two goes, with more known to be invalid the second time, is filtering once. */
  lemma {:induction false} FilterTwice(objs: seq<Unstructured>, some: set<ObjMetadata>, all: set<ObjMetadata>)
    requires some <= all
    ensures FilterOut(FilterOut(objs, some), all) == FilterOut(objs, all)
  {
    if objs != [] {
      var front, obj := objs[..|objs| - 1], objs[|objs| - 1];
      FilterTwice(front, some, all);
      if obj.id !in some {
        var f := FilterOut(front, some);
        assert (f + [obj])[..|f|] == f;
      }
    }
  }
}
