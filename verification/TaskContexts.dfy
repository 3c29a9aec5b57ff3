/** What the tasks of a run share. */
module TaskContexts {
  import opened Base
  import opened Records
  import opened ObjMetadataSets
  import opened Graphs
  import opened InventoryManager
  import opened WaitSpec

  class TaskContext {
    const manager: Manager
    var graph: Graph
    var abandoned: set<ObjMetadata>
    var invalid: set<ObjMetadata>
    var cache: Cache
    var waits: seq<WaitEvent>

    ghost predicate Valid()
      reads this, manager
    {
      manager.Valid()
    }

    constructor ()
      ensures Valid() && fresh(manager) && fresh(graph)
      ensures manager.Contents() == map[] && graph.Value() == EMPTY
      ensures abandoned == {} && invalid == {} && cache == map[] && waits == []
    {
      manager := new Manager();
      graph := new Graph();
      abandoned, invalid, cache, waits := {}, {}, map[], [];
    }

    method SetGraph(g: Graph)
      modifies this`graph
      ensures graph == g
    {
      graph := g;
    }

    method AddAbandonedObject(id: ObjMetadata)
      modifies this`abandoned
      ensures abandoned == old(abandoned) + {id}
    {
      abandoned := abandoned + {id};
    }

    method AddInvalidObject(id: ObjMetadata)
      modifies this`invalid
      ensures invalid == old(invalid) + {id}
    {
      invalid := invalid + {id};
    }

    method AbandonedObjects() returns (ids: seq<ObjMetadata>)
      ensures NoDup(ids) && ToSet(ids) == abandoned
    {
      ids := ListSet(abandoned);
    }

    method InvalidObjects() returns (ids: seq<ObjMetadata>)
      ensures NoDup(ids) && ToSet(ids) == invalid
    {
      ids := ListSet(invalid);
    }
  }
}
