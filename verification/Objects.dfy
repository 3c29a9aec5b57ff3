/** The parts of a cluster object the engine reads. */
module Objects {
  import opened Base

  /** The apply-time-mutation annotation, already decoded: the objects it reads from. */
  datatype Mutation = NoMutation | MalformedMutation | MutationSources(refs: seq<ObjMetadata>)

  datatype Unstructured = Unstructured(
    id: ObjMetadata,
    uid: string,
    dependsOn: Option<string>,
    mutation: Mutation,
    crdGroupKind: Option<GroupKind>)

  function Ids(objs: seq<Unstructured>): (ids: seq<ObjMetadata>)
    ensures |ids| == |objs|
    ensures forall i :: 0 <= i < |objs| ==> ids[i] == objs[i].id
  {
    seq(|objs|, i requires 0 <= i < |objs| => objs[i].id)
  }
}
