/** What the API server does with the patch operations this webhook emits: the "add" and
    "replace" operations of RFC 6902 (sections 4.1 and 4.3), on the three members of a Pod's
    spec the webhook touches, addressed by RFC 6901 JSON Pointers. */
module JsonPatch {
  import opened Types

  /** A Pod as a JSON document, reduced to the members the webhook patches; each member is
      present or absent. */
  datatype PodDoc = PodDoc(
    volumes: Option<seq<Volume>>,
    containers: Option<seq<Container>>,
    initContainers: Option<seq<Container>>)

  /** The JSON form of a Pod: `volumes` and `initContainers` are omitted when empty (both are
      tagged `omitempty`); `containers` is always written. */
  function DocOf(p: PodValue): PodDoc {
    PodDoc(if p.volumes == [] then None else Some(p.volumes),
           Some(p.containers),
           if p.initContainers == [] then None else Some(p.initContainers))
  }

  /** "add" on a member creates it or overwrites it; "replace" needs it to exist. */
  predicate CanSet<T>(member: Option<seq<T>>, op: string) {
    op == "add" || (op == "replace" && member.Some?)
  }

  /** One operation. A path ending in "/-" appends to an array that must already exist.
      Operations of other shapes are refused; the webhook never emits them. */
  function ApplyOp(doc: PodDoc, op: PatchOp): Result<PodDoc> {
    match op.value
    case VolumeList(vs) =>
      if op.path == "/spec/volumes" && CanSet(doc.volumes, op.op) then Ok(doc.(volumes := Some(vs)))
      else Err("cannot apply " + op.op + " to " + op.path)
    case SingleVolume(v) =>
      if op.path == "/spec/volumes/-" && op.op == "add" && doc.volumes.Some? then
        Ok(doc.(volumes := Some(doc.volumes.value + [v])))
      else Err("cannot apply " + op.op + " to " + op.path)
    case ContainerList(cs) =>
      if op.path == "/spec/containers" && CanSet(doc.containers, op.op) then
        Ok(doc.(containers := Some(cs)))
      else if op.path == "/spec/initContainers" && CanSet(doc.initContainers, op.op) then
        Ok(doc.(initContainers := Some(cs)))
      else Err("cannot apply " + op.op + " to " + op.path)
  }

  /** Operations are applied in order; the first failure fails the whole patch. */
  function ApplyPatch(doc: PodDoc, ops: seq<PatchOp>): Result<PodDoc>
    decreases |ops|
  {
    if ops == [] then Ok(doc)
    else
      match ApplyOp(doc, ops[0])
      case Ok(next) => ApplyPatch(next, ops[1..])
      case Err(e) => Err(e)
  }

  /** A one-operation patch does what its operation does. */
  lemma ApplyPatchSingle(doc: PodDoc, op: PatchOp)
    ensures ApplyPatch(doc, [op]) == ApplyOp(doc, op)
  {
    assert [op][1..] == [];
  }

  /** Applying two patches one after the other is applying their concatenation. */
  lemma {:induction false} ApplyPatchConcat(doc: PodDoc, a: seq<PatchOp>, b: seq<PatchOp>)
    ensures ApplyPatch(doc, a + b) ==
            match ApplyPatch(doc, a)
            case Ok(mid) => ApplyPatch(mid, b)
            case Err(e) => Err(e)
    decreases |a|
  {
    if a != [] {
      assert (a + b)[0] == a[0];
      assert (a + b)[1..] == a[1..] + b;
      match ApplyOp(doc, a[0])
      case Ok(next) => ApplyPatchConcat(next, a[1..], b);
      case Err(e) =>
    } else {
      assert a + b == b;
    }
  }
}
