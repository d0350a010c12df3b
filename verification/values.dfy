/** Values shared by every part of the model: the objects that flow through
    key/value arrays, vertex and edge handles, traversers and the failure
    wrappers used where the Java code throws. */
module Values {

  datatype Option<+T> = None | Some(value: T)

  datatype Result<+T, +E> = Success(value: T) | Failure(error: E)

  /** The capability flags a traversal asks of its traverser representation. */
  datatype Requirement = Bulk | LabeledPath | NestedLoop | Object | OneBulk | Path | SideEffects | SingleLoop

  /** A child traversal, seen from its parent: an identity and the requirements
      it has already aggregated from its own steps. */
  datatype Traversal = Traversal(name: nat, requirements: set<Requirement>)

  /** A handle to a vertex or an edge of the backing graph. */
  datatype Vertex = Vertex(serial: nat)
  datatype Edge = Edge(serial: nat)

  /** A Java object as it appears in a key/value array: `null`, the decoded
      JSON values (strings, numbers, booleans, lists, maps kept as entry
      sequences in iteration order), the reserved keys `T.label`/`Element.LABEL`
      and `T.id`/`Element.ID`, a vertex, or a child traversal. */
  datatype Obj =
    | Null
    | Str(s: string)
    | Num(n: int)
    | Bool(b: bool)
    | List(items: seq<Obj>)
    | Dict(entries: seq<(string, Obj)>)
    | LabelKey
    | IdKey
    | VertexObj(vertex: Vertex)
    | Trav(traversal: Traversal)

  /** The unit of flow: a value and the number of identical traversers it stands for. */
  datatype Traverser = Traverser(value: Obj, bulk: nat)

  /** XOR is its own inverse: either operand is recovered from the result. */
  lemma XorCancels(a: bv32, b: bv32)
    ensures (a ^ b) ^ a == b && (a ^ b) ^ b == a
  {
  }

  /** XOR with a fixed value is injective: equal results come from equal
      operands. */
  lemma XorInjective(s: bv32, a: bv32, b: bv32)
    ensures s ^ a == s ^ b ==> a == b
  {
    XorCancels(s, a);
    XorCancels(s, b);
  }

  /** `label == null ? null : label` as an object. */
  function LabelValue(name: Option<string>): Obj
  {
    match name
    case None => Null
    case Some(s) => Str(s)
  }
}
