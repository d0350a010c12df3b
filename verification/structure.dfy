/** The backing graph, consumed through its write boundary only. Every write
    is appended to a log; what the storage engine decides for itself (which
    vertex a write creates, how an id resolves to a vertex, whether graph
    memory is supported) is fixed by a `Store` given at construction. */
module Structure {
  import opened Values

  /** One call made against the graph, in the order it was made. */
  datatype Write =
    | AddedVertex(keyValues: seq<Obj>, vertex: Vertex)
    | AddedEdge(outVertex: Vertex, edgeLabel: string, inVertex: Option<Vertex>, keyValues: seq<Obj>)
    | MemorySet(key: string, value: Obj)
    | Committed

  /** The storage engine's own behaviour, as seen from the core: whether it
      supports graph memory, the vertex it creates for a write given the
      writes before it, and the vertex an id resolves to (`null` as `None`). */
  datatype Store = Store(
    supportsMemory: bool,
    newVertex: seq<Write> -> Vertex,
    resolve: (seq<Write>, Obj) -> Option<Vertex>)

  predicate IsCommit(w: Write) { w.Committed? }
  predicate IsMemoryWrite(w: Write) { w.MemorySet? }

  class Graph {
    const store: Store
    var writes: seq<Write>

    constructor (store: Store)
      ensures this.store == store && writes == []
    {
      this.store := store;
      writes := [];
    }

    /** `addVertex(keyValues)`: one vertex write carrying the array as given. */
    method AddVertex(keyValues: seq<Obj>) returns (v: Vertex)
      modifies this`writes
      ensures v == store.newVertex(old(writes))
      ensures writes == old(writes) + [AddedVertex(keyValues, v)]
    {
      v := store.newVertex(writes);
      writes := writes + [AddedVertex(keyValues, v)];
    }

    /** `outVertex.addEdge(label, inVertex, keyValues)`. */
    method AddEdge(outVertex: Vertex, edgeLabel: string, inVertex: Option<Vertex>, keyValues: seq<Obj>)
      modifies this`writes
      ensures writes == old(writes) + [AddedEdge(outVertex, edgeLabel, inVertex, keyValues)]
    {
      writes := writes + [AddedEdge(outVertex, edgeLabel, inVertex, keyValues)];
    }

    /** `v(id)`: the vertex an id resolves to, if any; no write. */
    method V(id: Obj) returns (v: Option<Vertex>)
      ensures v == store.resolve(writes, id)
    {
      v := store.resolve(writes, id);
    }

    /** `memory().set(key, value)`: only a graph that supports memory accepts it. */
    method SetMemory(key: string, value: Obj)
      requires store.supportsMemory
      modifies this`writes
      ensures writes == old(writes) + [MemorySet(key, value)]
    {
      writes := writes + [MemorySet(key, value)];
    }

    /** `tx().commit()`. */
    method Commit()
      modifies this`writes
      ensures writes == old(writes) + [Committed]
    {
      writes := writes + [Committed];
    }
  }
}
