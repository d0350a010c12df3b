# Vertex-writing steps and the GraphSON reader, modelled in Dafny

This project models three small parts of TinkerPop that write vertices
(and, for the reader, edges) into a graph:

- `AddVertexStartStep` is a fire-once source step. It holds a flat
  key/value list, seeded with `T.label, label`, that `addPropertyMutations`
  extends. Its first pull writes one vertex from that list and emits it with
  bulk 1. Every later pull raises the exhaustion signal
  (`FastNoSuchElementException`). It creates its callback registry lazily,
  and its `hashCode` XORs the hash of every list item into the inherited
  hash.
- `AddVertexStep` is a one-to-one map step. It keeps its property bindings
  in a `Parameters` table, which `addPropertyMutations` fills pairwise. Each
  `map` call writes one vertex, using the table evaluated against that
  traverser, tells the listeners and returns the vertex.
- `GraphSONReader` turns decoded GraphSON documents into graph writes or
  into calls to caller-supplied vertex and edge makers:
  - `readGraph` dispatches on the top-level fields `properties`, `vertices`
    and `edges`, then commits once;
  - `readVertex` comes in a plain and a directional overload, the latter
    also reading the incident edge lists;
  - `readEdge` reads one edge;
  - `Builder.customSerializer` and `Builder.build` set up a reader.

The graph is seen only through the calls made against it. `Structure.Graph`
appends each `addVertex`, `addEdge`, `memory().set` and `tx().commit()` to a
write log. What the storage engine decides for itself is fixed by a `Store`
value:
- which vertex a write creates;
- which vertex an id resolves to;
- whether graph memory is supported.

Listener delivery is an `Events.EventLog` of `(callback, event)` pairs.
Java exceptions become `Result`/`Option` failures:
- `NoSuchElement` for the exhaustion signal;
- `ListenerFailed` when a callback throws;
- `NullPointer`, `ClassCast`, `IOError` and `IllegalArgument` for the
  reader's null dereferences, failed casts, mapping failures and missing
  argument.

A decoded JSON object is a `Dict` holding its entries in iteration order, so
the order of every stream over a map is explicit.

Each imperative operation is a method proved against a specification
function. The properties of those functions are separate lemmas, for example:
- `ReadGraph` against `ReadGraphSpec`, whose properties are
  `ReadGraphCommitsOnce` and `UnrecognisedFieldsIgnored`;
- `ReadEdgeList` against `EdgeListCalls` and `EdgeCallsInOrder`;
- `Notify` against `Broadcast` and `BroadcastInOrder`;
- `FoldHashes` against `XorAll` and `XorAllPermutation`.

`AddVertexStartStep.reset()` is modelled as written: it sets `first` to
false. After a reset, the next pull is therefore exhausted, even on a step
that never fired. One would expect `reset` to re-arm the step for another
pull. The code sets `first` to false, and the model follows the code.

The GraphSON field names (`GraphSONModule.TOKEN_*`) are given assumed
spellings, because `GraphSONModule` is not part of this model. The proofs use
only the fact that the names are pairwise distinct.

## Model

| member | source | states |
|---|---|---|
| Structure.Graph.AddVertex | gremlin-core/src/main/java/org/apache/tinkerpop/gremlin/process/traversal/step/map/AddVertexStartStep.java:68 | exactly one vertex write is appended, carrying the array as given; the vertex returned is the engine's choice for the log before the write |
| Structure.Graph.AddEdge | gremlin-core/src/main/java/com/tinkerpop/gremlin/structure/io/graphson/GraphSONReader.java:75 | exactly one edge write is appended, from the out-vertex to the possibly-null in-vertex, with the label and the array |
| Structure.Graph.V | gremlin-core/src/main/java/com/tinkerpop/gremlin/structure/io/graphson/GraphSONReader.java:73-74 | resolving an id writes nothing and yields the engine's resolution, which may be null |
| Structure.Graph.SetMemory | gremlin-core/src/main/java/com/tinkerpop/gremlin/structure/io/graphson/GraphSONReader.java:58 | one memory write of the key and value; callable only on a graph that supports memory |
| Structure.Graph.Commit | gremlin-core/src/main/java/com/tinkerpop/gremlin/structure/io/graphson/GraphSONReader.java:82 | one commit is appended to the log |
| Events.BroadcastInOrder | gremlin-core/src/main/java/org/apache/tinkerpop/gremlin/process/traversal/step/map/AddVertexStartStep.java:69-72 | each callback receives the same event once, in registry order; the first callback that throws ends the broadcast after receiving it; no failure exactly when no callback throws, and then every callback received the event |
| Events.Broadcast | gremlin-core/src/main/java/org/apache/tinkerpop/gremlin/process/traversal/step/map/AddVertexStartStep.java:71 | definition: `forEach(c -> c.accept(e))` over the registry, stopping at the first callback that throws; its properties are stated by `BroadcastInOrder`, and `AddVertexStep.java:76` uses it too |
| Events.CallbackRegistry.constructor | gremlin-core/src/main/java/org/apache/tinkerpop/gremlin/process/traversal/step/map/AddVertexStartStep.java:81 | a new `ListCallbackRegistry` holds no callbacks |
| Events.EventLog.Accept | gremlin-core/src/main/java/org/apache/tinkerpop/gremlin/process/traversal/step/map/AddVertexStartStep.java:71 | `accept` records exactly one delivery of the event to the callback and reports whether the callback threw |
| Events.Notify | gremlin-core/src/main/java/org/apache/tinkerpop/gremlin/process/traversal/step/map/AddVertexStep.java:74-77 | the `forEach` loop delivers exactly what `Broadcast` (and so `BroadcastInOrder`) describes and reports its failing callback |
| StepParameters.Flatten | gremlin-core/src/main/java/org/apache/tinkerpop/gremlin/process/traversal/step/map/AddVertexStep.java:59-61 | the evaluated table has length twice the number of bindings, the i-th key at position 2i and its provider's value for the traverser right after it |
| StepParameters.BoundChildren | gremlin-core/src/main/java/org/apache/tinkerpop/gremlin/process/traversal/step/map/AddVertexStep.java:54-56 | a traversal is a child exactly when some binding's provider is bound to it |
| StepParameters.ConstantsIgnoreTraverser | gremlin-core/src/main/java/org/apache/tinkerpop/gremlin/process/traversal/step/map/AddVertexStep.java:59-61 | a table of constants flattens alike for every traverser, the empty one included, and has no children |
| StepParameters.Parameters.constructor | gremlin-core/src/main/java/org/apache/tinkerpop/gremlin/process/traversal/step/map/AddVertexStep.java:44 | a new table has no bindings and no recorded calls |
| StepParameters.Parameters.Set | gremlin-core/src/main/java/org/apache/tinkerpop/gremlin/process/traversal/step/map/AddVertexStep.java:66 | `set` appends one binding, a traversal value becoming a traversal-bound provider, and records the call |
| StepParameters.Parameters.IntegrateTraversals | gremlin-core/src/main/java/org/apache/tinkerpop/gremlin/process/traversal/step/map/AddVertexStep.java:68 | `integrateTraversals` is recorded and leaves the bindings unchanged |
| StartStep.XorAllAppend | gremlin-core/src/main/java/org/apache/tinkerpop/gremlin/process/traversal/step/map/AddVertexStartStep.java:88-90 | the hash of a concatenation is the XOR of the hashes of its parts |
| StartStep.XorAllPermutation | gremlin-core/src/main/java/org/apache/tinkerpop/gremlin/process/traversal/step/map/AddVertexStartStep.java:86-92 | two lists with the same multiset of items have the same hash, whatever their order |
| StartStep.FoldIsXor | gremlin-core/src/main/java/org/apache/tinkerpop/gremlin/process/traversal/step/map/AddVertexStartStep.java:88-90 | the in-order `result ^= item.hashCode()` fold equals the seed XOR the order-free hash of all items |
| StartStep.FoldHashes | gremlin-core/src/main/java/org/apache/tinkerpop/gremlin/process/traversal/step/map/AddVertexStartStep.java:87-91 | the loop fails with a null dereference exactly when some item is null, and otherwise yields the seed XOR the hash of every item |
| StartStep.AddVertexStartStep.constructor | gremlin-core/src/main/java/org/apache/tinkerpop/gremlin/process/traversal/step/map/AddVertexStartStep.java:47-53 | a non-null label seeds the list with exactly `T.label, label`; a null label leaves it empty; the step is unfired and has no registry |
| StartStep.AddVertexStartStep.GetKeyValues | gremlin-core/src/main/java/org/apache/tinkerpop/gremlin/process/traversal/step/map/AddVertexStartStep.java:55-57 | the array returned is the list, in order |
| StartStep.AddVertexStartStep.AddPropertyMutations | gremlin-core/src/main/java/org/apache/tinkerpop/gremlin/process/traversal/step/map/AddVertexStartStep.java:59-62 | the list becomes the old list followed by the arguments in argument order; existing entries are unchanged |
| StartStep.AddVertexStartStep.ProcessNextStart | gremlin-core/src/main/java/org/apache/tinkerpop/gremlin/process/traversal/step/map/AddVertexStartStep.java:64-77 | the first pull writes exactly one vertex from the current list, broadcasts it if a registry exists, and emits that vertex with bulk 1; any later pull raises the exhaustion signal with no write and no delivery; afterwards the step is fired |
| StartStep.AddVertexStartStep.GetMutatingCallbackRegistry | gremlin-core/src/main/java/org/apache/tinkerpop/gremlin/process/traversal/step/map/AddVertexStartStep.java:79-83 | the first call creates an empty registry; every call returns the registry the step holds, the same one once it exists |
| StartStep.AddVertexStartStep.HashCode | gremlin-core/src/main/java/org/apache/tinkerpop/gremlin/process/traversal/step/map/AddVertexStartStep.java:85-92 | the inherited hash XOR the hash of every list item, hence order-independent; a null item makes it throw |
| StartStep.AddVertexStartStep.Reset | gremlin-core/src/main/java/org/apache/tinkerpop/gremlin/process/traversal/step/map/AddVertexStartStep.java:94-98 | after a reset the step counts as fired, so the next pull is exhausted |
| MapStep.PairsUpTo | gremlin-core/src/main/java/org/apache/tinkerpop/gremlin/process/traversal/step/map/AddVertexStep.java:65-67 | the j-th pair the loop visits is `(kvs[2j], kvs[2j + 1])`, in increasing order |
| MapStep.BindingsOf | gremlin-core/src/main/java/org/apache/tinkerpop/gremlin/process/traversal/step/map/AddVertexStep.java:66 | one binding per pair, in pair order, with the pair's key and the provider of its value |
| MapStep.SetCallsOf | gremlin-core/src/main/java/org/apache/tinkerpop/gremlin/process/traversal/step/map/AddVertexStep.java:66 | one `set(key, value)` call per pair, in pair order |
| MapStep.PairsRoundTrip | gremlin-core/src/main/java/org/apache/tinkerpop/gremlin/process/traversal/step/map/AddVertexStep.java:65-67 | pairing an even-length array loses nothing: every entry is the key or value of its pair |
| MapStep.ConstantPairsFlattenBack | gremlin-core/src/main/java/org/apache/tinkerpop/gremlin/process/traversal/step/map/AddVertexStep.java:63-68 | adding an even-length array of constant pairs makes the evaluated table grow by exactly that array |
| MapStep.ChildRequirements | gremlin-core/src/main/java/org/apache/tinkerpop/gremlin/process/traversal/step/map/AddVertexStep.java:92-95 | a requirement is aggregated exactly when some child traversal declares it |
| MapStep.AddVertexStep.constructor | gremlin-core/src/main/java/org/apache/tinkerpop/gremlin/process/traversal/step/map/AddVertexStep.java:47-51 | the table holds exactly the label binding (even for a null label), set first and then integrated |
| MapStep.AddVertexStep.GetLocalChildren | gremlin-core/src/main/java/org/apache/tinkerpop/gremlin/process/traversal/step/map/AddVertexStep.java:53-56 | the children are exactly the traversals bound in the table |
| MapStep.AddVertexStep.GetKeyValues | gremlin-core/src/main/java/org/apache/tinkerpop/gremlin/process/traversal/step/map/AddVertexStep.java:59-61 | the table evaluated against the empty traverser, keys at even positions each followed by its value; no write is made |
| MapStep.AddVertexStep.AddPropertyMutations | gremlin-core/src/main/java/org/apache/tinkerpop/gremlin/process/traversal/step/map/AddVertexStep.java:63-69 | every complete pair is set in increasing order, then the traversals are integrated once; an odd length fails on the read past the end, after the complete pairs, without integrating |
| MapStep.AddVertexStep.SetPairs | gremlin-core/src/main/java/org/apache/tinkerpop/gremlin/process/traversal/step/map/AddVertexStep.java:65-67 | the table gains one binding and one `set` call per complete pair of the arguments, in argument order, after what it already held |
| MapStep.AddVertexStep.Map | gremlin-core/src/main/java/org/apache/tinkerpop/gremlin/process/traversal/step/map/AddVertexStep.java:71-79 | exactly one vertex write, from the table evaluated against this traverser; the listeners hear of it only if a registry exists; the vertex returned is the one written |
| MapStep.AddVertexStep.GetMutatingCallbackRegistry | gremlin-core/src/main/java/org/apache/tinkerpop/gremlin/process/traversal/step/map/AddVertexStep.java:81-85 | the first call creates an empty registry; every call returns the registry the step holds, the same one once it exists |
| MapStep.AddVertexStep.HashCode | gremlin-core/src/main/java/org/apache/tinkerpop/gremlin/process/traversal/step/map/AddVertexStep.java:87-90 | definition: `super.hashCode() ^ parameters.hashCode()`; its property is `HashCodeSeparatesTables`: with the same inherited hash, step hashes are equal exactly when table hashes are |
| MapStep.EqualTablesHashAlike | gremlin-core/src/main/java/org/apache/tinkerpop/gremlin/process/traversal/step/map/AddVertexStep.java:87-90 | two steps with the same inherited hash and equally hashed tables have equal hashes |
| MapStep.HashCodeRecoversTable | gremlin-core/src/main/java/org/apache/tinkerpop/gremlin/process/traversal/step/map/AddVertexStep.java:87-90 | equal step hashes over the same inherited hash imply equal table hashes |
| MapStep.HashCodeSeparatesTables | gremlin-core/src/main/java/org/apache/tinkerpop/gremlin/process/traversal/step/map/AddVertexStep.java:87-90 | two steps with the same inherited hash have equal hashes exactly when their tables have equal hashes: the table's hash is folded in without loss |
| MapStep.AddVertexStep.GetRequirements | gremlin-core/src/main/java/org/apache/tinkerpop/gremlin/process/traversal/step/map/AddVertexStep.java:92-95 | a requirement is reported exactly when some local child declares it |
| StartStep.XorAll | gremlin-core/src/main/java/org/apache/tinkerpop/gremlin/process/traversal/step/map/AddVertexStartStep.java:85-92 | the order-free XOR of the hashes of the list items, which `FoldIsXor` and `XorAllPermutation` relate to the loop and to reordering |
| Events.CallbackRegistry.AddCallback | gremlin-core/src/main/java/org/apache/tinkerpop/gremlin/process/traversal/step/map/AddVertexStartStep.java:71 | registering a callback appends it after those already registered, so delivery follows registration order |
| GraphSON.WithProperties | gremlin-core/src/main/java/com/tinkerpop/gremlin/structure/io/graphson/GraphSONReader.java:143-154 | the property pairs of a record followed by a given tail; the `properties` map is cast and dereferenced before its records (see `WithPropertiesShape`) |
| GraphSON.GraphVertexArgs | gremlin-core/src/main/java/com/tinkerpop/gremlin/structure/io/graphson/GraphSONReader.java:63-64 | the `readGraph` vertex array: property pairs, then the label pair, then the id pair (see `GraphVertexArgsShape`) |
| GraphSON.GraphEdgeArgs | gremlin-core/src/main/java/com/tinkerpop/gremlin/structure/io/graphson/GraphSONReader.java:71-72 | the `readGraph` edge array: property pairs, then the id pair (see `GraphEdgeArgsShape`) |
| GraphSON.MakerVertexArgs | gremlin-core/src/main/java/com/tinkerpop/gremlin/structure/io/graphson/GraphSONReader.java:91-92 | the vertex maker array of both `readVertex` overloads (lines 102-103 alike): property pairs, then the label pair only (see `MakerVertexArgsHaveNoId`) |
| GraphSON.MakerEdgeArgs | gremlin-core/src/main/java/com/tinkerpop/gremlin/structure/io/graphson/GraphSONReader.java:146-147 | the edge maker array of `readEdge` and the edge lists: property pairs only (see `MakerEdgeArgsArePropertiesOnly`) |
| GraphSON.VertexWrite | gremlin-core/src/main/java/com/tinkerpop/gremlin/structure/io/graphson/GraphSONReader.java:61-65 | a vertex record decodes, builds its array and becomes one vertex write, in that order of failure |
| GraphSON.EdgeWrite | gremlin-core/src/main/java/com/tinkerpop/gremlin/structure/io/graphson/GraphSONReader.java:69-75 | an edge record decodes and builds its array, resolves out and then in, renders the label, and only then dereferences the out-vertex; an unresolved in-vertex is passed on |
| GraphSON.ReadRecords | gremlin-core/src/main/java/com/tinkerpop/gremlin/structure/io/graphson/GraphSONReader.java:60-76 | one write per record in array order until a record fails (see `ReadRecordsOutcome`, `ReadRecordsOneWriteEach`) |
| GraphSON.MemoryWrites | gremlin-core/src/main/java/com/tinkerpop/gremlin/structure/io/graphson/GraphSONReader.java:55-58 | graph properties are decoded as a map first; only a graph supporting memory writes them, and only such a graph dereferences a null map |
| GraphSON.FieldStep | gremlin-core/src/main/java/com/tinkerpop/gremlin/structure/io/graphson/GraphSONReader.java:55-79 | the dispatch of one top-level field on its name; other names are skipped (see `FieldStepExtends`) |
| GraphSON.ReadFields | gremlin-core/src/main/java/com/tinkerpop/gremlin/structure/io/graphson/GraphSONReader.java:51-80 | the field loop in document order until a field fails (see `ReadFieldsExtends`, `UnrecognisedFieldsIgnored`) |
| GraphSON.ReadGraphSpec | gremlin-core/src/main/java/com/tinkerpop/gremlin/structure/io/graphson/GraphSONReader.java:48-82 | `readGraph` as a whole: a non-object fails first, otherwise the fields and then one commit (see `ReadGraphCommitsOnce`) |
| GraphSON.EdgeCalls | gremlin-core/src/main/java/com/tinkerpop/gremlin/structure/io/graphson/GraphSONReader.java:117-126 | one edge maker call per list element in order until one fails (see `EdgeCallsInOrder`) |
| GraphSON.EdgeListCalls | gremlin-core/src/main/java/com/tinkerpop/gremlin/structure/io/graphson/GraphSONReader.java:115-141 | the edge list under a key: a null list fails on iteration, a non-list fails the cast, a list is read element by element |
| GraphSON.DirectedEdgeCalls | gremlin-core/src/main/java/com/tinkerpop/gremlin/structure/io/graphson/GraphSONReader.java:106-110 | the out list is read exactly when its key is present and the direction is out or both, then the in list likewise (see `BothIsOutThenIn`) |
| GraphSON.VertexCall | gremlin-core/src/main/java/com/tinkerpop/gremlin/structure/io/graphson/GraphSONReader.java:89-93 | definition: the vertex maker call of `readVertex`: decode first, then build the label-and-properties array, then call the maker with the record's id; the first failure in that order is the result (see `GraphSONReader.ReadVertex`) |
| GraphSON.EdgeCall | gremlin-core/src/main/java/com/tinkerpop/gremlin/structure/io/graphson/GraphSONReader.java:118-125 | definition: the edge maker call for an edge record: the property array is built before the label is rendered, so a bad `properties` map fails before a null label; the id, out-id and in-id are passed as found (see `EdgeCallCarriesPropertiesOnly`) |
| GraphSON.ListedEdgeCall | gremlin-core/src/main/java/com/tinkerpop/gremlin/structure/io/graphson/GraphSONReader.java:117-125 | definition: an element of an edge list is cast to a map before it is read as an edge record, so a non-map element fails the cast and a null element fails on the dereference (see `EdgeCallsInOrder`) |
| GraphSON.VertexWithEdgesCalls | gremlin-core/src/main/java/com/tinkerpop/gremlin/structure/io/graphson/GraphSONReader.java:100-112 | definition: the directional `readVertex` makes the vertex call, then the edge-list calls the direction selects (see `VertexWithEdgesStartsWithVertex` and `BothIsOutThenIn`) |
| GraphSON.WithVertex | gremlin-core/src/main/java/com/tinkerpop/gremlin/structure/io/graphson/GraphSONReader.java:100-110 | definition: a failed vertex call ends the read before any edge call; a successful one is followed by the edge calls and their failure, if any (see `VertexWithEdgesStartsWithVertex`) |
| GraphSON.EdgeReadCall | gremlin-core/src/main/java/com/tinkerpop/gremlin/structure/io/graphson/GraphSONReader.java:145-153 | definition: the edge maker call of `readEdge`: decode first, then as `EdgeCall` (see `GraphSONReader.ReadEdge`) |
| GraphSON.GetFindsFirst | gremlin-core/src/main/java/com/tinkerpop/gremlin/structure/io/graphson/GraphSONReader.java:62 | `get` yields the first entry under the key, and null when no entry has it |
| GraphSON.Decoded | gremlin-core/src/main/java/com/tinkerpop/gremlin/structure/io/graphson/GraphSONReader.java:61 | definition: the mapper's read of a record as a map, an object giving its entries, null failing on the dereference and anything else as a mapping failure; its properties are stated by `MapReadsInvertDict` |
| GraphSON.AsMap | gremlin-core/src/main/java/com/tinkerpop/gremlin/structure/io/graphson/GraphSONReader.java:62 | definition: the cast of a value to a map followed by its dereference, null failing on the dereference and any other non-map failing the cast; its properties are stated by `MapReadsInvertDict` |
| GraphSON.MapReadsInvertDict | gremlin-core/src/main/java/com/tinkerpop/gremlin/structure/io/graphson/GraphSONReader.java:61-62 | the mapper's read and the cast each yield `es` exactly when the value is `Dict(es)`; they differ only on a non-null non-map, an I/O failure for the mapper and a cast failure for the cast; only null fails on the dereference |
| GraphSON.PropertyPairs | gremlin-core/src/main/java/com/tinkerpop/gremlin/structure/io/graphson/GraphSONReader.java:63 | the stream yields each property name followed by its record's `value`, in map order, exactly when every record is a map; otherwise it fails with the first bad record's failure |
| GraphSON.WithPropertiesShape | gremlin-core/src/main/java/com/tinkerpop/gremlin/structure/io/graphson/GraphSONReader.java:63-64 | the array is the property pairs followed by the tail, and fails exactly when the property map or one of its records is not a map |
| GraphSON.GraphVertexArgsShape | gremlin-core/src/main/java/com/tinkerpop/gremlin/structure/io/graphson/GraphSONReader.java:60-65 | a vertex record with n properties gives an even array of length 2n + 4 ending in the label pair and then the id pair |
| GraphSON.GraphEdgeArgsShape | gremlin-core/src/main/java/com/tinkerpop/gremlin/structure/io/graphson/GraphSONReader.java:70-72 | an edge record with n properties gives an array of length 2n + 2 ending in the id pair |
| GraphSON.MakerVertexArgsHaveNoId | gremlin-core/src/main/java/com/tinkerpop/gremlin/structure/io/graphson/GraphSONReader.java:89-93 | the vertex maker's array is the property pairs and then the label pair, length 2n + 2, with no id key at any key position |
| GraphSON.MakerEdgeArgsArePropertiesOnly | gremlin-core/src/main/java/com/tinkerpop/gremlin/structure/io/graphson/GraphSONReader.java:146-147 | the edge maker's array has length 2n and a property name at every key position |
| GraphSON.Decimal | gremlin-core/src/main/java/com/tinkerpop/gremlin/structure/io/graphson/GraphSONReader.java:75 | a number's text is a non-empty string of decimal digits without a leading zero |
| GraphSON.DecimalRoundTrip | gremlin-core/src/main/java/com/tinkerpop/gremlin/structure/io/graphson/GraphSONReader.java:75 | reading the digits of a number's text back gives the number |
| GraphSON.LabelOf | gremlin-core/src/main/java/com/tinkerpop/gremlin/structure/io/graphson/GraphSONReader.java:75 | definition: `toString()` of the label, through `JavaString`, after a null check that raises the dereference failure; its properties are stated by `LabelRendering` |
| GraphSON.LabelRendering | gremlin-core/src/main/java/com/tinkerpop/gremlin/structure/io/graphson/GraphSONReader.java:75 | only a null label fails, with a null dereference; a string label renders as itself; an integer label renders as decimal digits, after a minus sign when negative, whose value is the integer's magnitude |
| GraphSON.JavaString | gremlin-core/src/main/java/com/tinkerpop/gremlin/structure/io/graphson/GraphSONReader.java:75 | definition: `String.valueOf` of a decoded JSON value (strings as themselves, integers in decimal, booleans, lists as `[a, b]`, maps as `{k=v}`); `LabelRendering` states what it gives for strings and integers |
| GraphSON.RecordWriterWritesElements | gremlin-core/src/main/java/com/tinkerpop/gremlin/structure/io/graphson/GraphSONReader.java:59-76 | a record of the `vertices` or `edges` field writes only a vertex or an edge |
| GraphSON.MemorySets | gremlin-core/src/main/java/com/tinkerpop/gremlin/structure/io/graphson/GraphSONReader.java:58 | one memory write per graph property, in map order, with its key and value |
| GraphSON.ExtendsTransitive | gremlin-core/src/main/java/com/tinkerpop/gremlin/structure/io/graphson/GraphSONReader.java:51-80 | keeping the earlier writes and adding no commit composes across the field loop |
| GraphSON.ReadRecordsExtends | gremlin-core/src/main/java/com/tinkerpop/gremlin/structure/io/graphson/GraphSONReader.java:60-76 | a record loop keeps the earlier writes and adds neither a commit nor a memory write |
| GraphSON.FieldStepExtends | gremlin-core/src/main/java/com/tinkerpop/gremlin/structure/io/graphson/GraphSONReader.java:55-79 | one field keeps the earlier writes, adds no commit, and adds memory writes only when the graph supports memory |
| GraphSON.ReadFieldsExtends | gremlin-core/src/main/java/com/tinkerpop/gremlin/structure/io/graphson/GraphSONReader.java:51-80 | the whole field loop keeps the earlier writes, adds no commit, and adds memory writes only when the graph supports memory |
| GraphSON.ReadGraphCommitsOnce | gremlin-core/src/main/java/com/tinkerpop/gremlin/structure/io/graphson/GraphSONReader.java:48-82 | a non-object document fails before any write; a read that succeeds commits exactly once, as its last write; a read that fails commits nothing; memory is written only when supported |
| GraphSON.ReadRecordsOutcome | gremlin-core/src/main/java/com/tinkerpop/gremlin/structure/io/graphson/GraphSONReader.java:60-66 | a section writes at most one entry per record and keeps the earlier writes; it writes one per record exactly when none fails; the failing record is the one after the last written |
| GraphSON.ReadRecordsOneWriteEach | gremlin-core/src/main/java/com/tinkerpop/gremlin/structure/io/graphson/GraphSONReader.java:60-76 | the k-th write of a section is the k-th record's own write, against the log the records before it left |
| GraphSON.RecognisedFields | gremlin-core/src/main/java/com/tinkerpop/gremlin/structure/io/graphson/GraphSONReader.java:55-79 | keeps exactly the `properties`, `vertices` and `edges` fields |
| GraphSON.UnrecognisedFieldsIgnored | gremlin-core/src/main/java/com/tinkerpop/gremlin/structure/io/graphson/GraphSONReader.java:77-79 | dropping every other top-level field leaves the outcome of the field loop unchanged |
| GraphSON.EdgeCallsInOrder | gremlin-core/src/main/java/com/tinkerpop/gremlin/structure/io/graphson/GraphSONReader.java:129-141 | an edge list calls the edge maker once per element, in list order, with that element's own call; it stops at the first bad element, with that element's failure, and reaches the end exactly when none is bad |
| GraphSON.EdgeCallCarriesPropertiesOnly | gremlin-core/src/main/java/com/tinkerpop/gremlin/structure/io/graphson/GraphSONReader.java:118-125 | an edge maker call carries the record's id, out-id and in-id and an array of property pairs only, of length 2n |
| GraphSON.VertexWithEdgesStartsWithVertex | gremlin-core/src/main/java/com/tinkerpop/gremlin/structure/io/graphson/GraphSONReader.java:100-104 | the directional read makes the vertex call first, and makes no call at all when that call fails |
| GraphSON.BothIsOutThenIn | gremlin-core/src/main/java/com/tinkerpop/gremlin/structure/io/graphson/GraphSONReader.java:106-110 | reading both directions is the out-only read followed by the in-only read's edge calls, or the out-only read alone when that fails |
| GraphSON.NoEdgeListsNoEdgeCalls | gremlin-core/src/main/java/com/tinkerpop/gremlin/structure/io/graphson/GraphSONReader.java:106-110 | without out and in keys, the directional read is the vertex call alone, whatever the direction |
| GraphSON.Makers.MakeVertex | gremlin-core/src/main/java/com/tinkerpop/gremlin/structure/io/graphson/GraphSONReader.java:93 | one vertex maker call is recorded, and its result is returned |
| GraphSON.Makers.MakeEdge | gremlin-core/src/main/java/com/tinkerpop/gremlin/structure/io/graphson/GraphSONReader.java:148-153 | one edge maker call is recorded, and its result is returned |
| GraphSON.MakeEdgeFrom | gremlin-core/src/main/java/com/tinkerpop/gremlin/structure/io/graphson/GraphSONReader.java:146-153 | an edge record makes its one edge maker call, or no call and fails as the array or the label fails |
| GraphSON.MakeListedEdge | gremlin-core/src/main/java/com/tinkerpop/gremlin/structure/io/graphson/GraphSONReader.java:117-125 | one edge-list element makes its edge maker call, or no call when its cast, array or label fails |
| GraphSON.ReadEdgeList | gremlin-core/src/main/java/com/tinkerpop/gremlin/structure/io/graphson/GraphSONReader.java:130-131 | the edge list under a key makes exactly the calls of `EdgeListCalls`: a null list fails on iteration, a non-list fails the cast |
| GraphSON.ReadEdgeRecords | gremlin-core/src/main/java/com/tinkerpop/gremlin/structure/io/graphson/GraphSONReader.java:131-140 | the `for` loop makes exactly the calls of `EdgeCalls`, and so one call per element in list order up to the first failing element (`EdgeCallsInOrder`) |
| GraphSON.ReadVertexOutEdges | gremlin-core/src/main/java/com/tinkerpop/gremlin/structure/io/graphson/GraphSONReader.java:129-141 | reads the edge list under the out key |
| GraphSON.ReadVertexInEdges | gremlin-core/src/main/java/com/tinkerpop/gremlin/structure/io/graphson/GraphSONReader.java:115-127 | reads the edge list under the in key |
| GraphSON.GraphSONReader.constructor | gremlin-core/src/main/java/com/tinkerpop/gremlin/structure/io/graphson/GraphSONReader.java:34-37 | the reader keeps the graph and the mapper it is given |
| GraphSON.GraphSONReader.ReadVertexRecord | gremlin-core/src/main/java/com/tinkerpop/gremlin/structure/io/graphson/GraphSONReader.java:61-65 | one vertex record makes exactly its one vertex write, or no write and its failure |
| GraphSON.GraphSONReader.ReadEdgeRecord | gremlin-core/src/main/java/com/tinkerpop/gremlin/structure/io/graphson/GraphSONReader.java:69-75 | one edge record makes exactly its one edge write between the resolved ends, or no write and its failure; an unresolved out-vertex fails |
| GraphSON.GraphSONReader.ReadSection | gremlin-core/src/main/java/com/tinkerpop/gremlin/structure/io/graphson/GraphSONReader.java:60-76 | the record loop leaves the log and the failure `ReadRecords` describes |
| GraphSON.GraphSONReader.WriteMemory | gremlin-core/src/main/java/com/tinkerpop/gremlin/structure/io/graphson/GraphSONReader.java:55-58 | the graph properties become memory writes in map order only when memory is supported; a non-object payload fails to decode |
| GraphSON.GraphSONReader.ReadField | gremlin-core/src/main/java/com/tinkerpop/gremlin/structure/io/graphson/GraphSONReader.java:55-79 | one top-level field leaves the log and the failure `FieldStep` describes |
| GraphSON.GraphSONReader.ReadGraph | gremlin-core/src/main/java/com/tinkerpop/gremlin/structure/io/graphson/GraphSONReader.java:40-84 | the field loop and the final commit leave exactly the log and failure of `ReadGraphSpec` (and so of `ReadGraphCommitsOnce`) |
| GraphSON.GraphSONReader.ReadVertex | gremlin-core/src/main/java/com/tinkerpop/gremlin/structure/io/graphson/GraphSONReader.java:87-94 | exactly one vertex maker call, with the record's id and its property-and-label array, whose result is returned; or no call and the failure |
| GraphSON.GraphSONReader.ReadVertexWithEdges | gremlin-core/src/main/java/com/tinkerpop/gremlin/structure/io/graphson/GraphSONReader.java:96-113 | the calls of `VertexWithEdgesCalls`: the vertex first, then the selected edge lists, out before in; the vertex made is the one returned |
| GraphSON.GraphSONReader.ReadDirectedEdges | gremlin-core/src/main/java/com/tinkerpop/gremlin/structure/io/graphson/GraphSONReader.java:106-110 | out-edges are read exactly when the out key is present and the direction is out or both, then in-edges likewise |
| GraphSON.GraphSONReader.ReadEdge | gremlin-core/src/main/java/com/tinkerpop/gremlin/structure/io/graphson/GraphSONReader.java:143-154 | exactly one edge maker call, whose result is returned; or no call and the failure |
| GraphSON.Builder.constructor | gremlin-core/src/main/java/com/tinkerpop/gremlin/structure/io/graphson/GraphSONReader.java:157-162 | a new builder has the graph and the default mapper |
| GraphSON.Builder.CustomSerializer | gremlin-core/src/main/java/com/tinkerpop/gremlin/structure/io/graphson/GraphSONReader.java:164-168 | a missing module raises the illegal-argument failure and leaves the mapper as it was; otherwise the mapper is built around the module and the builder returned |
| GraphSON.Builder.Build | gremlin-core/src/main/java/com/tinkerpop/gremlin/structure/io/graphson/GraphSONReader.java:170-172 | a new reader over the builder's graph and mapper |
| Scenarios.PullRepeatedly | gremlin-core/src/main/java/org/apache/tinkerpop/gremlin/process/traversal/step/map/AddVertexStartStep.java:64-77 | across n >= 1 pulls of a new step, the log grows by exactly one vertex write, the first pull emits it with bulk 1 and every later pull is exhausted |
| Scenarios.ResetThenPull | gremlin-core/src/main/java/org/apache/tinkerpop/gremlin/process/traversal/step/map/AddVertexStartStep.java:94-98 | a pull after `reset` on a step that never fired is exhausted and writes nothing |
| Scenarios.PersonNamedMarko | gremlin-core/src/main/java/org/apache/tinkerpop/gremlin/process/traversal/step/map/AddVertexStartStep.java:47-77 | a "person" step given name = "marko" writes one vertex from exactly `T.label, "person", "name", "marko"`, and a second pull is exhausted |
| Scenarios.MapEach | gremlin-core/src/main/java/org/apache/tinkerpop/gremlin/process/traversal/step/map/AddVertexStep.java:71-79 | k traversers give exactly k vertex writes, in traverser order, each from the table evaluated against its own traverser |
| Scenarios.ListenerBetweenMaps | gremlin-core/src/main/java/org/apache/tinkerpop/gremlin/process/traversal/step/map/AddVertexStep.java:74-85 | a listener registered between two writes hears only the second write, once |
| Scenarios.ReadOneVertexDocument | gremlin-core/src/main/java/com/tinkerpop/gremlin/structure/io/graphson/GraphSONReader.java:59-66 | a document with one vertex record writes that vertex from its name pair, label pair and id pair, then commits |

## Left out

- Decoding the input is not modelled. Jackson's `JsonParser`, `ObjectMapper`, `TypeReference` and the `InputStream` belong to a foreign library and to I/O. Documents arrive as decoded values, and a `mapper` is recorded only as the serializer module it was built around.
- `GraphSON.ReadGraph`: a `vertices` or `edges` payload that is not an array is treated as a decoding failure. The code's token loop would instead read such a payload token by token.
- `GraphSON.ReadGraph`: an unrecognised top-level field is skipped whole. The code advances one token past its name, which for an object or array payload is entered rather than skipped.
- `GraphSON.ReadGraph`: duplicate keys in a JSON object are not modelled. A `Dict` may hold two entries under one key, and `Get` sees the first; Jackson's map would keep the last.
- `BatchGraph` buffering, its buffer size of 10000 and the transaction behind `tx().commit()` are external storage. The model keeps one write log on which the commit is a single entry.
- Memory writes go to `g` in the code, while vertices and edges go to the batch graph. The model keeps them in the same log, in call order.
- `Structure.Graph.V`: the batch graph's id resolution is the engine's `resolve` function, not modelled further.
- `Parameters` is not part of this model. It is modelled as an append-only ordered table whose `set` and `integrateTraversals` calls are recorded. Running a child traversal (`run`) and `Parameters.hashCode` (`hashOf`) are given functions.
- `MapStep.AddVertexStep.HashCode`: what is proved about it (`HashCodeSeparatesTables`) relates the step's hash to the table's hash, which is itself a given function. Nothing is said about how the table is hashed.
- `MapStep.AddVertexStep.GetRequirements`: a child traversal carries the requirements it has already aggregated. The step declares no requirements of its own. Aggregation through nested children happens inside those children and is not modelled.
- The superclass machinery (`AbstractStep` and `MapStep` iteration, `super.reset()`, `super.hashCode()`, traverser generation) is not part of this model. So is the bulk a map step forwards. `super.hashCode()` is a given value, and the start step's traverser carries the literal bulk 1.
- `DetachedFactory.detach` is not part of this model. The event carries the written vertex itself as its detached snapshot.
- `Object.hashCode` of list items is a given function `hash`. Only the XOR structure is proved.
- `GraphSON.LabelOf`: `LabelRendering` states the rendering of string and integer labels only. Booleans, lists and maps are rendered in Java's `toString` layout with no lemma about them. Floating-point numbers are not modelled: `Num` holds integers only.
- `StartStep.AddVertexStartStep.ProcessNextStart` and `MapStep.AddVertexStep.Map`: a callback that throws surfaces as `ListenerFailed`, and the write already made stays in the log. Rollback belongs to the external transaction and is not modelled.
- Concurrency is not modelled: the steps are single-threaded.
- A traversal without a graph is not modelled. `getTraversal().getGraph().get()` would then throw `NoSuchElementException`, and in the start step it would do so after `first` is already false. The steps' `graph` field always holds a graph.
- A null varargs array given to `addPropertyMutations` is not modelled. `Collections.addAll` and `keyValues.length` would throw on it; a `seq` cannot be null.
- Exceptions raised by the graph's `addVertex`/`addEdge` and by the caller's vertex and edge makers are not modelled: `Structure.Graph` and `GraphSON.Makers` never fail. In Java such an exception ends the step's pull, `readGraph` or `readVertex`.
- A null `direction` given to the directional `readVertex` is not modelled. It would take neither branch and read no edge list; `Direction` has no null.
- `Element.LABEL` and `Element.ID` (and `T.label`) are the values `LabelKey` and `IdKey`, assumed to differ from every property name. `Element` is not part of this model; `MakerVertexArgsHaveNoId` relies on this assumption.
