/** Properties that span several calls, stated as client code driving the
    steps and the reader the way a traversal or a loader would. */
module Scenarios {
  import opened Values
  import opened Structure
  import opened Events
  import opened StepParameters
  import opened StartStep
  import opened MapStep
  import opened GraphSON

  /** Pulling a fresh source step `n >= 1` times writes exactly one vertex,
      from the seeded list, and emits it once with bulk 1; every later pull
      is exhausted. No listener hears anything, since no registry exists. */
  method PullRepeatedly(graph: Graph, labelName: Option<string>, superHash: bv32, sink: EventLog, n: nat)
    returns (results: seq<Result<Traverser, StepError>>)
    requires n >= 1
    modifies graph`writes, sink
    ensures var v := graph.store.newVertex(old(graph.writes));
      && graph.writes == old(graph.writes) + [AddedVertex(if labelName.Some? then [LabelKey, Str(labelName.value)] else [], v)]
      && sink.delivered == old(sink.delivered)
      && |results| == n
      && results[0] == Success(Traverser(VertexObj(v), 1))
      && forall k :: 1 <= k < n ==> results[k] == Failure(NoSuchElement)
  {
    var step := new AddVertexStartStep(graph, labelName, superHash);
    var r := step.ProcessNextStart(sink);
    results := [r];
    while |results| < n
      invariant 1 <= |results| <= n
      invariant !step.first && step.callbackRegistry == null
      invariant graph.writes == old(graph.writes) + [AddedVertex(step.keyValues, graph.store.newVertex(old(graph.writes)))]
      invariant step.keyValues == if labelName.Some? then [LabelKey, Str(labelName.value)] else []
      invariant sink.delivered == old(sink.delivered)
      invariant results[0] == Success(Traverser(VertexObj(graph.store.newVertex(old(graph.writes))), 1))
      invariant forall k :: 1 <= k < |results| ==> results[k] == Failure(NoSuchElement)
    {
      r := step.ProcessNextStart(sink);
      results := results + [r];
    }
  }

  /** `reset` on a step that never fired leaves it exhausted: the next pull
      writes nothing and raises the exhaustion signal. */
  method ResetThenPull(graph: Graph, labelName: Option<string>, superHash: bv32, sink: EventLog)
    returns (r: Result<Traverser, StepError>)
    modifies graph`writes, sink
    ensures r == Failure(NoSuchElement)
    ensures graph.writes == old(graph.writes) && sink.delivered == old(sink.delivered)
  {
    var step := new AddVertexStartStep(graph, labelName, superHash);
    step.Reset();
    r := step.ProcessNextStart(sink);
  }

  /** A source step labelled "person" with the property name = "marko"
      writes one vertex from exactly `T.label, "person", "name", "marko"`
      and emits it with bulk 1; a second pull is exhausted. */
  method PersonNamedMarko(graph: Graph, superHash: bv32, sink: EventLog)
    returns (first: Result<Traverser, StepError>, second: Result<Traverser, StepError>)
    modifies graph`writes, sink
    ensures var v := graph.store.newVertex(old(graph.writes));
      && graph.writes == old(graph.writes) + [AddedVertex([LabelKey, Str("person"), Str("name"), Str("marko")], v)]
      && first == Success(Traverser(VertexObj(v), 1))
      && second == Failure(NoSuchElement)
  {
    var step := new AddVertexStartStep(graph, Some("person"), superHash);
    step.AddPropertyMutations([Str("name"), Str("marko")]);
    assert step.keyValues == [LabelKey, Str("person"), Str("name"), Str("marko")];
    first := step.ProcessNextStart(sink);
    second := step.ProcessNextStart(sink);
  }

  /** A map step with no registry writes one vertex per traverser, in
      traverser order, each from the table evaluated against its own
      traverser, and emits the vertices it wrote. */
  method MapEach(step: AddVertexStep, ts: seq<Traverser>, sink: EventLog) returns (vs: seq<Vertex>)
    requires step.callbackRegistry == null
    modifies step.graph`writes, sink
    ensures |vs| == |ts| && |step.graph.writes| == |old(step.graph.writes)| + |ts|
    ensures step.graph.writes[..|old(step.graph.writes)|] == old(step.graph.writes)
    ensures forall k :: 0 <= k < |ts| ==>
              step.graph.writes[|old(step.graph.writes)| + k] == AddedVertex(step.parameters.GetKeyValues(Some(ts[k])), vs[k])
    ensures sink.delivered == old(sink.delivered)
  {
    ghost var w0 := step.graph.writes;
    vs := [];
    while |vs| < |ts|
      invariant |vs| <= |ts| && |step.graph.writes| == |w0| + |vs|
      invariant step.graph.writes[..|w0|] == w0
      invariant forall k :: 0 <= k < |vs| ==>
                  step.graph.writes[|w0| + k] == AddedVertex(step.parameters.GetKeyValues(Some(ts[k])), vs[k])
      invariant sink.delivered == old(sink.delivered)
    {
      var r := step.Map(ts[|vs|], sink);
      vs := vs + [r.value];
    }
  }

  /** A listener registered between two `map` calls hears only the second
      write, once. */
  method ListenerBetweenMaps(step: AddVertexStep, t1: Traverser, t2: Traverser, c: Callback, sink: EventLog)
    returns (v2: Result<Vertex, StepError>)
    requires step.callbackRegistry == null && !c.throws
    modifies step.graph`writes, sink, step`callbackRegistry
    ensures v2.Success? && |step.graph.writes| == |old(step.graph.writes)| + 2
    ensures sink.delivered == old(sink.delivered) + [Delivery(c, VertexAdded(v2.value))]
  {
    var v1 := step.Map(t1, sink);
    var registry := step.GetMutatingCallbackRegistry();
    registry.AddCallback(c);
    v2 := step.Map(t2, sink);
  }

  /** Reading a document with one vertex record "person", id 1, name =
      "marko" writes that vertex from `name, "marko", label, "person", id, 1`
      and commits once. */
  lemma ReadOneVertexDocument(store: Store)
    ensures var record := Dict([(TokenLabel, Str("person")), (TokenId, Num(1)),
                                (TokenProperties, Dict([("name", Dict([(TokenValue, Str("marko"))]))]))]);
      var doc := Dict([(TokenVertices, List([record]))]);
      ReadGraphSpec(store, [], doc) ==
        Progress([AddedVertex([Str("name"), Str("marko"), LabelKey, Str("person"), IdKey, Num(1)], store.newVertex([])),
                  Committed], None)
  {
    var properties := Dict([("name", Dict([(TokenValue, Str("marko"))]))]);
    var data := [(TokenLabel, Str("person")), (TokenId, Num(1)), (TokenProperties, properties)];
    assert |TokenLabel| != |TokenProperties| && |TokenId| != |TokenProperties| && |TokenId| != |TokenLabel|;
    assert data[1..][1..] == [(TokenProperties, properties)];
    assert Get(data[1..][1..], TokenProperties) == properties;
    assert Get(data[1..], TokenProperties) == properties;
    assert Get(data, TokenProperties) == properties;
    assert Get(data, TokenLabel) == Str("person");
    assert Get(data, TokenId) == Num(1);
    var nameRecord := [(TokenValue, Str("marko"))];
    assert Get(nameRecord, TokenValue) == Str("marko");
    assert properties.entries[1..] == [];
    assert PropertyPairs(properties.entries[1..]) == Success([]);
    assert AsMap(properties.entries[0].1) == Success(nameRecord);
    assert [Str("name"), Str("marko")] + [] == [Str("name"), Str("marko")];
    assert PropertyPairs(properties.entries) == Success([Str("name"), Str("marko")]);
    var args := [Str("name"), Str("marko"), LabelKey, Str("person"), IdKey, Num(1)];
    assert AsMap(Get(data, TokenProperties)) == Success(properties.entries);
    assert [Str("name"), Str("marko")] + [LabelKey, Str("person"), IdKey, Num(1)] == args;
    assert WithProperties(data, [LabelKey, Get(data, TokenLabel), IdKey, Get(data, TokenId)]) == Success(args);
    assert GraphVertexArgs(data) == Success(args);
    var w := AddedVertex(args, store.newVertex([]));
    assert RecordWrite(store, [], VertexSection, Dict(data)) == Success(w);
    assert RecordWriter(store, VertexSection)([], Dict(data)) == Success(w);
    assert [Dict(data)][1..] == [];
    assert ReadRecords([], RecordWriter(store, VertexSection), [Dict(data)]) == Progress([w], None);
    var fields := [(TokenVertices, List([Dict(data)]))];
    assert |TokenVertices| != |TokenProperties|;
    assert FieldStep(store, [], fields[0]) == Progress([w], None);
    assert fields[1..] == [];
    assert ReadFields(store, [], fields) == Progress([w], None);
    assert [w] + [Committed] == [w, Committed];
  }
}
