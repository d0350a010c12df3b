/** `AddVertexStep`: a map step that, for every traverser it receives, writes
    one vertex whose key/value array is its parameter table evaluated against
    that traverser, tells the listeners, and emits the vertex. */
module MapStep {
  import opened Values
  import opened Structure
  import opened Events
  import opened StepParameters

  /** The first `n` argument pairs `(kvs[2j], kvs[2j + 1])`, in order. */
  function PairsUpTo(kvs: seq<Obj>, n: nat): (r: seq<(Obj, Obj)>)
    requires 2 * n <= |kvs|
    ensures |r| == n
    ensures forall j :: 0 <= j < n ==> r[j] == (kvs[2 * j], kvs[2 * j + 1])
  {
    if n == 0 then [] else PairsUpTo(kvs, n - 1) + [(kvs[2 * n - 2], kvs[2 * n - 1])]
  }

  /** Every complete pair of the argument array; an odd trailing key has no pair. */
  function Pairs(kvs: seq<Obj>): seq<(Obj, Obj)>
  {
    PairsUpTo(kvs, |kvs| / 2)
  }

  /** The bindings `set(key, value)` appends for each pair. */
  function BindingsOf(ps: seq<(Obj, Obj)>): (r: seq<Binding>)
    ensures |r| == |ps|
    ensures forall j :: 0 <= j < |ps| ==> r[j] == Binding(ps[j].0, ProviderOf(ps[j].1))
  {
    if ps == [] then [] else BindingsOf(ps[..|ps| - 1]) + [Binding(ps[|ps| - 1].0, ProviderOf(ps[|ps| - 1].1))]
  }

  /** The `set` calls made for each pair, in order. */
  function SetCallsOf(ps: seq<(Obj, Obj)>): (r: seq<ParameterCall>)
    ensures |r| == |ps|
    ensures forall j :: 0 <= j < |ps| ==> r[j] == SetCall(ps[j].0, ps[j].1)
  {
    if ps == [] then [] else SetCallsOf(ps[..|ps| - 1]) + [SetCall(ps[|ps| - 1].0, ps[|ps| - 1].1)]
  }

  /** One turn of the pairing loop: the next pair extends what was set. */
  lemma PairsStep(kvs: seq<Obj>, n: nat)
    requires 2 * n + 2 <= |kvs|
    ensures BindingsOf(PairsUpTo(kvs, n + 1)) == BindingsOf(PairsUpTo(kvs, n)) + [Binding(kvs[2 * n], ProviderOf(kvs[2 * n + 1]))]
    ensures SetCallsOf(PairsUpTo(kvs, n + 1)) == SetCallsOf(PairsUpTo(kvs, n)) + [SetCall(kvs[2 * n], kvs[2 * n + 1])]
  {
    var ps := PairsUpTo(kvs, n + 1);
    assert ps == PairsUpTo(kvs, n) + [(kvs[2 * n], kvs[2 * n + 1])];
    assert ps[..|ps| - 1] == PairsUpTo(kvs, n);
  }

  /** The pairing loop stops at the last complete pair, whatever the parity. */
  lemma PairsDone(kvs: seq<Obj>, n: nat)
    requires 2 * n == |kvs| || 2 * n + 1 == |kvs|
    ensures Pairs(kvs) == PairsUpTo(kvs, n)
  {
    assert |kvs| / 2 == n;
  }

  /** Pairing an even-length array and flattening the pairs gives the array back. */
  lemma PairsRoundTrip(kvs: seq<Obj>)
    requires |kvs| % 2 == 0
    ensures forall k :: 0 <= k < |kvs| ==>
      kvs[k] == (if k % 2 == 0 then Pairs(kvs)[k / 2].0 else Pairs(kvs)[k / 2].1)
  {
    var ps := Pairs(kvs);
    forall k | 0 <= k < |kvs|
      ensures kvs[k] == (if k % 2 == 0 then ps[k / 2].0 else ps[k / 2].1)
    {
      var j := k / 2;
      assert k == 2 * j || k == 2 * j + 1;
    }
  }

  /** When no value is a traversal, appending the pairs of an even-length
      array to a table appends exactly that array to what the table
      flattens to, whatever the traverser. */
  lemma {:induction false} ConstantPairsFlattenBack(bs: seq<Binding>, kvs: seq<Obj>, t: Option<Traverser>,
                                                   run: (Traversal, Option<Traverser>) -> Obj)
    requires |kvs| % 2 == 0
    requires forall j :: 0 <= j < |kvs| ==> !kvs[j].Trav?
    ensures Flatten(bs + BindingsOf(Pairs(kvs)), t, run) == Flatten(bs, t, run) + kvs
  {
    var added := BindingsOf(Pairs(kvs));
    var all := bs + added;
    var lhs := Flatten(all, t, run);
    var rhs := Flatten(bs, t, run) + kvs;
    assert |lhs| == |rhs|;
    forall k | 0 <= k < |lhs|
      ensures lhs[k] == rhs[k]
    {
      var i := k / 2;
      assert k == 2 * i || k == 2 * i + 1;
      if i >= |bs| {
        var j := i - |bs|;
        assert all[i] == added[j];
        assert 2 * j + 1 < |kvs|;
        assert Pairs(kvs)[j] == (kvs[2 * j], kvs[2 * j + 1]);
        assert !kvs[2 * j + 1].Trav?;
      } else {
        assert all[i] == bs[i];
      }
    }
  }

  /** The union of the requirements of the child traversals `cs`; the step
      asks nothing of its own. */
  function ChildRequirements(cs: seq<Traversal>): (r: set<Requirement>)
    ensures forall q :: q in r <==> exists i :: 0 <= i < |cs| && q in cs[i].requirements
  {
    if cs == [] then {}
    else
      var rest := ChildRequirements(cs[1..]);
      assert forall i :: 1 <= i < |cs| ==> cs[i] == cs[1..][i - 1];
      cs[0].requirements + rest
  }

  class AddVertexStep {
    /** The graph of the owning traversal. */
    const graph: Graph
    const parameters: Parameters
    /** `super.hashCode()`. */
    const superHash: bv32
    var callbackRegistry: CallbackRegistry?

    /** Binds the label (even a null one) under `T.label`, then integrates
        the child traversals. */
    constructor (graph: Graph, labelName: Option<string>, run: (Traversal, Option<Traverser>) -> Obj,
                 hashOf: seq<Binding> -> bv32, superHash: bv32)
      ensures this.graph == graph && this.superHash == superHash && fresh(parameters)
      ensures parameters.run == run && parameters.hashOf == hashOf
      ensures parameters.bindings == [Binding(LabelKey, ProviderOf(LabelValue(labelName)))]
      ensures parameters.calls == [SetCall(LabelKey, LabelValue(labelName)), IntegrateCall]
      ensures callbackRegistry == null
    {
      var p := new Parameters(run, hashOf);
      p.Set(LabelKey, LabelValue(labelName));
      p.IntegrateTraversals();
      this.graph := graph;
      this.parameters := p;
      this.superHash := superHash;
      callbackRegistry := null;
    }

    /** `getLocalChildren()`: the child traversals bound in the table. */
    function GetLocalChildren(): (r: seq<Traversal>)
      reads this, parameters
      ensures forall c :: c in r <==> exists i :: 0 <= i < |parameters.bindings| && parameters.bindings[i].provider == Bound(c)
    {
      parameters.GetTraversals()
    }

    /** `getKeyValues()`: the table evaluated against the empty traverser;
        keys at the even positions, each followed by its value. Being a
        function, it writes nothing. */
    function GetKeyValues(): (r: seq<Obj>)
      reads this, parameters
      ensures |r| == 2 * |parameters.bindings|
      ensures forall i :: 0 <= i < |parameters.bindings| ==>
                r[2 * i] == parameters.bindings[i].key &&
                r[2 * i + 1] == Evaluate(parameters.bindings[i].provider, None, parameters.run)
    {
      parameters.GetKeyValues(None)
    }

    /** Sets each complete pair `(kvs[i], kvs[i + 1])`, `i` even, in order,
        then integrates the child traversals once. With an odd length the
        read of `kvs[|kvs|]` fails (`ok` is false) after every complete pair
        has been set, and the traversals are not integrated. */
    method AddPropertyMutations(kvs: seq<Obj>) returns (ok: bool)
      modifies parameters
      ensures ok <==> |kvs| % 2 == 0
      ensures parameters.bindings == old(parameters.bindings) + BindingsOf(Pairs(kvs))
      ensures ok ==> parameters.calls == old(parameters.calls) + SetCallsOf(Pairs(kvs)) + [IntegrateCall]
      ensures !ok ==> parameters.calls == old(parameters.calls) + SetCallsOf(Pairs(kvs))
    {
      SetPairs(kvs);
      if |kvs| % 2 == 1 {
        // the read of `kvs[|kvs|]` is past the end
        ok := false;
      } else {
        parameters.IntegrateTraversals();
        ok := true;
      }
    }

    /** The pairing loop of `AddPropertyMutations`: one `set` per complete
        pair, in order. */
    method SetPairs(kvs: seq<Obj>)
      modifies parameters
      ensures parameters.bindings == old(parameters.bindings) + BindingsOf(Pairs(kvs))
      ensures parameters.calls == old(parameters.calls) + SetCallsOf(Pairs(kvs))
    {
      var i := 0;
      ghost var n := 0;
      while i + 1 < |kvs|
        invariant 0 <= i <= |kvs| && i == 2 * n
        invariant parameters.bindings == old(parameters.bindings) + BindingsOf(PairsUpTo(kvs, n))
        invariant parameters.calls == old(parameters.calls) + SetCallsOf(PairsUpTo(kvs, n))
      {
        PairsStep(kvs, n);
        parameters.Set(kvs[i], kvs[i + 1]);
        i := i + 2;
        n := n + 1;
      }
      PairsDone(kvs, n);
    }

    /** One vertex write, from the table evaluated against `t`, then one
        event per registered callback (if a registry exists); the vertex
        written is the vertex emitted. */
    method Map(t: Traverser, sink: EventLog) returns (r: Result<Vertex, StepError>)
      modifies graph`writes, sink
      ensures var v := graph.store.newVertex(old(graph.writes));
                && graph.writes == old(graph.writes) + [AddedVertex(parameters.GetKeyValues(Some(t)), v)]
                && (callbackRegistry == null ==>
                      sink.delivered == old(sink.delivered) && r == Success(v))
                && (callbackRegistry != null ==>
                      var b := Broadcast(callbackRegistry.callbacks, VertexAdded(v));
                      && sink.delivered == old(sink.delivered) + b.delivered
                      && r == if b.failed.Some? then Failure(ListenerFailed(b.failed.value)) else Success(v))
    {
      var v := graph.AddVertex(parameters.GetKeyValues(Some(t)));
      if callbackRegistry != null {
        var failed := Notify(callbackRegistry, VertexAdded(v), sink);
        if failed.Some? {
          return Failure(ListenerFailed(failed.value));
        }
      }
      r := Success(v);
    }

    /** Creates the registry on the first call and returns that same registry
        on every call. */
    method GetMutatingCallbackRegistry() returns (r: CallbackRegistry)
      modifies this`callbackRegistry
      ensures callbackRegistry == r
      ensures old(callbackRegistry) != null ==> r == old(callbackRegistry)
      ensures old(callbackRegistry) == null ==> fresh(r) && r.callbacks == []
    {
      if callbackRegistry == null {
        callbackRegistry := new CallbackRegistry();
      }
      r := callbackRegistry;
    }

    /** `super.hashCode() ^ parameters.hashCode()`; `HashCodeSeparatesTables`
        shows the table's hash is folded in without loss. */
    function HashCode(): bv32
      reads this, parameters
    {
      superHash ^ parameters.HashCode()
    }

    /** `getSelfAndChildRequirements()`: what any child traversal requires. */
    function GetRequirements(): (r: set<Requirement>)
      reads this, parameters
      ensures forall q :: q in r <==> exists c :: c in GetLocalChildren() && q in c.requirements
    {
      ChildRequirements(GetLocalChildren())
    }
  }

  /** Steps with the same inherited hash and equally hashed tables hash alike. */
  lemma EqualTablesHashAlike(s1: AddVertexStep, s2: AddVertexStep)
    requires s1.superHash == s2.superHash
    ensures s1.parameters.HashCode() == s2.parameters.HashCode() ==> s1.HashCode() == s2.HashCode()
  {
  }

  /** From equal step hashes and equal inherited hashes, the tables' hashes
      are equal. */
  lemma HashCodeRecoversTable(s1: AddVertexStep, s2: AddVertexStep)
    requires s1.superHash == s2.superHash
    ensures s1.HashCode() == s2.HashCode() ==> s1.parameters.HashCode() == s2.parameters.HashCode()
  {
    XorInjective(s1.superHash, s1.parameters.HashCode(), s2.parameters.HashCode());
  }

  /** Two steps with the same inherited hash hash alike exactly when their
      tables hash alike: XOR folds the table's hash in without loss. */
  lemma HashCodeSeparatesTables(s1: AddVertexStep, s2: AddVertexStep)
    requires s1.superHash == s2.superHash
    ensures s1.HashCode() == s2.HashCode() <==> s1.parameters.HashCode() == s2.parameters.HashCode()
  {
    EqualTablesHashAlike(s1, s2);
    HashCodeRecoversTable(s1, s2);
  }
}
