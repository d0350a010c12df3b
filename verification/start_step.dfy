/** `AddVertexStartStep`: a source step that, on its first pull, writes one
    vertex from a literal key/value list and emits it once; every later pull
    raises the exhaustion signal. */
module StartStep {
  import opened Values
  import opened Structure
  import opened Events

  /** The XOR of the hashes of the items of `s`; `hash` is `Object.hashCode`. */
  function XorAll(s: seq<Obj>, hash: Obj -> bv32): bv32
  {
    if s == [] then 0 else hash(s[0]) ^ XorAll(s[1..], hash)
  }

  lemma {:induction false} XorAllAppend(a: seq<Obj>, b: seq<Obj>, hash: Obj -> bv32)
    ensures XorAll(a + b, hash) == XorAll(a, hash) ^ XorAll(b, hash)
  {
    if a == [] {
      assert a + b == b;
    } else {
      assert (a + b)[0] == a[0] && (a + b)[1..] == a[1..] + b;
      XorAllAppend(a[1..], b, hash);
    }
  }

  /** The hash folds the items in with XOR, so it does not depend on their
      order: any permutation of the list hashes alike. */
  lemma {:induction false} XorAllPermutation(a: seq<Obj>, b: seq<Obj>, hash: Obj -> bv32)
    requires multiset(a) == multiset(b)
    ensures XorAll(a, hash) == XorAll(b, hash)
    decreases |a|
  {
    if a == [] {
      assert |b| == |multiset(b)| == 0;
    } else {
      var x := a[0];
      assert x in multiset(b);
      var i :| 0 <= i < |b| && b[i] == x;
      var rest := b[..i] + b[i + 1..];
      assert b == b[..i] + ([x] + b[i + 1..]);
      assert a == [x] + a[1..];
      assert multiset(a) == multiset{x} + multiset(a[1..]);
      assert multiset(b) == multiset(b[..i]) + multiset{x} + multiset(b[i + 1..]);
      assert multiset(rest) == multiset(b[..i]) + multiset(b[i + 1..]);
      assert multiset(a[1..]) == multiset(a) - multiset{x};
      assert multiset(rest) == multiset(b) - multiset{x};
      XorAllPermutation(a[1..], rest, hash);
      XorAllAppend(b[..i], [x] + b[i + 1..], hash);
      XorAllAppend(b[..i], b[i + 1..], hash);
      assert ([x] + b[i + 1..])[1..] == b[i + 1..];
    }
  }

  lemma XorAssociates(a: bv32, b: bv32, c: bv32)
    ensures (a ^ b) ^ c == a ^ (b ^ c)
  {
  }

  /** `result ^= hash(item)` for each item in order, starting from `acc`. */
  function Fold(acc: bv32, s: seq<Obj>, hash: Obj -> bv32): bv32
    decreases s
  {
    if s == [] then acc else Fold(acc ^ hash(s[0]), s[1..], hash)
  }

  /** The in-order fold equals the order-free XOR of every hash. */
  lemma {:induction false} FoldIsXor(acc: bv32, s: seq<Obj>, hash: Obj -> bv32)
    ensures Fold(acc, s, hash) == acc ^ XorAll(s, hash)
    decreases s
  {
    if s != [] {
      FoldIsXor(acc ^ hash(s[0]), s[1..], hash);
      XorAssociates(acc, hash(s[0]), XorAll(s[1..], hash));
    }
  }

  lemma FoldStep(acc: bv32, s: seq<Obj>, i: nat, hash: Obj -> bv32)
    requires i < |s|
    ensures Fold(acc, s[i..], hash) == Fold(acc ^ hash(s[i]), s[i + 1..], hash)
  {
    assert s[i..][0] == s[i] && s[i..][1..] == s[i + 1..];
  }

  /** Whether some item is `null`. */
  predicate HasNull(s: seq<Obj>)
  {
    exists j :: 0 <= j < |s| && s[j].Null?
  }

  lemma NoNullExtends(s: seq<Obj>, i: nat)
    requires i < |s| && !HasNull(s[..i]) && !s[i].Null?
    ensures !HasNull(s[..i + 1])
  {
    assert forall j :: 0 <= j < i ==> s[..i][j] == s[j];
  }

  /** The loop of `hashCode`: `result ^= item.hashCode()` for each item in
      order, starting from `seed`; a null item is dereferenced and throws. */
  method FoldHashes(seed: bv32, items: seq<Obj>, hash: Obj -> bv32) returns (r: Result<bv32, StepError>)
    ensures r.Failure? <==> exists j :: 0 <= j < |items| && items[j].Null?
    ensures r.Failure? ==> r.error == NullPointer
    ensures r.Success? ==> r.value == seed ^ XorAll(items, hash)
  {
    var result := seed;
    var i := 0;
    assert items[0..] == items && items[..0] == [];
    while i < |items| && !items[i].Null?
      invariant 0 <= i <= |items|
      invariant !HasNull(items[..i])
      invariant Fold(result, items[i..], hash) == Fold(seed, items, hash)
    {
      FoldStep(result, items, i, hash);
      NoNullExtends(items, i);
      result := result ^ hash(items[i]);
      i := i + 1;
    }
    if i < |items| {
      r := Failure(NullPointer);
    } else {
      assert items[i..] == [] && items[..i] == items;
      FoldIsXor(seed, items, hash);
      r := Success(result);
    }
  }

  class AddVertexStartStep {
    /** The graph of the owning traversal. */
    const graph: Graph
    /** `super.hashCode()`. */
    const superHash: bv32
    var keyValues: seq<Obj>
    var first: bool
    var callbackRegistry: CallbackRegistry?

    /** A non-null label seeds the list with `T.label, label`; a null label leaves it empty. */
    constructor (graph: Graph, labelName: Option<string>, superHash: bv32)
      ensures this.graph == graph && this.superHash == superHash
      ensures labelName.Some? ==> keyValues == [LabelKey, Str(labelName.value)]
      ensures labelName.None? ==> keyValues == []
      ensures first && callbackRegistry == null
    {
      this.graph := graph;
      this.superHash := superHash;
      keyValues := if labelName.Some? then [LabelKey, Str(labelName.value)] else [];
      first := true;
      callbackRegistry := null;
    }

    /** A copy of the list, in order. */
    method GetKeyValues() returns (r: seq<Obj>)
      ensures r == keyValues
    {
      r := keyValues;
    }

    /** Appends the arguments, in argument order, after the existing entries. */
    method AddPropertyMutations(kvs: seq<Obj>)
      modifies this`keyValues
      ensures keyValues == old(keyValues) + kvs
      ensures keyValues[..|old(keyValues)|] == old(keyValues)
    {
      keyValues := keyValues + kvs;
    }

    /** The first pull writes exactly one vertex from the current list, tells
        the listeners (if a registry exists) and emits that vertex with bulk 1;
        any pull after that writes nothing, tells nobody and raises the
        exhaustion signal. */
    method ProcessNextStart(sink: EventLog) returns (r: Result<Traverser, StepError>)
      modifies this`first, graph`writes, sink
      ensures !first
      ensures !old(first) ==>
                && r == Failure(NoSuchElement)
                && graph.writes == old(graph.writes)
                && sink.delivered == old(sink.delivered)
      ensures old(first) ==>
                var v := graph.store.newVertex(old(graph.writes));
                && graph.writes == old(graph.writes) + [AddedVertex(keyValues, v)]
                && (callbackRegistry == null ==>
                      && sink.delivered == old(sink.delivered)
                      && r == Success(Traverser(VertexObj(v), 1)))
                && (callbackRegistry != null ==>
                      var b := Broadcast(callbackRegistry.callbacks, VertexAdded(v));
                      && sink.delivered == old(sink.delivered) + b.delivered
                      && r == if b.failed.Some? then Failure(ListenerFailed(b.failed.value))
                              else Success(Traverser(VertexObj(v), 1)))
    {
      if first {
        first := false;
        var v := graph.AddVertex(keyValues);
        if callbackRegistry != null {
          var failed := Notify(callbackRegistry, VertexAdded(v), sink);
          if failed.Some? {
            return Failure(ListenerFailed(failed.value));
          }
        }
        r := Success(Traverser(VertexObj(v), 1));
      } else {
        r := Failure(NoSuchElement);
      }
    }

    /** Creates the registry on the first call and returns that same registry
        on every call. */
    method GetMutatingCallbackRegistry() returns (r: CallbackRegistry)
      modifies this`callbackRegistry
      ensures callbackRegistry == r
      ensures old(callbackRegistry) != null ==> r == old(callbackRegistry)
      ensures old(callbackRegistry) == null ==> fresh(r) && r.callbacks == []
    {
      if callbackRegistry == null {
        callbackRegistry := new CallbackRegistry();
      }
      r := callbackRegistry;
    }

    /** `super.hashCode()` XOR the hash of every item; a null item is
        dereferenced and throws. */
    method HashCode(hash: Obj -> bv32) returns (r: Result<bv32, StepError>)
      ensures r.Failure? <==> exists j :: 0 <= j < |keyValues| && keyValues[j].Null?
      ensures r.Failure? ==> r.error == NullPointer
      ensures r.Success? ==> r.value == superHash ^ XorAll(keyValues, hash)
    {
      r := FoldHashes(superHash, keyValues, hash);
    }

    /** As written, `reset` sets `first` to false: afterwards the step is
        exhausted, whether or not it had fired. */
    method Reset()
      modifies this`first
      ensures !first
    {
      first := false;
    }
  }
}
