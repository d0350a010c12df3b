/** The property-binding table of a mutating step: an ordered multimap from
    key to value provider, where a provider is a constant or a child traversal
    evaluated against the current traverser. The Java class itself is not part
    of this model; the table keeps its bindings in insertion order and
    flattens each one as key then value, and running a child traversal is a
    function supplied at construction. Every `set` and `integrateTraversals` call is also logged,
    so that what a step asks of its table can be stated independently of how
    the table stores it. */
module StepParameters {
  import opened Values

  datatype Provider = Constant(value: Obj) | Bound(child: Traversal)

  datatype Binding = Binding(key: Obj, provider: Provider)

  datatype ParameterCall = SetCall(key: Obj, value: Obj) | IntegrateCall

  /** A value that is a traversal becomes a traversal-bound provider. */
  function ProviderOf(value: Obj): Provider
  {
    if value.Trav? then Bound(value.traversal) else Constant(value)
  }

  /** The value a provider yields for traverser `t` (`None` is the empty
      traverser); `run` stands for executing a child traversal. */
  function Evaluate(p: Provider, t: Option<Traverser>, run: (Traversal, Option<Traverser>) -> Obj): Obj
  {
    match p
    case Constant(v) => v
    case Bound(c) => run(c, t)
  }

  /** `getKeyValues(t)`: each binding's key followed by its provider's value,
      in insertion order, so keys sit at the even positions. */
  function Flatten(bs: seq<Binding>, t: Option<Traverser>, run: (Traversal, Option<Traverser>) -> Obj): (r: seq<Obj>)
    ensures |r| == 2 * |bs|
    ensures forall i :: 0 <= i < |bs| ==> r[2 * i] == bs[i].key && r[2 * i + 1] == Evaluate(bs[i].provider, t, run)
  {
    if bs == [] then []
    else
      var rest := Flatten(bs[1..], t, run);
      assert forall i :: 1 <= i < |bs| ==> bs[i] == bs[1..][i - 1];
      [bs[0].key, Evaluate(bs[0].provider, t, run)] + rest
  }

  /** `getTraversals()`: the child traversals of the traversal-bound providers,
      in insertion order. */
  function BoundChildren(bs: seq<Binding>): (r: seq<Traversal>)
    ensures forall c :: c in r <==> exists i :: 0 <= i < |bs| && bs[i].provider == Bound(c)
  {
    if bs == [] then []
    else
      var rest := BoundChildren(bs[1..]);
      assert forall i :: 1 <= i < |bs| ==> bs[i] == bs[1..][i - 1];
      match bs[0].provider
      case Bound(c) => [c] + rest
      case Constant(_) => rest
  }

  /** A table whose providers are all constants flattens to the same array
      whatever the traverser, the empty one included. */
  lemma {:induction false} ConstantsIgnoreTraverser(bs: seq<Binding>, t: Option<Traverser>, u: Option<Traverser>,
                                                    run: (Traversal, Option<Traverser>) -> Obj)
    requires forall i :: 0 <= i < |bs| ==> bs[i].provider.Constant?
    ensures Flatten(bs, t, run) == Flatten(bs, u, run)
    ensures BoundChildren(bs) == []
  {
    if bs != [] {
      assert bs[0] in bs;
      ConstantsIgnoreTraverser(bs[1..], t, u, run);
      assert forall i :: 0 <= i < |bs[1..]| ==> bs[1..][i] == bs[i + 1];
    }
  }

  class Parameters {
    var bindings: seq<Binding>
    var calls: seq<ParameterCall>
    /** Executing a child traversal against a traverser. */
    const run: (Traversal, Option<Traverser>) -> Obj
    /** `Parameters.hashCode()`, a function of the table. */
    const hashOf: seq<Binding> -> bv32

    constructor (run: (Traversal, Option<Traverser>) -> Obj, hashOf: seq<Binding> -> bv32)
      ensures bindings == [] && calls == []
      ensures this.run == run && this.hashOf == hashOf
    {
      bindings := [];
      calls := [];
      this.run := run;
      this.hashOf := hashOf;
    }

    /** `set(key, value)`: appends a binding. */
    method Set(key: Obj, value: Obj)
      modifies this`bindings, this`calls
      ensures bindings == old(bindings) + [Binding(key, ProviderOf(value))]
      ensures calls == old(calls) + [SetCall(key, value)]
    {
      bindings := bindings + [Binding(key, ProviderOf(value))];
      calls := calls + [SetCall(key, value)];
    }

    /** `integrateTraversals(step)`: links the child traversals to their
        parent; the table itself is unchanged. */
    method IntegrateTraversals()
      modifies this`calls
      ensures calls == old(calls) + [IntegrateCall]
    {
      calls := calls + [IntegrateCall];
    }

    function GetKeyValues(t: Option<Traverser>): seq<Obj>
      reads this
    {
      Flatten(bindings, t, run)
    }

    function GetTraversals(): seq<Traversal>
      reads this
    {
      BoundChildren(bindings)
    }

    function HashCode(): bv32
      reads this
    {
      hashOf(bindings)
    }
  }
}
