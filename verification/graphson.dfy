/** The GraphSON reader: turns already-decoded JSON records into the
    arguments of graph writes (`readGraph`) or of caller-supplied vertex and
    edge makers (`readVertex`, `readEdge`). A decoded JSON object is a
    `Dict` whose entries keep the object's own order. */
module GraphSON {
  import opened Values
  import opened Structure

  /** The GraphSON field names. Their spellings are assumed; the model relies
      only on their being pairwise distinct. */
  const TokenProperties: string := "properties"
  const TokenVertices: string := "vertices"
  const TokenEdges: string := "edges"
  const TokenLabel: string := "label"
  const TokenId: string := "id"
  const TokenOut: string := "outV"
  const TokenIn: string := "inV"
  /** The literal key under which a property record keeps its value. */
  const TokenValue: string := "value"

  /** What a read raises instead of returning: a decoding failure of the
      JSON mapper (`IOException`), a null dereference, a failed cast, or a
      missing argument. */
  datatype ReadError = IOError | NullPointer | ClassCast | IllegalArgument

  /** `map.get(k)`: the value of the entry for `k`, or null when there is none. */
  function Get(entries: seq<(string, Obj)>, k: string): Obj
  {
    if entries == [] then Null
    else if entries[0].0 == k then entries[0].1
    else Get(entries[1..], k)
  }

  /** `get` finds the first entry under the key, and null when no entry has it. */
  lemma {:induction false} GetFindsFirst(entries: seq<(string, Obj)>, k: string)
    ensures (exists i :: 0 <= i < |entries| && entries[i].0 == k) ==>
              exists i :: 0 <= i < |entries| && entries[i] == (k, Get(entries, k)) &&
                          forall j :: 0 <= j < i ==> entries[j].0 != k
    ensures (forall i :: 0 <= i < |entries| ==> entries[i].0 != k) ==> Get(entries, k) == Null
  {
    if entries != [] && entries[0].0 != k {
      GetFindsFirst(entries[1..], k);
      assert forall i :: 1 <= i < |entries| ==> entries[i] == entries[1..][i - 1];
      if exists i :: 0 <= i < |entries| && entries[i].0 == k {
        var i :| 0 <= i < |entries| && entries[i].0 == k;
        assert entries[1..][i - 1].0 == k;
      }
    }
  }

  /** `map.containsKey(k)`. */
  predicate ContainsKey(entries: seq<(string, Obj)>, k: string)
  {
    exists i :: 0 <= i < |entries| && entries[i].0 == k
  }

  /** A JSON value read as a map by the mapper: an object decodes to its
      entries, `null` to a null map that is dereferenced at once, anything
      else is a mapping failure. */
  function Decoded(o: Obj): Result<seq<(string, Obj)>, ReadError>
  {
    match o
    case Dict(es) => Success(es)
    case Null => Failure(NullPointer)
    case _ => Failure(IOError)
  }

  /** A value cast to a map and then dereferenced: `null` fails on the
      dereference, anything but a map fails the cast. */
  function AsMap(o: Obj): Result<seq<(string, Obj)>, ReadError>
  {
    match o
    case Dict(es) => Success(es)
    case Null => Failure(NullPointer)
    case _ => Failure(ClassCast)
  }

  /** Reading as a map and casting to a map accept the same values, and each
      undoes building a `Dict`: a value yields `es` exactly when it is
      `Dict(es)`. They part only on a value that is neither null nor a map,
      which the mapper reports as an I/O failure and the cast as a cast
      failure; null fails both on the dereference. */
  lemma MapReadsInvertDict(o: Obj, es: seq<(string, Obj)>)
    ensures Decoded(o) == Success(es) <==> o == Dict(es)
    ensures AsMap(o) == Success(es) <==> o == Dict(es)
    ensures Decoded(o) == if AsMap(o) == Failure(ClassCast) then Failure(IOError) else AsMap(o)
    ensures AsMap(o) == Failure(NullPointer) <==> o == Null
  {
  }

  /** The stream `flatMap(e -> Stream.of(e.getKey(), e.getValue().get("value")))`
      over the entries `es` of a property map: each property name followed by
      the `value` field of its record, in entry order. The first record that
      is not a map ends it with that record's failure. */
  function PropertyPairs(es: seq<(string, Obj)>): (r: Result<seq<Obj>, ReadError>)
    ensures r.Success? <==> forall i :: 0 <= i < |es| ==> es[i].1.Dict?
    ensures r.Success? ==>
              && |r.value| == 2 * |es|
              && forall i :: 0 <= i < |es| ==>
                   r.value[2 * i] == Str(es[i].0) && r.value[2 * i + 1] == Get(es[i].1.entries, TokenValue)
    ensures r.Failure? ==>
              exists i :: 0 <= i < |es| && !es[i].1.Dict? && (forall j :: 0 <= j < i ==> es[j].1.Dict?) &&
                          r.error == AsMap(es[i].1).error
  {
    if es == [] then Success([])
    else
      assert forall i :: 1 <= i < |es| ==> es[i] == es[1..][i - 1];
      match AsMap(es[0].1)
      case Failure(e) => Failure(e)
      case Success(record) =>
        match PropertyPairs(es[1..])
        case Failure(e) => Failure(e)
        case Success(rest) => Success([Str(es[0].0), Get(record, TokenValue)] + rest)
  }

  /** The property pairs of a record's `properties` map, followed by `tail`.
      The map is cast and dereferenced first, so a missing map fails before
      anything else. */
  function WithProperties(data: seq<(string, Obj)>, tail: seq<Obj>): Result<seq<Obj>, ReadError>
  {
    match AsMap(Get(data, TokenProperties))
    case Failure(e) => Failure(e)
    case Success(es) =>
      match PropertyPairs(es)
      case Failure(e) => Failure(e)
      case Success(pairs) => Success(pairs + tail)
  }

  /** A record's array is its property pairs, in the order of its
      `properties` map, followed by `tail`; it fails exactly when that map or
      one of its records is not a map, a missing map with the null failure. */
  lemma WithPropertiesShape(data: seq<(string, Obj)>, tail: seq<Obj>)
    ensures var r := WithProperties(data, tail);
      var props := Get(data, TokenProperties);
      && (r.Success? <==> props.Dict? && forall i :: 0 <= i < |props.entries| ==> props.entries[i].1.Dict?)
      && (r.Success? ==>
            && |r.value| == 2 * |props.entries| + |tail|
            && (forall i :: 0 <= i < |props.entries| ==>
                  r.value[2 * i] == Str(props.entries[i].0) &&
                  r.value[2 * i + 1] == Get(props.entries[i].1.entries, TokenValue))
            && r.value[2 * |props.entries|..] == tail)
      && (r.Failure? && !props.Dict? ==> r.error == AsMap(props).error)
  {
    var r := WithProperties(data, tail);
    var props := Get(data, TokenProperties);
    if r.Success? {
      var pairs := PropertyPairs(props.entries).value;
      assert r.value == pairs + tail;
      assert r.value[2 * |props.entries|..] == tail;
    }
  }

  /** The array `readGraph` passes for a vertex record. */
  function GraphVertexArgs(data: seq<(string, Obj)>): Result<seq<Obj>, ReadError>
  {
    WithProperties(data, [LabelKey, Get(data, TokenLabel), IdKey, Get(data, TokenId)])
  }

  /** The array `readGraph` passes for an edge record. */
  function GraphEdgeArgs(data: seq<(string, Obj)>): Result<seq<Obj>, ReadError>
  {
    WithProperties(data, [IdKey, Get(data, TokenId)])
  }

  /** The array `readVertex` hands to the vertex maker: no id pair. */
  function MakerVertexArgs(data: seq<(string, Obj)>): Result<seq<Obj>, ReadError>
  {
    WithProperties(data, [LabelKey, Get(data, TokenLabel)])
  }

  /** The array handed to the edge maker: property pairs only. */
  function MakerEdgeArgs(data: seq<(string, Obj)>): Result<seq<Obj>, ReadError>
  {
    WithProperties(data, [])
  }

  /** A vertex record of `readGraph` with n properties yields an array of
      length 2n + 4, even, ending in the label pair and then the id pair. */
  lemma GraphVertexArgsShape(data: seq<(string, Obj)>)
    ensures var r := GraphVertexArgs(data);
      r.Success? ==>
        var n := |Get(data, TokenProperties).entries|;
        && |r.value| == 2 * n + 4 && |r.value| % 2 == 0
        && r.value[2 * n] == LabelKey && r.value[2 * n + 1] == Get(data, TokenLabel)
        && r.value[2 * n + 2] == IdKey && r.value[2 * n + 3] == Get(data, TokenId)
  {
    WithPropertiesShape(data, [LabelKey, Get(data, TokenLabel), IdKey, Get(data, TokenId)]);
    var r := GraphVertexArgs(data);
    if r.Success? {
      var n := |Get(data, TokenProperties).entries|;
      assert r.value[2 * n..] == [LabelKey, Get(data, TokenLabel), IdKey, Get(data, TokenId)];
      assert r.value[2 * n] == r.value[2 * n..][0];
      assert r.value[2 * n + 3] == r.value[2 * n..][3];
    }
  }

  /** An edge record of `readGraph` with n properties yields an array of
      length 2n + 2 ending in the id pair. */
  lemma GraphEdgeArgsShape(data: seq<(string, Obj)>)
    ensures var r := GraphEdgeArgs(data);
      r.Success? ==>
        var n := |Get(data, TokenProperties).entries|;
        && |r.value| == 2 * n + 2
        && r.value[2 * n] == IdKey && r.value[2 * n + 1] == Get(data, TokenId)
  {
    WithPropertiesShape(data, [IdKey, Get(data, TokenId)]);
    var r := GraphEdgeArgs(data);
    if r.Success? {
      var n := |Get(data, TokenProperties).entries|;
      assert r.value[2 * n..] == [IdKey, Get(data, TokenId)];
      assert r.value[2 * n] == r.value[2 * n..][0];
    }
  }

  /** The vertex maker's array is the properties and the label pair; no key
      position holds the id key, since the id travels as its own argument. */
  lemma MakerVertexArgsHaveNoId(data: seq<(string, Obj)>)
    ensures var r := MakerVertexArgs(data);
      r.Success? ==>
        var n := |Get(data, TokenProperties).entries|;
        && |r.value| == 2 * n + 2
        && r.value[2 * n] == LabelKey && r.value[2 * n + 1] == Get(data, TokenLabel)
        && forall i :: 0 <= i <= n ==> r.value[2 * i] != IdKey
  {
    WithPropertiesShape(data, [LabelKey, Get(data, TokenLabel)]);
    var r := MakerVertexArgs(data);
    if r.Success? {
      var n := |Get(data, TokenProperties).entries|;
      assert r.value[2 * n..] == [LabelKey, Get(data, TokenLabel)];
      assert r.value[2 * n] == r.value[2 * n..][0];
    }
  }

  /** The edge maker's array holds the property pairs and nothing else. */
  lemma MakerEdgeArgsArePropertiesOnly(data: seq<(string, Obj)>)
    ensures var r := MakerEdgeArgs(data);
      r.Success? ==>
        && |r.value| == 2 * |Get(data, TokenProperties).entries|
        && forall i :: 0 <= i < |r.value| / 2 ==> r.value[2 * i].Str?
  {
    WithPropertiesShape(data, []);
  }

  // ---------------------------------------------------------------------
  // `toString` of a decoded JSON value (the edge label)

  function DigitChar(d: nat): char
    requires d < 10
  {
    "0123456789"[d]
  }

  /** `Long.toString` of a non-negative value: decimal, no leading zero. */
  function Decimal(n: nat): (r: string)
    ensures 0 < |r| && (|r| > 1 ==> r[0] != '0')
    ensures forall i :: 0 <= i < |r| ==> '0' <= r[i] <= '9'
    decreases n
  {
    if n < 10 then [DigitChar(n)] else Decimal(n / 10) + [DigitChar(n % 10)]
  }

  /** The value of a string of decimal digits. */
  function DigitsValue(s: string): nat
    requires forall i :: 0 <= i < |s| ==> '0' <= s[i] <= '9'
  {
    if s == [] then 0 else DigitsValue(s[..|s| - 1]) * 10 + (s[|s| - 1] as int - '0' as int)
  }

  /** Reading the digits back gives the number. */
  lemma {:induction false} DecimalRoundTrip(n: nat)
    ensures DigitsValue(Decimal(n)) == n
    decreases n
  {
    if n >= 10 {
      DecimalRoundTrip(n / 10);
      var s := Decimal(n);
      assert s[..|s| - 1] == Decimal(n / 10);
    }
  }

  function Join(parts: seq<string>): string
  {
    if parts == [] then ""
    else if |parts| == 1 then parts[0]
    else parts[0] + ", " + Join(parts[1..])
  }

  /** `String.valueOf` of a decoded JSON value: strings as themselves,
      integers in decimal, lists as `[a, b]`, maps as `{k=v, ...}`. The
      reserved keys, vertices and traversals never occur in decoded JSON;
      they get fixed spellings. */
  function JavaString(o: Obj): string
    decreases o
  {
    match o
    case Null => "null"
    case Str(s) => s
    case Num(n) => if n < 0 then "-" + Decimal(-n) else Decimal(n)
    case Bool(b) => if b then "true" else "false"
    case List(items) =>
      "[" + Join(seq(|items|, i requires 0 <= i < |items| => JavaString(items[i]))) + "]"
    case Dict(es) =>
      "{" + Join(seq(|es|, i requires 0 <= i < |es| => es[i].0 + "=" + JavaString(es[i].1))) + "}"
    case LabelKey => "label"
    case IdKey => "id"
    case VertexObj(v) => "v[" + Decimal(v.serial) + "]"
    case Trav(_) => "traversal"
  }

  /** `data.get(label).toString()`: a missing or null label is dereferenced and fails. */
  function LabelOf(o: Obj): Result<string, ReadError>
  {
    if o.Null? then Failure(NullPointer) else Success(JavaString(o))
  }

  /** How a label renders: only a null label fails, on the dereference; a
      string renders as itself; an integer renders as decimal digits, after
      a minus sign when it is negative, and the digits read back as its
      magnitude. */
  lemma {:induction false} LabelRendering(o: Obj)
    ensures LabelOf(o).Failure? <==> o.Null?
    ensures o.Null? ==> LabelOf(o) == Failure(NullPointer)
    ensures o.Str? ==> LabelOf(o) == Success(o.s)
    ensures o.Num? && o.n >= 0 ==>
              var s := LabelOf(o).value;
              && (forall i :: 0 <= i < |s| ==> '0' <= s[i] <= '9')
              && DigitsValue(s) == o.n
    ensures o.Num? && o.n < 0 ==>
              var s := LabelOf(o).value;
              && 1 < |s| && s[0] == '-'
              && (forall i :: 1 <= i < |s| ==> '0' <= s[i] <= '9')
              && DigitsValue(s[1..]) == -o.n
  {
    if o.Num? {
      if o.n >= 0 {
        DecimalRoundTrip(o.n);
      } else {
        DecimalRoundTrip(-o.n);
        assert LabelOf(o).value[1..] == Decimal(-o.n);
      }
    }
  }

  // ---------------------------------------------------------------------
  // `readGraph`: the top-level field dispatch

  /** How far a read got: the write log it leaves, and the failure that
      stopped it, if any. */
  datatype Progress = Progress(writes: seq<Write>, error: Option<ReadError>)

  datatype Section = VertexSection | EdgeSection

  /** The write `readGraph` makes for one vertex record: a vertex from the
      record's array, evaluated against the writes before it. */
  function VertexWrite(store: Store, writes: seq<Write>, record: Obj): Result<Write, ReadError>
  {
    match Decoded(record)
    case Failure(e) => Failure(e)
    case Success(data) =>
      match GraphVertexArgs(data)
      case Failure(e) => Failure(e)
      case Success(args) => Success(AddedVertex(args, store.newVertex(writes)))
  }

  /** The write `readGraph` makes for one edge record: an edge from the
      vertex its out-id resolves to, to the vertex its in-id resolves to,
      under the record's label. An unresolved out-vertex is dereferenced and
      fails; an unresolved in-vertex is passed on as null. */
  function EdgeWrite(store: Store, writes: seq<Write>, record: Obj): Result<Write, ReadError>
  {
    match Decoded(record)
    case Failure(e) => Failure(e)
    case Success(data) =>
      match GraphEdgeArgs(data)
      case Failure(e) => Failure(e)
      case Success(args) =>
        var vOut := store.resolve(writes, Get(data, TokenOut));
        var vIn := store.resolve(writes, Get(data, TokenIn));
        match LabelOf(Get(data, TokenLabel))
        case Failure(e) => Failure(e)
        case Success(l) => if vOut.None? then Failure(NullPointer) else Success(AddedEdge(vOut.value, l, vIn, args))
  }

  function RecordWrite(store: Store, writes: seq<Write>, section: Section, record: Obj): Result<Write, ReadError>
  {
    match section
    case VertexSection => VertexWrite(store, writes, record)
    case EdgeSection => EdgeWrite(store, writes, record)
  }

  /** What one record of a section writes, given the log before it. */
  type RecordStep = (seq<Write>, Obj) -> Result<Write, ReadError>

  function RecordWriter(store: Store, section: Section): RecordStep
  {
    (writes: seq<Write>, record: Obj) => RecordWrite(store, writes, section, record)
  }

  /** A record step that writes only vertices and edges. */
  ghost predicate WritesElements(step: RecordStep)
  {
    forall writes, record :: step(writes, record).Success? ==>
      step(writes, record).value.AddedVertex? || step(writes, record).value.AddedEdge?
  }

  lemma RecordWriterWritesElements(store: Store, section: Section)
    ensures WritesElements(RecordWriter(store, section))
  {
    forall writes, record | RecordWriter(store, section)(writes, record).Success?
      ensures RecordWriter(store, section)(writes, record).value.AddedVertex? ||
              RecordWriter(store, section)(writes, record).value.AddedEdge?
    {
      assert RecordWriter(store, section)(writes, record) == RecordWrite(store, writes, section, record);
    }
  }

  /** The array loop of the `vertices` or `edges` field: one write per
      record, in order, until a record fails. */
  function ReadRecords(writes: seq<Write>, step: RecordStep, records: seq<Obj>): Progress
    decreases records
  {
    if records == [] then Progress(writes, None)
    else
      match step(writes, records[0])
      case Failure(e) => Progress(writes, Some(e))
      case Success(w) => ReadRecords(writes + [w], step, records[1..])
  }

  /** `memory().set(key, value)` for each entry, in order. */
  function MemorySets(es: seq<(string, Obj)>): (r: seq<Write>)
    ensures |r| == |es|
    ensures forall i :: 0 <= i < |es| ==> r[i] == MemorySet(es[i].0, es[i].1)
  {
    if es == [] then [] else MemorySets(es[..|es| - 1]) + [MemorySet(es[|es| - 1].0, es[|es| - 1].1)]
  }

  /** The `properties` field: the payload is read as a map first (a
      non-object fails to decode); only a graph that supports memory then
      stores its entries, and only such a graph dereferences a null map. */
  function MemoryWrites(store: Store, payload: Obj): Result<seq<Write>, ReadError>
  {
    match payload
    case Dict(es) => Success(if store.supportsMemory then MemorySets(es) else [])
    case Null => if store.supportsMemory then Failure(NullPointer) else Success([])
    case _ => Failure(IOError)
  }

  /** One top-level field; a field that is none of `properties`, `vertices`
      and `edges` is skipped. */
  function FieldStep(store: Store, writes: seq<Write>, field: (string, Obj)): Progress
  {
    if field.0 == TokenProperties then
      match MemoryWrites(store, field.1)
      case Failure(e) => Progress(writes, Some(e))
      case Success(ms) => Progress(writes + ms, None)
    else if field.0 == TokenVertices then
      if field.1.List? then ReadRecords(writes, RecordWriter(store, VertexSection), field.1.items) else Progress(writes, Some(IOError))
    else if field.0 == TokenEdges then
      if field.1.List? then ReadRecords(writes, RecordWriter(store, EdgeSection), field.1.items) else Progress(writes, Some(IOError))
    else Progress(writes, None)
  }

  /** The loop over the top-level fields, in document order, until one fails. */
  function ReadFields(store: Store, writes: seq<Write>, fields: seq<(string, Obj)>): Progress
    decreases fields
  {
    if fields == [] then Progress(writes, None)
    else
      var p := FieldStep(store, writes, fields[0]);
      if p.error.Some? then p else ReadFields(store, p.writes, fields[1..])
  }

  /** `readGraph`: a document that is not an object fails before any write;
      otherwise the fields are read and, if none failed, the writes are
      committed once at the end. */
  function ReadGraphSpec(store: Store, writes: seq<Write>, doc: Obj): Progress
  {
    if !doc.Dict? then Progress(writes, Some(IOError))
    else
      var p := ReadFields(store, writes, doc.entries);
      if p.error.Some? then p else Progress(p.writes + [Committed], None)
  }

  /** `after` keeps `before` as a prefix and adds no commit, and adds a
      memory write only when `memory` holds. */
  predicate Extends(before: seq<Write>, after: seq<Write>, memory: bool)
  {
    && |before| <= |after| && after[..|before|] == before
    && forall k :: |before| <= k < |after| ==> !after[k].Committed? && (after[k].MemorySet? ==> memory)
  }

  lemma ExtendsTransitive(a: seq<Write>, b: seq<Write>, c: seq<Write>, memory: bool)
    requires Extends(a, b, memory) && Extends(b, c, memory)
    ensures Extends(a, c, memory)
  {
    assert c[..|a|] == c[..|b|][..|a|];
  }

  /** Reading records only adds vertex and edge writes. */
  lemma {:induction false} ReadRecordsExtends(writes: seq<Write>, step: RecordStep, records: seq<Obj>)
    requires WritesElements(step)
    ensures Extends(writes, ReadRecords(writes, step, records).writes, false)
    decreases records
  {
    if records != [] {
      var w := step(writes, records[0]);
      if w.Success? {
        ReadRecordsExtends(writes + [w.value], step, records[1..]);
        assert Extends(writes, writes + [w.value], false);
        ExtendsTransitive(writes, writes + [w.value], ReadRecords(writes, step, records).writes, false);
      }
    }
  }

  lemma FieldStepExtends(store: Store, writes: seq<Write>, field: (string, Obj))
    ensures Extends(writes, FieldStep(store, writes, field).writes, store.supportsMemory)
  {
    if field.0 == TokenProperties {
      var m := MemoryWrites(store, field.1);
      if m.Success? {
        assert writes + m.value == FieldStep(store, writes, field).writes;
        assert (writes + m.value)[..|writes|] == writes;
      }
    } else if (field.0 == TokenVertices || field.0 == TokenEdges) && field.1.List? {
      var section := if field.0 == TokenVertices then VertexSection else EdgeSection;
      RecordWriterWritesElements(store, section);
      ReadRecordsExtends(writes, RecordWriter(store, section), field.1.items);
    }
  }

  lemma {:induction false} ReadFieldsExtends(store: Store, writes: seq<Write>, fields: seq<(string, Obj)>)
    ensures Extends(writes, ReadFields(store, writes, fields).writes, store.supportsMemory)
    decreases fields
  {
    if fields != [] {
      var p := FieldStep(store, writes, fields[0]);
      FieldStepExtends(store, writes, fields[0]);
      if p.error.None? {
        ReadFieldsExtends(store, p.writes, fields[1..]);
        ExtendsTransitive(writes, p.writes, ReadFields(store, writes, fields).writes, store.supportsMemory);
      }
    }
  }

  /** `readGraph` keeps the earlier writes, commits exactly once and only
      as its last write when it succeeds, commits nothing when it fails, and
      writes graph memory only when the graph supports it. A document that
      is not an object fails with no write at all. */
  lemma ReadGraphCommitsOnce(store: Store, writes: seq<Write>, doc: Obj)
    ensures var p := ReadGraphSpec(store, writes, doc);
      && (!doc.Dict? ==> p == Progress(writes, Some(IOError)))
      && (p.error.Some? ==> Extends(writes, p.writes, store.supportsMemory))
      && (p.error.None? ==>
            && |p.writes| > |writes|
            && p.writes[|p.writes| - 1] == Committed
            && Extends(writes, p.writes[..|p.writes| - 1], store.supportsMemory))
  {
    if doc.Dict? {
      var p := ReadFields(store, writes, doc.entries);
      ReadFieldsExtends(store, writes, doc.entries);
      if p.error.None? {
        assert (p.writes + [Committed])[..|p.writes|] == p.writes;
      }
    }
  }

  /** A section writes at most one entry per record, keeps the earlier
      writes, and writes one entry per record exactly when no record fails;
      when one fails, it is the record after the last one written, and it
      fails against the log as the records before it left it. */
  lemma {:induction false} ReadRecordsOutcome(writes: seq<Write>, step: RecordStep, records: seq<Obj>)
    ensures var p := ReadRecords(writes, step, records);
      && |writes| <= |p.writes| <= |writes| + |records| && p.writes[..|writes|] == writes
      && (p.error.None? ==> |p.writes| == |writes| + |records|)
      && (p.error.Some? ==>
            var k := |p.writes| - |writes|;
            k < |records| && step(p.writes, records[k]) == Failure(p.error.value))
    decreases records
  {
    if records != [] {
      var w := step(writes, records[0]);
      if w.Success? {
        var next := writes + [w.value];
        ReadRecordsOutcome(next, step, records[1..]);
        var p := ReadRecords(next, step, records[1..]);
        assert p.writes[..|writes|] == p.writes[..|next|][..|writes|];
        if p.error.Some? {
          assert records[|p.writes| - |writes|] == records[1..][|p.writes| - |next|];
        }
      }
    }
  }

  /** Each record written is written as its own write, evaluated against the
      log as the records before it left it. */
  lemma {:induction false} ReadRecordsOneWriteEach(writes: seq<Write>, step: RecordStep, records: seq<Obj>)
    ensures var p := ReadRecords(writes, step, records);
      forall k :: 0 <= k < |p.writes| - |writes| && k < |records| ==>
        step(p.writes[..|writes| + k], records[k]) == Success(p.writes[|writes| + k])
    decreases records
  {
    if records != [] {
      var w := step(writes, records[0]);
      if w.Success? {
        var next := writes + [w.value];
        ReadRecordsOutcome(next, step, records[1..]);
        ReadRecordsOneWriteEach(next, step, records[1..]);
        var p := ReadRecords(next, step, records[1..]);
        assert p.writes[..|next|] == next;
        forall k | 0 <= k < |p.writes| - |writes| && k < |records|
          ensures step(p.writes[..|writes| + k], records[k]) == Success(p.writes[|writes| + k])
        {
          if k == 0 {
            assert p.writes[..|writes|] == next[..|writes|] == writes;
            assert p.writes[|writes|] == next[|writes|];
          } else {
            assert records[k] == records[1..][k - 1];
            assert |writes| + k == |next| + (k - 1);
          }
        }
      }
    }
  }

  /** Whether a top-level field is one `readGraph` acts on. */
  predicate Recognised(name: string)
  {
    name == TokenProperties || name == TokenVertices || name == TokenEdges
  }

  function RecognisedFields(fields: seq<(string, Obj)>): (r: seq<(string, Obj)>)
    ensures forall f :: f in r <==> f in fields && Recognised(f.0)
  {
    if fields == [] then []
    else if Recognised(fields[0].0) then [fields[0]] + RecognisedFields(fields[1..])
    else RecognisedFields(fields[1..])
  }

  /** Fields other than `properties`, `vertices` and `edges` change nothing:
      dropping them leaves the outcome of the read as it was. */
  lemma {:induction false} UnrecognisedFieldsIgnored(store: Store, writes: seq<Write>, fields: seq<(string, Obj)>)
    ensures ReadFields(store, writes, fields) == ReadFields(store, writes, RecognisedFields(fields))
    decreases fields
  {
    if fields != [] {
      var p := FieldStep(store, writes, fields[0]);
      if p.error.None? {
        UnrecognisedFieldsIgnored(store, p.writes, fields[1..]);
      }
      if !Recognised(fields[0].0) {
        assert p == Progress(writes, None);
        UnrecognisedFieldsIgnored(store, writes, fields[1..]);
      }
    }
  }

  /** One turn of the field loop, from position `i`. */
  lemma ReadFieldsStep(store: Store, writes: seq<Write>, fields: seq<(string, Obj)>, i: nat)
    requires i < |fields|
    ensures ReadFields(store, writes, fields[i..]) ==
              var p := FieldStep(store, writes, fields[i]);
              if p.error.Some? then p else ReadFields(store, p.writes, fields[i + 1..])
  {
    assert fields[i..][0] == fields[i] && fields[i..][1..] == fields[i + 1..];
  }

  /** One turn of a section's record loop, from position `i`. */
  lemma ReadRecordsStep(writes: seq<Write>, step: RecordStep, records: seq<Obj>, i: nat)
    requires i < |records|
    ensures var w := step(writes, records[i]);
      ReadRecords(writes, step, records[i..]) ==
        if w.Failure? then Progress(writes, Some(w.error)) else ReadRecords(writes + [w.value], step, records[i + 1..])
  {
    assert records[i..][0] == records[i] && records[i..][1..] == records[i + 1..];
  }

  // ---------------------------------------------------------------------
  // `readVertex`, `readEdge` and the edge lists: calls to the makers

  /** One call to a caller-supplied maker: the vertex maker receives an id
      and an array; the edge maker an id, the out- and in-vertex ids, a
      label and an array. */
  datatype MakerCall =
    | VertexMade(id: Obj, keyValues: seq<Obj>)
    | EdgeMade(id: Obj, outId: Obj, inId: Obj, edgeLabel: string, keyValues: seq<Obj>)

  /** The maker calls a read makes, and the failure that stopped it, if any. */
  datatype MakerRun = MakerRun(calls: seq<MakerCall>, error: Option<ReadError>)

  /** The vertex maker call of `readVertex` for a document. */
  function VertexCall(doc: Obj): Result<MakerCall, ReadError>
  {
    match Decoded(doc)
    case Failure(e) => Failure(e)
    case Success(data) =>
      match MakerVertexArgs(data)
      case Failure(e) => Failure(e)
      case Success(args) => Success(VertexMade(Get(data, TokenId), args))
  }

  /** The edge maker call for an edge record: the array is built first, then
      the label is rendered (a null label is dereferenced and fails). */
  function EdgeCall(data: seq<(string, Obj)>): Result<MakerCall, ReadError>
  {
    match MakerEdgeArgs(data)
    case Failure(e) => Failure(e)
    case Success(args) =>
      match LabelOf(Get(data, TokenLabel))
      case Failure(e) => Failure(e)
      case Success(l) => Success(EdgeMade(Get(data, TokenId), Get(data, TokenOut), Get(data, TokenIn), l, args))
  }

  /** An element of an edge list, cast to a map, then read as an edge record. */
  function ListedEdgeCall(record: Obj): Result<MakerCall, ReadError>
  {
    match AsMap(record)
    case Failure(e) => Failure(e)
    case Success(data) => EdgeCall(data)
  }

  /** The `for` loop over an edge list: one edge maker call per element, in
      list order, until an element fails. */
  function EdgeCalls(records: seq<Obj>): MakerRun
  {
    if records == [] then MakerRun([], None)
    else
      match ListedEdgeCall(records[0])
      case Failure(e) => MakerRun([], Some(e))
      case Success(c) =>
        var rest := EdgeCalls(records[1..]);
        MakerRun([c] + rest.calls, rest.error)
  }

  /** The edge list under a key: a null list fails when iterated, anything
      but a list fails the cast. */
  function EdgeListCalls(edges: Obj): MakerRun
  {
    match edges
    case List(records) => EdgeCalls(records)
    case Null => MakerRun([], Some(NullPointer))
    case _ => MakerRun([], Some(ClassCast))
  }

  /** `Direction`: which incident edge lists a directional read takes. */
  datatype Direction = Out | In | Both

  predicate ReadsOut(d: Direction) { d == Both || d == Out }

  predicate ReadsIn(d: Direction) { d == Both || d == In }

  /** The edge lists a directional read takes from a vertex record: the
      out-edge list when the record has one and the direction takes it, then
      likewise the in-edge list. */
  function DirectedEdgeCalls(data: seq<(string, Obj)>, d: Direction): MakerRun
  {
    var outRun := if ContainsKey(data, TokenOut) && ReadsOut(d) then EdgeListCalls(Get(data, TokenOut)) else MakerRun([], None);
    if outRun.error.Some? then outRun
    else
      var inRun := if ContainsKey(data, TokenIn) && ReadsIn(d) then EdgeListCalls(Get(data, TokenIn)) else MakerRun([], None);
      MakerRun(outRun.calls + inRun.calls, inRun.error)
  }

  /** The directional `readVertex`: the vertex call, then its edge lists. */
  function VertexWithEdgesCalls(doc: Obj, d: Direction): MakerRun
  {
    WithVertex(VertexCall(doc), if doc.Dict? then DirectedEdgeCalls(doc.entries, d) else MakerRun([], None))
  }

  /** A vertex call followed by the edge calls of `edges`; a failed vertex
      call makes no call at all. */
  function WithVertex(vertex: Result<MakerCall, ReadError>, edges: MakerRun): MakerRun
  {
    match vertex
    case Failure(e) => MakerRun([], Some(e))
    case Success(c) => MakerRun([c] + edges.calls, edges.error)
  }

  /** The edge maker call of `readEdge` for a document. */
  function EdgeReadCall(doc: Obj): Result<MakerCall, ReadError>
  {
    match Decoded(doc)
    case Failure(e) => Failure(e)
    case Success(data) => EdgeCall(data)
  }

  /** An edge list calls the edge maker once per element, in list order,
      each call being that element's own; it stops at the first element that
      fails, with that element's failure, and reaches the end exactly when
      no element fails. */
  lemma {:induction false} EdgeCallsInOrder(records: seq<Obj>)
    ensures var r := EdgeCalls(records);
      && |r.calls| <= |records|
      && (forall k :: 0 <= k < |r.calls| ==> ListedEdgeCall(records[k]) == Success(r.calls[k]))
      && (r.error.None? <==> forall k :: 0 <= k < |records| ==> ListedEdgeCall(records[k]).Success?)
      && (r.error.None? ==> |r.calls| == |records|)
      && (r.error.Some? ==> |r.calls| < |records| && ListedEdgeCall(records[|r.calls|]) == Failure(r.error.value))
  {
    if records != [] && ListedEdgeCall(records[0]).Success? {
      EdgeCallsInOrder(records[1..]);
      forall k | 1 <= k < |records|
        ensures records[k] == records[1..][k - 1]
      {
      }
    }
  }

  /** Every edge maker call carries only property pairs: an array of twice
      as many entries as the record has properties, a string at each key
      position. */
  lemma EdgeCallCarriesPropertiesOnly(data: seq<(string, Obj)>)
    ensures var c := EdgeCall(data);
      c.Success? ==>
        && c.value.EdgeMade?
        && |c.value.keyValues| == 2 * |Get(data, TokenProperties).entries|
        && (forall i :: 0 <= i < |c.value.keyValues| / 2 ==> c.value.keyValues[2 * i].Str?)
        && c.value.id == Get(data, TokenId) && c.value.outId == Get(data, TokenOut) && c.value.inId == Get(data, TokenIn)
  {
    MakerEdgeArgsArePropertiesOnly(data);
  }

  /** The directional read makes the plain `readVertex` call first, and
      fails with no call at all exactly when that call fails. */
  lemma VertexWithEdgesStartsWithVertex(doc: Obj, d: Direction)
    ensures var run := VertexWithEdgesCalls(doc, d);
      && (VertexCall(doc).Failure? ==> run == MakerRun([], Some(VertexCall(doc).error)))
      && (VertexCall(doc).Success? ==> 0 < |run.calls| && run.calls[0] == VertexCall(doc).value)
  {
  }

  /** Reading both directions reads the out-edges first: it is the
      out-only read followed by the edge calls of the in-only read, and it
      is the out-only read alone when that one fails. */
  lemma BothIsOutThenIn(doc: Obj)
    ensures var outOnly := VertexWithEdgesCalls(doc, Out);
      var inOnly := VertexWithEdgesCalls(doc, In);
      var both := VertexWithEdgesCalls(doc, Both);
      && (outOnly.error.Some? ==> both == outOnly)
      && (outOnly.error.None? ==>
            && 0 < |inOnly.calls|
            && both.calls == outOnly.calls + inOnly.calls[1..]
            && both.error == inOnly.error)
  {
    if doc.Dict? {
      DirectedBothIsOutThenIn(doc.entries);
    }
    var none := MakerRun([], None);
    WithVertexOutThenIn(VertexCall(doc),
      if doc.Dict? then DirectedEdgeCalls(doc.entries, Out) else none,
      if doc.Dict? then DirectedEdgeCalls(doc.entries, In) else none,
      if doc.Dict? then DirectedEdgeCalls(doc.entries, Both) else none);
  }

  /** `BothIsOutThenIn` for any vertex call, given that the edge calls of
      both directions are those of the out-edges and then the in-edges. */
  lemma WithVertexOutThenIn(vertex: Result<MakerCall, ReadError>, outEdges: MakerRun, inEdges: MakerRun, bothEdges: MakerRun)
    requires outEdges.error.Some? ==> bothEdges == outEdges
    requires outEdges.error.None? ==> bothEdges == MakerRun(outEdges.calls + inEdges.calls, inEdges.error)
    ensures var outOnly := WithVertex(vertex, outEdges);
      var inOnly := WithVertex(vertex, inEdges);
      var both := WithVertex(vertex, bothEdges);
      && (outOnly.error.Some? ==> both == outOnly)
      && (outOnly.error.None? ==>
            && 0 < |inOnly.calls|
            && both.calls == outOnly.calls + inOnly.calls[1..]
            && both.error == inOnly.error)
  {
    if vertex.Success? && outEdges.error.None? {
      var c := vertex.value;
      assert ([c] + inEdges.calls)[1..] == inEdges.calls;
      assert [c] + (outEdges.calls + inEdges.calls) == ([c] + outEdges.calls) + inEdges.calls;
    }
  }

  /** The edge-list part of `BothIsOutThenIn`. */
  lemma DirectedBothIsOutThenIn(data: seq<(string, Obj)>)
    ensures var outEdges := DirectedEdgeCalls(data, Out);
      var inEdges := DirectedEdgeCalls(data, In);
      && (outEdges.error.Some? ==> DirectedEdgeCalls(data, Both) == outEdges)
      && (outEdges.error.None? ==> DirectedEdgeCalls(data, Both) == MakerRun(outEdges.calls + inEdges.calls, inEdges.error))
  {
    var outRun := if ContainsKey(data, TokenOut) then EdgeListCalls(Get(data, TokenOut)) else MakerRun([], None);
    var inRun := if ContainsKey(data, TokenIn) then EdgeListCalls(Get(data, TokenIn)) else MakerRun([], None);
    assert outRun.calls + [] == outRun.calls;
    assert [] + inRun.calls == inRun.calls;
  }

  /** A record without edge lists yields the vertex call alone, whatever
      the direction. */
  lemma NoEdgeListsNoEdgeCalls(doc: Obj, d: Direction)
    requires doc.Dict? && !ContainsKey(doc.entries, TokenOut) && !ContainsKey(doc.entries, TokenIn)
    ensures VertexCall(doc).Success? ==> VertexWithEdgesCalls(doc, d) == MakerRun([VertexCall(doc).value], None)
  {
  }

  // ---------------------------------------------------------------------
  // The imperative reader

  /** The caller-supplied makers, recording every call made to them; what
      each returns is a function of its arguments. */
  class Makers {
    var calls: seq<MakerCall>
    const vertexOf: (Obj, seq<Obj>) -> Vertex
    const edgeOf: (Obj, Obj, Obj, string, seq<Obj>) -> Edge

    constructor (vertexOf: (Obj, seq<Obj>) -> Vertex, edgeOf: (Obj, Obj, Obj, string, seq<Obj>) -> Edge)
      ensures calls == [] && this.vertexOf == vertexOf && this.edgeOf == edgeOf
    {
      calls := [];
      this.vertexOf := vertexOf;
      this.edgeOf := edgeOf;
    }

    /** `vertexMaker.apply(id, keyValues)`. */
    method MakeVertex(id: Obj, keyValues: seq<Obj>) returns (v: Vertex)
      modifies this`calls
      ensures calls == old(calls) + [VertexMade(id, keyValues)] && v == vertexOf(id, keyValues)
    {
      calls := calls + [VertexMade(id, keyValues)];
      v := vertexOf(id, keyValues);
    }

    /** `edgeMaker.apply(id, outId, inId, label, keyValues)`. */
    method MakeEdge(id: Obj, outId: Obj, inId: Obj, edgeLabel: string, keyValues: seq<Obj>) returns (e: Edge)
      modifies this`calls
      ensures calls == old(calls) + [EdgeMade(id, outId, inId, edgeLabel, keyValues)]
      ensures e == edgeOf(id, outId, inId, edgeLabel, keyValues)
    {
      calls := calls + [EdgeMade(id, outId, inId, edgeLabel, keyValues)];
      e := edgeOf(id, outId, inId, edgeLabel, keyValues);
    }
  }

  /** The edge maker call for one edge record. */
  method MakeEdgeFrom(makers: Makers, data: seq<(string, Obj)>) returns (r: Result<Edge, ReadError>)
    modifies makers`calls
    ensures var c := EdgeCall(data);
      && (c.Failure? ==> makers.calls == old(makers.calls) && r == Failure(c.error))
      && (c.Success? ==> makers.calls == old(makers.calls) + [c.value] &&
                         r == Success(makers.edgeOf(c.value.id, c.value.outId, c.value.inId, c.value.edgeLabel, c.value.keyValues)))
  {
    var args := MakerEdgeArgs(data);
    if args.Failure? {
      return Failure(args.error);
    }
    var l := LabelOf(Get(data, TokenLabel));
    if l.Failure? {
      return Failure(l.error);
    }
    var e := makers.MakeEdge(Get(data, TokenId), Get(data, TokenOut), Get(data, TokenIn), l.value, args.value);
    r := Success(e);
  }

  /** One element of an edge list: cast to a map, then its edge maker call. */
  method MakeListedEdge(makers: Makers, record: Obj) returns (err: Option<ReadError>)
    modifies makers`calls
    ensures var c := ListedEdgeCall(record);
      && (c.Failure? ==> makers.calls == old(makers.calls) && err == Some(c.error))
      && (c.Success? ==> makers.calls == old(makers.calls) + [c.value] && err.None?)
  {
    var data := AsMap(record);
    if data.Failure? {
      return Some(data.error);
    }
    var e := MakeEdgeFrom(makers, data.value);
    err := if e.Failure? then Some(e.error) else None;
  }

  /** One turn of the edge-list loop, from position `i`. */
  lemma EdgeCallsStep(records: seq<Obj>, i: nat)
    requires i < |records|
    ensures var c := ListedEdgeCall(records[i]);
      EdgeCalls(records[i..]) ==
        if c.Failure? then MakerRun([], Some(c.error))
        else MakerRun([c.value] + EdgeCalls(records[i + 1..]).calls, EdgeCalls(records[i + 1..]).error)
  {
    assert records[i..][0] == records[i] && records[i..][1..] == records[i + 1..];
  }

  /** The loop both edge-list readers run over the list under their key. */
  method ReadEdgeList(makers: Makers, edges: Obj) returns (err: Option<ReadError>)
    modifies makers`calls
    ensures makers.calls == old(makers.calls) + EdgeListCalls(edges).calls
    ensures err == EdgeListCalls(edges).error
  {
    if edges.Null? {
      err := Some(NullPointer);
    } else if !edges.List? {
      err := Some(ClassCast);
    } else {
      err := ReadEdgeRecords(makers, edges.items);
    }
  }

  /** The `for` loop over the elements of an edge list. */
  method ReadEdgeRecords(makers: Makers, records: seq<Obj>) returns (err: Option<ReadError>)
    modifies makers`calls
    ensures makers.calls == old(makers.calls) + EdgeCalls(records).calls
    ensures err == EdgeCalls(records).error
  {
    ghost var all := EdgeCalls(records);
    var i := 0;
    assert records[i..] == records;
    while i < |records|
      invariant 0 <= i <= |records|
      invariant old(makers.calls) + all.calls == makers.calls + EdgeCalls(records[i..]).calls
      invariant all.error == EdgeCalls(records[i..]).error
    {
      var e := EdgeListTurn(makers, records, i);
      if e.Some? {
        return e;
      }
      i := i + 1;
    }
    assert records[i..] == [];
    err := None;
  }

  /** One turn of the edge-list loop: the element at `i` makes its call,
      and either the rest of the list remains or the loop stops with its
      failure. */
  method EdgeListTurn(makers: Makers, records: seq<Obj>, i: nat) returns (err: Option<ReadError>)
    requires i < |records|
    modifies makers`calls
    ensures var rest := EdgeCalls(records[i + 1..]);
      err.None? ==> makers.calls + rest.calls == old(makers.calls) + EdgeCalls(records[i..]).calls &&
                    rest.error == EdgeCalls(records[i..]).error
    ensures err.Some? ==> makers.calls == old(makers.calls) + EdgeCalls(records[i..]).calls &&
                          err == EdgeCalls(records[i..]).error
  {
    EdgeCallsStep(records, i);
    err := MakeListedEdge(makers, records[i]);
  }

  /** `readVertexOutEdges`: the edge list under the out key. */
  method ReadVertexOutEdges(makers: Makers, data: seq<(string, Obj)>) returns (err: Option<ReadError>)
    modifies makers`calls
    ensures makers.calls == old(makers.calls) + EdgeListCalls(Get(data, TokenOut)).calls
    ensures err == EdgeListCalls(Get(data, TokenOut)).error
  {
    err := ReadEdgeList(makers, Get(data, TokenOut));
  }

  /** `readVertexInEdges`: the edge list under the in key. */
  method ReadVertexInEdges(makers: Makers, data: seq<(string, Obj)>) returns (err: Option<ReadError>)
    modifies makers`calls
    ensures makers.calls == old(makers.calls) + EdgeListCalls(Get(data, TokenIn)).calls
    ensures err == EdgeListCalls(Get(data, TokenIn)).error
  {
    err := ReadEdgeList(makers, Get(data, TokenIn));
  }

  /** The decoding setup a reader was built with. Decoding itself is not
      modelled: documents arrive decoded. */
  datatype SerializerModule = SerializerModule(name: nat)
  datatype Mapper = DefaultMapper | ModuleMapper(serializers: SerializerModule)

  class GraphSONReader {
    const g: Graph
    const mapper: Mapper

    constructor (g: Graph, mapper: Mapper)
      ensures this.g == g && this.mapper == mapper
    {
      this.g := g;
      this.mapper := mapper;
    }

    /** One vertex record: a vertex write from its array. */
    method ReadVertexRecord(record: Obj) returns (err: Option<ReadError>)
      modifies g`writes
      ensures var w := VertexWrite(g.store, old(g.writes), record);
        && (w.Success? ==> g.writes == old(g.writes) + [w.value] && err.None?)
        && (w.Failure? ==> g.writes == old(g.writes) && err == Some(w.error))
    {
      var data := Decoded(record);
      if data.Failure? {
        return Some(data.error);
      }
      var args := GraphVertexArgs(data.value);
      if args.Failure? {
        return Some(args.error);
      }
      var _ := g.AddVertex(args.value);
      err := None;
    }

    /** One edge record: both ends are resolved, then the edge is added from
      the out-vertex. */
    method ReadEdgeRecord(record: Obj) returns (err: Option<ReadError>)
      modifies g`writes
      ensures var w := EdgeWrite(g.store, old(g.writes), record);
        && (w.Success? ==> g.writes == old(g.writes) + [w.value] && err.None?)
        && (w.Failure? ==> g.writes == old(g.writes) && err == Some(w.error))
    {
      var data := Decoded(record);
      if data.Failure? {
        return Some(data.error);
      }
      var args := GraphEdgeArgs(data.value);
      if args.Failure? {
        return Some(args.error);
      }
      var vOut := g.V(Get(data.value, TokenOut));
      var vIn := g.V(Get(data.value, TokenIn));
      var l := LabelOf(Get(data.value, TokenLabel));
      if l.Failure? {
        return Some(l.error);
      }
      if vOut.None? {
        return Some(NullPointer);
      }
      g.AddEdge(vOut.value, l.value, vIn, args.value);
      err := None;
    }

    /** The record loop of the `vertices` or `edges` field. */
    method ReadSection(section: Section, records: seq<Obj>) returns (err: Option<ReadError>)
      modifies g`writes
      ensures var p := ReadRecords(old(g.writes), RecordWriter(g.store, section), records);
        g.writes == p.writes && err == p.error
    {
      var step := RecordWriter(g.store, section);
      var i := 0;
      assert records[i..] == records;
      while i < |records|
        invariant 0 <= i <= |records|
        invariant ReadRecords(g.writes, step, records[i..]) == ReadRecords(old(g.writes), step, records)
      {
        ReadRecordsStep(g.writes, step, records, i);
        assert step(g.writes, records[i]) == RecordWrite(g.store, g.writes, section, records[i]);
        var e;
        if section == VertexSection {
          e := ReadVertexRecord(records[i]);
        } else {
          e := ReadEdgeRecord(records[i]);
        }
        if e.Some? {
          return e;
        }
        i := i + 1;
      }
      assert records[i..] == [];
      err := None;
    }

    /** The `properties` field: graph memory, when the graph supports it. */
    method WriteMemory(payload: Obj) returns (err: Option<ReadError>)
      modifies g`writes
      ensures var m := MemoryWrites(g.store, payload);
        && (m.Success? ==> g.writes == old(g.writes) + m.value && err.None?)
        && (m.Failure? ==> g.writes == old(g.writes) && err == Some(m.error))
    {
      if !payload.Dict? && !payload.Null? {
        return Some(IOError);
      }
      if !g.store.supportsMemory {
        return None;
      }
      if payload.Null? {
        return Some(NullPointer);
      }
      var es := payload.entries;
      var i := 0;
      while i < |es|
        invariant 0 <= i <= |es|
        invariant g.writes == old(g.writes) + MemorySets(es[..i])
      {
        assert es[..i + 1][..i] == es[..i];
        g.SetMemory(es[i].0, es[i].1);
        i := i + 1;
      }
      assert es[..i] == es;
      err := None;
    }

    /** One top-level field, dispatched on its name. */
    method ReadField(field: (string, Obj)) returns (err: Option<ReadError>)
      modifies g`writes
      ensures var p := FieldStep(g.store, old(g.writes), field);
        g.writes == p.writes && err == p.error
    {
      var (name, payload) := field;
      if name == TokenProperties {
        err := WriteMemory(payload);
      } else if name == TokenVertices || name == TokenEdges {
        if payload.List? {
          err := ReadSection(if name == TokenVertices then VertexSection else EdgeSection, payload.items);
        } else {
          err := Some(IOError);
        }
      } else {
        err := None;
      }
    }

    /** `readGraph`: proved against `ReadGraphSpec`, whose properties are
        the lemmas above. */
    method ReadGraph(doc: Obj) returns (err: Option<ReadError>)
      modifies g`writes
      ensures var p := ReadGraphSpec(g.store, old(g.writes), doc);
        g.writes == p.writes && err == p.error
    {
      if !doc.Dict? {
        return Some(IOError);
      }
      var fields := doc.entries;
      var i := 0;
      assert fields[i..] == fields;
      while i < |fields|
        invariant 0 <= i <= |fields|
        invariant ReadFields(g.store, g.writes, fields[i..]) == ReadFields(g.store, old(g.writes), fields)
      {
        ReadFieldsStep(g.store, g.writes, fields, i);
        var e := ReadField(fields[i]);
        if e.Some? {
          return e;
        }
        i := i + 1;
      }
      assert fields[i..] == [];
      g.Commit();
      err := None;
    }

    /** `readVertex(in, vertexMaker)`: exactly one vertex maker call, with
        the record's id and its property-and-label array. */
    method ReadVertex(doc: Obj, makers: Makers) returns (r: Result<Vertex, ReadError>)
      modifies makers`calls
      ensures var c := VertexCall(doc);
        && (c.Failure? ==> makers.calls == old(makers.calls) && r == Failure(c.error))
        && (c.Success? ==> makers.calls == old(makers.calls) + [c.value] &&
                           r == Success(makers.vertexOf(c.value.id, c.value.keyValues)))
    {
      var data := Decoded(doc);
      if data.Failure? {
        return Failure(data.error);
      }
      var args := MakerVertexArgs(data.value);
      if args.Failure? {
        return Failure(args.error);
      }
      var v := makers.MakeVertex(Get(data.value, TokenId), args.value);
      r := Success(v);
    }

    /** `readVertex(in, direction, vertexMaker, edgeMaker)`: the vertex
        first, then the edge lists the direction selects, out before in;
        the vertex made is the one returned. */
    method ReadVertexWithEdges(doc: Obj, d: Direction, makers: Makers) returns (r: Result<Vertex, ReadError>)
      modifies makers`calls
      ensures var run := VertexWithEdgesCalls(doc, d);
        && makers.calls == old(makers.calls) + run.calls
        && (run.error.Some? ==> r == Failure(run.error.value))
        && (run.error.None? ==>
              VertexCall(doc).Success? &&
              r == Success(makers.vertexOf(VertexCall(doc).value.id, VertexCall(doc).value.keyValues)))
    {
      r := ReadVertex(doc, makers);
      if r.Failure? {
        return;
      }
      var e := ReadDirectedEdges(makers, doc.entries, d);
      assert makers.calls == old(makers.calls) + ([VertexCall(doc).value] + DirectedEdgeCalls(doc.entries, d).calls);
      if e.Some? {
        r := Failure(e.value);
      }
    }

    /** The edge-list part of the directional read. */
    method ReadDirectedEdges(makers: Makers, data: seq<(string, Obj)>, d: Direction) returns (err: Option<ReadError>)
      modifies makers`calls
      ensures makers.calls == old(makers.calls) + DirectedEdgeCalls(data, d).calls
      ensures err == DirectedEdgeCalls(data, d).error
    {
      err := None;
      if ContainsKey(data, TokenOut) && ReadsOut(d) {
        err := ReadVertexOutEdges(makers, data);
        if err.Some? {
          return;
        }
      }
      if ContainsKey(data, TokenIn) && ReadsIn(d) {
        err := ReadVertexInEdges(makers, data);
      }
    }

    /** `readEdge`: exactly one edge maker call, whose result is returned. */
    method ReadEdge(doc: Obj, makers: Makers) returns (r: Result<Edge, ReadError>)
      modifies makers`calls
      ensures var c := EdgeReadCall(doc);
        && (c.Failure? ==> makers.calls == old(makers.calls) && r == Failure(c.error))
        && (c.Success? ==> makers.calls == old(makers.calls) + [c.value] &&
                           r == Success(makers.edgeOf(c.value.id, c.value.outId, c.value.inId, c.value.edgeLabel, c.value.keyValues)))
    {
      var data := Decoded(doc);
      if data.Failure? {
        return Failure(data.error);
      }
      r := MakeEdgeFrom(makers, data.value);
    }
  }

  /** `GraphSONReader.Builder`. */
  class Builder {
    const g: Graph
    var mapper: Mapper

    constructor (g: Graph)
      ensures this.g == g && mapper == DefaultMapper
    {
      this.g := g;
      mapper := DefaultMapper;
    }

    /** A missing serializer module is refused and leaves the builder as it was;
        otherwise the mapper is rebuilt around the module. */
    method CustomSerializer(serializers: Option<SerializerModule>) returns (r: Result<Builder, ReadError>)
      modifies this`mapper
      ensures serializers.None? ==> r == Failure(IllegalArgument) && mapper == old(mapper)
      ensures serializers.Some? ==> r == Success(this) && mapper == ModuleMapper(serializers.value)
    {
      if serializers.None? {
        return Failure(IllegalArgument);
      }
      mapper := ModuleMapper(serializers.value);
      r := Success(this);
    }

    /** A reader over the builder's graph and mapper. */
    method Build() returns (reader: GraphSONReader)
      ensures fresh(reader) && reader.g == g && reader.mapper == mapper
    {
      reader := new GraphSONReader(g, mapper);
    }
  }
}
