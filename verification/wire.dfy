/** The abstract wire payload: a keyed tree of values, as a JSON object is
    seen by a field-by-field decoder.  Text syntax, escaping and key order are
    not modelled; a payload is a finite map, so it never holds a key twice. */
module Wire {
  import opened Wrappers

  /** Serialized fields of a type defined outside this unit (ObjectMeta,
      ObjectReference, the time stamps, EventSeries, EventSource).  Their
      inner structure is not modelled; they are only carried. */
  type Opaque = seq<bv8>

  /** Which external type an embedded value was produced by. */
  datatype ExternalKind =
    | ObjectMetaKind
    | ObjectReferenceKind
    | TimeKind
    | MicroTimeKind
    | EventSeriesKind
    | EventSourceKind

  /** One wire value. `Bytes` is the decoded content of a base64 `ByteString`
      leaf; `Embedded` is a nested object owned by an external type. */
  datatype Value =
    | Null
    | Str(text: string)
    | Int(number: int)
    | Bytes(octets: seq<bv8>)
    | Obj(fields: map<string, Value>)
    | Embedded(kind: ExternalKind, content: Opaque)

  /** A top-level payload: wire key to value. */
  type Payload = map<string, Value>

  /** Rust's `i32`. */
  const Int32Min: int := -0x8000_0000
  const Int32Max: int := 0x7FFF_FFFF
  type int32 = x: int | Int32Min <= x <= Int32Max

  // ---------------------------------------------------------------------
  // External types, carried opaquely

  datatype ObjectMeta = ObjectMeta(content: Opaque)
  datatype ObjectReference = ObjectReference(content: Opaque)
  datatype Time = Time(content: Opaque)
  datatype MicroTime = MicroTime(content: Opaque)
  datatype EventSeries = EventSeries(content: Opaque)
  datatype EventSource = EventSource(content: Opaque)

  // ---------------------------------------------------------------------
  // Leaf encoders

  function FromString(s: string): Value { Str(s) }

  function FromInt32(n: int32): Value { Int(n) }

  function FromObjectMeta(m: ObjectMeta): Value { Embedded(ObjectMetaKind, m.content) }
  function FromObjectReference(o: ObjectReference): Value { Embedded(ObjectReferenceKind, o.content) }
  function FromTime(t: Time): Value { Embedded(TimeKind, t.content) }
  function FromMicroTime(t: MicroTime): Value { Embedded(MicroTimeKind, t.content) }
  function FromEventSeries(s: EventSeries): Value { Embedded(EventSeriesKind, s.content) }
  function FromEventSource(s: EventSource): Value { Embedded(EventSourceKind, s.content) }

  /** A `BTreeMap<String, ByteString>` as a nested object of byte leaves. */
  function FromByteMap(m: map<string, seq<bv8>>): Value {
    Obj(map k | k in m :: Bytes(m[k]))
  }

  /** A `BTreeMap<String, String>` as a nested object of string leaves. */
  function FromStringMap(m: map<string, string>): Value {
    Obj(map k | k in m :: Str(m[k]))
  }

  /** `Option<T>` with no skip attribute: `None` is written as an explicit null. */
  function FromOption<T>(o: Option<T>, leaf: T -> Value): Value {
    match o
    case None => Null
    case Some(x) => leaf(x)
  }

  // ---------------------------------------------------------------------
  // Leaf decoders: None means the value has the wrong shape for the field

  function AsString(v: Value): Option<string> {
    if v.Str? then Some(v.text) else None
  }

  /** An integer outside the `i32` range is rejected, as the source's `i32` field would. */
  function AsInt32(v: Value): Option<int32> {
    if v.Int? && Int32Min <= v.number <= Int32Max then Some(v.number) else None
  }

  function AsObjectMeta(v: Value): Option<ObjectMeta> {
    if v.Embedded? && v.kind == ObjectMetaKind then Some(ObjectMeta(v.content)) else None
  }

  function AsObjectReference(v: Value): Option<ObjectReference> {
    if v.Embedded? && v.kind == ObjectReferenceKind then Some(ObjectReference(v.content)) else None
  }

  function AsTime(v: Value): Option<Time> {
    if v.Embedded? && v.kind == TimeKind then Some(Time(v.content)) else None
  }

  function AsMicroTime(v: Value): Option<MicroTime> {
    if v.Embedded? && v.kind == MicroTimeKind then Some(MicroTime(v.content)) else None
  }

  function AsEventSeries(v: Value): Option<EventSeries> {
    if v.Embedded? && v.kind == EventSeriesKind then Some(EventSeries(v.content)) else None
  }

  function AsEventSource(v: Value): Option<EventSource> {
    if v.Embedded? && v.kind == EventSourceKind then Some(EventSource(v.content)) else None
  }

  /** A nested object all of whose entries are byte leaves; anything else
      (including null) is rejected. */
  function AsByteMap(v: Value): Option<map<string, seq<bv8>>> {
    if v.Obj? && forall k | k in v.fields :: v.fields[k].Bytes?
    then Some(map k | k in v.fields :: v.fields[k].octets)
    else None
  }

  /** A nested object all of whose entries are string leaves. */
  function AsStringMap(v: Value): Option<map<string, string>> {
    if v.Obj? && forall k | k in v.fields :: v.fields[k].Str?
    then Some(map k | k in v.fields :: v.fields[k].text)
    else None
  }

  // ---------------------------------------------------------------------
  // Leaf round trips

  lemma ByteMapRoundTrip(m: map<string, seq<bv8>>)
    ensures AsByteMap(FromByteMap(m)) == Some(m)
  {
    var v := FromByteMap(m);
    assert v.fields.Keys == m.Keys;
    var back := map k | k in v.fields :: v.fields[k].octets;
    assert back == m;
  }

  lemma StringMapRoundTrip(m: map<string, string>)
    ensures AsStringMap(FromStringMap(m)) == Some(m)
  {
    var v := FromStringMap(m);
    assert v.fields.Keys == m.Keys;
    var back := map k | k in v.fields :: v.fields[k].text;
    assert back == m;
  }

  /** An encoded map is an empty object exactly when the map is empty. */
  lemma ByteMapEmptiness(m: map<string, seq<bv8>>)
    ensures FromByteMap(m) == Obj(map[]) <==> |m| == 0
  {
    if |m| != 0 {
      var k :| k in m;
      assert k in FromByteMap(m).fields;
    }
  }
}
