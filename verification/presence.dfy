/** The per-field presence policy shared by the three resource kinds, stated
    once as data.  A resource kind's schema is a list of field declarations;
    `Conforms` says which payloads its decoder must accept, independently of
    how the decoder is written. */
module Presence {
  import opened Wrappers
  import opened Wire

  /** How a field behaves when its key is missing (decode) or its value is
      empty (encode). */
  datatype Policy =
    | Required      // no default, not an Option: a missing key is an error
    | Defaulted     // `#[serde(default)]`: a missing key gives the zero value
    | Optional      // `Option<T>`: a missing key or null gives None; None is written as null
    | OmitIfEmpty   // default + `skip_serializing_if = "BTreeMap::is_empty"`

  /** The shape of value a field's type accepts. */
  datatype Shape =
    | StringShape
    | Int32Shape
    | ByteMapShape
    | StringMapShape
    | ExternalShape(kind: ExternalKind)

  /** One field: its wire key (after any `rename`), its policy and its shape. */
  datatype FieldSpec = FieldSpec(key: string, policy: Policy, shape: Shape)

  type Schema = seq<FieldSpec>

  /** `metadata: ObjectMeta`, with no `default`: Required in all three kinds. */
  const MetadataField: FieldSpec := FieldSpec("metadata", Required, ExternalShape(ObjectMetaKind))

  /** Why a payload was refused. */
  datatype SchemaViolation =
    | MissingField(key: string)
    | Malformed(key: string)
  {
    function Key(): string {
      match this
      case MissingField(k) => k
      case Malformed(k) => k
    }
  }

  /** Whether a value has the shape a field's type accepts. */
  predicate Fits(shape: Shape, v: Value) {
    match shape
    case StringShape => v.Str?
    case Int32Shape => v.Int? && Int32Min <= v.number <= Int32Max
    case ByteMapShape => v.Obj? && forall k | k in v.fields :: v.fields[k].Bytes?
    case StringMapShape => v.Obj? && forall k | k in v.fields :: v.fields[k].Str?
    case ExternalShape(kind) => v.Embedded? && v.kind == kind
  }

  /** Whether one field of a payload satisfies its policy. */
  predicate Accepts(f: FieldSpec, p: Payload) {
    match f.policy
    case Required => f.key in p && Fits(f.shape, p[f.key])
    case Defaulted => f.key !in p || Fits(f.shape, p[f.key])
    case Optional => f.key !in p || p[f.key] == Null || Fits(f.shape, p[f.key])
    case OmitIfEmpty => f.key !in p || Fits(f.shape, p[f.key])
  }

  /** Whether every field of a payload satisfies its policy.  Keys that no
      field declares play no part: unknown keys are ignored. */
  predicate Conforms(schema: Schema, p: Payload) {
    forall i | 0 <= i < |schema| :: Accepts(schema[i], p)
  }

  /** Whether an error names a field that really violates its policy: a
      missing-field error only for a Required field whose key is absent, and
      a malformed-value error only for a key that is present. */
  predicate Blames(schema: Schema, p: Payload, e: SchemaViolation) {
    exists i | 0 <= i < |schema| ::
      && schema[i].key == e.Key()
      && !Accepts(schema[i], p)
      && (e.MissingField? ==> schema[i].policy == Required && e.key !in p)
      && (e.Malformed? ==> e.key in p)
  }

  /** Two payloads hold the same thing under every key in `keys`. */
  predicate AgreeOn(keys: set<string>, p: Payload, q: Payload) {
    forall k | k in keys :: (k in p <==> k in q) && (k in p ==> p[k] == q[k])
  }

  function Keys(schema: Schema): set<string> {
    set i | 0 <= i < |schema| :: schema[i].key
  }

  // ---------------------------------------------------------------------
  // Field decoders, one per policy

  /** A Required field: missing is an error, so is a value of the wrong shape. */
  function DecodeRequired<T>(p: Payload, key: string, leaf: Value -> Option<T>): (r: Result<T, SchemaViolation>)
    ensures key !in p ==> r == Failure(MissingField(key))
    ensures key in p && leaf(p[key]).None? ==> r == Failure(Malformed(key))
    ensures r.Success? <==> key in p && leaf(p[key]).Some?
    ensures r.Success? ==> Some(r.value) == leaf(p[key])
  {
    if key !in p then Failure(MissingField(key))
    else match leaf(p[key])
      case None => Failure(Malformed(key))
      case Some(x) => Success(x)
  }

  /** A Defaulted field (also an OmitIfEmpty map): missing gives `zero`.
      An explicit null is not a missing key and is rejected. */
  function DecodeDefaulted<T>(p: Payload, key: string, leaf: Value -> Option<T>, zero: T): (r: Result<T, SchemaViolation>)
    ensures key !in p ==> r == Success(zero)
    ensures r.Success? <==> key !in p || leaf(p[key]).Some?
    ensures r.Failure? ==> r.error == Malformed(key)
    ensures key in p && r.Success? ==> Some(r.value) == leaf(p[key])
  {
    if key !in p then Success(zero)
    else match leaf(p[key])
      case None => Failure(Malformed(key))
      case Some(x) => Success(x)
  }

  /** An Optional field: a missing key and an explicit null both give None. */
  function DecodeOptional<T>(p: Payload, key: string, leaf: Value -> Option<T>): (r: Result<Option<T>, SchemaViolation>)
    ensures key !in p || p[key] == Null ==> r == Success(None)
    ensures r.Success? <==> key !in p || p[key] == Null || leaf(p[key]).Some?
    ensures r.Failure? ==> r.error == Malformed(key)
    ensures r.Success? && r.value.Some? ==> key in p && Some(r.value.value) == leaf(p[key])
  {
    if key !in p || p[key] == Null then Success(None)
    else match leaf(p[key])
      case None => Failure(Malformed(key))
      case Some(x) => Success(Some(x))
  }

  // ---------------------------------------------------------------------
  // Field encoder for OmitIfEmpty

  /** Adds `key := v` unless the collection it encodes is empty. */
  function PutUnlessEmpty(p: Payload, key: string, isEmpty: bool, v: Value): (r: Payload)
    ensures key in r <==> key in p || !isEmpty
    ensures !isEmpty ==> r[key] == v
    ensures forall k | k in p && k != key :: k in r && r[k] == p[k]
    ensures forall k | k in r && k != key :: k in p
  {
    if isEmpty then p else p[key := v]
  }

  /** An Optional field written by `FromOption` reads back as the same
      Option, provided the leaf encoder never writes null and its decoder
      inverts it. */
  lemma OptionalFieldRoundTrip<T>(p: Payload, key: string, o: Option<T>, leaf: T -> Value, parse: Value -> Option<T>)
    requires key in p && p[key] == FromOption(o, leaf)
    requires o.Some? ==> leaf(o.value) != Null && parse(leaf(o.value)) == Some(o.value)
    ensures DecodeOptional(p, key, parse) == Success(o)
  {
  }

  // Each field decoder succeeds exactly when its field is accepted, given a
  // leaf decoder that accepts exactly the field's shape.

  lemma RequiredAccepts<T>(p: Payload, f: FieldSpec, leaf: Value -> Option<T>)
    requires f.policy == Required
    requires f.key in p ==> (leaf(p[f.key]).Some? <==> Fits(f.shape, p[f.key]))
    ensures DecodeRequired(p, f.key, leaf).Success? <==> Accepts(f, p)
  {
  }

  lemma DefaultedAccepts<T>(p: Payload, f: FieldSpec, leaf: Value -> Option<T>, zero: T)
    requires f.policy == Defaulted || f.policy == OmitIfEmpty
    requires f.key in p ==> (leaf(p[f.key]).Some? <==> Fits(f.shape, p[f.key]))
    ensures DecodeDefaulted(p, f.key, leaf, zero).Success? <==> Accepts(f, p)
  {
  }

  lemma OptionalAccepts<T>(p: Payload, f: FieldSpec, leaf: Value -> Option<T>)
    requires f.policy == Optional
    requires f.key in p ==> (leaf(p[f.key]).Some? <==> Fits(f.shape, p[f.key]))
    ensures DecodeOptional(p, f.key, leaf).Success? <==> Accepts(f, p)
  {
  }

  // ---------------------------------------------------------------------
  // Facts about the policy itself

  /** Only a Required field can be violated by removing its key: dropping a
      key that no Required field uses keeps a conforming payload conforming.
      This is why missing Defaulted, Optional and OmitIfEmpty keys never make
      a decode fail. */
  lemma {:induction false} DropNonRequiredKey(schema: Schema, p: Payload, k: string)
    requires Conforms(schema, p)
    requires forall i | 0 <= i < |schema| :: schema[i].key == k ==> schema[i].policy != Required
    ensures Conforms(schema, p - {k})
  {
    forall i | 0 <= i < |schema|
      ensures Accepts(schema[i], p - {k})
    {
      assert Accepts(schema[i], p);
      if schema[i].key != k {
        assert schema[i].key in p ==> (p - {k})[schema[i].key] == p[schema[i].key];
      }
    }
  }

  /** A Required field's key must be present in every conforming payload. */
  lemma RequiredKeyPresent(schema: Schema, p: Payload, i: int)
    requires 0 <= i < |schema| && schema[i].policy == Required
    requires Conforms(schema, p)
    ensures schema[i].key in p
  {
    assert Accepts(schema[i], p);
  }

  /** Keys outside the schema do not affect conformance. */
  lemma {:induction false} UnknownKeyIgnored(schema: Schema, p: Payload, k: string, v: Value)
    requires k !in Keys(schema)
    ensures Conforms(schema, p[k := v]) <==> Conforms(schema, p)
  {
    forall i | 0 <= i < |schema|
      ensures Accepts(schema[i], p[k := v]) <==> Accepts(schema[i], p)
    {
      assert schema[i].key in Keys(schema);
    }
  }
}
