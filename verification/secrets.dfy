/** `v1Secret`: two maps that are left out of the payload when empty, the
    metadata, and an optional type tag renamed from `type_` to "type". */
module Secrets {
  import opened Wrappers
  import opened Wire
  import opened Presence

  datatype V1Secret = V1Secret(
    data: map<string, seq<bv8>>,
    metadata: ObjectMeta,
    stringData: map<string, string>,
    type_: Option<string>)
  {
    /** `KubeObject::meta`. */
    function Meta(): ObjectMeta {
      metadata
    }
  }

  // The wire schema of `v1Secret`, in declaration order.  `type_` carries
  // `#[serde(default)]` on an `Option`, which behaves exactly as a plain
  // Optional field: missing and null both give None, None is written as null.

  const DataField: FieldSpec := FieldSpec("data", OmitIfEmpty, ByteMapShape)
  const StringDataField: FieldSpec := FieldSpec("stringData", OmitIfEmpty, StringMapShape)
  const TypeField: FieldSpec := FieldSpec("type", Optional, StringShape)

  const SecretSchema: Schema := [DataField, MetadataField, StringDataField, TypeField]

  /** Serialization: the two maps only when non-empty, the rest always. */
  function EncodeSecret(s: V1Secret): Payload {
    var always := map[
      "metadata" := FromObjectMeta(s.metadata),
      "type" := FromOption(s.type_, FromString)
    ];
    var withData := PutUnlessEmpty(always, "data", |s.data| == 0, FromByteMap(s.data));
    PutUnlessEmpty(withData, "stringData", |s.stringData| == 0, FromStringMap(s.stringData))
  }

  /** Deserialization, field by field in declaration order. */
  function DecodeSecret(p: Payload): Result<V1Secret, SchemaViolation> {
    var data :- DecodeDefaulted(p, "data", AsByteMap, map[]);
    var metadata :- DecodeRequired(p, "metadata", AsObjectMeta);
    var stringData :- DecodeDefaulted(p, "stringData", AsStringMap, map[]);
    var type_ :- DecodeOptional(p, "type", AsString);
    Success(V1Secret(data, metadata, stringData, type_))
  }

  // ---------------------------------------------------------------------
  // Encoding

  /** Each map is written exactly when it is non-empty, and then with its
      full contents; "metadata" and "type" are always written; nothing else is. */
  lemma {:induction false} EncodedSecretKeys(s: V1Secret)
    ensures var p := EncodeSecret(s);
      && ("data" in p <==> |s.data| != 0)
      && ("data" in p ==> p["data"] == FromByteMap(s.data))
      && ("stringData" in p <==> |s.stringData| != 0)
      && ("stringData" in p ==> p["stringData"] == FromStringMap(s.stringData))
      && "metadata" in p && p["metadata"] == FromObjectMeta(s.metadata)
      && "type" in p && p["type"] == FromOption(s.type_, FromString)
      && p.Keys <= Keys(SecretSchema)
  {
    var always := map["metadata" := FromObjectMeta(s.metadata), "type" := FromOption(s.type_, FromString)];
    var withData := PutUnlessEmpty(always, "data", |s.data| == 0, FromByteMap(s.data));
    assert EncodeSecret(s) == PutUnlessEmpty(withData, "stringData", |s.stringData| == 0, FromStringMap(s.stringData));
    SecretSchemaKeys();
  }

  /** `type_` is written under "type", as an explicit null when None. */
  lemma EncodedSecretRename(s: V1Secret)
    ensures "type_" !in EncodeSecret(s)
    ensures EncodeSecret(s)["type"] == Null <==> s.type_.None?
  {
    EncodedSecretKeys(s);
  }

  /** Round trip: decoding what a Secret encodes to gives the same Secret,
      including when its maps are empty (and so left out) or its type is None. */
  lemma {:induction false} SecretRoundTrip(s: V1Secret)
    ensures DecodeSecret(EncodeSecret(s)) == Success(s)
  {
    var p := EncodeSecret(s);
    EncodedSecretKeys(s);
    if |s.data| != 0 { ByteMapRoundTrip(s.data); }
    if |s.stringData| != 0 { StringMapRoundTrip(s.stringData); }
    assert DecodeDefaulted(p, "data", AsByteMap, map[]) == Success(s.data);
    assert DecodeRequired(p, "metadata", AsObjectMeta) == Success(s.metadata);
    assert DecodeDefaulted(p, "stringData", AsStringMap, map[]) == Success(s.stringData);
    OptionalFieldRoundTrip(p, "type", s.type_, FromString, AsString);
  }

  /** Encoding is injective: two Secrets with the same payload are equal. */
  lemma SecretEncodingInjective(a: V1Secret, b: V1Secret)
    requires EncodeSecret(a) == EncodeSecret(b)
    ensures a == b
  {
    SecretRoundTrip(a);
    SecretRoundTrip(b);
  }

  // ---------------------------------------------------------------------
  // Decoding

  lemma SecretSchemaKeys()
    ensures Keys(SecretSchema) == {"data", "metadata", "stringData", "type"}
  {
    assert SecretSchema[0].key == "data" && SecretSchema[1].key == "metadata";
    assert SecretSchema[2].key == "stringData" && SecretSchema[3].key == "type";
  }

  /** Decoding succeeds exactly when every field satisfies its policy. */
  lemma {:induction false} SecretDecodeSucceedsIff(p: Payload)
    ensures DecodeSecret(p).Success? <==> Conforms(SecretSchema, p)
  {
    var s := SecretSchema;
    DefaultedAccepts(p, DataField, AsByteMap, map[]);
    RequiredAccepts(p, MetadataField, AsObjectMeta);
    DefaultedAccepts(p, StringDataField, AsStringMap, map[]);
    OptionalAccepts(p, TypeField, AsString);
    assert s[0] == DataField && s[1] == MetadataField && s[2] == StringDataField && s[3] == TypeField;
    if Conforms(s, p) {
      assert Accepts(s[0], p) && Accepts(s[1], p) && Accepts(s[2], p) && Accepts(s[3], p);
    }
  }

  /** What each field of a decoded Secret holds: a missing map key gives the
      empty map, a missing or null "type" gives None, and otherwise each field
      is what the payload holds. */
  lemma {:induction false} DecodedSecretFields(p: Payload)
    requires DecodeSecret(p).Success?
    ensures var s := DecodeSecret(p).value;
      && (if "data" in p then p["data"] == FromByteMap(s.data) else s.data == map[])
      && "metadata" in p && p["metadata"] == FromObjectMeta(s.metadata)
      && (if "stringData" in p then p["stringData"] == FromStringMap(s.stringData) else s.stringData == map[])
      && (if "type" !in p || p["type"] == Null then s.type_ == None else p["type"] == Str(s.type_.value))
  {
    var s := DecodeSecret(p).value;
    if "data" in p {
      var m := AsByteMap(p["data"]).value;
      assert s.data == m;
      assert p["data"].fields.Keys == m.Keys;
      assert FromByteMap(m) == p["data"];
    }
    if "stringData" in p {
      var m := AsStringMap(p["stringData"]).value;
      assert s.stringData == m;
      assert p["stringData"].fields.Keys == m.Keys;
      assert FromStringMap(m) == p["stringData"];
    }
  }

  /** A missing map key never makes a decode fail: removing "data",
      "stringData" or "type" from a payload that decodes leaves one that
      decodes, with that field empty or None. */
  lemma {:induction false} SecretMissingKeyDefaults(p: Payload, k: string)
    requires DecodeSecret(p).Success?
    requires k != "metadata"
    ensures DecodeSecret(p - {k}).Success?
    ensures k == "data" ==> DecodeSecret(p - {k}).value.data == map[]
    ensures k == "stringData" ==> DecodeSecret(p - {k}).value.stringData == map[]
    ensures k == "type" ==> DecodeSecret(p - {k}).value.type_ == None
  {
    SecretDecodeSucceedsIff(p);
    assert SecretSchema[1].key == "metadata";
    DropNonRequiredKey(SecretSchema, p, k);
    SecretDecodeSucceedsIff(p - {k});
    DecodedSecretFields(p - {k});
  }

  /** "metadata" is the one required key. */
  lemma SecretRequiresMetadata(p: Payload)
    ensures "metadata" !in p ==> DecodeSecret(p).Failure?
  {
  }

  /** Decoding reads only the declared keys. */
  lemma {:induction false} SecretDecodeLocal(p: Payload, q: Payload)
    requires AgreeOn(Keys(SecretSchema), p, q)
    ensures DecodeSecret(p) == DecodeSecret(q)
  {
    SecretSchemaKeys();
    assert DecodeDefaulted(q, "data", AsByteMap, map[]) == DecodeDefaulted(p, "data", AsByteMap, map[]);
    assert DecodeRequired(q, "metadata", AsObjectMeta) == DecodeRequired(p, "metadata", AsObjectMeta);
    assert DecodeDefaulted(q, "stringData", AsStringMap, map[]) == DecodeDefaulted(p, "stringData", AsStringMap, map[]);
    assert DecodeOptional(q, "type", AsString) == DecodeOptional(p, "type", AsString);
  }

  /** A failed decode names a field that really breaks its policy. */
  lemma {:induction false} SecretDecodeBlames(p: Payload)
    requires DecodeSecret(p).Failure?
    ensures Blames(SecretSchema, p, DecodeSecret(p).error)
  {
    var err := DecodeSecret(p).error;
    var s := SecretSchema;
    DefaultedAccepts(p, DataField, AsByteMap, map[]);
    RequiredAccepts(p, MetadataField, AsObjectMeta);
    DefaultedAccepts(p, StringDataField, AsStringMap, map[]);
    OptionalAccepts(p, TypeField, AsString);
    assert s[0] == DataField && s[1] == MetadataField && s[2] == StringDataField && s[3] == TypeField;
    var i: int;
    if DecodeDefaulted(p, "data", AsByteMap, map[]).Failure? { i := 0; }
    else if DecodeRequired(p, "metadata", AsObjectMeta).Failure? { i := 1; }
    else if DecodeDefaulted(p, "stringData", AsStringMap, map[]).Failure? { i := 2; }
    else { i := 3; }
    assert s[i].key == err.Key() && !Accepts(s[i], p);
  }

  /** An explicitly empty "data" object decodes to an empty map, so
      encoding the result leaves "data" out altogether: the payload does not
      survive the trip, while the Secret does. */
  lemma EmptyDataDropped(p: Payload)
    requires DecodeSecret(p).Success?
    requires "data" in p && p["data"] == Obj(map[])
    ensures DecodeSecret(p).value.data == map[]
    ensures "data" !in EncodeSecret(DecodeSecret(p).value)
  {
    DecodedSecretFields(p);
    ByteMapEmptiness(DecodeSecret(p).value.data);
    EncodedSecretKeys(DecodeSecret(p).value);
  }
}
