/** `v1ConfigMap`: the metadata and two maps that are left out of the
    payload when empty.  It has no type tag. */
module ConfigMaps {
  import opened Wrappers
  import opened Wire
  import opened Presence

  datatype V1ConfigMap = V1ConfigMap(
    metadata: ObjectMeta,
    binaryData: map<string, seq<bv8>>,
    data: map<string, string>)
  {
    /** `KubeObject::meta`. */
    function Meta(): ObjectMeta {
      metadata
    }
  }

  // The wire schema of `v1ConfigMap`, in declaration order.

  const BinaryDataField: FieldSpec := FieldSpec("binaryData", OmitIfEmpty, ByteMapShape)
  const DataField: FieldSpec := FieldSpec("data", OmitIfEmpty, StringMapShape)

  const ConfigMapSchema: Schema := [MetadataField, BinaryDataField, DataField]

  /** Serialization: the two maps only when non-empty, the metadata always. */
  function EncodeConfigMap(c: V1ConfigMap): Payload {
    var always := map["metadata" := FromObjectMeta(c.metadata)];
    var withBinary := PutUnlessEmpty(always, "binaryData", |c.binaryData| == 0, FromByteMap(c.binaryData));
    PutUnlessEmpty(withBinary, "data", |c.data| == 0, FromStringMap(c.data))
  }

  /** Deserialization, field by field in declaration order. */
  function DecodeConfigMap(p: Payload): Result<V1ConfigMap, SchemaViolation> {
    var metadata :- DecodeRequired(p, "metadata", AsObjectMeta);
    var binaryData :- DecodeDefaulted(p, "binaryData", AsByteMap, map[]);
    var data :- DecodeDefaulted(p, "data", AsStringMap, map[]);
    Success(V1ConfigMap(metadata, binaryData, data))
  }

  // ---------------------------------------------------------------------
  // Encoding

  /** Each map is written exactly when it is non-empty, and then with its
      full contents; "metadata" is always written; nothing else is. */
  lemma {:induction false} EncodedConfigMapKeys(c: V1ConfigMap)
    ensures var p := EncodeConfigMap(c);
      && "metadata" in p && p["metadata"] == FromObjectMeta(c.metadata)
      && ("binaryData" in p <==> |c.binaryData| != 0)
      && ("binaryData" in p ==> p["binaryData"] == FromByteMap(c.binaryData))
      && ("data" in p <==> |c.data| != 0)
      && ("data" in p ==> p["data"] == FromStringMap(c.data))
      && p.Keys <= Keys(ConfigMapSchema)
  {
    var always := map["metadata" := FromObjectMeta(c.metadata)];
    var withBinary := PutUnlessEmpty(always, "binaryData", |c.binaryData| == 0, FromByteMap(c.binaryData));
    assert EncodeConfigMap(c) == PutUnlessEmpty(withBinary, "data", |c.data| == 0, FromStringMap(c.data));
    ConfigMapSchemaKeys();
  }

  /** Round trip: decoding what a ConfigMap encodes to gives the same
      ConfigMap, including when either map is empty and so left out. */
  lemma {:induction false} ConfigMapRoundTrip(c: V1ConfigMap)
    ensures DecodeConfigMap(EncodeConfigMap(c)) == Success(c)
  {
    var p := EncodeConfigMap(c);
    EncodedConfigMapKeys(c);
    if |c.binaryData| != 0 { ByteMapRoundTrip(c.binaryData); }
    if |c.data| != 0 { StringMapRoundTrip(c.data); }
    assert DecodeRequired(p, "metadata", AsObjectMeta) == Success(c.metadata);
    assert DecodeDefaulted(p, "binaryData", AsByteMap, map[]) == Success(c.binaryData);
    assert DecodeDefaulted(p, "data", AsStringMap, map[]) == Success(c.data);
  }

  /** Encoding is injective: two ConfigMaps with the same payload are equal. */
  lemma ConfigMapEncodingInjective(a: V1ConfigMap, b: V1ConfigMap)
    requires EncodeConfigMap(a) == EncodeConfigMap(b)
    ensures a == b
  {
    ConfigMapRoundTrip(a);
    ConfigMapRoundTrip(b);
  }

  /** Scenario: a ConfigMap with string data but no binary data is written
      with its "data" entries and without any "binaryData" key. */
  lemma StringDataOnly(c: V1ConfigMap)
    requires c.binaryData == map[] && c.data == map["k" := "v"]
    ensures "binaryData" !in EncodeConfigMap(c)
    ensures "data" in EncodeConfigMap(c) && EncodeConfigMap(c)["data"] == Obj(map["k" := Str("v")])
  {
    EncodedConfigMapKeys(c);
    assert FromStringMap(c.data).fields == map["k" := Str("v")];
  }

  // ---------------------------------------------------------------------
  // Decoding

  lemma ConfigMapSchemaKeys()
    ensures Keys(ConfigMapSchema) == {"metadata", "binaryData", "data"}
  {
    assert ConfigMapSchema[0].key == "metadata";
    assert ConfigMapSchema[1].key == "binaryData" && ConfigMapSchema[2].key == "data";
  }

  /** Decoding succeeds exactly when every field satisfies its policy. */
  lemma {:induction false} ConfigMapDecodeSucceedsIff(p: Payload)
    ensures DecodeConfigMap(p).Success? <==> Conforms(ConfigMapSchema, p)
  {
    var s := ConfigMapSchema;
    RequiredAccepts(p, MetadataField, AsObjectMeta);
    DefaultedAccepts(p, BinaryDataField, AsByteMap, map[]);
    DefaultedAccepts(p, DataField, AsStringMap, map[]);
    assert s[0] == MetadataField && s[1] == BinaryDataField && s[2] == DataField;
    if Conforms(s, p) {
      assert Accepts(s[0], p) && Accepts(s[1], p) && Accepts(s[2], p);
    }
  }

  /** What each field of a decoded ConfigMap holds: a missing map key gives
      the empty map; otherwise each field is what the payload holds. */
  lemma {:induction false} DecodedConfigMapFields(p: Payload)
    requires DecodeConfigMap(p).Success?
    ensures var c := DecodeConfigMap(p).value;
      && "metadata" in p && p["metadata"] == FromObjectMeta(c.metadata)
      && (if "binaryData" in p then p["binaryData"] == FromByteMap(c.binaryData) else c.binaryData == map[])
      && (if "data" in p then p["data"] == FromStringMap(c.data) else c.data == map[])
  {
    var c := DecodeConfigMap(p).value;
    if "binaryData" in p {
      var m := AsByteMap(p["binaryData"]).value;
      assert c.binaryData == m;
      assert p["binaryData"].fields.Keys == m.Keys;
      assert FromByteMap(m) == p["binaryData"];
    }
    if "data" in p {
      var m := AsStringMap(p["data"]).value;
      assert c.data == m;
      assert p["data"].fields.Keys == m.Keys;
      assert FromStringMap(m) == p["data"];
    }
  }

  /** A missing map key never makes a decode fail: removing "binaryData" or
      "data" from a payload that decodes leaves one that decodes, with that
      map empty. */
  lemma {:induction false} ConfigMapMissingKeyDefaults(p: Payload, k: string)
    requires DecodeConfigMap(p).Success?
    requires k != "metadata"
    ensures DecodeConfigMap(p - {k}).Success?
    ensures k == "binaryData" ==> DecodeConfigMap(p - {k}).value.binaryData == map[]
    ensures k == "data" ==> DecodeConfigMap(p - {k}).value.data == map[]
  {
    ConfigMapDecodeSucceedsIff(p);
    assert ConfigMapSchema[0].key == "metadata";
    DropNonRequiredKey(ConfigMapSchema, p, k);
    ConfigMapDecodeSucceedsIff(p - {k});
    DecodedConfigMapFields(p - {k});
  }

  /** "metadata" is the one required key. */
  lemma ConfigMapRequiresMetadata(p: Payload)
    ensures "metadata" !in p ==> DecodeConfigMap(p) == Failure(MissingField("metadata"))
  {
  }

  /** Decoding reads only the declared keys; a "type" key, which this kind
      does not declare, is ignored. */
  lemma {:induction false} ConfigMapDecodeLocal(p: Payload, q: Payload)
    requires AgreeOn(Keys(ConfigMapSchema), p, q)
    ensures DecodeConfigMap(p) == DecodeConfigMap(q)
  {
    ConfigMapSchemaKeys();
    assert DecodeRequired(q, "metadata", AsObjectMeta) == DecodeRequired(p, "metadata", AsObjectMeta);
    assert DecodeDefaulted(q, "binaryData", AsByteMap, map[]) == DecodeDefaulted(p, "binaryData", AsByteMap, map[]);
    assert DecodeDefaulted(q, "data", AsStringMap, map[]) == DecodeDefaulted(p, "data", AsStringMap, map[]);
  }

  /** A failed decode names a field that really breaks its policy. */
  lemma {:induction false} ConfigMapDecodeBlames(p: Payload)
    requires DecodeConfigMap(p).Failure?
    ensures Blames(ConfigMapSchema, p, DecodeConfigMap(p).error)
  {
    var err := DecodeConfigMap(p).error;
    var s := ConfigMapSchema;
    RequiredAccepts(p, MetadataField, AsObjectMeta);
    DefaultedAccepts(p, BinaryDataField, AsByteMap, map[]);
    DefaultedAccepts(p, DataField, AsStringMap, map[]);
    assert s[0] == MetadataField && s[1] == BinaryDataField && s[2] == DataField;
    var i: int;
    if DecodeRequired(p, "metadata", AsObjectMeta).Failure? { i := 0; }
    else if DecodeDefaulted(p, "binaryData", AsByteMap, map[]).Failure? { i := 1; }
    else { i := 2; }
    assert s[i].key == err.Key() && !Accepts(s[i], p);
  }
}
