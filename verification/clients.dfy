/** The generic side: `KubeObject::meta` across the three kinds, and the
    `Api::<T>::v1X` constructors that pair a kind's descriptor with a client.
    A value of `Resource` stands for a value of one of the three Rust types;
    the kind tag plays the part of the type parameter of `Api<T>`. */
module Clients {
  import opened Wrappers
  import opened Wire
  import opened Presence
  import opened Events
  import opened Secrets
  import opened ConfigMaps

  datatype ResourceKind = EventKind | SecretKind | ConfigMapKind

  /** `RawApi`: the addressing record of one resource kind.  Its group,
      version and path are defined outside this unit; only which kind it
      addresses is kept. */
  datatype RawApi = RawApi(kind: ResourceKind)

  /** `APIClient`: a handle on the transport, never looked into here. */
  datatype APIClient = APIClient(handle: nat)

  /** `Api<T>`: a descriptor paired with a client. */
  datatype Api = Api(api: RawApi, client: APIClient)

  /** `Api::<v1Event>::v1Event`. */
  function ApiV1Event(client: APIClient): Api {
    Api(RawApi(EventKind), client)
  }

  /** `Api::<v1Secret>::v1Secret`. */
  function ApiV1Secret(client: APIClient): Api {
    Api(RawApi(SecretKind), client)
  }

  /** `Api::<v1ConfigMap>::v1ConfigMap`. */
  function ApiV1ConfigMap(client: APIClient): Api {
    Api(RawApi(ConfigMapKind), client)
  }

  /** One instance of any of the three kinds. */
  datatype Resource =
    | EventResource(event: V1Event)
    | SecretResource(secret: V1Secret)
    | ConfigMapResource(configMap: V1ConfigMap)

  function KindOf(r: Resource): ResourceKind {
    match r
    case EventResource(_) => EventKind
    case SecretResource(_) => SecretKind
    case ConfigMapResource(_) => ConfigMapKind
  }

  /** `KubeObject::meta`, dispatched on the kind. */
  function Meta(r: Resource): ObjectMeta {
    match r
    case EventResource(e) => e.Meta()
    case SecretResource(s) => s.Meta()
    case ConfigMapResource(c) => c.Meta()
  }

  function Encode(r: Resource): Payload {
    match r
    case EventResource(e) => EncodeEvent(e)
    case SecretResource(s) => EncodeSecret(s)
    case ConfigMapResource(c) => EncodeConfigMap(c)
  }

  /** Decodes a payload as the kind a client's descriptor addresses. */
  function DecodeAs(kind: ResourceKind, p: Payload): Result<Resource, SchemaViolation> {
    match kind
    case EventKind =>
      var e :- DecodeEvent(p);
      Success(EventResource(e))
    case SecretKind =>
      var s :- DecodeSecret(p);
      Success(SecretResource(s))
    case ConfigMapKind =>
      var c :- DecodeConfigMap(p);
      Success(ConfigMapResource(c))
  }

  /** The schema of each kind. */
  function SchemaOf(kind: ResourceKind): Schema {
    match kind
    case EventKind => EventSchema
    case SecretKind => SecretSchema
    case ConfigMapKind => ConfigMapSchema
  }

  // ---------------------------------------------------------------------
  // Properties

  /** Each constructor keeps the client it is given and pairs it with the
      descriptor of its own kind; the three descriptors are distinct, so a
      client addresses exactly one kind. */
  lemma ConstructorsBindKinds(c: APIClient)
    ensures ApiV1Event(c).client == c && ApiV1Event(c).api.kind == EventKind
    ensures ApiV1Secret(c).client == c && ApiV1Secret(c).api.kind == SecretKind
    ensures ApiV1ConfigMap(c).client == c && ApiV1ConfigMap(c).api.kind == ConfigMapKind
    ensures ApiV1Event(c).api != ApiV1Secret(c).api
    ensures ApiV1Event(c).api != ApiV1ConfigMap(c).api
    ensures ApiV1Secret(c).api != ApiV1ConfigMap(c).api
  {
  }

  /** Round trip through the generic layer: whatever kind a resource is,
      decoding its payload as that kind gives it back. */
  lemma {:induction false} ResourceRoundTrip(r: Resource)
    ensures DecodeAs(KindOf(r), Encode(r)) == Success(r)
  {
    match r
    case EventResource(e) => EventRoundTrip(e);
    case SecretResource(s) => SecretRoundTrip(s);
    case ConfigMapResource(c) => ConfigMapRoundTrip(c);
  }

  /** Decoding a payload as a client's kind succeeds exactly when the
      payload conforms to that kind's schema, and then yields a resource of
      that kind. */
  lemma {:induction false} ClientDecodesItsKind(a: Api, p: Payload)
    ensures DecodeAs(a.api.kind, p).Success? <==> Conforms(SchemaOf(a.api.kind), p)
    ensures DecodeAs(a.api.kind, p).Success? ==> KindOf(DecodeAs(a.api.kind, p).value) == a.api.kind
  {
    match a.api.kind
    case EventKind => EventDecodeSucceedsIff(p);
    case SecretKind => SecretDecodeSucceedsIff(p);
    case ConfigMapKind => ConfigMapDecodeSucceedsIff(p);
  }

  /** `meta()` returns exactly the metadata the payload carries under
      "metadata", for every kind: every resource has it, and a decoded
      resource's metadata is the value found there. */
  lemma {:induction false} MetaIsWireMetadata(kind: ResourceKind, p: Payload)
    requires DecodeAs(kind, p).Success?
    ensures "metadata" in p && p["metadata"] == FromObjectMeta(Meta(DecodeAs(kind, p).value))
  {
    match kind
    case EventKind => DecodedEventFields(p);
    case SecretKind => DecodedSecretFields(p);
    case ConfigMapKind => DecodedConfigMapFields(p);
  }

  /** `meta()` depends on nothing but the metadata: two resources whose
      payloads carry the same "metadata" have the same meta, however every
      other field differs, and encoding writes meta under "metadata". */
  lemma {:induction false} MetaIgnoresOtherFields(r: Resource, r': Resource)
    requires Encode(r)["metadata"] == Encode(r')["metadata"]
    ensures Meta(r) == Meta(r')
    ensures Encode(r)["metadata"] == FromObjectMeta(Meta(r))
  {
    ResourceRoundTrip(r);
    ResourceRoundTrip(r');
    MetaIsWireMetadata(KindOf(r), Encode(r));
    MetaIsWireMetadata(KindOf(r'), Encode(r'));
  }
}
