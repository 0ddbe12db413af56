# Snowflake resource types: a Dafny model

This project models `src/api/snowflake.rs` of the kube-rs client: the three
Kubernetes resource types whose wire schema does not follow the client's usual
metadata + spec + status shape — `v1Event`, `v1Secret` and `v1ConfigMap` —
together with their `KubeObject::meta` accessors and their `Api::<T>::v1X`
constructors.

Each type's wire behaviour is fixed by its field types and `#[serde(...)]`
attributes. Together these give a per-field presence policy:

- **Required**: no `default` and not an `Option`. A missing key is a decode error.
- **Defaulted**: `#[serde(default)]`. A missing key gives `""` or `0`.
- **Optional**: `Option<T>` with no skip attribute. A missing key or `null` gives
  `None`, and `None` is written as an explicit `null`.
- **OmitIfEmpty**: `default` plus `skip_serializing_if = "BTreeMap::is_empty"`.
  A missing key gives the empty map, and an empty map is not written at all.
- **Renamed**: `rename = "type"`. The field `type_` travels under the key `"type"`.

Layout:

- `wrappers.dfy`, module `Wrappers`: `Option` and `Result`.
- `wire.dfy`, module `Wire`: the wire value tree, the payload type, the
  external types carried opaquely, and the leaf encoders and decoders.
- `presence.dfy`, module `Presence`: the policy enum, field declarations
  (`FieldSpec`), schemas as data, the declarative `Conforms` predicate, and the
  field decoders: one each for Required and Optional fields, and
  `DecodeDefaulted`, which serves both Defaulted and OmitIfEmpty fields
  because on decode the two behave alike.
- `events.dfy`, `secrets.dfy`, `configmaps.dfy`: each type's datatype, schema,
  `Encode*` and `Decode*` functions, and their properties.
- `clients.dfy`, module `Clients`: the resource descriptor, the client handle,
  the three constructors, and `meta` dispatched over the three kinds.

A payload is a finite map from wire keys to values. Each `Decode*` function is
written the way the derived deserializer behaves, field by field. Each type's
schema (`EventSchema`, `SecretSchema`, `ConfigMapSchema`) lists the same fields
as data. `Presence.Conforms` reads that list as an independent reference. The
lemmas connect the two: a decode succeeds exactly when the payload conforms.
Together with the `Decoded*Fields` lemmas, this pins down whether each
decoder succeeds and what it returns. On failure, the `*DecodeBlames` lemmas
only constrain which error comes back. The `*RoundTrip` lemmas then show
that decode inverts encode on every value. The converse does not hold: unknown
keys, an explicit `null` on an Optional key and an empty map object are not
reproduced by re-encoding.

Consequences of the declarations that are easy to miss:

- An `Option` field that is `None` is written as an explicit `null`, not left
  out. None of these fields has a skip attribute.
- Only `v1Event` and `v1Secret` have a `type_` field renamed to `"type"`.
  `v1ConfigMap` has none, so a `"type"` key in a ConfigMap payload is ignored.
- `metadata` is Required in all three types, since no `metadata` field
  carries `default`.
- A Defaulted string field is defaulted only when its key is missing. An
  explicit `null` there is a decode error, because `default` does not make a
  `String` accept `null`.
- `v1Secret.type_` carries `default` on an `Option`. That behaves exactly like a
  plain Optional field, so its schema entry says `Optional`.

## Model

| member | source | states |
|---|---|---|
| `Presence.DecodeRequired` | src/api/snowflake.rs:17-20 | A field with neither `default` nor `Option` fails with MissingField when its key is absent and with Malformed when its value has the wrong shape; otherwise it yields exactly what the leaf decoder reads |
| `Presence.DecodeDefaulted` | src/api/snowflake.rs:22-36 | A `#[serde(default)]` field yields its zero value whenever the key is absent; a present key must hold a value of the right shape, so an explicit null is Malformed |
| `Presence.DecodeOptional` | src/api/snowflake.rs:41-48 | An `Option` field yields None when its key is absent or null, and Some of the decoded value otherwise; a non-null value of the wrong shape is Malformed |
| `Presence.PutUnlessEmpty` | src/api/snowflake.rs:74-75 | `skip_serializing_if = "BTreeMap::is_empty"`: the key is written exactly when the map is non-empty, with the encoded map; no other key is touched |
| `Presence.OptionalFieldRoundTrip` | src/api/snowflake.rs:41-48 | An Option written as null-or-value reads back as the same Option |
| `Presence.DropNonRequiredKey` | src/api/snowflake.rs:22-39 | Removing a key that no Required field uses keeps a conforming payload conforming: missing Defaulted, Optional and map keys never cause a failure |
| `Presence.RequiredKeyPresent` | src/api/snowflake.rs:17-20 | Every conforming payload carries each Required field's key |
| `Presence.UnknownKeyIgnored` | src/api/snowflake.rs:15 | Without `deny_unknown_fields`, a key outside the schema does not affect conformance, whatever it holds |
| `Wire.ByteMapRoundTrip` | src/api/snowflake.rs:74-75 | A `BTreeMap<String, ByteString>` written as an object of byte leaves reads back as the same map |
| `Wire.StringMapRoundTrip` | src/api/snowflake.rs:79-80 | A `BTreeMap<String, String>` written as an object of string leaves reads back as the same map |
| `Events.EventRoundTrip` | src/api/snowflake.rs:15-49 | For every v1Event, including None optionals and empty strings, decoding its encoding gives it back |
| `Events.EventEncodingInjective` | src/api/snowflake.rs:15-49 | Two Events that encode to the same payload are equal |
| `Events.EventDecodeSucceedsIff` | src/api/snowflake.rs:15-49 | An Event payload decodes exactly when each of its fifteen fields satisfies its policy in `EventSchema` (both directions) |
| `Events.DecodedEventFields` | src/api/snowflake.rs:17-48 | Each field of a decoded Event is the payload's value under its key; a missing Defaulted key gives "" (or 0 for `count`), and a missing or null Optional key gives None |
| `Events.EventRequiredFields` | src/api/snowflake.rs:17-20 | An Event payload without "metadata" fails with MissingField("metadata"); one without "involvedObject" fails |
| `Events.EventOnlyTwoRequired` | src/api/snowflake.rs:22-48 | Removing any key other than "metadata" and "involvedObject" from a decodable Event payload leaves it decodable |
| `Events.MinimalEventDecodes` | src/api/snowflake.rs:15-49 | A payload holding only "metadata" and "involvedObject" decodes to an Event with every string empty, count 0 and every Optional None |
| `Events.EventDecodeLocal` | src/api/snowflake.rs:15-49 | Decoding reads only the fifteen declared keys: payloads that agree on them decode alike |
| `Events.EventIgnoresUnknownKeys` | src/api/snowflake.rs:38-39 | Adding a key the schema does not declare, such as "type_", leaves the decode unchanged |
| `Events.EncodedEventRename` | src/api/snowflake.rs:38-39 | `type_` is written under "type", never under "type_" |
| `Events.EncodedEventKeys` | src/api/snowflake.rs:41-48 | Encoding writes exactly the declared keys: no Event field is ever left out |
| `Events.EncodedEventNulls` | src/api/snowflake.rs:41-48 | Each Optional key is written as null exactly when its field is None |
| `Events.EventDecodeBlames` | src/api/snowflake.rs:17-48 | A failed Event decode names a field that breaks its policy, reports "missing" only for a Required field whose key is absent, and reports a malformed value only for a key that is present |
| `Secrets.EncodedSecretKeys` | src/api/snowflake.rs:74-83 | "data" and "stringData" are written exactly when their maps are non-empty, with their full contents; "metadata" and "type" are always written; no other key is |
| `Secrets.EncodedSecretRename` | src/api/snowflake.rs:82-83 | `type_` is never written as "type_"; its "type" entry is null exactly when it is None |
| `Secrets.SecretRoundTrip` | src/api/snowflake.rs:72-84 | For every v1Secret, including empty maps and a None type, decoding its encoding gives it back |
| `Secrets.SecretEncodingInjective` | src/api/snowflake.rs:72-84 | Two Secrets that encode to the same payload are equal |
| `Secrets.SecretDecodeSucceedsIff` | src/api/snowflake.rs:72-84 | A Secret payload decodes exactly when each field satisfies its policy in `SecretSchema` |
| `Secrets.DecodedSecretFields` | src/api/snowflake.rs:74-83 | A missing map key gives the empty map, a missing or null "type" gives None, and every other field is the payload's value |
| `Secrets.SecretMissingKeyDefaults` | src/api/snowflake.rs:74-83 | Removing "data", "stringData" or "type" from a decodable payload leaves it decodable, with that field empty or None |
| `Secrets.SecretRequiresMetadata` | src/api/snowflake.rs:77 | A Secret payload without "metadata" fails |
| `Secrets.SecretDecodeLocal` | src/api/snowflake.rs:72-84 | Decoding reads only the four declared keys |
| `Secrets.SecretDecodeBlames` | src/api/snowflake.rs:72-84 | A failed Secret decode names a field that breaks its policy, reports "missing" only for a Required field whose key is absent, and reports a malformed value only for a key that is present |
| `Secrets.EmptyDataDropped` | src/api/snowflake.rs:74-75 | An explicitly empty "data" object decodes to the empty map, and re-encoding leaves "data" out |
| `ConfigMaps.EncodedConfigMapKeys` | src/api/snowflake.rs:104-113 | "binaryData" and "data" are written exactly when non-empty, with their full contents; "metadata" always; no other key, in particular no "type" |
| `ConfigMaps.ConfigMapRoundTrip` | src/api/snowflake.rs:104-113 | For every v1ConfigMap, including empty maps, decoding its encoding gives it back |
| `ConfigMaps.ConfigMapEncodingInjective` | src/api/snowflake.rs:104-113 | Two ConfigMaps that encode to the same payload are equal |
| `ConfigMaps.StringDataOnly` | src/api/snowflake.rs:108-112 | A ConfigMap with data {"k": "v"} and no binary data is written with "data" holding exactly that entry and with no "binaryData" key |
| `ConfigMaps.ConfigMapDecodeSucceedsIff` | src/api/snowflake.rs:104-113 | A ConfigMap payload decodes exactly when each field satisfies its policy in `ConfigMapSchema` |
| `ConfigMaps.DecodedConfigMapFields` | src/api/snowflake.rs:106-112 | A missing map key gives the empty map; every other field is the payload's value |
| `ConfigMaps.ConfigMapMissingKeyDefaults` | src/api/snowflake.rs:108-112 | Removing "binaryData" or "data" from a decodable payload leaves it decodable, with that map empty |
| `ConfigMaps.ConfigMapRequiresMetadata` | src/api/snowflake.rs:106 | A ConfigMap payload without "metadata" fails with MissingField("metadata") |
| `ConfigMaps.ConfigMapDecodeLocal` | src/api/snowflake.rs:104-113 | Decoding reads only the three declared keys |
| `ConfigMaps.ConfigMapDecodeBlames` | src/api/snowflake.rs:104-113 | A failed ConfigMap decode names a field that breaks its policy, reports "missing" only for a Required field whose key is absent, and reports a malformed value only for a key that is present |
| `Clients.ConstructorsBindKinds` | src/api/snowflake.rs:58-66 | Each `Api::v1X` constructor keeps its client and pairs it with its own kind's descriptor, and the three descriptors differ (likewise at lines 93-101 and 121-129) |
| `Clients.ResourceRoundTrip` | src/api/snowflake.rs:15-113 | Every resource of any of the three kinds decodes, as its own kind, back from its encoding |
| `Clients.ClientDecodesItsKind` | src/api/snowflake.rs:93-101 | A payload decodes as a client's kind exactly when it conforms to that kind's schema, and then yields a resource of that kind |
| `Clients.MetaIsWireMetadata` | src/api/snowflake.rs:52-56 | For every kind, `meta()` of a decoded resource is exactly the metadata the payload carried under "metadata" |
| `Clients.MetaIgnoresOtherFields` | src/api/snowflake.rs:87-91 | Two resources whose payloads carry the same "metadata" have the same `meta()`, whatever their other fields hold; encoding writes `meta()` under "metadata" |

## Left out

- The inner structure of `ObjectMeta`, `ObjectReference`, `Time`, `MicroTime`,
  `EventSeries` and `EventSource`. They are defined outside this file. Each is
  carried as an opaque value tagged with its type. Decoding accepts only a value
  carrying that type's tag. This stands in for each type's own deserializer,
  which is not part of this model.
- Base64 text encoding of `ByteString`. Map values are byte-sequence leaves on
  the wire tree. A string where bytes are expected is rejected, though the real
  decoder would accept valid base64 text there.
- JSON text syntax, and key order within a payload. A payload is a map, so a
  repeated declared field, which the derived deserializer rejects with
  `duplicate_field`, cannot be expressed. Repeated undeclared keys and
  repeated map entries, which it accepts, cannot be expressed either.
- Which error is reported when several fields are at fault. The derived
  deserializer reports type errors in payload order and missing fields last.
  The model checks fields in declaration order. `*DecodeBlames` promises only
  that the reported field really is at fault.
- Error message text. Errors are only `MissingField(key)` or `Malformed(key)`.
- Numbers other than integers. `count` accepts only an integer within the
  `i32` range; the model has no floating-point values.
- The contents of `RawApi` (group, version, path) and of `APIClient`. Both are
  defined outside this file. A descriptor is identified only by the kind it
  addresses, and a client handle is an opaque number. Network access is outside
  this layer.
- The server-side meaning of Secret `stringData` as a write-only alias of
  `data`. The client only carries both maps.
- `Clone`. Dafny datatypes are values.
- The commented-out `v1beta1ValidatingWebhookConfiguration` at lines 131-153,
  which is dead code.
