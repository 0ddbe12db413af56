/** `v1Event`: a core/v1 Event whose schema is too irregular for the generic
    metadata + spec + status shape.  Field order follows the declaration. */
module Events {
  import opened Wrappers
  import opened Wire
  import opened Presence

  datatype V1Event = V1Event(
    metadata: ObjectMeta,
    involvedObject: ObjectReference,
    reportingComponent: string,
    reportingInstance: string,
    message: string,
    reason: string,
    count: int32,
    type_: string,
    action: Option<string>,
    eventTime: Option<MicroTime>,
    firstTimestamp: Option<Time>,
    lastTimestamp: Option<Time>,
    related: Option<ObjectReference>,
    series: Option<EventSeries>,
    source: Option<EventSource>)
  {
    /** `KubeObject::meta`. */
    function Meta(): ObjectMeta {
      metadata
    }
  }

  // The wire schema of `v1Event`: two Required fields, six Defaulted ones
  // (`type_` renamed to "type") and seven Optional ones, in declaration order.

  const InvolvedObjectField: FieldSpec := FieldSpec("involvedObject", Required, ExternalShape(ObjectReferenceKind))
  const ReportingComponentField: FieldSpec := FieldSpec("reportingComponent", Defaulted, StringShape)
  const ReportingInstanceField: FieldSpec := FieldSpec("reportingInstance", Defaulted, StringShape)
  const MessageField: FieldSpec := FieldSpec("message", Defaulted, StringShape)
  const ReasonField: FieldSpec := FieldSpec("reason", Defaulted, StringShape)
  const CountField: FieldSpec := FieldSpec("count", Defaulted, Int32Shape)
  const TypeField: FieldSpec := FieldSpec("type", Defaulted, StringShape)
  const ActionField: FieldSpec := FieldSpec("action", Optional, StringShape)
  const EventTimeField: FieldSpec := FieldSpec("eventTime", Optional, ExternalShape(MicroTimeKind))
  const FirstTimestampField: FieldSpec := FieldSpec("firstTimestamp", Optional, ExternalShape(TimeKind))
  const LastTimestampField: FieldSpec := FieldSpec("lastTimestamp", Optional, ExternalShape(TimeKind))
  const RelatedField: FieldSpec := FieldSpec("related", Optional, ExternalShape(ObjectReferenceKind))
  const SeriesField: FieldSpec := FieldSpec("series", Optional, ExternalShape(EventSeriesKind))
  const SourceField: FieldSpec := FieldSpec("source", Optional, ExternalShape(EventSourceKind))

  const EventSchema: Schema := [
    MetadataField, InvolvedObjectField, ReportingComponentField, ReportingInstanceField,
    MessageField, ReasonField, CountField, TypeField,
    ActionField, EventTimeField, FirstTimestampField, LastTimestampField,
    RelatedField, SeriesField, SourceField
  ]

  /** Serialization: every field is written, Optional ones as null when None. */
  function EncodeEvent(e: V1Event): Payload {
    map[
      "metadata" := FromObjectMeta(e.metadata),
      "involvedObject" := FromObjectReference(e.involvedObject),
      "reportingComponent" := FromString(e.reportingComponent),
      "reportingInstance" := FromString(e.reportingInstance),
      "message" := FromString(e.message),
      "reason" := FromString(e.reason),
      "count" := FromInt32(e.count),
      "type" := FromString(e.type_),
      "action" := FromOption(e.action, FromString),
      "eventTime" := FromOption(e.eventTime, FromMicroTime),
      "firstTimestamp" := FromOption(e.firstTimestamp, FromTime),
      "lastTimestamp" := FromOption(e.lastTimestamp, FromTime),
      "related" := FromOption(e.related, FromObjectReference),
      "series" := FromOption(e.series, FromEventSeries),
      "source" := FromOption(e.source, FromEventSource)
    ]
  }

  /** Deserialization, field by field in declaration order. */
  function DecodeEvent(p: Payload): Result<V1Event, SchemaViolation> {
    var metadata :- DecodeRequired(p, "metadata", AsObjectMeta);
    var involvedObject :- DecodeRequired(p, "involvedObject", AsObjectReference);
    var reportingComponent :- DecodeDefaulted(p, "reportingComponent", AsString, "");
    var reportingInstance :- DecodeDefaulted(p, "reportingInstance", AsString, "");
    var message :- DecodeDefaulted(p, "message", AsString, "");
    var reason :- DecodeDefaulted(p, "reason", AsString, "");
    var count :- DecodeDefaulted(p, "count", AsInt32, 0);
    var type_ :- DecodeDefaulted(p, "type", AsString, "");
    var action :- DecodeOptional(p, "action", AsString);
    var eventTime :- DecodeOptional(p, "eventTime", AsMicroTime);
    var firstTimestamp :- DecodeOptional(p, "firstTimestamp", AsTime);
    var lastTimestamp :- DecodeOptional(p, "lastTimestamp", AsTime);
    var related :- DecodeOptional(p, "related", AsObjectReference);
    var series :- DecodeOptional(p, "series", AsEventSeries);
    var source :- DecodeOptional(p, "source", AsEventSource);
    Success(V1Event(metadata, involvedObject, reportingComponent, reportingInstance,
                    message, reason, count, type_, action, eventTime,
                    firstTimestamp, lastTimestamp, related, series, source))
  }

  // ---------------------------------------------------------------------
  // Properties

  // Each field of an encoded Event decodes back to its own value.  The
  // fields are split in groups only to keep each proof small.

  lemma EncodedRequiredDecode(e: V1Event)
    ensures var p := EncodeEvent(e);
      && DecodeRequired(p, "metadata", AsObjectMeta) == Success(e.metadata)
      && DecodeRequired(p, "involvedObject", AsObjectReference) == Success(e.involvedObject)
      && DecodeDefaulted(p, "count", AsInt32, 0) == Success(e.count)
      && DecodeDefaulted(p, "type", AsString, "") == Success(e.type_)
  {
  }

  lemma EncodedStringsDecode(e: V1Event)
    ensures var p := EncodeEvent(e);
      && DecodeDefaulted(p, "reportingComponent", AsString, "") == Success(e.reportingComponent)
      && DecodeDefaulted(p, "reportingInstance", AsString, "") == Success(e.reportingInstance)
      && DecodeDefaulted(p, "message", AsString, "") == Success(e.message)
      && DecodeDefaulted(p, "reason", AsString, "") == Success(e.reason)
  {
  }

  lemma EncodedOptionalsDecode(e: V1Event)
    ensures var p := EncodeEvent(e);
      && DecodeOptional(p, "action", AsString) == Success(e.action)
      && DecodeOptional(p, "eventTime", AsMicroTime) == Success(e.eventTime)
      && DecodeOptional(p, "firstTimestamp", AsTime) == Success(e.firstTimestamp)
      && DecodeOptional(p, "lastTimestamp", AsTime) == Success(e.lastTimestamp)
  {
    var p := EncodeEvent(e);
    OptionalFieldRoundTrip(p, "action", e.action, FromString, AsString);
    OptionalFieldRoundTrip(p, "eventTime", e.eventTime, FromMicroTime, AsMicroTime);
    OptionalFieldRoundTrip(p, "firstTimestamp", e.firstTimestamp, FromTime, AsTime);
    OptionalFieldRoundTrip(p, "lastTimestamp", e.lastTimestamp, FromTime, AsTime);
  }

  lemma EncodedReferencesDecode(e: V1Event)
    ensures var p := EncodeEvent(e);
      && DecodeOptional(p, "related", AsObjectReference) == Success(e.related)
      && DecodeOptional(p, "series", AsEventSeries) == Success(e.series)
      && DecodeOptional(p, "source", AsEventSource) == Success(e.source)
  {
    var p := EncodeEvent(e);
    OptionalFieldRoundTrip(p, "related", e.related, FromObjectReference, AsObjectReference);
    OptionalFieldRoundTrip(p, "series", e.series, FromEventSeries, AsEventSeries);
    OptionalFieldRoundTrip(p, "source", e.source, FromEventSource, AsEventSource);
  }

  /** Round trip: decoding what an Event encodes to gives the same Event,
      whether its Optional fields are None and its strings empty or not. */
  lemma {:induction false} EventRoundTrip(e: V1Event)
    ensures DecodeEvent(EncodeEvent(e)) == Success(e)
  {
    EncodedRequiredDecode(e);
    EncodedStringsDecode(e);
    EncodedOptionalsDecode(e);
    EncodedReferencesDecode(e);
  }

  /** Two Events with the same encoding are the same Event. */
  lemma EventEncodingInjective(a: V1Event, b: V1Event)
    requires EncodeEvent(a) == EncodeEvent(b)
    ensures a == b
  {
    EventRoundTrip(a);
    EventRoundTrip(b);
  }

  // ---------------------------------------------------------------------
  // What decoding accepts, and what it produces

  /** Decoding succeeds exactly when each field's own decoder does. */
  lemma DecodeEventSucceedsByField(p: Payload)
    ensures DecodeEvent(p).Success? <==>
      && DecodeRequired(p, "metadata", AsObjectMeta).Success?
      && DecodeRequired(p, "involvedObject", AsObjectReference).Success?
      && DecodeDefaulted(p, "reportingComponent", AsString, "").Success?
      && DecodeDefaulted(p, "reportingInstance", AsString, "").Success?
      && DecodeDefaulted(p, "message", AsString, "").Success?
      && DecodeDefaulted(p, "reason", AsString, "").Success?
      && DecodeDefaulted(p, "count", AsInt32, 0).Success?
      && DecodeDefaulted(p, "type", AsString, "").Success?
      && DecodeOptional(p, "action", AsString).Success?
      && DecodeOptional(p, "eventTime", AsMicroTime).Success?
      && DecodeOptional(p, "firstTimestamp", AsTime).Success?
      && DecodeOptional(p, "lastTimestamp", AsTime).Success?
      && DecodeOptional(p, "related", AsObjectReference).Success?
      && DecodeOptional(p, "series", AsEventSeries).Success?
      && DecodeOptional(p, "source", AsEventSource).Success?
  {
  }

  // The Event schema, element by element, proved in three index ranges.

  lemma EventSchemaElements0To4()
    ensures |EventSchema| == 15
    ensures EventSchema[0] == MetadataField && EventSchema[1] == InvolvedObjectField
    ensures EventSchema[2] == ReportingComponentField && EventSchema[3] == ReportingInstanceField
    ensures EventSchema[4] == MessageField
  {
  }

  lemma EventSchemaElements5To9()
    ensures EventSchema[5] == ReasonField && EventSchema[6] == CountField
    ensures EventSchema[7] == TypeField && EventSchema[8] == ActionField
    ensures EventSchema[9] == EventTimeField
  {
  }

  lemma EventSchemaElements10To14()
    ensures EventSchema[10] == FirstTimestampField && EventSchema[11] == LastTimestampField
    ensures EventSchema[12] == RelatedField && EventSchema[13] == SeriesField
    ensures EventSchema[14] == SourceField
  {
  }

  lemma EventSchemaElements()
    ensures |EventSchema| == 15
    ensures EventSchema[0] == MetadataField && EventSchema[1] == InvolvedObjectField
    ensures EventSchema[2] == ReportingComponentField && EventSchema[3] == ReportingInstanceField
    ensures EventSchema[4] == MessageField && EventSchema[5] == ReasonField
    ensures EventSchema[6] == CountField && EventSchema[7] == TypeField
    ensures EventSchema[8] == ActionField && EventSchema[9] == EventTimeField
    ensures EventSchema[10] == FirstTimestampField && EventSchema[11] == LastTimestampField
    ensures EventSchema[12] == RelatedField && EventSchema[13] == SeriesField
    ensures EventSchema[14] == SourceField
  {
    EventSchemaElements0To4();
    EventSchemaElements5To9();
    EventSchemaElements10To14();
  }

  /** Conformance to the Event schema, field by field. */
  lemma EventConformsUnrolled(p: Payload)
    ensures Conforms(EventSchema, p) <==>
      && Accepts(MetadataField, p) && Accepts(InvolvedObjectField, p)
      && Accepts(ReportingComponentField, p) && Accepts(ReportingInstanceField, p)
      && Accepts(MessageField, p) && Accepts(ReasonField, p)
      && Accepts(CountField, p) && Accepts(TypeField, p)
      && Accepts(ActionField, p) && Accepts(EventTimeField, p)
      && Accepts(FirstTimestampField, p) && Accepts(LastTimestampField, p)
      && Accepts(RelatedField, p) && Accepts(SeriesField, p) && Accepts(SourceField, p)
  {
    EventSchemaElements();
    var s := EventSchema;
    if Conforms(s, p) {
      assert Accepts(s[0], p) && Accepts(s[1], p) && Accepts(s[2], p) && Accepts(s[3], p);
      assert Accepts(s[4], p) && Accepts(s[5], p) && Accepts(s[6], p) && Accepts(s[7], p);
      assert Accepts(s[8], p) && Accepts(s[9], p) && Accepts(s[10], p) && Accepts(s[11], p);
      assert Accepts(s[12], p) && Accepts(s[13], p) && Accepts(s[14], p);
    }
  }

  /** The first eight fields are accepted exactly when their decoders succeed. */
  lemma EventLeadingFieldsAccepted(p: Payload)
    ensures
      && (Accepts(MetadataField, p) <==> DecodeRequired(p, "metadata", AsObjectMeta).Success?)
      && (Accepts(InvolvedObjectField, p) <==> DecodeRequired(p, "involvedObject", AsObjectReference).Success?)
      && (Accepts(ReportingComponentField, p) <==> DecodeDefaulted(p, "reportingComponent", AsString, "").Success?)
      && (Accepts(ReportingInstanceField, p) <==> DecodeDefaulted(p, "reportingInstance", AsString, "").Success?)
      && (Accepts(MessageField, p) <==> DecodeDefaulted(p, "message", AsString, "").Success?)
      && (Accepts(ReasonField, p) <==> DecodeDefaulted(p, "reason", AsString, "").Success?)
      && (Accepts(CountField, p) <==> DecodeDefaulted(p, "count", AsInt32, 0).Success?)
      && (Accepts(TypeField, p) <==> DecodeDefaulted(p, "type", AsString, "").Success?)
  {
    RequiredAccepts(p, MetadataField, AsObjectMeta);
    RequiredAccepts(p, InvolvedObjectField, AsObjectReference);
    DefaultedAccepts(p, ReportingComponentField, AsString, "");
    DefaultedAccepts(p, ReportingInstanceField, AsString, "");
    DefaultedAccepts(p, MessageField, AsString, "");
    DefaultedAccepts(p, ReasonField, AsString, "");
    DefaultedAccepts(p, CountField, AsInt32, 0);
    DefaultedAccepts(p, TypeField, AsString, "");
  }

  /** The Optional timestamps and action are accepted exactly when their decoders succeed. */
  lemma EventOptionalFieldsAccepted(p: Payload)
    ensures
      && (Accepts(ActionField, p) <==> DecodeOptional(p, "action", AsString).Success?)
      && (Accepts(EventTimeField, p) <==> DecodeOptional(p, "eventTime", AsMicroTime).Success?)
      && (Accepts(FirstTimestampField, p) <==> DecodeOptional(p, "firstTimestamp", AsTime).Success?)
      && (Accepts(LastTimestampField, p) <==> DecodeOptional(p, "lastTimestamp", AsTime).Success?)
  {
    OptionalAccepts(p, ActionField, AsString);
    OptionalAccepts(p, EventTimeField, AsMicroTime);
    OptionalAccepts(p, FirstTimestampField, AsTime);
    OptionalAccepts(p, LastTimestampField, AsTime);
  }

  /** The Optional references are accepted exactly when their decoders succeed. */
  lemma EventReferenceFieldsAccepted(p: Payload)
    ensures
      && (Accepts(RelatedField, p) <==> DecodeOptional(p, "related", AsObjectReference).Success?)
      && (Accepts(SeriesField, p) <==> DecodeOptional(p, "series", AsEventSeries).Success?)
      && (Accepts(SourceField, p) <==> DecodeOptional(p, "source", AsEventSource).Success?)
  {
    OptionalAccepts(p, RelatedField, AsObjectReference);
    OptionalAccepts(p, SeriesField, AsEventSeries);
    OptionalAccepts(p, SourceField, AsEventSource);
  }

  /** Decoding succeeds exactly when every field satisfies its policy: the
      decoder refuses nothing the policy table allows and accepts nothing it
      forbids. */
  lemma {:induction false} EventDecodeSucceedsIff(p: Payload)
    ensures DecodeEvent(p).Success? <==> Conforms(EventSchema, p)
  {
    DecodeEventSucceedsByField(p);
    EventConformsUnrolled(p);
    EventLeadingFieldsAccepted(p);
    EventOptionalFieldsAccepted(p);
    EventReferenceFieldsAccepted(p);
  }

  /** A decoded Event is assembled from the fifteen field decoders' values. */
  lemma DecodedEventAssembled(p: Payload)
    requires DecodeEvent(p).Success?
    ensures DecodeEvent(p).value == V1Event(
      DecodeRequired(p, "metadata", AsObjectMeta).value,
      DecodeRequired(p, "involvedObject", AsObjectReference).value,
      DecodeDefaulted(p, "reportingComponent", AsString, "").value,
      DecodeDefaulted(p, "reportingInstance", AsString, "").value,
      DecodeDefaulted(p, "message", AsString, "").value,
      DecodeDefaulted(p, "reason", AsString, "").value,
      DecodeDefaulted(p, "count", AsInt32, 0).value,
      DecodeDefaulted(p, "type", AsString, "").value,
      DecodeOptional(p, "action", AsString).value,
      DecodeOptional(p, "eventTime", AsMicroTime).value,
      DecodeOptional(p, "firstTimestamp", AsTime).value,
      DecodeOptional(p, "lastTimestamp", AsTime).value,
      DecodeOptional(p, "related", AsObjectReference).value,
      DecodeOptional(p, "series", AsEventSeries).value,
      DecodeOptional(p, "source", AsEventSource).value)
  {
    DecodeEventSucceedsByField(p);
  }

  /** What each field of a decoded Event holds, in terms of the payload:
      Required fields are the values found; a missing Defaulted key gives ""
      or 0; a missing or null Optional key gives None.  With
      `EventDecodeSucceedsIff` this determines `DecodeEvent` completely. */
  lemma {:induction false} DecodedEventFields(p: Payload)
    requires DecodeEvent(p).Success?
    ensures var e := DecodeEvent(p).value;
      && "metadata" in p && p["metadata"] == FromObjectMeta(e.metadata)
      && "involvedObject" in p && p["involvedObject"] == FromObjectReference(e.involvedObject)
      && (if "reportingComponent" in p then p["reportingComponent"] == Str(e.reportingComponent) else e.reportingComponent == "")
      && (if "reportingInstance" in p then p["reportingInstance"] == Str(e.reportingInstance) else e.reportingInstance == "")
      && (if "message" in p then p["message"] == Str(e.message) else e.message == "")
      && (if "reason" in p then p["reason"] == Str(e.reason) else e.reason == "")
      && (if "count" in p then p["count"] == Int(e.count) else e.count == 0)
      && (if "type" in p then p["type"] == Str(e.type_) else e.type_ == "")
      && (e.action == None <==> "action" !in p || p["action"] == Null)
      && (e.action.Some? ==> "action" in p && p["action"] == Str(e.action.value))
      && (e.eventTime == None <==> "eventTime" !in p || p["eventTime"] == Null)
      && (e.eventTime.Some? ==> "eventTime" in p && p["eventTime"] == FromMicroTime(e.eventTime.value))
      && (e.firstTimestamp == None <==> "firstTimestamp" !in p || p["firstTimestamp"] == Null)
      && (e.firstTimestamp.Some? ==> "firstTimestamp" in p && p["firstTimestamp"] == FromTime(e.firstTimestamp.value))
      && (e.lastTimestamp == None <==> "lastTimestamp" !in p || p["lastTimestamp"] == Null)
      && (e.lastTimestamp.Some? ==> "lastTimestamp" in p && p["lastTimestamp"] == FromTime(e.lastTimestamp.value))
      && (e.related == None <==> "related" !in p || p["related"] == Null)
      && (e.related.Some? ==> "related" in p && p["related"] == FromObjectReference(e.related.value))
      && (e.series == None <==> "series" !in p || p["series"] == Null)
      && (e.series.Some? ==> "series" in p && p["series"] == FromEventSeries(e.series.value))
      && (e.source == None <==> "source" !in p || p["source"] == Null)
      && (e.source.Some? ==> "source" in p && p["source"] == FromEventSource(e.source.value))
  {
    DecodeEventSucceedsByField(p);
    DecodedEventAssembled(p);
  }

  // ---------------------------------------------------------------------
  // The presence policy, field by field

  /** "metadata" and "involvedObject" are required: without either key the
      decode fails, and with "metadata" missing the error names it. */
  lemma EventRequiredFields(p: Payload)
    ensures "metadata" !in p ==> DecodeEvent(p) == Failure(MissingField("metadata"))
    ensures "involvedObject" !in p ==> DecodeEvent(p).Failure?
  {
    if DecodeEvent(p).Success? {
      DecodedEventFields(p);
    }
  }

  /** They are the only required fields: removing any other key from a
      payload that decodes leaves a payload that still decodes. */
  lemma {:induction false} EventOnlyTwoRequired(p: Payload, k: string)
    requires DecodeEvent(p).Success?
    requires k != "metadata" && k != "involvedObject"
    ensures DecodeEvent(p - {k}).Success?
  {
    EventDecodeSucceedsIff(p);
    EventSchemaElements();
    forall i | 0 <= i < |EventSchema| && EventSchema[i].key == k
      ensures EventSchema[i].policy != Required
    {
    }
    DropNonRequiredKey(EventSchema, p, k);
    EventDecodeSucceedsIff(p - {k});
  }

  /** Scenario: a payload with only the two required keys decodes, every
      Defaulted field empty or zero and every Optional field None. */
  lemma MinimalEventDecodes(m: ObjectMeta, o: ObjectReference)
    ensures DecodeEvent(map["metadata" := FromObjectMeta(m), "involvedObject" := FromObjectReference(o)])
      == Success(V1Event(m, o, "", "", "", "", 0, "", None, None, None, None, None, None, None))
  {
  }

  /** The wire keys the Event schema declares: "type", never "type_". */
  lemma EventSchemaKeys()
    ensures Keys(EventSchema) == {
      "metadata", "involvedObject", "reportingComponent", "reportingInstance",
      "message", "reason", "count", "type", "action", "eventTime",
      "firstTimestamp", "lastTimestamp", "related", "series", "source"}
  {
    EventSchemaElements();
    var s := EventSchema;
    assert s[0].key == "metadata" && s[1].key == "involvedObject";
    assert s[2].key == "reportingComponent" && s[3].key == "reportingInstance";
    assert s[4].key == "message" && s[5].key == "reason" && s[6].key == "count" && s[7].key == "type";
    assert s[8].key == "action" && s[9].key == "eventTime";
    assert s[10].key == "firstTimestamp" && s[11].key == "lastTimestamp";
    assert s[12].key == "related" && s[13].key == "series" && s[14].key == "source";
  }

  /** The first eight field decoders read only their own keys. */
  lemma EventLeadingDecodersLocal(p: Payload, q: Payload)
    requires AgreeOn(Keys(EventSchema), p, q)
    ensures DecodeRequired(q, "metadata", AsObjectMeta) == DecodeRequired(p, "metadata", AsObjectMeta)
    ensures DecodeRequired(q, "involvedObject", AsObjectReference) == DecodeRequired(p, "involvedObject", AsObjectReference)
    ensures DecodeDefaulted(q, "reportingComponent", AsString, "") == DecodeDefaulted(p, "reportingComponent", AsString, "")
    ensures DecodeDefaulted(q, "reportingInstance", AsString, "") == DecodeDefaulted(p, "reportingInstance", AsString, "")
    ensures DecodeDefaulted(q, "message", AsString, "") == DecodeDefaulted(p, "message", AsString, "")
    ensures DecodeDefaulted(q, "reason", AsString, "") == DecodeDefaulted(p, "reason", AsString, "")
    ensures DecodeDefaulted(q, "count", AsInt32, 0) == DecodeDefaulted(p, "count", AsInt32, 0)
    ensures DecodeDefaulted(q, "type", AsString, "") == DecodeDefaulted(p, "type", AsString, "")
  {
    EventSchemaKeys();
  }

  /** The seven Optional field decoders read only their own keys. */
  lemma EventOptionalDecodersLocal(p: Payload, q: Payload)
    requires AgreeOn(Keys(EventSchema), p, q)
    ensures DecodeOptional(q, "action", AsString) == DecodeOptional(p, "action", AsString)
    ensures DecodeOptional(q, "eventTime", AsMicroTime) == DecodeOptional(p, "eventTime", AsMicroTime)
    ensures DecodeOptional(q, "firstTimestamp", AsTime) == DecodeOptional(p, "firstTimestamp", AsTime)
    ensures DecodeOptional(q, "lastTimestamp", AsTime) == DecodeOptional(p, "lastTimestamp", AsTime)
    ensures DecodeOptional(q, "related", AsObjectReference) == DecodeOptional(p, "related", AsObjectReference)
    ensures DecodeOptional(q, "series", AsEventSeries) == DecodeOptional(p, "series", AsEventSeries)
    ensures DecodeOptional(q, "source", AsEventSource) == DecodeOptional(p, "source", AsEventSource)
  {
    EventSchemaKeys();
  }

  /** Decoding reads only the keys the schema declares: two payloads that
      agree on those decode alike, however they differ elsewhere. */
  lemma {:induction false} EventDecodeLocal(p: Payload, q: Payload)
    requires AgreeOn(Keys(EventSchema), p, q)
    ensures DecodeEvent(p) == DecodeEvent(q)
  {
    EventLeadingDecodersLocal(p, q);
    EventOptionalDecodersLocal(p, q);
  }

  /** Keys the Event schema does not declare are ignored, whatever they
      hold; in particular "type_" is not the wire name of `type_`. */
  lemma {:induction false} EventIgnoresUnknownKeys(p: Payload, k: string, v: Value)
    requires k !in Keys(EventSchema)
    ensures DecodeEvent(p[k := v]) == DecodeEvent(p)
  {
    EventDecodeLocal(p, p[k := v]);
  }

  /** `type_` is written under the wire key "type", never "type_". */
  lemma EncodedEventRename(e: V1Event)
    ensures "type" in EncodeEvent(e) && EncodeEvent(e)["type"] == Str(e.type_)
    ensures "type_" !in EncodeEvent(e)
  {
  }

  /** Encoding writes every declared key and no other: no field of an Event
      is ever left out, not even an Optional one that is None. */
  lemma EncodedEventKeys(e: V1Event)
    ensures EncodeEvent(e).Keys == Keys(EventSchema)
  {
    EventSchemaKeys();
    var declared := {
      "metadata", "involvedObject", "reportingComponent", "reportingInstance",
      "message", "reason", "count", "type", "action", "eventTime",
      "firstTimestamp", "lastTimestamp", "related", "series", "source"};
    assert Keys(EventSchema) == declared;
    assert EncodeEvent(e).Keys == declared;
  }

  /** Exactly the Optional fields that are None are written as null. */
  lemma EncodedEventNulls(e: V1Event)
    ensures var p := EncodeEvent(e);
      && (p["action"] == Null <==> e.action.None?)
      && (p["eventTime"] == Null <==> e.eventTime.None?)
      && (p["firstTimestamp"] == Null <==> e.firstTimestamp.None?)
      && (p["lastTimestamp"] == Null <==> e.lastTimestamp.None?)
      && (p["related"] == Null <==> e.related.None?)
      && (p["series"] == Null <==> e.series.None?)
      && (p["source"] == Null <==> e.source.None?)
  {
  }

  /** A failed decode names a field that really breaks its policy, and says
      "missing" only of a Required field whose key is absent: a missing
      Defaulted or Optional key is never reported. */
  lemma {:induction false} EventDecodeBlames(p: Payload)
    requires DecodeEvent(p).Failure?
    ensures Blames(EventSchema, p, DecodeEvent(p).error)
  {
    var err := DecodeEvent(p).error;
    EventSchemaElements();
    EventLeadingFieldsAccepted(p);
    EventOptionalFieldsAccepted(p);
    EventReferenceFieldsAccepted(p);
    var i: int;
    if DecodeRequired(p, "metadata", AsObjectMeta).Failure? { i := 0; }
    else if DecodeRequired(p, "involvedObject", AsObjectReference).Failure? { i := 1; }
    else if DecodeDefaulted(p, "reportingComponent", AsString, "").Failure? { i := 2; }
    else if DecodeDefaulted(p, "reportingInstance", AsString, "").Failure? { i := 3; }
    else if DecodeDefaulted(p, "message", AsString, "").Failure? { i := 4; }
    else if DecodeDefaulted(p, "reason", AsString, "").Failure? { i := 5; }
    else if DecodeDefaulted(p, "count", AsInt32, 0).Failure? { i := 6; }
    else if DecodeDefaulted(p, "type", AsString, "").Failure? { i := 7; }
    else if DecodeOptional(p, "action", AsString).Failure? { i := 8; }
    else if DecodeOptional(p, "eventTime", AsMicroTime).Failure? { i := 9; }
    else if DecodeOptional(p, "firstTimestamp", AsTime).Failure? { i := 10; }
    else if DecodeOptional(p, "lastTimestamp", AsTime).Failure? { i := 11; }
    else if DecodeOptional(p, "related", AsObjectReference).Failure? { i := 12; }
    else if DecodeOptional(p, "series", AsEventSeries).Failure? { i := 13; }
    else { i := 14; }
    assert EventSchema[i].key == err.Key() && !Accepts(EventSchema[i], p);
  }
}
