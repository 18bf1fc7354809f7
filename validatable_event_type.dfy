/**
  Model of services/eventTypes/ValidatableEventType.go: a registered event type that
  restricts subtypes and sources (an empty list restricts nothing) before handing the
  payload to its compiled JSON schema.
*/
module ValidatableEventTypes {
  import opened Wrappers
  import opened Errors
  import Sdk

  /** An opaque compiled JSON schema (jsonschema.Schema). */
  datatype CompiledSchema = CompiledSchema(handle: nat)

  /** jsonschema.Schema.Validate as an oracle: None when the payload conforms. */
  type SchemaValidator = (CompiledSchema, Sdk.Payload) -> Option<Error>

  /** A restriction list admits a value when it is empty or holds the value. */
  predicate Admits(allowed: seq<string>, value: string) {
    |allowed| == 0 || value in allowed
  }

  datatype ValidatableEventType = ValidatableEventType(
    SubTypes: seq<string>,
    Sources: seq<string>,
    Schema: CompiledSchema,
    version: string)
  {
    /**
      Validate: the subtype check, then the source check, then the schema. The event is
      accepted exactly when both lists admit it and the schema accepts the payload; the
      first failing check names the error.
    */
    function Validate(metadata: Sdk.EventMetadata, payload: Sdk.Payload, validateSchema: SchemaValidator): (r: Option<Error>)
      ensures r.None? <==>
                Admits(SubTypes, metadata.EventSubType) && Admits(Sources, metadata.Source) &&
                validateSchema(Schema, payload).None?
      ensures !Admits(SubTypes, metadata.EventSubType) ==>
                r == Some(SubTypeNotRegistered(metadata.EventType, metadata.EventSubType))
      ensures Admits(SubTypes, metadata.EventSubType) && !Admits(Sources, metadata.Source) ==>
                r == Some(SourceNotRegistered(metadata.EventType, metadata.Source))
      ensures Admits(SubTypes, metadata.EventSubType) && Admits(Sources, metadata.Source) ==>
                r == validateSchema(Schema, payload)
    {
      if |SubTypes| > 0 && metadata.EventSubType !in SubTypes then
        Some(SubTypeNotRegistered(metadata.EventType, metadata.EventSubType))
      else if |Sources| > 0 && metadata.Source !in Sources then
        Some(SourceNotRegistered(metadata.EventType, metadata.Source))
      else
        validateSchema(Schema, payload)
    }
  }

  /** A membership failure is decided without the schema: any two validators agree on it. */
  lemma SchemaNotConsulted(vt: ValidatableEventType, metadata: Sdk.EventMetadata, payload: Sdk.Payload,
                           v: SchemaValidator, w: SchemaValidator)
    requires !Admits(vt.SubTypes, metadata.EventSubType) || !Admits(vt.Sources, metadata.Source)
    ensures vt.Validate(metadata, payload, v) == vt.Validate(metadata, payload, w)
  {
  }

  /**
    Validate as the Go runs it, with each membership check done by the contains scan: the
    same verdict as the function form for every entry and event.
  */
  method ValidateWithScans(vt: ValidatableEventType, metadata: Sdk.EventMetadata, payload: Sdk.Payload,
                           validateSchema: SchemaValidator)
    returns (r: Option<Error>)
    ensures r == vt.Validate(metadata, payload, validateSchema)
  {
    if |vt.SubTypes| > 0 {
      var found := Contains(vt.SubTypes, metadata.EventSubType);
      if !found {
        return Some(SubTypeNotRegistered(metadata.EventType, metadata.EventSubType));
      }
    }
    if |vt.Sources| > 0 {
      var found := Contains(vt.Sources, metadata.Source);
      if !found {
        return Some(SourceNotRegistered(metadata.EventType, metadata.Source));
      }
    }
    return validateSchema(vt.Schema, payload);
  }

  /** contains: whether `item` occurs in `arr`, found by a scan that stops at the first match. */
  method Contains(arr: seq<string>, item: string) returns (found: bool)
    ensures found <==> item in arr
  {
    found := false;
    var i := 0;
    while i < |arr|
      invariant 0 <= i <= |arr|
      invariant item !in arr[..i]
    {
      if arr[i] == item {
        found := true;
        break;
      }
      i := i + 1;
    }
  }
}
