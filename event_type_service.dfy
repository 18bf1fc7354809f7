/**
  Model of services/eventTypes/EventTypeService.go: the registry of event types keyed by
  schema URI, kept in step with add, update and delete notifications, and the lookup that
  validates an event against the entry its data-schema names.
*/
module EventTypes {
  import opened Wrappers
  import opened Errors
  import Sdk
  import opened ValidatableEventTypes

  /** The fields of the EventType resource the service reads. */
  datatype EventTypeSpec = EventTypeSpec(SchemaUri: string, Schema: string)
  datatype EventType = EventType(Name: string, Namespace: string, ResourceVersion: string, Spec: EventTypeSpec)

  /** jsonschema.CompileString as an oracle. */
  type SchemaCompiler = string -> Result<CompiledSchema, Error>

  /** The entry a successful add stores: the struct literal sets the schema and the version only. */
  function EntryFor(eventType: EventType, schema: CompiledSchema): ValidatableEventType {
    ValidatableEventType([], [], schema, eventType.ResourceVersion)
  }

  /** An add is redundant when the URI's entry already carries the resource's version. */
  predicate SameVersion(eventTypes: map<string, ValidatableEventType>, eventType: EventType) {
    eventType.Spec.SchemaUri in eventTypes &&
    eventTypes[eventType.Spec.SchemaUri].version == eventType.ResourceVersion
  }

  class EventTypeService {
    var eventTypes: map<string, ValidatableEventType>

    constructor ()
      ensures eventTypes == map[]
    {
      eventTypes := map[];
    }

    /**
      Validate: an event without a data-schema is accepted, an unknown one is an error, and
      a known one gets exactly its entry's verdict.
    */
    function Validate(key: string, metadata: Sdk.EventMetadata, payload: Sdk.Payload,
                      validateSchema: SchemaValidator): (r: Option<Error>)
      reads this
      ensures key == "" ==> r == None
      ensures key != "" && key !in eventTypes ==> r == Some(NoMatchingSchema(key))
      ensures key != "" && key in eventTypes ==> r == eventTypes[key].Validate(metadata, payload, validateSchema)
    {
      if key == "" then None
      else if key in eventTypes then eventTypes[key].Validate(metadata, payload, validateSchema)
      else Some(NoMatchingSchema(key))
    }

    /**
      addOrUpdateEventType: nothing changes when the URI already holds this version or the
      schema does not compile (a previous entry survives); otherwise only the URI's entry is
      replaced. The result says whether the registry changed hands for that URI.
    */
    method AddOrUpdateEventType(eventType: EventType, compile: SchemaCompiler) returns (added: bool)
      modifies this
      ensures added <==> !SameVersion(old(eventTypes), eventType) && compile(eventType.Spec.Schema).Success?
      ensures !added ==> eventTypes == old(eventTypes)
      ensures added ==>
                eventTypes == old(eventTypes)[eventType.Spec.SchemaUri := EntryFor(eventType, compile(eventType.Spec.Schema).value)]
    {
      var uri := eventType.Spec.SchemaUri;
      if uri in eventTypes && eventTypes[uri].version == eventType.ResourceVersion {
        return false;
      }
      var schema := compile(eventType.Spec.Schema);
      if schema.Failure? {
        return false;
      }
      eventTypes := eventTypes[uri := EntryFor(eventType, schema.value)];
      return true;
    }

    /** The delete callback: removes the resource's URI and nothing else. */
    method OnDeletedEventType(eventType: EventType)
      modifies this
      ensures eventTypes == old(eventTypes) - {eventType.Spec.SchemaUri}
    {
      eventTypes := eventTypes - {eventType.Spec.SchemaUri};
    }
  }

  /** Applying the same resource twice: the second application never changes anything. */
  method AddTwice(svc: EventTypeService, eventType: EventType, compile: SchemaCompiler)
    returns (first: bool, second: bool)
    modifies svc
    ensures !second
    ensures !first ==> svc.eventTypes == old(svc.eventTypes)
    ensures first ==>
              compile(eventType.Spec.Schema).Success? &&
              svc.eventTypes == old(svc.eventTypes)[eventType.Spec.SchemaUri := EntryFor(eventType, compile(eventType.Spec.Schema).value)]
  {
    first := svc.AddOrUpdateEventType(eventType, compile);
    second := svc.AddOrUpdateEventType(eventType, compile);
  }

  /**
    Once an add succeeds, events naming its URI get the new schema's verdict alone, since
    the stored entry restricts neither subtypes nor sources; once the URI is deleted they
    get the no-matching-schema error.
  */
  method AddValidateDelete(svc: EventTypeService, eventType: EventType, compile: SchemaCompiler,
                           metadata: Sdk.EventMetadata, payload: Sdk.Payload, validateSchema: SchemaValidator)
    returns (added: bool, afterAdd: Option<Error>, afterDelete: Option<Error>)
    requires eventType.Spec.SchemaUri != ""
    modifies svc
    ensures added ==> compile(eventType.Spec.Schema).Success? && afterAdd == validateSchema(compile(eventType.Spec.Schema).value, payload)
    ensures afterDelete == Some(NoMatchingSchema(eventType.Spec.SchemaUri))
  {
    added := svc.AddOrUpdateEventType(eventType, compile);
    afterAdd := svc.Validate(eventType.Spec.SchemaUri, metadata, payload, validateSchema);
    svc.OnDeletedEventType(eventType);
    afterDelete := svc.Validate(eventType.Spec.SchemaUri, metadata, payload, validateSchema);
  }
}
