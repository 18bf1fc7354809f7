/** Model of sdk/events/Service.go: the Service event variants and the decoder that picks one by subtype. */
module ServiceEvents {
  import opened Wrappers
  import opened Errors
  import Json

  // The accepted subtype names, as the ServiceEventTypes_* constants spell them.
  const Created: string := "Created"
  const Deleted: string := "Deleted"
  const Updated: string := "Updated"

  datatype ServiceEvent =
    | ServiceCreated(Name: string)
    | ServiceDeleted(Name: string)
    | ServiceUpdated(Name: string)

  /** The subtype name each variant is decoded from. */
  function SubTypeOf(e: ServiceEvent): string {
    match e
    case ServiceCreated(_) => Created
    case ServiceDeleted(_) => Deleted
    case ServiceUpdated(_) => Updated
  }

  /** A variant as the decoder builds it: its Name is its own subtype name. */
  predicate WellFormed(e: ServiceEvent) {
    e.Name == SubTypeOf(e)
  }

  /**
    Picks the Service variant named by `eventType`, matching exactly and case-sensitively.
    The payload argument is accepted and never read.
  */
  function NewServiceEventFromType(eventType: string, payload: Json.RawMessage): (r: Result<ServiceEvent, Error>)
    ensures r.Success? <==> eventType in {Created, Deleted, Updated}
    ensures r.Success? ==> WellFormed(r.value) && r.value.Name == eventType
    ensures r.Failure? ==> r.error == CannotParseSubType(eventType, "Service")
  {
    if eventType == Created then Success(ServiceCreated(Created))
    else if eventType == Deleted then Success(ServiceDeleted(Deleted))
    else if eventType == Updated then Success(ServiceUpdated(Updated))
    else Failure(CannotParseSubType(eventType, "Service"))
  }

  /** Decoding inverts SubTypeOf: every well-formed variant is decoded from its own name. */
  lemma DecodeRoundTrip(e: ServiceEvent, payload: Json.RawMessage)
    requires WellFormed(e)
    ensures NewServiceEventFromType(e.Name, payload) == Success(e)
  {
  }

  /** The decoder's result depends on the subtype name alone. */
  lemma PayloadIgnored(eventType: string, p: Json.RawMessage, q: Json.RawMessage)
    ensures NewServiceEventFromType(eventType, p) == NewServiceEventFromType(eventType, q)
  {
  }
}
