/** Model of sdk/events/Incident.go: the Incident event variants and the decoder that picks one by subtype. */
module IncidentEvents {
  import opened Wrappers
  import opened Errors
  import Json

  // The accepted subtype names, as the IncidentEventTypes_* constants spell them.
  const Created: string := "Created"
  const Deleted: string := "Deleted"
  const Updated: string := "Updated"

  datatype IncidentEvent =
    | IncidentCreated(Name: string)
    | IncidentDeleted(Name: string)
    | IncidentUpdated(Name: string)

  /** The subtype name each variant is decoded from. */
  function SubTypeOf(e: IncidentEvent): string {
    match e
    case IncidentCreated(_) => Created
    case IncidentDeleted(_) => Deleted
    case IncidentUpdated(_) => Updated
  }

  /** A variant as the decoder builds it: its Name is its own subtype name. */
  predicate WellFormed(e: IncidentEvent) {
    e.Name == SubTypeOf(e)
  }

  /**
    Picks the Incident variant named by `eventType`, matching exactly and case-sensitively.
    The payload argument is accepted and never read.
  */
  function NewIncidentEventFromType(eventType: string, payload: Json.RawMessage): (r: Result<IncidentEvent, Error>)
    ensures r.Success? <==> eventType in {Created, Deleted, Updated}
    ensures r.Success? ==> WellFormed(r.value) && r.value.Name == eventType
    ensures r.Failure? ==> r.error == CannotParseSubType(eventType, "Incident")
  {
    if eventType == Created then Success(IncidentCreated(Created))
    else if eventType == Deleted then Success(IncidentDeleted(Deleted))
    else if eventType == Updated then Success(IncidentUpdated(Updated))
    else Failure(CannotParseSubType(eventType, "Incident"))
  }

  /** Decoding inverts SubTypeOf: every well-formed variant is decoded from its own name. */
  lemma DecodeRoundTrip(e: IncidentEvent, payload: Json.RawMessage)
    requires WellFormed(e)
    ensures NewIncidentEventFromType(e.Name, payload) == Success(e)
  {
  }

  /** The decoder's result depends on the subtype name alone. */
  lemma PayloadIgnored(eventType: string, p: Json.RawMessage, q: Json.RawMessage)
    ensures NewIncidentEventFromType(eventType, p) == NewIncidentEventFromType(eventType, q)
  {
  }
}
