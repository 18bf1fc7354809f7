/** Model of sdk/events/SecurityAdvisory.go: the SecurityAdvisory event variants and the decoder that picks one by subtype. */
module SecurityAdvisoryEvents {
  import opened Wrappers
  import opened Errors
  import Json

  // The accepted subtype names, as the SecurityAdvisoryEventTypes_* constants spell them.
  const Created: string := "Created"
  const Deleted: string := "Deleted"
  const Updated: string := "Updated"

  datatype SecurityAdvisoryEvent =
    | SecurityAdvisoryCreated(Name: string)
    | SecurityAdvisoryDeleted(Name: string)
    | SecurityAdvisoryUpdated(Name: string)

  /** The subtype name each variant is decoded from. */
  function SubTypeOf(e: SecurityAdvisoryEvent): string {
    match e
    case SecurityAdvisoryCreated(_) => Created
    case SecurityAdvisoryDeleted(_) => Deleted
    case SecurityAdvisoryUpdated(_) => Updated
  }

  /** A variant as the decoder builds it: its Name is its own subtype name. */
  predicate WellFormed(e: SecurityAdvisoryEvent) {
    e.Name == SubTypeOf(e)
  }

  /**
    Picks the SecurityAdvisory variant named by `eventType`, matching exactly and case-sensitively.
    The payload argument is accepted and never read.
  */
  function NewSecurityAdvisoryEventFromType(eventType: string, payload: Json.RawMessage): (r: Result<SecurityAdvisoryEvent, Error>)
    ensures r.Success? <==> eventType in {Created, Deleted, Updated}
    ensures r.Success? ==> WellFormed(r.value) && r.value.Name == eventType
    ensures r.Failure? ==> r.error == CannotParseSubType(eventType, "SecurityAdvisory")
  {
    if eventType == Created then Success(SecurityAdvisoryCreated(Created))
    else if eventType == Deleted then Success(SecurityAdvisoryDeleted(Deleted))
    else if eventType == Updated then Success(SecurityAdvisoryUpdated(Updated))
    else Failure(CannotParseSubType(eventType, "SecurityAdvisory"))
  }

  /** Decoding inverts SubTypeOf: every well-formed variant is decoded from its own name. */
  lemma DecodeRoundTrip(e: SecurityAdvisoryEvent, payload: Json.RawMessage)
    requires WellFormed(e)
    ensures NewSecurityAdvisoryEventFromType(e.Name, payload) == Success(e)
  {
  }

  /** The decoder's result depends on the subtype name alone. */
  lemma PayloadIgnored(eventType: string, p: Json.RawMessage, q: Json.RawMessage)
    ensures NewSecurityAdvisoryEventFromType(eventType, p) == NewSecurityAdvisoryEventFromType(eventType, q)
  {
  }
}
