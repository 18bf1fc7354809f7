/** Model of sdk/events/Release.go: the Release event variants and the decoder that picks one by subtype. */
// Envelope decoding (sdk/EventEnvelope.go) has no "Release" case, so nothing in Sdk reaches this decoder.
module ReleaseEvents {
  import opened Wrappers
  import opened Errors
  import Json

  // The accepted subtype names, as the ReleaseEventTypes_* constants spell them.
  const Created: string := "Created"
  const Deleted: string := "Deleted"
  const Updated: string := "Updated"

  datatype ReleaseEvent =
    | ReleaseCreated(Name: string)
    | ReleaseDeleted(Name: string)
    | ReleaseUpdated(Name: string)

  /** The subtype name each variant is decoded from. */
  function SubTypeOf(e: ReleaseEvent): string {
    match e
    case ReleaseCreated(_) => Created
    case ReleaseDeleted(_) => Deleted
    case ReleaseUpdated(_) => Updated
  }

  /** A variant as the decoder builds it: its Name is its own subtype name. */
  predicate WellFormed(e: ReleaseEvent) {
    e.Name == SubTypeOf(e)
  }

  /**
    Picks the Release variant named by `eventType`, matching exactly and case-sensitively.
    The payload argument is accepted and never read.
  */
  function NewReleaseEventFromType(eventType: string, payload: Json.RawMessage): (r: Result<ReleaseEvent, Error>)
    ensures r.Success? <==> eventType in {Created, Deleted, Updated}
    ensures r.Success? ==> WellFormed(r.value) && r.value.Name == eventType
    ensures r.Failure? ==> r.error == CannotParseSubType(eventType, "Release")
  {
    if eventType == Created then Success(ReleaseCreated(Created))
    else if eventType == Deleted then Success(ReleaseDeleted(Deleted))
    else if eventType == Updated then Success(ReleaseUpdated(Updated))
    else Failure(CannotParseSubType(eventType, "Release"))
  }

  /** Decoding inverts SubTypeOf: every well-formed variant is decoded from its own name. */
  lemma DecodeRoundTrip(e: ReleaseEvent, payload: Json.RawMessage)
    requires WellFormed(e)
    ensures NewReleaseEventFromType(e.Name, payload) == Success(e)
  {
  }

  /** The decoder's result depends on the subtype name alone. */
  lemma PayloadIgnored(eventType: string, p: Json.RawMessage, q: Json.RawMessage)
    ensures NewReleaseEventFromType(eventType, p) == NewReleaseEventFromType(eventType, q)
  {
  }
}
