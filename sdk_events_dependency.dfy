/** Model of sdk/events/Dependency.go: the Dependency event variants and the decoder that picks one by subtype. */
module DependencyEvents {
  import opened Wrappers
  import opened Errors
  import Json

  // The accepted subtype names, as the DependencyEventTypes_* constants spell them.
  const Created: string := "Created"
  const Deleted: string := "Deleted"
  const Updated: string := "Updated"

  datatype DependencyEvent =
    | DependencyCreated(Name: string)
    | DependencyDeleted(Name: string)
    | DependencyUpdated(Name: string)

  /** The subtype name each variant is decoded from. */
  function SubTypeOf(e: DependencyEvent): string {
    match e
    case DependencyCreated(_) => Created
    case DependencyDeleted(_) => Deleted
    case DependencyUpdated(_) => Updated
  }

  /** A variant as the decoder builds it: its Name is its own subtype name. */
  predicate WellFormed(e: DependencyEvent) {
    e.Name == SubTypeOf(e)
  }

  /**
    Picks the Dependency variant named by `eventType`, matching exactly and case-sensitively.
    The payload argument is accepted and never read.
  */
  function NewDependencyEventFromType(eventType: string, payload: Json.RawMessage): (r: Result<DependencyEvent, Error>)
    ensures r.Success? <==> eventType in {Created, Deleted, Updated}
    ensures r.Success? ==> WellFormed(r.value) && r.value.Name == eventType
    ensures r.Failure? ==> r.error == CannotParseSubType(eventType, "Dependency")
  {
    if eventType == Created then Success(DependencyCreated(Created))
    else if eventType == Deleted then Success(DependencyDeleted(Deleted))
    else if eventType == Updated then Success(DependencyUpdated(Updated))
    else Failure(CannotParseSubType(eventType, "Dependency"))
  }

  /** Decoding inverts SubTypeOf: every well-formed variant is decoded from its own name. */
  lemma DecodeRoundTrip(e: DependencyEvent, payload: Json.RawMessage)
    requires WellFormed(e)
    ensures NewDependencyEventFromType(e.Name, payload) == Success(e)
  {
  }

  /** The decoder's result depends on the subtype name alone. */
  lemma PayloadIgnored(eventType: string, p: Json.RawMessage, q: Json.RawMessage)
    ensures NewDependencyEventFromType(eventType, p) == NewDependencyEventFromType(eventType, q)
  {
  }
}
