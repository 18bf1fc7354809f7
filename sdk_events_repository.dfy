/** Model of sdk/events/Repository.go: the Repository event variants and the decoder that picks one by subtype. */
module RepositoryEvents {
  import opened Wrappers
  import opened Errors
  import Json

  // The accepted subtype names, as the RepositoryEventTypes_* constants spell them.
  const Created: string := "Created"
  const Deleted: string := "Deleted"
  const Updated: string := "Updated"

  datatype RepositoryEvent =
    | RepositoryCreated(Name: string)
    | RepositoryDeleted(Name: string)
    | RepositoryUpdated(Name: string)

  /** The subtype name each variant is decoded from. */
  function SubTypeOf(e: RepositoryEvent): string {
    match e
    case RepositoryCreated(_) => Created
    case RepositoryDeleted(_) => Deleted
    case RepositoryUpdated(_) => Updated
  }

  /** A variant as the decoder builds it: its Name is its own subtype name. */
  predicate WellFormed(e: RepositoryEvent) {
    e.Name == SubTypeOf(e)
  }

  /**
    Picks the Repository variant named by `eventType`, matching exactly and case-sensitively.
    The payload argument is accepted and never read.
  */
  function NewRepositoryEventFromType(eventType: string, payload: Json.RawMessage): (r: Result<RepositoryEvent, Error>)
    ensures r.Success? <==> eventType in {Created, Deleted, Updated}
    ensures r.Success? ==> WellFormed(r.value) && r.value.Name == eventType
    ensures r.Failure? ==> r.error == CannotParseSubType(eventType, "Repository")
  {
    if eventType == Created then Success(RepositoryCreated(Created))
    else if eventType == Deleted then Success(RepositoryDeleted(Deleted))
    else if eventType == Updated then Success(RepositoryUpdated(Updated))
    else Failure(CannotParseSubType(eventType, "Repository"))
  }

  /** Decoding inverts SubTypeOf: every well-formed variant is decoded from its own name. */
  lemma DecodeRoundTrip(e: RepositoryEvent, payload: Json.RawMessage)
    requires WellFormed(e)
    ensures NewRepositoryEventFromType(e.Name, payload) == Success(e)
  {
  }

  /** The decoder's result depends on the subtype name alone. */
  lemma PayloadIgnored(eventType: string, p: Json.RawMessage, q: Json.RawMessage)
    ensures NewRepositoryEventFromType(eventType, p) == NewRepositoryEventFromType(eventType, q)
  {
  }
}
