/** Model of sdk/events/Commit.go: the Commit event variants and the decoder that picks one by subtype. */
module CommitEvents {
  import opened Wrappers
  import opened Errors
  import Json

  // The accepted subtype names, as the CommitEventTypes_* constants spell them.
  const Created: string := "Created"

  datatype CommitEvent =
    | CommitCreated(Name: string)

  /** The subtype name each variant is decoded from. */
  function SubTypeOf(e: CommitEvent): string {
    match e
    case CommitCreated(_) => Created
  }

  /** A variant as the decoder builds it: its Name is its own subtype name. */
  predicate WellFormed(e: CommitEvent) {
    e.Name == SubTypeOf(e)
  }

  /**
    Picks the Commit variant named by `eventType`, matching exactly and case-sensitively.
    The payload argument is accepted and never read.
  */
  function NewCommitEventFromType(eventType: string, payload: Json.RawMessage): (r: Result<CommitEvent, Error>)
    ensures r.Success? <==> eventType == Created
    ensures r.Success? ==> WellFormed(r.value) && r.value.Name == eventType
    ensures r.Failure? ==> r.error == CannotParseSubType(eventType, "Commit")
  {
    if eventType == Created then Success(CommitCreated(Created))
    else Failure(CannotParseSubType(eventType, "Commit"))
  }

  /** Decoding inverts SubTypeOf: every well-formed variant is decoded from its own name. */
  lemma DecodeRoundTrip(e: CommitEvent, payload: Json.RawMessage)
    requires WellFormed(e)
    ensures NewCommitEventFromType(e.Name, payload) == Success(e)
  {
  }

  /** The decoder's result depends on the subtype name alone. */
  lemma PayloadIgnored(eventType: string, p: Json.RawMessage, q: Json.RawMessage)
    ensures NewCommitEventFromType(eventType, p) == NewCommitEventFromType(eventType, q)
  {
  }
}
