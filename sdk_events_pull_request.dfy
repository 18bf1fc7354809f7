/** Model of sdk/events/PullRequest.go: the PullRequest event variants and the decoder that picks one by subtype. */
module PullRequestEvents {
  import opened Wrappers
  import opened Errors
  import Json

  // The accepted subtype names, as the PullRequestEventTypes_* constants spell them.
  const Created: string := "Created"
  const Deleted: string := "Deleted"
  const Updated: string := "Updated"

  datatype PullRequestEvent =
    | PullRequestCreated(Name: string)
    | PullRequestDeleted(Name: string)
    | PullRequestUpdated(Name: string)

  /** The subtype name each variant is decoded from. */
  function SubTypeOf(e: PullRequestEvent): string {
    match e
    case PullRequestCreated(_) => Created
    case PullRequestDeleted(_) => Deleted
    case PullRequestUpdated(_) => Updated
  }

  /** A variant as the decoder builds it: its Name is its own subtype name. */
  predicate WellFormed(e: PullRequestEvent) {
    e.Name == SubTypeOf(e)
  }

  /**
    Picks the PullRequest variant named by `eventType`, matching exactly and case-sensitively.
    The payload argument is accepted and never read.
  */
  function NewPullRequestEventFromType(eventType: string, payload: Json.RawMessage): (r: Result<PullRequestEvent, Error>)
    ensures r.Success? <==> eventType in {Created, Deleted, Updated}
    ensures r.Success? ==> WellFormed(r.value) && r.value.Name == eventType
    ensures r.Failure? ==> r.error == CannotParseSubType(eventType, "PullRequest")
  {
    if eventType == Created then Success(PullRequestCreated(Created))
    else if eventType == Deleted then Success(PullRequestDeleted(Deleted))
    else if eventType == Updated then Success(PullRequestUpdated(Updated))
    else Failure(CannotParseSubType(eventType, "PullRequest"))
  }

  /** Decoding inverts SubTypeOf: every well-formed variant is decoded from its own name. */
  lemma DecodeRoundTrip(e: PullRequestEvent, payload: Json.RawMessage)
    requires WellFormed(e)
    ensures NewPullRequestEventFromType(e.Name, payload) == Success(e)
  {
  }

  /** The decoder's result depends on the subtype name alone. */
  lemma PayloadIgnored(eventType: string, p: Json.RawMessage, q: Json.RawMessage)
    ensures NewPullRequestEventFromType(eventType, p) == NewPullRequestEventFromType(eventType, q)
  {
  }
}
