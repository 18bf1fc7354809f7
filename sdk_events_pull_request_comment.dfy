/** Model of sdk/events/PullRequestComment.go: the PullRequestComment event variants and the decoder that picks one by subtype. */
module PullRequestCommentEvents {
  import opened Wrappers
  import opened Errors
  import Json

  // The accepted subtype names, as the PullRequestCommentEventTypes_* constants spell them.
  const Created: string := "Created"
  const Deleted: string := "Deleted"
  const Updated: string := "Updated"

  datatype PullRequestCommentEvent =
    | PullRequestCommentCreated(Name: string)
    | PullRequestCommentDeleted(Name: string)
    | PullRequestCommentUpdated(Name: string)

  /** The subtype name each variant is decoded from. */
  function SubTypeOf(e: PullRequestCommentEvent): string {
    match e
    case PullRequestCommentCreated(_) => Created
    case PullRequestCommentDeleted(_) => Deleted
    case PullRequestCommentUpdated(_) => Updated
  }

  /** A variant as the decoder builds it: its Name is its own subtype name. */
  predicate WellFormed(e: PullRequestCommentEvent) {
    e.Name == SubTypeOf(e)
  }

  /**
    Picks the PullRequestComment variant named by `eventType`, matching exactly and case-sensitively.
    The payload argument is accepted and never read.
  */
  function NewPullRequestCommentEventFromType(eventType: string, payload: Json.RawMessage): (r: Result<PullRequestCommentEvent, Error>)
    ensures r.Success? <==> eventType in {Created, Deleted, Updated}
    ensures r.Success? ==> WellFormed(r.value) && r.value.Name == eventType
    ensures r.Failure? ==> r.error == CannotParseSubType(eventType, "PullRequestComment")
  {
    if eventType == Created then Success(PullRequestCommentCreated(Created))
    else if eventType == Deleted then Success(PullRequestCommentDeleted(Deleted))
    else if eventType == Updated then Success(PullRequestCommentUpdated(Updated))
    else Failure(CannotParseSubType(eventType, "PullRequestComment"))
  }

  /** Decoding inverts SubTypeOf: every well-formed variant is decoded from its own name. */
  lemma DecodeRoundTrip(e: PullRequestCommentEvent, payload: Json.RawMessage)
    requires WellFormed(e)
    ensures NewPullRequestCommentEventFromType(e.Name, payload) == Success(e)
  {
  }

  /** The decoder's result depends on the subtype name alone. */
  lemma PayloadIgnored(eventType: string, p: Json.RawMessage, q: Json.RawMessage)
    ensures NewPullRequestCommentEventFromType(eventType, p) == NewPullRequestCommentEventFromType(eventType, q)
  {
  }
}
