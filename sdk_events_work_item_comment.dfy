/** Model of sdk/events/WorkItemComment.go: the WorkItemComment event variants and the decoder that picks one by subtype. */
module WorkItemCommentEvents {
  import opened Wrappers
  import opened Errors
  import Json

  // The accepted subtype names, as the WorkItemCommentEventTypes_* constants spell them.
  const Created: string := "Created"
  const Deleted: string := "Deleted"
  const Updated: string := "Updated"

  datatype WorkItemCommentEvent =
    | WorkItemCommentCreated(Name: string)
    | WorkItemCommentDeleted(Name: string)
    | WorkItemCommentUpdated(Name: string)

  /** The subtype name each variant is decoded from. */
  function SubTypeOf(e: WorkItemCommentEvent): string {
    match e
    case WorkItemCommentCreated(_) => Created
    case WorkItemCommentDeleted(_) => Deleted
    case WorkItemCommentUpdated(_) => Updated
  }

  /** A variant as the decoder builds it: its Name is its own subtype name. */
  predicate WellFormed(e: WorkItemCommentEvent) {
    e.Name == SubTypeOf(e)
  }

  /**
    Picks the WorkItemComment variant named by `eventType`, matching exactly and case-sensitively.
    The payload argument is accepted and never read.
  */
  function NewWorkItemCommentEventFromType(eventType: string, payload: Json.RawMessage): (r: Result<WorkItemCommentEvent, Error>)
    ensures r.Success? <==> eventType in {Created, Deleted, Updated}
    ensures r.Success? ==> WellFormed(r.value) && r.value.Name == eventType
    ensures r.Failure? ==> r.error == CannotParseSubType(eventType, "WorkItemComment")
  {
    if eventType == Created then Success(WorkItemCommentCreated(Created))
    else if eventType == Deleted then Success(WorkItemCommentDeleted(Deleted))
    else if eventType == Updated then Success(WorkItemCommentUpdated(Updated))
    else Failure(CannotParseSubType(eventType, "WorkItemComment"))
  }

  /** Decoding inverts SubTypeOf: every well-formed variant is decoded from its own name. */
  lemma DecodeRoundTrip(e: WorkItemCommentEvent, payload: Json.RawMessage)
    requires WellFormed(e)
    ensures NewWorkItemCommentEventFromType(e.Name, payload) == Success(e)
  {
  }

  /** The decoder's result depends on the subtype name alone. */
  lemma PayloadIgnored(eventType: string, p: Json.RawMessage, q: Json.RawMessage)
    ensures NewWorkItemCommentEventFromType(eventType, p) == NewWorkItemCommentEventFromType(eventType, q)
  {
  }
}
