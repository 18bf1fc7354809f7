/** Model of sdk/events/WorkItem.go: the WorkItem event variants and the decoder that picks one by subtype. */
module WorkItemEvents {
  import opened Wrappers
  import opened Errors
  import Json

  // The accepted subtype names, as the WorkItemEventTypes_* constants spell them.
  const Created: string := "Created"
  const Deleted: string := "Deleted"
  const Updated: string := "Updated"

  datatype WorkItemEvent =
    | WorkItemCreated(Name: string)
    | WorkItemDeleted(Name: string)
    | WorkItemUpdated(Name: string)

  /** The subtype name each variant is decoded from. */
  function SubTypeOf(e: WorkItemEvent): string {
    match e
    case WorkItemCreated(_) => Created
    case WorkItemDeleted(_) => Deleted
    case WorkItemUpdated(_) => Updated
  }

  /** A variant as the decoder builds it: its Name is its own subtype name. */
  predicate WellFormed(e: WorkItemEvent) {
    e.Name == SubTypeOf(e)
  }

  /**
    Picks the WorkItem variant named by `eventType`, matching exactly and case-sensitively.
    The payload argument is accepted and never read.
  */
  function NewWorkItemEventFromType(eventType: string, payload: Json.RawMessage): (r: Result<WorkItemEvent, Error>)
    ensures r.Success? <==> eventType in {Created, Deleted, Updated}
    ensures r.Success? ==> WellFormed(r.value) && r.value.Name == eventType
    ensures r.Failure? ==> r.error == CannotParseSubType(eventType, "WorkItem")
  {
    if eventType == Created then Success(WorkItemCreated(Created))
    else if eventType == Deleted then Success(WorkItemDeleted(Deleted))
    else if eventType == Updated then Success(WorkItemUpdated(Updated))
    else Failure(CannotParseSubType(eventType, "WorkItem"))
  }

  /** Decoding inverts SubTypeOf: every well-formed variant is decoded from its own name. */
  lemma DecodeRoundTrip(e: WorkItemEvent, payload: Json.RawMessage)
    requires WellFormed(e)
    ensures NewWorkItemEventFromType(e.Name, payload) == Success(e)
  {
  }

  /** The decoder's result depends on the subtype name alone. */
  lemma PayloadIgnored(eventType: string, p: Json.RawMessage, q: Json.RawMessage)
    ensures NewWorkItemEventFromType(eventType, p) == NewWorkItemEventFromType(eventType, q)
  {
  }
}
