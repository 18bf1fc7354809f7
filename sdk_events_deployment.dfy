/** Model of sdk/events/Deployment.go: the Deployment event variants and the decoder that picks one by subtype. */
module DeploymentEvents {
  import opened Wrappers
  import opened Errors
  import Json

  // The accepted subtype names, as the DeploymentEventTypes_* constants spell them.
  const Created: string := "Created"
  const Deleted: string := "Deleted"
  const Updated: string := "Updated"

  datatype DeploymentEvent =
    | DeploymentCreated(Name: string)
    | DeploymentDeleted(Name: string)
    | DeploymentUpdated(Name: string)

  /** The subtype name each variant is decoded from. */
  function SubTypeOf(e: DeploymentEvent): string {
    match e
    case DeploymentCreated(_) => Created
    case DeploymentDeleted(_) => Deleted
    case DeploymentUpdated(_) => Updated
  }

  /** A variant as the decoder builds it: its Name is its own subtype name. */
  predicate WellFormed(e: DeploymentEvent) {
    e.Name == SubTypeOf(e)
  }

  /**
    Picks the Deployment variant named by `eventType`, matching exactly and case-sensitively.
    The payload argument is accepted and never read.
  */
  function NewDeploymentEventFromType(eventType: string, payload: Json.RawMessage): (r: Result<DeploymentEvent, Error>)
    ensures r.Success? <==> eventType in {Created, Deleted, Updated}
    ensures r.Success? ==> WellFormed(r.value) && r.value.Name == eventType
    ensures r.Failure? ==> r.error == CannotParseSubType(eventType, "Deployment")
  {
    if eventType == Created then Success(DeploymentCreated(Created))
    else if eventType == Deleted then Success(DeploymentDeleted(Deleted))
    else if eventType == Updated then Success(DeploymentUpdated(Updated))
    else Failure(CannotParseSubType(eventType, "Deployment"))
  }

  /** Decoding inverts SubTypeOf: every well-formed variant is decoded from its own name. */
  lemma DecodeRoundTrip(e: DeploymentEvent, payload: Json.RawMessage)
    requires WellFormed(e)
    ensures NewDeploymentEventFromType(e.Name, payload) == Success(e)
  {
  }

  /** The decoder's result depends on the subtype name alone. */
  lemma PayloadIgnored(eventType: string, p: Json.RawMessage, q: Json.RawMessage)
    ensures NewDeploymentEventFromType(eventType, p) == NewDeploymentEventFromType(eventType, q)
  {
  }
}
