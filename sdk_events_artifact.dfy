/** Model of sdk/events/Artifact.go: the Artifact event variants and the decoder that picks one by subtype. */
module ArtifactEvents {
  import opened Wrappers
  import opened Errors
  import Json

  // The accepted subtype names, as the ArtifactEventTypes_* constants spell them.
  const Created: string := "Created"
  const Deleted: string := "Deleted"
  const Updated: string := "Updated"

  datatype ArtifactEvent =
    | ArtifactCreated(Name: string)
    | ArtifactDeleted(Name: string)
    | ArtifactUpdated(Name: string)

  /** The subtype name each variant is decoded from. */
  function SubTypeOf(e: ArtifactEvent): string {
    match e
    case ArtifactCreated(_) => Created
    case ArtifactDeleted(_) => Deleted
    case ArtifactUpdated(_) => Updated
  }

  /** A variant as the decoder builds it: its Name is its own subtype name. */
  predicate WellFormed(e: ArtifactEvent) {
    e.Name == SubTypeOf(e)
  }

  /**
    Picks the Artifact variant named by `eventType`, matching exactly and case-sensitively.
    The payload argument is accepted and never read.
  */
  function NewArtifactEventFromType(eventType: string, payload: Json.RawMessage): (r: Result<ArtifactEvent, Error>)
    ensures r.Success? <==> eventType in {Created, Deleted, Updated}
    ensures r.Success? ==> WellFormed(r.value) && r.value.Name == eventType
    ensures r.Failure? ==> r.error == CannotParseSubType(eventType, "Artifact")
  {
    if eventType == Created then Success(ArtifactCreated(Created))
    else if eventType == Deleted then Success(ArtifactDeleted(Deleted))
    else if eventType == Updated then Success(ArtifactUpdated(Updated))
    else Failure(CannotParseSubType(eventType, "Artifact"))
  }

  /** Decoding inverts SubTypeOf: every well-formed variant is decoded from its own name. */
  lemma DecodeRoundTrip(e: ArtifactEvent, payload: Json.RawMessage)
    requires WellFormed(e)
    ensures NewArtifactEventFromType(e.Name, payload) == Success(e)
  {
  }

  /** The decoder's result depends on the subtype name alone. */
  lemma PayloadIgnored(eventType: string, p: Json.RawMessage, q: Json.RawMessage)
    ensures NewArtifactEventFromType(eventType, p) == NewArtifactEventFromType(eventType, q)
  {
  }
}
