/**
  Model of sdk/EventEnvelope.go (with the EventMetadata record of sdk/EventMetadata.go):
  an envelope whose JSON decoding fills the metadata and then picks a typed payload by the
  metadata's event type and subtype.
*/
module Sdk {
  import opened Wrappers
  import opened Errors
  import Json
  import AlertEvents
  import ArtifactEvents
  import CommitEvents
  import DependencyEvents
  import DeploymentEvents
  import IncidentEvents
  import PullRequestEvents
  import PullRequestCommentEvents
  import ReleaseEvents
  import RepositoryEvents
  import SecurityAdvisoryEvents
  import ServiceEvents
  import WorkItemEvents
  import WorkItemCommentEvents

  /** The metadata record; its validation tags are never enforced, so it is plain data. */
  datatype EventMetadata = EventMetadata(
    Source: string,
    EventType: string,
    EventSubType: string,
    EventVersion: string,
    EventTime: string,
    EventUUID: string)

  /** Go's zero value of EventMetadata. */
  const EmptyMetadata := EventMetadata("", "", "", "", "", "")

  /** The typed payloads of sdk/events, one variant per event file. */
  datatype Event =
    | Alert(alert: AlertEvents.AlertEvent)
    | Artifact(artifact: ArtifactEvents.ArtifactEvent)
    | Commit(commit: CommitEvents.CommitEvent)
    | Dependency(dependency: DependencyEvents.DependencyEvent)
    | Deployment(deployment: DeploymentEvents.DeploymentEvent)
    | Incident(incident: IncidentEvents.IncidentEvent)
    | PullRequest(pullRequest: PullRequestEvents.PullRequestEvent)
    | PullRequestComment(pullRequestComment: PullRequestCommentEvents.PullRequestCommentEvent)
    | Release(release: ReleaseEvents.ReleaseEvent)
    | Repository(repository: RepositoryEvents.RepositoryEvent)
    | SecurityAdvisory(securityAdvisory: SecurityAdvisoryEvents.SecurityAdvisoryEvent)
    | Service(service: ServiceEvents.ServiceEvent)
    | WorkItem(workItem: WorkItemEvents.WorkItemEvent)
    | WorkItemComment(workItemComment: WorkItemCommentEvents.WorkItemCommentEvent)

  /** The event type name that selects each variant's decoder. */
  function TypeName(e: Event): string {
    match e
    case Alert(_) => "Alert"
    case Artifact(_) => "Artifact"
    case Commit(_) => "Commit"
    case Dependency(_) => "Dependency"
    case Deployment(_) => "Deployment"
    case Incident(_) => "Incident"
    case PullRequest(_) => "PullRequest"
    case PullRequestComment(_) => "PullRequestComment"
    case Release(_) => "Release"
    case Repository(_) => "Repository"
    case SecurityAdvisory(_) => "SecurityAdvisory"
    case Service(_) => "Service"
    case WorkItem(_) => "WorkItem"
    case WorkItemComment(_) => "WorkItemComment"
  }

  /** The subtype name carried by the variant. */
  function SubTypeName(e: Event): string {
    match e
    case Alert(x) => x.Name
    case Artifact(x) => x.Name
    case Commit(x) => x.Name
    case Dependency(x) => x.Name
    case Deployment(x) => x.Name
    case Incident(x) => x.Name
    case PullRequest(x) => x.Name
    case PullRequestComment(x) => x.Name
    case Release(x) => x.Name
    case Repository(x) => x.Name
    case SecurityAdvisory(x) => x.Name
    case Service(x) => x.Name
    case WorkItem(x) => x.Name
    case WorkItemComment(x) => x.Name
  }

  /** A variant as its decoder builds it. */
  predicate WellFormed(e: Event) {
    match e
    case Alert(x) => AlertEvents.WellFormed(x)
    case Artifact(x) => ArtifactEvents.WellFormed(x)
    case Commit(x) => CommitEvents.WellFormed(x)
    case Dependency(x) => DependencyEvents.WellFormed(x)
    case Deployment(x) => DeploymentEvents.WellFormed(x)
    case Incident(x) => IncidentEvents.WellFormed(x)
    case PullRequest(x) => PullRequestEvents.WellFormed(x)
    case PullRequestComment(x) => PullRequestCommentEvents.WellFormed(x)
    case Release(x) => ReleaseEvents.WellFormed(x)
    case Repository(x) => RepositoryEvents.WellFormed(x)
    case SecurityAdvisory(x) => SecurityAdvisoryEvents.WellFormed(x)
    case Service(x) => ServiceEvents.WellFormed(x)
    case WorkItem(x) => WorkItemEvents.WellFormed(x)
    case WorkItemComment(x) => WorkItemCommentEvents.WellFormed(x)
  }

  /** EventEnvelope.Payload (an interface{}): unset, a typed event, or undecoded JSON. */
  datatype Payload = Nil | Typed(event: Event) | Raw(raw: Json.RawMessage)

  /** The event types the envelope's switch names; "Release" is not among them. */
  const EnvelopeTypes: set<string> := {"Alert", "Artifact", "Commit", "Dependency", "Deployment", "Generic", "Incident", "PullRequest", "PullRequestComment", "Repository", "SecurityAdvisory", "Service", "WorkItem", "WorkItemComment"}

  function Lift<T>(r: Result<T, Error>, wrap: T -> Event): Result<Payload, Error> {
    match r
    case Success(v) => Success(Typed(wrap(v)))
    case Failure(e) => Failure(e)
  }

  /**
    The type switch of UnmarshalJSON: each named type hands the subtype to its own decoder,
    "Generic" keeps the raw payload, and any other type is an error.
  */
  function DecodePayload(eventType: string, eventSubType: string, raw: Json.RawMessage): (r: Result<Payload, Error>)
    ensures eventType !in EnvelopeTypes ==> r == Failure(CannotParseEventType(eventType))
    ensures eventType == "Generic" ==> r == Success(Raw(raw))
    ensures eventType in EnvelopeTypes && eventType != "Generic" && r.Failure? ==>
              r.error == CannotParseSubType(eventSubType, eventType)
    ensures r.Success? && eventType != "Generic" ==>
              r.value.Typed? && TypeName(r.value.event) == eventType &&
              SubTypeName(r.value.event) == eventSubType && WellFormed(r.value.event)
  {
    if eventType == "Alert" then Lift(AlertEvents.NewAlertEventFromType(eventSubType, raw), x => Alert(x))
    else if eventType == "Artifact" then Lift(ArtifactEvents.NewArtifactEventFromType(eventSubType, raw), x => Artifact(x))
    else if eventType == "Commit" then Lift(CommitEvents.NewCommitEventFromType(eventSubType, raw), x => Commit(x))
    else if eventType == "Dependency" then Lift(DependencyEvents.NewDependencyEventFromType(eventSubType, raw), x => Dependency(x))
    else if eventType == "Deployment" then Lift(DeploymentEvents.NewDeploymentEventFromType(eventSubType, raw), x => Deployment(x))
    else if eventType == "Generic" then Success(Raw(raw))
    else if eventType == "Incident" then Lift(IncidentEvents.NewIncidentEventFromType(eventSubType, raw), x => Incident(x))
    else if eventType == "PullRequest" then Lift(PullRequestEvents.NewPullRequestEventFromType(eventSubType, raw), x => PullRequest(x))
    else if eventType == "PullRequestComment" then Lift(PullRequestCommentEvents.NewPullRequestCommentEventFromType(eventSubType, raw), x => PullRequestComment(x))
    else if eventType == "Repository" then Lift(RepositoryEvents.NewRepositoryEventFromType(eventSubType, raw), x => Repository(x))
    else if eventType == "SecurityAdvisory" then Lift(SecurityAdvisoryEvents.NewSecurityAdvisoryEventFromType(eventSubType, raw), x => SecurityAdvisory(x))
    else if eventType == "Service" then Lift(ServiceEvents.NewServiceEventFromType(eventSubType, raw), x => Service(x))
    else if eventType == "WorkItem" then Lift(WorkItemEvents.NewWorkItemEventFromType(eventSubType, raw), x => WorkItem(x))
    else if eventType == "WorkItemComment" then Lift(WorkItemCommentEvents.NewWorkItemCommentEventFromType(eventSubType, raw), x => WorkItemComment(x))
    else Failure(CannotParseEventType(eventType))
  }

  /** Every well-formed event except a Release one is decoded from its own type and subtype names. */
  lemma DecodePayloadRoundTrip(e: Event, raw: Json.RawMessage)
    requires WellFormed(e) && !e.Release?
    ensures DecodePayload(TypeName(e), SubTypeName(e), raw) == Success(Typed(e))
  {
    match e
    case Alert(x) => AlertEvents.DecodeRoundTrip(x, raw);
    case Artifact(x) => ArtifactEvents.DecodeRoundTrip(x, raw);
    case Commit(x) => CommitEvents.DecodeRoundTrip(x, raw);
    case Dependency(x) => DependencyEvents.DecodeRoundTrip(x, raw);
    case Deployment(x) => DeploymentEvents.DecodeRoundTrip(x, raw);
    case Incident(x) => IncidentEvents.DecodeRoundTrip(x, raw);
    case PullRequest(x) => PullRequestEvents.DecodeRoundTrip(x, raw);
    case PullRequestComment(x) => PullRequestCommentEvents.DecodeRoundTrip(x, raw);
    case Repository(x) => RepositoryEvents.DecodeRoundTrip(x, raw);
    case SecurityAdvisory(x) => SecurityAdvisoryEvents.DecodeRoundTrip(x, raw);
    case Service(x) => ServiceEvents.DecodeRoundTrip(x, raw);
    case WorkItem(x) => WorkItemEvents.DecodeRoundTrip(x, raw);
    case WorkItemComment(x) => WorkItemCommentEvents.DecodeRoundTrip(x, raw);
  }

  /** No envelope ever carries a Release payload: the Release decoder is unreachable. */
  lemma NoReleasePayload(eventType: string, eventSubType: string, raw: Json.RawMessage)
    ensures DecodePayload(eventType, eventSubType, raw).Success? ==>
              !(DecodePayload(eventType, eventSubType, raw).value.Typed? &&
                DecodePayload(eventType, eventSubType, raw).value.event.Release?)
  {
  }

  /**
    The members of a document's "metadata" object, each absent (None) or given. A document
    without a "metadata" member gives every field absent.
  */
  datatype MetadataJson = MetadataJson(
    Source: Option<string>,
    EventType: Option<string>,
    EventSubType: Option<string>,
    EventVersion: Option<string>,
    EventTime: Option<string>,
    EventUUID: Option<string>)

  const NoMetadataMembers := MetadataJson(None, None, None, None, None, None)

  /** The envelope's JSON object as the parse oracle reads it: its metadata members and its payload member, if any. */
  datatype EnvelopeJson = EnvelopeJson(metadata: MetadataJson, payload: Option<Json.RawMessage>)

  /** encoding/json decodes into the existing value: a given member overwrites, an absent one keeps. */
  function Overwrite<T>(current: T, member: Option<T>): T {
    if member.Some? then member.value else current
  }

  /** Decoding a metadata object into the metadata the envelope already holds. */
  function MergeMetadata(current: EventMetadata, m: MetadataJson): EventMetadata {
    EventMetadata(
      Overwrite(current.Source, m.Source),
      Overwrite(current.EventType, m.EventType),
      Overwrite(current.EventSubType, m.EventSubType),
      Overwrite(current.EventVersion, m.EventVersion),
      Overwrite(current.EventTime, m.EventTime),
      Overwrite(current.EventUUID, m.EventUUID))
  }

  /** A document without metadata members leaves the held metadata as it was. */
  lemma MergeAbsentKeeps(current: EventMetadata)
    ensures MergeMetadata(current, NoMetadataMembers) == current
  {
  }

  /** A field the document gives is what the envelope holds afterwards; an absent one is the prior value. */
  lemma MergeFieldwise(current: EventMetadata, m: MetadataJson)
    ensures var r := MergeMetadata(current, m);
            && (m.EventType.Some? ==> r.EventType == m.EventType.value)
            && (m.EventType.None? ==> r.EventType == current.EventType)
            && (m.EventSubType.Some? ==> r.EventSubType == m.EventSubType.value)
            && (m.EventSubType.None? ==> r.EventSubType == current.EventSubType)
  {
  }

  /** When every field is given, the prior metadata makes no difference. */
  lemma MergeCompleteForgets(a: EventMetadata, b: EventMetadata, m: MetadataJson)
    requires m.Source.Some? && m.EventType.Some? && m.EventSubType.Some?
    requires m.EventVersion.Some? && m.EventTime.Some? && m.EventUUID.Some?
    ensures MergeMetadata(a, m) == MergeMetadata(b, m)
  {
  }

  /** Decoding the same members twice is decoding them once. */
  lemma MergeIdempotent(current: EventMetadata, m: MetadataJson)
    ensures MergeMetadata(MergeMetadata(current, m), m) == MergeMetadata(current, m)
  {
  }

  /** The JSON decoder (encoding/json), an oracle that reads the object or fails. */
  type Parser = seq<Json.byte> -> Result<EnvelopeJson, Error>

  class EventEnvelope {
    var Metadata: EventMetadata
    var Payload: Payload
    /** Unexported: encoding/json never writes it. */
    var rawPayload: Json.RawMessage

    /** new(sdk.EventEnvelope): every field at its zero value. */
    constructor ()
      ensures Metadata == EmptyMetadata && Payload == Nil && rawPayload == []
    {
      Metadata, Payload, rawPayload := EmptyMetadata, Nil, [];
    }

    /**
      UnmarshalJSON as written. The initial decode writes into the envelope itself, and into
      the exported, tagged field Metadata only, member by member: `Payload` is tagged "-" and `rawPayload` is unexported, so the payload member of
      the document is dropped and the dispatch sees the old rawPayload.
    */
    method UnmarshalJSON(b: seq<Json.byte>, parse: Parser) returns (err: Option<Error>)
      modifies this
      ensures rawPayload == old(rawPayload)
      ensures parse(b).Failure? ==>
                err == Some(parse(b).error) && Metadata == old(Metadata) && Payload == old(Payload)
      ensures parse(b).Success? ==> Metadata == MergeMetadata(old(Metadata), parse(b).value.metadata)
      ensures parse(b).Success? ==>
                var d := DecodePayload(Metadata.EventType, Metadata.EventSubType, old(rawPayload));
                if d.Success? then err == None && Payload == d.value
                else err == Some(d.error) && Payload == old(Payload)
    {
      var doc := parse(b);
      if doc.Failure? {
        return Some(doc.error);
      }
      Metadata := MergeMetadata(Metadata, doc.value.metadata);
      var payload := DecodePayload(Metadata.EventType, Metadata.EventSubType, rawPayload);
      if payload.Failure? {
        return Some(payload.error);
      }
      Payload := payload.value;
      return None;
    }

    /**
      UnmarshalJSON as evidently intended: the document's payload member reaches rawPayload
      before the dispatch, so a "Generic" event keeps the payload it was sent with.
    */
    method UnmarshalJSONIntended(b: seq<Json.byte>, parse: Parser) returns (err: Option<Error>)
      modifies this
      ensures parse(b).Failure? ==>
                err == Some(parse(b).error) && Metadata == old(Metadata) &&
                Payload == old(Payload) && rawPayload == old(rawPayload)
      ensures parse(b).Success? ==>
                && Metadata == MergeMetadata(old(Metadata), parse(b).value.metadata)
                && rawPayload == Overwrite(old(rawPayload), parse(b).value.payload)
      ensures parse(b).Success? && parse(b).value.payload.Some? && Metadata.EventType == "Generic" ==>
                err == None && Payload == Raw(parse(b).value.payload.value)
      ensures parse(b).Success? ==>
                var d := DecodePayload(Metadata.EventType, Metadata.EventSubType, rawPayload);
                if d.Success? then err == None && Payload == d.value
                else err == Some(d.error) && Payload == old(Payload)
    {
      var doc := parse(b);
      if doc.Failure? {
        return Some(doc.error);
      }
      Metadata := MergeMetadata(Metadata, doc.value.metadata);
      rawPayload := Overwrite(rawPayload, doc.value.payload);
      var payload := DecodePayload(Metadata.EventType, Metadata.EventSubType, rawPayload);
      if payload.Failure? {
        return Some(payload.error);
      }
      Payload := payload.value;
      return None;
    }
  }

  /**
    Decoding a fresh envelope whose document is a "Generic" event with payload `{}`: as
    written the envelope's Payload is the empty raw message, as intended it is `{}`.
  */
  method GenericPayloadDropped() returns (asWritten: Payload, intended: Payload)
    ensures asWritten == Raw([])
    ensures intended == Raw([123, 125])
  {
    var body: Json.RawMessage := [123, 125];
    var members := MetadataJson(Some("github"), Some("Generic"), Some("Created"), Some("1.0.0"), None, None);
    var doc := EnvelopeJson(members, Some(body));
    var parse: Parser := _ => Success(doc);
    var env := new EventEnvelope();
    var err := env.UnmarshalJSON([], parse);
    asWritten := env.Payload;
    var fixed := new EventEnvelope();
    err := fixed.UnmarshalJSONIntended([], parse);
    intended := fixed.Payload;
  }
}
