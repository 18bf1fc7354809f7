# Ingestion service: a Dafny model

This project models the admission core of the `projectkeas/ingestion` service. The service
takes events over HTTP, checks them, and forwards them to a NATS JetStream cluster. The model
covers six pieces:

- **API-key gate.** A token cell that configuration change notifications set, plus an exact
  comparison of the `Authorization` header with `"ApiKey " + token`.
- **Request pipeline.** The request closure of the ingestion handler, an ordered chain of
  early returns. It is modelled as a pure function from the answers of its collaborators to
  the status, the reason, the causes and whether the publisher was called.
- **Envelope decoding.** `EventEnvelope.UnmarshalJSON` with its case-sensitive dispatch on
  the event type, and the fourteen per-type decoders that map a subtype name to a variant.
- **Event-type registry.** A map from schema URI to a validatable entry. It is kept in step
  with add, update and delete notifications. An entry checks the subtype, then the source,
  then the schema.
- **Ingestion-policy engine.** The decision that folds every policy's `(allow, ttl)` bindings
  into one verdict (any deny wins, TTL is the largest of -1 and the non-zero ttls, any error aborts).
  It also covers the add, update and delete callbacks that keep the policy store and the
  per-name version record.
- **Event publisher.** The stream and subject names derived from the event type, the client
  cache keyed by subject, and the rule that adds a subject wildcard to the stream only when
  it is missing.

The libraries the code calls are oracles, passed as function-typed parameters:

- JSON-Schema compilation and validation;
- OPA evaluation;
- the JetStream sender, stream lookup and CloudEvents client;
- the JSON decoder.

Compiled schemas, senders and clients are opaque handles. Every state-changing callback is a
method of a class: for the registry, the policy service and the publisher the fields are the
Go struct's maps, and for the API-key gate the one field is the package-level token string.
The Go functions that compute without a loop are Dafny functions; the two `contains` loops
are Dafny methods with loop invariants.

Files, one module each:

- `wrappers.dfy`, `errors.dfy`, `json.dfy`: the base modules `Wrappers`, `Errors` and `Json`.
- `configuration.dfy`: `Configuration`.
- `strings.dfy`: `Strings`, the one-character `strings.Split` and `strings.Join` the publisher calls, and the split/join round trips. `IndexOf` and `LastIndexOf` (the first and last position of a character) are helpers that the publisher's contracts are stated with; the publisher does not call them.
- `sdk_events_*.dfy`: the per-type decoders.
- `sdk.dfy`: `Sdk`, holding the metadata, the event union and the envelope.
- `validatable_event_type.dfy`: `ValidatableEventTypes`.
- `event_type_service.dfy`: `EventTypes`.
- `ingestion_policy_service.dfy`: `IngestionPolicies`.
- `event_publisher.dfy`: `EventPublisher`.
- `ingestion_handler.dfy`: `IngestionHandler`.
- `authentication_handler.dfy`: `AuthenticationHandler`.

## Where the files disagree

The source files do not agree on their signatures, so the snapshot does not compile as a
whole. Each file's logic is modelled as written, and the pieces are joined through abstract
interfaces.

- `handlers/ingestionHandler/handler.go:135` calls `Validate(*event)`, but the interface at
  `services/eventTypes/EventTypeService.go:23` takes a CloudEvent and a data map, and line 41
  calls the entry with the data only. The model's registry `Validate` takes the data-schema
  key, the metadata and the payload. The pipeline only sees the outcome.
- `handlers/ingestionHandler/handler.go:168` calls `Publish(metadata, body)`, but
  `services/eventPublisher/eventPublisher.go:24` takes a CloudEvent. The pipeline only sees
  the boolean result, and the publisher is modelled on the CloudEvent's type.
- `services/eventTypes/EventTypeService.go:120-124` fills fields `schema`, `schemaUri` and
  `version`, but the struct at `services/eventTypes/ValidatableEventType.go:10-15` declares
  `SubTypes`, `Sources`, `Schema` and `version`. The model stores the compiled schema and the
  version, and leaves `SubTypes` and `Sources` at their zero value (empty, so they restrict
  nothing).
- `services/eventTypes/ValidatableEventType.go:20` reads `Metadata.SubType` and `Metadata.Type`,
  while `sdk/EventMetadata.go` declares `EventSubType` and `EventType`. The model uses the
  declared fields.
- `app.go:20` and `handlers/ingestionHandler/handler.go:22` disagree on how the handler is
  built. The construction is not modelled.

Points where the code is narrower than one might expect, and the model follows the code:

- The registry is keyed by the data-schema URI alone. There is no lookup by
  (type, subtype, version) and no wildcard fallback.
- The subject is the type with its first segment dropped, and the stream is the second
  segment. Neither is the first segment or the full type.
- A configuration change empties the whole client cache. There are no generation tags.
- There are no timeouts on the broker calls.
- The add or update hands the policy text to `opa.AddOrUpdatePolicy`
  (`services/ingestionPolicies/IngestionPolicyService.go:135-138`), a foreign call whose
  result the code ignores; the model stores the text and does not model what OPA does with it.

## Model

| member | source | states |
|---|---|---|
| AuthenticationHandler.Authenticator.constructor | handlers/authenticationHandler/handler.go:12 | the token starts empty |
| AuthenticationHandler.Authenticator.OnConfigurationChanged | handlers/authenticationHandler/handler.go:17-19 | the token becomes the value of `ingestion.auth.token`, or "" when the key is absent |
| AuthenticationHandler.Authenticator.Authenticate | handlers/authenticationHandler/handler.go:21-33 | the request passes exactly when a token is set and the header is "ApiKey " followed by nothing but that token; every other header gets 401 |
| AuthenticationHandler.EmptyTokenRejects | handlers/authenticationHandler/handler.go:23-26 | an empty token rejects every header, and the bare header "ApiKey " never passes |
| AuthenticationHandler.ConfigureThenAuthenticate | handlers/authenticationHandler/handler.go:12-33 | before any configuration every request is refused; after it, a non-empty configured token admits exactly its own header |
| IngestionHandler.Handle | handlers/ingestionHandler/handler.go:78-180 | each stage, once the earlier ones passed, ends the request with its own outcome: a body parse error gives 400 "request-body", a missing metadata then payload section gives 400 "metadata-missing" then "payload-missing", a metadata check failure gives 400 "metadata" with the causes for a validation error or 400 "metadata-failure" otherwise, a missing event-type service gives 500 "event-type", an event validation failure gives 400 "event-validation" with causes or 400 "event-validation-failure", a missing policy service gives 500 "ingestion-service", a decision error gives 500 "ingestion-service-failure", a deny gives 400 "ingestion-service-rejected", an allow calls Publish and gives 202 with no reason, or 500 "publish" when the publish fails. Across the stages: Publish is called exactly when every check passed and the decision allows; 202 exactly when that publish succeeded; every other outcome has a reason; the 500s are exactly event-type, ingestion-service, ingestion-service-failure and publish; causes appear only with "metadata" or "event-validation"; the status is 202, 400 or 500 |
| IngestionHandler.MetadataMissingFirst | handlers/ingestionHandler/handler.go:94-107 | a parsed body without "metadata" gets 400 "metadata-missing" whatever else it lacks |
| IngestionHandler.DeniedNeverPublished | handlers/ingestionHandler/handler.go:158-179 | a decision error or a deny never reaches the publisher |
| IngestionHandler.DenyingPolicyRejects | handlers/ingestionHandler/handler.go:158-179 | with the policy engine's own decision, one denying policy and no errors give 400 "ingestion-service-rejected" with no publish |
| IngestionHandler.NoPoliciesPublishes | handlers/ingestionHandler/handler.go:158-175 | with no policies an event that passed validation is published, and gets 202 with no reason when the publish succeeds and 500 "publish" when it fails |
| Sdk.DecodePayload | sdk/EventEnvelope.go:29-60 | an unknown type (Release included) fails with cannot-parse-event-type; "Generic" keeps the raw payload; a named type's failure is its decoder's subtype error; a success is a well-formed variant of that type whose subtype name is the input |
| Sdk.DecodePayloadRoundTrip | sdk/EventEnvelope.go:29-57 | every well-formed non-Release event is decoded from its own type and subtype names |
| Sdk.NoReleasePayload | sdk/EventEnvelope.go:29-60 | no decoded envelope carries a Release payload |
| Sdk.EventEnvelope.constructor | sdk/EventEnvelope.go:10-14 | a new envelope has every field at its zero value |
| Sdk.EventEnvelope.UnmarshalJSON | sdk/EventEnvelope.go:16-70 | a parse failure is returned and leaves Metadata and Payload alone; otherwise each metadata member the document gives overwrites that field and every absent one keeps the envelope's prior value; Payload is set exactly when the dispatch, run on the unchanged rawPayload, succeeds; rawPayload never changes |
| Sdk.EventEnvelope.UnmarshalJSONIntended | sdk/EventEnvelope.go:16-70 | as UnmarshalJSON, but rawPayload becomes the document's payload member when there is one (and keeps its prior value otherwise), so "Generic" yields exactly the payload that was sent |
| Sdk.MergeAbsentKeeps | sdk/EventEnvelope.go:23 | decoding a document without metadata members into the envelope leaves its metadata as it was |
| Sdk.MergeFieldwise | sdk/EventEnvelope.go:23 | after the decode the event type and subtype are the document's where it gives them and the prior values where it does not |
| Sdk.MergeCompleteForgets | sdk/EventEnvelope.go:23 | a document giving every metadata member yields the same metadata whatever the envelope held before |
| Sdk.MergeIdempotent | sdk/EventEnvelope.go:23 | decoding the same metadata members twice is decoding them once |
| Sdk.GenericPayloadDropped | sdk/EventEnvelope.go:13-41 | a "Generic" document with payload `{}` leaves the empty raw payload as written, and `{}` as intended |
| AlertEvents.NewAlertEventFromType | sdk/events/Alert.go:26-36 | succeeds exactly for the subtypes Triggered, Silenced and Resolved (case-sensitive); on success the variant's Name is the input subtype; any other subtype fails with the cannot-parse-subtype error naming 'Alert' |
| AlertEvents.DecodeRoundTrip | sdk/events/Alert.go:28-35 | every Alert variant is decoded from its own Name |
| AlertEvents.PayloadIgnored | sdk/events/Alert.go:26-36 | the result does not depend on the payload argument |
| ArtifactEvents.NewArtifactEventFromType | sdk/events/Artifact.go:26-36 | succeeds exactly for the subtypes Created, Deleted and Updated (case-sensitive); on success the variant's Name is the input subtype; any other subtype fails with the cannot-parse-subtype error naming 'Artifact' |
| ArtifactEvents.DecodeRoundTrip | sdk/events/Artifact.go:28-35 | every Artifact variant is decoded from its own Name |
| ArtifactEvents.PayloadIgnored | sdk/events/Artifact.go:26-36 | the result does not depend on the payload argument |
| CommitEvents.NewCommitEventFromType | sdk/events/Commit.go:16-22 | succeeds exactly for the subtypes Created only (case-sensitive); on success the variant's Name is the input subtype; any other subtype fails with the cannot-parse-subtype error naming 'Commit' |
| CommitEvents.DecodeRoundTrip | sdk/events/Commit.go:18-21 | every Commit variant is decoded from its own Name |
| CommitEvents.PayloadIgnored | sdk/events/Commit.go:16-22 | the result does not depend on the payload argument |
| DependencyEvents.NewDependencyEventFromType | sdk/events/Dependency.go:26-36 | succeeds exactly for the subtypes Created, Deleted and Updated (case-sensitive); on success the variant's Name is the input subtype; any other subtype fails with the cannot-parse-subtype error naming 'Dependency' |
| DependencyEvents.DecodeRoundTrip | sdk/events/Dependency.go:28-35 | every Dependency variant is decoded from its own Name |
| DependencyEvents.PayloadIgnored | sdk/events/Dependency.go:26-36 | the result does not depend on the payload argument |
| DeploymentEvents.NewDeploymentEventFromType | sdk/events/Deployment.go:26-36 | succeeds exactly for the subtypes Created, Deleted and Updated (case-sensitive); on success the variant's Name is the input subtype; any other subtype fails with the cannot-parse-subtype error naming 'Deployment' |
| DeploymentEvents.DecodeRoundTrip | sdk/events/Deployment.go:28-35 | every Deployment variant is decoded from its own Name |
| DeploymentEvents.PayloadIgnored | sdk/events/Deployment.go:26-36 | the result does not depend on the payload argument |
| IncidentEvents.NewIncidentEventFromType | sdk/events/Incident.go:26-36 | succeeds exactly for the subtypes Created, Deleted and Updated (case-sensitive); on success the variant's Name is the input subtype; any other subtype fails with the cannot-parse-subtype error naming 'Incident' |
| IncidentEvents.DecodeRoundTrip | sdk/events/Incident.go:28-35 | every Incident variant is decoded from its own Name |
| IncidentEvents.PayloadIgnored | sdk/events/Incident.go:26-36 | the result does not depend on the payload argument |
| PullRequestEvents.NewPullRequestEventFromType | sdk/events/PullRequest.go:26-36 | succeeds exactly for the subtypes Created, Deleted and Updated (case-sensitive); on success the variant's Name is the input subtype; any other subtype fails with the cannot-parse-subtype error naming 'PullRequest' |
| PullRequestEvents.DecodeRoundTrip | sdk/events/PullRequest.go:28-35 | every PullRequest variant is decoded from its own Name |
| PullRequestEvents.PayloadIgnored | sdk/events/PullRequest.go:26-36 | the result does not depend on the payload argument |
| PullRequestCommentEvents.NewPullRequestCommentEventFromType | sdk/events/PullRequestComment.go:26-36 | succeeds exactly for the subtypes Created, Deleted and Updated (case-sensitive); on success the variant's Name is the input subtype; any other subtype fails with the cannot-parse-subtype error naming 'PullRequestComment' |
| PullRequestCommentEvents.DecodeRoundTrip | sdk/events/PullRequestComment.go:28-35 | every PullRequestComment variant is decoded from its own Name |
| PullRequestCommentEvents.PayloadIgnored | sdk/events/PullRequestComment.go:26-36 | the result does not depend on the payload argument |
| ReleaseEvents.NewReleaseEventFromType | sdk/events/Release.go:26-36 | succeeds exactly for the subtypes Created, Deleted and Updated (case-sensitive); on success the variant's Name is the input subtype; any other subtype fails with the cannot-parse-subtype error naming 'Release' |
| ReleaseEvents.DecodeRoundTrip | sdk/events/Release.go:28-35 | every Release variant is decoded from its own Name |
| ReleaseEvents.PayloadIgnored | sdk/events/Release.go:26-36 | the result does not depend on the payload argument |
| RepositoryEvents.NewRepositoryEventFromType | sdk/events/Repository.go:26-36 | succeeds exactly for the subtypes Created, Deleted and Updated (case-sensitive); on success the variant's Name is the input subtype; any other subtype fails with the cannot-parse-subtype error naming 'Repository' |
| RepositoryEvents.DecodeRoundTrip | sdk/events/Repository.go:28-35 | every Repository variant is decoded from its own Name |
| RepositoryEvents.PayloadIgnored | sdk/events/Repository.go:26-36 | the result does not depend on the payload argument |
| SecurityAdvisoryEvents.NewSecurityAdvisoryEventFromType | sdk/events/SecurityAdvisory.go:26-36 | succeeds exactly for the subtypes Created, Deleted and Updated (case-sensitive); on success the variant's Name is the input subtype; any other subtype fails with the cannot-parse-subtype error naming 'SecurityAdvisory' |
| SecurityAdvisoryEvents.DecodeRoundTrip | sdk/events/SecurityAdvisory.go:28-35 | every SecurityAdvisory variant is decoded from its own Name |
| SecurityAdvisoryEvents.PayloadIgnored | sdk/events/SecurityAdvisory.go:26-36 | the result does not depend on the payload argument |
| ServiceEvents.NewServiceEventFromType | sdk/events/Service.go:26-36 | succeeds exactly for the subtypes Created, Deleted and Updated (case-sensitive); on success the variant's Name is the input subtype; any other subtype fails with the cannot-parse-subtype error naming 'Service' |
| ServiceEvents.DecodeRoundTrip | sdk/events/Service.go:28-35 | every Service variant is decoded from its own Name |
| ServiceEvents.PayloadIgnored | sdk/events/Service.go:26-36 | the result does not depend on the payload argument |
| WorkItemEvents.NewWorkItemEventFromType | sdk/events/WorkItem.go:26-36 | succeeds exactly for the subtypes Created, Deleted and Updated (case-sensitive); on success the variant's Name is the input subtype; any other subtype fails with the cannot-parse-subtype error naming 'WorkItem' |
| WorkItemEvents.DecodeRoundTrip | sdk/events/WorkItem.go:28-35 | every WorkItem variant is decoded from its own Name |
| WorkItemEvents.PayloadIgnored | sdk/events/WorkItem.go:26-36 | the result does not depend on the payload argument |
| WorkItemCommentEvents.NewWorkItemCommentEventFromType | sdk/events/WorkItemComment.go:26-36 | succeeds exactly for the subtypes Created, Deleted and Updated (case-sensitive); on success the variant's Name is the input subtype; any other subtype fails with the cannot-parse-subtype error naming 'WorkItemComment' |
| WorkItemCommentEvents.DecodeRoundTrip | sdk/events/WorkItemComment.go:28-35 | every WorkItemComment variant is decoded from its own Name |
| WorkItemCommentEvents.PayloadIgnored | sdk/events/WorkItemComment.go:26-36 | the result does not depend on the payload argument |
| ValidatableEventTypes.ValidatableEventType.Validate | services/eventTypes/ValidatableEventType.go:17-32 | accepted exactly when both lists admit the event (empty lists admit all) and the schema accepts; a subtype miss is reported before a source miss; when both lists admit, the result is the schema's |
| ValidatableEventTypes.SchemaNotConsulted | services/eventTypes/ValidatableEventType.go:19-29 | a membership failure does not depend on the schema validator |
| ValidatableEventTypes.ValidateWithScans | services/eventTypes/ValidatableEventType.go:17-32 | the check run with the contains scans gives, for every entry and event, exactly the verdict of ValidatableEventType.Validate |
| ValidatableEventTypes.Contains | services/eventTypes/ValidatableEventType.go:34-44 | true exactly when the item occurs in the list; ValidateWithScans uses it for both membership checks |
| EventTypes.EventTypeService.constructor | services/eventTypes/EventTypeService.go:26-28 | the registry starts empty |
| EventTypes.EventTypeService.Validate | services/eventTypes/EventTypeService.go:30-45 | an empty key is accepted; an unknown one gives no-matching-schema for that key; a known one gives exactly its entry's verdict |
| EventTypes.EventTypeService.AddOrUpdateEventType | services/eventTypes/EventTypeService.go:100-127 | returns true exactly when the URI does not already hold this version and the schema compiles; then only that URI's entry is replaced, carrying the new schema and version; otherwise nothing changes |
| EventTypes.EventTypeService.OnDeletedEventType | services/eventTypes/EventTypeService.go:133 | removes the resource's schema URI and nothing else |
| EventTypes.AddTwice | services/eventTypes/EventTypeService.go:105-108 | applying a resource a second time never changes the registry |
| EventTypes.AddValidateDelete | services/eventTypes/EventTypeService.go:30-133 | after a successful add, events naming the URI get the new schema's verdict alone; after the delete they get no-matching-schema |
| IngestionPolicies.FoldFails | services/ingestionPolicies/IngestionPolicyService.go:41-52 | the loop ends in an error, with the zero decision, exactly when some policy's evaluation or ttl conversion fails |
| IngestionPolicies.FoldAllow | services/ingestionPolicies/IngestionPolicyService.go:41-56 | with no failure, Allow ends true exactly when it started true and every policy allows |
| IngestionPolicies.FoldTtl | services/ingestionPolicies/IngestionPolicyService.go:41-60 | with no failure, TTL ends as the largest of the start value and the non-zero ttls |
| IngestionPolicies.DecisionSpec | services/ingestionPolicies/IngestionPolicyService.go:30-64 | an error exactly when some policy fails, with a zero decision even after a deny; otherwise Allow exactly when every policy allows, and TTL is the largest of -1 and the non-zero ttls, so never 0 |
| IngestionPolicies.FailOpen | services/ingestionPolicies/IngestionPolicyService.go:30-39 | with no policies the decision is allow with TTL -1 |
| IngestionPolicies.DecisionOrderIndependent | services/ingestionPolicies/IngestionPolicyService.go:41-63 | whether an error is returned, and otherwise the decision, is the same for any ordering of the keys |
| IngestionPolicies.IngestionPolicyService.constructor | services/ingestionPolicies/IngestionPolicyService.go:25-28 | the store and the version record start empty |
| IngestionPolicies.IngestionPolicyService.GetDecision | services/ingestionPolicies/IngestionPolicyService.go:30-64 | the loop's result is Decide's, whose meaning DecisionSpec and DecisionOrderIndependent state |
| IngestionPolicies.IngestionPolicyService.AddOrUpdateIngestionPolicy | services/ingestionPolicies/IngestionPolicyService.go:120-141 | a recorded version returns false and changes nothing; otherwise the default allow and the ttl (0 read as -1) are stored with the rule under ("keas.ingestion", name), the version is recorded, and the result is true; store and record stay consistent |
| IngestionPolicies.IngestionPolicyService.OnDeletedIngestionPolicy | services/ingestionPolicies/IngestionPolicyService.go:145-148 | removes the store entry under the resource's own namespace and forgets the version; for any other namespace than "keas.ingestion" this breaks the agreement of store and record |
| IngestionPolicies.IngestionPolicyService.OnDeletedIngestionPolicyIntended | services/ingestionPolicies/IngestionPolicyService.go:145-148 | removes the entry that add stored; store and record stay consistent and no entry of that name remains |
| IngestionPolicies.ApplyTwice | services/ingestionPolicies/IngestionPolicyService.go:121-124 | the second application returns false; after both, the policy store and the version record are exactly what the first application left: the new entry and version when it applied, the old ones when it did not |
| IngestionPolicies.DeletedPolicyStaysStored | services/ingestionPolicies/IngestionPolicyService.go:135-148 | a policy added and then deleted from namespace "default" is still stored as written, and gone as intended |
| Strings.LacksNotIn | services/eventPublisher/eventPublisher.go:124-131 | a proof helper for GetStreamConfig, not a model of these lines: the index-wise "lacks" used by the Strings proofs is exactly "not in", the form GetStreamConfig's contract is written in |
| Strings.Split | services/eventPublisher/eventPublisher.go:124 | at least one piece, as strings.Split returns for a non-empty separator |
| Strings.SplitNoSeparator | services/eventPublisher/eventPublisher.go:124-131 | a string without the separator splits into itself alone |
| Strings.SplitAppend | services/eventPublisher/eventPublisher.go:124-128 | a separator-free prefix followed by the separator is the first piece, and the rest splits on its own |
| Strings.SplitAtFirst | services/eventPublisher/eventPublisher.go:124-131 | the first piece ends at the first separator and the rest is the split of what follows it |
| Strings.SplitOnePiece | services/eventPublisher/eventPublisher.go:124-131 | the split has one piece exactly when the separator is absent |
| Strings.SplitPiecesFree | services/eventPublisher/eventPublisher.go:124-128 | no piece of a split holds the separator |
| Strings.Join | services/eventPublisher/eventPublisher.go:129-137 | strings.Join; its facts are stated by Strings.JoinEnds, Strings.JoinSplit and Strings.SplitJoin |
| Strings.JoinEnds | services/eventPublisher/eventPublisher.go:129 | joining no pieces gives ""; otherwise the first piece opens the result, the separator follows it when more pieces come, and the last piece closes it |
| Strings.JoinSplit | services/eventPublisher/eventPublisher.go:124-128 | joining a split gives the string back |
| Strings.SplitJoin | services/eventPublisher/eventPublisher.go:124-128 | splitting a join of separator-free pieces gives the pieces back |
| Strings.JoinAllButLast | services/eventPublisher/eventPublisher.go:134-136 | joining every piece but the last gives the text before the last separator, and nothing when there is none |
| EventPublisher.GetStreamConfig | services/eventPublisher/eventPublisher.go:124-133 | with a dot, the subject is everything after the first dot; without one it is the input; the stream is always the subject's first segment |
| EventPublisher.GetSubjectWildcard | services/eventPublisher/eventPublisher.go:135-140 | the text before the last dot followed by ".*", or ".*" for a dot-free subject |
| EventPublisher.WildcardOfTwoSegments | services/eventPublisher/eventPublisher.go:124-140 | for a two-segment subject the wildcard is the stream followed by ".*" |
| EventPublisher.StreamUpdate | services/eventPublisher/eventPublisher.go:82-93 | no update unless the stream info exists and lacks the wildcard; otherwise an update of the named stream with the old subjects plus the wildcard, the same description and retention, a 5-minute duplicate window and a 7-day maximum age |
| EventPublisher.NatsUri | services/eventPublisher/eventPublisher.go:66-68 | "address:port" from the configuration, each part falling back to its default: "nats-cluster.svc.cluster.local" and "4222" |
| EventPublisher.NatsUriOtherKeys | services/eventPublisher/eventPublisher.go:66-68 | only the keys "nats.address" and "nats.port" decide the address |
| EventPublisher.Contains | services/eventPublisher/eventPublisher.go:142-149 | true exactly when the item occurs in the list |
| EventPublisher.StreamUpdateIdempotent | services/eventPublisher/eventPublisher.go:82-93 | an update keeps every existing subject, and the updated stream needs no further update for the same wildcard |
| EventPublisher.EventPublisherService.constructor | services/eventPublisher/eventPublisher.go:33-36 | an empty cache and no configuration |
| EventPublisher.EventPublisherService.OnConfigurationChanged | services/eventPublisher/eventPublisher.go:37-44 | the new configuration is kept and the cache emptied |
| EventPublisher.EventPublisherService.Publish | services/eventPublisher/eventPublisher.go:49-122 | an invalid event fails with no calls and no cache change; a hit reuses the cached client with no connection; a miss connects to the configured address for (stream, subject), and a failure at sender, stream info or client creation returns false with the cache unchanged; a stream lacking the wildcard gets exactly it appended, with 5-minute duplicates, 7-day max age and its retention; a successful miss caches exactly the subject; the result is whether the send returned nil |
| EventPublisher.PublishTwice | services/eventPublisher/eventPublisher.go:63-104 | after a successful publish, publishing the same event again finds the client the first one cached under the subject: no connection and no stream update, the cache stays as the first publish left it, and the result is that client's send |
| EventPublisher.ReconnectAfterConfigurationChange | services/eventPublisher/eventPublisher.go:37-70 | after a configuration change the next publish connects to the new address for the event's stream and subject |

## Left out

- Go nil maps: a nil map reads as empty, so the lazy initialisation before the first insert (`EventTypeService.go:101-103`, `eventPublisher.go:59-61`) is not modelled.
- Mutex and concurrency: the publisher's lock is left out, and `Publish` and the change handler are atomic methods.
- Informer registration in the `New()` constructors, their add and update callbacks' type casts and logging, and `services/SharedInformer.go`: the callbacks are modelled by the bodies they call.
- Foreign libraries are oracles with no behaviour: JSON Schema, OPA evaluation, the JetStream sender with its stream lookup and update, the CloudEvents client with `Validate` and `Send`, mapstructure, and encoding/json.
- The OPA store's key listing is not tied to the policy store map. `GetDecision` takes the keys as a parameter.
- The result of the stream update is ignored by the code. The model records the update that would be requested, in the trace.
- The inline metadata schema text, its compilation, and `services/metadataVerification/metadataVerification.go`: the pipeline takes the metadata check's outcome as an input.
- HTTP plumbing: fiber, `BodyParser`, the human-readable `message` field of the error body, response writing, zap logging, and `app.go`.
- Runtime panics: the failed type assertions in the handler and the policy loop are not modelled, and well-typed bindings are assumed. The index `decision[0]` (`services/ingestionPolicies/IngestionPolicyService.go:48-49`) panics when an evaluation returns no result; the model's evaluator always returns one result's bindings or an error, so that panic is not modelled. A publish with no configuration yet, which would dereference nil, is modelled as a failed publish.
- Go's `int64` width of the ttl: the model uses unbounded integers, and the conversion's failure is an oracle error.
- Time: durations are integer nanosecond constants. There is no clock and no timeout.
- Sdk.EventEnvelope.UnmarshalJSON: when the initial parse fails, the model leaves the receiver unchanged, although encoding/json may have filled part of it.
- Sdk.EventEnvelope.UnmarshalJSONIntended: a `"payload": null` member is read as absent, while encoding/json would store the bytes `null`.
- EventPublisher.PublishTwice: the broker's `send` is a function of the client and the event, so two sends of the same event to the same client answer alike in the model; over the network the second send may fail where the first succeeded.
- The `validate` tags of `sdk/EventMetadata.go`: they are never enforced, and the metadata is plain data.
- `ReleaseEvents.NewReleaseEventFromType` is modelled, but no envelope reaches it.

## Findings

| source | as written | input that shows it | evidently intended | confidence | as-written member | corrected member |
|---|---|---|---|---|---|---|
| sdk/EventEnvelope.go:13,23,41 | `rawPayload` is unexported, so the initial `json.Unmarshal` never fills it; every decoder and the "Generic" case read the envelope's old (empty) raw payload | a fresh envelope decoding `{"metadata":{"eventType":"Generic",...},"payload":{}}` ends with an empty raw Payload | the payload member of the document reaches `rawPayload` before the dispatch, so "Generic" keeps what was sent | not executed | Sdk.EventEnvelope.UnmarshalJSON, Sdk.GenericPayloadDropped | Sdk.EventEnvelope.UnmarshalJSONIntended |
| services/ingestionPolicies/IngestionPolicyService.go:135,147 | add stores a policy under namespace "keas.ingestion", but delete removes it under the resource's own namespace | a policy "deny-all" in namespace "default" is added, then deleted: its store entry remains stored while its version is forgotten | delete removes ("keas.ingestion", name), the entry that add stored | not executed | IngestionPolicies.IngestionPolicyService.OnDeletedIngestionPolicy, IngestionPolicies.DeletedPolicyStaysStored | IngestionPolicies.IngestionPolicyService.OnDeletedIngestionPolicyIntended |
