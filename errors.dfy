/**
  The error values the modelled code produces. Go's `error` is one interface type; the model
  keeps one datatype whose constructors are the errors the core itself builds with
  fmt.Errorf, plus the two shapes a library error can take as far as the core cares:
  a JSON-Schema validation error (the handler casts to *jsonschema.ValidationError to
  report its causes) and any other library error.
*/
module Errors {

  datatype Error =
      /** "cannot parse event type '<subType>' for type '<typeName>'" (every decoder under sdk/events) */
    | CannotParseSubType(eventSubType: string, typeName: string)
      /** "cannot parse event type '<eventType>'" (sdk/EventEnvelope.go) */
    | CannotParseEventType(eventType: string)
      /** "'<type>' is not registered for subType '<subType>'" */
    | SubTypeNotRegistered(eventType: string, subType: string)
      /** "'<type>' is not registered for source '<source>'" */
    | SourceNotRegistered(eventType: string, source: string)
      /** "no matching schema found for: <key>" */
    | NoMatchingSchema(key: string)
      /** a *jsonschema.ValidationError with its causes */
    | ValidationError(causes: seq<string>)
      /** any other error returned by a library the model treats as an oracle */
    | LibraryError(detail: string)
}
