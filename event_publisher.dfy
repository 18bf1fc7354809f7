/**
  Model of services/eventPublisher/eventPublisher.go: a publisher that keeps one broker
  client per subject, drops them all when the configuration changes, provisions the stream
  for a new subject, and sends events through the cached client.
*/
module EventPublisher {
  import opened Wrappers
  import opened Errors
  import opened Strings
  import Configuration

  // time.Duration values, in nanoseconds.
  const Minute: int := 60_000_000_000
  const Hour: int := 60 * Minute
  /** The duplicate-detection window set on a stream update (5 * time.Minute). */
  const DuplicatesWindow: int := 5 * Minute
  /** The maximum message age set on a stream update (7 * (24 * time.Hour)). */
  const StreamMaxAge: int := 7 * (24 * Hour)

  const DefaultAddress: string := "nats-cluster.svc.cluster.local"
  const DefaultPort: string := "4222"

  /** nats.RetentionPolicy, carried through unchanged. */
  datatype RetentionPolicy = RetentionPolicy(code: nat)

  /** The part of nats.StreamConfig the publisher reads or writes. */
  datatype StreamConfig = StreamConfig(
    Name: string,
    Subjects: seq<string>,
    Description: string,
    Duplicates: int,
    Retention: RetentionPolicy,
    MaxAge: int)

  datatype StreamInfo = StreamInfo(Config: StreamConfig)

  /** Opaque handles for a JetStream sender and a CloudEvents client. */
  datatype Sender = Sender(handle: nat)
  datatype Client = Client(handle: nat)

  /** The parts of a CloudEvent the publisher reads. */
  datatype CloudEvent = CloudEvent(Type: string, ID: string)

  /**
    The libraries the publisher calls, as oracles: CloudEvent validation, JetStream sender
    creation (uri, stream, subject), stream-info lookup (nil info is None), CloudEvents client
    creation, and send (None when Send returned nil).
  */
  datatype Broker = Broker(
    validate: CloudEvent -> Option<Error>,
    newSender: (string, string, string) -> Result<Sender, Error>,
    streamInfo: (Sender, string) -> Result<Option<StreamInfo>, Error>,
    newClient: Sender -> Result<Client, Error>,
    send: (Client, CloudEvent) -> Option<Error>)

  /** The arguments of a NewSender call. */
  datatype SenderRequest = SenderRequest(uri: string, stream: string, subject: string)

  /** What a publish asked of the broker besides the send: a connection and a stream update. */
  datatype PublishTrace = PublishTrace(connect: Option<SenderRequest>, streamUpdate: Option<StreamConfig>)

  const NoCalls := PublishTrace(None, None)

  /** The text before the first dot, or all of it. */
  function FirstSegment(s: string): string {
    var i := IndexOf(s, '.');
    if i < 0 then s else s[..i]
  }

  /**
    getStreamConfig: drops the first dot-separated segment of the event type. The subject is
    everything after the first dot and the stream is the subject's own first segment; a
    dot-free type is both.
  */
  function GetStreamConfig(input: string): (r: (string, string))
    ensures '.' in input ==> r.1 == input[IndexOf(input, '.') + 1..]
    ensures '.' !in input ==> r.1 == input
    ensures r.0 == FirstSegment(r.1)
  {
    var result := Split(input, '.');
    SplitOnePiece(input, '.');
    LacksNotIn(input, '.');
    if |result| > 1 then
      var rest := input[IndexOf(input, '.') + 1..];
      SplitAtFirst(input, '.');
      SplitAtFirst(rest, '.');
      JoinSplit(rest, '.');
      (result[1], Join(result[1..], '.'))
    else (input, input)
  }

  /**
    getSubjectWildcard: every segment but the last, joined, then ".*". That is the text
    before the last dot followed by ".*", and just ".*" for a dot-free subject.
  */
  function GetSubjectWildcard(input: string): (r: string)
    ensures '.' in input ==> r == input[..LastIndexOf(input, '.')] + ".*"
    ensures '.' !in input ==> r == ".*"
  {
    var sections := Split(input, '.');
    JoinAllButLast(input, '.');
    LacksNotIn(input, '.');
    Join(sections[..|sections| - 1], '.') + ".*"
  }

  /** For a subject of two segments the wildcard is the stream followed by ".*". */
  lemma WildcardOfTwoSegments(input: string)
    requires var subject := GetStreamConfig(input).1;
             '.' in subject && IndexOf(subject, '.') == LastIndexOf(subject, '.')
    ensures GetSubjectWildcard(GetStreamConfig(input).1) == GetStreamConfig(input).0 + ".*"
  {
  }

  /** contains: whether `item` is one of `elements`. */
  method Contains(elements: seq<string>, item: string) returns (found: bool)
    ensures found <==> item in elements
  {
    for i := 0 to |elements|
      invariant item !in elements[..i]
    {
      if elements[i] == item {
        return true;
      }
    }
    return false;
  }

  /**
    The stream update a new subject needs: none unless the stream exists and lacks the
    wildcard; otherwise the existing subjects plus the wildcard, the same description and
    retention, a five-minute duplicate window and a seven-day maximum age.
  */
  function StreamUpdate(info: Option<StreamInfo>, stream: string, wildcard: string): (u: Option<StreamConfig>)
    ensures u.Some? <==> info.Some? && wildcard !in info.value.Config.Subjects
    ensures u.Some? ==>
              && u.value.Name == stream
              && u.value.Subjects == info.value.Config.Subjects + [wildcard]
              && u.value.Description == info.value.Config.Description
              && u.value.Retention == info.value.Config.Retention
              && u.value.Duplicates == 300_000_000_000
              && u.value.MaxAge == 604_800_000_000_000
  {
    if info.Some? && wildcard !in info.value.Config.Subjects then
      var c := info.value.Config;
      Some(StreamConfig(stream, c.Subjects + [wildcard], c.Description, DuplicatesWindow, c.Retention, StreamMaxAge))
    else None
  }

  /** After its update a stream needs no other for the same wildcard, and loses no subject. */
  lemma StreamUpdateIdempotent(info: StreamInfo, stream: string, wildcard: string)
    requires StreamUpdate(Some(info), stream, wildcard).Some?
    ensures var u := StreamUpdate(Some(info), stream, wildcard).value;
            && (forall s :: s in info.Config.Subjects ==> s in u.Subjects)
            && StreamUpdate(Some(StreamInfo(u)), stream, wildcard) == None
  {
  }

  /** The broker address the configuration names, "<address>:<port>", with the defaults. */
  function NatsUri(c: Configuration.ConfigurationRoot): (uri: string)
    ensures "nats.address" !in c && "nats.port" !in c ==> uri == "nats-cluster.svc.cluster.local:4222"
    ensures "nats.address" in c && "nats.port" in c ==> uri == c["nats.address"] + ":" + c["nats.port"]
    ensures "nats.address" in c && "nats.port" !in c ==> uri == c["nats.address"] + ":4222"
    ensures "nats.address" !in c && "nats.port" in c ==> uri == "nats-cluster.svc.cluster.local:" + c["nats.port"]
  {
    Configuration.GetStringValueOrDefault(c, "nats.address", DefaultAddress) + ":" +
    Configuration.GetStringValueOrDefault(c, "nats.port", DefaultPort)
  }

  /** Only the two broker keys decide the address: any other key may change freely. */
  lemma NatsUriOtherKeys(c: Configuration.ConfigurationRoot, key: string, value: string)
    requires key != "nats.address" && key != "nats.port"
    ensures NatsUri(c[key := value]) == NatsUri(c)
  {
  }

  class EventPublisherService {
    var natsClientCache: map<string, Client>
    /** Nil until the first change notification. */
    var config: Option<Configuration.ConfigurationRoot>

    /** New: an empty cache and no configuration yet. */
    constructor ()
      ensures natsClientCache == map[] && config == None
    {
      natsClientCache, config := map[], None;
    }

    /** The change-notification handler: the new configuration and an empty cache. */
    method OnConfigurationChanged(c: Configuration.ConfigurationRoot)
      modifies this
      ensures config == Some(c) && natsClientCache == map[]
    {
      config := Some(c);
      natsClientCache := map[];
    }

    /**
      Publish. An invalid event fails before the cache is looked at. A cached client for the
      subject is reused. On a miss the publisher connects, reads the stream, updates it when
      it lacks the subject's wildcard, makes a client and caches it under the subject; a
      failure at any of these steps returns false and caches nothing. The result is whether
      the send returned nil.
    */
    method Publish(event: CloudEvent, broker: Broker) returns (ok: bool, trace: PublishTrace)
      modifies this
      ensures config == old(config)
      ensures broker.validate(event).Some? ==>
                !ok && natsClientCache == old(natsClientCache) && trace == NoCalls
      ensures var subject := GetStreamConfig(event.Type).1;
              broker.validate(event).None? && subject in old(natsClientCache) ==>
                && natsClientCache == old(natsClientCache) && trace == NoCalls
                && ok == broker.send(old(natsClientCache)[subject], event).None?
      ensures var subject := GetStreamConfig(event.Type).1;
              broker.validate(event).None? && subject !in old(natsClientCache) && config.None? ==>
                !ok && natsClientCache == old(natsClientCache) && trace == NoCalls
      ensures var (stream, subject) := GetStreamConfig(event.Type);
              broker.validate(event).None? && subject !in old(natsClientCache) && config.Some? ==>
                var request := SenderRequest(NatsUri(config.value), stream, subject);
                var sender := broker.newSender(request.uri, stream, subject);
                && trace.connect == Some(request)
                && (sender.Failure? ==>
                      !ok && natsClientCache == old(natsClientCache) && trace.streamUpdate == None)
                && (sender.Success? ==>
                      var info := broker.streamInfo(sender.value, stream);
                      && (info.Failure? ==>
                            !ok && natsClientCache == old(natsClientCache) && trace.streamUpdate == None)
                      && (info.Success? ==>
                            var client := broker.newClient(sender.value);
                            && trace.streamUpdate == StreamUpdate(info.value, stream, GetSubjectWildcard(subject))
                            && (client.Failure? ==> !ok && natsClientCache == old(natsClientCache))
                            && (client.Success? ==>
                                  && natsClientCache == old(natsClientCache)[subject := client.value]
                                  && ok == broker.send(client.value, event).None?)))
    {
      trace := NoCalls;
      if broker.validate(event).Some? {
        return false, trace;
      }
      var (streamName, subject) := GetStreamConfig(event.Type);
      var client: Client;
      if subject in natsClientCache {
        client := natsClientCache[subject];
      } else {
        if config.None? {
          // A nil configuration would be dereferenced here; the model fails the publish.
          return false, trace;
        }
        var uri := NatsUri(config.value);
        trace := trace.(connect := Some(SenderRequest(uri, streamName, subject)));
        var sender := broker.newSender(uri, streamName, subject);
        if sender.Failure? {
          return false, trace;
        }
        var subjectWildcard := GetSubjectWildcard(subject);
        var streamInfo := broker.streamInfo(sender.value, streamName);
        if streamInfo.Failure? {
          return false, trace;
        }
        if streamInfo.value.Some? {
          var present := Contains(streamInfo.value.value.Config.Subjects, subjectWildcard);
          if !present {
            var c := streamInfo.value.value.Config;
            trace := trace.(streamUpdate := Some(StreamConfig(streamName, c.Subjects + [subjectWildcard],
              c.Description, DuplicatesWindow, c.Retention, StreamMaxAge)));
          }
        }
        var created := broker.newClient(sender.value);
        if created.Failure? {
          return false, trace;
        }
        client := created.value;
        natsClientCache := natsClientCache[subject := client];
      }
      var result := broker.send(client, event);
      return result.None?, trace;
    }
  }

  /**
    A second publish of a valid event after a successful one reuses the client the first
    cached under its subject: no new connection, no stream update, the cache stays as the
    first publish left it, and the result is that client's send.
  */
  method PublishTwice(publisher: EventPublisherService, event: CloudEvent, broker: Broker)
    returns (first: bool, second: bool, secondTrace: PublishTrace, afterFirst: map<string, Client>)
    requires broker.validate(event).None?
    modifies publisher
    ensures var subject := GetStreamConfig(event.Type).1;
            first ==>
              && subject in afterFirst
              && secondTrace == NoCalls
              && publisher.natsClientCache == afterFirst
              && second == broker.send(afterFirst[subject], event).None?
  {
    var firstTrace;
    first, firstTrace := publisher.Publish(event, broker);
    afterFirst := publisher.natsClientCache;
    second, secondTrace := publisher.Publish(event, broker);
  }

  /** A configuration change drops every cached client: the next publish connects again, to the new address. */
  method ReconnectAfterConfigurationChange(publisher: EventPublisherService, c: Configuration.ConfigurationRoot,
                                           event: CloudEvent, broker: Broker)
    returns (trace: PublishTrace)
    requires broker.validate(event).None?
    modifies publisher
    ensures var (stream, subject) := GetStreamConfig(event.Type);
            trace.connect == Some(SenderRequest(NatsUri(c), stream, subject))
  {
    publisher.OnConfigurationChanged(c);
    var ok;
    ok, trace := publisher.Publish(event, broker);
  }
}
