# Ingestion service register — a Dafny model

This project models the ingestion service of the CloudBurst Analytics demo
(`src/ingestion-service/main.py`). The service consumes telemetry events from
Azure Event Hubs. It enriches each event with processing metadata and publishes
it to a Dapr pub/sub sidecar, then checkpoints it. A `/simulate` endpoint runs
the same enrichment on a request body, and `/stats` reports two process-wide
counters.

The model is sequential. The clock, JSON decoding and the outcome of the HTTP
publish are inputs:

- `now: Timestamp` is what `datetime.utcnow().isoformat()` returned.
- `body: Option<Value>` is the decoder's result, `None` when the body is not JSON.
- `outcome: ForwardOutcome` is what the sidecar call came back with.

Modules, leaf first:

- `Wrappers`: Option and Result.
- `Json`: decoded JSON values. Numbers keep their text.
- `Decimal`: Python's `str` on a natural number, with its inverse.
- `Namespace`: Python's substring test and the fully-qualified namespace.
- `Settings`: environment configuration and what `consume_events` connects to.
- `Forwarder`: the publisher's outcome classification and its URL.
- `Enrichment`: the enriched record and its field defaults.
- `Ingestion`: the register as a value (`Register`), one input's effect
  (`Step`), and the class `IngestionService`. Its fields `eventCount` and
  `lastEventTime` are the module globals; its methods `ProcessEvent`,
  `OnEvent` and `Simulate` update them in place.
- `Pipeline`: runs of interleaved log events and `/simulate` calls, and what
  holds across them.

Three behaviours of the code are worth knowing, and the model keeps them as
written:

- **Checkpoint after a failed publish.** An at-least-once consumer would
  checkpoint only after a successful forward. This code checkpoints whatever
  the publish outcome was, because `publish_to_dapr` logs and swallows every
  failure (`main.py:101-106`). `Ingestion.CheckpointDespiteFailedPublish` and
  `Pipeline.RunIgnoresOutcomes` state this behaviour.
- **A body that is JSON but not an object.** `process_event` increments the
  counter and stamps the time before it looks up any field (`main.py:65-66`
  before `main.py:70`). So such a body is counted, consumes a sequence number,
  and then raises. `on_event` then skips the checkpoint, and `/simulate` fails
  the request. `Enrichment.EnrichBody` returns `NotAnObject` for this case.
- **Keys of the enriched record.** Although it is built from the raw event,
  the enriched record holds only `id`, `deviceId`, `timestamp`,
  `eventType`, `payload` and `processingMetadata`. Other keys of the raw event
  are dropped.

## Model

| member | source | states |
|---|---|---|
| `Ingestion.IngestionService.constructor` | src/ingestion-service/main.py:30-31 | At start the counter is 0 and there is no last event time. |
| `Ingestion.Record` | src/ingestion-service/main.py:65-66 | Counting an event adds exactly one to the counter and sets the last event time to now. The new register is consistent. |
| `Ingestion.IngestionService.ProcessEvent` | src/ingestion-service/main.py:58-85 | The counter grows by exactly one and the last event time becomes now, whatever the body is. The returned record's sequence number equals the new count. The record is independent of the publish outcome, which only selects the publish report. An object body is published to the sidecar URL on the configured port. A non-object body yields `NotAnObject` and is not published. |
| `Enrichment.Enrich` | src/ingestion-service/main.py:69-80 | Each of the five fields is copied when present, whatever its value. When absent, `id` defaults to the decimal sequence number, `deviceId` to "unknown", `timestamp` to the ingestion time, `eventType` to "telemetry" and `payload` to `{}`. `ingestedAt` is now, `ingestedBy` is "ingestion-service" and `sequenceNumber` is the given number. |
| `Enrichment.EnrichBody` | src/ingestion-service/main.py:69-74 | Enrichment succeeds exactly when the decoded body is a JSON object. Any other value fails with `NotAnObject`. |
| `Enrichment.DefaultIdsDistinct` | src/ingestion-service/main.py:70 | Two events without an `id` get equal default ids exactly when their sequence numbers are equal. |
| `Decimal.NatToDecimal` | src/ingestion-service/main.py:70 | `str(n)` is a non-empty string of digits with no leading zero unless n is 0. |
| `Decimal.DecimalRoundTrip` | src/ingestion-service/main.py:70 | Reading the rendered digits back gives n. |
| `Decimal.DecimalInjective` | src/ingestion-service/main.py:70 | Two numbers render equally exactly when they are equal. |
| `Forwarder.Publish` | src/ingestion-service/main.py:87-106 | The publish is reported as published exactly when the sidecar answers 204. Any other status is reported with that status, and a transport failure is reported as failed. Nothing is raised. |
| `Forwarder.PublishUrl` | src/ingestion-service/main.py:92 | The URL is the localhost prefix, then the configured port, then the path of topic `telemetry-events` on component `pubsub`. |
| `Forwarder.PublishUrlInjective` | src/ingestion-service/main.py:92 | Different ports give different publish URLs. |
| `Ingestion.Step` | src/ingestion-service/main.py:120-126 | An input is counted when it has a body to process. The record is forwarded exactly when that body is an object, and its sequence number is the new count. The checkpoint advances exactly for a forwarded log event. |
| `Ingestion.StepIgnoresOutcome` | src/ingestion-service/main.py:94-106 | Inputs that differ only in their publish outcome have the same effect. |
| `Ingestion.CheckpointDespiteFailedPublish` | src/ingestion-service/main.py:120-126 | Every log event whose body is a JSON object is checkpointed, whatever the publish outcome: a transport failure, 204 or any other status. |
| `Ingestion.IngestionService.OnEvent` | src/ingestion-service/main.py:120-126 | The checkpoint advances exactly when the event decodes to a JSON object, whatever the publish outcome. An undecodable event leaves the counter and time untouched. A decodable one adds one to the counter and stamps the time. |
| `Namespace.ContainsIff` | src/ingestion-service/main.py:141 | The left-to-right search reports true exactly when the substring occurs at some index. |
| `Namespace.AppendedContains` | src/ingestion-service/main.py:141 | A string with `t` appended contains `t`. |
| `Namespace.FullyQualifiedNamespace` | src/ingestion-service/main.py:141 | The result contains `.servicebus.windows.net` and starts with the input. It equals the input exactly when the input already contains that text. Otherwise it is the input with that text appended. |
| `Namespace.FullyQualifiedIdempotent` | src/ingestion-service/main.py:141 | Normalising twice gives the same as normalising once. |
| `Settings.FromEnvironment` | src/ingestion-service/main.py:23-27 | Each setting is the variable's value when it is set, even when empty. Otherwise it takes its default: "", "telemetry", "ingestion", "" or "3500". |
| `Settings.EmptyEnvironmentDefaults` | src/ingestion-service/main.py:23-27 | With nothing set, the namespace is empty and the other defaults apply. |
| `Settings.StartConsumer` | src/ingestion-service/main.py:114-154 | There is no consumer exactly when the namespace is empty. Otherwise the consumer uses exactly `FullyQualifiedNamespace` of the configured namespace, the configured hub and consumer group, and starting position "-1". It uses the user-assigned identity exactly when a client id is set. |
| `Ingestion.DefaultSimulateBody` | src/ingestion-service/main.py:211-221 | The substituted body is a JSON object with no `timestamp` field. |
| `Ingestion.DefaultSimulateEnriched` | src/ingestion-service/main.py:211-223 | The enriched substituted body has `id` "sim-" followed by its own sequence number. Its `deviceId` is "simulator-001", its `eventType` is "temperature", its `timestamp` is the ingestion time, and its payload is the fixed readings. |
| `Ingestion.IngestionService.Simulate` | src/ingestion-service/main.py:199-224 | Every call counts one event. It succeeds exactly when there is no decodable body or the body is an object. The returned event is the one `Step` forwards, and its sequence number is the new count. Without a body, the id is "sim-" followed by that count. |
| `Ingestion.Snapshot` | src/ingestion-service/main.py:192-197 | The stats report the counter, the last event time, the consumer group and the hub name. |
| `Ingestion.IngestionService.Stats` | src/ingestion-service/main.py:189-197 | The service's stats are its current counters. `eventsProcessed` is 0 exactly when `lastEventTime` is absent. |
| `Pipeline.Run` | src/ingestion-service/main.py:120-126 | A run reports one result per input. |
| `Pipeline.RunCount` | src/ingestion-service/main.py:65 | After a run, the counter has grown by the number of counted inputs, so it never decreases. |
| `Pipeline.RunConsistent` | src/ingestion-service/main.py:65-66 | A run keeps the last event time absent exactly while the counter is 0. |
| `Pipeline.StatsAfterRun` | src/ingestion-service/main.py:192-197 | From process start, `eventsProcessed` equals the number of counted inputs, and `lastEventTime` is absent exactly when that number is 0. |
| `Pipeline.RunHandled` | src/ingestion-service/main.py:120-126 | Input k is forwarded exactly when its body is an object. It is checkpointed exactly when it is also a log event, whatever the outcomes. Its sequence number is the count of counted inputs up to and including k. |
| `Pipeline.SequenceNumbersIncrease` | src/ingestion-service/main.py:65-78 | Forwarded records' sequence numbers strictly increase along a run. |
| `Pipeline.RunIgnoresOutcomes` | src/ingestion-service/main.py:94-106 | Two runs whose inputs differ only in publish outcomes end in the same register and forward and checkpoint the same records. |
| `Pipeline.Consume` | src/ingestion-service/main.py:114-116 | With an empty namespace, the consumer processes nothing and the register is untouched. Otherwise the delivered events run in order. |

## Left out

- The Event Hubs client, credential acquisition and release, and the receive loop are not modelled (`main.py:128-159`). They are foreign library I/O. The events the client delivers are the `Consumed` inputs of a run.
- The `update_checkpoint` call is reduced to a boolean. A failure of the checkpoint store itself is not modelled.
- The HTTP POST to the sidecar is reduced to its outcome (`main.py:95-100`).
- Log output is reduced to the `PublishReport` classification.
- Concurrency is not modelled: the `lifespan` task start and cancel (`main.py:35-45`), the 500 ms sleep of `/simulate` (`main.py:207`), and the interleaving of the consumer with request handlers. A run is one sequential interleaving. Because nothing suspends between reading the count for the default simulate id and incrementing it, the sequential model matches the code there.
- The wall clock and JSON decoding are inputs.
- The readings in the substituted simulate payload are kept as number text, not floats.
- The constant responses of `/`, `/health`, `/ready` and `/dapr/subscribe` are not modelled (`main.py:165-187`, `main.py:230-236`). They contain no logic.
- demos/traffic-splitting/app.js and demos/container-jobs/job.py are not part of this model.
