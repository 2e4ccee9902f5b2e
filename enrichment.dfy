/** Turning a raw event into the enriched record that is published. */
module Enrichment {
  import opened Wrappers
  import opened Json
  import opened Decimal

  /** An ISO-8601 timestamp, as the clock hands it over. */
  type Timestamp = string

  const ServiceName := "ingestion-service"

  datatype Metadata = Metadata(ingestedAt: Timestamp, ingestedBy: string, sequenceNumber: nat)

  datatype EnrichedEvent = EnrichedEvent(
    id: Value,
    deviceId: Value,
    timestamp: Value,
    eventType: Value,
    payload: Value,
    processingMetadata: Metadata)

  /** A dictionary lookup with a default for an absent key. */
  function Get(raw: map<string, Value>, key: string, default: Value): Value {
    if key in raw then raw[key] else default
  }

  /**
   * The enriched record for a raw event that got sequence number `seqNo` at
   * time `now`: the five known fields, each copied when present (whatever its
   * value, null included) and defaulted when absent, plus the processing
   * metadata. Other keys of the raw event are not carried over.
   */
  function Enrich(raw: map<string, Value>, seqNo: nat, now: Timestamp): (e: EnrichedEvent)
    ensures "id" in raw ==> e.id == raw["id"]
    ensures "id" !in raw ==> e.id == JString(NatToDecimal(seqNo))
    ensures "deviceId" in raw ==> e.deviceId == raw["deviceId"]
    ensures "deviceId" !in raw ==> e.deviceId == JString("unknown")
    ensures "timestamp" in raw ==> e.timestamp == raw["timestamp"]
    ensures "timestamp" !in raw ==> e.timestamp == JString(now)
    ensures "eventType" in raw ==> e.eventType == raw["eventType"]
    ensures "eventType" !in raw ==> e.eventType == JString("telemetry")
    ensures "payload" in raw ==> e.payload == raw["payload"]
    ensures "payload" !in raw ==> e.payload == EmptyObject
    ensures e.processingMetadata.ingestedAt == now
    ensures e.processingMetadata.ingestedBy == ServiceName
    ensures e.processingMetadata.sequenceNumber == seqNo
  {
    EnrichedEvent(
      Get(raw, "id", JString(NatToDecimal(seqNo))),
      Get(raw, "deviceId", JString("unknown")),
      Get(raw, "timestamp", JString(now)),
      Get(raw, "eventType", JString("telemetry")),
      Get(raw, "payload", EmptyObject),
      Metadata(now, ServiceName, seqNo))
  }

  /** Two events without an `id` that got different sequence numbers get different ids. */
  lemma DefaultIdsDistinct(a: map<string, Value>, b: map<string, Value>, m: nat, n: nat, t: Timestamp, u: Timestamp)
    requires "id" !in a && "id" !in b
    ensures Enrich(a, m, t).id == Enrich(b, n, u).id <==> m == n
  {
    DecimalInjective(m, n);
  }

  /** Why processing a decoded body can fail: it is valid JSON but not an object. */
  datatype ProcessError = NotAnObject(data: Value)

  /**
   * Enrichment of a decoded body: only a JSON object has fields to look up;
   * any other value makes the lookup raise.
   */
  function EnrichBody(data: Value, seqNo: nat, now: Timestamp): (r: Result<EnrichedEvent, ProcessError>)
    ensures r.Success? <==> data.JObject?
    ensures r.Success? ==> r.value == Enrich(data.fields, seqNo, now)
    ensures r.Failure? ==> r.error == NotAnObject(data)
  {
    match data
    case JObject(fields) => Success(Enrich(fields, seqNo, now))
    case _ => Failure(NotAnObject(data))
  }
}
