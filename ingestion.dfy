/**
 * The process-wide ingestion register (events processed, time of the last
 * one) and the three operations that drive it: processing one decoded event,
 * the consumer's per-event handler with its checkpoint decision, and the
 * `/simulate` endpoint. The stats endpoint reads the register.
 */
module Ingestion {
  import opened Wrappers
  import opened Json
  import opened Decimal
  import opened Settings
  import opened Forwarder
  import opened Enrichment

  /** The two process-wide counters, as a value. */
  datatype Register = Register(eventCount: nat, lastEventTime: Option<Timestamp>)

  /** At process start nothing has been processed and there is no last event time. */
  const Initial := Register(0, None)

  /** The last event time is absent exactly while no event has been counted. */
  predicate Consistent(reg: Register) {
    reg.eventCount == 0 <==> reg.lastEventTime.None?
  }

  /** Counting one more event at time `now`. */
  function Record(reg: Register, now: Timestamp): (r: Register)
    ensures r.eventCount == reg.eventCount + 1 && r.lastEventTime == Some(now)
    ensures Consistent(r)
  {
    Register(reg.eventCount + 1, Some(now))
  }

  /** One request reaching the register: a log event delivered to the consumer, or a `/simulate` call. */
  datatype Input =
    | Consumed(body: Option<Value>, now: Timestamp, outcome: ForwardOutcome)
    | Simulated(body: Option<Value>, now: Timestamp, outcome: ForwardOutcome)

  /** What one input did: the register afterwards, the record handed to the publisher, and whether the checkpoint advanced. */
  datatype EventResult = EventResult(after: Register, forwarded: Option<EnrichedEvent>, checkpointed: bool)

  /**
   * The body `/simulate` substitutes when the request body is not JSON: a
   * fixed temperature reading whose id names the count it expects to get.
   */
  function DefaultSimulateBody(next: nat): (v: Value)
    ensures v.JObject? && "timestamp" !in v.fields
  {
    JObject(map[
      "id" := JString("sim-" + NatToDecimal(next)),
      "deviceId" := JString("simulator-001"),
      "eventType" := JString("temperature"),
      "payload" := SimulatedReadings])
  }

  const SimulatedReadings: Value := JObject(map[
    "temperature" := JNumber("72.5"),
    "humidity" := JNumber("45.2"),
    "pressure" := JNumber("1013.25")])

  /** The substituted event gets the id it announced, the simulator's device and type, and the ingestion time. */
  lemma DefaultSimulateEnriched(n: nat, now: Timestamp)
    ensures var e := Enrich(DefaultSimulateBody(n).fields, n, now);
      && e.id == JString("sim-" + NatToDecimal(e.processingMetadata.sequenceNumber))
      && e.deviceId == JString("simulator-001")
      && e.eventType == JString("temperature")
      && e.timestamp == JString(now)
      && e.payload == SimulatedReadings
  {
  }

  /** An input counts an event when there is a decoded body to process (`/simulate` always has one). */
  predicate Counted(i: Input) {
    i.Simulated? || i.body.Some?
  }

  /** An input produces an enriched record when the body it processes is a JSON object. */
  predicate Enrichable(i: Input) {
    match i
    case Consumed(body, _, _) => body.Some? && body.value.JObject?
    case Simulated(body, _, _) => body.None? || body.value.JObject?
  }

  /** The body `process_event` is called with, given the count before the call. */
  function ProcessedBody(count: nat, i: Input): Value
    requires Counted(i)
  {
    if i.body.Some? then i.body.value else DefaultSimulateBody(count + 1)
  }

  /**
   * The effect of one input. The publish outcome plays no part: the publisher
   * only logs it.
   */
  function Step(reg: Register, i: Input): (res: EventResult)
    ensures res.after == (if Counted(i) then Record(reg, i.now) else reg)
    ensures res.forwarded.Some? <==> Enrichable(i)
    ensures res.forwarded.Some? ==>
      && res.forwarded.value.processingMetadata.sequenceNumber == res.after.eventCount
      && res.forwarded.value.processingMetadata.ingestedAt == i.now
    ensures res.checkpointed <==> i.Consumed? && res.forwarded.Some?
  {
    if !Counted(i) then EventResult(reg, None, false)
    else
      var after := Record(reg, i.now);
      var processed := EnrichBody(ProcessedBody(reg.eventCount, i), after.eventCount, i.now);
      var forwarded := if processed.Success? then Some(processed.value) else None;
      EventResult(after, forwarded, i.Consumed? && forwarded.Some?)
  }

  /** The same input with its publish outcome erased. */
  function WithoutOutcome(i: Input): Input {
    i.(outcome := TransportFailure)
  }

  /** Inputs that differ only in their publish outcome have the same effect. */
  lemma StepIgnoresOutcome(reg: Register, i: Input, j: Input)
    requires WithoutOutcome(i) == WithoutOutcome(j)
    ensures Step(reg, i) == Step(reg, j)
  {
    assert i.body == j.body && i.now == j.now && i.Consumed? == j.Consumed?;
  }

  /**
   * Every log event whose body is an object is checkpointed, whatever the
   * publish outcome (a transport failure or any status): failures are only logged.
   */
  lemma CheckpointDespiteFailedPublish(reg: Register, fields: map<string, Value>, now: Timestamp, outcome: ForwardOutcome)
    ensures Step(reg, Consumed(Some(JObject(fields)), now, outcome)).checkpointed
  {
  }

  datatype SimulateResponse = SimulateResponse(message: string, event: EnrichedEvent)

  datatype StatsSnapshot = StatsSnapshot(
    eventsProcessed: nat,
    lastEventTime: Option<Timestamp>,
    consumerGroup: string,
    eventHubName: string)

  /** The stats endpoint's answer for a register under a configuration. */
  function Snapshot(reg: Register, cfg: Config): (s: StatsSnapshot)
    ensures s.eventsProcessed == reg.eventCount && s.lastEventTime == reg.lastEventTime
    ensures s.consumerGroup == cfg.consumerGroup && s.eventHubName == cfg.hubName
  {
    StatsSnapshot(reg.eventCount, reg.lastEventTime, cfg.consumerGroup, cfg.hubName)
  }

  /** The running service: its configuration and the register it updates in place. */
  class IngestionService {
    const config: Config
    var eventCount: nat
    var lastEventTime: Option<Timestamp>

    function State(): Register
      reads this
    {
      Register(eventCount, lastEventTime)
    }

    ghost predicate Valid()
      reads this
    {
      Consistent(State())
    }

    constructor (cfg: Config)
      ensures Valid()
      ensures config == cfg && State() == Initial
    {
      config := cfg;
      eventCount := 0;
      lastEventTime := None;
    }

    /**
     * Counts the event, stamps the time, then enriches the body and hands the
     * record to the publisher, which posts it to the sidecar on the configured
     * port. Counting happens first, so a body that is not
     * an object is counted and then fails.
     */
    method ProcessEvent(data: Value, now: Timestamp, outcome: ForwardOutcome)
      returns (r: Result<EnrichedEvent, ProcessError>, attempt: Option<PublishAttempt>)
      requires Valid()
      modifies this
      ensures Valid()
      ensures eventCount == old(eventCount) + 1 && lastEventTime == Some(now)
      ensures r == EnrichBody(data, eventCount, now)
      ensures r.Success? ==> r.value.processingMetadata.sequenceNumber == eventCount
      ensures attempt == (if data.JObject? then Some(PublishAttempt(PublishUrl(config.daprPort), Publish(outcome))) else None)
    {
      eventCount := eventCount + 1;
      lastEventTime := Some(now);
      match data {
        case JObject(fields) =>
          var enriched := Enrich(fields, eventCount, now);
          attempt := Some(PublishAttempt(PublishUrl(config.daprPort), Publish(outcome)));
          r := Success(enriched);
        case _ =>
          r := Failure(NotAnObject(data));
          attempt := None;
      }
    }

    /**
     * The consumer's handler for one delivered event: decode, process, then
     * checkpoint; a failing step skips the rest. `body` is the decoder's
     * result, None when the event body is not JSON.
     */
    method OnEvent(body: Option<Value>, now: Timestamp, outcome: ForwardOutcome) returns (checkpointed: bool)
      requires Valid()
      modifies this
      ensures Valid()
      ensures State() == Step(old(State()), Consumed(body, now, outcome)).after
      ensures checkpointed == Step(old(State()), Consumed(body, now, outcome)).checkpointed
      ensures checkpointed <==> body.Some? && body.value.JObject?
      ensures body.None? ==> eventCount == old(eventCount) && lastEventTime == old(lastEventTime)
      ensures body.Some? ==> eventCount == old(eventCount) + 1 && lastEventTime == Some(now)
    {
      checkpointed := false;
      if body.Some? {
        var processed, _ := ProcessEvent(body.value, now, outcome);
        if processed.Success? {
          checkpointed := true;
        }
      }
    }

    /**
     * The `/simulate` endpoint: process the request body, or the substituted
     * default when the body is not JSON. A body that is JSON but not an object
     * is counted and then fails the request.
     */
    method Simulate(body: Option<Value>, now: Timestamp, outcome: ForwardOutcome)
      returns (r: Result<SimulateResponse, ProcessError>)
      requires Valid()
      modifies this
      ensures Valid()
      ensures eventCount == old(eventCount) + 1 && lastEventTime == Some(now)
      ensures State() == Step(old(State()), Simulated(body, now, outcome)).after
      ensures r.Success? <==> body.None? || body.value.JObject?
      ensures r.Success? ==>
        && r.value.message == "Event simulated"
        && Some(r.value.event) == Step(old(State()), Simulated(body, now, outcome)).forwarded
      ensures r.Success? ==> r.value.event.processingMetadata.sequenceNumber == eventCount
      ensures body.None? ==> r.Success? && r.value.event.id == JString("sim-" + NatToDecimal(eventCount))
    {
      var data := if body.Some? then body.value else DefaultSimulateBody(eventCount + 1);
      var processed, _ := ProcessEvent(data, now, outcome);
      match processed {
        case Success(event) => r := Success(SimulateResponse("Event simulated", event));
        case Failure(error) => r := Failure(error);
      }
    }

    /** The stats endpoint. */
    function Stats(): (s: StatsSnapshot)
      reads this
      requires Valid()
      ensures s.eventsProcessed == eventCount && s.lastEventTime == lastEventTime
      ensures s.eventsProcessed == 0 <==> s.lastEventTime.None?
      ensures s.consumerGroup == config.consumerGroup && s.eventHubName == config.hubName
    {
      Snapshot(State(), config)
    }
  }
}
