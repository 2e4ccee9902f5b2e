/**
 * Publishing an enriched event to the Dapr pub/sub sidecar. The HTTP call is
 * not modelled; its outcome is an input, and the only thing the publisher does
 * with it is choose what to log. It never raises.
 */
module Forwarder {

  /** What the sidecar call came back with. */
  datatype ForwardOutcome = Responded(status: int) | TransportFailure

  /** The status the sidecar answers an accepted publish with (204 No Content). */
  const AcceptedStatus := 204

  /** What the publisher reports (logs) about one publish. */
  datatype PublishReport = Published | UnexpectedStatus(status: int) | PublishFailed

  /** Classifies an outcome: only an answer of 204 counts as published. */
  function Publish(outcome: ForwardOutcome): (r: PublishReport)
    ensures r.Published? <==> outcome == Responded(AcceptedStatus)
    ensures r.UnexpectedStatus? <==> outcome.Responded? && outcome.status != AcceptedStatus
    ensures r.UnexpectedStatus? ==> r.status == outcome.status
    ensures r.PublishFailed? <==> outcome.TransportFailure?
  {
    match outcome
    case Responded(status) => if status == AcceptedStatus then Published else UnexpectedStatus(status)
    case TransportFailure => PublishFailed
  }

  const PublishPathPrefix := "http://localhost:"
  const PublishPath := "/v1.0/publish/pubsub/telemetry-events"

  /** The sidecar endpoint on the configured port, topic `telemetry-events` of component `pubsub`. */
  function PublishUrl(port: string): (url: string)
    ensures PublishPathPrefix <= url
    ensures |url| == |PublishPathPrefix| + |port| + |PublishPath|
    ensures url[|PublishPathPrefix|..|PublishPathPrefix| + |port|] == port
    ensures url[|PublishPathPrefix| + |port|..] == PublishPath
  {
    PublishPathPrefix + port + PublishPath
  }

  /** One publish: the endpoint the record was posted to and what was reported about it. */
  datatype PublishAttempt = PublishAttempt(url: string, report: PublishReport)

  /** Different ports give different endpoints. */
  lemma PublishUrlInjective(p: string, q: string)
    ensures PublishUrl(p) == PublishUrl(q) <==> p == q
  {
    if PublishUrl(p) == PublishUrl(q) {
      assert |p| == |q|;
      assert p == PublishUrl(p)[|PublishPathPrefix|..|PublishPathPrefix| + |p|];
    }
  }
}
