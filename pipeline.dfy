/**
 * Runs of the ingestion register over a sequence of inputs: log events
 * delivered to the consumer interleaved, in some order, with `/simulate`
 * calls. The model is sequential; the interleaving is the order of the
 * sequence.
 */
module Pipeline {
  import opened Wrappers
  import opened Json
  import opened Settings
  import opened Forwarder
  import opened Enrichment
  import opened Ingestion

  datatype RunResult = RunResult(final: Register, handled: seq<EventResult>)

  /** Applying the inputs one after the other; `handled[k]` is what input `k` did. */
  function Run(reg: Register, inputs: seq<Input>): (res: RunResult)
    ensures |res.handled| == |inputs|
    decreases |inputs|
  {
    if inputs == [] then RunResult(reg, [])
    else
      var first := Step(reg, inputs[0]);
      var rest := Run(first.after, inputs[1..]);
      RunResult(rest.final, [first] + rest.handled)
  }

  /** How many of the inputs count an event. */
  function CountedIn(inputs: seq<Input>): nat
    decreases |inputs|
  {
    if inputs == [] then 0 else (if Counted(inputs[0]) then 1 else 0) + CountedIn(inputs[1..])
  }

  lemma {:induction false} CountedInAppend(a: seq<Input>, b: seq<Input>)
    ensures CountedIn(a + b) == CountedIn(a) + CountedIn(b)
    decreases |a|
  {
    if a == [] {
      assert a + b == b;
    } else {
      assert (a + b)[0] == a[0] && (a + b)[1..] == a[1..] + b;
      CountedInAppend(a[1..], b);
    }
  }

  /** After a run the counter has grown by the number of counted inputs, so it never decreases. */
  lemma {:induction false} RunCount(reg: Register, inputs: seq<Input>)
    ensures Run(reg, inputs).final.eventCount == reg.eventCount + CountedIn(inputs)
    ensures Run(reg, inputs).final.eventCount >= reg.eventCount
    decreases |inputs|
  {
    if inputs != [] {
      RunCount(Step(reg, inputs[0]).after, inputs[1..]);
    }
  }

  /** Every run keeps the last event time absent exactly while nothing has been counted. */
  lemma {:induction false} RunConsistent(reg: Register, inputs: seq<Input>)
    requires Consistent(reg)
    ensures Consistent(Run(reg, inputs).final)
    decreases |inputs|
  {
    if inputs != [] {
      RunConsistent(Step(reg, inputs[0]).after, inputs[1..]);
    }
  }

  /** From process start, the stats report exactly the number of counted inputs. */
  lemma StatsAfterRun(cfg: Config, inputs: seq<Input>)
    ensures Snapshot(Run(Initial, inputs).final, cfg).eventsProcessed == CountedIn(inputs)
    ensures Snapshot(Run(Initial, inputs).final, cfg).lastEventTime.None? <==> CountedIn(inputs) == 0
  {
    RunCount(Initial, inputs);
    RunConsistent(Initial, inputs);
  }

  /**
   * What input `k` did depends only on that input (and the count before it):
   * it is forwarded exactly when its body is an object, checkpointed exactly
   * when it is also a log event, whatever the publish outcome, and its
   * sequence number is the number of counted inputs up to and including it.
   */
  lemma {:induction false} RunHandled(reg: Register, inputs: seq<Input>, k: nat)
    requires k < |inputs|
    ensures var h := Run(reg, inputs).handled[k];
      && (h.forwarded.Some? <==> Enrichable(inputs[k]))
      && (h.checkpointed <==> inputs[k].Consumed? && Enrichable(inputs[k]))
      && (h.forwarded.Some? ==> Counted(inputs[k]))
      && (h.forwarded.Some? ==>
            h.forwarded.value.processingMetadata.sequenceNumber == reg.eventCount + CountedIn(inputs[..k + 1]))
    decreases k
  {
    var first := Step(reg, inputs[0]);
    if k == 0 {
      assert inputs[..1] == [inputs[0]];
      assert CountedIn(inputs[..1]) == (if Counted(inputs[0]) then 1 else 0) + CountedIn([]);
    } else {
      RunHandled(first.after, inputs[1..], k - 1);
      assert inputs[..k + 1][1..] == inputs[1..][..k];
    }
  }

  /** Sequence numbers of forwarded records strictly increase along a run. */
  lemma SequenceNumbersIncrease(reg: Register, inputs: seq<Input>, i: nat, j: nat)
    requires i < j < |inputs|
    requires Run(reg, inputs).handled[i].forwarded.Some?
    requires Run(reg, inputs).handled[j].forwarded.Some?
    ensures Run(reg, inputs).handled[i].forwarded.value.processingMetadata.sequenceNumber
          < Run(reg, inputs).handled[j].forwarded.value.processingMetadata.sequenceNumber
  {
    RunHandled(reg, inputs, i);
    RunHandled(reg, inputs, j);
    assert inputs[..j + 1] == inputs[..i + 1] + (inputs[i + 1..j] + [inputs[j]]);
    CountedInAppend(inputs[..i + 1], inputs[i + 1..j] + [inputs[j]]);
    CountedInAppend(inputs[i + 1..j], [inputs[j]]);
    assert CountedIn([inputs[j]]) == 1 + CountedIn([]);
  }

  /** Two runs whose inputs differ only in publish outcomes end in the same state and do the same things. */
  lemma {:induction false} RunIgnoresOutcomes(reg: Register, a: seq<Input>, b: seq<Input>)
    requires |a| == |b|
    requires forall k :: 0 <= k < |a| ==> WithoutOutcome(a[k]) == WithoutOutcome(b[k])
    ensures Run(reg, a) == Run(reg, b)
    decreases |a|
  {
    if a != [] {
      StepIgnoresOutcome(reg, a[0], b[0]);
      RunIgnoresOutcomes(Step(reg, a[0]).after, a[1..], b[1..]);
    }
  }

  /** Only log events reach the checkpoint; `/simulate` calls never do. */
  predicate AllConsumed(inputs: seq<Input>) {
    forall k :: 0 <= k < |inputs| ==> inputs[k].Consumed?
  }

  /**
   * The background consumer fed the delivered events: with no namespace
   * configured it returns before receiving anything.
   */
  function Consume(reg: Register, cfg: Config, delivered: seq<Input>): (res: RunResult)
    requires AllConsumed(delivered)
    ensures cfg.namespace == "" ==> res == RunResult(reg, [])
    ensures cfg.namespace != "" ==> res == Run(reg, delivered)
  {
    if StartConsumer(cfg).None? then RunResult(reg, []) else Run(reg, delivered)
  }
}
