/** The reconciliation metrics collector: a failure-rate alert that latches until it is reset. */
module AlertLatch {
  const MINIMUM_SAMPLE: nat := 5

  datatype Event = Success | Failure | Reset

  /** The events since the last reset. */
  function SinceReset(events: seq<Event>): seq<Event> {
    if events == [] || events[|events| - 1] == Reset then []
    else SinceReset(events[..|events| - 1]) + [events[|events| - 1]]
  }

  function Failures(events: seq<Event>): nat {
    if events == [] then 0
    else Failures(events[..|events| - 1]) + if events[|events| - 1] == Failure then 1 else 0
  }

  /** A sample large enough whose failure rate reaches the threshold. */
  predicate Alarming(sample: seq<Event>, threshold: real) {
    |sample| >= MINIMUM_SAMPLE && Failures(sample) as real / |sample| as real >= threshold
  }

  /** The latch over one sample: set by the sample itself or by one of its prefixes. */
  predicate LatchedBy(sample: seq<Event>, threshold: real) {
    Alarming(sample, threshold) || (sample != [] && LatchedBy(sample[..|sample| - 1], threshold))
  }

  predicate Latched(events: seq<Event>, threshold: real) { LatchedBy(SinceReset(events), threshold) }

  predicate AlarmingAt(sample: seq<Event>, n: nat, threshold: real) {
    n <= |sample| && Alarming(sample[..n], threshold)
  }

  /**
   The alert is set exactly when, since the last reset, some prefix of at least five events had a
   failure rate at or above the threshold.
   */
  lemma {:induction false} LatchedExactly(sample: seq<Event>, threshold: real)
    ensures LatchedBy(sample, threshold) <==> exists n :: AlarmingAt(sample, n, threshold)
  {
    assert sample[..|sample|] == sample;
    if Alarming(sample, threshold) {
      assert AlarmingAt(sample, |sample|, threshold);
    } else if sample != [] {
      var before := sample[..|sample| - 1];
      LatchedExactly(before, threshold);
      forall n: nat | n < |sample| ensures AlarmingAt(sample, n, threshold) <==> AlarmingAt(before, n, threshold) {
        assert sample[..n] == before[..n];
      }
    }
  }

  lemma SinceResetStep(events: seq<Event>, e: Event)
    ensures SinceReset(events + [e]) == if e == Reset then [] else SinceReset(events) + [e]
  {
    assert (events + [e])[..|events|] == events;
  }

  lemma LatchedStep(events: seq<Event>, e: Event, threshold: real)
    requires e != Reset
    ensures Latched(events + [e], threshold) <==>
            Latched(events, threshold) || Alarming(SinceReset(events) + [e], threshold)
  {
    SinceResetStep(events, e);
    var s := SinceReset(events) + [e];
    assert s[..|s| - 1] == SinceReset(events);
  }

  lemma ResetClears(events: seq<Event>, threshold: real)
    ensures SinceReset(events + [Reset]) == [] && !Latched(events + [Reset], threshold)
  {
    SinceResetStep(events, Reset);
  }

  /** Once latched, only a reset clears the alert. */
  lemma {:induction false} LatchHolds(events: seq<Event>, more: seq<Event>, threshold: real)
    requires Latched(events, threshold) && Reset !in more
    ensures Latched(events + more, threshold)
    decreases |more|
  {
    if more == [] {
      assert events + more == events;
    } else {
      LatchedStep(events, more[0], threshold);
      LatchHolds(events + [more[0]], more[1..], threshold);
      assert events + [more[0]] + more[1..] == events + more;
    }
  }

  class ReconciliationMetricsCollector {
    const failureRateThreshold: real
    var totalProcessed: nat
    var totalFailures: nat
    var alertTriggered: bool
    ghost var history: seq<Event>

    /** The counters count the events since the last reset, and the alert is exactly the latch. */
    ghost predicate Valid()
      reads this
    {
      && totalProcessed == |SinceReset(history)|
      && totalFailures == Failures(SinceReset(history))
      && (alertTriggered <==> Latched(history, failureRateThreshold))
    }

    constructor (threshold: real)
      ensures Valid() && history == [] && failureRateThreshold == threshold && !alertTriggered
    {
      failureRateThreshold := threshold;
      totalProcessed, totalFailures, alertTriggered, history := 0, 0, false, [];
    }

    method FailureRate() returns (rate: real)
      ensures totalProcessed > 0 ==> rate == totalFailures as real / totalProcessed as real
      ensures totalProcessed == 0 ==> rate == 0.0
    {
      if totalProcessed == 0 {
        return 0.0;
      }
      return totalFailures as real / totalProcessed as real;
    }

    /** Sets the alert, never clears it. */
    method CheckAlerts()
      modifies this`alertTriggered
      ensures alertTriggered <==>
              old(alertTriggered)
              || (totalProcessed >= MINIMUM_SAMPLE && totalFailures as real / totalProcessed as real >= failureRateThreshold)
    {
      var rate := FailureRate();
      if totalProcessed >= MINIMUM_SAMPLE && rate >= failureRateThreshold {
        alertTriggered := true;
      }
    }

    method RecordSuccess()
      requires Valid()
      modifies this
      ensures Valid() && history == old(history) + [Success]
    {
      LatchedStep(history, Success, failureRateThreshold);
      SinceResetStep(history, Success);
      totalProcessed := totalProcessed + 1;
      history := history + [Success];
      assert SinceReset(history)[..|SinceReset(history)| - 1] == SinceReset(old(history));
      CheckAlerts();
    }

    method RecordFailure()
      requires Valid()
      modifies this
      ensures Valid() && history == old(history) + [Failure]
    {
      LatchedStep(history, Failure, failureRateThreshold);
      SinceResetStep(history, Failure);
      totalProcessed := totalProcessed + 1;
      totalFailures := totalFailures + 1;
      history := history + [Failure];
      assert SinceReset(history)[..|SinceReset(history)| - 1] == SinceReset(old(history));
      CheckAlerts();
    }

    method ResetAll()
      requires Valid()
      modifies this
      ensures Valid() && history == old(history) + [Reset] && !alertTriggered
    {
      ResetClears(history, failureRateThreshold);
      totalProcessed, totalFailures, alertTriggered := 0, 0, false;
      history := history + [Reset];
    }
  }
}
