/**
  Sequences of calls on a fresh `Performance` object, showing that the
  availability check is a one-shot latch.
 */
module TelemetryScenarios {
  import opened Basics
  import opened PerformanceCounters

  /** A failed first check disables telemetry for good: re-enabling, a
      provider that would now work and a working timer change nothing, and
      counter access reports why. */
  method FailedCheckIsPermanent(failing: CounterHost, later: CounterHost, query: FrequencyQuery)
    returns (before: bool, after: bool, freq: Result<int64>, count: Result<Counter>)
    requires Initialise(failing).failure.Some?
    ensures !before && !after
    ensures freq == Thrown(InvalidOperation(Initialise(failing).failure.value))
    ensures count == Thrown(InvalidOperation("Can not access counters because: " + Initialise(failing).failure.value))
  {
    var p := new Performance();
    before := p.Enabled(failing);
    p.SetEnabled(true);
    after := p.Enabled(later);
    freq := p.Frequency(later, query);
    count := p.RequestCount(later);
  }

  /** A successful check is not repeated: a later provider that would fail is
      never consulted, and the counters are those of the first check. */
  method CheckRunsOnce(good: CounterHost, failing: CounterHost)
    returns (first: bool, second: bool, count: Result<Counter>)
    requires Initialise(good).failure.None?
    ensures first && second
    ensures count == Ok(Initialise(good).counters.value[RequestCountIndex].value)
  {
    var p := new Performance();
    first := p.Available(good);
    second := p.Available(failing);
    count := p.RequestCount(failing);
  }

  /** A non-zero frequency is cached: the second read does not query the timer. */
  method FrequencyIsCached(host: CounterHost, ticks: int64, later: FrequencyQuery)
    returns (first: Result<int64>, second: Result<int64>)
    requires Initialise(host).failure.None? && ticks != 0
    ensures first == Ok(ticks) && second == Ok(ticks)
  {
    var p := new Performance();
    first := p.Frequency(host, Answered(ticks));
    second := p.Frequency(host, later);
  }

  /** A failing timer query makes the counters unavailable. */
  method FrequencyFailureDisables(host: CounterHost, written: int64, message: string)
    returns (freq: Result<int64>, enabled: bool, count: Result<Counter>)
    requires Initialise(host).failure.None?
    ensures freq == Thrown(Win32(message))
    ensures !enabled
    ensures count == Thrown(InvalidOperation("Can not access counters because: " + message))
  {
    var p := new Performance();
    freq := p.Frequency(host, Refused(written, message));
    enabled := p.Enabled(host);
    count := p.AvgResolveTime(host);
  }

  /** While disabled, reading `Enabled` does not run the availability check. */
  method DisabledSkipsCheck(host: CounterHost) returns (enabled: bool, checked: bool)
    ensures !enabled && !checked
  {
    var p := new Performance();
    p.SetEnabled(false);
    enabled := p.Enabled(host);
    checked := p.availabilityChecked;
  }
}
