/**
  The telemetry latch of `Performance`: a one-shot, cached check that the
  performance-counter category and its four counters can be used, the cached
  timer frequency, and the counter accessors that refuse to work once the
  counters are known to be unavailable.

  The Windows calls are outside the model. What they answer on a given run is
  a `CounterHost` (category `Exists`/`Create`, each `PerformanceCounter`
  construction, `NextSample`) or a `FrequencyQuery` (`QueryPerformanceFrequency`);
  each may fail with an exception message.
 */
module PerformanceCounters {
  import opened Basics

  const CategoryName: string := "Privacy enabled DNS"

  datatype CounterType = NumberOfItems32 | RateOfCountsPerSecond32 | AverageTimer32 | AverageBase

  /** A `CounterCreationData` descriptor. */
  datatype CounterCreationData = CounterCreationData(name: string, help: string, counterType: CounterType)

  /** The four descriptors, in the order the counters are stored. */
  const Descriptors: seq<CounterCreationData> := [
    CounterCreationData("# of DNS requests",
      "Displays the number of times that a DNS request is made.", NumberOfItems32),
    CounterCreationData("# of DNS requests/sec",
      "Displays the number of times that a DNS request is made in a second.", RateOfCountsPerSecond32),
    CounterCreationData("Avg DNS request time",
      "Displays the average time to resolve a DNS request.", AverageTimer32),
    CounterCreationData("Avg DNS request time base",
      "Helper.", AverageBase)
  ]

  const RequestCountIndex: nat := 0
  const RequestCountPerSecondIndex: nat := 1
  const AvgResolveTimeIndex: nat := 2
  const AvgResolveTimeBaseIndex: nat := 3

  /** A writable, single-instance `PerformanceCounter` and its raw value. */
  datatype Counter = Counter(category: string, name: string, instance: string, readOnly: bool, rawValue: int64)

  /** The outcome of a foreign call: a value, or an exception with its message. */
  datatype Attempt<T> = Done(value: T) | Threw(message: string)

  /** What the performance-counter provider answers during the one availability
      check. `openCounter(i)` is the construction of the counter of descriptor
      `i`: its current raw value, or an exception. */
  datatype CounterHost = CounterHost(
    categoryExists: Attempt<bool>,
    createCategory: Attempt<()>,
    openCounter: nat -> Attempt<int64>,
    nextSample: Attempt<()>)

  /** What `QueryPerformanceFrequency(out frequency)` does: return non-zero after
      writing the frequency, return zero after writing some value (the code
      then throws a `Win32Exception`), or throw before writing anything. */
  datatype FrequencyQuery =
    | Answered(ticksPerSecond: int64)
    | Refused(written: int64, message: string)
    | CallFailed(message: string)

  datatype Exception = InvalidOperation(message: string) | Win32(message: string) | Foreign(message: string)

  datatype Result<T> = Ok(value: T) | Thrown(error: Exception)

  /** What the `try` block of `CheckAvailability` leaves behind: the `counters`
      array if it was allocated (`None` entries are null slots), and the message
      of the exception that ended it, if one did. */
  datatype Initialisation = Initialisation(counters: Option<seq<Option<Counter>>>, failure: Option<string>)

  /** The counter that construction `i` yields, or `None` when it throws. */
  function Opened(host: CounterHost, i: nat): (c: Option<Counter>)
    requires i < |Descriptors|
    ensures c.Some? <==> host.openCounter(i).Done?
    ensures c.Some? ==> c.value.name == Descriptors[i].name && c.value.category == CategoryName
  {
    match host.openCounter(i)
    case Done(raw) => Some(Counter(CategoryName, Descriptors[i].name, "", false, raw))
    case Threw(_) => None
  }

  function Zeroed(c: Option<Counter>): (z: Option<Counter>) {
    match c
    case Some(counter) => Some(counter.(rawValue := 0))
    case None => None
  }

  /** The first construction at or after `i` that throws, or `|Descriptors|`. */
  function FirstFailedOpen(host: CounterHost, i: nat): (k: nat)
    requires i <= |Descriptors|
    ensures i <= k <= |Descriptors|
    ensures k < |Descriptors| ==> host.openCounter(k).Threw?
    ensures forall j :: i <= j < k ==> host.openCounter(j).Done?
    decreases |Descriptors| - i
  {
    if i == |Descriptors| then i
    else if host.openCounter(i).Threw? then i
    else FirstFailedOpen(host, i + 1)
  }

  /** Whether the category is created by the check rather than found. */
  predicate CreatesCategory(host: CounterHost) {
    host.categoryExists == Done(false)
  }

  /** The effect of the `try` block of `CheckAvailability`, in source order:
      `Exists`, `Create` when absent, the array and its filling loop, the
      zeroing when the category was just created, and `NextSample`. */
  function Initialise(host: CounterHost): (r: Initialisation)
    ensures r.counters.Some? ==> |r.counters.value| == |Descriptors|
    ensures r.failure.None? ==> r.counters.Some?
    ensures r.failure.None? ==> forall i :: 0 <= i < |Descriptors| ==>
      && r.counters.value[i].Some?
      && r.counters.value[i].value.name == Descriptors[i].name
      && r.counters.value[i].value.category == CategoryName
    ensures r.failure.None? && CreatesCategory(host) ==>
      forall i :: 0 <= i < |Descriptors| ==> r.counters.value[i].Some? && r.counters.value[i].value.rawValue == 0
    ensures r.failure.None? <==>
      && host.categoryExists.Done?
      && (CreatesCategory(host) ==> host.createCategory.Done?)
      && (forall i :: 0 <= i < |Descriptors| ==> host.openCounter(i).Done?)
      && host.nextSample.Done?
  {
    match host.categoryExists
    case Threw(m) => Initialisation(None, Some(m))
    case Done(found) =>
      if !found && host.createCategory.Threw? then
        Initialisation(None, Some(host.createCategory.message))
      else
        var k := FirstFailedOpen(host, 0);
        if k < |Descriptors| then
          Initialisation(Some(seq(|Descriptors|, j requires 0 <= j < |Descriptors| => if j < k then Opened(host, j) else None)),
                         Some(host.openCounter(k).message))
        else
          var cs := seq(|Descriptors|, j requires 0 <= j < |Descriptors| =>
                          if found then Opened(host, j) else Zeroed(Opened(host, j)));
          match host.nextSample
          case Threw(m) => Initialisation(Some(cs), Some(m))
          case Done(_) => Initialisation(Some(cs), None)
  }

  class Performance {
    var frequency: int64
    var enabled: bool
    var available: bool
    var availabilityChecked: bool
    var unavailableReason: Option<string>
    var counters: array?<Option<Counter>>

    /** The object invariant: before the check nothing has happened; being
        unavailable is the result of a check that recorded why; after a
        successful check the four counters are in place. */
    ghost predicate Valid()
      reads this, counters
    {
      && (!availabilityChecked ==> available && counters == null && frequency == 0 && unavailableReason.None?)
      && (!available ==> availabilityChecked && unavailableReason.Some?)
      && (availabilityChecked && available ==>
            && counters != null && counters.Length == |Descriptors|
            && forall i :: 0 <= i < counters.Length ==>
                 counters[i].Some? && counters[i].value.name == Descriptors[i].name)
    }

    /** The latch, between any two states: the check is done once,
        availability is only ever lost, a found frequency is kept, and once
        unavailable nothing but `enabled` changes. */
    twostate predicate Latched()
      reads this
    {
      && (old(availabilityChecked) ==> availabilityChecked && counters == old(counters))
      && (!old(available) ==> !available && unavailableReason == old(unavailableReason) && frequency == old(frequency))
      && (old(frequency) != 0 ==> frequency == old(frequency))
    }

    /** What the availability check yields from the current state. */
    ghost function AvailableAfterCheck(host: CounterHost): bool
      reads this
    {
      if availabilityChecked then available else Initialise(host).failure.None?
    }

    /** The effect of `CheckAvailability(host)`: nothing when it has run
        before, otherwise the outcome of `Initialise(host)`, with a failure
        turned into unavailability and its message kept. */
    twostate predicate AvailabilityEstablished(host: CounterHost)
      reads this, counters
    {
      && availabilityChecked && enabled == old(enabled) && frequency == old(frequency)
      && if old(availabilityChecked) then
           available == old(available) && unavailableReason == old(unavailableReason) && counters == old(counters)
         else
           var init := Initialise(host);
           && available == init.failure.None?
           && unavailableReason == (if init.failure.Some? then init.failure else old(unavailableReason))
           && match init.counters
              case None => counters == old(counters)
              case Some(cs) => counters != null && fresh(counters) && counters[..] == cs
    }

    /** What reading counter `index` returns in the current state: the reason
        for unavailability as an exception, or the stored counter. */
    ghost predicate CounterRead(index: nat, r: Result<Counter>)
      reads this, counters
    {
      && (!available ==>
            && unavailableReason.Some?
            && r == Thrown(InvalidOperation("Can not access counters because: " + unavailableReason.value)))
      && (available ==>
            && counters != null && index < counters.Length && counters[index].Some?
            && r == Ok(counters[index].value))
    }

    /** The singleton's initial state. */
    constructor ()
      ensures Valid()
      ensures frequency == 0 && enabled && available && !availabilityChecked
      ensures unavailableReason == None && counters == null
    {
      frequency := 0;
      enabled := true;
      available := true;
      availabilityChecked := false;
      unavailableReason := None;
      counters := null;
    }

    /** The `try` block of `CheckAvailability`; returns the message of the
        exception that ends it, if any. */
    method InitialiseCounters(host: CounterHost) returns (failure: Option<string>)
      requires counters == null
      modifies this`counters
      ensures failure == Initialise(host).failure
      ensures match Initialise(host).counters
              case None => counters == null
              case Some(cs) => counters != null && fresh(counters) && counters[..] == cs
    {
      var found: bool;
      match host.categoryExists {
        case Threw(m) => return Some(m);
        case Done(e) => found := e;
      }
      var createdCategory := false;
      if !found {
        if host.createCategory.Threw? {
          return Some(host.createCategory.message);
        }
        createdCategory := true;
      }
      var a := new Option<Counter>[|Descriptors|](_ => None);
      counters := a;
      for i := 0 to a.Length
        invariant counters == a
        invariant forall j :: 0 <= j < i ==> a[j] == Opened(host, j)
        invariant forall j :: i <= j < a.Length ==> a[j] == None
        invariant forall j :: 0 <= j < i ==> host.openCounter(j).Done?
      {
        match host.openCounter(i) {
          case Threw(m) =>
            assert FirstFailedOpen(host, 0) == i;
            assert a[..] == Initialise(host).counters.value;
            return Some(m);
          case Done(raw) =>
            a[i] := Some(Counter(CategoryName, Descriptors[i].name, "", false, raw));
        }
      }
      assert FirstFailedOpen(host, 0) == |Descriptors|;
      if createdCategory {
        for i := 0 to a.Length
          invariant counters == a
          invariant forall j :: 0 <= j < i ==> a[j] == Zeroed(Opened(host, j))
          invariant forall j :: i <= j < a.Length ==> a[j] == Opened(host, j)
        {
          a[i] := Some(a[i].value.(rawValue := 0));
        }
      }
      assert a[..] == Initialise(host).counters.value;
      match host.nextSample {
        case Threw(m) => return Some(m);
        case Done(_) => return None;
      }
    }

    /** `CheckAvailability`: marks the check as done before doing it, so it
        does its work on the first call only. */
    method CheckAvailability(host: CounterHost)
      requires Valid()
      modifies this
      ensures Valid() && Latched()
      ensures AvailabilityEstablished(host)
    {
      if availabilityChecked {
        return;
      }
      availabilityChecked := true;
      var failure := InitialiseCounters(host);
      if failure.Some? {
        available := false;
        unavailableReason := failure;
      }
    }

    /** The `Available` getter (the `lock` is not modelled). */
    method Available(host: CounterHost) returns (r: bool)
      requires Valid()
      modifies this
      ensures Valid() && Latched()
      ensures AvailabilityEstablished(host)
      ensures r == available
    {
      if !availabilityChecked {
        CheckAvailability(host);
      }
      r := available;
    }

    /** The `Enabled` getter, `enabled && Available`. The `&&` short-circuits:
        while disabled the availability check does not run. */
    method Enabled(host: CounterHost) returns (r: bool)
      requires Valid()
      modifies this
      ensures Valid() && Latched()
      ensures r == (enabled && available)
      ensures r ==> availabilityChecked
      ensures !old(enabled) ==> unchanged(this)
      ensures old(enabled) ==> AvailabilityEstablished(host)
    {
      if !enabled {
        r := false;
      } else {
        r := Available(host);
      }
    }

    /** The `Enabled` setter. */
    method SetEnabled(value: bool)
      requires Valid()
      modifies this`enabled
      ensures Valid() && Latched()
      ensures enabled == value
    {
      enabled := value;
    }

    /** The `Frequency` getter: throws while unavailable, queries the timer
        only while the cached frequency is zero, and loses availability when
        the query fails. */
    method Frequency(host: CounterHost, query: FrequencyQuery) returns (r: Result<int64>)
      requires Valid()
      modifies this
      ensures Valid() && Latched()
      ensures availabilityChecked && enabled == old(enabled)
      ensures r.Ok? <==> available
      ensures r.Ok? ==> r.value == frequency
      ensures !old(AvailableAfterCheck(host)) ==>
        AvailabilityEstablished(host) && r == Thrown(InvalidOperation(unavailableReason.value))
      ensures old(AvailableAfterCheck(host)) && old(frequency) != 0 ==>
        && r == Ok(old(frequency)) && frequency == old(frequency) && available
        && unavailableReason == old(unavailableReason) && counters == old(counters)
      ensures old(AvailableAfterCheck(host)) && old(frequency) == 0 ==>
        && (old(availabilityChecked) ==> counters == old(counters))
        && (!old(availabilityChecked) ==> counters != null && fresh(counters) && counters[..] == Initialise(host).counters.value)
        && match query
           case Answered(t) => r == Ok(t) && frequency == t && unavailableReason == old(unavailableReason)
           case Refused(w, m) => r == Thrown(Win32(m)) && frequency == w && unavailableReason == Some(m)
           case CallFailed(m) => r == Thrown(Foreign(m)) && frequency == old(frequency) && unavailableReason == Some(m)
    {
      var ok := Available(host);
      if !ok {
        return Thrown(InvalidOperation(unavailableReason.value));
      }
      if frequency == 0 {
        match query {
          case Answered(t) =>
            frequency := t;
          case Refused(w, m) =>
            frequency := w;
            available := false;
            unavailableReason := Some(m);
            return Thrown(Win32(m));
          case CallFailed(m) =>
            available := false;
            unavailableReason := Some(m);
            return Thrown(Foreign(m));
        }
      }
      r := Ok(frequency);
    }

    /** `GetCounter(index)`: throws while unavailable, else the stored counter. */
    method GetCounter(host: CounterHost, index: nat) returns (r: Result<Counter>)
      requires Valid()
      requires index < |Descriptors|
      modifies this
      ensures Valid() && Latched()
      ensures AvailabilityEstablished(host)
      ensures CounterRead(index, r)
      ensures r.Ok? ==> r.value.name == Descriptors[index].name
    {
      var ok := Available(host);
      if !ok {
        return Thrown(InvalidOperation("Can not access counters because: " + unavailableReason.value));
      }
      r := Ok(counters[index].value);
    }

    /** The `RequestCount` property: counter 0. */
    method RequestCount(host: CounterHost) returns (r: Result<Counter>)
      requires Valid()
      modifies this
      ensures Valid() && Latched() && AvailabilityEstablished(host)
      ensures CounterRead(RequestCountIndex, r)
      ensures r.Ok? ==> r.value.name == "# of DNS requests"
    {
      r := GetCounter(host, RequestCountIndex);
    }

    /** The `RequestCountPerSecond` property: counter 1. */
    method RequestCountPerSecond(host: CounterHost) returns (r: Result<Counter>)
      requires Valid()
      modifies this
      ensures Valid() && Latched() && AvailabilityEstablished(host)
      ensures CounterRead(RequestCountPerSecondIndex, r)
      ensures r.Ok? ==> r.value.name == "# of DNS requests/sec"
    {
      r := GetCounter(host, RequestCountPerSecondIndex);
    }

    /** The `AvgResolveTime` property: counter 2. */
    method AvgResolveTime(host: CounterHost) returns (r: Result<Counter>)
      requires Valid()
      modifies this
      ensures Valid() && Latched() && AvailabilityEstablished(host)
      ensures CounterRead(AvgResolveTimeIndex, r)
      ensures r.Ok? ==> r.value.name == "Avg DNS request time"
    {
      r := GetCounter(host, AvgResolveTimeIndex);
    }

    /** The `AvgResolveTimeBase` property: counter 3. */
    method AvgResolveTimeBase(host: CounterHost) returns (r: Result<Counter>)
      requires Valid()
      modifies this
      ensures Valid() && Latched() && AvailabilityEstablished(host)
      ensures CounterRead(AvgResolveTimeBaseIndex, r)
      ensures r.Ok? ==> r.value.name == "Avg DNS request time base"
    {
      r := GetCounter(host, AvgResolveTimeBaseIndex);
    }
  }
}
