/** SingleValueGaugeMeasurement, CounterMeasurement and MultiSampleGaugeMeasurement: the
    name-keyed measurements the batch collects. */
module NamedMeasurements {
  import opened Wrappers
  import opened Numbers
  import opened Errors
  import opened Preconditions

  datatype NamedMeasurement =
    | SingleValueGauge(name: string, reading: Option<Num>)
    | CounterMeasurement(name: string, count: int)
    | MultiSampleGauge(name: string, count: int, sum: Num, max: Num, min: Num)

  /** `new SingleValueGaugeMeasurement(name, reading)`: the name must not be null and the
      reading must pass `checkNumeric` (applied twice); any failure is rethrown naming the
      given name. */
  function NewSingleValueGauge(name: Option<string>, reading: Option<Num>): (r: Result<NamedMeasurement, Error>)
    ensures r.Success? <==> name.Some? && NumericOrNull(reading)
    ensures r.Success? ==> r.value == SingleValueGauge(name.value, reading)
    ensures name.None? ==> r == Failure(Invalid(SingleGauge, OfName(name), NullParameter))
    ensures name.Some? && !NumericOrNull(reading) ==>
      r == Failure(Invalid(SingleGauge, OfName(name), NotNumeric(reading.value)))
  {
    match CheckNotNull(name)
    case Failure(e) => Failure(Invalid(SingleGauge, OfName(name), e))
    case Success(n) =>
      match CheckNumeric(reading)
      case Failure(e) => Failure(Invalid(SingleGauge, OfName(name), e))
      case Success(once) =>
        match CheckNumeric(once)
        case Failure(e) => Failure(Invalid(SingleGauge, OfName(name), e))
        case Success(twice) => Success(SingleValueGauge(n, twice))
  }

  /** `new CounterMeasurement(name, count)`: both must be non-null; the failure is not
      wrapped. */
  function NewCounter(name: Option<string>, count: Option<int>): (r: Result<NamedMeasurement, Error>)
    ensures r.Success? <==> name.Some? && count.Some?
    ensures r.Success? ==> r.value == CounterMeasurement(name.value, count.value)
    ensures r.Failure? ==> r.error == NullParameter
  {
    match (CheckNotNull(name), CheckNotNull(count))
    case (Failure(e), _) => Failure(e)
    case (_, Failure(e)) => Failure(e)
    case (Success(n), Success(c)) => Success(CounterMeasurement(n, c))
  }

  /** `toMap` of a single-value gauge or a counter: the one entry "value". */
  function ToMap(m: NamedMeasurement): (r: map<string, Option<Num>>)
    requires !m.MultiSampleGauge?
    ensures r.Keys == {"value"}
    ensures m.SingleValueGauge? ==> r["value"] == m.reading
    ensures m.CounterMeasurement? ==> r["value"] == Some(OfLong(m.count))
  {
    if m.SingleValueGauge? then map["value" := m.reading] else map["value" := Some(OfLong(m.count))]
  }

  /** `getName` gives back the name the measurement was built with, unchanged, and `toMap`
      carries the reading or count it was built with. */
  lemma GaugeNameAndValue(name: string, reading: Option<Num>)
    requires NumericOrNull(reading)
    ensures NewSingleValueGauge(Some(name), reading).Success?
    ensures NewSingleValueGauge(Some(name), reading).value.name == name
    ensures ToMap(NewSingleValueGauge(Some(name), reading).value) == map["value" := reading]
  {
  }

  lemma CounterNameAndValue(name: string, count: int)
    ensures NewCounter(Some(name), Some(count)).Success?
    ensures NewCounter(Some(name), Some(count)).value.name == name
    ensures ToMap(NewCounter(Some(name), Some(count)).value) == map["value" := Some(OfLong(count))]
  {
  }
}
