/** AppopticsBatch: an append-only list of name-keyed measurements. */
module Batching {
  import opened Wrappers
  import opened Numbers
  import opened Client
  import opened Errors
  import opened NamedMeasurements

  const DEFAULT_BATCH_SIZE := 500

  /** The measurements a construction contributes: the built one, or none when it threw. */
  function Built(r: Result<NamedMeasurement, Error>): (rows: seq<NamedMeasurement>)
    ensures r.Success? ==> rows == [r.value]
    ensures r.Failure? ==> rows == []
  {
    if r.Success? then [r.value] else []
  }

  /** The outcome of a `void` call that performs a construction. */
  function OutcomeOf(r: Result<NamedMeasurement, Error>): (o: Outcome<Error>)
    ensures o.Pass? <==> r.Success?
    ensures o.Fail? ==> o.error == r.error
  {
    if r.Success? then Pass else Fail(r.error)
  }

  class AppopticsBatch {
    const postBatchSize: int
    /** LAST_PASS applied after the caller's sanitizer. */
    const sanitizer: string -> string
    var measurements: seq<NamedMeasurement>

    constructor (postBatchSize: int, userSanitizer: string -> string, san: Sanitizers)
      ensures this.postBatchSize == postBatchSize
      ensures forall name :: sanitizer(name) == san.lastPass(userSanitizer(name))
      ensures measurements == []
    {
      this.postBatchSize := postBatchSize;
      sanitizer := name => san.lastPass(userSanitizer(name));
      measurements := [];
    }

    /** `addMeasurement`: appended at the end, earlier elements untouched. */
    method AddMeasurement(measurement: NamedMeasurement)
      modifies this
      ensures measurements == old(measurements) + [measurement]
    {
      measurements := measurements + [measurement];
    }

    /** `addCounterMeasurement`: one counter measurement is appended, or the construction
        throws and nothing is. */
    method AddCounterMeasurement(name: Option<string>, value: Option<int>) returns (out: Outcome<Error>)
      modifies this
      ensures measurements == old(measurements) + Built(NewCounter(name, value))
      ensures out == OutcomeOf(NewCounter(name, value))
    {
      var m := NewCounter(name, value);
      if m.Failure? {
        return Fail(m.error);
      }
      AddMeasurement(m.value);
      out := Pass;
    }

    /** `addGaugeMeasurement`: one single-value gauge is appended, or the construction throws
        before anything is appended. */
    method AddGaugeMeasurement(name: Option<string>, value: Option<Num>) returns (out: Outcome<Error>)
      modifies this
      ensures measurements == old(measurements) + Built(NewSingleValueGauge(name, value))
      ensures out == OutcomeOf(NewSingleValueGauge(name, value))
    {
      var m := NewSingleValueGauge(name, value);
      if m.Failure? {
        return Fail(m.error);
      }
      AddMeasurement(m.value);
      out := Pass;
    }
  }

  /** A fresh batch with two gauges added holds exactly those two, in order, and its
      sanitizer runs LAST_PASS after the caller's. */
  method TwoGauges(a: string, x: real, b: string, y: real, user: string -> string, san: Sanitizers)
    returns (rows: seq<NamedMeasurement>, cleaned: string)
    ensures rows == [SingleValueGauge(a, Some(Finite(x))), SingleValueGauge(b, Some(Finite(y)))]
    ensures cleaned == san.lastPass(user(a))
  {
    var batch := new AppopticsBatch(DEFAULT_BATCH_SIZE, user, san);
    var _ := batch.AddGaugeMeasurement(Some(a), Some(Finite(x)));
    var _ := batch.AddGaugeMeasurement(Some(b), Some(Finite(y)));
    rows := batch.measurements;
    cleaned := batch.sanitizer(a);
  }
}
