/** KafkaMetricsBatch: an AppopticsBatch that understands the registry's metric kinds. Each
    `add*` call appends a fixed sequence of rows, each gated by the expansion config; a
    reading that fails validation throws, which ends the call with the rows before it
    already appended. */
module KafkaBatching {
  import opened Wrappers
  import opened Numbers
  import opened Client
  import opened Metrics
  import opened Errors
  import opened Preconditions
  import opened Expansion
  import opened NamedMeasurements
  import opened Batching
  import opened DeltaTracking
  import Util

  /** One append the batch attempts: a gauge that is validated on construction, or a
      multi-sample row, which is not. */
  datatype Step = GaugeStep(name: string, reading: Option<Num>) | RowStep(row: NamedMeasurement)

  /** The construction a step performs. */
  function Attempt(s: Step): Result<NamedMeasurement, Error>
  {
    match s
    case GaugeStep(name, reading) => NewSingleValueGauge(Some(name), reading)
    case RowStep(row) => Success(row)
  }

  /** What a sequence of steps leaves behind: the rows appended, and whether it returned or
      threw. */
  datatype Appending = Appending(rows: seq<NamedMeasurement>, outcome: Outcome<Error>)

  /** Running steps in order until the first one throws. */
  function Appended(steps: seq<Step>): (r: Appending)
    ensures |r.rows| <= |steps|
    ensures r.outcome.Pass? ==> |r.rows| == |steps|
  {
    if steps == [] then Appending([], Pass)
    else
      var first := Attempt(steps[0]);
      if first.Failure? then Appending([], Fail(first.error))
      else
        var rest := Appended(steps[1..]);
        Appending([first.value] + rest.rows, rest.outcome)
  }

  /** Row i is what step i built; after a throw, the step at the position just past the rows
      is the one that threw. */
  lemma {:induction false} AppendedRows(steps: seq<Step>)
    ensures var r := Appended(steps);
      (forall i :: 0 <= i < |r.rows| ==> Attempt(steps[i]) == Success(r.rows[i])) &&
      (r.outcome.Fail? ==> |r.rows| < |steps| && Attempt(steps[|r.rows|]) == Failure(r.outcome.error))
  {
    if steps != [] && Attempt(steps[0]).Success? {
      AppendedRows(steps[1..]);
      var r := Appended(steps);
      var rest := Appended(steps[1..]);
      assert r.rows == [Attempt(steps[0]).value] + rest.rows;
      forall i | 0 <= i < |r.rows|
        ensures Attempt(steps[i]) == Success(r.rows[i])
      {
        if i > 0 {
          assert steps[i] == steps[1..][i - 1];
        }
      }
      if r.outcome.Fail? {
        assert steps[|r.rows|] == steps[1..][|rest.rows|];
      }
    }
  }

  /** The steps run without throwing exactly when every step's construction succeeds. */
  lemma AppendedPasses(steps: seq<Step>)
    ensures Appended(steps).outcome.Pass? <==> forall i :: 0 <= i < |steps| ==> Attempt(steps[i]).Success?
  {
    AppendedRows(steps);
    var r := Appended(steps);
    if r.outcome.Fail? {
      assert Attempt(steps[|r.rows|]).Failure?;
    }
  }

  /** Running two sequences one after the other: the second runs only if the first returned. */
  lemma {:induction false} AppendedConcat(p: seq<Step>, q: seq<Step>)
    ensures Appended(p + q) ==
      if Appended(p).outcome.Fail? then Appended(p)
      else Appending(Appended(p).rows + Appended(q).rows, Appended(q).outcome)
  {
    if p == [] {
      assert p + q == q;
    } else {
      var first := Attempt(p[0]);
      assert (p + q)[0] == p[0];
      assert (p + q)[1..] == p[1..] + q;
      if first.Success? {
        var tail := Appended(p[1..]);
        AppendedConcat(p[1..], q);
        if tail.outcome.Pass? {
          assert [first.value] + (tail.rows + Appended(q).rows) == [first.value] + tail.rows + Appended(q).rows;
        }
      }
    }
  }

  /** A call that ran `steps` took the list from `before` to `after` and ended in `out`. */
  predicate Performed(before: seq<NamedMeasurement>, after: seq<NamedMeasurement>, out: Outcome<Error>, steps: seq<Step>)
  {
    after == before + Appended(steps).rows && out == Appended(steps).outcome
  }

  lemma PerformedThen(s0: seq<NamedMeasurement>, s1: seq<NamedMeasurement>, s2: seq<NamedMeasurement>,
                      o: Outcome<Error>, p: seq<Step>, q: seq<Step>)
    requires Performed(s0, s1, Pass, p) && Performed(s1, s2, o, q)
    ensures Performed(s0, s2, o, p + q)
  {
    AppendedConcat(p, q);
    assert Appended(p + q).rows == Appended(p).rows + Appended(q).rows;
    assert s2 == s0 + Appended(p).rows + Appended(q).rows;
    assert s0 + Appended(p).rows + Appended(q).rows == s0 + (Appended(p).rows + Appended(q).rows);
  }

  lemma PerformedStop(s0: seq<NamedMeasurement>, s1: seq<NamedMeasurement>, e: Error, p: seq<Step>, q: seq<Step>)
    requires Performed(s0, s1, Fail(e), p)
    ensures Performed(s0, s1, Fail(e), p + q)
  {
    AppendedConcat(p, q);
  }

  /** A call that threw part-way through `plan`, after running its prefix `done`, ran
      `plan`. */
  lemma PerformedStopIn(s0: seq<NamedMeasurement>, s1: seq<NamedMeasurement>, e: Error, done: seq<Step>, plan: seq<Step>)
    requires Performed(s0, s1, Fail(e), done) && done <= plan
    ensures Performed(s0, s1, Fail(e), plan)
  {
    assert plan == done + plan[|done|..];
    PerformedStop(s0, s1, e, done, plan[|done|..]);
  }

  /** The multi-sample row `addSummarizable` adds: only for a finite rounded count above zero,
      under the bare name (no prefix). */
  function SummaryPlan(name: string, summary: Summary): (steps: seq<Step>)
    ensures |steps| <= 1
    ensures |steps| == 1 <==> summary.roundedCount.Some? && summary.roundedCount.value > 0
    ensures |steps| == 1 ==> steps[0] == RowStep(MultiSampleGauge(name, summary.roundedCount.value,
                                                                   summary.sum, summary.max, summary.min))
  {
    match summary.roundedCount
    case Some(c) =>
      if c > 0 then [RowStep(MultiSampleGauge(name, c, summary.sum, summary.max, summary.min))] else []
    case None => []
  }

  class KafkaMetricsBatch {
    const base: AppopticsBatch
    const expansionConfig: ExpandedMetricConfig
    const prefix: Option<string>
    const prefixDelimiter: string
    const deltaTracker: DeltaTracker<string>

    /** The constructor proper, once `checkNotNull(expansionConfig)` and `checkPrefix(prefix)`
        have passed (see `Create`). */
    constructor (postBatchSize: int, userSanitizer: string -> string, san: Sanitizers,
                 expansionConfig: ExpandedMetricConfig, prefix: Option<string>,
                 delimiter: string, deltaTracker: DeltaTracker<string>)
      requires prefix != Some("")
      ensures fresh(base) && base.measurements == [] && base.postBatchSize == postBatchSize
      ensures forall name :: base.sanitizer(name) == san.lastPass(userSanitizer(name))
      ensures this.expansionConfig == expansionConfig && this.prefix == prefix
      ensures prefixDelimiter == delimiter && this.deltaTracker == deltaTracker
    {
      base := new AppopticsBatch(postBatchSize, userSanitizer, san);
      this.expansionConfig := expansionConfig;
      this.prefix := prefix;
      prefixDelimiter := delimiter;
      this.deltaTracker := deltaTracker;
    }

    /** `addPrefix`: the name itself without a (non-empty) prefix, else prefix, delimiter and
        name. */
    function AddPrefix(metricName: string): (r: string)
      ensures prefix.None? || prefix.value == "" ==> r == metricName
      ensures prefix.Some? && prefix.value != "" ==> r == prefix.value + prefixDelimiter + metricName
    {
      if prefix.None? || |prefix.value| == 0 then metricName else prefix.value + prefixDelimiter + metricName
    }

    /** A prefixed name still ends with the name. */
    lemma AddPrefixKeepsName(metricName: string)
      ensures |metricName| <= |AddPrefix(metricName)|
      ensures AddPrefix(metricName)[|AddPrefix(metricName)| - |metricName|..] == metricName
    {
    }

    /** The step `maybeAdd(metric, name, reading)` takes: none unless the variant is enabled. */
    function Gate(metric: ExpandedMetric, name: string, reading: Option<Num>): (steps: seq<Step>)
      ensures expansionConfig.IsSet(metric) ==> steps == [GaugeStep(AddPrefix(BuildMetricName(metric, name)), reading)]
      ensures !expansionConfig.IsSet(metric) ==> steps == []
    {
      if expansionConfig.IsSet(metric) then [GaugeStep(AddPrefix(BuildMetricName(metric, name)), reading)] else []
    }

    /** `addMetered`: COUNT (the delta), then the mean, 1-, 5- and 15-minute rates. */
    function MeteredPlan(name: string, delta: int, rates: Rates): seq<Step>
    {
      Gate(Count, name, Some(OfLong(delta))) + Gate(RateMean, name, Some(rates.mean))
        + Gate(Rate1Minute, name, Some(rates.oneMinute)) + Gate(Rate5Minute, name, Some(rates.fiveMinute))
        + Gate(Rate15Minute, name, Some(rates.fifteenMinute))
    }

    /** `addSampling`: the six percentiles, median first. */
    function SamplingPlan(name: string, s: Snapshot): seq<Step>
    {
      Gate(Median, name, Some(s.median)) + Gate(Pct75, name, Some(s.p75)) + Gate(Pct95, name, Some(s.p95))
        + Gate(Pct98, name, Some(s.p98)) + Gate(Pct99, name, Some(s.p99)) + Gate(Pct999, name, Some(s.p999))
    }

    /** `addHistogram`: COUNT (the delta), the summary row, the percentiles. */
    function HistogramPlan(name: string, delta: int, summary: Summary, snapshot: Snapshot): seq<Step>
    {
      Gate(Count, name, Some(OfLong(delta))) + SummaryPlan(name, summary) + SamplingPlan(name, snapshot)
    }

    /** `addTimer`: everything `addMetered` adds, the summary row, the percentiles. */
    function TimerPlan(name: string, delta: int, rates: Rates, summary: Summary, snapshot: Snapshot): seq<Step>
    {
      MeteredPlan(name, delta, rates) + SummaryPlan(name, summary) + SamplingPlan(name, snapshot)
    }

    /** The overriding `addCounterMeasurement`: the name is prefixed first. */
    method AddCounterMeasurement(name: string, value: Option<int>) returns (out: Outcome<Error>)
      modifies base
      ensures base.measurements == old(base.measurements) + Built(NewCounter(Some(AddPrefix(name)), value))
      ensures out == OutcomeOf(NewCounter(Some(AddPrefix(name)), value))
    {
      out := base.AddCounterMeasurement(Some(AddPrefix(name)), value);
    }

    /** The overriding `addGaugeMeasurement`: the name is prefixed first. */
    method AddGaugeMeasurement(name: string, value: Option<Num>) returns (out: Outcome<Error>)
      modifies base
      ensures Performed(old(base.measurements), base.measurements, out, [GaugeStep(AddPrefix(name), value)])
    {
      out := base.AddGaugeMeasurement(Some(AddPrefix(name)), value);
      assert [GaugeStep(AddPrefix(name), value)][1..] == [];
    }

    /** `maybeAdd`: a row named `name.<displayName>` iff the variant is enabled. */
    method MaybeAdd(metric: ExpandedMetric, name: string, reading: Option<Num>) returns (out: Outcome<Error>)
      modifies base
      ensures Performed(old(base.measurements), base.measurements, out, Gate(metric, name, reading))
    {
      if expansionConfig.IsSet(metric) {
        out := AddGaugeMeasurement(BuildMetricName(metric, name), reading);
      } else {
        out := Pass;
      }
    }

    /** `addGauge`: one row iff the gauge's value is a Number that is neither NaN nor infinite;
        otherwise nothing. It never throws. */
    method AddGauge(name: string, value: GaugeValue)
      modifies base
      ensures value.NumberValue? && IsANumber(value.number) ==>
        base.measurements == old(base.measurements) + [SingleValueGauge(AddPrefix(name), Some(value.number))]
      ensures !(value.NumberValue? && IsANumber(value.number)) ==> base.measurements == old(base.measurements)
    {
      if value.NumberValue? {
        var number := value.number;
        if IsANumber(number) {
          var _ := AddGaugeMeasurement(name, Some(number));
        }
      }
    }

    /** `addCounter`: one gauge row carrying the raw count; the delta tracker is not used. */
    method AddCounter(name: string, count: int)
      modifies base
      ensures base.measurements == old(base.measurements) + [SingleValueGauge(AddPrefix(name), Some(OfLong(count)))]
    {
      var _ := AddGaugeMeasurement(name, Some(OfLong(count)));
    }

    /** `addSummarizable`: never throws. */
    method AddSummarizable(name: string, summary: Summary)
      modifies base
      ensures Performed(old(base.measurements), base.measurements, Pass, SummaryPlan(name, summary))
    {
      if summary.roundedCount.Some? && summary.roundedCount.value > 0 {
        base.AddMeasurement(MultiSampleGauge(name, summary.roundedCount.value, summary.sum, summary.max, summary.min));
      }
    }

    /** `addSampling`. */
    method AddSampling(name: string, s: Snapshot) returns (out: Outcome<Error>)
      modifies base
      ensures Performed(old(base.measurements), base.measurements, out, SamplingPlan(name, s))
    {
      ghost var s0 := base.measurements;
      ghost var plan := SamplingPlan(name, s);
      out := MaybeAdd(Median, name, Some(s.median));
      ghost var done := Gate(Median, name, Some(s.median));
      if out.Fail? {
        PerformedStopIn(s0, base.measurements, out.error, done, plan);
        return;
      }
      ghost var s1 := base.measurements;
      out := MaybeAdd(Pct75, name, Some(s.p75));
      PerformedThen(s0, s1, base.measurements, out, done, Gate(Pct75, name, Some(s.p75)));
      done := done + Gate(Pct75, name, Some(s.p75));
      if out.Fail? {
        PerformedStopIn(s0, base.measurements, out.error, done, plan);
        return;
      }
      s1 := base.measurements;
      out := MaybeAdd(Pct95, name, Some(s.p95));
      PerformedThen(s0, s1, base.measurements, out, done, Gate(Pct95, name, Some(s.p95)));
      done := done + Gate(Pct95, name, Some(s.p95));
      if out.Fail? {
        PerformedStopIn(s0, base.measurements, out.error, done, plan);
        return;
      }
      s1 := base.measurements;
      out := MaybeAdd(Pct98, name, Some(s.p98));
      PerformedThen(s0, s1, base.measurements, out, done, Gate(Pct98, name, Some(s.p98)));
      done := done + Gate(Pct98, name, Some(s.p98));
      if out.Fail? {
        PerformedStopIn(s0, base.measurements, out.error, done, plan);
        return;
      }
      s1 := base.measurements;
      out := MaybeAdd(Pct99, name, Some(s.p99));
      PerformedThen(s0, s1, base.measurements, out, done, Gate(Pct99, name, Some(s.p99)));
      done := done + Gate(Pct99, name, Some(s.p99));
      if out.Fail? {
        PerformedStopIn(s0, base.measurements, out.error, done, plan);
        return;
      }
      s1 := base.measurements;
      out := MaybeAdd(Pct999, name, Some(s.p999));
      PerformedThen(s0, s1, base.measurements, out, done, Gate(Pct999, name, Some(s.p999)));
    }

    /** The five `maybeAdd` calls of `addMetered`, after its `getDelta`. */
    method AddRates(name: string, deltaCount: int, rates: Rates) returns (out: Outcome<Error>)
      modifies base
      ensures Performed(old(base.measurements), base.measurements, out, MeteredPlan(name, deltaCount, rates))
    {
      ghost var s0 := base.measurements;
      ghost var plan := MeteredPlan(name, deltaCount, rates);
      out := MaybeAdd(Count, name, Some(OfLong(deltaCount)));
      ghost var done := Gate(Count, name, Some(OfLong(deltaCount)));
      if out.Fail? {
        PerformedStopIn(s0, base.measurements, out.error, done, plan);
        return;
      }
      ghost var s1 := base.measurements;
      out := MaybeAdd(RateMean, name, Some(rates.mean));
      PerformedThen(s0, s1, base.measurements, out, done, Gate(RateMean, name, Some(rates.mean)));
      done := done + Gate(RateMean, name, Some(rates.mean));
      if out.Fail? {
        PerformedStopIn(s0, base.measurements, out.error, done, plan);
        return;
      }
      s1 := base.measurements;
      out := MaybeAdd(Rate1Minute, name, Some(rates.oneMinute));
      PerformedThen(s0, s1, base.measurements, out, done, Gate(Rate1Minute, name, Some(rates.oneMinute)));
      done := done + Gate(Rate1Minute, name, Some(rates.oneMinute));
      if out.Fail? {
        PerformedStopIn(s0, base.measurements, out.error, done, plan);
        return;
      }
      s1 := base.measurements;
      out := MaybeAdd(Rate5Minute, name, Some(rates.fiveMinute));
      PerformedThen(s0, s1, base.measurements, out, done, Gate(Rate5Minute, name, Some(rates.fiveMinute)));
      done := done + Gate(Rate5Minute, name, Some(rates.fiveMinute));
      if out.Fail? {
        PerformedStopIn(s0, base.measurements, out.error, done, plan);
        return;
      }
      s1 := base.measurements;
      out := MaybeAdd(Rate15Minute, name, Some(rates.fifteenMinute));
      PerformedThen(s0, s1, base.measurements, out, done, Gate(Rate15Minute, name, Some(rates.fifteenMinute)));
    }

    /** `addMetered`: one `getDelta` on the unprefixed name, then the metered rows. */
    method AddMetered(name: string, meter: Metric) returns (out: Outcome<Error>)
      requires meter.IsMetered()
      modifies base, deltaTracker
      ensures deltaTracker.lookup == old(deltaTracker.lookup)[name := meter.count]
      ensures Performed(old(base.measurements), base.measurements, out,
                        MeteredPlan(name, Delta(old(deltaTracker.Previous(name)), meter.count), meter.rates))
    {
      var deltaCount := deltaTracker.GetDelta(name, meter.count);
      out := AddRates(name, deltaCount, meter.rates);
    }

    /** `addHistogram`: one `getDelta`, the COUNT row, the summary row, the percentiles. */
    method AddHistogram(name: string, histogram: Metric) returns (out: Outcome<Error>)
      requires histogram.Histogram?
      modifies base, deltaTracker
      ensures deltaTracker.lookup == old(deltaTracker.lookup)[name := histogram.count]
      ensures Performed(old(base.measurements), base.measurements, out,
                        HistogramPlan(name, Delta(old(deltaTracker.Previous(name)), histogram.count),
                                      histogram.summary, histogram.snapshot))
    {
      var countDelta := deltaTracker.GetDelta(name, histogram.count);
      ghost var s0 := base.measurements;
      ghost var plan := HistogramPlan(name, countDelta, histogram.summary, histogram.snapshot);
      out := MaybeAdd(Count, name, Some(OfLong(countDelta)));
      ghost var done := Gate(Count, name, Some(OfLong(countDelta)));
      if out.Fail? {
        PerformedStopIn(s0, base.measurements, out.error, done, plan);
        return;
      }
      ghost var s1 := base.measurements;
      AddSummarizable(name, histogram.summary);
      PerformedThen(s0, s1, base.measurements, Pass, done, SummaryPlan(name, histogram.summary));
      done := done + SummaryPlan(name, histogram.summary);
      s1 := base.measurements;
      out := AddSampling(name, histogram.snapshot);
      PerformedThen(s0, s1, base.measurements, out, done, SamplingPlan(name, histogram.snapshot));
    }

    /** `addTimer`: `addMetered`, then `addSummarizable`, then `addSampling`. */
    method AddTimer(name: string, timer: Metric) returns (out: Outcome<Error>)
      requires timer.Timer?
      modifies base, deltaTracker
      ensures deltaTracker.lookup == old(deltaTracker.lookup)[name := timer.count]
      ensures Performed(old(base.measurements), base.measurements, out,
                        TimerPlan(name, Delta(old(deltaTracker.Previous(name)), timer.count),
                                  timer.rates, timer.summary, timer.snapshot))
    {
      ghost var delta := Delta(deltaTracker.Previous(name), timer.count);
      ghost var s0 := base.measurements;
      ghost var plan := TimerPlan(name, delta, timer.rates, timer.summary, timer.snapshot);
      out := AddMetered(name, timer);
      ghost var done := MeteredPlan(name, delta, timer.rates);
      if out.Fail? {
        PerformedStopIn(s0, base.measurements, out.error, done, plan);
        return;
      }
      ghost var s1 := base.measurements;
      AddSummarizable(name, timer.summary);
      PerformedThen(s0, s1, base.measurements, Pass, done, SummaryPlan(name, timer.summary));
      done := done + SummaryPlan(name, timer.summary);
      s1 := base.measurements;
      out := AddSampling(name, timer.snapshot);
      PerformedThen(s0, s1, base.measurements, out, done, SamplingPlan(name, timer.snapshot));
    }
  }

  /** `new KafkaMetricsBatch(...)` with its throwing checks: a null expansion config, then an
      empty prefix. */
  method Create(postBatchSize: int, userSanitizer: string -> string, san: Sanitizers,
                expansionConfig: Option<ExpandedMetricConfig>, prefix: Option<string>,
                delimiter: string, deltaTracker: DeltaTracker<string>)
    returns (r: Result<KafkaMetricsBatch, Error>)
    ensures r.Success? <==> expansionConfig.Some? && prefix != Some("")
    ensures expansionConfig.None? ==> r == Failure(NullParameter)
    ensures expansionConfig.Some? && prefix == Some("") ==> r == Failure(EmptyPrefix)
    ensures r.Success? ==>
              fresh(r.value) && fresh(r.value.base) && r.value.base.measurements == [] &&
              r.value.expansionConfig == expansionConfig.value && r.value.prefix == prefix &&
              r.value.prefixDelimiter == delimiter && r.value.deltaTracker == deltaTracker
  {
    var config := CheckNotNull(expansionConfig);
    if config.Failure? {
      return Failure(config.error);
    }
    var checked := Util.CheckPrefix(prefix);
    if checked.Failure? {
      return Failure(checked.error);
    }
    var batch := new KafkaMetricsBatch(postBatchSize, userSanitizer, san, config.value, prefix, delimiter, deltaTracker);
    r := Success(batch);
  }

  /** An enabled variant with an admissible reading adds exactly its row, named
      `<prefix><delimiter><name>.<displayName>`. */
  lemma GatedRow(b: KafkaMetricsBatch, metric: ExpandedMetric, name: string, reading: Option<Num>)
    requires b.expansionConfig.IsSet(metric) && NumericOrNull(reading)
    ensures Appended(b.Gate(metric, name, reading)) ==
      Appending([SingleValueGauge(b.AddPrefix(BuildMetricName(metric, name)), reading)], Pass)
  {
    var steps := b.Gate(metric, name, reading);
    assert steps[1..] == [];
  }

  /** An inadmissible reading for an enabled variant throws the single-gauge error, naming
      the full row name, and adds nothing. */
  lemma GatedRowRejected(b: KafkaMetricsBatch, metric: ExpandedMetric, name: string, reading: Num)
    requires b.expansionConfig.IsSet(metric) && !IsANumber(reading)
    ensures var full := b.AddPrefix(BuildMetricName(metric, name));
      Appended(b.Gate(metric, name, Some(reading))) ==
      Appending([], Fail(Invalid(SingleGauge, OfName(Some(full)), NotNumeric(reading))))
  {
  }

  /** With every metered variant enabled, a meter's steps are its five gauges in the order
      COUNT, mean, 1-, 5- and 15-minute rate. */
  lemma MeteredOrder(b: KafkaMetricsBatch, name: string, delta: int, rates: Rates)
    requires b.expansionConfig.IsSet(Count) && b.expansionConfig.IsSet(RateMean)
    requires b.expansionConfig.IsSet(Rate1Minute) && b.expansionConfig.IsSet(Rate5Minute)
    requires b.expansionConfig.IsSet(Rate15Minute)
    ensures b.MeteredPlan(name, delta, rates) == [
      GaugeStep(b.AddPrefix(BuildMetricName(Count, name)), Some(OfLong(delta))),
      GaugeStep(b.AddPrefix(BuildMetricName(RateMean, name)), Some(rates.mean)),
      GaugeStep(b.AddPrefix(BuildMetricName(Rate1Minute, name)), Some(rates.oneMinute)),
      GaugeStep(b.AddPrefix(BuildMetricName(Rate5Minute, name)), Some(rates.fiveMinute)),
      GaugeStep(b.AddPrefix(BuildMetricName(Rate15Minute, name)), Some(rates.fifteenMinute))]
  {
  }

  /** With every percentile enabled, a snapshot's steps are its six gauges, median first and
      the 99.9th last. */
  lemma SamplingOrder(b: KafkaMetricsBatch, name: string, s: Snapshot)
    requires b.expansionConfig.IsSet(Median) && b.expansionConfig.IsSet(Pct75) && b.expansionConfig.IsSet(Pct95)
    requires b.expansionConfig.IsSet(Pct98) && b.expansionConfig.IsSet(Pct99) && b.expansionConfig.IsSet(Pct999)
    ensures b.SamplingPlan(name, s) == [
      GaugeStep(b.AddPrefix(BuildMetricName(Median, name)), Some(s.median)),
      GaugeStep(b.AddPrefix(BuildMetricName(Pct75, name)), Some(s.p75)),
      GaugeStep(b.AddPrefix(BuildMetricName(Pct95, name)), Some(s.p95)),
      GaugeStep(b.AddPrefix(BuildMetricName(Pct98, name)), Some(s.p98)),
      GaugeStep(b.AddPrefix(BuildMetricName(Pct99, name)), Some(s.p99)),
      GaugeStep(b.AddPrefix(BuildMetricName(Pct999, name)), Some(s.p999))]
  {
  }

  /** Steps whose readings all pass validation run to the end, and each appends its own
      row. */
  lemma AdmissibleStepsAppendAll(steps: seq<Step>)
    requires forall i :: 0 <= i < |steps| && steps[i].GaugeStep? ==> NumericOrNull(steps[i].reading)
    ensures Appended(steps).outcome == Pass && |Appended(steps).rows| == |steps|
    ensures forall i :: 0 <= i < |steps| && steps[i].GaugeStep? ==>
      Appended(steps).rows[i] == SingleValueGauge(steps[i].name, steps[i].reading)
    ensures forall i :: 0 <= i < |steps| && steps[i].RowStep? ==> Appended(steps).rows[i] == steps[i].row
  {
    AppendedPasses(steps);
    AppendedRows(steps);
  }

  /** With no variant enabled, a histogram contributes at most its multi-sample row, which
      appears exactly when the rounded count is above zero; nothing can throw. */
  lemma HistogramWithNothingEnabled(b: KafkaMetricsBatch, name: string, delta: int, summary: Summary, snapshot: Snapshot)
    requires b.expansionConfig.enabled == {}
    ensures Appended(b.HistogramPlan(name, delta, summary, snapshot)) == Appending(
      if summary.roundedCount.Some? && summary.roundedCount.value > 0
      then [MultiSampleGauge(name, summary.roundedCount.value, summary.sum, summary.max, summary.min)]
      else [], Pass)
  {
    var sp := SummaryPlan(name, summary);
    assert b.SamplingPlan(name, snapshot) == [];
    assert b.HistogramPlan(name, delta, summary, snapshot) == sp;
    if |sp| == 1 {
      assert sp[1..] == [];
    }
  }
}
