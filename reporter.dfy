/** Reporter: the polling reporter's own logic. Filtering out aggregate names, aligning the
    post time to the interval, dispatching each reportable metric with failures isolated, and
    logging the post results. */
module Reporting {
  import opened Wrappers
  import opened Numbers
  import opened Client
  import opened Metrics
  import opened Identity
  import opened Errors
  import opened Expansion
  import opened Measurements
  import opened DeltaTracking
  import opened Supplier

  // ---------------------------------------------------------------- filterAggregates

  /** The grouping key: group, type and name run together with no separator. */
  function GroupKey(n: MetricName): string
  {
    n.group + n.typeName + n.name
  }

  /** The names of `input` that share the key `k`. */
  function Group(input: set<MetricName>, k: string): set<MetricName>
  {
    set n | n in input && GroupKey(n) == k
  }

  /** A name survives when it is alone in its group or carries a scope. */
  predicate Kept(input: set<MetricName>, n: MetricName)
  {
    |Group(input, GroupKey(n))| == 1 || n.scope.Some?
  }

  /** What `filterAggregates` returns. */
  function Reportable(input: set<MetricName>): (output: set<MetricName>)
    ensures output <= input
    ensures forall n :: n in input ==> (n in output <==> Kept(input, n))
  {
    set n | n in input && Kept(input, n)
  }

  /** `groupingBy(group + type + name)`: each key present in the input, with its names. */
  function Grouped(input: set<MetricName>): (grouped: map<string, set<MetricName>>)
    ensures forall n :: n in input ==> GroupKey(n) in grouped
    ensures forall k :: k in grouped ==> grouped[k] == Group(input, k)
  {
    map k | k in (set n | n in input :: GroupKey(n)) :: Group(input, k)
  }

  /** The names of `input` whose group key is not in `keys` and that are kept. */
  function KeptOutside(input: set<MetricName>, keys: set<string>): set<MetricName>
  {
    set n | n in input && GroupKey(n) !in keys && Kept(input, n)
  }

  /** Handling one more group adds exactly its kept names. */
  lemma KeptOutsideStep(input: set<MetricName>, keys: set<string>, k: string, added: set<MetricName>)
    requires k in keys
    requires |Group(input, k)| == 1 ==> added == Group(input, k)
    requires |Group(input, k)| != 1 ==> added == set n | n in Group(input, k) && n.scope.Some?
    ensures KeptOutside(input, keys) + added == KeptOutside(input, keys - {k})
  {
    forall n ensures n in KeptOutside(input, keys) + added <==> n in KeptOutside(input, keys - {k}) {
      if n in input && GroupKey(n) == k {
        assert n in Group(input, k);
      }
    }
  }

  /** `filterAggregates`: each group of one is kept whole and each larger group keeps only
      its scoped names. */
  method FilterAggregates(input: set<MetricName>) returns (output: set<MetricName>)
    ensures output == Reportable(input)
  {
    var grouped := Grouped(input);
    output := {};
    var keys := grouped.Keys;
    assert KeptOutside(input, keys) == {};
    while keys != {}
      invariant keys <= grouped.Keys
      invariant forall n :: n in input ==> GroupKey(n) in grouped
      invariant output == KeptOutside(input, keys)
      decreases keys
    {
      var k :| k in keys;
      var values := grouped[k];
      var added;
      if |values| == 1 {
        added := values;
      } else {
        added := set n | n in values && n.scope.Some?;
      }
      KeptOutsideStep(input, keys, k, added);
      output := output + added;
      keys := keys - {k};
    }
    assert KeptOutside(input, keys) == Reportable(input);
  }

  /** A name alone in its group is reported, with or without a scope. */
  lemma LoneNameKept(input: set<MetricName>, n: MetricName)
    requires n in input && forall m :: m in input && m != n ==> GroupKey(m) != GroupKey(n)
    ensures n in Reportable(input)
  {
    assert Group(input, GroupKey(n)) == {n};
  }

  /** In a group of two or more, exactly the scoped names are reported. */
  lemma CrowdedGroupKeepsScoped(input: set<MetricName>, n: MetricName, m: MetricName)
    requires n in input && m in input && n != m && GroupKey(m) == GroupKey(n)
    ensures n in Reportable(input) <==> n.scope.Some?
  {
    assert {n, m} <= Group(input, GroupKey(n));
    assert |{n, m}| == 2;
    SubsetCard({n, m}, Group(input, GroupKey(n)));
  }

  lemma SubsetCard<T>(a: set<T>, b: set<T>)
    requires a <= b
    ensures |a| <= |b|
  {
    assert b == a + (b - a);
  }

  /** The key is separator-less: ("ab", "c", "d") and ("a", "bc", "d") share a group, so the
      unscoped one is dropped in favour of the scoped one. */
  lemma CollidingKeys(scope: string)
    ensures var x := MetricName("ab", "c", "d", None);
      var y := MetricName("a", "bc", "d", Some(scope));
      GroupKey(x) == GroupKey(y) && Reportable({x, y}) == {y}
  {
    var x := MetricName("ab", "c", "d", None);
    var y := MetricName("a", "bc", "d", Some(scope));
    assert GroupKey(x) == "abcd" == GroupKey(y);
    CrowdedGroupKeepsScoped({x, y}, x, y);
    CrowdedGroupKeepsScoped({x, y}, y, x);
  }

  // ---------------------------------------------------------------- getEpoch and start

  /** Java's `long` division, which truncates toward zero. */
  function JavaDiv(a: int, b: int): int
    requires b != 0
  {
    if b > 0 then (if a >= 0 then a / b else -((-a) / b))
    else (if a >= 0 then -(a / -b) else (-a) / (-b))
  }

  /** `getEpoch`: the epoch second `now` rounded toward zero to a multiple of the interval;
      a zero interval throws. */
  function GetEpoch(now: int, interval: int): (r: Result<int, Error>)
    ensures r.Failure? <==> interval == 0
    ensures r.Failure? ==> r.error == DivideByZero
  {
    if interval == 0 then Failure(DivideByZero) else Success(JavaDiv(now, interval) * interval)
  }

  lemma MulAtLeast(i: int, k: int)
    requires i > 0 && k >= 1
    ensures i * k >= i
  {
  }

  lemma MultipleOfSelf(q: int, i: int)
    requires i > 0
    ensures (q * i) % i == 0
  {
    var d := (q * i) / i;
    var r := (q * i) % i;
    assert i * (q - d) == r;
    if q - d >= 1 {
      MulAtLeast(i, q - d);
    } else if q - d <= -1 {
      MulAtLeast(i, d - q);
    }
  }

  /** For a positive interval the epoch is a multiple of it within one interval of `now`:
      at or below `now` when `now` is non-negative, at or above it (rounding toward zero)
      when `now` is negative. */
  lemma EpochAligned(now: int, interval: int)
    requires interval > 0
    ensures var e := GetEpoch(now, interval).value;
      e % interval == 0 &&
      (now >= 0 ==> now - interval < e <= now) &&
      (now < 0 ==> now <= e < now + interval)
  {
    var q := JavaDiv(now, interval);
    MultipleOfSelf(q, interval);
    if now < 0 {
      var p := (-now) / interval;
      assert -now == interval * p + (-now) % interval;
      assert q * interval == -(p * interval);
    }
  }

  /** java.util.concurrent.TimeUnit, as far as `toSeconds` goes. */
  datatype TimeUnit = Nanoseconds | Microseconds | Milliseconds | Seconds | Minutes | Hours | Days

  const LONG_MAX: int := 0x7fff_ffff_ffff_ffff
  const LONG_MIN: int := -0x8000_0000_0000_0000

  /** A multiplication that saturates at the `long` range, as TimeUnit does. */
  function Saturated(d: int, factor: int): int
    requires factor > 0
  {
    var max := LONG_MAX / factor;
    if d > max then LONG_MAX else if d < -max then LONG_MIN else d * factor
  }

  /** `unit.toSeconds(period)`: finer units divide, truncating toward zero; coarser units
      multiply, saturating. */
  function ToSeconds(period: int, unit: TimeUnit): int
  {
    match unit
    case Nanoseconds => JavaDiv(period, 1_000_000_000)
    case Microseconds => JavaDiv(period, 1_000_000)
    case Milliseconds => JavaDiv(period, 1000)
    case Seconds => period
    case Minutes => Saturated(period, 60)
    case Hours => Saturated(period, 3600)
    case Days => Saturated(period, 86400)
  }

  /** The exact value clamped to the `long` range. */
  function ClampToLong(x: int): int
  {
    if x > LONG_MAX then LONG_MAX else if x < LONG_MIN then LONG_MIN else x
  }

  function Abs(x: int): nat
  {
    if x < 0 then -x else x
  }

  /** `r` is `p / factor` truncated toward zero: it has the sign of `p` and the largest
      magnitude whose multiple does not exceed `|p|`. */
  predicate TruncatedQuotient(p: int, factor: int, r: int)
  {
    (p >= 0 ==> r >= 0) && (p <= 0 ==> r <= 0) &&
    factor * Abs(r) <= Abs(p) < factor * (Abs(r) + 1)
  }

  /** Seconds pass through; finer units divide, truncating toward zero for either sign;
      coarser units give the exact product clamped to the `long` range, which is exact
      whenever the product fits. */
  lemma ToSecondsSpec(p: int)
    ensures ToSeconds(p, Seconds) == p
    ensures TruncatedQuotient(p, 1000, ToSeconds(p, Milliseconds))
    ensures TruncatedQuotient(p, 1_000_000, ToSeconds(p, Microseconds))
    ensures TruncatedQuotient(p, 1_000_000_000, ToSeconds(p, Nanoseconds))
    ensures ToSeconds(p, Minutes) == ClampToLong(60 * p)
    ensures ToSeconds(p, Hours) == ClampToLong(3600 * p)
    ensures ToSeconds(p, Days) == ClampToLong(86400 * p)
  {
  }

  // ---------------------------------------------------------------- run

  /** The post request `run` hands to the client: epoch, the period as an `int`, the rows. */
  datatype PostRequest = PostRequest(epoch: int, period: int, measures: seq<Measure>)

  /** The lines `run` logs at error level. */
  datatype LogLine =
    | PostError(code: int, body: string)   // "error attempting to post ..., response code ..."
    | PostErrorNoResponse                  // "error attempting to post measurements to librato"
    | PostFailed(error: Error)             // "APPOPTICS post failed: "

  /** The rows of `measurements`, in order; the first measurement whose row cannot be built
      aborts with its error. */
  function Rows(measurements: seq<Measurement>, tags: seq<Tag>): (r: Result<seq<Measure>, Error>)
    ensures r.Success? ==> |r.value| == |measurements|
  {
    if measurements == [] then Success([])
    else
      var init := measurements[..|measurements| - 1];
      match Rows(init, tags)
      case Failure(e) => Failure(e)
      case Success(rows) =>
        match MeasureOf(measurements[|measurements| - 1], tags)
        case Failure(e) => Failure(e)
        case Success(row) => Success(rows + [row])
  }

  /** Building rows succeeds iff every measurement's row can be built, and row i is then the
      row of measurement i. */
  lemma {:induction false} RowsAll(measurements: seq<Measurement>, tags: seq<Tag>)
    ensures var r := Rows(measurements, tags);
      (r.Success? <==> forall i :: 0 <= i < |measurements| ==> MeasureOf(measurements[i], tags).Success?) &&
      (r.Success? ==> forall i :: 0 <= i < |measurements| ==> r.value[i] == MeasureOf(measurements[i], tags).value)
  {
    if measurements != [] {
      var init := measurements[..|measurements| - 1];
      RowsAll(init, tags);
      assert forall i :: 0 <= i < |init| ==> init[i] == measurements[i];
    }
  }

  /** The log line for one post result, if it is an error. */
  function LogOf(result: PostResult): seq<LogLine>
  {
    if !result.isError then []
    else if result.response.Some? then [PostError(result.response.value.code, result.response.value.body)]
    else [PostErrorNoResponse]
  }

  /** The error lines for a list of post results: one per error result, in order. */
  function ErrorLogs(results: seq<PostResult>): seq<LogLine>
  {
    if results == [] then []
    else ErrorLogs(results[..|results| - 1]) + LogOf(results[|results| - 1])
  }

  /** Logging a concatenation logs each part in turn. */
  lemma {:induction false} ErrorLogsConcat(a: seq<PostResult>, b: seq<PostResult>)
    ensures ErrorLogs(a + b) == ErrorLogs(a) + ErrorLogs(b)
    decreases |b|
  {
    if b == [] {
      assert a + b == a;
    } else {
      var b' := b[..|b| - 1];
      var last := b[|b| - 1];
      assert (a + b)[..|a + b| - 1] == a + b';
      assert (a + b)[|a + b| - 1] == last;
      assert ErrorLogs(a + b) == ErrorLogs(a + b') + LogOf(last);
      ErrorLogsConcat(a, b');
      assert ErrorLogs(b) == ErrorLogs(b') + LogOf(last);
    }
  }

  /** Nothing is logged iff no result is an error. */
  lemma {:induction false} ErrorLogsNone(results: seq<PostResult>)
    ensures ErrorLogs(results) == [] <==> forall i :: 0 <= i < |results| ==> !results[i].isError
  {
    if results != [] {
      var init := results[..|results| - 1];
      ErrorLogsNone(init);
      assert forall i :: 0 <= i < |init| ==> init[i] == results[i];
    }
  }

  /** The indices of the error results. */
  function ErrorIndices(results: seq<PostResult>): set<int>
  {
    set i | 0 <= i < |results| && results[i].isError
  }

  /** One more result adds its index exactly when it is an error. */
  lemma ErrorIndicesSnoc(results: seq<PostResult>)
    requires results != []
    ensures var last := |results| - 1;
      ErrorIndices(results) == ErrorIndices(results[..last]) + (if results[last].isError then {last} else {}) &&
      last !in ErrorIndices(results[..last])
  {
    var last := |results| - 1;
    var init := results[..last];
    assert forall i :: 0 <= i < |init| ==> init[i] == results[i];
  }

  /** Every error result yields exactly one line. */
  lemma {:induction false} ErrorLogsCount(results: seq<PostResult>)
    ensures |ErrorLogs(results)| == |ErrorIndices(results)|
  {
    if results != [] {
      var last := |results| - 1;
      var init := results[..last];
      ErrorLogsCount(init);
      ErrorIndicesSnoc(results);
      assert ErrorLogs(results) == ErrorLogs(init) + LogOf(results[last]);
    }
  }

  /** What `run` posts for the collected measurements, or the exception that ends it. */
  function Posted(measurements: seq<Measurement>, tags: seq<Tag>, now: int, interval: int): (r: Result<PostRequest, Error>)
    ensures r.Success? <==> interval != 0 && Rows(measurements, tags).Success?
    ensures r.Success? ==> r.value.period == Int32(interval) && r.value.measures == Rows(measurements, tags).value
  {
    match GetEpoch(now, interval)
    case Failure(e) => Failure(e)
    case Success(epoch) =>
      match Rows(measurements, tags)
      case Failure(e) => Failure(e)
      case Success(rows) => Success(PostRequest(epoch, Int32(interval), rows))
  }

  class Reporter {
    var interval: int
    var running: bool
    const tags: seq<Tag>
    const expansionConfig: ExpandedMetricConfig
    const deltaTracker: DeltaTracker<NameAndTags>

    /** The tracker is seeded from the registry as it is at construction. */
    constructor (expansionConfig: ExpandedMetricConfig, tags: seq<Tag>, registry: Registry, san: Sanitizers)
      ensures interval == 30 && !running
      ensures this.expansionConfig == expansionConfig && this.tags == tags
      ensures fresh(deltaTracker) && deltaTracker.lookup == Seed(Supplied(registry, san))
    {
      interval := 30;
      running := false;
      this.expansionConfig := expansionConfig;
      this.tags := tags;
      var supplied := GetMetrics(registry, san);
      deltaTracker := new DeltaTracker(supplied);
    }

    /** `start`: the interval becomes the period in seconds, then polling is scheduled with
        the period as its delay, which the scheduler refuses unless it is positive; the
        interval is set either way. */
    method Start(period: int, unit: TimeUnit) returns (out: Outcome<Error>)
      modifies this
      ensures interval == ToSeconds(period, unit)
      ensures out.Fail? <==> period <= 0
      ensures out.Fail? ==> out.error == NonPositiveDelay && running == old(running)
      ensures out.Pass? ==> running
    {
      interval := ToSeconds(period, unit);
      if period <= 0 {
        return Fail(NonPositiveDelay);
      }
      running := true;
      out := Pass;
    }

    /** `shutdown`, inherited from the polling reporter. */
    method Shutdown()
      modifies this
      ensures !running && interval == old(interval)
    {
      running := false;
    }

    /** The body of `run` after the measurements are collected: rows are built in order, the
        request is posted through `post`, and each error result is logged; any exception on
        the way is caught and logged once, so `run` always returns. */
    method Run(measurements: seq<Measurement>, now: int, post: PostRequest -> seq<PostResult>)
      returns (request: Option<PostRequest>, logs: seq<LogLine>)
      ensures Posted(measurements, tags, now, interval).Failure? ==>
        request.None? && logs == [PostFailed(Posted(measurements, tags, now, interval).error)]
      ensures Posted(measurements, tags, now, interval).Success? ==>
        request == Some(Posted(measurements, tags, now, interval).value) && logs == ErrorLogs(post(request.value))
    {
      var epoch := GetEpoch(now, interval);
      if epoch.Failure? {
        return None, [PostFailed(epoch.error)];
      }
      var rows: seq<Measure> := [];
      var i := 0;
      while i < |measurements|
        invariant 0 <= i <= |measurements|
        invariant Rows(measurements[..i], tags) == Success(rows)
      {
        var row := AsMeasure(measurements[i], tags);
        assert measurements[..i + 1][..i] == measurements[..i];
        if row.Failure? {
          RowsFailFrom(measurements, tags, i, row.error, |measurements|);
          assert measurements[..|measurements|] == measurements;
          return None, [PostFailed(row.error)];
        }
        rows := rows + [row.value];
        i := i + 1;
      }
      assert measurements[..i] == measurements;
      request := Some(PostRequest(epoch.value, Int32(interval), rows));
      var results := post(request.value);
      logs := [];
      var j := 0;
      while j < |results|
        invariant 0 <= j <= |results|
        invariant logs == ErrorLogs(results[..j])
      {
        assert results[..j + 1][..j] == results[..j];
        logs := logs + LogOf(results[j]);
        j := j + 1;
      }
      assert results[..j] == results;
    }

    /** `reportRegularMetrics`: the registry is flattened by name, aggregates are filtered out,
        and each reportable non-null metric is handed to `process`. A failure is logged and the
        loop goes on, so every reportable non-null metric is dispatched exactly once. */
    method ReportRegularMetrics(registry: Registry, process: (MetricName, Metric) -> Outcome<Error>)
      returns (dispatched: set<MetricName>, failed: set<MetricName>)
      ensures var flattened := FlattenBy(registry, n => n);
        dispatched == set n | n in flattened && n in Reportable(flattened.Keys) && flattened[n].Some?
      ensures var flattened := FlattenBy(registry, n => n);
        failed == set n | n in dispatched && process(n, flattened[n].value).Fail?
    {
      var flattened := FlattenBy(registry, n => n);
      var reportable := FilterAggregates(flattened.Keys);
      dispatched := {};
      failed := {};
      var pending := flattened.Keys;
      while pending != {}
        invariant pending <= flattened.Keys
        invariant dispatched == set n | n in flattened && n !in pending && n in reportable && flattened[n].Some?
        invariant failed == set n | n in dispatched && process(n, flattened[n].value).Fail?
        decreases pending
      {
        var name :| name in pending;
        var metric := flattened[name];
        if name in reportable && metric.Some? {
          dispatched := dispatched + {name};
          var out := process(name, metric.value);
          if out.Fail? {
            failed := failed + {name};
          }
        }
        pending := pending - {name};
      }
    }
  }

  /** Once the row at `i` fails after a clean prefix, every longer prefix fails with that
      error. */
  lemma {:induction false} RowsFailFrom(measurements: seq<Measurement>, tags: seq<Tag>, i: int, e: Error, k: int)
    requires 0 <= i < k <= |measurements|
    requires Rows(measurements[..i], tags).Success? && MeasureOf(measurements[i], tags) == Failure(e)
    ensures Rows(measurements[..k], tags) == Failure(e)
    decreases k
  {
    assert measurements[..k][..k - 1] == measurements[..k - 1];
    if k == i + 1 {
      assert measurements[..k][k - 1] == measurements[i];
    } else {
      RowsFailFrom(measurements, tags, i, e, k - 1);
    }
  }
}
