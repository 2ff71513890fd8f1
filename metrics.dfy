/** The metrics registry the reporter drains (com.yammer.metrics), reduced to what the
    reporter reads from it. */
module Metrics {
  import opened Wrappers
  import opened Numbers

  /** A registry identifier; `scope` is null for an unscoped ("aggregate") metric. */
  datatype MetricName = MetricName(group: string, typeName: string, name: string, scope: Option<string>)

  /** The six percentiles of a snapshot. */
  datatype Snapshot = Snapshot(median: Num, p75: Num, p95: Num, p98: Num, p99: Num, p999: Num)

  /** What `Summarizable` gives the batch. `roundedCount` is `Math.round(sum / mean)` when
      that quotient is a finite number and null otherwise: the floating-point division and
      rounding themselves are not modelled. */
  datatype Summary = Summary(roundedCount: Option<int>, sum: Num, max: Num, min: Num)

  datatype Rates = Rates(mean: Num, oneMinute: Num, fiveMinute: Num, fifteenMinute: Num)

  /** What `Gauge.value()` returns: null, a Number, or some other object. */
  datatype GaugeValue = NullValue | NumberValue(number: Num) | OtherValue

  /** The five metric kinds. A timer is both metered and a histogram-like sampling. */
  datatype Metric =
    | Gauge(value: GaugeValue)
    | Counter(count: int)
    | Histogram(count: int, summary: Summary, snapshot: Snapshot)
    | Meter(count: int, rates: Rates)
    | Timer(count: int, rates: Rates, summary: Summary, snapshot: Snapshot)
  {
    /** `instanceof Metered`: meters and timers. */
    predicate IsMetered() { Meter? || Timer? }
  }

  /** One registry entry; the registry may hand back a null metric. */
  datatype Entry = Entry(name: MetricName, metric: Option<Metric>)

  /** `groupedMetrics(predicate)`: the groups in their sorted order, each with its entries in
      their sorted order. The group names themselves play no part. */
  type Registry = seq<seq<Entry>>

  /** All entries, group after group, in visiting order. */
  function Entries(registry: Registry): seq<Entry>
  {
    if registry == [] then []
    else Entries(registry[..|registry| - 1]) + registry[|registry| - 1]
  }

  /** Flattening keeps every entry of every group, and invents none. */
  lemma {:induction false} EntriesCover(registry: Registry)
    ensures forall g, j :: 0 <= g < |registry| && 0 <= j < |registry[g]| ==> registry[g][j] in Entries(registry)
    ensures forall e :: e in Entries(registry) ==> exists g :: 0 <= g < |registry| && e in registry[g]
  {
    if registry != [] {
      var init := registry[..|registry| - 1];
      EntriesCover(init);
      forall g, j | 0 <= g < |registry| && 0 <= j < |registry[g]|
        ensures registry[g][j] in Entries(registry)
      {
        if g < |registry| - 1 {
          assert init[g] == registry[g];
        }
      }
      forall e | e in Entries(registry)
        ensures exists g :: 0 <= g < |registry| && e in registry[g]
      {
        if e in Entries(init) {
          var g :| 0 <= g < |init| && e in init[g];
          assert registry[g] == init[g];
        } else {
          assert e in registry[|registry| - 1];
        }
      }
    }
  }

  /** One more group appends its entries. */
  lemma EntriesSnoc(registry: Registry, g: nat)
    requires g < |registry|
    ensures Entries(registry[..g + 1]) == Entries(registry[..g]) + registry[g]
  {
    assert registry[..g + 1][..g] == registry[..g];
  }

  /** Putting every entry into a map under `key(name)`, in order: a later entry overwrites an
      earlier one with the same key. */
  function PutAll<K>(m: map<K, Option<Metric>>, es: seq<Entry>, key: MetricName -> K): map<K, Option<Metric>>
  {
    if es == [] then m
    else PutAll(m, es[..|es| - 1], key)[key(es[|es| - 1].name) := es[|es| - 1].metric]
  }

  /** One more entry overwrites its key. */
  lemma PutAllSnoc<K>(m: map<K, Option<Metric>>, es: seq<Entry>, e: Entry, key: MetricName -> K)
    ensures PutAll(m, es + [e], key) == PutAll(m, es, key)[key(e.name) := e.metric]
  {
    assert (es + [e])[..|es|] == es;
  }

  /** The registry flattened into one map keyed by `key`. */
  function FlattenBy<K>(registry: Registry, key: MetricName -> K): map<K, Option<Metric>>
  {
    PutAll(map[], Entries(registry), key)
  }

  /** Every entry's key is present, and nothing else is. */
  lemma {:induction false} PutAllKeys<K>(m: map<K, Option<Metric>>, es: seq<Entry>, key: MetricName -> K, k: K)
    ensures k in PutAll(m, es, key) <==> k in m || exists i :: 0 <= i < |es| && key(es[i].name) == k
  {
    if es != [] {
      var init := es[..|es| - 1];
      PutAllKeys(m, init, key, k);
      if k in PutAll(m, es, key) && k !in m && key(es[|es| - 1].name) != k {
        var i :| 0 <= i < |init| && key(init[i].name) == k;
        assert es[i] == init[i];
      }
      if exists i :: 0 <= i < |es| && key(es[i].name) == k {
        var i :| 0 <= i < |es| && key(es[i].name) == k;
        if i < |init| { assert init[i] == es[i]; }
      }
    }
  }

  /** The value stored under a key is the metric of the LAST entry with that key. */
  lemma {:induction false} PutAllLast<K>(m: map<K, Option<Metric>>, es: seq<Entry>, key: MetricName -> K, i: nat)
    requires i < |es|
    requires forall j :: i < j < |es| ==> key(es[j].name) != key(es[i].name)
    ensures key(es[i].name) in PutAll(m, es, key)
    ensures PutAll(m, es, key)[key(es[i].name)] == es[i].metric
  {
    if i < |es| - 1 {
      var init := es[..|es| - 1];
      assert forall j :: i < j < |init| ==> init[j] == es[j];
      PutAllLast(m, init, key, i);
    }
  }
}
