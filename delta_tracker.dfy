/** DeltaTracker: remembers the last count seen per key and turns monotonically increasing
    counts into per-interval deltas. The key type is a parameter: the NameAndTags-keyed and
    the String-keyed callers both use it. */
module DeltaTracking {
  import opened Wrappers
  import opened Metrics

  /** The delta `getDelta` returns, given the previously stored count (None when the key has
      never been seen, which counts as 0). */
  function Delta(previous: Option<int>, count: int): (d: int)
    ensures d >= 0
    ensures previous.None? && count >= 0 ==> d == count
    ensures previous.Some? && count >= previous.value ==> d + previous.value == count
    ensures d == 0 <==> count <= (if previous.Some? then previous.value else 0)
  {
    var prev := if previous.Some? then previous.value else 0;
    if count < prev then 0 else count - prev
  }

  /** Whether the constructor seeds an entry: metered metrics (meters and timers) and
      histograms. */
  predicate IsSeeded(metric: Option<Metric>)
  {
    metric.Some? && (metric.value.IsMetered() || metric.value.Histogram?)
  }

  function SeedCount(metric: Option<Metric>): int
    requires IsSeeded(metric)
  {
    metric.value.count
  }

  /** The lookup the constructor builds from the supplier's map. */
  function Seed<K>(supplied: map<K, Option<Metric>>): (lookup: map<K, int>)
    ensures forall k :: k in lookup ==> k in supplied && IsSeeded(supplied[k]) && lookup[k] == supplied[k].value.count
    ensures forall k :: k in supplied && IsSeeded(supplied[k]) ==> k in lookup
  {
    map k | k in supplied && IsSeeded(supplied[k]) :: SeedCount(supplied[k])
  }

  class DeltaTracker<K(==)> {
    var lookup: map<K, int>

    /** Seeds the lookup from the supplier's current view of the registry. */
    constructor (supplied: map<K, Option<Metric>>)
      ensures lookup == Seed(supplied)
    {
      var acc: map<K, int> := map[];
      var remaining := supplied.Keys;
      while remaining != {}
        invariant remaining <= supplied.Keys
        invariant forall k :: k in acc <==> k in supplied && k !in remaining && IsSeeded(supplied[k])
        invariant forall k :: k in acc ==> acc[k] == supplied[k].value.count
        decreases remaining
      {
        var k :| k in remaining;
        var metric := supplied[k];
        if metric.Some? && metric.value.IsMetered() {
          acc := acc[k := metric.value.count];
        }
        if metric.Some? && metric.value.Histogram? {
          acc := acc[k := metric.value.count];
        }
        remaining := remaining - {k};
      }
      lookup := acc;
    }

    /** The stored count for `key`, if any. */
    function Previous(key: K): Option<int>
      reads this
    {
      if key in lookup then Some(lookup[key]) else None
    }

    /** `getDelta`: always stores the new count, even when it went down, and returns the
        clamped delta. */
    method GetDelta(key: K, count: int) returns (delta: int)
      modifies this
      ensures lookup == old(lookup)[key := count]
      ensures delta == Delta(old(Previous(key)), count)
    {
      var previous := Previous(key);
      lookup := lookup[key := count];
      if previous.None? {
        previous := Some(0);
      }
      if count < previous.value {
        return 0;
      }
      return count - previous.value;
    }
  }

  /** The deltas that successive `getDelta` calls on one key return, starting from the
      stored value `previous`. */
  function Deltas(previous: Option<int>, counts: seq<int>): (ds: seq<int>)
    ensures |ds| == |counts|
    decreases counts
  {
    if counts == [] then [] else [Delta(previous, counts[0])] + Deltas(Some(counts[0]), counts[1..])
  }

  function Sum(s: seq<int>): int
  {
    if s == [] then 0 else s[0] + Sum(s[1..])
  }

  /** Each returned delta is the step from the previous reading, clamped at 0: a reset
      (a reading below its predecessor) yields 0, and the next delta is taken from the
      reset value. */
  lemma {:induction false} DeltasAt(previous: int, counts: seq<int>, i: nat)
    requires i < |counts|
    ensures var before := if i == 0 then previous else counts[i - 1];
      Deltas(Some(previous), counts)[i] == (if counts[i] < before then 0 else counts[i] - before)
    decreases counts
  {
    if i > 0 {
      DeltasAt(counts[0], counts[1..], i - 1);
    }
  }

  /** For a seeded count c0 followed by non-decreasing readings, the deltas add up to the
      last reading minus c0: nothing is lost or counted twice. */
  lemma {:induction false} DeltasTelescope(c0: int, counts: seq<int>)
    requires |counts| > 0 && c0 <= counts[0]
    requires forall i :: 0 <= i < |counts| - 1 ==> counts[i] <= counts[i + 1]
    ensures Sum(Deltas(Some(c0), counts)) == counts[|counts| - 1] - c0
    decreases counts
  {
    if |counts| > 1 {
      DeltasTelescope(counts[0], counts[1..]);
    }
  }

  /** A key seeded at c and then read at c + k, k >= 0, yields k; the first delta of a key
      never seen is the reading itself. */
  method SeededThenRead<K(==)>(supplied: map<K, Option<Metric>>, key: K, k: int) returns (delta: int)
    requires key in supplied && IsSeeded(supplied[key]) && k >= 0
    ensures delta == k
  {
    var tracker := new DeltaTracker(supplied);
    delta := tracker.GetDelta(key, supplied[key].value.count + k);
  }
}
