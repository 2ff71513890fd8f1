/** ExpandedMetric: the eleven derived variants and the configuration of which to emit. */
module Expansion {
  import opened Wrappers
  import opened Errors

  datatype ExpandedMetric =
    | Median | Pct75 | Pct95 | Pct98 | Pct99 | Pct999
    | Count | RateMean | Rate1Minute | Rate5Minute | Rate15Minute

  /** All variants, in declaration order. */
  const AllVariants: seq<ExpandedMetric> :=
    [Median, Pct75, Pct95, Pct98, Pct99, Pct999, Count, RateMean, Rate1Minute, Rate5Minute, Rate15Minute]

  function DisplayName(m: ExpandedMetric): string
  {
    match m
    case Median => "median"
    case Pct75 => "75th"
    case Pct95 => "95th"
    case Pct98 => "98th"
    case Pct99 => "99th"
    case Pct999 => "999th"
    case Count => "count"
    case RateMean => "meanRate"
    case Rate1Minute => "1MinuteRate"
    case Rate5Minute => "5MinuteRate"
    case Rate15Minute => "15MinuteRate"
  }

  /** `buildMetricName`: the base name, a dot and the display name. */
  function BuildMetricName(m: ExpandedMetric, metric: string): string
  {
    metric + "." + DisplayName(m)
  }

  /** The expanded name starts with the base name, has a dot right after it and ends with
      the display name. */
  lemma BuildMetricNameShape(m: ExpandedMetric, metric: string)
    ensures var r := BuildMetricName(m, metric);
      |r| == |metric| + 1 + |DisplayName(m)| &&
      r[..|metric|] == metric && r[|metric|] == '.' && r[|metric| + 1..] == DisplayName(m)
  {
  }

  /** `ExpandedMetricConfig`: the set is copied at construction, so it is a value here. */
  datatype ExpandedMetricConfig = ExpandedMetricConfig(enabled: set<ExpandedMetric>)
  {
    predicate IsSet(m: ExpandedMetric)
    {
      m in enabled
    }
  }

  /** `new ExpandedMetricConfig(enabled)`: `EnumSet.copyOf` of a plain set refuses an empty
      one; otherwise the configuration enables exactly the given variants. */
  function NewExpandedMetricConfig(enabled: set<ExpandedMetric>): (r: Result<ExpandedMetricConfig, Error>)
    ensures r.Failure? <==> enabled == {}
    ensures r.Failure? ==> r.error == EmptyCollection
    ensures r.Success? ==> forall m :: r.value.IsSet(m) <==> m in enabled
  {
    if enabled == {} then Failure(EmptyCollection) else Success(ExpandedMetricConfig(enabled))
  }

  /** There are exactly eleven variants and every one is listed once. */
  lemma AllVariantsComplete(m: ExpandedMetric)
    ensures m in AllVariants
    ensures |AllVariants| == 11
    ensures forall i, j :: 0 <= i < j < |AllVariants| ==> AllVariants[i] != AllVariants[j]
  {
  }

  /** Display names are pairwise distinct, non-empty and contain no dot. */
  lemma DisplayNamesDistinct(m1: ExpandedMetric, m2: ExpandedMetric)
    ensures m1 != m2 ==> DisplayName(m1) != DisplayName(m2)
    ensures '.' !in DisplayName(m1) && DisplayName(m1) != ""
  {
  }

  /** The text after the last dot (all of `s` if it has none). */
  function AfterLastDot(s: string): string
  {
    if s == [] || s[|s| - 1] == '.' then [] else AfterLastDot(s[..|s| - 1]) + [s[|s| - 1]]
  }

  /** A dot-free suffix that follows a dot is exactly the text after the last dot. */
  lemma {:induction false} AfterLastDotOf(a: string, x: string)
    requires '.' !in x
    ensures AfterLastDot(a + "." + x) == x
  {
    if x != [] {
      var x' := x[..|x| - 1];
      assert (a + "." + x)[..|a + "." + x| - 1] == a + "." + x';
      AfterLastDotOf(a, x');
      assert x' + [x[|x| - 1]] == x;
    }
  }

  /** Expanded names never collide: the full name determines both the base name and the
      variant. */
  lemma BuildMetricNameInjective(m1: ExpandedMetric, base1: string, m2: ExpandedMetric, base2: string)
    requires BuildMetricName(m1, base1) == BuildMetricName(m2, base2)
    ensures m1 == m2 && base1 == base2
  {
    DisplayNamesDistinct(m1, m2);
    DisplayNamesDistinct(m2, m1);
    var full := BuildMetricName(m1, base1);
    AfterLastDotOf(base1, DisplayName(m1));
    AfterLastDotOf(base2, DisplayName(m2));
    assert base1 == full[..|full| - |DisplayName(m1)| - 1] == base2;
  }
}
