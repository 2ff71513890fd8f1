/** KafkaAppopticsReporter: the broker plugin. `init` reads the broker properties, builds the
    static tag list and the set of enabled variants, creates the reporter and possibly starts
    it; `startReporter` and `stopReporter` run its lifecycle. */
module Plugin {
  import opened Wrappers
  import opened Client
  import opened Metrics
  import opened Errors
  import opened Expansion
  import opened TagProcessing
  import opened Reporting

  /** The broker's properties, already parsed by type. */
  datatype Properties = Properties(strings: map<string, string>, flags: map<string, bool>, numbers: map<string, int>)

  function GetString(props: Properties, key: string, default: string): string
  {
    if key in props.strings then props.strings[key] else default
  }

  function GetBoolean(props: Properties, key: string, default: bool): bool
  {
    if key in props.flags then props.flags[key] else default
  }

  function GetInt(props: Properties, key: string, default: int): int
  {
    if key in props.numbers then props.numbers[key] else default
  }

  const TOKEN := "appoptics.token"
  const AGENT_IDENTIFIER := "appoptics.agent.identifier"
  const TAGS := "appoptics.tags"
  const ENABLE := "librato.kafka.enable"
  const INTERVAL := "librato.kafka.interval"
  const METRICS_PREFIX := "librato.kafka.metrics"

  /** The static tags: ("source", sanitized identifier) first when the identifier is non-empty,
      then the parsed custom tags when that string is non-empty. */
  function StaticTags(source: string, customTags: string, san: Sanitizers): (tags: seq<Tag>)
    ensures source != "" ==> |tags| >= 1 && tags[0] == Tag("source", san.tagValue(source)) &&
                             tags[1..] == (if customTags != "" then Processed(customTags, san) else [])
    ensures source == "" ==> tags == (if customTags != "" then Processed(customTags, san) else [])
  {
    (if source != "" then [Tag("source", san.tagValue(source))] else [])
      + (if customTags != "" then Processed(customTags, san) else [])
  }

  /** Each variant's default in `init`. */
  function VariantDefault(m: ExpandedMetric): bool
  {
    match m
    case Median => true
    case Pct75 => false
    case Pct95 => true
    case Pct98 => false
    case Pct99 => true
    case Pct999 => true
    case Count => true
    case RateMean => false
    case Rate1Minute => true
    case Rate5Minute => false
    case Rate15Minute => false
  }

  /** The property that switches a variant: "librato.kafka.metrics." followed by its display
      name. */
  function VariantKey(m: ExpandedMetric): string
  {
    BuildMetricName(m, METRICS_PREFIX)
  }

  /** The variants `init` enables. */
  function EnabledVariants(props: Properties): (enabled: set<ExpandedMetric>)
    ensures forall m :: m in enabled <==> GetBoolean(props, VariantKey(m), VariantDefault(m))
  {
    forall m ensures m in AllVariants { AllVariantsComplete(m); }
    set m | m in AllVariants && GetBoolean(props, VariantKey(m), VariantDefault(m))
  }

  /** With no variant property given, exactly median, 95th, 99th, 99.9th, count and the
      1-minute rate are on. */
  lemma DefaultVariants(props: Properties)
    requires forall m :: VariantKey(m) !in props.flags
    ensures EnabledVariants(props) == {Median, Pct95, Pct99, Pct999, Count, Rate1Minute}
  {
    var e := EnabledVariants(props);
    forall m ensures m in e <==> m in {Median, Pct95, Pct99, Pct999, Count, Rate1Minute} {
      assert VariantKey(m) !in props.flags;
    }
  }

  /** `maybeEnableMetric`: the variant is added iff its property (or, absent that, its
      default) is true; nothing else changes. */
  function MaybeEnableMetric(props: Properties, metrics: set<ExpandedMetric>, metric: ExpandedMetric,
                             defaultValue: bool): (r: set<ExpandedMetric>)
    ensures forall x :: x in r <==> x in metrics || (x == metric && GetBoolean(props, VariantKey(metric), defaultValue))
  {
    if GetBoolean(props, VariantKey(metric), defaultValue) then metrics + {metric} else metrics
  }

  /** Enabling a variant only ever adds it: the set grows, a repeated call changes nothing,
      and the order of two calls does not matter. */
  lemma MaybeEnableMetricLaws(props: Properties, metrics: set<ExpandedMetric>, more: set<ExpandedMetric>,
                              m: ExpandedMetric, d: bool, n: ExpandedMetric, e: bool)
    ensures metrics <= MaybeEnableMetric(props, metrics, m, d)
    ensures MaybeEnableMetric(props, MaybeEnableMetric(props, metrics, m, d), m, d) == MaybeEnableMetric(props, metrics, m, d)
    ensures metrics <= more ==> MaybeEnableMetric(props, metrics, m, d) <= MaybeEnableMetric(props, more, m, d)
    ensures MaybeEnableMetric(props, MaybeEnableMetric(props, metrics, m, d), n, e) ==
            MaybeEnableMetric(props, MaybeEnableMetric(props, metrics, n, e), m, d)
  {
  }

  /** The variant set `init` builds is refused exactly when every variant property (or its
      default) is false; with no variant property given it is accepted. */
  lemma ConfigNeedsAVariant(props: Properties)
    ensures NewExpandedMetricConfig(EnabledVariants(props)).Failure? <==>
      forall m :: !GetBoolean(props, VariantKey(m), VariantDefault(m))
    ensures (forall m :: VariantKey(m) !in props.flags) ==> NewExpandedMetricConfig(EnabledVariants(props)).Success?
  {
    if forall m :: VariantKey(m) !in props.flags {
      DefaultVariants(props);
    }
  }

  /** Which tags the static list holds: the source tag when the identifier is non-empty, and
      every tag some comma part of a custom-tag string containing "=" yields; there is at
      most one tag per part plus the source tag. */
  lemma StaticTagsMembers(source: string, customTags: string, san: Sanitizers)
    ensures |StaticTags(source, customTags, san)| <= 1 + |RawTags(customTags)|
    ensures forall t :: t in StaticTags(source, customTags, san) <==>
      (source != "" && t == Tag("source", san.tagValue(source))) ||
      (customTags != "" && '=' in customTags &&
       exists i :: 0 <= i < |RawTags(customTags)| && TagOf(RawTags(customTags)[i], san) == Some(t))
  {
    ProcessRules(customTags, san);
  }

  /** The tag-building half of `init`. */
  method BuildStaticTags(props: Properties, san: Sanitizers) returns (tags: seq<Tag>)
    ensures tags == StaticTags(GetString(props, AGENT_IDENTIFIER, ""), GetString(props, TAGS, ""), san)
  {
    tags := [];
    var source := GetString(props, AGENT_IDENTIFIER, "");
    if source != "" {
      tags := tags + [Tag("source", san.tagValue(source))];
    }
    var customTags := GetString(props, TAGS, "");
    if customTags != "" {
      var custom := Process(customTags, san);
      tags := tags + custom;
    }
  }

  /** The eleven `maybeEnableMetric` calls of `init`, in source order. */
  method EnableVariants(props: Properties) returns (metrics: set<ExpandedMetric>)
    ensures metrics == EnabledVariants(props)
  {
    metrics := {};
    metrics := MaybeEnableMetric(props, metrics, Median, true);
    metrics := MaybeEnableMetric(props, metrics, Pct75, false);
    metrics := MaybeEnableMetric(props, metrics, Pct95, true);
    metrics := MaybeEnableMetric(props, metrics, Pct98, false);
    metrics := MaybeEnableMetric(props, metrics, Pct99, true);
    metrics := MaybeEnableMetric(props, metrics, Pct999, true);
    metrics := MaybeEnableMetric(props, metrics, Count, true);
    metrics := MaybeEnableMetric(props, metrics, RateMean, false);
    metrics := MaybeEnableMetric(props, metrics, Rate1Minute, true);
    metrics := MaybeEnableMetric(props, metrics, Rate5Minute, false);
    metrics := MaybeEnableMetric(props, metrics, Rate15Minute, false);
    forall m ensures m in metrics <==> m in EnabledVariants(props) {
      assert m in metrics <==> GetBoolean(props, VariantKey(m), VariantDefault(m));
    }
  }

  /** The properties with which `init` creates a reporter: a token is given and at least
      one variant is on. */
  predicate Configures(props: Properties)
  {
    TOKEN in props.strings && EnabledVariants(props) != {}
  }

  class KafkaAppopticsReporter {
    var reporter: Reporter?

    constructor ()
      ensures reporter == null
    {
      reporter := null;
    }

    /** `init`. The registry and the sanitizers are passed in. A missing token throws
        before anything else happens; with every variant switched off, building the
        configuration throws and no reporter is created; otherwise the reporter is assigned
        and, when enabled, started, which throws (leaving the assigned reporter not running)
        for an interval that is not positive. */
    method Init(props: Properties, registry: Registry, san: Sanitizers) returns (out: Outcome<Error>)
      modifies this
      ensures out.Pass? <==> Configures(props) && (GetBoolean(props, ENABLE, true) ==> GetInt(props, INTERVAL, 30) > 0)
      ensures TOKEN !in props.strings ==> out == Fail(MissingProperty(TOKEN))
      ensures TOKEN in props.strings && EnabledVariants(props) == {} ==> out == Fail(EmptyCollection)
      ensures !Configures(props) ==> reporter == old(reporter)
      ensures Configures(props) ==> reporter != null && fresh(reporter)
      ensures Configures(props) ==>
                reporter.tags == StaticTags(GetString(props, AGENT_IDENTIFIER, ""), GetString(props, TAGS, ""), san) &&
                reporter.expansionConfig == ExpandedMetricConfig(EnabledVariants(props))
      ensures Configures(props) && GetBoolean(props, ENABLE, true) ==>
                reporter.interval == GetInt(props, INTERVAL, 30) &&
                (reporter.running <==> GetInt(props, INTERVAL, 30) > 0) &&
                (out.Fail? ==> out.error == NonPositiveDelay)
      ensures Configures(props) && !GetBoolean(props, ENABLE, true) ==> !reporter.running && reporter.interval == 30
    {
      if TOKEN !in props.strings {
        return Fail(MissingProperty(TOKEN));
      }
      var tags := BuildStaticTags(props, san);
      var metrics := EnableVariants(props);
      var config := NewExpandedMetricConfig(metrics);
      if config.Failure? {
        return Fail(config.error);
      }
      reporter := new Reporter(config.value, tags, registry, san);
      out := Pass;
      if GetBoolean(props, ENABLE, true) {
        out := StartReporter(GetInt(props, INTERVAL, 30));
      }
    }

    /** `startReporter`: refused when no reporter is configured, otherwise the reporter starts
        with the interval in seconds, which it refuses unless the interval is positive. */
    method StartReporter(interval: int) returns (out: Outcome<Error>)
      modifies reporter
      ensures reporter == old(reporter)
      ensures old(reporter) == null ==> out == Fail(ReporterNotConfigured)
      ensures reporter != null ==>
                reporter.interval == interval && (out.Pass? <==> interval > 0) &&
                (out.Pass? ==> reporter.running) &&
                (out.Fail? ==> out.error == NonPositiveDelay && reporter.running == old(reporter.running)) &&
                reporter.tags == old(reporter.tags) && reporter.expansionConfig == old(reporter.expansionConfig)
    {
      if reporter == null {
        return Fail(ReporterNotConfigured);
      }
      out := reporter.Start(interval, Seconds);
    }

    /** `stopReporter`: shuts a configured reporter down and forgets it; with none it does
        nothing. */
    method StopReporter()
      modifies this, reporter
      ensures reporter == null
      ensures old(reporter) != null ==> !old(reporter).running
    {
      if reporter != null {
        reporter.Shutdown();
        reporter := null;
      }
    }
  }

  /** Stopping twice is harmless, and a stopped plugin refuses to start again. */
  method StopThenStart(props: Properties, registry: Registry, san: Sanitizers) returns (out: Outcome<Error>)
    ensures out == Fail(ReporterNotConfigured)
  {
    var plugin := new KafkaAppopticsReporter();
    var _ := plugin.Init(props, registry, san);
    plugin.StopReporter();
    plugin.StopReporter();
    out := plugin.StartReporter(30);
  }
}
