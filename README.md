# kafka-appoptics-reporter, modelled in Dafny

A model of the Kafka broker plugin that polls the broker's metrics registry once per interval
and posts the readings to AppOptics. It covers:

- the plugin's lifecycle: `init`, `startReporter` and `stopReporter`;
- the reporter: the collapsing of aggregate metric names, the epoch and period of a post, and
  the logging of post failures;
- the delta tracker, which turns monotonically increasing counts into per-interval deltas, and
  its seeding from the registry;
- the metric batch: prefixing, the gated derived variants (percentiles, rates, count), the
  summary row, and the order in which rows are appended;
- the measurement classes and their argument checks;
- metric identities (`NameAndTags`): name parsing, scope-to-tag parsing, equality and hash;
- the parsing of the custom tag string, and the expanded-metric enumeration.

Java exceptions are values. `Result` is a returned value or a thrown error. `Outcome` is a
`void` call that either returned or threw. A Java `null` is `Option.None`.

`Num` models a Java `Number`: a finite real, NaN, or one of the two infinities. Long counts are
unbounded integers. The `(int) interval` cast and `hashCode` arithmetic are written out as
32-bit wrap-around.

The four sanitizers (metric name, tag name, tag value, last pass) are the library's. The model
receives them as a record of functions, `Client.Sanitizers`, and never looks inside them.

The code comes from different revisions, so it is not uniform:

- `AppopticsBatch`, `KafkaMetricsBatch`, `SingleValueGaugeMeasurement` and
  `CounterMeasurement` key everything by `String`.
- `Reporter`, `Measurement`, `SimpleMeasurement`, `MultiSampleMeasurement` and
  `DeltaTracker` use `NameAndTags`.

The model keeps both sides. `DeltaTracker` is generic in its key so that both sides can use it.

Behaviour of the code that a reader may not expect, and that the model keeps:

- `KafkaMetricsBatch.addCounter` emits the counter's raw count as a gauge. It does not consult
  the delta tracker, so a counter at 100 on construction and 150 at the tick reports 150, not 50
  (`KafkaMetricsBatch.AddCounter`).
- `getEpoch` uses Java's `long` division, which truncates toward zero. For a negative clock it
  rounds up, not down (`Reporting.EpochAligned`).
- The aggregate filter groups names by group, type and name concatenated with no separator.
  So `("ab","c","d")` and `("a","bc","d")` fall into one group (`Reporting.CollidingKeys`).
- `TagProcessor.process` tests the sanitized key and value for emptiness. It then stores the
  raw, unsanitized parts. It checks the *whole* string for `=`, not each part.
- `MultiSampleMeasurement` rejects only a null or zero count, so a negative count is accepted.
  A failure in its `super` call carries the single-gauge message.
- The summary row (`MultiSampleGaugeMeasurement`) is added without the batch prefix.
- A NaN or infinite rate or percentile throws from `maybeAdd`. The rest of that
  `addMetered`/`addSampling` call is skipped, and the rows already appended stay.
- With every expanded variant switched off, `init` hands `EnumSet.copyOf` an empty `HashSet`.
  That throws, and no reporter is created (`Plugin.KafkaAppopticsReporter.Init`).
- `appoptics.token` has no default, so `init` throws before anything else when it is absent.
- `Reporter.start` sets the interval before scheduling. A period that is not positive is then
  refused by the scheduler, so `init` with reporting enabled and such an interval throws after
  the reporter is assigned, and that reporter never runs (`Reporting.Reporter.Start`).

Each module corresponds to one source file. The exceptions are `Wrappers`, `Numbers`,
`Client`, `Metrics`, `JavaStrings` and `Errors`: they model the library types and the Java
behaviour the code relies on, such as `String.split`.

## Model

| member | source | states |
|---|---|---|
| Plugin.StaticTagsMembers | src/main/java/com/appoptics/integrations/kafka/broker/KafkaAppopticsReporter.java:33-42 | a tag is static exactly when it is the ("source", sanitized identifier) tag of a non-empty identifier or is yielded by some comma part of a custom-tag string that contains "="; there is at most one tag per part plus the source tag |
| Plugin.BuildStaticTags | src/main/java/com/appoptics/integrations/kafka/broker/KafkaAppopticsReporter.java:32-42 | the tags built step by step in `init` are the static tags of the identifier and custom-tag properties |
| Plugin.EnabledVariants | src/main/java/com/appoptics/integrations/kafka/broker/KafkaAppopticsReporter.java:46-58 | a variant is enabled exactly when its `librato.kafka.metrics.<display name>` property (or, absent that, its default) is true |
| Plugin.DefaultVariants | src/main/java/com/appoptics/integrations/kafka/broker/KafkaAppopticsReporter.java:47-58 | with no variant property set, exactly median, 95th, 99th, 99.9th percentile, count and the 1-minute rate are enabled |
| Plugin.MaybeEnableMetricLaws | src/main/java/com/appoptics/integrations/kafka/broker/KafkaAppopticsReporter.java:70-79 | enabling only adds: the set grows, repeating a call changes nothing, a larger set stays larger, and two calls commute |
| Plugin.EnableVariants | src/main/java/com/appoptics/integrations/kafka/broker/KafkaAppopticsReporter.java:46-58 | the eleven calls in source order leave exactly the enabled variants |
| Plugin.KafkaAppopticsReporter.constructor | src/main/java/com/appoptics/integrations/kafka/broker/KafkaAppopticsReporter.java:19 | a new plugin has no reporter |
| Plugin.KafkaAppopticsReporter.Init | src/main/java/com/appoptics/integrations/kafka/broker/KafkaAppopticsReporter.java:28-68 | init returns normally exactly when `appoptics.token` is given, some variant is on, and, when `librato.kafka.enable` (default true) holds, `librato.kafka.interval` (default 30) is positive; a missing token fails first with the missing-property error, then no variant fails with the empty-collection error, both leaving the reporter as it was; otherwise a fresh reporter holds the static tags and the enabled variants; when enabled it has the configured interval and runs exactly when that interval is positive (else init fails with the non-positive-delay error, the reporter assigned but idle); when not enabled it is idle at 30 |
| Plugin.KafkaAppopticsReporter.StartReporter | src/main/java/com/appoptics/integrations/kafka/broker/KafkaAppopticsReporter.java:86-94 | with no reporter it throws "reporter not configured"; otherwise the reporter's interval becomes the given seconds, and it starts exactly when the interval is positive, else it throws the non-positive-delay error and stays as it was; its tags and configuration are unchanged |
| Plugin.KafkaAppopticsReporter.StopReporter | src/main/java/com/appoptics/integrations/kafka/broker/KafkaAppopticsReporter.java:96-103 | afterwards there is no reporter, and a reporter that was present has been shut down; with none it does nothing |
| Plugin.StopThenStart | src/main/java/com/appoptics/integrations/kafka/broker/KafkaAppopticsReporter.java:86-103 | after init and two stops, start is refused with "reporter not configured" |
| Reporting.Reportable | src/main/java/com/appoptics/integrations/kafka/broker/Reporter.java:126-144 | the reportable names are a subset of the input; a name is kept exactly when it is alone in its group, or it has a scope |
| Reporting.Grouped | src/main/java/com/appoptics/integrations/kafka/broker/Reporter.java:129-130 | every input name's group key is present, and each key maps to exactly the names that share it |
| Reporting.FilterAggregates | src/main/java/com/appoptics/integrations/kafka/broker/Reporter.java:126-144 | the loop over groups returns exactly the reportable names |
| Reporting.KeptOutsideStep | src/main/java/com/appoptics/integrations/kafka/broker/Reporter.java:134-142 | handling one more group adds exactly the kept names of that group: all of a lone group, only the scoped names of a larger one |
| Reporting.LoneNameKept | src/main/java/com/appoptics/integrations/kafka/broker/Reporter.java:135-137 | a name whose group has no other member is always reported, scoped or not |
| Reporting.CrowdedGroupKeepsScoped | src/main/java/com/appoptics/integrations/kafka/broker/Reporter.java:138-141 | in a group of two or more, a name is reported exactly when it has a scope |
| Reporting.CollidingKeys | src/main/java/com/appoptics/integrations/kafka/broker/Reporter.java:130 | the group key has no separator: ("ab","c","d") and ("a","bc","d") share a group, so the unscoped one is dropped |
| Reporting.GetEpoch | src/main/java/com/appoptics/integrations/kafka/broker/Reporter.java:83-86 | the epoch fails with a division by zero exactly when the interval is zero |
| Reporting.EpochAligned | src/main/java/com/appoptics/integrations/kafka/broker/Reporter.java:83-86 | for a positive interval the epoch is a multiple of it, within one interval of the clock: at or below a non-negative clock, at or above a negative one |
| Reporting.ToSecondsSpec | src/main/java/com/appoptics/integrations/kafka/broker/Reporter.java:97 | `TimeUnit.toSeconds` for every period: seconds unchanged; milliseconds, microseconds and nanoseconds divide truncating toward zero (sign of the period, largest magnitude whose multiple fits); minutes, hours and days give the exact product clamped to the long range |
| Reporting.Rows | src/main/java/com/appoptics/integrations/kafka/broker/Reporter.java:60-61 | converting every collected measurement gives one row per measurement when none fails |
| Reporting.RowsAll | src/main/java/com/appoptics/integrations/kafka/broker/Reporter.java:60-61 | the conversion succeeds exactly when every measurement converts, and then row i is measurement i's row with the static tags |
| Reporting.RowsFailFrom | src/main/java/com/appoptics/integrations/kafka/broker/Reporter.java:61 | once measurement i fails to convert, every longer prefix fails with that same error |
| Reporting.ErrorLogsConcat | src/main/java/com/appoptics/integrations/kafka/broker/Reporter.java:64-77 | the error log of two result lists is the concatenation of their logs |
| Reporting.ErrorLogsNone | src/main/java/com/appoptics/integrations/kafka/broker/Reporter.java:64-77 | nothing is logged exactly when no post result is an error |
| Reporting.ErrorLogsCount | src/main/java/com/appoptics/integrations/kafka/broker/Reporter.java:64-77 | one log line is written per erroneous result |
| Reporting.Posted | src/main/java/com/appoptics/integrations/kafka/broker/Reporter.java:53-63 | the post request exists exactly when the interval is non-zero and every row converts; its period is the interval cast to a 32-bit int and its rows are the converted measurements |
| Reporting.Reporter.constructor | src/main/java/com/appoptics/integrations/kafka/broker/Reporter.java:40-50 | a new reporter is idle at interval 30, keeps the configuration and tags, and owns a fresh delta tracker seeded from the registry through name identities |
| Reporting.Reporter.Start | src/main/java/com/appoptics/integrations/kafka/broker/Reporter.java:94-99 | the interval is always set to the period in seconds; the reporter then runs, unless the period is not positive, in which case scheduling throws the non-positive-delay error and the running state is unchanged |
| Reporting.Reporter.Shutdown | src/main/java/com/appoptics/integrations/kafka/broker/Reporter.java:21 | shutting down stops the reporter and keeps its interval |
| Reporting.Reporter.Run | src/main/java/com/appoptics/integrations/kafka/broker/Reporter.java:52-81 | a request that cannot be built (a zero interval, a null reading) is logged once as a failed post and nothing is sent; otherwise exactly the built request is posted and one log line is written per erroneous result |
| Reporting.Reporter.ReportRegularMetrics | src/main/java/com/appoptics/integrations/kafka/broker/Reporter.java:105-124 | exactly the reportable, non-null entries of the flattened registry are processed, and the failures are exactly those whose processing threw |
| DeltaTracking.Delta | src/main/java/com/appoptics/integrations/kafka/broker/DeltaTracker.java:44-55 | a delta is never negative; with no previous value it is the count; otherwise the count minus the previous value; and it is zero exactly when the count regressed or did not move |
| DeltaTracking.Seed | src/main/java/com/appoptics/integrations/kafka/broker/DeltaTracker.java:23-34 | the seeded lookup holds exactly the metered and histogram entries, each at its current count |
| DeltaTracking.DeltaTracker.constructor | src/main/java/com/appoptics/integrations/kafka/broker/DeltaTracker.java:23-34 | the tracker's lookup is the seed of the supplied map |
| DeltaTracking.DeltaTracker.GetDelta | src/main/java/com/appoptics/integrations/kafka/broker/DeltaTracker.java:44-55 | the count is stored under the key even on regression, and the delta is computed from the previously stored value |
| DeltaTracking.Deltas | src/main/java/com/appoptics/integrations/kafka/broker/DeltaTracker.java:44-55 | feeding a sequence of counts yields one delta per count |
| DeltaTracking.DeltasAt | src/main/java/com/appoptics/integrations/kafka/broker/DeltaTracker.java:44-55 | the i-th delta compares count i with count i-1 (or with the seed for the first), clamped to zero on regression |
| DeltaTracking.DeltasTelescope | src/main/java/com/appoptics/integrations/kafka/broker/DeltaTracker.java:44-55 | for non-decreasing counts, the deltas sum to the last count minus the seed |
| DeltaTracking.SeededThenRead | src/main/java/com/appoptics/integrations/kafka/broker/DeltaTracker.java:23-55 | a metric seeded at construction and then read k higher reports k |
| Supplier.GetMetrics | src/main/java/com/appoptics/integrations/kafka/broker/DeltaMetricSupplier.java:25-34 | the nested loop builds exactly the registry flattened by name identity |
| Supplier.SuppliedKeys | src/main/java/com/appoptics/integrations/kafka/broker/DeltaMetricSupplier.java:25-34 | an identity is a key exactly when some registry entry's name maps to it |
| Supplier.SuppliedValue | src/main/java/com/appoptics/integrations/kafka/broker/DeltaMetricSupplier.java:28-31 | a later entry with the same identity overwrites an earlier one: the last one wins |
| Metrics.EntriesCover | src/main/java/com/appoptics/integrations/kafka/broker/DeltaMetricSupplier.java:27-28 | flattening the groups keeps every entry, and every flattened entry comes from some group |
| Metrics.PutAllKeys | src/main/java/com/appoptics/integrations/kafka/broker/Reporter.java:109-110 | after `putAll` a key is present exactly when it was before or some entry maps to it |
| Metrics.PutAllLast | src/main/java/com/appoptics/integrations/kafka/broker/Reporter.java:109-110 | the last entry for a key determines its value |
| Identity.OfNameRendered | src/main/java/com/appoptics/integrations/kafka/broker/NameAndTags.java:18-22 | a plain-name identity renders as that name, and no suffixed identity equals it |
| Identity.WithSuffixLaws | src/main/java/com/appoptics/integrations/kafka/broker/NameAndTags.java:36-50 | a suffixed identity renders as name "." sanitized suffix (the name alone when that is empty); a second suffix replaces the first; suffixing an unsuffixed identity changes the key; two suffixes give equal identities exactly when they sanitize alike |
| Identity.RenderedCases | src/main/java/com/appoptics/integrations/kafka/broker/NameAndTags.java:40-50 | the rendered name is the name alone, or with a non-empty suffix, name "." suffix |
| Identity.EqualsIsValueEquality | src/main/java/com/appoptics/integrations/kafka/broker/NameAndTags.java:56-69 | `equals` holds exactly when name, suffix and tags agree, and equal identities have equal hashes |
| Identity.StringHashSnoc | src/main/java/com/appoptics/integrations/kafka/broker/NameAndTags.java:66-69 | `String.hashCode` lies in the int range and folds one more character as `31 * h + c` with 32-bit wrap-around |
| Identity.StringHashExamples | src/main/java/com/appoptics/integrations/kafka/broker/NameAndTags.java:66-69 | the hash of "", "a" and "ab" is Java's: 0, 97 and 3105 |
| Identity.HashCodeRange | src/main/java/com/appoptics/integrations/kafka/broker/NameAndTags.java:66-69 | `hashCode` lies in the int range |
| Identity.HashCodeExamples | src/main/java/com/appoptics/integrations/kafka/broker/NameAndTags.java:66-69 | an identity with neither suffix nor tags hashes as `Objects.hash(name, null, emptyList())`: 29792 for "", 123009 for "a" |
| Identity.FromMetricNameLaws | src/main/java/com/appoptics/integrations/kafka/broker/NameAndTags.java:24-28 | a registry name's identity renders as its parsed name with no suffix and carries the scope tags; names differing only in scope share the parsed name and are equal keys exactly when their scope tags agree |
| Identity.Int32 | src/main/java/com/appoptics/integrations/kafka/broker/NameAndTags.java:66-69 | the 32-bit wrap lies in the int range and is congruent to its argument modulo 2^32 |
| Identity.PairTagsAt | src/main/java/com/appoptics/integrations/kafka/broker/NameAndTags.java:97-102 | an even list of scope parts gives one tag per pair, the sanitized key and value of that pair |
| Identity.PairTagsSnoc | src/main/java/com/appoptics/integrations/kafka/broker/NameAndTags.java:98-101 | one more pair of parts appends exactly one more tag |
| Identity.ScopeTagsRules | src/main/java/com/appoptics/integrations/kafka/broker/NameAndTags.java:91-109 | no scope gives no tags; an even number of dot-separated parts gives the pairs; an odd number gives a single ("scope", sanitized scope) tag |
| Identity.DotlessScope | src/main/java/com/appoptics/integrations/kafka/broker/NameAndTags.java:103-105 | a scope with no dot becomes one "scope" tag |
| Identity.TwoPairScope | src/main/java/com/appoptics/integrations/kafka/broker/NameAndTags.java:94-102 | "k1.v1.k2.v2" becomes the two sanitized tags in order |
| Identity.ParseTags | src/main/java/com/appoptics/integrations/kafka/broker/NameAndTags.java:91-109 | the loop over the split scope builds exactly the scope tags |
| Identity.MemoizedName.constructor | src/main/java/com/appoptics/integrations/kafka/broker/NameAndTags.java:15-16 | a fresh identity has no memoized name |
| Identity.MemoizedName.GetName | src/main/java/com/appoptics/integrations/kafka/broker/NameAndTags.java:40-50 | the returned name is always the rendered identity, and it is memoized |
| Identity.GetNameTwice | src/main/java/com/appoptics/integrations/kafka/broker/NameAndTags.java:40-50 | a memoized second call returns the same name as the first |
| Measurements.BaseConstructorsAgree | src/main/java/com/appoptics/integrations/kafka/broker/Measurement.java:18-32 | a plain-name identity keeps its name, the string constructor sanitizes it, so they agree exactly when the sanitizer leaves the name alone; both refuse null as an illegal argument, only the identity one wrapped in the single-gauge message |
| Measurements.NewSimple | src/main/java/com/appoptics/integrations/kafka/broker/SimpleMeasurement.java:14-21 | succeeds exactly for a present identity and a null or finite reading; each failure names its cause |
| Measurements.NewSimpleNamed | src/main/java/com/appoptics/integrations/kafka/broker/SimpleMeasurement.java:23-30 | succeeds exactly for a present name and a null or finite reading; the name is sanitized |
| Measurements.NewMultiSample | src/main/java/com/appoptics/integrations/kafka/broker/MultiSampleMeasurement.java:20-37 | succeeds exactly for a present identity, a non-zero count and null-or-finite sum, max and min; failures are checked in that order and are illegal-argument errors |
| Measurements.MeasureOf | src/main/java/com/appoptics/integrations/kafka/broker/SimpleMeasurement.java:32-36 | the row fails exactly when a needed field is null; otherwise it keeps name and values, and its tags are the static tags followed by the measurement's own |
| Measurements.AsMeasure | src/main/java/com/appoptics/integrations/kafka/broker/MultiSampleMeasurement.java:39-50 | the tag loops build exactly the row of the measurement |
| Measurements.SimpleRowOfIdentity | src/main/java/com/appoptics/integrations/kafka/broker/SimpleMeasurement.java:14-36 | an accepted non-null reading is finite and becomes a simple row with static then own tags |
| Measurements.NullReadingDeferred | src/main/java/com/appoptics/integrations/kafka/broker/SimpleMeasurement.java:17 | a null reading is accepted at construction and fails only when the row is built |
| Measurements.MultiSampleRowFinite | src/main/java/com/appoptics/integrations/kafka/broker/MultiSampleMeasurement.java:20-50 | an accepted complete multi-sample gives a complex row with finite values and a non-zero count |
| Measurements.NegativeCountAccepted | src/main/java/com/appoptics/integrations/kafka/broker/MultiSampleMeasurement.java:27 | a negative count is not rejected |
| NamedMeasurements.NewSingleValueGauge | src/main/java/com/appoptics/integrations/kafka/broker/SingleValueGaugeMeasurement.java:15-22 | succeeds exactly for a present name and a null or finite reading; failures carry the name and their cause |
| NamedMeasurements.NewCounter | src/main/java/com/appoptics/integrations/kafka/broker/CounterMeasurement.java:13-16 | succeeds exactly for a present name and count; otherwise "may not be null" |
| NamedMeasurements.ToMap | src/main/java/com/appoptics/integrations/kafka/broker/SingleValueGaugeMeasurement.java:28-32 | a gauge or counter maps exactly the key "value" to its reading |
| NamedMeasurements.GaugeNameAndValue | src/main/java/com/appoptics/integrations/kafka/broker/SingleValueGaugeMeasurement.java:15-32 | a valid gauge keeps its name and maps "value" to its reading |
| NamedMeasurements.CounterNameAndValue | src/main/java/com/appoptics/integrations/kafka/broker/CounterMeasurement.java:13-26 | a counter keeps its name and maps "value" to its count |
| Preconditions.CheckNumeric | src/main/java/com/appoptics/integrations/kafka/broker/KafkaMetricsBatch.java:165-174 | null and finite numbers pass through unchanged; NaN and infinities are rejected as "not a numeric value" |
| Preconditions.NumberChecks | src/main/java/com/appoptics/integrations/kafka/broker/KafkaMetricsBatch.java:154-174 | `checkNumeric` passes exactly null and the values `isANumber` accepts, and those are exactly the finite values |
| Preconditions.CheckNumericTwice | src/main/java/com/appoptics/integrations/kafka/broker/SingleValueGaugeMeasurement.java:18 | checking an accepted number again changes nothing |
| Batching.AppopticsBatch.constructor | src/main/java/com/appoptics/integrations/kafka/broker/AppopticsBatch.java:34-44 | a new batch is empty, keeps its size and sanitizes with the last pass after the user's sanitizer |
| Batching.AppopticsBatch.AddMeasurement | src/main/java/com/appoptics/integrations/kafka/broker/AppopticsBatch.java:49-51 | the measurement is appended |
| Batching.AppopticsBatch.AddCounterMeasurement | src/main/java/com/appoptics/integrations/kafka/broker/AppopticsBatch.java:53-55 | a valid counter is appended; an invalid one throws and leaves the batch unchanged |
| Batching.AppopticsBatch.AddGaugeMeasurement | src/main/java/com/appoptics/integrations/kafka/broker/AppopticsBatch.java:57-59 | a valid gauge is appended; an invalid one throws and leaves the batch unchanged |
| Batching.TwoGauges | src/main/java/com/appoptics/integrations/kafka/broker/AppopticsBatch.java:40-59 | two gauges appended in order are both kept, in order |
| Util.DottedPieces | src/main/java/com/appoptics/integrations/kafka/broker/KafkaAppopticsUtil.java:24-29 | a dot-free component joined to the rest by a dot splits off as the first piece |
| Util.NameToStringPieces | src/main/java/com/appoptics/integrations/kafka/broker/KafkaAppopticsUtil.java:23-36 | for dot-free parts, the key splits at its dots back into group, type, name and, when present, scope |
| Util.FlatNameLaws | src/main/java/com/appoptics/integrations/kafka/broker/KafkaAppopticsUtil.java:23-36 | a scope appends "." and the scope to the scope-less flat name, and an identity's parsed name is the sanitized scope-less flat name (NameAndTags.java:84-89) |
| Expansion.BuildMetricNameShape | src/main/java/com/appoptics/integrations/kafka/broker/ExpandedMetric.java:23-25 | a derived name is the base, a dot and the display name |
| Expansion.BuildMetricNameInjective | src/main/java/com/appoptics/integrations/kafka/broker/ExpandedMetric.java:8-25 | distinct (variant, base) pairs give distinct derived names |
| Expansion.AfterLastDotOf | src/main/java/com/appoptics/integrations/kafka/broker/ExpandedMetric.java:23-25 | the text after the last dot of a derived name is the variant's display name |
| Expansion.AllVariantsComplete | src/main/java/com/appoptics/integrations/kafka/broker/ExpandedMetric.java:6-19 | the enumeration has exactly eleven distinct variants |
| Expansion.DisplayNamesDistinct | src/main/java/com/appoptics/integrations/kafka/broker/ExpandedMetric.java:8-19 | display names are distinct, non-empty and dot-free |
| Plugin.ConfigNeedsAVariant | src/main/java/com/appoptics/integrations/kafka/broker/ExpandedMetric.java:38-44 | the configuration of the variants `init` enables is refused exactly when every variant property (or default) is false, and accepted when none is given |
| TagProcessing.ParsePart | src/main/java/com/appoptics/integrations/kafka/broker/TagProcessor.java:27-37 | one comma part yields the raw tag exactly as the tag function says: two "=" pieces whose sanitized forms are non-empty |
| TagProcessing.Process | src/main/java/com/appoptics/integrations/kafka/broker/TagProcessor.java:20-40 | the loop returns exactly the processed tags |
| TagProcessing.ProcessRules | src/main/java/com/appoptics/integrations/kafka/broker/TagProcessor.java:20-40 | with no "=" anywhere nothing is kept; at most one tag per comma-separated part; a tag is kept exactly when some part yields it |
| TagProcessing.SingleTagString | src/main/java/com/appoptics/integrations/kafka/broker/TagProcessor.java:21-25 | without a comma the whole string is the one part |
| TagProcessing.KeptTagIsRaw | src/main/java/com/appoptics/integrations/kafka/broker/TagProcessor.java:28-35 | a kept tag is the raw key and value of a two-piece part whose sanitized key and value are non-empty |
| TagProcessing.KeyValuePart | src/main/java/com/appoptics/integrations/kafka/broker/TagProcessor.java:28-35 | "k=v", and "k=v=" whose trailing empty piece `split` drops, both give the raw tag (k, v) |
| TagProcessing.CollectConcat | src/main/java/com/appoptics/integrations/kafka/broker/TagProcessor.java:26-38 | processing two lists of parts in turn concatenates their tags |
| TagProcessing.CollectLength | src/main/java/com/appoptics/integrations/kafka/broker/TagProcessor.java:26-38 | no part yields more than one tag |
| TagProcessing.CollectMember | src/main/java/com/appoptics/integrations/kafka/broker/TagProcessor.java:26-38 | a tag is collected exactly when some part yields it |
| JavaStrings.Pieces | src/main/java/com/appoptics/integrations/kafka/broker/NameAndTags.java:96 | the pieces between separators number one more than the separators, and contain none |
| JavaStrings.StripTrailingEmpty | src/main/java/com/appoptics/integrations/kafka/broker/NameAndTags.java:96 | `split` drops exactly the trailing empty pieces, leaving a prefix that ends non-empty |
| JavaStrings.Split | src/main/java/com/appoptics/integrations/kafka/broker/TagProcessor.java:24 | a string without the separator splits to itself; pieces never contain it and never outnumber separators plus one |
| JavaStrings.JoinPieces | src/main/java/com/appoptics/integrations/kafka/broker/NameAndTags.java:96 | joining the pieces with the separator restores the string |
| JavaStrings.LastPieceEmpty | src/main/java/com/appoptics/integrations/kafka/broker/TagProcessor.java:28 | the last piece is empty exactly when the string is empty or ends with the separator |
| JavaStrings.PiecesWithoutSep | src/main/java/com/appoptics/integrations/kafka/broker/TagProcessor.java:21 | a string without the separator is one piece |
| JavaStrings.PiecesCons | src/main/java/com/appoptics/integrations/kafka/broker/NameAndTags.java:96 | a separator-free head followed by the separator splits off as the first piece |
| JavaStrings.SplitJoin | src/main/java/com/appoptics/integrations/kafka/broker/NameAndTags.java:96 | a string not ending in the separator splits into all its pieces, and joining restores it |
| KafkaBatching.Appended | src/main/java/com/appoptics/integrations/kafka/broker/KafkaMetricsBatch.java:83-139 | running a plan of additions appends at most one row per step, and one per step when nothing throws |
| KafkaBatching.AppendedRows | src/main/java/com/appoptics/integrations/kafka/broker/KafkaMetricsBatch.java:83-139 | row i is the measurement built by step i, and a throw comes from the step right after the last appended row |
| KafkaBatching.AppendedPasses | src/main/java/com/appoptics/integrations/kafka/broker/KafkaMetricsBatch.java:83-139 | a plan runs through exactly when every step's construction succeeds |
| KafkaBatching.AppendedConcat | src/main/java/com/appoptics/integrations/kafka/broker/KafkaMetricsBatch.java:99-103 | running two plans in turn stops at the first throw, otherwise concatenates their rows |
| KafkaBatching.PerformedThen | src/main/java/com/appoptics/integrations/kafka/broker/KafkaMetricsBatch.java:90-103 | a plan that ran through followed by another behaves as their concatenation |
| KafkaBatching.PerformedStop | src/main/java/com/appoptics/integrations/kafka/broker/KafkaMetricsBatch.java:90-103 | a throw ends the call: later steps add nothing |
| KafkaBatching.PerformedStopIn | src/main/java/com/appoptics/integrations/kafka/broker/KafkaMetricsBatch.java:125-133 | a throw in an initial part of a plan is the outcome of the whole plan |
| KafkaBatching.SummaryPlan | src/main/java/com/appoptics/integrations/kafka/broker/KafkaMetricsBatch.java:105-123 | the summary row is added (unprefixed) exactly when the rounded count is present and positive |
| KafkaBatching.KafkaMetricsBatch.constructor | src/main/java/com/appoptics/integrations/kafka/broker/KafkaMetricsBatch.java:38-51 | a new batch wraps a fresh empty base batch and keeps configuration, prefix, delimiter and tracker |
| KafkaBatching.KafkaMetricsBatch.AddPrefix | src/main/java/com/appoptics/integrations/kafka/broker/KafkaMetricsBatch.java:141-146 | without a non-empty prefix the name is unchanged; otherwise prefix, delimiter, name |
| KafkaBatching.KafkaMetricsBatch.AddPrefixKeepsName | src/main/java/com/appoptics/integrations/kafka/broker/KafkaMetricsBatch.java:141-146 | a prefixed name ends with the original name |
| KafkaBatching.KafkaMetricsBatch.Gate | src/main/java/com/appoptics/integrations/kafka/broker/KafkaMetricsBatch.java:135-139 | an enabled variant adds one gauge under the prefixed derived name; a disabled one adds nothing |
| KafkaBatching.KafkaMetricsBatch.AddCounterMeasurement | src/main/java/com/appoptics/integrations/kafka/broker/KafkaMetricsBatch.java:57-60 | the counter is added under the prefixed name |
| KafkaBatching.KafkaMetricsBatch.AddGaugeMeasurement | src/main/java/com/appoptics/integrations/kafka/broker/KafkaMetricsBatch.java:62-65 | the gauge is added under the prefixed name, or the call throws |
| KafkaBatching.KafkaMetricsBatch.MaybeAdd | src/main/java/com/appoptics/integrations/kafka/broker/KafkaMetricsBatch.java:135-139 | the batch grows by exactly the gated step, or the step throws |
| KafkaBatching.KafkaMetricsBatch.AddGauge | src/main/java/com/appoptics/integrations/kafka/broker/KafkaMetricsBatch.java:69-77 | a finite number is added as a prefixed gauge; anything else is silently skipped |
| KafkaBatching.KafkaMetricsBatch.AddCounter | src/main/java/com/appoptics/integrations/kafka/broker/KafkaMetricsBatch.java:79-81 | the counter's raw count is added as a prefixed gauge; the tracker is not touched |
| KafkaBatching.KafkaMetricsBatch.AddSummarizable | src/main/java/com/appoptics/integrations/kafka/broker/KafkaMetricsBatch.java:105-123 | the summary plan is performed and never throws |
| KafkaBatching.KafkaMetricsBatch.AddSampling | src/main/java/com/appoptics/integrations/kafka/broker/KafkaMetricsBatch.java:125-133 | the six percentile steps run in order until the first throw |
| KafkaBatching.KafkaMetricsBatch.AddRates | src/main/java/com/appoptics/integrations/kafka/broker/KafkaMetricsBatch.java:92-96 | count and the four rate steps run in order until the first throw |
| KafkaBatching.KafkaMetricsBatch.AddMetered | src/main/java/com/appoptics/integrations/kafka/broker/KafkaMetricsBatch.java:90-97 | the tracker records the new count, and the metered plan runs with its delta from the previous count |
| KafkaBatching.KafkaMetricsBatch.AddHistogram | src/main/java/com/appoptics/integrations/kafka/broker/KafkaMetricsBatch.java:83-88 | the tracker records the new count; count delta, summary and percentiles are added in that order until the first throw |
| KafkaBatching.KafkaMetricsBatch.AddTimer | src/main/java/com/appoptics/integrations/kafka/broker/KafkaMetricsBatch.java:99-103 | the metered plan, summary and percentiles run in that order, the tracker recording the count |
| KafkaBatching.Create | src/main/java/com/appoptics/integrations/kafka/broker/KafkaMetricsBatch.java:38-51 | construction fails exactly for a null configuration ("may not be null") or an empty prefix, checked in that order |
| KafkaBatching.GatedRow | src/main/java/com/appoptics/integrations/kafka/broker/KafkaMetricsBatch.java:135-139 | an enabled variant with a valid reading appends one gauge under the prefixed derived name |
| KafkaBatching.GatedRowRejected | src/main/java/com/appoptics/integrations/kafka/broker/KafkaMetricsBatch.java:135-139 | an enabled variant with NaN or infinity throws, naming the prefixed derived name, and appends nothing |
| KafkaBatching.MeteredOrder | src/main/java/com/appoptics/integrations/kafka/broker/KafkaMetricsBatch.java:90-97 | with all enabled, the steps are count, mean, 1-, 5- and 15-minute rate, in that order |
| KafkaBatching.SamplingOrder | src/main/java/com/appoptics/integrations/kafka/broker/KafkaMetricsBatch.java:125-133 | with all enabled, the steps are median, 75th, 95th, 98th, 99th and 99.9th, in that order |
| KafkaBatching.AdmissibleStepsAppendAll | src/main/java/com/appoptics/integrations/kafka/broker/KafkaMetricsBatch.java:83-139 | when every reading is null or finite, every step appends its row |
| KafkaBatching.HistogramWithNothingEnabled | src/main/java/com/appoptics/integrations/kafka/broker/KafkaMetricsBatch.java:83-88 | with no variant enabled, a histogram adds only its summary row, and only when the count is positive |

## Left out

- HTTP: the client, its builder, URL, token and timeout, and how a request is serialized and split into posts. The post step is a function parameter of `Reporter.Run`.
- Scheduling and threads of the polling reporter: only the `running` flag and the interval are kept.
- The JVM metrics (`reportVmMetrics`): they read the live VM and are not part of this model.
- Floating point: `sum / mean` and `Math.round` in `addSummarizable` are taken as an already-rounded count (`Summary.roundedCount`); `doubleValue` conversions are the identity on `Num`.
- The sanitizer implementations: they are library code; the model takes them as functions.
- DeltaTracking.Delta: does not model 64-bit wrap-around of `count - previous`, because counts are modelled as unbounded integers.
- DeltaTracking.DeltaTracker.GetDelta: does not model the error log on regression.
- KafkaBatching.KafkaMetricsBatch.AddMetered: the batch methods take non-null names; a null name (which the Java code would pass to `addPrefix` and the tracker) is not modelled.
- `MultiSampleGaugeMeasurement` is not part of this model; the summary row is stored as given, without argument checks.
- `Measure.addTag` is library code; it is modelled as an append, without any deduplication the library may do.
- Reporting.GetEpoch: the clock is a parameter, and `Long.MIN_VALUE / -1` overflow is not modelled.
- Property parsing: `VerifiableProperties` is modelled as maps already holding typed values, so a property whose text does not parse as a boolean or integer (which throws in Java) is not modelled.
- `processWith` dispatch from the reporter into the batch is a function parameter of `ReportRegularMetrics`; the `NameAndTags` batch methods it calls are not part of this model.
- Iteration order of `HashMap`/`HashSet`: the sets and maps of the model are unordered.
- Log message text, `toString` and `getMBeanName`.
- Reporting.Reporter.Run: the measurements a tick has just collected are an input, not gathered by the method itself.
- Identity.StringHash: `String.hashCode` is modelled, but `Tag.hashCode` is a parameter, since `Tag` is library code.
- Identity.StringHash: folds over Unicode scalar values, while Java folds over UTF-16 code units, so a string with a character outside the Basic Multilingual Plane (which Java holds as a surrogate pair) hashes differently; for U+1F600 Java gives 1772899 and the model 128512.
