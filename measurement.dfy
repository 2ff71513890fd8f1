/** Measurement, SimpleMeasurement and MultiSampleMeasurement: identity-keyed measurements,
    validated once at construction and turned into transport rows by `asMeasure`. */
module Measurements {
  import opened Wrappers
  import opened Numbers
  import opened Client
  import opened Identity
  import opened Errors
  import opened Preconditions

  /** What the abstract base class holds. */
  datatype Base = Base(name: string, tags: seq<Tag>)

  datatype Measurement =
    | SimpleMeasurement(name: string, tags: seq<Tag>, reading: Option<Num>)
    | MultiSampleMeasurement(name: string, tags: seq<Tag>, count: int,
                             sum: Option<Num>, max: Option<Num>, min: Option<Num>)

  /** `Measurement(NameAndTags)`: the rendered name, suffix included, and the identity's tags;
      a null identity is rethrown with the single-gauge message. */
  function BaseOfIdentity(id: Option<NameAndTags>): (r: Result<Base, Error>)
    ensures r.Success? <==> id.Some?
    ensures r.Success? ==> r.value.name == Rendered(id.value) && r.value.tags == id.value.tags
    ensures r.Failure? ==> r.error == Invalid(SingleGauge, OfIdentity(id), NullParameter)
  {
    match CheckNotNull(id)
    case Failure(e) => Failure(Invalid(SingleGauge, OfIdentity(id), e))
    case Success(nameAndTags) => Success(Base(Rendered(nameAndTags), nameAndTags.tags))
  }

  /** `Measurement(String)`: the sanitized name, no tags; null is not caught, so the bare
      `checkNotNull` error escapes. */
  function BaseOfName(name: Option<string>, san: Sanitizers): (r: Result<Base, Error>)
    ensures r.Success? <==> name.Some?
    ensures r.Success? ==> r.value == Base(san.metricName(name.value), [])
    ensures r.Failure? ==> r.error == NullParameter
  {
    match CheckNotNull(name)
    case Failure(e) => Failure(e)
    case Success(n) => Success(Base(san.metricName(n), []))
  }

  /** `SimpleMeasurement(NameAndTags, Number)`. */
  function NewSimple(id: Option<NameAndTags>, reading: Option<Num>): (r: Result<Measurement, Error>)
    ensures r.Success? <==> id.Some? && NumericOrNull(reading)
    ensures r.Success? ==> r.value == SimpleMeasurement(Rendered(id.value), id.value.tags, reading)
    ensures id.None? ==> r == Failure(Invalid(SingleGauge, OfIdentity(id), NullParameter))
    ensures id.Some? && !NumericOrNull(reading) ==>
      r == Failure(Invalid(SingleGauge, OfIdentity(id), NotNumeric(reading.value)))
  {
    match BaseOfIdentity(id)
    case Failure(e) => Failure(e)
    case Success(base) =>
      match CheckNumeric(reading)
      case Failure(e) => Failure(Invalid(SingleGauge, OfIdentity(id), e))
      case Success(checked) => Success(SimpleMeasurement(base.name, base.tags, checked))
  }

  /** `SimpleMeasurement(String, Number)`: a null name escapes unwrapped, a bad reading is
      rethrown naming the (unsanitized) name. */
  function NewSimpleNamed(name: Option<string>, reading: Option<Num>, san: Sanitizers): (r: Result<Measurement, Error>)
    ensures r.Success? <==> name.Some? && NumericOrNull(reading)
    ensures r.Success? ==> r.value == SimpleMeasurement(san.metricName(name.value), [], reading)
    ensures name.None? ==> r == Failure(NullParameter)
    ensures name.Some? && !NumericOrNull(reading) ==>
      r == Failure(Invalid(SingleGauge, OfName(name), NotNumeric(reading.value)))
  {
    match BaseOfName(name, san)
    case Failure(e) => Failure(e)
    case Success(base) =>
      match CheckNumeric(reading)
      case Failure(e) => Failure(Invalid(SingleGauge, OfName(name), e))
      case Success(checked) => Success(SimpleMeasurement(base.name, base.tags, checked))
  }

  /** `MultiSampleMeasurement(NameAndTags, count, sum, max, min)`. The checks run in source
      order: the identity (whose failure carries the superclass's single-gauge message), the
      count (only null and 0 are rejected), then sum, max and min. */
  function NewMultiSample(id: Option<NameAndTags>, count: Option<int>,
                          sum: Option<Num>, max: Option<Num>, min: Option<Num>): (r: Result<Measurement, Error>)
    ensures r.Success? <==>
      id.Some? && count.Some? && count.value != 0 && NumericOrNull(sum) && NumericOrNull(max) && NumericOrNull(min)
    ensures r.Success? ==>
      r.value == MultiSampleMeasurement(Rendered(id.value), id.value.tags, count.value, sum, max, min)
    ensures id.None? ==> r == Failure(Invalid(SingleGauge, OfIdentity(id), NullParameter))
    ensures id.Some? && (count.None? || count.value == 0) ==>
      r == Failure(Invalid(MultiSample, OfIdentity(id), ZeroCount))
    ensures id.Some? && count.Some? && count.value != 0 && !NumericOrNull(sum) ==>
      r == Failure(Invalid(MultiSample, OfIdentity(id), NotNumeric(sum.value)))
    ensures id.Some? && count.Some? && count.value != 0 && NumericOrNull(sum) && !NumericOrNull(max) ==>
      r == Failure(Invalid(MultiSample, OfIdentity(id), NotNumeric(max.value)))
    ensures id.Some? && count.Some? && count.value != 0 && NumericOrNull(sum) && NumericOrNull(max) &&
            !NumericOrNull(min) ==>
      r == Failure(Invalid(MultiSample, OfIdentity(id), NotNumeric(min.value)))
    ensures r.Failure? ==> r.error.IsIllegalArgument()
  {
    match BaseOfIdentity(id)
    case Failure(e) => Failure(e)
    case Success(base) =>
      if count.None? || count.value == 0 then Failure(Invalid(MultiSample, OfIdentity(id), ZeroCount))
      else
        match (CheckNumeric(sum), CheckNumeric(max), CheckNumeric(min))
        case (Failure(e), _, _) => Failure(Invalid(MultiSample, OfIdentity(id), e))
        case (Success(_), Failure(e), _) => Failure(Invalid(MultiSample, OfIdentity(id), e))
        case (Success(_), Success(_), Failure(e)) => Failure(Invalid(MultiSample, OfIdentity(id), e))
        case (Success(s), Success(mx), Success(mn)) =>
          Success(MultiSampleMeasurement(base.name, base.tags, count.value, s, mx, mn))
  }

  /** The row `asMeasure` builds: static tags first, then the measurement's own, in order.
      Dereferencing a null reading (or a null sum, min or max) throws. */
  function MeasureOf(m: Measurement, staticTags: seq<Tag>): (r: Result<Measure, Error>)
    ensures m.SimpleMeasurement? ==> (r.Success? <==> m.reading.Some?)
    ensures m.MultiSampleMeasurement? ==> (r.Success? <==> m.sum.Some? && m.max.Some? && m.min.Some?)
    ensures r.Failure? ==> r.error == NullPointer
    ensures r.Success? ==> r.value.name == m.name && r.value.tags == staticTags + m.tags
    ensures r.Success? && m.SimpleMeasurement? ==>
      r.value.SimpleMeasure? && r.value.value == m.reading.value
    ensures r.Success? && m.MultiSampleMeasurement? ==>
      r.value.ComplexMeasure? && r.value.sum == m.sum.value && r.value.count == m.count
      && r.value.min == m.min.value && r.value.max == m.max.value
  {
    match m
    case SimpleMeasurement(name, tags, reading) =>
      if reading.None? then Failure(NullPointer)
      else Success(SimpleMeasure(name, reading.value, staticTags + tags))
    case MultiSampleMeasurement(name, tags, count, sum, max, min) =>
      if sum.None? || max.None? || min.None? then Failure(NullPointer)
      else Success(ComplexMeasure(name, sum.value, count, min.value, max.value, staticTags + tags))
  }

  /** `measure.addTag(tag)`: the tag appended at the end. */
  function AddTag(row: Measure, tag: Tag): (r: Measure)
    ensures r.tags == row.tags + [tag]
    ensures r.name == row.name && r.SimpleMeasure? == row.SimpleMeasure?
    ensures r.SimpleMeasure? ==> r.value == row.value
    ensures r.ComplexMeasure? ==>
      r.sum == row.sum && r.count == row.count && r.min == row.min && r.max == row.max
  {
    row.(tags := row.tags + [tag])
  }

  /** `asMeasure`: the row is created, then the tags are added one by one. */
  method AsMeasure(m: Measurement, staticTags: seq<Tag>) returns (r: Result<Measure, Error>)
    ensures r == MeasureOf(m, staticTags)
  {
    var row: Measure;
    match m {
      case SimpleMeasurement(name, tags, reading) =>
        if reading.None? {
          return Failure(NullPointer);
        }
        row := SimpleMeasure(name, reading.value, staticTags);
      case MultiSampleMeasurement(name, tags, count, sum, max, min) =>
        if sum.None? || max.None? || min.None? {
          return Failure(NullPointer);
        }
        row := ComplexMeasure(name, sum.value, count, min.value, max.value, []);
        var i := 0;
        while i < |staticTags|
          invariant 0 <= i <= |staticTags|
          invariant row == ComplexMeasure(name, sum.value, count, min.value, max.value, staticTags[..i])
        {
          assert staticTags[..i + 1] == staticTags[..i] + [staticTags[i]];
          row := AddTag(row, staticTags[i]);
          i := i + 1;
        }
        assert staticTags[..i] == staticTags;
    }
    var own := m.tags;
    var j := 0;
    while j < |own|
      invariant 0 <= j <= |own|
      invariant row == MeasureOf(m, staticTags).value.(tags := staticTags + own[..j])
    {
      assert own[..j + 1] == own[..j] + [own[j]];
      row := AddTag(row, own[j]);
      j := j + 1;
    }
    assert own[..j] == own;
    r := Success(row);
  }

  /** The two ways to name a measurement: a plain-name identity keeps its name as given,
      the string constructor sanitizes it, so the two agree exactly when the sanitizer leaves
      the name alone; a null is refused by both as an illegal argument, but only the
      identity-based one wraps it in the single-gauge message. */
  lemma BaseConstructorsAgree(name: string, san: Sanitizers)
    ensures BaseOfIdentity(Some(Identity.OfName(name))) == Success(Base(name, []))
    ensures BaseOfName(Some(name), san) == Success(Base(san.metricName(name), []))
    ensures BaseOfIdentity(Some(Identity.OfName(name))) == BaseOfName(Some(name), san) <==> san.metricName(name) == name
    ensures BaseOfIdentity(None).error.IsIllegalArgument() && BaseOfName(None, san).error.IsIllegalArgument()
    ensures BaseOfIdentity(None).error.Invalid? && !BaseOfName(None, san).error.Invalid?
  {
    OfNameRendered(name, Identity.OfName(name), "", san);
  }

  /** A simple measurement built from an identity and a non-null reading yields a finite row
      named after the identity, carrying the static tags and then the identity's tags. */
  lemma SimpleRowOfIdentity(id: NameAndTags, reading: Num, staticTags: seq<Tag>)
    requires NewSimple(Some(id), Some(reading)).Success?
    ensures var row := MeasureOf(NewSimple(Some(id), Some(reading)).value, staticTags);
      row == Success(SimpleMeasure(Rendered(id), reading, staticTags + id.tags)) && reading.Finite?
  {
  }

  /** A null reading is accepted at construction and only fails when the row is built. */
  lemma NullReadingDeferred(id: NameAndTags, staticTags: seq<Tag>)
    ensures NewSimple(Some(id), None).Success?
    ensures MeasureOf(NewSimple(Some(id), None).value, staticTags) == Failure(NullPointer)
  {
  }

  /** Every value that reaches a row from a successfully built multi-sample measurement is
      finite, and the fields land where their names say. */
  lemma MultiSampleRowFinite(id: NameAndTags, count: int, sum: Num, max: Num, min: Num, staticTags: seq<Tag>)
    requires NewMultiSample(Some(id), Some(count), Some(sum), Some(max), Some(min)).Success?
    ensures var row := MeasureOf(NewMultiSample(Some(id), Some(count), Some(sum), Some(max), Some(min)).value, staticTags);
      row == Success(ComplexMeasure(Rendered(id), sum, count, min, max, staticTags + id.tags))
      && sum.Finite? && max.Finite? && min.Finite? && count != 0
  {
  }

  /** Only a zero count is rejected: any negative count with numeric fields is accepted. */
  lemma NegativeCountAccepted(id: NameAndTags, count: int, sum: Option<Num>, max: Option<Num>, min: Option<Num>)
    requires count < 0 && NumericOrNull(sum) && NumericOrNull(max) && NumericOrNull(min)
    ensures NewMultiSample(Some(id), Some(count), sum, max, min).Success?
    ensures NewMultiSample(Some(id), Some(count), sum, max, min).value.count == count
  {
  }
}
