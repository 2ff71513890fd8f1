/** The exceptions the core throws, as values. */
module Errors {
  import opened Wrappers
  import opened Numbers
  import opened Identity

  /** What a rethrown IllegalArgumentException names: an identity or a plain name (either
      possibly null). */
  datatype Subject = OfIdentity(id: Option<NameAndTags>) | OfName(name: Option<string>)

  /** Which message the rethrown exception carries: "Invalid single-gauge measurement ..."
      or "Invalid multi-sample gauge measurement ...". */
  datatype MeasurementKind = SingleGauge | MultiSample

  datatype Error =
    | NotNumeric(number: Num)      // "<n> is not a numeric value"
    | NullParameter                // "Parameter may not be null"
    | ZeroCount                    // complex measurement with a null or zero count
    | EmptyPrefix                  // "Prefix may either be null or a non-empty string"
    | Invalid(kind: MeasurementKind, subject: Subject, cause: Error)
    | NullPointer                  // a null reading dereferenced
    | DivideByZero                 // long division by a zero interval
    | ReporterNotConfigured        // IllegalStateException("reporter not configured")
    | EmptyCollection              // EnumSet.copyOf of an empty, non-EnumSet collection
    | MissingProperty(key: string) // a required broker property that is absent
    | NonPositiveDelay             // scheduling a periodic task with a delay that is not positive
  {
    /** The errors thrown as IllegalArgumentException. */
    predicate IsIllegalArgument()
    {
      NotNumeric? || NullParameter? || ZeroCount? || EmptyPrefix? || Invalid? || EmptyCollection? ||
      MissingProperty? || NonPositiveDelay?
    }
  }
}
