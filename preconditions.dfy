/** KafkaMetricsBatch.Preconditions and the batch's `isANumber`. */
module Preconditions {
  import opened Wrappers
  import opened Numbers
  import opened Errors

  /** `isANumber`: neither NaN nor infinite. */
  predicate IsANumber(n: Num)
  {
    !(n.NaN? || n.PosInf? || n.NegInf?)
  }

  /** What `checkNumeric` lets through: null or a finite value. */
  predicate NumericOrNull(n: Option<Num>)
  {
    n.None? || IsANumber(n.value)
  }

  /** `checkNumeric`: null passes through, NaN and the infinities are rejected, a finite
      value comes back unchanged. */
  function CheckNumeric(number: Option<Num>): (r: Result<Option<Num>, Error>)
    ensures r.Success? <==> (number.None? || number.value.Finite?)
    ensures r.Success? ==> r.value == number
    ensures r.Failure? ==> r.error == NotNumeric(number.value) && r.error.IsIllegalArgument()
  {
    match number
    case None => Success(None)
    case Some(n) => if n.NaN? || n.PosInf? || n.NegInf? then Failure(NotNumeric(n)) else Success(number)
  }

  /** `checkNotNull`. */
  function CheckNotNull<T>(x: Option<T>): (r: Result<T, Error>)
    ensures r.Success? <==> x.Some?
    ensures r.Success? ==> r.value == x.value
    ensures r.Failure? ==> r.error == NullParameter
  {
    match x
    case None => Failure(NullParameter)
    case Some(v) => Success(v)
  }

  /** Checking twice is checking once: `SingleValueGaugeMeasurement` applies the check to its
      own result, which changes nothing. */
  lemma CheckNumericTwice(number: Option<Num>)
    ensures var once := CheckNumeric(number);
      once.Success? ==> CheckNumeric(once.value) == once
  {
  }

  /** `isANumber` is the test `checkNumeric` applies: a value passes the check exactly when
      it is null or a number, that is a finite value. */
  lemma NumberChecks(n: Option<Num>)
    ensures NumericOrNull(n) <==> CheckNumeric(n).Success?
    ensures n.Some? ==> (IsANumber(n.value) <==> n.value.Finite?)
  {
  }
}
