/** A Java `Number` as the reporter sees it: a finite value, NaN or an infinity. */
module Numbers {

  datatype Num = Finite(value: real) | NaN | PosInf | NegInf

  /** A Java long count, seen as a Number. */
  function OfLong(count: int): Num
  {
    Finite(count as real)
  }
}
