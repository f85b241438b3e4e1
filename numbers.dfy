/**
 * The language's Number values: an idealised IEEE-754 double.
 *
 * A number is an exact real, one of the two infinities, or NaN. The model
 * keeps the special values and the IEEE rules for them (division by zero
 * gives an infinity or NaN, NaN is unordered and unequal to itself) but
 * performs finite arithmetic exactly: there is no rounding, no overflow to
 * infinity and no signed zero.
 */
module Numbers {

  datatype Num = Finite(r: real) | PosInf | NegInf | NaN

  predicate IsNaN(x: Num) { x.NaN? }

  /** True for every positive real and for +infinity; zero is neither positive nor negative. */
  predicate Positive(x: Num) { (x.Finite? && x.r > 0.0) || x.PosInf? }

  predicate Negative(x: Num) { (x.Finite? && x.r < 0.0) || x.NegInf? }

  predicate IsZero(x: Num) { x.Finite? && x.r == 0.0 }

  function Neg(x: Num): (r: Num)
    ensures IsNaN(r) <==> IsNaN(x)
    ensures Positive(r) <==> Negative(x)
    ensures x.Finite? <==> r.Finite?
    ensures x.Finite? ==> r == Finite(-x.r)
    ensures x.PosInf? <==> r.NegInf?
    ensures x.NegInf? <==> r.PosInf?
  {
    match x
    case Finite(a) => Finite(-a)
    case PosInf => NegInf
    case NegInf => PosInf
    case NaN => NaN
  }

  /** Negating twice gives the number back. */
  lemma NegInvolutive(x: Num)
    ensures Neg(Neg(x)) == x
  {
  }

  function Add(x: Num, y: Num): (r: Num)
    ensures x.Finite? && y.Finite? ==> r == Finite(x.r + y.r)
    ensures IsNaN(x) || IsNaN(y) ==> IsNaN(r)
  {
    match (x, y)
    case (NaN, _) => NaN
    case (_, NaN) => NaN
    case (PosInf, NegInf) => NaN
    case (NegInf, PosInf) => NaN
    case (PosInf, _) => PosInf
    case (_, PosInf) => PosInf
    case (NegInf, _) => NegInf
    case (_, NegInf) => NegInf
    case (Finite(a), Finite(b)) => Finite(a + b)
  }

  function Sub(x: Num, y: Num): Num
  {
    Add(x, Neg(y))
  }

  /** The sign part of a product or quotient of two non-NaN numbers. */
  function SignedInf(negative: bool): Num
  {
    if negative then NegInf else PosInf
  }

  function Mul(x: Num, y: Num): (r: Num)
    ensures x.Finite? && y.Finite? ==> r == Finite(x.r * y.r)
    ensures IsNaN(x) || IsNaN(y) ==> IsNaN(r)
  {
    if IsNaN(x) || IsNaN(y) then NaN
    else if x.Finite? && y.Finite? then Finite(x.r * y.r)
    else if IsZero(x) || IsZero(y) then NaN   // zero times an infinity
    else SignedInf(Negative(x) != Negative(y))
  }

  function Div(x: Num, y: Num): (r: Num)
    ensures x.Finite? && y.Finite? && y.r != 0.0 ==> r == Finite(x.r / y.r)
    ensures IsNaN(x) || IsNaN(y) ==> IsNaN(r)
    ensures IsZero(x) && IsZero(y) ==> IsNaN(r)
  {
    if IsNaN(x) || IsNaN(y) then NaN
    else if x.Finite? && y.Finite? then
      if y.r != 0.0 then Finite(x.r / y.r)
      else if x.r == 0.0 then NaN
      else SignedInf(x.r < 0.0)
    else if !x.Finite? && !y.Finite? then NaN   // infinity over infinity
    else if x.Finite? then Finite(0.0)           // finite over infinity
    else SignedInf(Negative(x) != Negative(y))   // infinity over finite
  }

  /** The position of a non-NaN number on the extended real line. */
  predicate LessThan(x: Num, y: Num)
  {
    match (x, y)
    case (Finite(a), Finite(b)) => a < b
    case (NegInf, PosInf) => true
    case (NegInf, Finite(_)) => true
    case (Finite(_), PosInf) => true
    case _ => false
  }

  /** IEEE equality: NaN equals nothing, not even itself. */
  predicate Equal(x: Num, y: Num)
  {
    !IsNaN(x) && x == y
  }

  predicate Less(x: Num, y: Num) { LessThan(x, y) }

  predicate LessEqual(x: Num, y: Num) { LessThan(x, y) || Equal(x, y) }

  predicate Greater(x: Num, y: Num) { LessThan(y, x) }

  predicate GreaterEqual(x: Num, y: Num) { LessThan(y, x) || Equal(x, y) }

  /** Every comparison with NaN is false; among the other values exactly one of <, ==, > holds. */
  lemma Trichotomy(x: Num, y: Num)
    ensures IsNaN(x) || IsNaN(y) ==> !Less(x, y) && !Greater(x, y) && !Equal(x, y)
    ensures !IsNaN(x) && !IsNaN(y) ==>
      (Less(x, y) && !Equal(x, y) && !Greater(x, y)) ||
      (!Less(x, y) && Equal(x, y) && !Greater(x, y)) ||
      (!Less(x, y) && !Equal(x, y) && Greater(x, y))
  {
  }

  /** Dividing a non-zero finite number by zero gives an infinity of its sign, never a fault. */
  lemma DivisionByZero(a: real)
    requires a != 0.0
    ensures Div(Finite(a), Finite(0.0)) == (if a > 0.0 then PosInf else NegInf)
  {
  }
}
