/**
 * The values the calculator receives from its four text fields once Java has
 * parsed them. Parsing itself (Integer.parseInt, Double.parseDouble) is not
 * modelled: each field arrives as the outcome of its parse.
 */
module JavaValues {

  /** A Java `int`: Integer.parseInt only produces values in this range. */
  type Int32 = x: int | -0x8000_0000 <= x < 0x8000_0000

  /** The outcome of parsing one text field: NumberFormatException, or a value. */
  datatype Field<T> = NonNumeric | Parsed(value: T)

  /**
   * A Java `double` as Double.parseDouble can return it. Finite values are
   * taken as exact reals; the three special values are kept because the
   * parser accepts the texts "NaN" and "Infinity".
   */
  datatype JavaDouble = Finite(value: real) | NaN | PositiveInfinity | NegativeInfinity

  /** Java's `d < c` for a finite constant `c`: false whenever `d` is NaN. */
  predicate LessThan(d: JavaDouble, c: real)
  {
    match d
    case Finite(v) => v < c
    case NaN => false
    case PositiveInfinity => false
    case NegativeInfinity => true
  }

  /** Java's `d > c` for a finite constant `c`: false whenever `d` is NaN. */
  predicate GreaterThan(d: JavaDouble, c: real)
  {
    match d
    case Finite(v) => v > c
    case NaN => false
    case PositiveInfinity => true
    case NegativeInfinity => false
  }

  /** No comparison with NaN holds, so NaN is neither below nor above any bound. */
  lemma NaNIsUnordered(c: real)
    ensures !LessThan(NaN, c) && !GreaterThan(NaN, c)
  {
  }

  /**
   * For every value other than NaN, "neither below lo nor above hi" means
   * "a finite number in [lo, hi]".
   */
  lemma OrderedOutsideRange(d: JavaDouble, lo: real, hi: real)
    requires !d.NaN?
    ensures !(LessThan(d, lo) || GreaterThan(d, hi)) <==> d.Finite? && lo <= d.value <= hi
  {
  }
}
