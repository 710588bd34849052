/**
 * The WPF value converter that hides an element bound to an empty list:
 * a list with at least one entry is shown, anything else collapses.
 */
module EmptyListConverter {

  /** `System.Windows.Visibility`. */
  datatype Visibility = Visible | Hidden | Collapsed

  /** The bound value, as far as the converter can tell: null, not a list, or a list of some length. */
  datatype BoundValue = Null | NotAList | List(count: nat)

  /** What a converter call produces: a value, or the exception it throws. */
  datatype Outcome<T> = Returned(value: T) | Threw(exceptionType: string)

  /**
   * `Convert`: `Visible` exactly for a non-empty list, `Collapsed` for everything
   * else; the target type, parameter and culture play no part.
   */
  function Convert<TargetType, Parameter, Culture>(
    value: BoundValue, targetType: TargetType, parameter: Parameter, culture: Culture): (r: Visibility)
    ensures r == Visible <==> value.List? && value.count > 0
    ensures r != Hidden
  {
    var visibility := Collapsed;
    match value
    case List(count) => if count > 0 then Visible else visibility
    case _ => visibility
  }

  /** The conversion looks at the bound value only. */
  lemma ConvertIgnoresContext<T, P, C>(value: BoundValue, t1: T, p1: P, c1: C, t2: T, p2: P, c2: C)
    ensures Convert(value, t1, p1, c1) == Convert(value, t2, p2, c2)
  {
  }

  /** `ConvertBack`: never implemented, so it always throws. */
  function ConvertBack<TargetType, Parameter, Culture>(
    value: Visibility, targetType: TargetType, parameter: Parameter, culture: Culture): (r: Outcome<BoundValue>)
    ensures r == Threw("NotImplementedException")
  {
    Threw("NotImplementedException")
  }
}
