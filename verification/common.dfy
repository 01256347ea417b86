/** Small shared vocabulary: optional values, results with an error value,
    and the three-way trading direction used by the chart, the dashboard
    and the backend alike.
 */
module Common {

  /** A value that may be absent (JavaScript `undefined`/`null`). */
  datatype Option<+T> = None | Some(value: T)

  /** Either a successful value or an error value. */
  datatype Result<+R, +E> = Success(value: R) | Failure(error: E)

  /** The label a reading or a signal carries: 'BUY', 'SELL' or 'NEUTRAL'. */
  datatype Direction = Buy | Sell | Neutral

  /** The text the program uses for a direction. */
  function Label(d: Direction): string
  {
    match d
    case Buy => "BUY"
    case Sell => "SELL"
    case Neutral => "NEUTRAL"
  }

  function Min(a: int, b: int): int
  {
    if a <= b then a else b
  }

  function MinReal(a: real, b: real): real
  {
    if a <= b then a else b
  }

  function MaxReal(a: real, b: real): real
  {
    if a >= b then a else b
  }
}
