/** Values of the client's JavaScript runtime that the rest of the model needs
    explicitly: an absent value, numbers that may have become NaN, quotients
    that may be non-finite, and JavaScript's truthiness of optional strings. */
module JsValues {

  /** `undefined` / `null` (None) or a present value (Some). */
  datatype Option<T> = None | Some(value: T) {
    function GetOr(default: T): T {
      match this
      case Some(v) => v
      case None => default
    }
  }

  /** A JavaScript number that holds an integer, or NaN (what `undefined + 1`
      and `undefined - 1` evaluate to). */
  datatype Count = Num(n: int) | NaN

  /** A JavaScript quotient: a finite exact value, or the NaN / Infinity that a
      division by zero (or by NaN) produces. Floating-point rounding is not modelled. */
  datatype Ratio = Finite(value: real) | NonFinite

  /** `c + 1` when `up`, else `c - 1`; NaN stays NaN. */
  function Shift(c: Count, up: bool): (r: Count)
    ensures c.Num? <==> r.Num?
    ensures c.Num? ==> r.n - c.n == (if up then 1 else -1)
  {
    match c
    case Num(n) => Num(if up then n + 1 else n - 1)
    case NaN => NaN
  }

  /** `(numerator / denominator) * 100` on JavaScript numbers. */
  function Percent(numerator: Count, denominator: int): (r: Ratio)
    ensures r.Finite? <==> numerator.Num? && denominator != 0
    ensures r.Finite? ==> r.value * (denominator as real) == (numerator.n as real) * 100.0
  {
    if numerator.NaN? || denominator == 0 then NonFinite
    else Finite(numerator.n as real / denominator as real * 100.0)
  }

  /** JavaScript truthiness of a value that is either absent or a string:
      `undefined`, `null` and the empty string are falsy. */
  predicate Truthy(s: Option<string>) {
    s.Some? && s.value != ""
  }

  /** `s || fallback` for an optional string. */
  function OrElse(s: Option<string>, fallback: string): (r: string)
    ensures Truthy(s) ==> r == s.value
    ensures !Truthy(s) ==> r == fallback
  {
    if Truthy(s) then s.value else fallback
  }

  /** `n || 0` for an optional number: absent and 0 both give 0. */
  function OrZero(n: Option<int>): (r: int)
    ensures n.None? ==> r == 0
    ensures n.Some? ==> r == n.value
  {
    match n
    case Some(v) => v
    case None => 0
  }

  /** `xs || []` for an optional array (an array is always truthy). */
  function OrEmpty<T>(xs: Option<seq<T>>): (r: seq<T>)
    ensures xs.None? ==> r == []
    ensures xs.Some? ==> r == xs.value
  {
    match xs
    case Some(v) => v
    case None => []
  }

  /** What a network request gave back: its result, or the error it threw
      (`error.response?.status`, `error.response?.data?.message`, `error.message`). */
  datatype FetchError = FetchError(responseStatus: Option<int>, responseMessage: Option<string>, message: string)
  datatype Fetched<T> = Returned(result: T) | Threw(failure: FetchError)

  /** Does `s` start with `prefix` (`String.prototype.startsWith`)? */
  predicate StartsWith(s: string, prefix: string) {
    |prefix| <= |s| && s[..|prefix|] == prefix
  }
}
