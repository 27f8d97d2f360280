/** The JavaScript values a request carries (a parsed JSON body, a query
    string entry, a path segment) and the three coercions the handlers
    apply to them: truthiness (`if (x)`, `x && ...`, `x ? a : b`), unary
    plus (`+x`) and string interpolation (`${x}`). Numbers are integers:
    fractions, infinities and NaN literals do not occur in the model. */
module JsValues {
  import opened Wrappers
  import opened Text
  import opened Numbers

  datatype Value =
    | Undefined
    | Null
    | Bool(b: bool)
    | Num(n: int)
    | Str(s: string)
    | Arr(items: seq<Value>)
    | Obj              // any other object

  /** JavaScript truthiness: only `undefined`, `null`, `false`, `0` and the
      empty string are falsy; every array and object is truthy. */
  predicate Truthy(v: Value)
  {
    match v
    case Undefined => false
    case Null => false
    case Bool(b) => b
    case Num(n) => n != 0
    case Str(s) => s != ""
    case Arr(_) => true
    case Obj => true
  }

  /** `String(v)`, as used by template literals. An array prints its
      elements joined by commas, with `undefined` and `null` elements
      printed as empty strings. */
  function ToText(v: Value): string
  {
    match v
    case Undefined => "undefined"
    case Null => "null"
    case Bool(b) => if b then "true" else "false"
    case Num(n) => ShowInt(n)
    case Str(s) => s
    case Arr(items) =>
      Join(seq(|items|, i requires 0 <= i < |items| =>
        if items[i].Undefined? || items[i].Null? then "" else ToText(items[i])), ",")
    case Obj => "[object Object]"
  }

  /** Unary plus: None stands for NaN. Strings, arrays and objects are
      first printed and the text is read as a number. */
  function ToNumber(v: Value): Option<int>
  {
    match v
    case Undefined => None
    case Null => Some(0)
    case Bool(b) => Some(if b then 1 else 0)
    case Num(n) => Some(n)
    case Str(s) => ParseNumber(s)
    case Arr(_) => ParseNumber(ToText(v))
    case Obj => None
  }

  /** `!(isNaN(+v) || +v < 0)`. */
  predicate NonNegative(v: Value)
  {
    ToNumber(v).Some? && ToNumber(v).value >= 0
  }

  /** `!(isNaN(+v) || +v < 1)`. */
  predicate Positive(v: Value)
  {
    ToNumber(v).Some? && ToNumber(v).value >= 1
  }

  /** An optional parameter fails its check when it is truthy and not a
      non-negative number: `v && (isNaN(+v) || +v < 0)`. */
  predicate InvalidOptional(v: Value)
  {
    Truthy(v) && !NonNegative(v)
  }
}
