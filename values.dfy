/** The JavaScript values the widget's state object can hold.

    The widget keeps its settings in one plain object that is spread-merged with whatever
    `JSON.parse` returns, so a field can hold any JSON value, not only the one its control
    writes. `Value` is that value space: the JSON scalars (numbers restricted to integers),
    `Composite` for an array or object (carried by its string conversion, the only thing the
    widget ever does with one), and `Undefined`, the result of reading a missing property.
 */
module JsValues {

  datatype Option<+T> = None | Some(value: T)

  datatype Value =
    | Undefined
    | Null
    | Bool(b: bool)
    | Num(n: int)
    | Str(s: string)
    | Composite(text: string)

  /** JavaScript truthiness: `undefined`, `null`, `false`, `0` and `""` are falsy. */
  predicate Truthy(v: Value)
  {
    match v
    case Undefined => false
    case Null => false
    case Bool(b) => b
    case Num(n) => n != 0
    case Str(s) => s != ""
    case Composite(_) => true
  }

  /** `===` between two values: primitives compare by value, an array or object only by
      identity, and no two composites reaching the widget are the same object. */
  predicate StrictEquals(a: Value, b: Value)
  {
    a == b && !a.Composite?
  }

  /** Property read `obj[key]` on a plain object, `undefined` when the key is absent. */
  function Get<K>(obj: map<K, Value>, key: K): (r: Value)
    ensures key in obj ==> r == obj[key]
    ensures key !in obj ==> r == Undefined
  {
    if key in obj then obj[key] else Undefined
  }

  function DigitChar(d: nat): (c: char)
    requires d < 10
    ensures '0' <= c <= '9'
  {
    "0123456789"[d]
  }

  /** Decimal digits of a natural number, most significant first. */
  function NatText(n: nat): (r: string)
    ensures |r| >= 1
    ensures forall i :: 0 <= i < |r| ==> '0' <= r[i] <= '9'
    decreases n
  {
    if n < 10 then [DigitChar(n)] else NatText(n / 10) + [DigitChar(n % 10)]
  }

  /** String conversion, as a template literal `${v}` or a property-key lookup performs it.
      Integers print every digit; JavaScript switches to exponent form ('1e+21') from 10^21 on,
      which this conversion does not model. */
  function ToText(v: Value): (r: string)
    ensures v.Str? ==> r == v.s
    ensures v.Num? ==> |r| >= 1 && (r[0] == '-' <==> v.n < 0)
  {
    match v
    case Undefined => "undefined"
    case Null => "null"
    case Bool(b) => if b then "true" else "false"
    case Num(n) => if n < 0 then "-" + NatText(-n) else NatText(n)
    case Str(s) => s
    case Composite(t) => t
  }
}
