/**
 * The JavaScript primitive values that reach the service as names and
 * settings, and the string conversion the language applies to them when they
 * are used as a dictionary key or concatenated to a string.
 */
module JsValues {

  /** A primitive JavaScript value. Numbers are modelled as integers. */
  datatype JsValue = Null | Undefined | Bool(b: bool) | Number(n: int) | Str(s: string)

  /** JavaScript truthiness of a primitive value. */
  predicate Truthy(v: JsValue)
  {
    match v
    case Null => false
    case Undefined => false
    case Bool(b) => b
    case Number(n) => n != 0
    case Str(s) => s != ""
  }

  /** Whether every character of `s` is a decimal digit. */
  predicate IsDecimal(s: string)
  {
    forall i :: 0 <= i < |s| ==> '0' <= s[i] <= '9'
  }

  /** The number a string of decimal digits denotes, most significant first. */
  function DecimalValue(s: string): nat
    requires IsDecimal(s)
  {
    if s == [] then 0 else DecimalValue(s[..|s| - 1]) * 10 + (s[|s| - 1] as int - '0' as int)
  }

  /** The decimal digits of `n`, most significant first: they denote `n` again. */
  function Digits(n: nat): (s: string)
    ensures |s| > 0
    ensures IsDecimal(s)
    ensures DecimalValue(s) == n
    decreases n
  {
    var last := [('0' as int + n % 10) as char];
    if n < 10 then last else Digits(n / 10) + last
  }

  /**
   * `String(v)`: the key a value is stored under when used as a property name
   * (`registry[name]`, `name in registry`) and the text it contributes to a
   * string concatenation such as `'sceneEnter:' + name`.
   * Only the string "default" itself converts to "default", and only the
   * empty string converts to "".
   */
  function ToJsString(v: JsValue): (s: string)
    ensures s == "default" <==> v == Str("default")
    ensures s == "" <==> v == Str("")
    ensures v.Str? ==> s == v.s
  {
    match v
    case Null => "null"
    case Undefined => "undefined"
    case Bool(b) => if b then "true" else "false"
    case Number(n) =>
      var digits := Digits(if n < 0 then -n else n);
      var text := if n < 0 then "-" + digits else digits;
      assert text[0] == '-' || text[0] == digits[0];
      assert text[0] != "default"[0];
      text
    case Str(s) => s
  }
}
