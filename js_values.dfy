/**
 * The JavaScript values the adapters read from parsed JSON bodies, SDK results
 * and configuration objects, with the few operations of the language they use:
 * truthiness, string conversion (template literals, `String(v)`), loose
 * equality `==`, and property access with and without optional chaining.
 */
module JsValues {
  import opened Text

  datatype Option<+T> = None | Some(value: T)

  /** An exception object; the adapters only ever read its `message`. */
  datatype JsError = JsError(message: string)

  /** The outcome of an expression that may throw. */
  datatype Result<+T> = Ok(value: T) | Throw(error: JsError)

  /** A JavaScript value. Numbers are kept opaque and carried by their canonical
    * rendering (`String(n)`), which is all the adapters observe of them.
    * Objects are the plain data objects `JSON.parse` builds. */
  datatype Value =
    | Undefined
    | Null
    | Bool(b: bool)
    | Num(text: string)
    | Str(s: string)
    | Arr(items: seq<Value>)
    | Obj(fields: map<string, Value>)

  /** A configuration object: a bag of named values. */
  type Config = map<string, Value>

  /** `config.key`: absent keys read as `undefined`. */
  function Field(c: Config, key: string): (v: Value)
    ensures key !in c ==> v == Undefined
  {
    if key in c then c[key] else Undefined
  }

  predicate IsNullish(v: Value) {
    v.Undefined? || v.Null?
  }

  /** Truthiness, as `if (v)` and `v || w` test it. */
  predicate Truthy(v: Value) {
    match v
    case Undefined => false
    case Null => false
    case Bool(b) => b
    case Num(t) => t != "0" && t != "NaN"
    case Str(s) => s != ""
    case Arr(_) => true
    case Obj(_) => true
  }

  /** `String(v)`, which is also what `${v}` and `"" + v` produce. An array renders
    * as its elements joined by "," with null and undefined elements empty. */
  function Render(v: Value): string
    decreases v
  {
    match v
    case Undefined => "undefined"
    case Null => "null"
    case Bool(b) => if b then "true" else "false"
    case Num(t) => t
    case Str(s) => s
    case Arr(items) =>
      Join(seq(|items|, i requires 0 <= i < |items| =>
                 if IsNullish(items[i]) then "" else Render(items[i])), ",")
    case Obj(_) => "[object Object]"
  }

  /** The number a string converts to under `==`, as canonical text: surrounding
    * whitespace is ignored and a blank string is zero. */
  function StringAsNumber(s: string): string {
    var t := Trim(s);
    if t == "" then "0" else t
  }

  /** `a == b` (loose equality). Both operands are values read from separately
    * parsed JSON documents or written as literals, so two objects are never the
    * same object. Null and undefined equal only each other; an array or object is
    * first rendered as a string; a boolean compares as the number 1 or 0; a string
    * compared with a number is converted to a number. */
  predicate LooseEq(a: Value, b: Value) {
    match a
    case Undefined => IsNullish(b)
    case Null => IsNullish(b)
    case Bool(x) => NumberLooseEq(if x then "1" else "0", b)
    case Num(t) => NumberLooseEq(t, b)
    case Str(x) => StringLooseEq(x, b)
    case Arr(_) => !b.Arr? && !b.Obj? && StringLooseEq(Render(a), b)
    case Obj(_) => !b.Arr? && !b.Obj? && StringLooseEq(Render(a), b)
  }

  /** `t == b` for the number whose canonical text is `t`. */
  predicate NumberLooseEq(t: string, b: Value) {
    match b
    case Undefined => false
    case Null => false
    case Bool(y) => t == (if y then "1" else "0")
    case Num(u) => t == u
    case Str(y) => t == StringAsNumber(y)
    case Arr(_) => t == StringAsNumber(Render(b))
    case Obj(_) => t == StringAsNumber(Render(b))
  }

  /** `x == b` for the string `x`. */
  predicate StringLooseEq(x: string, b: Value) {
    match b
    case Undefined => false
    case Null => false
    case Bool(y) => StringAsNumber(x) == (if y then "1" else "0")
    case Num(u) => StringAsNumber(x) == u
    case Str(y) => x == y
    case Arr(_) => x == Render(b)
    case Obj(_) => x == Render(b)
  }

  /** Loose equality does not depend on the order of its operands. */
  lemma LooseEqSymmetric(a: Value, b: Value)
    ensures LooseEq(a, b) == LooseEq(b, a)
  {
  }

  /** On two strings, `==` is string equality. */
  lemma LooseEqStrings(x: string, y: string)
    ensures LooseEq(Str(x), Str(y)) <==> x == y
  {
  }

  /** `null == x` and `undefined == x` hold exactly for nullish `x`. */
  lemma LooseEqNullish(a: Value, b: Value)
    requires IsNullish(a)
    ensures LooseEq(a, b) <==> IsNullish(b)
  {
  }

  /** The message of the TypeError thrown by reading a property of null or undefined. */
  function ReadError(v: Value, key: string): JsError {
    JsError("Cannot read properties of " + Render(v) + " (reading '" + key + "')")
  }

  /** `v.key`: throws on null and undefined; a missing property, and any property
    * of a non-object, reads as `undefined`. */
  function Get(v: Value, key: string): (r: Result<Value>)
    ensures r.Throw? <==> IsNullish(v)
    ensures v.Obj? ==> r == Ok(Field(v.fields, key))
  {
    match v
    case Undefined => Throw(ReadError(v, key))
    case Null => Throw(ReadError(v, key))
    case Obj(fields) => Ok(Field(fields, key))
    case _ => Ok(Undefined)
  }

  /** `v?.key`: undefined instead of throwing when `v` is nullish. */
  function OptGet(v: Value, key: string): (r: Value)
    ensures IsNullish(v) ==> r == Undefined
    ensures !IsNullish(v) ==> Get(v, key) == Ok(r)
  {
    if IsNullish(v) then Undefined else Get(v, key).value
  }

  /** `v[n]`: the element of an array, the property named by the index on an
    * object, the character of a string, `undefined` past the end. */
  function Index(v: Value, n: nat): (r: Result<Value>)
    ensures r.Throw? <==> IsNullish(v)
    ensures v.Arr? && n < |v.items| ==> r == Ok(v.items[n])
  {
    match v
    case Undefined => Throw(ReadError(v, NatToString(n)))
    case Null => Throw(ReadError(v, NatToString(n)))
    case Arr(items) => Ok(if n < |items| then items[n] else Undefined)
    case Obj(fields) => Ok(Field(fields, NatToString(n)))
    case Str(s) => Ok(if n < |s| then Str([s[n]]) else Undefined)
    case _ => Ok(Undefined)
  }

  /** `a ?? b`. */
  function Coalesce(a: Value, b: Value): (r: Value)
    ensures !IsNullish(a) ==> r == a
    ensures IsNullish(a) ==> r == b
  {
    if IsNullish(a) then b else a
  }
}
