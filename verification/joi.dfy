/** The part of Joi's object validation that the request validators use,
    with Joi's default options: a key the shape does not declare is an
    error, `Joi.string()` refuses the empty string unless `.allow("")` is
    given, `.required()` keys must be present and every other key is
    optional. On success Joi returns the body itself as `value`. */
module Joi {
  import opened Base
  import opened Text

  /** A JSON scalar in a request body; numbers are modelled as reals.
      Objects and arrays under a key are not represented. */
  datatype Value = Num(n: real) | Str(s: string) | Bool(b: bool) | Null

  type Body = map<string, Value>

  /** The type constraint of one declared key. */
  datatype Kind =
    | Text(allowEmpty: bool)       // Joi.string(), with .allow("") when allowEmpty
    | Number(min: Option<real>)    // Joi.number(), with .min(m) when present
    | OneOf(options: set<string>)  // Joi.string().valid(...)
    | Boolean                      // Joi.boolean()

  /** `Number.MAX_SAFE_INTEGER`, 2^53 - 1. */
  const MaxSafe: real := 9007199254740991.0

  /** `Joi.number()` refuses a number outside the safe-integer range with
      `number.unsafe`. */
  predicate SafeNumber(n: real) {
    -MaxSafe <= n <= MaxSafe
  }

  /** `Joi.boolean()` takes a boolean, or the strings "true" and "false" in
      any letter case, which it converts. */
  predicate BooleanLike(v: Value) {
    v.Bool? || (v.Str? && Lower(v.s) in {"true", "false"})
  }

  datatype Rule = Rule(kind: Kind, required: bool)

  /** A `Joi.object({...})` schema: declared key to rule. */
  type Shape = map<string, Rule>

  predicate Admits(kind: Kind, v: Value) {
    match kind
    case Text(allowEmpty) => v.Str? && (allowEmpty || v.s != "")
    case Number(min) => v.Num? && SafeNumber(v.n) && (min.None? || v.n >= min.value)
    case OneOf(options) => v.Str? && v.s in options
    case Boolean => BooleanLike(v)
  }

  /** `shape.validate(body)` returns no error. */
  predicate Conforms(body: Body, shape: Shape) {
    && (forall key :: key in body ==> key in shape && Admits(shape[key].kind, body[key]))
    && (forall key :: key in shape && shape[key].required ==> key in body)
  }

  /** The string under `key`, or "" when the key is absent or not a string. */
  function TextAt(body: Body, key: string): (s: string)
    ensures key in body && body[key].Str? ==> s == body[key].s
  {
    if key in body && body[key].Str? then body[key].s else ""
  }

  /** The number under `key`, absent when the key is absent or not a number. */
  function NumberAt(body: Body, key: string): (n: Option<real>)
    ensures n.Some? <==> key in body && body[key].Num?
    ensures n.Some? ==> n.value == body[key].n
  {
    if key in body && body[key].Num? then Some(body[key].n) else None
  }
}
