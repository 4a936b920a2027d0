/** Shared vocabulary of the traceability model: optional values, document
    ids, the user record the scan hook consults, and the two inputs that the
    source reads from the environment (the clock and the random generator). */
module Base {

  /** A value that may be absent: a document field that is unset, or a
      lookup that found nothing. */
  datatype Option<+T> = None | Some(value: T) {

    /** The value, or `default` when absent. */
    function GetOr(default: T): T {
      match this
      case Some(v) => v
      case None => default
    }
  }

  /** JavaScript truthiness of an optional string field: present and not
      the empty string. */
  predicate Filled(x: Option<string>) {
    x.Some? && x.value != ""
  }

  /** A document id (an ObjectId in the source), compared as its string form. */
  type Id = string

  /** The part of a user account the traceability core reads: the display
      name and the role (models/user.js:5 and :10; the role defaults to
      "user" and the schema allows "user" and "admin"). */
  datatype User = User(name: string, role: string)

  const DefaultRole: string := "user"

  /** A real number in [0, 1): what `Math.random()` returns. */
  type UnitReal = r: real | 0.0 <= r < 1.0 witness 0.0

  /** The nondeterministic inputs a handler reads: `Date.now()` in
      milliseconds and one draw of `Math.random()`. */
  datatype Entropy = Entropy(now: nat, random: UnitReal)
}
