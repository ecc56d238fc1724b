/**
 * The JavaScript values the SSI screener passes around: the optional
 * fields of a persona or form, their truthiness, and the situation object
 * sent to the library service.
 */
module JsValue {
  import opened Ordered

  /** A property's value: absent (`undefined`), `null`, or a primitive. */
  datatype Value = Undefined | Null | Bool(b: bool) | Num(n: int) | Str(s: string)

  /** JavaScript truthiness: `undefined`, `null`, `false`, `0` and `""` are falsy. */
  predicate Truthy(v: Value) {
    match v
    case Undefined => false
    case Null => false
    case Bool(b) => b
    case Num(n) => n != 0
    case Str(s) => s != ""
  }

  /** `v || fallback`. */
  function Or(v: Value, fallback: Value): Value {
    if Truthy(v) then v else fallback
  }

  /**
   * A person of the situation.  A property that is left off and one set to
   * `undefined` both read as Undefined (and are both dropped when the
   * situation is serialised).
   */
  datatype Person = Person(
    id: string,
    dateOfBirth: Value,
    citizenshipStatus: Value,
    residenceState: Value,
    isBlindOrDisabled: Value,
    refugeeAdmissionDate: Value,
    asylumGrantDate: Value,
    withheldDeportationGrantDate: Value,
    cubanHaitianEntryDate: Value,
    amerasianAdmissionDate: Value)

  /** The `situation` the library service evaluates. */
  datatype Situation = Situation(
    evaluationDate: string,
    primaryPersonId: string,
    people: seq<Person>,
    enrollments: seq<Value>,
    relationships: seq<Value>,
    simpleChecks: seq<Entry<Value>>)
}
