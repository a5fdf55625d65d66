/**
 * JavaScript values as the components see them once configuration strings
 * have been parsed, and JavaScript truthiness made explicit.
 */
module JsValues {

  /** A value that may be `undefined` (or `null`) */
  datatype Option<+T> = None | Some(value: T)

  /**
   * A parsed JSON value. Numbers are integers here; fractional numbers and
   * NaN do not occur in the configurations the components read.
   */
  datatype Json =
    | JNull
    | JBool(b: bool)
    | JNum(n: int)
    | JStr(s: string)
    | JArr(items: seq<Json>)
    | JObj(fields: map<string, Json>)

  /** Truthiness of a JSON value: null, false, 0 and "" are falsy; arrays and objects are truthy, even empty */
  predicate Truthy(j: Json) {
    match j
    case JNull => false
    case JBool(b) => b
    case JNum(n) => n != 0
    case JStr(s) => s != ""
    case JArr(_) => true
    case JObj(_) => true
  }

  /** Truthiness of a property that may be undefined */
  predicate TruthyValue(v: Option<Json>) {
    v.Some? && Truthy(v.value)
  }

  /** Truthiness of a string property that may be undefined or null */
  predicate TruthyString(s: Option<string>) {
    s.Some? && s.value != ""
  }

  /** `a || b` on two string properties */
  function OrElse(a: Option<string>, b: Option<string>): Option<string> {
    if TruthyString(a) then a else b
  }

  /** `String(s)`, as template concatenation and property keys convert an undefined string */
  function Display(s: Option<string>): string {
    match s
    case Some(v) => v
    case None => "undefined"
  }

  /**
   * A configuration attribute that holds JSON text: falsy (not given),
   * text that `JSON.parse` rejects (or that has the wrong shape for the use
   * made of it), or the parsed value.
   */
  datatype Setting<T> = Unset | Unparsable | Parsed(value: T)
}
