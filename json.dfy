/** Small option type shared by the modules of this project. */
module Wrappers {
  datatype Option<+T> = None | Some(value: T)
}

/**
 * Parsed JSON values, and the few JavaScript operators the validator applies
 * to them: property access, `hasOwnProperty`, truthiness, `typeof` and
 * `Array.prototype.includes`.
 */
module Json {
  import opened Wrappers

  datatype J =
    | JNull
    | JBool(b: bool)
    | JNum(n: real)
    | JStr(s: string)
    | JArr(items: seq<J>)
    | JObj(fields: map<string, J>)

  /**
   * `v[k]` for a named key; None stands for `undefined`. Only objects carry
   * own named properties: every key the validator reads is neither an array
   * index nor `length`, so arrays and strings yield `undefined` as well.
   */
  function Prop(v: J, k: string): (r: Option<J>)
    ensures r.Some? <==> Has(v, k)
  {
    if v.JObj? && k in v.fields then Some(v.fields[k]) else None
  }

  /** `v.hasOwnProperty(k)` for a value that is neither null nor undefined. */
  predicate Has(v: J, k: string) {
    v.JObj? && k in v.fields
  }

  /** JavaScript truthiness; `undefined` is falsy. */
  predicate Truthy(o: Option<J>) {
    match o
    case None => false
    case Some(JNull) => false
    case Some(JBool(b)) => b
    case Some(JNum(n)) => n != 0.0
    case Some(JStr(s)) => s != ""
    case Some(JArr(_)) => true
    case Some(JObj(_)) => true
  }

  /** `typeof v === 'object'`, which holds of null and of arrays too. */
  predicate IsObjectType(v: J) {
    v.JNull? || v.JArr? || v.JObj?
  }

  /** `typeof o === 'number'`. */
  predicate IsNum(o: Option<J>) {
    o.Some? && o.value.JNum?
  }

  /** `typeof o === 'string'`. */
  predicate IsStr(o: Option<J>) {
    o.Some? && o.value.JStr?
  }

  /** `typeof o === 'boolean'`. */
  predicate IsBool(o: Option<J>) {
    o.Some? && o.value.JBool?
  }

  /** `Array.isArray(o)`. */
  predicate IsArr(o: Option<J>) {
    o.Some? && o.value.JArr?
  }

  /** `!!o && typeof o === 'string'`: a non-empty string. */
  predicate IsNonEmptyStr(o: Option<J>) {
    o.Some? && o.value.JStr? && o.value.s != ""
  }

  /** `[...].includes(o)` over a list of strings (strict equality). */
  predicate StrIn(o: Option<J>, allowed: set<string>) {
    o.Some? && o.value.JStr? && o.value.s in allowed
  }

  /** `typeof o === 'number' && lo <= o && o <= hi`. */
  predicate NumIn(o: Option<J>, lo: real, hi: real) {
    o.Some? && o.value.JNum? && lo <= o.value.n <= hi
  }

  /** `typeof o === 'number' && o >= lo`. */
  predicate NumAtLeast(o: Option<J>, lo: real) {
    o.Some? && o.value.JNum? && lo <= o.value.n
  }

  /** `Number.isInteger(x)` for a finite number. */
  predicate IsInteger(x: real) {
    x.Floor as real == x
  }
}
