/**
 * JavaScript values as the job-board scripts see them, and the built-in
 * library operations they call whose behaviour rests on Unicode tables or
 * number parsing.  Those operations are not defined here: they are fields of
 * `Lib`, supplied by the caller, and the only law assumed of them is that
 * `localeCompare` orders strings as a total preorder.
 */
module Js {

  /** The values a field of a job record can hold (JSON numbers as integers). */
  datatype Value = Undefined | Bool(b: bool) | Num(n: int) | Str(s: string)

  /** The result of an expression that either yields a value or throws a TypeError. */
  datatype Outcome<T> = Ok(value: T) | TypeError

  datatype Option<T> = None | Some(value: T)

  /** A job record: a JavaScript object read from the JSON array. */
  type Job = map<string, Value>

  /** `obj[key]`: an absent property reads as `undefined`. */
  function Get(obj: map<string, Value>, key: string): Value
  {
    if key in obj then obj[key] else Undefined
  }

  /** `jobs.map(item => item[key])`. */
  function FieldValues(jobs: seq<Job>, key: string): seq<Value>
  {
    seq(|jobs|, i requires 0 <= i < |jobs| => Get(jobs[i], key))
  }

  /** `!!v`. */
  predicate Truthy(v: Value)
  {
    match v
    case Undefined => false
    case Bool(b) => b
    case Num(n) => n != 0
    case Str(s) => s != ""
  }

  /** `String(v)`; this is also the `value` an `<option>` element ends up with. */
  function ToString(v: Value): string
  {
    match v
    case Undefined => "undefined"
    case Bool(b) => if b then "true" else "false"
    case Num(n) => if n < 0 then "-" + Decimal(-n) else Decimal(n)
    case Str(s) => s
  }

  function Decimal(n: nat): string
  {
    var digit := (48 + n % 10) as char;
    if n < 10 then [digit] else Decimal(n / 10) + [digit]
  }

  /**
   * The library functions the scripts call and this model does not define:
   * `a.localeCompare(b)`, `s.toUpperCase()`,
   * `s.normalize('NFD').replace(/\p{Diacritic}/gu, "")`, `isNaN(s)` for a
   * string `s`, and the loose comparison `n == s` of a number with a string.
   */
  datatype Lib = Lib(
    localeCompare: (string, string) -> int,
    toUpperCase: string -> string,
    stripDiacritics: string -> string,
    isNaN: string -> bool,
    looseEqualsNumber: (int, string) -> bool)

  /** `a.localeCompare(b) <= 0`: `a` may stand before `b`. */
  predicate LocaleLeq(lib: Lib, a: string, b: string)
  {
    lib.localeCompare(a, b) <= 0
  }

  /** A comparator that `Array.prototype.sort` can rely on: a total preorder. */
  ghost predicate LocaleCompareIsPreorder(lib: Lib)
  {
    && (forall a, b :: LocaleLeq(lib, a, b) || LocaleLeq(lib, b, a))
    && (forall a, b, c :: LocaleLeq(lib, a, b) && LocaleLeq(lib, b, c) ==> LocaleLeq(lib, a, c))
  }

  /** The global `isNaN(v)`: true when `Number(v)` is NaN. */
  predicate IsNaN(lib: Lib, v: Value)
  {
    match v
    case Undefined => true
    case Bool(_) => false
    case Num(_) => false
    case Str(s) => lib.isNaN(s)
  }

  /** `b == v` for a boolean `b`: the boolean is compared as the number 0 or 1. */
  predicate LooseEqualsBool(lib: Lib, b: bool, v: Value)
  {
    var n := if b then 1 else 0;
    match v
    case Undefined => false
    case Bool(c) => b == c
    case Num(m) => n == m
    case Str(s) => lib.looseEqualsNumber(n, s)
  }
}
