/**
 * The part of PHP's runtime that the task relies on: null, string and
 * string-keyed array values, `isset`, the string conversion performed by `.`
 * and `sprintf('%s', ...)`, reading an array entry, `array_merge`, and the
 * exceptions that can end the task.
 */
module Php {
  import opened Wrappers

  /** A PHP value. Integers, floats, booleans and objects are not needed here. */
  datatype Value = Null | Str(s: string) | Arr(entries: map<string, Value>)

  /** The exceptions that can leave the task. */
  datatype Exception =
    | InvalidConfiguration(message: string, code: int)
      // a notice or warning that the error handler turned into an exception
    | UndefinedIndex(key: string)
    | IllegalOffset(key: string)
    | UnlinkFailed(path: string)
      // thrown by code outside this model: the shell service or an included file
    | Foreign(id: nat)

  /** How a statement sequence ended: normally, or by an exception. */
  datatype Outcome = Done | Raised(exception: Exception)

  /** `isset($a[$key])`: the key is present and its value is not null. */
  predicate IsSet(a: map<string, Value>, key: string) {
    key in a && a[key] != Null
  }

  /** The value stored under `key`, null when there is none. */
  function Get(a: map<string, Value>, key: string): (v: Value)
    ensures IsSet(a, key) <==> v != Null
  {
    if key in a then a[key] else Null
  }

  /** String conversion as `.` and `sprintf('%s', ...)` perform it. */
  function ToText(v: Value): string {
    match v
    case Null => ""
    case Str(s) => s
    case Arr(_) => "Array"
  }

  /**
   * The read `$v[$key]` as PHP 5 performs it. A missing key raises a notice
   * and a string offset a warning; `warningsThrow` says whether the error
   * handler turns these into exceptions. Without it the read goes on: a
   * missing key gives null, a string offset (the key taken as offset 0) the
   * first character. Reading from null gives null without any diagnostic.
   */
  function Index(v: Value, key: string, warningsThrow: bool): (r: Result<Value, Exception>)
    ensures r.Err? <==> warningsThrow && (v.Str? || (v.Arr? && key !in v.entries))
    ensures v.Arr? && key in v.entries ==> r == Ok(v.entries[key])
    ensures v.Null? ==> r == Ok(Null)
  {
    match v
    case Null => Ok(Null)
    case Str(s) =>
      if warningsThrow then Err(IllegalOffset(key))
      else Ok(Str(if s == [] then "" else s[..1]))
    case Arr(m) =>
      if key in m then Ok(m[key])
      else if warningsThrow then Err(UndefinedIndex(key))
      else Ok(Null)
  }

  /**
   * `array_merge($a, $b)` for arrays whose keys are all non-numeric strings:
   * every key of either array, and the value of `$b` wherever both have one.
   */
  function ArrayMerge(a: map<string, Value>, b: map<string, Value>): (r: map<string, Value>)
    ensures r.Keys == a.Keys + b.Keys
    ensures forall k :: k in b ==> r[k] == b[k]
    ensures forall k :: k in a && k !in b ==> r[k] == a[k]
  {
    a + b
  }
}
