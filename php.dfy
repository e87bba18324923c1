/** PHP values as the two plugin extensions see them, with the few PHP
    language rules their decisions depend on: `empty()`, `isset()` on an
    array element, reading an array element, and the loose `==` that a
    `switch` statement uses. */
module Php {

  datatype Option<+T> = None | Some(value: T)

  /** A PHP value. Arrays are keyed by strings; floats and objects are not
      modelled. */
  datatype Value =
    | Null
    | Bool(b: bool)
    | Int(i: int)
    | Str(s: string)
    | Arr(entries: map<string, Value>)

  /** PHP `empty($v)` for a string: only "" and "0" are empty. */
  predicate EmptyString(s: string) {
    s == "" || s == "0"
  }

  /** PHP `empty($v)`: null, false, 0, an empty string, "0" or an empty array. */
  predicate Empty(v: Value) {
    match v
    case Null => true
    case Bool(b) => !b
    case Int(i) => i == 0
    case Str(s) => EmptyString(s)
    case Arr(m) => |m| == 0
  }

  /** PHP `$v[$key]`: the element when `$v` is an array holding `$key`,
      otherwise null. */
  function Index(v: Value, key: string): (r: Value)
    ensures r != Null ==> v.Arr? && key in v.entries && r == v.entries[key]
    ensures v.Arr? && key in v.entries ==> r == v.entries[key]
  {
    match v
    case Arr(m) => if key in m then m[key] else Null
    case _ => Null
  }

  /** PHP `isset($v[$key])`: the element exists and is not null. */
  predicate Isset(v: Value, key: string) {
    Index(v, key) != Null
  }

  /** PHP `isset($m[$key])` for an array given as a map. */
  predicate IssetKey(m: map<string, Value>, key: string) {
    key in m && m[key] != Null
  }

  /** A string PHP never reads as a number: it starts with a lower-case letter. */
  predicate IsWord(w: string) {
    |w| > 0 && 'a' <= w[0] <= 'z'
  }

  /** PHP 8 `$v == $w` for a word `$w`: a string equal to it, or `true`
      (a non-empty string other than "0" converts to true). An integer is
      compared as its decimal string, which is never a word, and null
      equals only the empty string. */
  predicate LooseEqualsWord(v: Value, w: string)
    requires IsWord(w)
  {
    match v
    case Str(s) => s == w
    case Bool(b) => b
    case _ => false
  }
}
