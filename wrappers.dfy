/** Optional values: the model's stand-in for JavaScript `undefined`/`null`
    and Python `None`. */
module Wrappers {

  datatype Option<+T> = None | Some(value: T) {

    /** The value, or `default` when absent (JavaScript `x || d` on a value that is never falsy). */
    function GetOr(default: T): T {
      match this
      case Some(v) => v
      case None => default
    }
  }

  /** JavaScript truthiness of an optional string: present and non-empty. */
  predicate Truthy(x: Option<string>) { x.Some? && x.value != "" }

  /** `x || d` on an optional string. */
  function OrElse(x: Option<string>, d: string): (r: string)
    ensures Truthy(x) ==> r == x.value
    ensures !Truthy(x) ==> r == d
  {
    if Truthy(x) then x.value else d
  }

  /** `x || y` on two optional strings. */
  function OrElseOpt(x: Option<string>, y: Option<string>): (r: Option<string>)
    ensures Truthy(x) ==> r == x
    ensures !Truthy(x) ==> r == y
  {
    if Truthy(x) then x else y
  }

  /** A string entry of a Python dictionary: missing, present as `None`, or a string. */
  datatype Slot = Missing | Null | Str(s: string)

  /** `d.get(key, default)`: the default only when the key is missing. */
  function SlotOr(e: Slot, default: string): (r: Option<string>)
    ensures e.Missing? ==> r == Some(default)
    ensures e.Null? ==> r.None?
    ensures e.Str? ==> r == Some(e.s)
  {
    match e
    case Missing => Some(default)
    case Null => None
    case Str(s) => Some(s)
  }

  /** `d.get(key)`. */
  function SlotValue(e: Slot): (r: Option<string>)
    ensures r.Some? <==> e.Str?
  {
    if e.Str? then Some(e.s) else None
  }

  /** A value in a Python f-string: `None` prints as "None". */
  function PyStr(x: Option<string>): string {
    if x.Some? then x.value else "None"
  }
}
