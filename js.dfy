/** JavaScript values as the handlers and the client code see them: the shapes of
    request bodies, response bodies and plain objects, and JavaScript truthiness. */
module Js {

  datatype Option<+T> = None | Some(value: T)

  datatype Result<+T> = Ok(value: T) | TypeError

  newtype byte = x: int | 0 <= x < 256

  /** A JavaScript value. Numbers are reals (NaN and the infinities are not
      modelled); arrays and objects are compared by contents, not by reference. */
  datatype Value =
    | Undefined
    | Null
    | Bool(b: bool)
    | Num(x: real)
    | Str(s: string)
    | Buffer(bytes: seq<byte>)
    | List(items: seq<Value>)
    | Obj(fields: map<string, Value>)

  /** What `if (v)` and `!v` test. */
  predicate Truthy(v: Value) {
    match v
    case Undefined => false
    case Null => false
    case Bool(b) => b
    case Num(x) => x != 0.0
    case Str(s) => s != ""
    case _ => true  // buffers, arrays and objects are truthy even when empty
  }

  /** Property read `o.k` on a plain object: undefined when the key is missing. */
  function Get(o: map<string, Value>, k: string): Value {
    if k in o then o[k] else Undefined
  }

  /** Property read `v.k` on any value: only objects have fields. */
  function Field(v: Value, k: string): Value {
    if v.Obj? then Get(v.fields, k) else Undefined
  }

  /** A string that may be null or undefined (a file name, an environment variable,
      a header). */
  predicate Present(s: Option<string>) {
    s.Some? && s.value != ""
  }

  /** The value a string-or-nothing has in a JavaScript object. */
  function StrOrNull(s: Option<string>): Value {
    if s.Some? then Str(s.value) else Null
  }

  /** `s || fallback` for a string that may be missing or empty. */
  function OrElse(s: Option<string>, fallback: string): string {
    if Present(s) then s.value else fallback
  }

  /** `${s}` in a template literal. */
  function Render(s: Option<string>): string {
    if s.Some? then s.value else "undefined"
  }
}
