/** JavaScript values as the plugin's option objects hold them, the
    object-spread merge, and the commands sent over the native bridge. */
module Js {

  /** A JavaScript value. Numbers are modelled as integers; `Obj` is a plain
      object (an option map); `Opaque` is any other value the plugin passes
      through without looking inside (arrays such as `location`, functions). */
  datatype JsVal =
    | Undefined
    | Null
    | Bool(b: bool)
    | Str(s: string)
    | Num(n: int)
    | Obj(fields: map<string, JsVal>)
    | Opaque

  /** A plain option object. A key that is present with value `Undefined`
      is different from an absent key, as in JavaScript. */
  type Options = map<string, JsVal>

  datatype Option<T> = None | Some(value: T)

  /** JavaScript truthiness: false, null, undefined, 0 and "" are falsy. */
  predicate Truthy(v: JsVal) {
    match v
    case Undefined => false
    case Null => false
    case Bool(b) => b
    case Str(s) => s != ""
    case Num(n) => n != 0
    case Obj(_) => true
    case Opaque => true
  }

  /** Property read `o[k]`: an absent key reads as `undefined`. */
  function Get(o: Options, k: string): (v: JsVal)
    ensures k in o ==> v == o[k]
    ensures k !in o ==> v == Undefined
  {
    if k in o then o[k] else Undefined
  }

  /** The object literal `{...a, ...b}`: every key of either, and on a key
      both hold, the later spread wins. */
  function Merge(a: Options, b: Options): Options {
    a + b
  }

  /** The merge holds every key of either object; a key of `b` takes
      `b`'s value and every other key keeps `a`'s. */
  lemma MergeLastWins(a: Options, b: Options)
    ensures Merge(a, b).Keys == a.Keys + b.Keys
    ensures forall k | k in b :: Merge(a, b)[k] == b[k]
    ensures forall k | k in a && k !in b :: Merge(a, b)[k] == a[k]
  {
  }

  /** One call `exec(success, failure, 'AdMob', method, args)` across the
      bridge, recorded instead of performed. */
  datatype Command = Command(name: string, args: seq<JsVal>)

  /** An exception the JavaScript engine raises synchronously. */
  datatype JsError = TypeError | ReferenceError(name: string)

  /** What a call of the legacy flat API does: dispatch a command, call the
      failure callback with a message, do nothing, or throw. */
  datatype Outcome =
    | Dispatched(cmd: Command)
    | FailureCallback(message: string)
    | NoEffect
    | Threw(error: JsError)
}
