/**
  Small pieces of JavaScript semantics shared by every module of the model:
  values that may be `undefined`, the property key such a value turns into,
  truthiness, and the errors the wrapper throws or passes through.
 */
module Js {

  /** A value that may be `undefined` (None). */
  datatype Option<T> = None | Some(value: T)

  /** The property key a possibly-undefined string becomes when it indexes an
      object: JavaScript converts `undefined` to the key "undefined". */
  function PropKey(v: Option<string>): string
  {
    if v.Some? then v.value else "undefined"
  }

  /** Truthiness of a possibly-undefined string: `undefined` and '' are falsy. */
  predicate Truthy(v: Option<string>)
  {
    v.Some? && v.value != ""
  }

  /** `a || b` on possibly-undefined strings. */
  function Or(a: Option<string>, b: Option<string>): (r: Option<string>)
    ensures Truthy(a) ==> r == a
    ensures !Truthy(a) ==> r == b
  {
    if Truthy(a) then a else b
  }

  /** Reading `m[k]` from an object whose values may themselves be `undefined`:
      an absent key and a stored `undefined` read the same. */
  function Read(m: map<string, Option<string>>, k: string): (r: Option<string>)
    ensures r.Some? ==> k in m && m[k] == r
    ensures k in m ==> r == m[k]
  {
    if k in m then m[k] else None
  }

  /** What can be thrown or rejected.
      - ClassError: a CoreError or SDKError instance, with its `type` and its
        (prefixed) message;
      - TypeError: a runtime TypeError (indexing `undefined`, calling a
        missing method);
      - EngineError: an error object handed back by the video engine. */
  datatype Error =
    | ClassError(errorType: string, message: string)
    | TypeError
    | EngineError(code: int, message: string)

  /** `new CoreError(message, type)` of the accelerator core. */
  function CoreError(message: string, errorType: string): (e: Error)
    ensures e.ClassError? && e.errorType == errorType
    ensures e.message == "otAccCore: " + message
  {
    ClassError(errorType, "otAccCore: " + message)
  }

  /** `new SDKError(message, type)` of the SDK wrapper. */
  function SdkError(message: string, errorType: string): (e: Error)
    ensures e.ClassError? && e.errorType == errorType
    ensures e.message == "otSDK: " + message
  {
    ClassError(errorType, "otSDK: " + message)
  }

  /** The `message` property of an error (a TypeError's text is the engine's
      own and is not modelled). */
  function MessageOf(e: Error): string
  {
    match e
    case ClassError(_, m) => m
    case TypeError => "TypeError"
    case EngineError(_, m) => m
  }

  /** A synchronous call that returns a value or throws. */
  datatype Result<T> = Ok(value: T) | Err(error: Error)

  /** A synchronous call that returns nothing or throws. */
  datatype Outcome = Done | Fail(error: Error)

  /** How a promise ends: resolved, rejected, or never settled because an
      exception escaped from inside an engine callback before `resolve` ran. */
  datatype Settlement<T> = Resolved(value: T) | Rejected(error: Error) | Hanging(thrown: Error)
}
