/**
 * Values shared by every part of the bridge: the loosely-typed JSON the far
 * side answers with, opaque references to far-side objects, the outcome of one
 * far-side round trip, and the host-side outcome of an operation.
 */
module Interop {

  /** A C# `int`: 32-bit two's complement. */
  newtype int32 = x: int | -0x8000_0000 <= x < 0x8000_0000

  /** A C# reference that may be null. */
  datatype Option<+T> = None | Some(value: T)

  /**
   * A `System.Text.Json.JsonElement` as far as the bridge inspects it: its kind,
   * the text of a string, the elements of an array and the properties of an
   * object. Numbers, booleans and `undefined` are all `JOther`.
   */
  datatype Json =
    | JNull
    | JString(s: string)
    | JArray(items: seq<Json>)
    | JObject(fields: map<string, Json>)
    | JOther

  /** An opaque `IJSObjectReference`: the far side alone knows what it names. */
  datatype JsObject = JsObject(id: nat)

  /** The outcome of one awaited far-side call: its value, or an exception. */
  datatype Reply<+T> = Returned(value: T) | Threw

  /** The exceptions a host-side operation can end with. */
  datatype Error =
    | NullArgument       // a far-side call was made through a null object reference
    | InvalidOperation   // a JsonElement accessor was used on the wrong kind of element
    | FarSideFailure     // a far-side call threw and the exception propagated

  /** What an awaited host-side operation produces: a value, or an exception. */
  datatype Result<+T> = Ok(value: T) | Fault(error: Error) {
    predicate IsFailure() {
      Fault?
    }

    function PropagateFailure<U>(): Result<U>
      requires Fault?
    {
      Fault(error)
    }

    function Extract(): T
      requires Ok?
    {
      value
    }
  }
}
