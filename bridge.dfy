/**
 * The React Native bridge types the module talks through: the values a
 * `WritableMap` / `WritableArray` can hold, and the `Promise` handed to a
 * `@ReactMethod`.  Outcomes of calls into code outside the module (AltBeacon,
 * the platform) are inputs of the model: whether the call returned or threw.
 */
module Bridge {
  import opened Wrappers

  /** A Java `int`. */
  type Int32 = x: int | -0x8000_0000 <= x < 0x8000_0000

  /** A value stored in a bridge map or array: putString, putInt, putDouble, putArray, pushMap. */
  datatype Value =
    | Str(text: string)
    | Int(number: Int32)
    | Dbl(double: real)
    | Arr(items: seq<Value>)
    | Obj(fields: map<string, Value>)

  /** The result of a call into a collaborator whose body is not part of this model. */
  datatype CallOutcome = Returned | Threw(exception: string)

  /**
   * One call of `resolve` or `reject` on a promise.  `reject(Throwable)` carries
   * no code of the module's own; `reject(code, message)` carries both.
   */
  datatype Settlement =
    | Resolved(value: Value)
    | Rejected(code: Option<string>, message: string)

  /** A bridge promise; `settlements` records every resolve and reject made on it, in order. */
  class Promise {
    var settlements: seq<Settlement>

    constructor ()
      ensures settlements == []
    {
      settlements := [];
    }

    method Resolve(value: Value)
      modifies this
      ensures settlements == old(settlements) + [Resolved(value)]
    {
      settlements := settlements + [Resolved(value)];
    }

    method Reject(code: Option<string>, message: string)
      modifies this
      ensures settlements == old(settlements) + [Rejected(code, message)]
    {
      settlements := settlements + [Rejected(code, message)];
    }
  }
}
