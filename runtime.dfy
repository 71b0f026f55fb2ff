/**
 * What the proxy dispatcher exchanges with code it cannot see: Java values
 * and throwables, the native `_invoke` / `_cleanUp` pair (an abstract
 * transport that records every call it receives), and the process-wide
 * `PortCleaner` (which records every registration).
 */
module Runtime {
  import opened Wrappers
  import opened Integers

  /** A Java exception. `DartException` carries its own `cause` field, which
      stays null when the Dart side had no original error to hand back. */
  datatype Throwable =
    | DartException(message: string, cause: Option<Throwable>)
    | JavaThrowable(className: string, message: string)

  const NullPointerException := JavaThrowable("java.lang.NullPointerException", "")

  /** A Java value passed to or returned from a proxied method. */
  datatype JValue =
    | JNull
    | JBoolean(b: bool)
    | JInt(i: int32)
    | JString(s: string)
    | JObject(o: object)
    | JThrowable(t: Throwable)

  /** The arguments of one native `_invoke`. */
  datatype Call = Call(
    port: int64,
    isolateId: int64,
    functionPointer: int64,
    proxy: object,
    descriptor: string,
    args: seq<JValue>,
    isBlocking: bool,
    mayEnterIsolate: bool)

  /** The two-element array `_invoke` returns: [0] the address of the result
      that `_cleanUp` frees, [1] the result itself. */
  datatype Reply = Reply(token: int64, payload: JValue)

  /** One crossing of the native boundary. */
  datatype Event =
    | Invoked(call: Call, reply: Reply)
    | CleanedUp(token: int64)

  /** The native side of the proxy. Its replies are not modelled: any reply
      can come back from any call. */
  class Transport {
    ghost var log: seq<Event>

    constructor ()
      ensures log == []
    {
      log := [];
    }

    /** `_invoke`. */
    method Invoke(call: Call) returns (reply: Reply)
      modifies this
      ensures log == old(log) + [Invoked(call, reply)]
    {
      reply := *;
      log := log + [Invoked(call, reply)];
    }

    /** `_cleanUp`. */
    method CleanUp(token: int64)
      modifies this
      ensures log == old(log) + [CleanedUp(token)]
    {
      log := log + [CleanedUp(token)];
    }
  }

  /** `PortCleaner`: ties the release of a Dart port to an owner object's
      lifetime. Only the registrations are modelled. */
  class PortCleaner {
    ghost var registrations: seq<(object, int64)>

    constructor ()
      ensures registrations == []
    {
      registrations := [];
    }

    method Register(owner: object, port: int64)
      modifies this
      ensures registrations == old(registrations) + [(owner, port)]
    {
      registrations := registrations + [(owner, port)];
    }
  }
}
