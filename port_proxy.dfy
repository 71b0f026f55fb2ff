/**
 * `PortProxyBuilder`: collects the Dart implementations of one or more
 * interfaces, builds a single proxy object implementing all of them, and,
 * as that proxy's invocation handler, forwards every call to the Dart
 * isolate through the native transport.
 */
module PortProxy {
  import opened Wrappers
  import opened Integers
  import opened Descriptors
  import opened Runtime
  import opened ProxyState

  /** What reflection accepts when `build` resolves the interface names:
      `Class.forName` finds the names in `loadable`, and
      `Proxy.newProxyInstance` accepts the names in `interfaces`. */
  datatype ClassEnv = ClassEnv(loadable: set<string>, interfaces: set<string>)

  /** The object `Proxy.newProxyInstance` creates. */
  class ProxyInstance {
    /** `getClass().getName()`, chosen by the JVM. */
    const className: string
    /** The interfaces it implements, in the order they were passed. */
    const interfaces: seq<string>
    const handler: PortProxyBuilder

    constructor (className: string, interfaces: seq<string>, handler: PortProxyBuilder)
      ensures this.className == className && this.interfaces == interfaces && this.handler == handler
    {
      this.className := className;
      this.interfaces := interfaces;
      this.handler := handler;
    }
  }

  const ObjectClass := "java.lang.Object"
  const ObjectEquals := JMethod(ObjectClass, "equals", [Ref(ObjectClass)], Boolean)
  const ObjectHashCode := JMethod(ObjectClass, "hashCode", [], Int)
  const ObjectToString := JMethod(ObjectClass, "toString", [], Ref("java.lang.String"))

  /** What the handler `invoke` returns or throws (before the generated proxy class
      converts it for the caller). */
  datatype Outcome = Returned(value: JValue) | Threw(error: Throwable)

  /** The answer to `equals`, `hashCode` and `toString`, which never leave Java. */
  function IdentityAnswer(proxy: ProxyInstance, m: JMethod, args: seq<JValue>, identityHash: int32): Option<JValue>
    requires |args| == |m.params|
  {
    if m == ObjectEquals then Some(JBoolean(args[0] == JObject(proxy)))
    else if m == ObjectHashCode then Some(JInt(identityHash))
    else if m == ObjectToString then Some(JString(proxy.className + "@" + ToHexString(identityHash)))
    else None
  }

  /** What a blocking call makes of the second element of the reply. */
  function Unwrap(payload: JValue): Outcome {
    match payload
    case JThrowable(DartException(_, Some(cause))) => Threw(cause)
    case JThrowable(DartException(_, None)) => Threw(payload.t)
    case _ => Returned(payload)
  }

  /** The outcome of one call together with the native calls it makes. */
  datatype Dispatched = Dispatched(outcome: Outcome, events: seq<Event>)

  /**
   * Everything one `invoke` does, given the builder's state, the two
   * main-thread answers, the identity hash of the proxy and the reply the
   * native side gives if it is asked.
   */
  function Dispatch(s: BuilderState, isolateId: int64, constructedOnMainThread: bool,
                    proxy: ProxyInstance, m: JMethod, args: seq<JValue>,
                    onMainThread: bool, identityHash: int32, reply: Reply): Dispatched
    requires |args| == |m.params|
  {
    match IdentityAnswer(proxy, m, args, identityHash)
    case Some(v) => Dispatched(Returned(v), [])
    case None =>
      if m.declaringClass !in s.implementations then Dispatched(Threw(NullPointerException), [])
      else
        var impl := s.implementations[m.declaringClass];
        var descriptor := DescriptorOf(m);
        var isBlocking := descriptor !in s.asyncMethods;
        var call := Call(impl.port, isolateId, impl.pointer, proxy, descriptor, args,
                         isBlocking, onMainThread && constructedOnMainThread);
        if !isBlocking then Dispatched(Returned(JNull), [Invoked(call, reply)])
        else Dispatched(Unwrap(reply.payload), [Invoked(call, reply), CleanedUp(reply.token)])
  }

  /** How many `_invoke` and how many `_cleanUp` calls a list of events holds. */
  function Invocations(events: seq<Event>): nat {
    if events == [] then 0 else (if events[0].Invoked? then 1 else 0) + Invocations(events[1..])
  }

  function CleanUps(events: seq<Event>): nat {
    if events == [] then 0 else (if events[0].CleanedUp? then 1 else 0) + CleanUps(events[1..])
  }

  predicate IsIdentityMethod(m: JMethod) {
    m == ObjectEquals || m == ObjectHashCode || m == ObjectToString
  }

  /**
   * `equals`, `hashCode` and `toString` are answered in Java: nothing is
   * sent to the native side, `equals` is true exactly for the proxy itself,
   * `hashCode` is the identity hash and `toString` is the proxy's class
   * name, '@' and the identity hash in hex.
   */
  lemma IdentityMethodsStayLocal(s: BuilderState, isolateId: int64, constructedOnMainThread: bool,
                                 proxy: ProxyInstance, m: JMethod, args: seq<JValue>,
                                 onMainThread: bool, identityHash: int32, reply: Reply)
    requires |args| == |m.params| && IsIdentityMethod(m)
    ensures Dispatch(s, isolateId, constructedOnMainThread, proxy, m, args, onMainThread, identityHash, reply).events == []
    ensures m == ObjectEquals ==>
              Dispatch(s, isolateId, constructedOnMainThread, proxy, m, args, onMainThread, identityHash, reply).outcome
                == Returned(JBoolean(args[0] == JObject(proxy)))
    ensures m == ObjectHashCode ==>
              Dispatch(s, isolateId, constructedOnMainThread, proxy, m, args, onMainThread, identityHash, reply).outcome
                == Returned(JInt(identityHash))
    ensures m == ObjectToString ==>
              Dispatch(s, isolateId, constructedOnMainThread, proxy, m, args, onMainThread, identityHash, reply).outcome
                == Returned(JString(proxy.className + "@" + ToHexString(identityHash)))
  {
  }

  /** Two proxies of the same class with different identity hashes print differently. */
  lemma ToStringSeparatesHashes(className: string, h1: int32, h2: int32)
    requires h1 != h2
    ensures className + "@" + ToHexString(h1) != className + "@" + ToHexString(h2)
  {
    ToHexStringInjective(h1, h2);
    var p := className + "@";
    assert (p + ToHexString(h1))[|p|..] == ToHexString(h1);
    assert (p + ToHexString(h2))[|p|..] == ToHexString(h2);
  }

  /** A call on an interface that was never added fails before anything is
      sent to the native side. */
  lemma UnregisteredInterfaceFails(s: BuilderState, isolateId: int64, constructedOnMainThread: bool,
                                   proxy: ProxyInstance, m: JMethod, args: seq<JValue>,
                                   onMainThread: bool, identityHash: int32, reply: Reply)
    requires |args| == |m.params| && !IsIdentityMethod(m) && m.declaringClass !in s.implementations
    ensures Dispatch(s, isolateId, constructedOnMainThread, proxy, m, args, onMainThread, identityHash, reply)
              == Dispatched(Threw(NullPointerException), [])
  {
  }

  /**
   * Any other call goes to the native side exactly once, with the added
   * implementation's port and pointer, the method's descriptor, and the two
   * flags: blocking exactly when the descriptor is not an async method, and
   * allowed to enter the isolate exactly when both this call and the
   * builder's construction are on the main thread. A blocking call then
   * cleans up exactly once, with the reply's token, as the last native call;
   * a non-blocking one never cleans up and returns null whatever the reply.
   */
  lemma ForwardedCallProtocol(s: BuilderState, isolateId: int64, constructedOnMainThread: bool,
                              proxy: ProxyInstance, m: JMethod, args: seq<JValue>,
                              onMainThread: bool, identityHash: int32, reply: Reply)
    requires |args| == |m.params| && !IsIdentityMethod(m) && m.declaringClass in s.implementations
    ensures var d := Dispatch(s, isolateId, constructedOnMainThread, proxy, m, args, onMainThread, identityHash, reply);
            var blocking := DescriptorOf(m) !in s.asyncMethods;
            && Invocations(d.events) == 1
            && d.events[0] == Invoked(Call(s.implementations[m.declaringClass].port, isolateId,
                                           s.implementations[m.declaringClass].pointer, proxy,
                                           DescriptorOf(m), args,
                                           blocking, onMainThread && constructedOnMainThread), reply)
            && CleanUps(d.events) == (if blocking then 1 else 0)
            && (blocking ==> d.events[|d.events| - 1] == CleanedUp(reply.token))
            && (!blocking ==> d.outcome == Returned(JNull))
  {
    var d := Dispatch(s, isolateId, constructedOnMainThread, proxy, m, args, onMainThread, identityHash, reply);
    if DescriptorOf(m) !in s.asyncMethods {
      assert |d.events| == 2 && d.events[0].Invoked? && d.events[1].CleanedUp?;
      assert d.events[1..][1..] == [];
      assert Invocations(d.events[1..]) == 0;
      assert CleanUps(d.events[1..]) == 1;
    } else {
      assert |d.events| == 1 && d.events[0].Invoked?;
      assert d.events[1..] == [];
    }
  }

  /**
   * What a blocking call makes of the reply: a `DartException` is thrown as
   * its cause when it has one and as itself otherwise; any other value,
   * including a Java throwable that is not a `DartException`, is returned
   * unchanged.
   */
  lemma BlockingResult(s: BuilderState, isolateId: int64, constructedOnMainThread: bool,
                       proxy: ProxyInstance, m: JMethod, args: seq<JValue>,
                       onMainThread: bool, identityHash: int32, reply: Reply)
    requires |args| == |m.params| && !IsIdentityMethod(m) && m.declaringClass in s.implementations
    requires DescriptorOf(m) !in s.asyncMethods
    ensures var o := Dispatch(s, isolateId, constructedOnMainThread, proxy, m, args, onMainThread, identityHash, reply).outcome;
            match reply.payload
            case JThrowable(DartException(msg, Some(cause))) => o == Threw(cause)
            case JThrowable(DartException(msg, None)) => o == Threw(DartException(msg, None))
            case _ => o == Returned(reply.payload)
  {
  }

  /**
   * The async-method set is looked up by descriptor alone: two forwarded
   * methods with the same name, parameter types and return type are both
   * blocking or both not, whichever interfaces declare them.
   */
  lemma AsyncSetIsShared(s: BuilderState, isolateId: int64, constructedOnMainThread: bool,
                         proxy: ProxyInstance, m1: JMethod, m2: JMethod, args1: seq<JValue>, args2: seq<JValue>,
                         onMainThread: bool, identityHash: int32, reply1: Reply, reply2: Reply)
    requires |args1| == |m1.params| && !IsIdentityMethod(m1) && m1.declaringClass in s.implementations
    requires |args2| == |m2.params| && !IsIdentityMethod(m2) && m2.declaringClass in s.implementations
    requires m1.name == m2.name && m1.params == m2.params && m1.returnType == m2.returnType
    ensures Dispatch(s, isolateId, constructedOnMainThread, proxy, m1, args1, onMainThread, identityHash, reply1).events[0].call.isBlocking
         == Dispatch(s, isolateId, constructedOnMainThread, proxy, m2, args2, onMainThread, identityHash, reply2).events[0].call.isBlocking
  {
  }

  /**
   * A `Greeter` whose `greet(String)` returns a String, at port 7 and
   * pointer 42 with no async methods: `greet("Ada")` sends the descriptor
   * `greet(Ljava/lang/String;)Ljava/lang/String;` as a blocking call, and a
   * reply with token 1 and "Hello, Ada" returns "Hello, Ada" after
   * `_cleanUp(1)`.
   */
  lemma GreeterExample(isolateId: int64, proxy: ProxyInstance, onMainThread: bool, constructedOnMainThread: bool,
                       identityHash: int32)
    ensures var greet := JMethod("Greeter", "greet", [Ref("java.lang.String")], Ref("java.lang.String"));
            var s := Added(Initial, "Greeter", DartImplementation(7, 42), []);
            var args := [JString("Ada")];
            var reply := Reply(1, JString("Hello, Ada"));
            Dispatch(s, isolateId, constructedOnMainThread, proxy, greet, args, onMainThread, identityHash, reply)
              == Dispatched(Returned(JString("Hello, Ada")),
                            [Invoked(Call(7, isolateId, 42, proxy,
                                          "greet" + "(" + "Ljava/lang/String;" + ")" + "Ljava/lang/String;", args,
                                          true, onMainThread && constructedOnMainThread), reply),
                             CleanedUp(1)])
  {
    GreetDescriptor();
    var s := Added(Initial, "Greeter", DartImplementation(7, 42), []);
    assert s.asyncMethods == {};
    assert s.implementations == map["Greeter" := DartImplementation(7, 42)];
  }

  class PortProxyBuilder {
    var built: bool
    const isolateId: int64
    const constructedOnMainThread: bool
    var implementations: map<string, DartImplementation>
    var asyncMethods: set<string>

    function State(): BuilderState
      reads this
    {
      BuilderState(built, implementations, asyncMethods)
    }

    /** `isOnMainThread` is not modelled: its answer is the parameter `onMainThread`. */
    constructor (isolateId: int64, onMainThread: bool)
      ensures State() == Initial
      ensures this.isolateId == isolateId && constructedOnMainThread == onMainThread
    {
      built := false;
      this.isolateId := isolateId;
      constructedOnMainThread := onMainThread;
      implementations := map[];
      asyncMethods := {};
    }

    method AddImplementation(binaryName: string, port: int64, functionPointer: int64, asyncMethods: seq<string>)
      modifies this
      ensures State() == Added(old(State()), binaryName, DartImplementation(port, functionPointer), asyncMethods)
    {
      implementations := implementations[binaryName := DartImplementation(port, functionPointer)];
      this.asyncMethods := this.asyncMethods + ToSet(asyncMethods);
    }

    /**
     * `build`. The JVM's choices are parameters: which names reflection
     * accepts (`env`) and the class name of the new proxy. The order in
     * which the interfaces are visited is the map's, and is left open.
     */
    method Build(env: ClassEnv, cleaner: PortCleaner, proxyClassName: string)
      returns (r: Result<ProxyInstance, BuildError>)
      modifies this, cleaner
      ensures State() == AfterBuild(old(State()))
      ensures Gate(old(State())).Some? ==>
                r == Failure(Gate(old(State())).value) && cleaner.registrations == old(cleaner.registrations)
      ensures Gate(old(State())).None? && !(implementations.Keys <= env.loadable) ==>
                r.Failure? && r.error.ClassNotFound? &&
                r.error.name in implementations && r.error.name !in env.loadable &&
                cleaner.registrations == old(cleaner.registrations)
      ensures Gate(old(State())).None? && implementations.Keys <= env.loadable &&
              !(implementations.Keys <= env.interfaces) ==>
                r == Failure(IllegalArgument) && cleaner.registrations == old(cleaner.registrations)
      ensures Gate(old(State())).None? && implementations.Keys <= env.loadable &&
              implementations.Keys <= env.interfaces ==>
                r.Success? && fresh(r.value) &&
                r.value.handler == this && r.value.className == proxyClassName &&
                Enumerates(r.value.interfaces, implementations.Keys) &&
                cleaner.registrations ==
                  old(cleaner.registrations) + Registrations(r.value, implementations, r.value.interfaces)
    {
      if |implementations| == 0 {
        return Failure(NoImplementation);
      }
      if built {
        return Failure(AlreadyBuilt);
      }
      built := true;
      var loaded := LoadClasses(env);
      if loaded.Failure? {
        return Failure(loaded.error);
      }
      var classes := loaded.value;
      if exists i :: 0 <= i < |classes| && classes[i] !in env.interfaces {
        return Failure(IllegalArgument);
      }
      var proxy := new ProxyInstance(proxyClassName, classes, this);
      RegisterPorts(proxy, classes, cleaner);
      return Success(proxy);
    }

    /**
     * The first loop of `build`: `Class.forName` on every key of the map, in
     * the map's order, stopping at the first name that cannot be loaded.
     */
    method LoadClasses(env: ClassEnv) returns (r: Result<seq<string>, BuildError>)
      ensures r.Success? <==> implementations.Keys <= env.loadable
      ensures r.Success? ==> Enumerates(r.value, implementations.Keys)
      ensures r.Failure? ==> r.error.ClassNotFound? &&
                             r.error.name in implementations && r.error.name !in env.loadable
    {
      var classes: seq<string> := [];
      var remaining := implementations.Keys;
      while remaining != {}
        invariant remaining <= implementations.Keys
        invariant forall i :: 0 <= i < |classes| ==> classes[i] in implementations && classes[i] !in remaining
        invariant forall i, j :: 0 <= i < j < |classes| ==> classes[i] != classes[j]
        invariant forall k :: k in implementations ==> k in remaining || k in classes
        invariant forall i :: 0 <= i < |classes| ==> classes[i] in env.loadable
        decreases remaining
      {
        var name :| name in remaining;
        if name !in env.loadable {
          return Failure(ClassNotFound(name));
        }
        classes := classes + [name];
        remaining := remaining - {name};
      }
      return Success(classes);
    }

    /**
     * The second loop of `build`: one cleaner registration per stored
     * implementation. The values of the map are visited in the same order
     * as its keys were.
     */
    method RegisterPorts(proxy: ProxyInstance, classes: seq<string>, cleaner: PortCleaner)
      requires forall i :: 0 <= i < |classes| ==> classes[i] in implementations
      modifies cleaner
      ensures cleaner.registrations == old(cleaner.registrations) + Registrations(proxy, implementations, classes)
    {
      for i := 0 to |classes|
        invariant cleaner.registrations ==
                    old(cleaner.registrations) + Registrations(proxy, implementations, classes[..i])
      {
        cleaner.Register(proxy, implementations[classes[i]].port);
        assert classes[..i + 1][..i] == classes[..i];
      }
      assert classes[..|classes|] == classes;
    }

    /**
     * `invoke`, the handler of every call on the proxy. `onMainThread` is
     * the answer `isOnMainThread` gives now, and `identityHash` is
     * `System.identityHashCode(proxy)`.
     */
    method Invoke(proxy: ProxyInstance, m: JMethod, args: seq<JValue>,
                  onMainThread: bool, identityHash: int32, transport: Transport)
      returns (outcome: Outcome)
      requires |args| == |m.params|
      modifies transport
      ensures exists reply :: outcome == Dispatch(State(), isolateId, constructedOnMainThread, proxy, m, args,
                                                   onMainThread, identityHash, reply).outcome &&
                              transport.log == old(transport.log) +
                                Dispatch(State(), isolateId, constructedOnMainThread, proxy, m, args,
                                         onMainThread, identityHash, reply).events
    {
      ghost var reply := Reply(0, JNull);
      if m == ObjectEquals {
        outcome := Returned(JBoolean(args[0] == JObject(proxy)));
      } else if m == ObjectHashCode {
        outcome := Returned(JInt(identityHash));
      } else if m == ObjectToString {
        outcome := Returned(JString(proxy.className + "@" + ToHexString(identityHash)));
      } else {
        var implementation := if m.declaringClass in implementations
                              then Some(implementations[m.declaringClass]) else None;
        var descriptor := GetDescriptor(m);
        var isBlocking := descriptor !in asyncMethods;
        var mayEnterIsolate := onMainThread && constructedOnMainThread;
        if implementation.None? {
          // Dereferencing the missing implementation.
          outcome := Threw(NullPointerException);
        } else {
          var result := transport.Invoke(Call(implementation.value.port, isolateId,
                                              implementation.value.pointer, proxy, descriptor, args,
                                              isBlocking, mayEnterIsolate));
          reply := result;
          if !isBlocking {
            outcome := Returned(JNull);
          } else {
            transport.CleanUp(result.token);
            match result.payload {
              case JThrowable(DartException(message, cause)) =>
                if cause.Some? {
                  outcome := Threw(cause.value);
                } else {
                  outcome := Threw(result.payload.t);
                }
              case _ =>
                outcome := Returned(result.payload);
            }
          }
        }
      }
      assert outcome == Dispatch(State(), isolateId, constructedOnMainThread, proxy, m, args,
                                 onMainThread, identityHash, reply).outcome;
    }
  }
}
