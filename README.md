# PortProxyBuilder, modelled in Dafny

`PortProxyBuilder` is the Java half of the bridge that lets Dart code
implement Java interfaces in `package:jni`. A builder collects one Dart
implementation per interface: the port that reaches the Dart isolate, a
function pointer, and the descriptors of the interface's asynchronous
methods. `build` then creates a single `java.lang.reflect.Proxy` that
implements all of the interfaces, with the builder as its invocation handler,
and ties every port to the proxy's lifetime through a `PortCleaner`.
Every call on the proxy goes through `invoke`:

- `equals`, `hashCode` and `toString` of `Object` are answered in Java.
- Any other call is forwarded through the native `_invoke`. It is keyed by
  the method's descriptor and marked blocking unless that descriptor was
  declared asynchronous.
- A blocking call frees the native result with `_cleanUp`.
- A `DartException` in the reply becomes the exception that `invoke` throws.

The model describes what the handler `invoke` returns or throws, not what
the caller of the proxy finally sees (see "## Left out").

The model has five modules besides `Wrappers` (wrappers.dfy, the `Option`
and `Result` datatypes):

- `Descriptors` (descriptors.dfy): Java types and methods as values,
  `appendType` and `getDescriptor` as methods over a `StringBuilder` class,
  proved equal to a functional encoding. The encoding follows sections 4.3.2
  and 4.3.3 of the Java Virtual Machine Specification, with the method name
  in front. It is proved prefix-free, so two methods share a descriptor key
  exactly when they share name, parameter types and return type (for
  method names without '(').
- `Integers` (integers.dfy): the Java integer widths and `Integer.toHexString`
  (unsigned, lower-case, no leading zeros), with its inverse.
- `Runtime` (runtime.dfy): Java values and throwables, the native
  `_invoke`/`_cleanUp` pair as a `Transport` that logs every call and may
  answer anything, and the `PortCleaner`, which logs every registration.
- `ProxyState` (proxy_state.dfy): the builder's state as a value, the effect
  of each public call on it, and lemmas about any sequence of calls.
- `PortProxy` (port_proxy.dfy): the `PortProxyBuilder` class itself, with
  `invoke` also given as a function (`Dispatch`) that maps the builder state
  and the native reply to the outcome and the list of native calls.

What the JVM decides is passed in as parameters:

- whether the current thread is the Android main thread;
- `System.identityHashCode`;
- which names `Class.forName` and `Proxy.newProxyInstance` accept;
- the class name of the new proxy;
- the reply of `_invoke`.

## Model

| member | source | states |
|---|---|---|
| Descriptors.AppendType | pkgs/jni/java/src/main/java/com/github/dart_lang/jni/PortProxyBuilder.java:75-100 | appends exactly the field descriptor of the type: one letter per primitive, '[' then the component for arrays, 'L', the name with '.' replaced by '/', and ';' for classes |
| Descriptors.GetDescriptor | pkgs/jni/java/src/main/java/com/github/dart_lang/jni/PortProxyBuilder.java:63-73 | the key built in the buffer is the method name, '(', the parameter encodings in declaration order, ')' and the return type's encoding |
| Descriptors.TypeCodeTag | pkgs/jni/java/src/main/java/com/github/dart_lang/jni/PortProxyBuilder.java:75-99 | every type encoding is non-empty and begins with one of the eleven tags V Z B C S I J F D [ L |
| Descriptors.InternalNameInjective | pkgs/jni/java/src/main/java/com/github/dart_lang/jni/PortProxyBuilder.java:98 | replacing '.' by '/' maps distinct binary names (which contain no '/') to distinct internal names |
| Descriptors.TypeCodePrefixFree | pkgs/jni/java/src/main/java/com/github/dart_lang/jni/PortProxyBuilder.java:75-99 | no type encoding is a proper prefix of another: an encoding followed by any text splits back into one type and the same rest |
| Descriptors.ParamCodesUnique | pkgs/jni/java/src/main/java/com/github/dart_lang/jni/PortProxyBuilder.java:66-70 | the parameter encodings followed by ')' determine the parameter list and what follows |
| Descriptors.NameSplit | pkgs/jni/java/src/main/java/com/github/dart_lang/jni/PortProxyBuilder.java:65 | the method name is recovered as everything before the first '(' |
| Descriptors.SignatureUnique | pkgs/jni/java/src/main/java/com/github/dart_lang/jni/PortProxyBuilder.java:66-71 | the part after '(' determines the parameter list and the return type |
| Descriptors.MethodDescriptorInjective | pkgs/jni/java/src/main/java/com/github/dart_lang/jni/PortProxyBuilder.java:63-73 | two methods have the same descriptor key if and only if their names, parameter lists and return types are equal |
| Descriptors.SameNameDescriptorInjective | pkgs/jni/java/src/main/java/com/github/dart_lang/jni/PortProxyBuilder.java:63-73 | two methods with the same name, whatever characters it holds, get the same key if and only if their parameter lists and return types are equal |
| Descriptors.ParenInNameCollides | pkgs/jni/java/src/main/java/com/github/dart_lang/jni/PortProxyBuilder.java:63-73 | for method names containing '(', which the JVM allows, two different methods can get the same key: `m(La` taking `w` and `m` taking `a(Lw` both give `m(La(Lw;)V` |
| Descriptors.GreetDescriptor | pkgs/jni/java/src/main/java/com/github/dart_lang/jni/PortProxyBuilder.java:63-99 | `String greet(String)` has the key `greet(Ljava/lang/String;)Ljava/lang/String;` |
| Integers.HexRoundTrip | pkgs/jni/java/src/main/java/com/github/dart_lang/jni/PortProxyBuilder.java:153 | reading the hex numeral back gives the number it was printed from |
| Integers.HexCanonical | pkgs/jni/java/src/main/java/com/github/dart_lang/jni/PortProxyBuilder.java:153 | the numeral uses only lower-case hex digits and starts with '0' only for zero |
| Integers.ToHexStringLength | pkgs/jni/java/src/main/java/com/github/dart_lang/jni/PortProxyBuilder.java:153 | `Integer.toHexString` of an int prints between one and eight digits |
| Integers.ToHexStringInjective | pkgs/jni/java/src/main/java/com/github/dart_lang/jni/PortProxyBuilder.java:153 | two ints print the same hex string if and only if they are equal (negative ints print as their unsigned 32-bit value) |
| ProxyState.AddedEffect | pkgs/jni/java/src/main/java/com/github/dart_lang/jni/PortProxyBuilder.java:102-106 | adding an implementation stores it under its name, keeps every other entry, adds the async descriptors to the shared set and leaves `built` unchanged |
| ProxyState.LastWriteWins | pkgs/jni/java/src/main/java/com/github/dart_lang/jni/PortProxyBuilder.java:104-105 | adding the same interface twice keeps only the second implementation, but the async descriptors of both |
| ProxyState.RunMonotone | pkgs/jni/java/src/main/java/com/github/dart_lang/jni/PortProxyBuilder.java:102-115 | over any sequence of calls `built` never returns to false, and neither the async set nor the set of added interfaces shrinks |
| ProxyState.NothingAddedBuildFails | pkgs/jni/java/src/main/java/com/github/dart_lang/jni/PortProxyBuilder.java:109-111 | with nothing added, every `build` fails with "No interface implementation added" and changes nothing |
| ProxyState.BuiltStaysRejected | pkgs/jni/java/src/main/java/com/github/dart_lang/jni/PortProxyBuilder.java:112-115 | once a `build` has passed both checks, every later `build` fails with "This proxy has already been built", whatever is added in between |
| ProxyState.AtMostOneBuildPasses | pkgs/jni/java/src/main/java/com/github/dart_lang/jni/PortProxyBuilder.java:108-115 | in any sequence of calls at most one `build` gets past the checks, and none does on a built builder |
| ProxyState.RegistrationsAt | pkgs/jni/java/src/main/java/com/github/dart_lang/jni/PortProxyBuilder.java:123-125 | the k-th cleaner registration is (proxy, port of the k-th interface) |
| ProxyState.DistinctCardinality | pkgs/jni/java/src/main/java/com/github/dart_lang/jni/PortProxyBuilder.java:117-119 | a list of interface names without repetitions has as many elements as its set |
| ProxyState.OneRegistrationPerEntry | pkgs/jni/java/src/main/java/com/github/dart_lang/jni/PortProxyBuilder.java:123-125 | `build` registers exactly as many ports as there are implementations, each entry's own port against the proxy |
| PortProxy.PortProxyBuilder.constructor | pkgs/jni/java/src/main/java/com/github/dart_lang/jni/PortProxyBuilder.java:58-61 | a new builder is unbuilt and empty, and keeps its isolate id and whether it was made on the main thread |
| PortProxy.PortProxyBuilder.AddImplementation | pkgs/jni/java/src/main/java/com/github/dart_lang/jni/PortProxyBuilder.java:102-106 | the new state is `Added` of the old one, whose effect `ProxyState.AddedEffect` states |
| PortProxy.PortProxyBuilder.Build | pkgs/jni/java/src/main/java/com/github/dart_lang/jni/PortProxyBuilder.java:108-127 | fails with NoImplementation, then AlreadyBuilt, changing nothing; otherwise sets `built`; fails with ClassNotFound for an unloadable name or IllegalArgument for a non-interface, registering nothing; otherwise returns a fresh proxy over every added interface once, handled by this builder, with one registration per interface |
| PortProxy.PortProxyBuilder.LoadClasses | pkgs/jni/java/src/main/java/com/github/dart_lang/jni/PortProxyBuilder.java:116-119 | succeeds exactly when every added name can be loaded, listing each once; otherwise reports an added name that cannot be loaded |
| PortProxy.PortProxyBuilder.RegisterPorts | pkgs/jni/java/src/main/java/com/github/dart_lang/jni/PortProxyBuilder.java:123-125 | appends one registration (proxy, port) per listed interface, in order |
| PortProxy.PortProxyBuilder.Invoke | pkgs/jni/java/src/main/java/com/github/dart_lang/jni/PortProxyBuilder.java:144-182 | for some native reply, the outcome and the native calls made are those of `Dispatch` on the builder's state, whose behaviour the lemmas below state |
| PortProxy.IdentityMethodsStayLocal | pkgs/jni/java/src/main/java/com/github/dart_lang/jni/PortProxyBuilder.java:146-154 | `equals`, `hashCode` and `toString` make no native call; `equals` is true exactly for the proxy itself, `hashCode` is the identity hash, `toString` is the proxy's class name, '@' and the hash in hex |
| PortProxy.ToStringSeparatesHashes | pkgs/jni/java/src/main/java/com/github/dart_lang/jni/PortProxyBuilder.java:152-153 | proxies of one class with different identity hashes have different `toString` results |
| PortProxy.UnregisteredInterfaceFails | pkgs/jni/java/src/main/java/com/github/dart_lang/jni/PortProxyBuilder.java:155-168 | a call on a method whose declaring interface has no implementation throws NullPointerException before any native call |
| PortProxy.ForwardedCallProtocol | pkgs/jni/java/src/main/java/com/github/dart_lang/jni/PortProxyBuilder.java:155-172 | any other call makes exactly one `_invoke`, with the entry's port and pointer, the isolate id, the descriptor, the arguments, blocking iff the descriptor is not async, and may-enter-isolate iff both threads are main; a blocking call then calls `_cleanUp` once, last, with the reply's token; a non-blocking one never does and returns null |
| PortProxy.BlockingResult | pkgs/jni/java/src/main/java/com/github/dart_lang/jni/PortProxyBuilder.java:172-181 | a blocking call throws a DartException's cause if it has one and the DartException itself otherwise, and returns any other reply value unchanged |
| PortProxy.AsyncSetIsShared | pkgs/jni/java/src/main/java/com/github/dart_lang/jni/PortProxyBuilder.java:156-157 | methods of different interfaces with the same name, parameters and return type are both blocking or both not |
| PortProxy.GreeterExample | pkgs/jni/java/src/main/java/com/github/dart_lang/jni/PortProxyBuilder.java:144-181 | with `Greeter` at port 7 and pointer 42, `greet("Ada")` sends a blocking call keyed `greet(Ljava/lang/String;)Ljava/lang/String;`, cleans up the reply's token and returns the reply's value |

## Left out

- The static initialiser (lines 16-27) is left out: it loads the native library and looks up `Object`'s three methods by reflection. Those methods are constants here (`PortProxy.ObjectEquals`, `ObjectHashCode`, `ObjectToString`), and `Method.equals` is compared as equality of declaring class, name, parameter types and return type.
- `isOnMainThread` (lines 45-56) inspects Android's `Looper` by reflection. Its answer is a parameter of the constructor and of `Invoke`.
- `Class.forName` and `Proxy.newProxyInstance` are modelled as the `ClassEnv` sets: a fixed set of loadable names and a fixed set of names accepted as interfaces. `newProxyInstance` is given the class loader of the first class in `HashMap` order (line 122). So in the source, whether a set mixing interfaces from different loaders is accepted can depend on that order; in the model, acceptance does not depend on order. Class-loader visibility, the limit of 65535 interfaces and the JVM's other reasons to refuse a proxy all become `IllegalArgument`.
- `PortCleaner` only records its registrations. Releasing the ports when the proxy is collected is garbage-collector behaviour and is not modelled.
- The native `_invoke` and `_cleanUp` are not modelled beyond their arguments. Any well-formed two-element reply may come back, as documented at lines 129-131: a `Long` token and a result value. A null array, a missing element or a token that is not a `Long` (which would make the cast at line 172 throw) cannot be expressed. The Dart side of the call is not part of this model.
- Concurrency is not modelled. Concurrent calls of `addImplementation`, `build` and `invoke` on one builder are not protected in the source, and each call is treated as atomic.
- The iteration order of `HashMap` is left open: `Build` only promises that every interface appears once, in some order, and that the registrations follow the same order.
- PortProxy.PortProxyBuilder.Invoke: the message of the `NullPointerException` and any Java stack trace are not modelled.
- Descriptors.MethodDescriptorInjective: holds only for binary names without ';' or '/' (`ValidType`) and method names without '(' (`ValidMethodName`). The JVM guarantees the first for names returned by `Class.getName`. The second is a rule of Java source only: the class-file format forbids `. ; [ /` in method names but allows '(', and so do other JVM languages and generated bytecode. For such names the keys of the source can coincide: `Descriptors.ParenInNameCollides` shows a method `m(La` taking a `w` and a method `m` taking an `a(Lw`, both keyed `m(La(Lw;)V`. For methods that share a name, `Descriptors.SameNameDescriptorInjective` gives injectivity with no condition on the name.
- `Invoke` takes its arguments as a sequence as long as the method's parameter list. The source receives `null` for a method without parameters, which makes no difference to what it does.
- `JValue` lists only the kinds of value the properties need (null, boolean, int, String, any object, a throwable). Boxing and other primitive wrappers are not distinguished.
- The proxy class that `Proxy.newProxyInstance` generates is not modelled. It stands between `invoke` and the caller and changes what the caller sees in three ways:
  - A checked throwable the interface method does not declare reaches the caller wrapped in `UndeclaredThrowableException`. This includes the cause-less `DartException` thrown at line 178, which is a private checked exception (line 184).
  - A `null` returned for a primitive return type becomes a `NullPointerException`, which includes every non-blocking call (line 170) on such a method. A value of the wrong type becomes a `ClassCastException`, for example a throwable other than `DartException` returned at line 181.
  - When two added interfaces declare the same method, the JVM passes the `Method` of whichever comes first in `classes`, which is in `HashMap` order (lines 117-122). That decides which implementation the lookup at line 155 finds. `Invoke` takes the method `m` as a free input and does not model that choice.
- `ClassDecl.java` and the `Calculator` example are not part of this model.

## Notes on the source

- `toString` prints `proxy.getClass().getName()`, the runtime class name of the proxy object, then '@' and the hex identity hash (PortProxyBuilder.java:153).
- Only a `DartException` in `result[1]` is thrown. Any other value is returned unchanged, including a Java throwable of another class (PortProxyBuilder.java:173-181).
- A method whose interface has no entry gets `null` from the map. Reading `implementation.port` then throws `NullPointerException`, after the descriptor has been computed and before `_invoke` is called (PortProxyBuilder.java:155-161).
