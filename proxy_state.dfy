/**
 * The builder's state as a value: the `built` flag, the implementations by
 * interface binary name, and the async-method set shared by all of them.
 * `PortProxyBuilder` (module PortProxy) is proved to move between these
 * states exactly as the functions here say; the lemmas give the life cycle
 * of a builder over any sequence of calls.
 */
module ProxyState {
  import opened Wrappers
  import opened Integers

  /** The Dart side of one interface: its port and its function pointer. */
  datatype DartImplementation = DartImplementation(port: int64, pointer: int64)

  datatype BuilderState = BuilderState(
    built: bool,
    implementations: map<string, DartImplementation>,
    asyncMethods: set<string>)

  const Initial := BuilderState(false, map[], {})

  /** Why `build` fails. The first two are `IllegalStateException`s; the last
      two come from `Class.forName` and `Proxy.newProxyInstance`. */
  datatype BuildError =
    | NoImplementation
    | AlreadyBuilt
    | ClassNotFound(name: string)
    | IllegalArgument

  function Message(e: BuildError): string {
    match e
    case NoImplementation => "No interface implementation added"
    case AlreadyBuilt => "This proxy has already been built"
    case ClassNotFound(name) => name
    case IllegalArgument => ""
  }

  function ToSet(xs: seq<string>): set<string> {
    set x | x in xs
  }

  /** The state after `addImplementation(name, port, pointer, asyncs)`. */
  function Added(s: BuilderState, name: string, impl: DartImplementation, asyncs: seq<string>): BuilderState {
    s.(implementations := s.implementations[name := impl],
       asyncMethods := s.asyncMethods + ToSet(asyncs))
  }

  /** The two checks `build` makes before it resolves anything, in order. */
  function Gate(s: BuilderState): Option<BuildError> {
    if |s.implementations| == 0 then Some(NoImplementation)
    else if s.built then Some(AlreadyBuilt)
    else None
  }

  /** The state after `build`, whatever happens once the checks are passed. */
  function AfterBuild(s: BuilderState): BuilderState {
    if Gate(s).None? then s.(built := true) else s
  }

  /** A call a client makes on the builder. */
  datatype Op =
    | Add(name: string, impl: DartImplementation, asyncs: seq<string>)
    | Build

  function Step(s: BuilderState, op: Op): BuilderState {
    match op
    case Add(name, impl, asyncs) => Added(s, name, impl, asyncs)
    case Build => AfterBuild(s)
  }

  function Run(s: BuilderState, ops: seq<Op>): BuilderState
    decreases |ops|
  {
    if ops == [] then s else Run(Step(s, ops[0]), ops[1..])
  }

  /** How many of the `build` calls in `ops` get past both checks. */
  function PassedBuilds(s: BuilderState, ops: seq<Op>): nat
    decreases |ops|
  {
    if ops == [] then 0
    else (if ops[0].Build? && Gate(s).None? then 1 else 0) + PassedBuilds(Step(s, ops[0]), ops[1..])
  }

  /** `names` lists every key of a map once, in some order. */
  predicate Enumerates(names: seq<string>, keys: set<string>) {
    (forall i, j :: 0 <= i < j < |names| ==> names[i] != names[j]) &&
    (forall i :: 0 <= i < |names| ==> names[i] in keys) &&
    (forall k :: k in keys ==> k in names)
  }

  /** The cleaner registrations made for `owner`, one per name, in order. */
  function Registrations(owner: object, impls: map<string, DartImplementation>, names: seq<string>): (r: seq<(object, int64)>)
    requires forall i :: 0 <= i < |names| ==> names[i] in impls
    ensures |r| == |names|
  {
    if names == [] then []
    else Registrations(owner, impls, names[..|names| - 1]) + [(owner, impls[names[|names| - 1]].port)]
  }

  /**
   * `addImplementation` replaces the entry for its name (last write wins),
   * keeps every other entry, only adds to the async-method set and leaves
   * `built` alone.
   */
  lemma AddedEffect(s: BuilderState, name: string, impl: DartImplementation, asyncs: seq<string>)
    ensures Added(s, name, impl, asyncs).built == s.built
    ensures Added(s, name, impl, asyncs).implementations.Keys == s.implementations.Keys + {name}
    ensures Added(s, name, impl, asyncs).implementations[name] == impl
    ensures forall k :: k in s.implementations && k != name ==>
              Added(s, name, impl, asyncs).implementations[k] == s.implementations[k]
    ensures forall x :: x in Added(s, name, impl, asyncs).asyncMethods <==> x in s.asyncMethods || x in asyncs
  {
  }

  /** Adding the same interface twice is the same as adding only the second
      implementation, with both async lists. */
  lemma LastWriteWins(s: BuilderState, name: string, i1: DartImplementation, a1: seq<string>,
                      i2: DartImplementation, a2: seq<string>)
    ensures Added(Added(s, name, i1, a1), name, i2, a2) == Added(s, name, i2, a1 + a2)
  {
    assert ToSet(a1 + a2) == ToSet(a1) + ToSet(a2);
  }

  /** `built` never goes back to false; neither the async-method set nor the
      set of added interfaces ever shrinks. */
  lemma {:induction false} RunMonotone(s: BuilderState, ops: seq<Op>)
    ensures s.built ==> Run(s, ops).built
    ensures s.asyncMethods <= Run(s, ops).asyncMethods
    ensures s.implementations.Keys <= Run(s, ops).implementations.Keys
    decreases |ops|
  {
    if ops != [] {
      RunMonotone(Step(s, ops[0]), ops[1..]);
    }
  }

  /** Without any `addImplementation`, every `build` fails with
      "No interface implementation added". */
  lemma {:induction false} NothingAddedBuildFails(ops: seq<Op>)
    requires forall i :: 0 <= i < |ops| ==> ops[i].Build?
    ensures Run(Initial, ops) == Initial
    ensures Gate(Run(Initial, ops)) == Some(NoImplementation)
    ensures Message(Gate(Run(Initial, ops)).value) == "No interface implementation added"
    decreases |ops|
  {
    if ops != [] {
      assert Step(Initial, ops[0]) == Initial;
      NothingAddedBuildFails(ops[1..]);
    }
  }

  /**
   * Once a `build` has got past both checks (whether or not resolving the
   * classes then succeeded), every later `build` fails with "This proxy has
   * already been built", whatever `addImplementation` calls come between.
   */
  lemma {:induction false} BuiltStaysRejected(s: BuilderState, ops: seq<Op>)
    requires Gate(s).None?
    ensures Gate(Run(AfterBuild(s), ops)) == Some(AlreadyBuilt)
    ensures Message(Gate(Run(AfterBuild(s), ops)).value) == "This proxy has already been built"
  {
    var t := AfterBuild(s);
    RunMonotone(t, ops);
    assert s.implementations.Keys != {};
    var k :| k in s.implementations.Keys;
    assert k in Run(t, ops).implementations.Keys;
  }

  /** Over any sequence of calls, at most one `build` gets past the checks,
      and none does once the builder is built. */
  lemma {:induction false} AtMostOneBuildPasses(s: BuilderState, ops: seq<Op>)
    ensures PassedBuilds(s, ops) <= if s.built then 0 else 1
    decreases |ops|
  {
    if ops != [] {
      var t := Step(s, ops[0]);
      AtMostOneBuildPasses(t, ops[1..]);
      if ops[0].Build? && Gate(s).None? {
        assert t.built;
      } else {
        assert s.built ==> t.built;
      }
    }
  }

  /** The k-th registration is for the k-th name. */
  lemma {:induction false} RegistrationsAt(owner: object, impls: map<string, DartImplementation>, names: seq<string>, k: nat)
    requires forall i :: 0 <= i < |names| ==> names[i] in impls
    requires k < |names|
    ensures |Registrations(owner, impls, names)| == |names|
    ensures Registrations(owner, impls, names)[k] == (owner, impls[names[k]].port)
    decreases |names|
  {
    var n := |names|;
    if k < n - 1 {
      RegistrationsAt(owner, impls, names[..n - 1], k);
    } else if n > 1 {
      RegistrationsAt(owner, impls, names[..n - 1], 0);
    }
  }

  /** A list without repetitions has as many elements as its set. */
  lemma {:induction false} DistinctCardinality(names: seq<string>)
    requires forall i, j :: 0 <= i < j < |names| ==> names[i] != names[j]
    ensures |ToSet(names)| == |names|
    decreases |names|
  {
    if names != [] {
      var n := |names|;
      var init := names[..n - 1];
      DistinctCardinality(init);
      assert ToSet(names) == ToSet(init) + {names[n - 1]};
      assert names[n - 1] !in ToSet(init);
    }
  }

  /**
   * Registering one port per listed name, with every interface listed once,
   * makes exactly one registration per map entry: as many as there are
   * entries, each with the port of its own entry.
   */
  lemma OneRegistrationPerEntry(owner: object, impls: map<string, DartImplementation>, names: seq<string>)
    requires Enumerates(names, impls.Keys)
    ensures |Registrations(owner, impls, names)| == |impls|
    ensures forall k :: k in impls ==>
              exists i :: 0 <= i < |names| && names[i] == k &&
                          Registrations(owner, impls, names)[i] == (owner, impls[k].port)
  {
    DistinctCardinality(names);
    assert ToSet(names) == impls.Keys;
    if names != [] {
      RegistrationsAt(owner, impls, names, 0);
    }
    forall k | k in impls
      ensures exists i :: 0 <= i < |names| && names[i] == k &&
                          Registrations(owner, impls, names)[i] == (owner, impls[k].port)
    {
      var i :| 0 <= i < |names| && names[i] == k;
      RegistrationsAt(owner, impls, names, i);
    }
  }
}
