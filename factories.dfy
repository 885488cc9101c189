/** Factories: one reusable invocation point per calling mode, into which a
    test installs a stub, a spy or a fake, and may re-install another at any
    time. The installed double is kept as a tagged value that names it; a
    spy is kept by reference, so calls through the factory land in the log
    of the spy object the test holds. */
module Factories {
  import opened Wrappers
  import opened Values
  import opened Failures
  import opened Outcomes
  import opened Arguments
  import opened RecordedCalls
  import opened Closures
  import Stubs
  import Spies
  import Fakes

  /** What a synchronous factory's invocation closure is bound to. */
  datatype Installed<V> =
    | StubClosure(stub: Stubs.Stub<V>)
    | SpyClosure(spy: Spies.Spy<V>)
    | FakeClosure(fake: Fakes.Fake<V>)

  /** `TestDoubleFactory`: the non-throwing synchronous factory. */
  class TestDoubleFactory<V> {
    var invokeClosure: Option<Installed<V>>

    /** The builders only install value stubs, value spies and normal fakes. */
    predicate Valid()
      reads this
    {
      invokeClosure.Some? ==>
        match invokeClosure.value
        case StubClosure(s) => s.stubbedValue.Success?
        case SpyClosure(sp) => sp.stub.stubbedValue.Success?
        case FakeClosure(f) => f.closure.Normal?
    }

    /** The objects a call through the factory may change: the wired spy. */
    function Wired(): set<object>
      reads this
    {
      if invokeClosure.Some? && invokeClosure.value.SpyClosure? then {invokeClosure.value.spy} else {}
    }

    /** `init()`: nothing installed yet. */
    constructor ()
      ensures invokeClosure == None && Valid()
    {
      invokeClosure := None;
    }

    /** `invoke(arguments:)`: fatal `nilValue` before any builder ran;
        otherwise the installed double answers, and never by throwing. */
    method Invoke(arguments: seq<Dyn>) returns (r: Outcome<V>)
      requires Valid()
      modifies Wired()
      ensures !r.Threw?
      ensures invokeClosure.None? ==> r == Fatal(NilValue)
      ensures invokeClosure.Some? && invokeClosure.value.StubClosure? ==>
                r == Stubs.Invoke(invokeClosure.value.stub, arguments)
                && r == Returned(invokeClosure.value.stub.stubbedValue.value)
      ensures invokeClosure.Some? && invokeClosure.value.SpyClosure? ==>
                r == Returned(invokeClosure.value.spy.stub.stubbedValue.value)
                && invokeClosure.value.spy.calls == old(invokeClosure.value.spy.calls) + [Record(arguments)]
      ensures invokeClosure.Some? && invokeClosure.value.FakeClosure? ==>
                r == Fakes.FakeInvoke(invokeClosure.value.fake, arguments)
                && r == invokeClosure.value.fake.closure.normal(Wrap(arguments))
    {
      match invokeClosure
      case None =>
        r := Fatal(NilValue);
      case Some(StubClosure(s)) =>
        r := Stubs.Invoke(s, arguments);
      case Some(SpyClosure(sp)) =>
        r := sp.Invoke(arguments);
      case Some(FakeClosure(f)) =>
        r := Fakes.FakeInvoke(f, arguments);
    }

    /** `stub(_ value:)`: installs a fresh stub answering `value`. */
    method Stub(value: V)
      modifies this
      ensures invokeClosure == Some(StubClosure(Stubs.Stub(Success(value)))) && Valid()
    {
      invokeClosure := Some(StubClosure(Stubs.Stub(Success(value))));
    }

    /** `spy(_ value:)`: installs and returns a fresh spy with an empty log. */
    method Spy(value: V) returns (spy: Spies.Spy<V>)
      modifies this
      ensures fresh(spy) && spy.calls == [] && spy.stub == Stubs.Stub(Success(value))
      ensures invokeClosure == Some(SpyClosure(spy)) && Valid()
    {
      spy := new Spies.Spy(value);
      invokeClosure := Some(SpyClosure(spy));
    }

    /** `fake(_ closure:)`: installs a fake around `callback`. */
    method Fake(callback: NonThrowingCallback<V>)
      modifies this
      ensures invokeClosure == Some(FakeClosure(Fakes.Fake(Normal(callback)))) && Valid()
    {
      invokeClosure := Some(FakeClosure(Fakes.Fake(Normal(callback))));
    }
  }

  /** `ThrowingTestDoubleFactory`: the throwing synchronous factory. */
  class ThrowingTestDoubleFactory<V> {
    var invokeClosure: Option<Installed<V>>

    /** Its fakes are always built around throwing callbacks. */
    predicate Valid()
      reads this
    {
      invokeClosure.Some? && invokeClosure.value.FakeClosure? ==> invokeClosure.value.fake.closure.Throwing?
    }

    function Wired(): set<object>
      reads this
    {
      if invokeClosure.Some? && invokeClosure.value.SpyClosure? then {invokeClosure.value.spy} else {}
    }

    /** `init()`: nothing installed yet. */
    constructor ()
      ensures invokeClosure == None && Valid()
    {
      invokeClosure := None;
    }

    /** `throwingInvoke(arguments:)`: fatal `nilValue` before any builder
        ran; otherwise the installed double's value or error. */
    method ThrowingInvoke(arguments: seq<Dyn>) returns (r: Outcome<V>)
      requires Valid()
      modifies Wired()
      ensures invokeClosure.None? ==> r == Fatal(NilValue)
      ensures invokeClosure.Some? && invokeClosure.value.StubClosure? ==>
                r == Stubs.ThrowingInvoke(invokeClosure.value.stub, arguments)
      ensures invokeClosure.Some? && invokeClosure.value.SpyClosure? ==>
                r == Stubs.ThrowingInvoke(invokeClosure.value.spy.stub, arguments)
                && invokeClosure.value.spy.calls == old(invokeClosure.value.spy.calls) + [Record(arguments)]
      ensures invokeClosure.Some? && invokeClosure.value.FakeClosure? ==>
                r == invokeClosure.value.fake.closure.throwing(Wrap(arguments))
      ensures invokeClosure.Some? && !invokeClosure.value.FakeClosure? ==> !r.Fatal?
    {
      match invokeClosure
      case None =>
        r := Fatal(NilValue);
      case Some(StubClosure(s)) =>
        r := Stubs.ThrowingInvoke(s, arguments);
      case Some(SpyClosure(sp)) =>
        r := sp.ThrowingInvoke(arguments);
      case Some(FakeClosure(f)) =>
        r := Fakes.FakeThrowingInvoke(f, arguments);
    }

    /** `stub(_ value:)`. */
    method Stub(value: V)
      modifies this
      ensures invokeClosure == Some(StubClosure(Stubs.Stub(Success(value)))) && Valid()
    {
      invokeClosure := Some(StubClosure(Stubs.Stub(Success(value))));
    }

    /** `stub(_ error:)`: installs a stub that throws `error`. */
    method StubError(error: ErrorValue)
      modifies this
      ensures invokeClosure == Some(StubClosure(Stubs.Stub(Failure(error)))) && Valid()
    {
      invokeClosure := Some(StubClosure(Stubs.Stub<V>.Stub(Failure(error))));
    }

    /** `spy(_ value:)`. */
    method Spy(value: V) returns (spy: Spies.Spy<V>)
      modifies this
      ensures fresh(spy) && spy.calls == [] && spy.stub == Stubs.Stub(Success(value))
      ensures invokeClosure == Some(SpyClosure(spy)) && Valid()
    {
      spy := new Spies.Spy(value);
      invokeClosure := Some(SpyClosure(spy));
    }

    /** `spy(_ error:)`: installs and returns a fresh spy that throws `error`. */
    method SpyError(error: ErrorValue) returns (spy: Spies.Spy<V>)
      modifies this
      ensures fresh(spy) && spy.calls == [] && spy.stub == Stubs.Stub(Failure(error))
      ensures invokeClosure == Some(SpyClosure(spy)) && Valid()
    {
      spy := new Spies.Spy<V>.FromError(error);
      invokeClosure := Some(SpyClosure(spy));
    }

    /** `fake(_ closure:)`: installs a fake around a throwing `callback`. */
    method Fake(callback: Callback<V>)
      modifies this
      ensures invokeClosure == Some(FakeClosure(Fakes.Fake(Throwing(callback)))) && Valid()
    {
      invokeClosure := Some(FakeClosure(Fakes.Fake(Throwing(callback))));
    }
  }
}
