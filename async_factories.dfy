/** The async factories: the same install-and-invoke pattern as the
    synchronous ones, wired to `AsyncStub`, `AsyncSpy` and `AsyncFake`. A
    cancelled delay is the `cancelled` input of an invocation. */
module AsyncFactories {
  import opened Wrappers
  import opened Values
  import opened Failures
  import opened Outcomes
  import opened Arguments
  import opened RecordedCalls
  import opened Closures
  import Stubs
  import Spies
  import Fakes

  /** What an async factory's invocation closure is bound to. */
  datatype AsyncInstalled<V> =
    | AsyncStubClosure(stub: Stubs.AsyncStub<V>)
    | AsyncSpyClosure(spy: Spies.AsyncSpy<V>)
    | AsyncFakeClosure(fake: Fakes.AsyncFake<V>)

  /** `AsyncTestDoubleFactory`: the non-throwing async factory. */
  class AsyncTestDoubleFactory<V> {
    var invokeClosure: Option<AsyncInstalled<V>>

    /** The builders only install value stubs, value spies and normal fakes. */
    predicate Valid()
      reads this
    {
      invokeClosure.Some? ==>
        match invokeClosure.value
        case AsyncStubClosure(s) => s.stubbedValue.Success?
        case AsyncSpyClosure(sp) => sp.stub.stubbedValue.Success?
        case AsyncFakeClosure(f) => f.closure.AsyncNormal?
    }

    function Wired(): set<object>
      reads this
    {
      if invokeClosure.Some? && invokeClosure.value.AsyncSpyClosure? then {invokeClosure.value.spy} else {}
    }

    /** `init()`: nothing installed yet. */
    constructor ()
      ensures invokeClosure == None && Valid()
    {
      invokeClosure := None;
    }

    /** `asyncInvoke(arguments:)`: fatal `nilValue` before any builder ran;
        otherwise the installed double answers, whether or not the delay was
        cancelled, and never by throwing. */
    method AsyncInvoke(arguments: seq<Dyn>, cancelled: bool) returns (r: Outcome<V>)
      requires Valid()
      modifies Wired()
      ensures !r.Threw?
      ensures invokeClosure.None? ==> r == Fatal(NilValue)
      ensures invokeClosure.Some? && invokeClosure.value.AsyncStubClosure? ==>
                r == Returned(invokeClosure.value.stub.stubbedValue.value)
      ensures invokeClosure.Some? && invokeClosure.value.AsyncSpyClosure? ==>
                r == Returned(invokeClosure.value.spy.stub.stubbedValue.value)
                && invokeClosure.value.spy.calls == old(invokeClosure.value.spy.calls) + [Record(arguments)]
      ensures invokeClosure.Some? && invokeClosure.value.AsyncFakeClosure? ==>
                r == invokeClosure.value.fake.closure.normal(Wrap(arguments))
    {
      match invokeClosure
      case None =>
        r := Fatal(NilValue);
      case Some(AsyncStubClosure(s)) =>
        r := Stubs.AsyncStubInvoke(s, arguments, cancelled);
      case Some(AsyncSpyClosure(sp)) =>
        r := sp.AsyncInvoke(arguments, cancelled);
      case Some(AsyncFakeClosure(f)) =>
        r := Fakes.AsyncFakeInvoke(f, arguments);
    }

    /** `stub(_ value:delayInNanoseconds:)`. */
    method Stub(value: V)
      modifies this
      ensures invokeClosure == Some(AsyncStubClosure(Stubs.AsyncStub(Success(value)))) && Valid()
    {
      invokeClosure := Some(AsyncStubClosure(Stubs.AsyncStub(Success(value))));
    }

    /** `spy(_ value:delayInNanoseconds:)`. */
    method Spy(value: V) returns (spy: Spies.AsyncSpy<V>)
      modifies this
      ensures fresh(spy) && spy.calls == [] && spy.stub == Stubs.AsyncStub(Success(value))
      ensures invokeClosure == Some(AsyncSpyClosure(spy)) && Valid()
    {
      spy := new Spies.AsyncSpy(value);
      invokeClosure := Some(AsyncSpyClosure(spy));
    }

    /** `fake(_ closure:)`: installs a fake around a non-throwing callback. */
    method Fake(callback: NonThrowingCallback<V>)
      modifies this
      ensures invokeClosure == Some(AsyncFakeClosure(Fakes.AsyncFake(AsyncNormal(callback)))) && Valid()
    {
      invokeClosure := Some(AsyncFakeClosure(Fakes.AsyncFake(AsyncNormal(callback))));
    }
  }

  /** `ThrowingAsyncTestDoubleFactory`: the throwing async factory. */
  class ThrowingAsyncTestDoubleFactory<V> {
    var invokeClosure: Option<AsyncInstalled<V>>

    /** Its fakes are always built around throwing callbacks. */
    predicate Valid()
      reads this
    {
      invokeClosure.Some? && invokeClosure.value.AsyncFakeClosure? ==>
        invokeClosure.value.fake.closure.AsyncThrowingClosure?
    }

    function Wired(): set<object>
      reads this
    {
      if invokeClosure.Some? && invokeClosure.value.AsyncSpyClosure? then {invokeClosure.value.spy} else {}
    }

    /** `init()`: nothing installed yet. */
    constructor ()
      ensures invokeClosure == None && Valid()
    {
      invokeClosure := None;
    }

    /** `throwingAsyncInvoke(arguments:)`: fatal `nilValue` before any builder
        ran; a cancelled stub or spy throws the cancellation; otherwise the
        installed double's value or error. */
    method ThrowingAsyncInvoke(arguments: seq<Dyn>, cancelled: bool) returns (r: Outcome<V>)
      requires Valid()
      modifies Wired()
      ensures invokeClosure.None? ==> r == Fatal(NilValue)
      ensures invokeClosure.Some? && invokeClosure.value.AsyncStubClosure? ==>
                r == Stubs.AsyncStubThrowingInvoke(invokeClosure.value.stub, arguments, cancelled)
      ensures invokeClosure.Some? && invokeClosure.value.AsyncSpyClosure? ==>
                r == Stubs.AsyncStubThrowingInvoke(invokeClosure.value.spy.stub, arguments, cancelled)
                && invokeClosure.value.spy.calls == old(invokeClosure.value.spy.calls) + [Record(arguments)]
      ensures invokeClosure.Some? && invokeClosure.value.AsyncFakeClosure? ==>
                r == invokeClosure.value.fake.closure.throwing(Wrap(arguments))
      ensures invokeClosure.Some? && !invokeClosure.value.AsyncFakeClosure? ==>
                !r.Fatal? && (cancelled ==> r == Threw(CancellationError))
    {
      match invokeClosure
      case None =>
        r := Fatal(NilValue);
      case Some(AsyncStubClosure(s)) =>
        r := Stubs.AsyncStubThrowingInvoke(s, arguments, cancelled);
      case Some(AsyncSpyClosure(sp)) =>
        r := sp.ThrowingAsyncInvoke(arguments, cancelled);
      case Some(AsyncFakeClosure(f)) =>
        r := Fakes.AsyncFakeThrowingInvoke(f, arguments);
    }

    /** `stub(_ value:delayInNanoseconds:)`. */
    method Stub(value: V)
      modifies this
      ensures invokeClosure == Some(AsyncStubClosure(Stubs.AsyncStub(Success(value)))) && Valid()
    {
      invokeClosure := Some(AsyncStubClosure(Stubs.AsyncStub(Success(value))));
    }

    /** `stub(_ error:delayInNanoseconds:)`. */
    method StubError(error: ErrorValue)
      modifies this
      ensures invokeClosure == Some(AsyncStubClosure(Stubs.AsyncStub(Failure(error)))) && Valid()
    {
      invokeClosure := Some(AsyncStubClosure(Stubs.AsyncStub<V>.AsyncStub(Failure(error))));
    }

    /** `spy(_ value:delayInNanoseconds:)`. */
    method Spy(value: V) returns (spy: Spies.AsyncSpy<V>)
      modifies this
      ensures fresh(spy) && spy.calls == [] && spy.stub == Stubs.AsyncStub(Success(value))
      ensures invokeClosure == Some(AsyncSpyClosure(spy)) && Valid()
    {
      spy := new Spies.AsyncSpy(value);
      invokeClosure := Some(AsyncSpyClosure(spy));
    }

    /** `spy(_ error:delayInNanoseconds:)`. */
    method SpyError(error: ErrorValue) returns (spy: Spies.AsyncSpy<V>)
      modifies this
      ensures fresh(spy) && spy.calls == [] && spy.stub == Stubs.AsyncStub(Failure(error))
      ensures invokeClosure == Some(AsyncSpyClosure(spy)) && Valid()
    {
      spy := new Spies.AsyncSpy<V>.FromError(error);
      invokeClosure := Some(AsyncSpyClosure(spy));
    }

    /** `fake(_ closure:)`: installs a fake around a throwing callback. */
    method Fake(callback: Callback<V>)
      modifies this
      ensures invokeClosure == Some(AsyncFakeClosure(Fakes.AsyncFake(AsyncThrowingClosure(callback)))) && Valid()
    {
      invokeClosure := Some(AsyncFakeClosure(Fakes.AsyncFake(AsyncThrowingClosure(callback))));
    }
  }
}
