/** Spies: stubs that also keep a log of every call they receive. The log is
    the only state that changes; the stub inside is fixed at construction. */
module Spies {
  import opened Wrappers
  import opened Values
  import opened Outcomes
  import opened RecordedCalls
  import Stubs

  /** `Spy`: a `Stub` plus the log of calls received through any mode. */
  class Spy<V> {
    var calls: seq<RecordedMethodCall>
    const stub: Stubs.Stub<V>

    /** `Spy(value:)`: an empty log and a stub answering `value`. */
    constructor (value: V)
      ensures calls == [] && stub == Stubs.Stub(Success(value))
    {
      calls := [];
      stub := Stubs.Stub(Success(value));
    }

    /** `Spy(error:)`: an empty log and a stub holding `error`. */
    constructor FromError(error: ErrorValue)
      ensures calls == [] && stub == Stubs.Stub(Failure(error))
    {
      calls := [];
      stub := Stubs.Stub(Failure(error));
    }

    /** `invoke(arguments:)`: logs the call, then answers as the stub does. */
    method Invoke(arguments: seq<Dyn>) returns (r: Outcome<V>)
      modifies this
      ensures calls == old(calls) + [Record(arguments)]
      ensures r == Stubs.Invoke(stub, arguments)
    {
      calls := calls + [Record(arguments)];
      r := Stubs.Invoke(stub, arguments);
    }

    /** `throwingInvoke(arguments:)`: logs the call even when the stub throws. */
    method ThrowingInvoke(arguments: seq<Dyn>) returns (r: Outcome<V>)
      modifies this
      ensures calls == old(calls) + [Record(arguments)]
      ensures r == Stubs.ThrowingInvoke(stub, arguments)
    {
      calls := calls + [Record(arguments)];
      r := Stubs.ThrowingInvoke(stub, arguments);
    }

    /** `asyncInvoke(arguments:)`: logs the call before the stub's delay, so a
        cancelled call is still logged. */
    method AsyncInvoke(arguments: seq<Dyn>, cancelled: bool) returns (r: Outcome<V>)
      modifies this
      ensures calls == old(calls) + [Record(arguments)]
      ensures r == Stubs.AsyncInvoke(stub, arguments, cancelled)
    {
      calls := calls + [Record(arguments)];
      r := Stubs.AsyncInvoke(stub, arguments, cancelled);
    }

    /** `throwingAsyncInvoke(arguments:)`: logs, then answers as the stub does. */
    method ThrowingAsyncInvoke(arguments: seq<Dyn>, cancelled: bool) returns (r: Outcome<V>)
      modifies this
      ensures calls == old(calls) + [Record(arguments)]
      ensures r == Stubs.ThrowingAsyncInvoke(stub, arguments, cancelled)
    {
      calls := calls + [Record(arguments)];
      r := Stubs.ThrowingAsyncInvoke(stub, arguments, cancelled);
    }
  }

  /** `AsyncSpy`: an `AsyncStub` plus the log of calls it received. */
  class AsyncSpy<V> {
    var calls: seq<RecordedMethodCall>
    const stub: Stubs.AsyncStub<V>

    /** `AsyncSpy(value:)`. */
    constructor (value: V)
      ensures calls == [] && stub == Stubs.AsyncStub(Success(value))
    {
      calls := [];
      stub := Stubs.AsyncStub(Success(value));
    }

    /** `AsyncSpy(error:)`. */
    constructor FromError(error: ErrorValue)
      ensures calls == [] && stub == Stubs.AsyncStub(Failure(error))
    {
      calls := [];
      stub := Stubs.AsyncStub(Failure(error));
    }

    /** `asyncInvoke(arguments:)`: logs, then answers as the async stub does. */
    method AsyncInvoke(arguments: seq<Dyn>, cancelled: bool) returns (r: Outcome<V>)
      modifies this
      ensures calls == old(calls) + [Record(arguments)]
      ensures r == Stubs.AsyncStubInvoke(stub, arguments, cancelled)
    {
      calls := calls + [Record(arguments)];
      r := Stubs.AsyncStubInvoke(stub, arguments, cancelled);
    }

    /** `throwingAsyncInvoke(arguments:)`: logs, then answers as the async
        stub does, a cancellation included. */
    method ThrowingAsyncInvoke(arguments: seq<Dyn>, cancelled: bool) returns (r: Outcome<V>)
      modifies this
      ensures calls == old(calls) + [Record(arguments)]
      ensures r == Stubs.AsyncStubThrowingInvoke(stub, arguments, cancelled)
    {
      calls := calls + [Record(arguments)];
      r := Stubs.AsyncStubThrowingInvoke(stub, arguments, cancelled);
    }
  }

  /** `SpyPublisher`: a `StubPublisher` plus the log of calls it received. */
  class SpyPublisher<V> {
    var calls: seq<RecordedMethodCall>
    const stub: Stubs.StubPublisher<V>

    /** `SpyPublisher(_ result:)`. */
    constructor (result: Stubs.Publisher<V>)
      ensures calls == [] && stub == Stubs.StubPublisher(result)
    {
      calls := [];
      stub := Stubs.StubPublisher(result);
    }

    /** `invoke(arguments:)`: logs, then returns the stored publisher. */
    method Invoke(arguments: seq<Dyn>) returns (p: Stubs.Publisher<V>)
      modifies this
      ensures calls == old(calls) + [Record(arguments)]
      ensures p == stub.result
    {
      calls := calls + [Record(arguments)];
      p := Stubs.StubPublisherInvoke(stub, arguments);
    }
  }
}
