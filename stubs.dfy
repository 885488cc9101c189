/** Stubs: doubles that answer every call with one canned result. They hold
    nothing that changes, so each is a value. The artificial delay is not
    modelled; whether waiting for it was cancelled is an input. */
module Stubs {
  import opened Wrappers
  import opened Values
  import opened Failures
  import opened Outcomes

  /** A publisher is modelled by the one result it emits: a value, or a failure. */
  type Publisher<V> = Result<V, ErrorValue>

  /** `Stub`: built from a value or from an error. */
  datatype Stub<V> = Stub(stubbedValue: Result<V, ErrorValue>)

  /** `invoke(arguments:)`: the value; an error stub called through the
      non-throwing mode is a fatal mode mismatch. */
  function Invoke<V>(s: Stub<V>, arguments: seq<Dyn>): (r: Outcome<V>)
    ensures !r.Threw?
    ensures r.Returned? <==> s.stubbedValue.Success?
    ensures r.Returned? ==> r.value == s.stubbedValue.value
    ensures r.Fatal? ==> r.failure == TestDoubleTypeMismatch("Normal", "Throwing")
  {
    match s.stubbedValue
    case Success(v) => Returned(v)
    case Failure(_) => Fatal(TestDoubleTypeMismatch("Normal", "Throwing"))
  }

  /** `throwingInvoke(arguments:)`: the value, or exactly the stored error. */
  function ThrowingInvoke<V>(s: Stub<V>, arguments: seq<Dyn>): (r: Outcome<V>)
    ensures !r.Fatal?
    ensures r.Returned? <==> s.stubbedValue.Success?
    ensures r.Returned? ==> r.value == s.stubbedValue.value
    ensures r.Threw? ==> r.error == s.stubbedValue.error
  {
    match s.stubbedValue
    case Success(v) => Returned(v)
    case Failure(e) => Threw(e)
  }

  /** `asyncInvoke(arguments:)`: the mode is checked before the delay, and a
      cancelled delay is fatal. */
  function AsyncInvoke<V>(s: Stub<V>, arguments: seq<Dyn>, cancelled: bool): (r: Outcome<V>)
    ensures !r.Threw?
    ensures s.stubbedValue.Failure? ==> r == Fatal(TestDoubleTypeMismatch("Async", "Throwing"))
    ensures s.stubbedValue.Success? && cancelled ==> r == Fatal(TaskExplicitlyCanceled)
    ensures r.Returned? <==> s.stubbedValue.Success? && !cancelled
    ensures r.Returned? ==> r.value == s.stubbedValue.value
  {
    match s.stubbedValue
    case Failure(_) => Fatal(TestDoubleTypeMismatch("Async", "Throwing"))
    case Success(v) => if cancelled then Fatal(TaskExplicitlyCanceled) else Returned(v)
  }

  /** `throwingAsyncInvoke(arguments:)`: a cancelled delay is fatal; after the
      delay it answers as the throwing mode does. */
  function ThrowingAsyncInvoke<V>(s: Stub<V>, arguments: seq<Dyn>, cancelled: bool): (r: Outcome<V>)
    ensures cancelled ==> r == Fatal(TaskExplicitlyCanceled)
    ensures !cancelled ==> !r.Fatal?
    ensures r.Returned? <==> s.stubbedValue.Success? && !cancelled
    ensures r.Returned? ==> r.value == s.stubbedValue.value
    ensures r.Threw? ==> r.error == s.stubbedValue.error
  {
    if cancelled then Fatal(TaskExplicitlyCanceled) else ThrowingInvoke(s, arguments)
  }

  /** The publisher entry point: a publisher emitting the value, or failing with the error. */
  function PublisherInvoke<V>(s: Stub<V>, arguments: seq<Dyn>): (p: Publisher<V>)
    ensures p.Success? <==> s.stubbedValue.Success?
    ensures p.Success? ==> p.value == s.stubbedValue.value
    ensures p.Failure? ==> p.error == s.stubbedValue.error
  {
    match s.stubbedValue
    case Success(v) => Success(v)
    case Failure(e) => Failure(e)
  }

  /** A value stub answers every mode with its value, whatever the arguments
      and however often it is called; only a cancelled async delay aborts. */
  lemma ValueStubAnswersEveryMode<V>(v: V, arguments: seq<Dyn>)
    ensures Invoke(Stub(Success(v)), arguments) == Returned(v)
    ensures ThrowingInvoke(Stub(Success(v)), arguments) == Returned(v)
    ensures AsyncInvoke(Stub(Success(v)), arguments, false) == Returned(v)
    ensures ThrowingAsyncInvoke(Stub(Success(v)), arguments, false) == Returned(v)
    ensures PublisherInvoke(Stub(Success(v)), arguments) == Success(v)
  {
  }

  /** An error stub throws exactly its error through the throwing modes and is
      a fatal misuse through the non-throwing ones. */
  lemma ErrorStubThrowsOrAborts<V>(e: ErrorValue, arguments: seq<Dyn>, cancelled: bool)
    ensures Invoke(Stub<V>.Stub(Failure(e)), arguments).Fatal?
    ensures AsyncInvoke(Stub<V>.Stub(Failure(e)), arguments, cancelled).Fatal?
    ensures ThrowingInvoke(Stub<V>.Stub(Failure(e)), arguments) == Threw(e)
    ensures ThrowingAsyncInvoke(Stub<V>.Stub(Failure(e)), arguments, false) == Threw(e)
    ensures PublisherInvoke(Stub<V>.Stub(Failure(e)), arguments) == Failure(e)
  {
  }

  /** `AsyncStub`: the stub of the async doubles. */
  datatype AsyncStub<V> = AsyncStub(stubbedValue: Result<V, ErrorValue>)

  /** `asyncInvoke(arguments:)`: the mode is checked before the delay; a failed
      delay is ignored. */
  function AsyncStubInvoke<V>(s: AsyncStub<V>, arguments: seq<Dyn>, cancelled: bool): (r: Outcome<V>)
    ensures !r.Threw?
    ensures r.Returned? <==> s.stubbedValue.Success?
    ensures r.Returned? ==> r.value == s.stubbedValue.value
    ensures r.Fatal? ==> r.failure == TestDoubleTypeMismatch("Async", "Throwing")
  {
    match s.stubbedValue
    case Success(v) => Returned(v)
    case Failure(_) => Fatal(TestDoubleTypeMismatch("Async", "Throwing"))
  }

  /** `throwingAsyncInvoke(arguments:)`: a failed delay is thrown before the
      stored result is consulted; otherwise the value or the stored error. */
  function AsyncStubThrowingInvoke<V>(s: AsyncStub<V>, arguments: seq<Dyn>, cancelled: bool): (r: Outcome<V>)
    ensures !r.Fatal?
    ensures cancelled ==> r == Threw(CancellationError)
    ensures r.Returned? <==> s.stubbedValue.Success? && !cancelled
    ensures r.Returned? ==> r.value == s.stubbedValue.value
    ensures !cancelled && r.Threw? ==> r.error == s.stubbedValue.error
  {
    if cancelled then Threw(CancellationError)
    else
      match s.stubbedValue
      case Success(v) => Returned(v)
      case Failure(e) => Threw(e)
  }

  /** Unlike `Stub`, the async stub never aborts on cancellation: the
      non-throwing mode ignores it and the throwing mode throws it. */
  lemma AsyncStubCancellationIsNotFatal<V>(s: AsyncStub<V>, arguments: seq<Dyn>)
    ensures AsyncStubInvoke(s, arguments, true) == AsyncStubInvoke(s, arguments, false)
    ensures AsyncStubThrowingInvoke(s, arguments, true) == Threw(CancellationError)
    ensures ThrowingAsyncInvoke(Stub(s.stubbedValue), arguments, true) == Fatal(TaskExplicitlyCanceled)
  {
  }

  /** `StubPublisher`: answers every call with a publisher of its result. */
  datatype StubPublisher<V> = StubPublisher(result: Publisher<V>)

  function StubPublisherInvoke<V>(s: StubPublisher<V>, arguments: seq<Dyn>): (p: Publisher<V>)
    ensures p.Success? <==> s.result.Success?
    ensures p.Success? ==> p.value == s.result.value
    ensures p.Failure? ==> p.error == s.result.error
  {
    match s.result
    case Success(v) => Success(v)
    case Failure(e) => Failure(e)
  }
}
