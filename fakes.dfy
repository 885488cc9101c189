/** Fakes: doubles that forward each call to a callback of the test author,
    after wrapping the raw arguments with their positions. A fake holds only
    its callback, fixed when it is built, so each is a value. */
module Fakes {
  import opened Values
  import opened Failures
  import opened Outcomes
  import opened Arguments
  import opened Closures
  import Stubs

  /** `Fake`: a callback tagged with its calling mode. */
  datatype Fake<V> = Fake(closure: Closure<V>)

  /** `Fake.invoke(arguments:)`: the callback of a normal-mode fake, run on
      every argument wrapped with its index (no cap on their number); any
      other mode is a fatal mode mismatch. */
  function FakeInvoke<V>(f: Fake<V>, arguments: seq<Dyn>): (r: Outcome<V>)
    ensures !r.Threw?
    ensures f.closure.Normal? ==> r == f.closure.normal(Wrap(arguments))
    ensures !f.closure.Normal? ==> r == Fatal(TestDoubleTypeMismatch("Normal", Description(f.closure)))
  {
    if f.closure.Normal? then f.closure.normal(Wrap(arguments))
    else Fatal(TestDoubleTypeMismatch("Normal", Description(f.closure)))
  }

  /** `Fake.throwingInvoke(arguments:)`: the callback of a throwing-mode fake,
      whose value or error passes through unchanged; any other mode is a
      fatal mode mismatch. */
  function FakeThrowingInvoke<V>(f: Fake<V>, arguments: seq<Dyn>): (r: Outcome<V>)
    ensures f.closure.Throwing? ==> r == f.closure.throwing(Wrap(arguments))
    ensures !f.closure.Throwing? ==> r == Fatal(TestDoubleTypeMismatch("Throwing", Description(f.closure)))
  {
    if f.closure.Throwing? then f.closure.throwing(Wrap(arguments))
    else Fatal(TestDoubleTypeMismatch("Throwing", Description(f.closure)))
  }

  /** `AsyncFake`: a callback tagged normal or throwing when it is built. */
  datatype AsyncFake<V> = AsyncFake(closure: AsyncClosure<V>)

  /** `AsyncFake.asyncInvoke(arguments:)`: only a normal callback may be
      called through the non-throwing async mode. */
  function AsyncFakeInvoke<V>(f: AsyncFake<V>, arguments: seq<Dyn>): (r: Outcome<V>)
    ensures !r.Threw?
    ensures f.closure.AsyncNormal? ==> r == f.closure.normal(Wrap(arguments))
    ensures !f.closure.AsyncNormal? ==> r == Fatal(TestDoubleTypeMismatch("Async", AsyncDescription(f.closure)))
  {
    if f.closure.AsyncNormal? then f.closure.normal(Wrap(arguments))
    else Fatal(TestDoubleTypeMismatch("Async", AsyncDescription(f.closure)))
  }

  /** `AsyncFake.throwingAsyncInvoke(arguments:)`: only a throwing callback may
      be called through the throwing async mode. */
  function AsyncFakeThrowingInvoke<V>(f: AsyncFake<V>, arguments: seq<Dyn>): (r: Outcome<V>)
    ensures f.closure.AsyncThrowingClosure? ==> r == f.closure.throwing(Wrap(arguments))
    ensures !f.closure.AsyncThrowingClosure? ==>
              r == Fatal(TestDoubleTypeMismatch("AsyncThrowing", AsyncDescription(f.closure)))
  {
    if f.closure.AsyncThrowingClosure? then f.closure.throwing(Wrap(arguments))
    else Fatal(TestDoubleTypeMismatch("AsyncThrowing", AsyncDescription(f.closure)))
  }

  /** Each async fake answers through exactly one of the two async modes: the
      other one is always a fatal mismatch that names the stored mode. */
  lemma AsyncFakeAnswersInOneMode<V>(f: AsyncFake<V>, arguments: seq<Dyn>)
    ensures AsyncFakeInvoke(f, arguments).Fatal? || AsyncFakeThrowingInvoke(f, arguments).Fatal?
    ensures f.closure.AsyncNormal? ==>
              AsyncFakeThrowingInvoke(f, arguments) == Fatal(TestDoubleTypeMismatch("AsyncThrowing", "Normal"))
    ensures f.closure.AsyncThrowingClosure? ==>
              AsyncFakeInvoke(f, arguments) == Fatal(TestDoubleTypeMismatch("Async", "Throwing"))
  {
  }

  /** `FakePublisher`: a callback that builds the publisher to return. */
  datatype FakePublisher<V> = FakePublisher(publisher: NonThrowingCallback<Stubs.Publisher<V>>)

  /** `FakePublisher.invoke(arguments:)`: the callback's publisher for every
      argument wrapped with its index. */
  function FakePublisherInvoke<V>(f: FakePublisher<V>, arguments: seq<Dyn>): (r: Outcome<Stubs.Publisher<V>>)
    ensures !r.Threw?
    ensures r == f.publisher(Wrap(arguments))
  {
    f.publisher(Wrap(arguments))
  }

  /** Whatever its kind and mode, a fake that answers hands its callback
      exactly the call's arguments, in order, each at its own offset. */
  lemma {:induction false} CallbackReceivesTheArguments<V>(f: Fake<V>, a: AsyncFake<V>, p: FakePublisher<V>, arguments: seq<Dyn>)
    ensures ValuesOf(Wrap(arguments)) == arguments
    ensures forall i :: 0 <= i < |arguments| ==> Wrap(arguments)[i].offset == i
    ensures f.closure.Normal? ==> FakeInvoke(f, arguments) == f.closure.normal(Wrap(arguments))
    ensures f.closure.Throwing? ==> FakeThrowingInvoke(f, arguments) == f.closure.throwing(Wrap(arguments))
    ensures a.closure.AsyncNormal? ==> AsyncFakeInvoke(a, arguments) == a.closure.normal(Wrap(arguments))
    ensures a.closure.AsyncThrowingClosure? ==> AsyncFakeThrowingInvoke(a, arguments) == a.closure.throwing(Wrap(arguments))
    ensures FakePublisherInvoke(p, arguments) == p.publisher(Wrap(arguments))
  {
    ValuesOfWrap(arguments);
  }
}
