/** `TestDoublePublisherFactory`: the factory whose doubles answer with a
    publisher, modelled as the single result that publisher emits. */
module PublisherFactories {
  import opened Wrappers
  import opened Values
  import opened Failures
  import opened Outcomes
  import opened Arguments
  import opened RecordedCalls
  import opened Closures
  import Stubs
  import Spies
  import Fakes

  /** What the publisher factory's closure is bound to. */
  datatype PublisherInstalled<V> =
    | StubPublisherClosure(stub: Stubs.StubPublisher<V>)
    | SpyPublisherClosure(spy: Spies.SpyPublisher<V>)
    | FakePublisherClosure(fake: Fakes.FakePublisher<V>)

  class TestDoublePublisherFactory<V> {
    var invokePublisher: Option<PublisherInstalled<V>>

    function Wired(): set<object>
      reads this
    {
      if invokePublisher.Some? && invokePublisher.value.SpyPublisherClosure? then {invokePublisher.value.spy} else {}
    }

    /** `init()`: nothing installed yet. */
    constructor ()
      ensures invokePublisher == None
    {
      invokePublisher := None;
    }

    /** `invoke(arguments:)`: fatal `nilValue` before any builder ran;
        otherwise the publisher of the installed double. */
    method Invoke(arguments: seq<Dyn>) returns (r: Outcome<Stubs.Publisher<V>>)
      modifies Wired()
      ensures !r.Threw?
      ensures invokePublisher.None? ==> r == Fatal(NilValue)
      ensures invokePublisher.Some? && invokePublisher.value.StubPublisherClosure? ==>
                r == Returned(invokePublisher.value.stub.result)
      ensures invokePublisher.Some? && invokePublisher.value.SpyPublisherClosure? ==>
                r == Returned(invokePublisher.value.spy.stub.result)
                && invokePublisher.value.spy.calls == old(invokePublisher.value.spy.calls) + [Record(arguments)]
      ensures invokePublisher.Some? && invokePublisher.value.FakePublisherClosure? ==>
                r == invokePublisher.value.fake.publisher(Wrap(arguments))
    {
      match invokePublisher
      case None =>
        r := Fatal(NilValue);
      case Some(StubPublisherClosure(s)) =>
        r := Returned(Stubs.StubPublisherInvoke(s, arguments));
      case Some(SpyPublisherClosure(sp)) =>
        var p := sp.Invoke(arguments);
        r := Returned(p);
      case Some(FakePublisherClosure(f)) =>
        r := Fakes.FakePublisherInvoke(f, arguments);
    }

    /** `stub(_ result:)`. */
    method Stub(result: Stubs.Publisher<V>)
      modifies this
      ensures invokePublisher == Some(StubPublisherClosure(Stubs.StubPublisher(result)))
    {
      invokePublisher := Some(StubPublisherClosure(Stubs.StubPublisher(result)));
    }

    /** `spy(_ result:)`: installs and returns a fresh spy with an empty log. */
    method Spy(result: Stubs.Publisher<V>) returns (spy: Spies.SpyPublisher<V>)
      modifies this
      ensures fresh(spy) && spy.calls == [] && spy.stub == Stubs.StubPublisher(result)
      ensures invokePublisher == Some(SpyPublisherClosure(spy))
    {
      spy := new Spies.SpyPublisher(result);
      invokePublisher := Some(SpyPublisherClosure(spy));
    }

    /** `fake(_ publisherClosure:)`. */
    method Fake(callback: NonThrowingCallback<Stubs.Publisher<V>>)
      modifies this
      ensures invokePublisher == Some(FakePublisherClosure(Fakes.FakePublisher(callback)))
    {
      invokePublisher := Some(FakePublisherClosure(Fakes.FakePublisher(callback)));
    }
  }
}
