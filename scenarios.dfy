/** The library's documented usage, as client code: a test double standing in
    for a two-argument `multiply(a, b)` dependency, driven through the
    factories and checked with the assertions and a recording handler. */
module Scenarios {
  import opened Wrappers
  import opened Values
  import opened Decimal
  import opened Failures
  import opened Outcomes
  import opened Arguments
  import opened ArgumentArrays
  import opened RecordedCalls
  import opened Closures
  import Factories
  import AsyncFactories
  import PublisherFactories
  import Stubs
  import XCTAssertions
  import Reporting

  /** Where the assertions of these scenarios are written. */
  const Here := Location("CalculatorTests.swift", 1)

  /** The two arguments of `multiply(3, 3)`. */
  const ThreeThree := [IntValue(3), IntValue(3)]

  /** The integer payload of a value already cast to `Int`. */
  function IntOf(d: Dyn): int {
    if d.IntValue? then d.i else 0
  }

  /** The fake of the usage examples: cast both arguments to `Int` and
      return their sum; too few or mistyped arguments abort. */
  function SumOfTwo(args: seq<Argument>): (r: Outcome<int>)
    ensures !r.Threw?
    ensures r.Returned? <==> |args| >= 2 && args[0].value.IntValue? && args[1].value.IntValue?
    ensures r.Returned? ==> r.value == args[0].value.i + args[1].value.i
  {
    var cast := As(args, [IntType, IntType], Here);
    if cast.Fatal? then Fatal(cast.failure)
    else Returned(IntOf(cast.value[0]) + IntOf(cast.value[1]))
  }

  /** A stub answers 5; re-arming the same factory with a spy answers 10 and
      logs exactly one call, so `XCTAssertCalledOnce` passes and
      `XCTAssertCalled(times: 2)` reports the counts 2 and 1. */
  method StubThenSpy() returns (first: Outcome<int>, second: Outcome<int>,
                                once: Option<Report>, twice: Option<Report>)
    ensures first == Returned(5) && second == Returned(10)
    ensures once == None
    ensures twice == Some(Report(ExpectedToBeCalledTimes(2, 1), Here))
  {
    var multiply := new Factories.TestDoubleFactory<int>();
    multiply.Stub(5);
    first := multiply.Invoke(ThreeThree);
    var spy := multiply.Spy(10);
    second := multiply.Invoke(ThreeThree);
    once := XCTAssertions.AssertCalledOnce(spy.calls, Here);
    twice := XCTAssertions.AssertCalledTimes(spy.calls, 2, Here);
  }

  /** Re-arming leaves an earlier spy's log as it was: calls after the
      switch reach only the new spy. */
  method EarlierSpyKeepsItsLog() returns (oldCount: nat, newCount: nat)
    ensures oldCount == 1 && newCount == 2
  {
    var multiply := new Factories.TestDoubleFactory<int>();
    var earlier := multiply.Spy(1);
    var _ := multiply.Invoke(ThreeThree);
    var later := multiply.Spy(2);
    var _ := multiply.Invoke(ThreeThree);
    var _ := multiply.Invoke([IntValue(4)]);
    oldCount := |earlier.calls|;
    newCount := |later.calls|;
  }

  /** A fake that sums its two `Int` arguments turns `multiply(3, 3)` into 6. */
  method FakeSums() returns (result: Outcome<int>)
    ensures result == Returned(6)
  {
    var multiply := new Factories.TestDoubleFactory<int>();
    multiply.Fake(SumOfTwo);
    result := multiply.Invoke(ThreeThree);
  }

  /** A throwing factory armed with an error spy throws that error and still
      logs the call, so `XCTAssertCalledOnce` passes. */
  method ErrorSpyThrowsAndLogs(e: ErrorValue) returns (result: Outcome<int>, once: Option<Report>)
    ensures result == Threw(e)
    ensures once == None
  {
    var multiply := new Factories.ThrowingTestDoubleFactory<int>();
    var spy := multiply.SpyError(e);
    result := multiply.ThrowingInvoke(ThreeThree);
    once := XCTAssertions.AssertCalledOnce(spy.calls, Here);
  }

  /** The throwing async factory armed with an error spy: a call throws the
      error and is logged; a cancelled call throws the cancellation and is
      logged too. */
  method AsyncErrorSpyThrowsAndLogs(e: ErrorValue) returns (first: Outcome<int>, second: Outcome<int>, count: nat)
    ensures first == Threw(e) && second == Threw(CancellationError)
    ensures count == 2
  {
    var multiply := new AsyncFactories.ThrowingAsyncTestDoubleFactory<int>();
    var spy := multiply.SpyError(e);
    first := multiply.ThrowingAsyncInvoke(ThreeThree, false);
    second := multiply.ThrowingAsyncInvoke(ThreeThree, true);
    count := |spy.calls|;
  }

  /** A publisher spy holding a failure answers with that failure and still
      logs the call with its arguments. */
  method FailingPublisherSpyLogs(e: ErrorValue) returns (result: Outcome<Stubs.Publisher<int>>, logged: seq<RecordedMethodCall>)
    ensures result == Returned(Failure(e))
    ensures logged == [Record(ThreeThree)]
  {
    var multiply := new PublisherFactories.TestDoublePublisherFactory<int>();
    var spy := multiply.Spy(Failure(e));
    result := multiply.Invoke(ThreeThree);
    logged := spy.calls;
  }

  /** One logged `multiply(3, 3)` checked against `(3, 5)`: the second
      argument has the right type and the wrong value. */
  lemma ValueMismatchAgainstThreeThree()
    ensures XCTAssertions.AssertCalledWith([Record(ThreeThree)], [IntValue(3), IntValue(5)], Here)
         == Some(Report(ValueMismatch("5", "3", "second argument"), Here))
  {
    var args := Record(ThreeThree).arguments;
    assert args == [Argument(IntValue(3), 0), Argument(IntValue(3), 1)];
    assert IntToString(5) == "5" && IntToString(3) == "3";
    assert Name(Second) == "second argument";
    assert CheckEqual(args[1], IntValue(5), Second) == Failure(ValueMismatch("5", "3", "second argument"));
  }

  /** One logged `multiply(3, 3)` checked against `("30", 5)`: the first
      argument already has the wrong type. */
  lemma TypeMismatchAgainstThreeThree()
    ensures XCTAssertions.AssertCalledWith([Record(ThreeThree)], [StringValue("30"), IntValue(5)], Here)
         == Some(Report(TypeMismatch("String", "Int", "first argument"), Here))
  {
    var args := Record(ThreeThree).arguments;
    assert args == [Argument(IntValue(3), 0), Argument(IntValue(3), 1)];
    assert Name(First) == "first argument";
    assert TypeName(StringType) == "String" && TypeName(IntType) == "Int";
    assert CheckEqual(args[0], StringValue("30"), First) == Failure(TypeMismatch("String", "Int", "first argument"));
  }

  /** One logged `multiply(3, 3)` checked against `(3, 5, 3)`: one argument
      too many is expected, so no value is compared. */
  lemma CountMismatchAgainstThreeThree()
    ensures XCTAssertions.AssertCalledWith([Record(ThreeThree)], [IntValue(3), IntValue(5), IntValue(3)], Here)
         == Some(Report(ArgumentsCountMismatch(3, 2), Here))
  {
    assert |Record(ThreeThree).arguments| == 2;
  }

  /** The recording handler of a test, installed in a fresh reporter, after
      one logged `multiply(3, 3)`: what it holds once `report` is delivered. */
  method RecordAfterOneCall(expected: seq<Dyn>) returns (message: Option<string>)
    requires 1 <= |expected| <= 9
    ensures XCTAssertions.AssertCalledWith([Record(ThreeThree)], expected, Here).Some? ==>
              message == Some(Message(XCTAssertions.AssertCalledWith([Record(ThreeThree)], expected, Here).value.failure))
  {
    var reporter := new Reporting.FailureReporter();
    reporter.SetHandler(Reporting.CustomHandler(1));
    var multiply := new Factories.TestDoubleFactory<int>();
    var spy := multiply.Spy(5);
    var _ := multiply.Invoke(ThreeThree);
    assert spy.calls == [Record(ThreeThree)];
    var report := XCTAssertions.AssertCalledWith(spy.calls, expected, Here);
    reporter.Deliver(report);
    if report.Some? {
      assert reporter.delivered == [Reporting.Delivery(Reporting.CustomHandler(1), report.value)];
      Reporting.DeliveryUpdatesOnlyItsHandler([], reporter.delivered[0], Reporting.CustomHandler(1));
    }
    message := Reporting.LastMessage(reporter.delivered, Reporting.CustomHandler(1));
    reporter.ResetToDefault();
  }

  /** After `multiply(3, 3)`, expecting `(3, 5)` makes the installed handler
      receive "Expected second argument to be <5> but got <3>". */
  method ReporterReceivesValueMismatch() returns (message: Option<string>)
    ensures message == Some("Expected second argument to be <5> but got <3>")
  {
    ValueMismatchAgainstThreeThree();
    PinnedValueMismatchMessage();
    message := RecordAfterOneCall([IntValue(3), IntValue(5)]);
  }

  /** Expecting `("30", 5)` makes it receive "Expected first argument to be
      <String> but got <Int>". */
  method ReporterReceivesTypeMismatch() returns (message: Option<string>)
    ensures message == Some("Expected first argument to be <String> but got <Int>")
  {
    TypeMismatchAgainstThreeThree();
    PinnedTypeMismatchMessage();
    message := RecordAfterOneCall([StringValue("30"), IntValue(5)]);
  }

  /** Expecting `(3, 5, 3)` makes it receive "Expected arguments count to be
      <3> but got <2>". */
  method ReporterReceivesCountMismatch() returns (message: Option<string>)
    ensures message == Some("Expected arguments count to be <3> but got <2>")
  {
    CountMismatchAgainstThreeThree();
    PinnedCountMismatchMessage();
    message := RecordAfterOneCall([IntValue(3), IntValue(5), IntValue(3)]);
  }

  /** Three calls to a spy, then `XCTAssertCalledOnce` or
      `XCTAssertCalled(times: 2)` with a recording handler installed. */
  method RecordAfterThreeCalls(times: Option<int>) returns (message: Option<string>)
    ensures times.None? ==> message == Some(Message(ExpectedToBeCalledOnce(3)))
    ensures times.Some? && times.value != 3 ==> message == Some(Message(ExpectedToBeCalledTimes(times.value, 3)))
  {
    var reporter := new Reporting.FailureReporter();
    reporter.SetHandler(Reporting.CustomHandler(1));
    var multiply := new Factories.TestDoubleFactory<int>();
    var spy := multiply.Spy(5);
    var _ := multiply.Invoke(ThreeThree);
    var _ := multiply.Invoke(ThreeThree);
    var _ := multiply.Invoke(ThreeThree);
    assert |spy.calls| == 3;
    var report := if times.None? then XCTAssertions.AssertCalledOnce(spy.calls, Here)
                  else XCTAssertions.AssertCalledTimes(spy.calls, times.value, Here);
    reporter.Deliver(report);
    message := Reporting.LastMessage(reporter.delivered, Reporting.CustomHandler(1));
  }

  /** "Expected to be called once but called 3 time(s)" and "Expected to be
      called 2 time(s) but called 3 time(s)" after three calls. */
  method ReporterReceivesCountFailures() returns (onceMessage: Option<string>, timesMessage: Option<string>)
    ensures onceMessage == Some("Expected to be called once but called 3 time(s)")
    ensures timesMessage == Some("Expected to be called 2 time(s) but called 3 time(s)")
  {
    PinnedCalledOnceMessage();
    PinnedCalledTimesMessage();
    onceMessage := RecordAfterThreeCalls(None);
    timesMessage := RecordAfterThreeCalls(Some(2));
  }
}
