# Guava invocation core in Dafny

Guava is a Swift library of test doubles. A test replaces a dependency's method with a
*factory* and arms it with one of three doubles:

- a **stub** answers every call with one stored value or error;
- a **spy** does the same and also logs every call's arguments;
- a **fake** forwards the call to a callback written by the test.

Each double answers through one *calling mode*: plain, throwing, async, throwing async, or
publisher. A mode the double was not built for aborts the test. Afterwards the test checks the
spy's log with XCTest-style assertions. Each assertion hands at most one failure report to a
process-wide, replaceable *failure reporter*.

This project models that core:

- the argument wrappers and their casts and equality checks;
- the recorded call, capped at nine arguments, and its fail-fast check against an expected tuple;
- the expected-call value;
- every failure kind and its exact message;
- the three stubs, the three spies and the three fakes;
- the two closure-mode tags;
- the five factories;
- the assertion helpers;
- `reportFailure`;
- the failure reporter.

## How the model is built

- **Values.** Swift's `Any` is `Values.Dyn`, a value tagged `Int`, `String` or `Bool`. A Swift
  `as? T` is a match on that tag. A type's name is its Swift name, and a value prints as Swift
  interpolation prints it.
- **Outcomes.** Every entry point returns `Outcomes.Outcome`: `Returned(v)`, `Threw(e)` or
  `Fatal(f)`. `Fatal` stands for `handleFatalError`, which never returns. A user error is
  `UserError(domain, code)`. A cancelled `Task.sleep` throws `CancellationError`.
- **Reports.** The pure parts give back their non-fatal report as a value: an
  `Option<Report>`, or a `Reported` pair of a result and at most one report.
  `Reporting.FailureReporter` is the object whose handler receives reports. It logs each
  delivery together with the handler that received it.
- **Fixed doubles are values.** Stubs, fakes, the closure tags, `RecordedMethodCall` and
  `MethodCall` are datatypes, and their entry points are functions.
- **Mutable objects are classes.** Spies and factories change state, so they are classes:
  - a spy's `calls` log is a `seq` that every entry point extends;
  - a factory's `invokeClosure` is `None` while unarmed, otherwise a tagged value naming the
    installed double;
  - a spy is installed by reference, so calls through the factory land in the log of the spy
    object the test holds;
  - a builder changes only the factory, so a spy from an earlier `spy(...)` call keeps its log
    and receives no new calls.
- **Arities.** The per-arity overloads (one to nine values) become one function over a
  sequence, with `1 <= |expected| <= 9` as the arity bound.
- **Delays.** A stub's delay is not modelled. Its only observable effect, a cancelled sleep, is
  the `cancelled` input of the async entry points:
  - a cancelled `Stub` aborts with `taskExplicitlyCanceled`;
  - a cancelled `AsyncStub` in the throwing mode throws the cancellation;
  - a cancelled `AsyncStub` in the non-throwing mode ignores it.

### Where the source text is incomplete

These places in the source are inconsistent with each other. The model resolves each one as
described.

- **Argument positions.**
  - `Argument(value:position:)` is called in `Sources/Entities/RecordedMethodCall.swift:14`,
    `Fake.swift`, `AsyncFake.swift` and `FakePublisher.swift`.
  - But `Argument` declares only `value` (`Sources/Entities/Argument.swift:27`), and the
    initializer from an offset to a `Position` is not shown.
  - The model stores the offset. The position is the offset's case, and only the first nine
    offsets have one (`Arguments.PositionAt`). Callers pass positions by index.
- **Bool versus Result.**
  - `assertEqual` and `assertSize` return `Bool` and report directly.
  - `assertCalled(with:)` chains them as `Result` values with `flatMap`, and calls
    `assertEqual` without a position.
  - The model gives both forms:
    - `Arguments.CheckEqual` and `ArgumentArrays.CheckSize` return a `Result`;
    - `Arguments.AssertEqual` and `ArgumentArrays.AssertSize` return the `Bool` with its report.
  - A lemma ties each pair together. The chain passes each argument's own position.
- **Missing failure cases.**
  - `testDoubleTypeMismatch` and `taskExplicitlyCanceled` are raised by the doubles but are
    absent from the failure enum.
  - The model adds both. Their texts, "Expected <e> test double but got <r>" and "Task was
    explicitly canceled", are the model's own.
- **Throwing fake.**
  - `Fake` stores one non-throwing closure.
  - Yet the throwing factory builds it from a throwing closure and calls `throwingInvoke`, which
    does not exist.
  - `Fakes.Fake` therefore holds a `Closure` tag and guards each entry point on it, as
    `AsyncFake` does.
- **Spy's type parameters.** `Spy` declares two type parameters, a value and an error type.
  `TestDoubleFactory` writes `Spy<Value, Never>` with both
  (`Sources/Entities/TestDoubleFactory.swift:32-33`). `ThrowingTestDoubleFactory`
  (`Sources/Entities/ThrowingTestDoubleFactory.swift:40,50-51`) and the `XCTAssert` helpers
  (`Sources/XCTAssert/XCTAssert.swift:8-186`) write `Spy<Value>` and `Spy<Out>` with one. The
  model's `Spy<V>` carries the error as an `ErrorValue`.

## Model

| member | source | states |
|---|---|---|
| Arguments.Name | Sources/Entities/Argument.swift:17-19 | a position's name ends in " argument" |
| Arguments.NameInjective | Sources/Entities/Argument.swift:4-19 | distinct positions have distinct names, so a message names its argument unambiguously |
| Arguments.PositionAt | Sources/Entities/Argument.swift:4-14 | exactly the offsets 0..8 have a position, and that position's index is the offset |
| Arguments.PositionIndexRoundTrip | Sources/Entities/Argument.swift:4-14 | every one of the nine positions is the position at its own index |
| Arguments.Cast | Sources/Entities/Argument.swift:62-75 | the value comes back unchanged with no report iff it has the asked type; otherwise nil and exactly one `typeMismatch(T, stored type, position name)` report |
| Arguments.CastStrictly | Sources/Entities/Argument.swift:83-95 | returns the value on a type match; otherwise the fatal `typeMismatch`, and never a throw |
| Arguments.StrictCastAgreesWithCast | Sources/Entities/Argument.swift:62-95 | the strict cast succeeds exactly when the soft one does, and aborts with the failure the soft one reports |
| Arguments.CheckEqual | Sources/Entities/Argument.swift:36-54 | success iff the stored value equals the expected one; wrong type gives `typeMismatch`, right type with a wrong value gives `valueMismatch(expected, received, name)` |
| Arguments.AssertEqual | Sources/Entities/Argument.swift:36-54 | returns true iff the values are equal, and reports something iff it returns false |
| Arguments.AssertEqualReportsCheckEqual | Sources/Entities/Argument.swift:40-53 | the Bool form reports exactly the failure of the Result form, so a type mismatch is never also reported as a value mismatch |
| Arguments.Wrap | Sources/Entities/Fake.swift:14-16 | the i-th raw value becomes the argument at offset i, and nothing is dropped |
| Arguments.ValuesOfWrap | Sources/Entities/Fake.swift:14-16 | unwrapping wrapped arguments gives back the raw values |
| ArgumentArrays.CheckSize | Sources/Entities/Array+Argument.swift:10-30 | success iff there are at least n arguments (surplus is fine); otherwise `argumentsCountMismatch(n, count)` |
| ArgumentArrays.AssertSize | Sources/Entities/Array+Argument.swift:10-30 | fatal iff strict and too short; otherwise returns whether the count suffices, with the non-fatal report of the size check |
| ArgumentArrays.CastFrom | Sources/Entities/Array+Argument.swift:297-321 | the casts from one position on succeed iff every type matches, giving the values in order; otherwise the failure of the lowest mismatching position |
| ArgumentArrays.As | Sources/Entities/Array+Argument.swift:45-75 | the strict size check comes first; then the values of the first n arguments iff all n types match, else the fatal type mismatch of the lowest failing position |
| RecordedCalls.Record | Sources/Entities/RecordedMethodCall.swift:5-15 | keeps exactly the first min(n, 9) inputs, the i-th with value i and position i |
| RecordedCalls.CheckFrom | Sources/Entities/RecordedMethodCall.swift:38-43 | the `flatMap` chain from one position on succeeds iff every value matches; otherwise it fails at the lowest mismatch |
| RecordedCalls.AssertCalled | Sources/Entities/RecordedMethodCall.swift:131-145 | too few arguments gives `argumentsCountMismatch(n, count)` before any value is read; success iff the first n values match; otherwise the lowest failing position's failure |
| RecordedCalls.RecordedCallMatchesPrefix | Sources/Entities/RecordedMethodCall.swift:10-43 | a call recorded from raw inputs matches an expected tuple iff the tuple is a prefix of those inputs |
| MethodCalls.AssertEquals | Sources/Entities/MethodCall.swift:5-12 | applies the assertion fixed when the expected call was built to the recorded call; what that assertion is, is stated by `MethodCalls.Expecting` |
| MethodCalls.RecordedAssertEquals | Sources/Entities/RecordedMethodCall.swift:20-22 | a recorded call compared with an expected call gives exactly the result of the expected call compared with the recorded one |
| MethodCalls.Expecting | Sources/Entities/MethodCall.swift:19-92 | the expected call built from one to nine values runs `assertCalled(with:)` with those values on any recorded call it is compared with |
| MethodCalls.ExpectingAssertsCalledWith | Sources/Entities/MethodCall.swift:10-92 | comparing an expected call built from a tuple with a recorded call, from either side, is `assertCalled(with:)` on that tuple |
| MethodCalls.ExpectingAcceptsRecordedPrefix | Sources/Entities/RecordedMethodCall.swift:20-22 | an expected call accepts a recorded call iff its tuple is a prefix of the raw inputs |
| Failures.Message | Sources/FailureReporter/AssertionFailure.swift:15-34 | renders each failure case exactly as the Swift `switch` does (the texts are pinned by the lemmas below); the message is never empty and starts with "Expected " for every failure except the nil factory and the cancelled delay; the texts of `testDoubleTypeMismatch` and `taskExplicitlyCanceled` are the model's own |
| Failures.MismatchMessagesAgree | Sources/FailureReporter/AssertionFailure.swift:21-24 | type and value mismatches render as "Expected {argument} to be <{expected}> but got <{received}>" |
| Failures.PinnedCountMismatchMessage | Sources/FailureReporter/AssertionFailure.swift:19-20 | `argumentsCountMismatch(3, 2)` reads "Expected arguments count to be <3> but got <2>" |
| Failures.PinnedCalledOnceMessage | Sources/FailureReporter/AssertionFailure.swift:29-30 | `expectedToBeCalledOnce(3)` reads "Expected to be called once but called 3 time(s)" |
| Failures.PinnedCalledTimesMessage | Sources/FailureReporter/AssertionFailure.swift:31-32 | `expectedToBeCalledTimes(2, 3)` reads "Expected to be called 2 time(s) but called 3 time(s)" |
| Failures.PinnedValueMismatchMessage | Sources/FailureReporter/AssertionFailure.swift:23-24 | the value mismatch of the second argument, 5 against 3, reads "Expected second argument to be <5> but got <3>" |
| Failures.PinnedTypeMismatchMessage | Sources/FailureReporter/AssertionFailure.swift:21-22 | the type mismatch of the first argument, String against Int, reads "Expected first argument to be <String> but got <Int>" |
| Failures.CalledOnceMessageInjective | Sources/FailureReporter/AssertionFailure.swift:29-30 | the called-once message determines the count |
| Failures.CalledTimesMessageInjective | Sources/FailureReporter/AssertionFailure.swift:31-32 | the called-times message determines both counts |
| Failures.CountMismatchMessageInjective | Sources/FailureReporter/AssertionFailure.swift:19-20 | the count-mismatch message determines both counts |
| Decimal.NatToStringRoundTrip | Sources/FailureReporter/AssertionFailure.swift:20 | the decimal text of a count reads back as that count |
| Decimal.IntToString | Sources/FailureReporter/AssertionFailure.swift:19-32 | `"\(n)"` of an `Int`: never empty, and starts with a minus sign exactly when the number is negative |
| Decimal.IntToStringInjective | Sources/FailureReporter/AssertionFailure.swift:19-32 | two integers that print alike are equal |
| Values.TypeOf | Sources/Entities/Argument.swift:66 | the runtime type a cast `as? T` tests: `Int` exactly for integers, `String` exactly for strings |
| Values.TypeName | Sources/Entities/Argument.swift:22-25 | the printed name of a Swift type, as `"\(T.self)"` and the reflected stored type give it: never empty and capitalised |
| Values.TypeNameInjective | Sources/Entities/Argument.swift:23-25 | distinct runtime types have distinct names |
| Values.Display | Sources/Entities/Argument.swift:46-47 | what `"\(value)"` prints: a string verbatim, an integer with a minus sign exactly when negative, a Boolean as "true" exactly when it is true |
| Values.DisplayInjectiveWithinType | Sources/Entities/Argument.swift:45-48 | two values of one type print alike exactly when they are equal, so a value mismatch never shows two equal texts |
| ResultReporting.ReportFailure | Sources/XCTAssert/Result+Guava.swift:7-11 | success reports nothing; `failure(f)` reports exactly f at the caller's location; never fatal |
| Closures.DescriptionDistinguishesModes | Sources/Entities/Closure.swift:11-22 | the four descriptions "Normal", "Throwing", "Async" and "AsyncThrowing" are pairwise distinct and depend only on the mode |
| Closures.AsyncDescriptionDistinguishesModes | Sources/Entities/AsyncClosure.swift:11-18 | "Normal" and "Throwing" tell the two async modes apart |
| Stubs.Invoke | Sources/Entities/Stub.swift:20-28 | a value stub returns its value for any arguments; an error stub aborts with `testDoubleTypeMismatch("Normal", "Throwing")` |
| Stubs.ThrowingInvoke | Sources/Entities/Stub.swift:33-40 | returns the stored value or throws exactly the stored error; never fatal |
| Stubs.AsyncInvoke | Sources/Entities/Stub.swift:46-59 | the error check comes before the delay: an error stub aborts with `("Async", "Throwing")`; a cancelled delay aborts with `taskExplicitlyCanceled`; otherwise the value |
| Stubs.ThrowingAsyncInvoke | Sources/Entities/Stub.swift:65-78 | a cancelled delay aborts with `taskExplicitlyCanceled`; otherwise the value or the stored error |
| Stubs.PublisherInvoke | Sources/Entities/Stub.swift:87-94 | success(v) emits v and failure(e) fails with e |
| Stubs.ValueStubAnswersEveryMode | Sources/Entities/Stub.swift:7-10 | a value stub answers its value in every mode |
| Stubs.ErrorStubThrowsOrAborts | Sources/Entities/Stub.swift:12-15 | an error stub aborts in the non-throwing modes and throws its error in the throwing ones |
| Stubs.AsyncStubInvoke | Sources/Entities/AsyncStub.swift:23-32 | an error stub aborts with `("Async", "Throwing")`; a value stub returns its value whether or not the delay failed |
| Stubs.AsyncStubThrowingInvoke | Sources/Entities/AsyncStub.swift:39-48 | a failed delay is thrown before the result is consulted; otherwise the value or the stored error; never fatal |
| Stubs.AsyncStubCancellationIsNotFatal | Sources/Entities/AsyncStub.swift:39-48 | unlike `Stub`, cancellation is ignored or thrown, never fatal |
| Stubs.StubPublisherInvoke | Sources/Entities/StubPublisher.swift:15-20 | the publisher emits the stored result, whatever the arguments |
| Fakes.FakeInvoke | Sources/Entities/Fake.swift:13-18 | a normal-mode fake gives the callback's result on all arguments wrapped with their offsets; another mode aborts with `testDoubleTypeMismatch("Normal", mode)` |
| Fakes.FakeThrowingInvoke | Sources/Entities/ThrowingTestDoubleFactory.swift:60-63 | a throwing-mode fake passes the callback's value or error through unchanged; another mode aborts with `testDoubleTypeMismatch("Throwing", mode)` |
| Fakes.AsyncFakeInvoke | Sources/Entities/AsyncFake.swift:20-34 | a normal callback gets the wrapped arguments; a throwing one aborts with `testDoubleTypeMismatch("Async", "Throwing")` |
| Fakes.AsyncFakeThrowingInvoke | Sources/Entities/AsyncFake.swift:41-55 | a throwing callback's result or error passes through; a normal one aborts with `("AsyncThrowing", "Normal")` |
| Fakes.AsyncFakeAnswersInOneMode | Sources/Entities/AsyncFake.swift:7-55 | each async fake answers in exactly one of the two modes; the other aborts naming the stored mode |
| Fakes.FakePublisherInvoke | Sources/Entities/FakePublisher.swift:17-22 | the callback's publisher on all arguments wrapped with their offsets |
| Fakes.CallbackReceivesTheArguments | Sources/Entities/Fake.swift:13-18 | every kind of fake hands its callback exactly the call's arguments, in order, each at its own offset |
| Spies.Spy.constructor | Sources/Entities/Spy.swift:8-10 | an empty log and a value stub |
| Spies.Spy.FromError | Sources/Entities/Spy.swift:12-14 | an empty log and an error stub |
| Spies.Spy.Invoke | Sources/Entities/Spy.swift:19-23 | appends exactly the recorded call and answers as the stub does |
| Spies.Spy.ThrowingInvoke | Sources/Entities/Spy.swift:28-32 | appends the recorded call even when the stub throws, then answers as the stub does |
| Spies.Spy.AsyncInvoke | Sources/Entities/Spy.swift:38-42 | appends the recorded call, then answers as the stub's async mode does |
| Spies.Spy.ThrowingAsyncInvoke | Sources/Entities/Spy.swift:48-52 | appends the recorded call, then answers as the stub's throwing async mode does |
| Spies.AsyncSpy.constructor | Sources/Entities/AsyncSpy.swift:9-11 | an empty log and a value stub |
| Spies.AsyncSpy.FromError | Sources/Entities/AsyncSpy.swift:13-15 | an empty log and an error stub |
| Spies.AsyncSpy.AsyncInvoke | Sources/Entities/AsyncSpy.swift:22-26 | appends the recorded call, then answers as the async stub does |
| Spies.AsyncSpy.ThrowingAsyncInvoke | Sources/Entities/AsyncSpy.swift:33-37 | appends the recorded call, then answers, a thrown cancellation included, as the async stub does |
| Spies.SpyPublisher.constructor | Sources/Entities/SpyPublisher.swift:10-12 | an empty log and the stored result |
| Spies.SpyPublisher.Invoke | Sources/Entities/SpyPublisher.swift:18-22 | appends the recorded call, then returns the stored result, a failure included |
| Factories.TestDoubleFactory.constructor | Sources/Entities/TestDoubleFactory.swift:4-6 | starts unarmed |
| Factories.TestDoubleFactory.Invoke | Sources/Entities/TestDoubleFactory.swift:11-17 | unarmed is fatal `nilValue`; otherwise the installed double answers and the factory is unchanged; a stub or spy returns its value, and only the installed spy's log grows; a fake gives the callback's result; never a throw |
| Factories.TestDoubleFactory.Stub | Sources/Entities/TestDoubleFactory.swift:24-28 | installs a value stub in place of whatever was installed |
| Factories.TestDoubleFactory.Spy | Sources/Entities/TestDoubleFactory.swift:32-38 | installs and returns a fresh value spy with an empty log; no other object changes |
| Factories.TestDoubleFactory.Fake | Sources/Entities/TestDoubleFactory.swift:42-45 | installs a normal-mode fake around the callback |
| Factories.ThrowingTestDoubleFactory.constructor | Sources/Entities/ThrowingTestDoubleFactory.swift:4-6 | starts unarmed |
| Factories.ThrowingTestDoubleFactory.ThrowingInvoke | Sources/Entities/ThrowingTestDoubleFactory.swift:11-17 | unarmed is fatal `nilValue`; a stub or spy returns or throws its result and never aborts; the spy logs the call; a fake's value or error passes through |
| Factories.ThrowingTestDoubleFactory.Stub | Sources/Entities/ThrowingTestDoubleFactory.swift:24-28 | installs a value stub |
| Factories.ThrowingTestDoubleFactory.StubError | Sources/Entities/ThrowingTestDoubleFactory.swift:32-36 | installs an error stub |
| Factories.ThrowingTestDoubleFactory.Spy | Sources/Entities/ThrowingTestDoubleFactory.swift:40-46 | installs and returns a fresh value spy |
| Factories.ThrowingTestDoubleFactory.SpyError | Sources/Entities/ThrowingTestDoubleFactory.swift:50-56 | installs and returns a fresh error spy |
| Factories.ThrowingTestDoubleFactory.Fake | Sources/Entities/ThrowingTestDoubleFactory.swift:60-63 | installs a throwing-mode fake, so the mode guard always passes |
| AsyncFactories.AsyncTestDoubleFactory.constructor | Sources/Entities/AsyncTestDoubleFactory.swift:5-7 | starts unarmed |
| AsyncFactories.AsyncTestDoubleFactory.AsyncInvoke | Sources/Entities/AsyncTestDoubleFactory.swift:13-19 | unarmed is fatal `nilValue`; a stub or spy returns its value even after a cancelled delay, so the error-mismatch abort cannot be reached; the spy logs the call; a fake gives the normal callback's result |
| AsyncFactories.AsyncTestDoubleFactory.Stub | Sources/Entities/AsyncTestDoubleFactory.swift:28-32 | installs a value async stub |
| AsyncFactories.AsyncTestDoubleFactory.Spy | Sources/Entities/AsyncTestDoubleFactory.swift:37-43 | installs and returns a fresh value async spy |
| AsyncFactories.AsyncTestDoubleFactory.Fake | Sources/Entities/AsyncTestDoubleFactory.swift:47-50 | installs a normal async fake, so the mode guard always passes |
| AsyncFactories.ThrowingAsyncTestDoubleFactory.constructor | Sources/Entities/ThrowingAsyncTestDoubleFactory.swift:5-7 | starts unarmed |
| AsyncFactories.ThrowingAsyncTestDoubleFactory.ThrowingAsyncInvoke | Sources/Entities/ThrowingAsyncTestDoubleFactory.swift:13-19 | unarmed is fatal `nilValue`; a stub or spy never aborts: it throws the cancellation when cancelled, and otherwise gives its value or error; the spy logs the call; a fake's value or error passes through |
| AsyncFactories.ThrowingAsyncTestDoubleFactory.Stub | Sources/Entities/ThrowingAsyncTestDoubleFactory.swift:28-32 | installs a value async stub |
| AsyncFactories.ThrowingAsyncTestDoubleFactory.StubError | Sources/Entities/ThrowingAsyncTestDoubleFactory.swift:37-41 | installs an error async stub |
| AsyncFactories.ThrowingAsyncTestDoubleFactory.Spy | Sources/Entities/ThrowingAsyncTestDoubleFactory.swift:46-52 | installs and returns a fresh value async spy |
| AsyncFactories.ThrowingAsyncTestDoubleFactory.SpyError | Sources/Entities/ThrowingAsyncTestDoubleFactory.swift:57-63 | installs and returns a fresh error async spy |
| AsyncFactories.ThrowingAsyncTestDoubleFactory.Fake | Sources/Entities/ThrowingAsyncTestDoubleFactory.swift:67-70 | installs a throwing async fake |
| PublisherFactories.TestDoublePublisherFactory.constructor | Sources/Entities/TestDoublePublisherFactory.swift:9-11 | starts unarmed |
| PublisherFactories.TestDoublePublisherFactory.Invoke | Sources/Entities/TestDoublePublisherFactory.swift:15-21 | unarmed is fatal `nilValue`; a stub or spy returns its stored result, and the spy logs the call; a fake gives the callback's publisher |
| PublisherFactories.TestDoublePublisherFactory.Stub | Sources/Entities/TestDoublePublisherFactory.swift:29-33 | installs a publisher stub |
| PublisherFactories.TestDoublePublisherFactory.Spy | Sources/Entities/TestDoublePublisherFactory.swift:37-43 | installs and returns a fresh publisher spy |
| PublisherFactories.TestDoublePublisherFactory.Fake | Sources/Entities/TestDoublePublisherFactory.swift:47-50 | installs a publisher fake |
| XCTAssertions.AssertCalled | Sources/XCTAssert/XCTAssert.swift:8-13 | reports `expectedToBeCalled` iff the log is empty |
| XCTAssertions.AssertNotCalled | Sources/XCTAssert/XCTAssert.swift:20-25 | reports `expectedToNotBeCalled` iff the log is not empty |
| XCTAssertions.AssertCalledOnce | Sources/XCTAssert/XCTAssert.swift:32-37 | reports `expectedToBeCalledOnce(count)` iff the count is not 1 |
| XCTAssertions.AssertCalledTimes | Sources/XCTAssert/XCTAssert.swift:44-50 | reports `expectedToBeCalledTimes(times, count)` iff the count differs from `times` |
| XCTAssertions.AssertCalledWith | Sources/XCTAssert/XCTAssert.swift:58-186 | an empty log reports only `expectedToBeCalled`; otherwise only the last call is checked, and its failure is the one report |
| XCTAssertions.CalledAndNotCalledAreComplementary | Sources/XCTAssert/XCTAssert.swift:8-25 | on any log exactly one of `XCTAssertCalled` and `XCTAssertNotCalled` reports |
| XCTAssertions.CountAssertionsAgree | Sources/XCTAssert/XCTAssert.swift:20-50 | called-once passes iff called-times 1 passes; not-called passes iff called-times 0 passes |
| XCTAssertions.CalledWithChecksLatestCall | Sources/XCTAssert/XCTAssert.swift:58-64 | after a spy logs a call, `XCTAssertCalled(with:)` passes iff the expected tuple is a prefix of that call's arguments, whatever was logged before |
| Reporting.FailureReporter.constructor | Sources/FailureReporter/FailureReporter.swift:7 | the slot starts with the default handler |
| Reporting.FailureReporter.SetHandler | Sources/FailureReporter/FailureReporter.swift:11-13 | the handler becomes the given one; nothing is delivered |
| Reporting.FailureReporter.ResetToDefault | Sources/FailureReporter/FailureReporter.swift:15-17 | the default handler is back; nothing is delivered |
| Reporting.FailureReporter.HandleFailure | Sources/XCTAssert/Result+Guava.swift:9 | the current handler receives exactly the report; the handler does not change |
| Reporting.FailureReporter.Deliver | Sources/XCTAssert/Result+Guava.swift:7-11 | a report, if there is one, goes to the current handler; none delivers nothing |
| Reporting.LastMessage | Tests/GuavaTests/TestableReporter.swift:5-9 | none iff the handler received no report; otherwise the message of a report delivered to it after which it received no other |
| Reporting.DeliveryUpdatesOnlyItsHandler | Tests/GuavaTests/TestableReporter.swift:7-9 | a delivery sets its handler's latest message and leaves every other handler's as it was |
| Scenarios.SumOfTwo | Tests/GuavaTests/GuavaTests.swift:51-55 | the example fake succeeds iff it gets at least two `Int` arguments, and returns their sum |
| Scenarios.StubThenSpy | Tests/GuavaTests/GuavaTests.swift:6-25 | a stub answers 5; after re-arming with a spy, the call answers 10; called-once passes, and called-times 2 reports (2, 1) |
| Scenarios.EarlierSpyKeepsItsLog | Sources/Entities/TestDoubleFactory.swift:32-38 | after re-arming, the earlier spy keeps its one call and the new spy gets the later two |
| Scenarios.FakeSums | Tests/GuavaTests/GuavaTests.swift:47-58 | the summing fake turns `multiply(3, 3)` into 6 |
| Scenarios.ErrorSpyThrowsAndLogs | Tests/GuavaTests/GuavaTests.swift:100-108 | an error spy throws its error and logs the call |
| Scenarios.AsyncErrorSpyThrowsAndLogs | Tests/GuavaTests/ThrowingAsyncTestDoubleFactoryTests.swift:53-68 | an async error spy throws its error, a cancelled call throws the cancellation, and both calls are logged |
| Scenarios.FailingPublisherSpyLogs | Tests/GuavaTests/TestDoublePublisherFactoryTests.swift:82-101 | a failure-result publisher spy answers the failure and logs the call |
| Scenarios.ValueMismatchAgainstThreeThree | Tests/GuavaTests/GuavaReporterTests.swift:10-23 | (3, 5) against a logged (3, 3) is the value mismatch of the second argument |
| Scenarios.TypeMismatchAgainstThreeThree | Tests/GuavaTests/GuavaReporterTests.swift:25-38 | ("30", 5) against a logged (3, 3) stops at the type mismatch of the first argument |
| Scenarios.RecordAfterOneCall | Tests/GuavaTests/GuavaReporterTests.swift:10-38 | after one logged call, a test's recording handler holds the message of the argument check's report |
| Scenarios.ReporterReceivesValueMismatch | Tests/GuavaTests/GuavaReporterTests.swift:10-23 | the handler receives "Expected second argument to be <5> but got <3>" |
| Scenarios.ReporterReceivesTypeMismatch | Tests/GuavaTests/GuavaReporterTests.swift:25-38 | the handler receives "Expected first argument to be <String> but got <Int>" |
| Scenarios.CountMismatchAgainstThreeThree | Tests/GuavaTests/GuavaReporterTests.swift:40-53 | (3, 5, 3) against a logged (3, 3) is `argumentsCountMismatch(3, 2)`, before any value is compared |
| Scenarios.ReporterReceivesCountMismatch | Tests/GuavaTests/GuavaReporterTests.swift:40-53 | the handler receives "Expected arguments count to be <3> but got <2>" |
| Scenarios.RecordAfterThreeCalls | Tests/GuavaTests/GuavaReporterTests.swift:83-115 | after three calls the spy's log holds 3, and the handler holds the count failure's message |
| Scenarios.ReporterReceivesCountFailures | Tests/GuavaTests/GuavaReporterTests.swift:83-115 | the handler receives "Expected to be called once but called 3 time(s)" and "Expected to be called 2 time(s) but called 3 time(s)" |

## Left out

- Delays and `Task.sleep` timing: the delay is dropped, and only a cancelled delay remains, as the `cancelled` input.
- Actor isolation of the async types and the lock in `Sources/Extensions/NSLock+.swift`: every entry point is a sequential call.
- Combine: a publisher is the single `Result` it emits.
- `DefaultFailureReportHandler`:
  - its XCTest failure and exception raising are not modelled;
  - a fatal error is the `Fatal` outcome;
  - the file and line a fatal error carries are not kept.
- Runtime reflection and `Any`: only `Int`, `String` and `Bool` values are modelled. A type mismatch therefore names one of those three types, and equality is equality of the tagged values.
- Fake callbacks are pure functions of their arguments. Callbacks with side effects of their own are not modelled.
- The protocols `Invokable`, `ThrowingInvokable`, `AsyncInvokable`, `ThrowingAsyncInvokable`, `InvokablePublisher` and `FailureReportHandler`: they have no behaviour and only fix signatures.
- Handlers are identities (`DefaultHandler`, `CustomHandler(id)`) and do not run code. What a handler did with a report is read from the reporter's delivery log.
- `Factories.TestDoubleFactory.Invoke` and the other factory entry points require `Valid()`. Every constructor and builder establishes it. It records which doubles each factory's builders can install, which the Swift types guarantee.
- `XCTAssertions` takes the log itself, not the spy. The sync helpers read `spy.calls` directly, the async ones read it once into a snapshot, and both apply the same predicate to that list.
