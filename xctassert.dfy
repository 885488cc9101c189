/** The XCTest-style assertions over a spy's log of calls. Each reads the log
    once (the async variants take that snapshot explicitly) and hands at most
    one non-fatal report to the failure reporter, returned here as a value. */
module XCTAssertions {
  import opened Wrappers
  import opened Values
  import opened Failures
  import opened ResultReporting
  import RecordedCalls

  /** `XCTAssertCalled(_ spy:)`: reports `expectedToBeCalled` on an empty log. */
  function AssertCalled(calls: seq<RecordedCalls.RecordedMethodCall>, loc: Location): (report: Option<Report>)
    ensures report.None? <==> |calls| > 0
    ensures report.Some? ==> report.value == Report(ExpectedToBeCalled, loc)
  {
    if |calls| == 0 then Some(Report(ExpectedToBeCalled, loc)) else None
  }

  /** `XCTAssertNotCalled(_ spy:)`: reports `expectedToNotBeCalled` on a
      non-empty log. */
  function AssertNotCalled(calls: seq<RecordedCalls.RecordedMethodCall>, loc: Location): (report: Option<Report>)
    ensures report.None? <==> |calls| == 0
    ensures report.Some? ==> report.value == Report(ExpectedToNotBeCalled, loc)
  {
    if |calls| != 0 then Some(Report(ExpectedToNotBeCalled, loc)) else None
  }

  /** `XCTAssertCalledOnce(_ spy:)`: reports the actual count unless it is one. */
  function AssertCalledOnce(calls: seq<RecordedCalls.RecordedMethodCall>, loc: Location): (report: Option<Report>)
    ensures report.None? <==> |calls| == 1
    ensures report.Some? ==> report.value == Report(ExpectedToBeCalledOnce(|calls|), loc)
  {
    if |calls| != 1 then Some(Report(ExpectedToBeCalledOnce(|calls|), loc)) else None
  }

  /** `XCTAssertCalled(_ spy:times:)`: reports both counts unless they agree;
      a negative `times` can never agree. */
  function AssertCalledTimes(calls: seq<RecordedCalls.RecordedMethodCall>, times: int, loc: Location): (report: Option<Report>)
    ensures report.None? <==> |calls| == times
    ensures report.Some? ==> report.value == Report(ExpectedToBeCalledTimes(times, |calls|), loc)
  {
    if |calls| != times then Some(Report(ExpectedToBeCalledTimes(times, |calls|), loc)) else None
  }

  /** `XCTAssertCalled(_ spy:with:)` for arities one to nine: an empty log
      reports only `expectedToBeCalled`; otherwise the last call alone is
      checked against the expected tuple. */
  function AssertCalledWith(calls: seq<RecordedCalls.RecordedMethodCall>, expected: seq<Dyn>, loc: Location): (report: Option<Report>)
    requires 1 <= |expected| <= 9
    ensures |calls| == 0 ==> report == Some(Report(ExpectedToBeCalled, loc))
    ensures |calls| > 0 ==> report == ReportFailure(RecordedCalls.AssertCalled(calls[|calls| - 1], expected), loc)
    ensures report.None? <==> |calls| > 0 && RecordedCalls.AssertCalled(calls[|calls| - 1], expected).Success?
  {
    var called := AssertCalled(calls, loc);
    if called.Some? then called
    else ReportFailure(RecordedCalls.AssertCalled(calls[|calls| - 1], expected), loc)
  }

  /** On any log, exactly one of `XCTAssertCalled` and `XCTAssertNotCalled`
      reports. */
  lemma CalledAndNotCalledAreComplementary(calls: seq<RecordedCalls.RecordedMethodCall>, loc: Location)
    ensures AssertCalled(calls, loc).Some? != AssertNotCalled(calls, loc).Some?
  {
  }

  /** `XCTAssertCalledOnce` passes exactly when `XCTAssertCalled(times: 1)`
      passes, and `XCTAssertCalled` exactly when no count of zero is expected
      to pass. */
  lemma CountAssertionsAgree(calls: seq<RecordedCalls.RecordedMethodCall>, loc: Location)
    ensures AssertCalledOnce(calls, loc).None? <==> AssertCalledTimes(calls, 1, loc).None?
    ensures AssertNotCalled(calls, loc).None? <==> AssertCalledTimes(calls, 0, loc).None?
  {
  }

  /** After a spy logs a call made with `raw`, `XCTAssertCalled(with:)`
      passes exactly when the expected tuple is a prefix of `raw`, whatever
      was logged before. */
  lemma {:induction false} CalledWithChecksLatestCall(
    earlier: seq<RecordedCalls.RecordedMethodCall>, raw: seq<Dyn>, expected: seq<Dyn>, loc: Location)
    requires 1 <= |expected| <= 9
    ensures AssertCalledWith(earlier + [RecordedCalls.Record(raw)], expected, loc).None? <==> expected <= raw
  {
    var calls := earlier + [RecordedCalls.Record(raw)];
    assert calls[|calls| - 1] == RecordedCalls.Record(raw);
    RecordedCalls.RecordedCallMatchesPrefix(raw, expected);
  }
}
