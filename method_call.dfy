/** An expected call, stored as the assertion to run against a recorded one. */
module MethodCalls {
  import opened Wrappers
  import opened Values
  import opened Failures
  import opened RecordedCalls

  /** The assertion is fixed when the expected call is built. */
  datatype MethodCall = MethodCall(assertion: RecordedMethodCall -> Result<(), AssertionFailure>)

  /** `MethodCall.assertEquals(to:)`: the stored assertion applied to a recorded call. */
  function AssertEquals(expected: MethodCall, recorded: RecordedMethodCall): Result<(), AssertionFailure> {
    expected.assertion(recorded)
  }

  /** `RecordedMethodCall.assertEquals(to:)`: defers to the expected call. */
  function RecordedAssertEquals(recorded: RecordedMethodCall, expected: MethodCall): (r: Result<(), AssertionFailure>)
    ensures r == AssertEquals(expected, recorded)
  {
    AssertEquals(expected, recorded)
  }

  /** `init(argument:)` and `init(arguments:)` for arities one to nine. */
  function Expecting(arguments: seq<Dyn>): (m: MethodCall)
    requires 1 <= |arguments| <= 9
    ensures forall recorded :: AssertEquals(m, recorded) == AssertCalled(recorded, arguments)
  {
    MethodCall(recorded => AssertCalled(recorded, arguments))
  }

  /** Comparing an expected call built from a tuple with a recorded call, in
      either direction, is `assertCalled(with:)` on that tuple. */
  lemma ExpectingAssertsCalledWith(arguments: seq<Dyn>, recorded: RecordedMethodCall)
    requires 1 <= |arguments| <= 9
    ensures AssertEquals(Expecting(arguments), recorded) == AssertCalled(recorded, arguments)
    ensures RecordedAssertEquals(recorded, Expecting(arguments)) == AssertEquals(Expecting(arguments), recorded)
  {
  }

  /** An expected call built from raw arguments accepts the call recorded from
      any raw arguments that start with them. */
  lemma ExpectingAcceptsRecordedPrefix(arguments: seq<Dyn>, raw: seq<Dyn>)
    requires 1 <= |arguments| <= 9
    ensures AssertEquals(Expecting(arguments), Record(raw)).Success? <==> arguments <= raw
  {
    RecordedCallMatchesPrefix(raw, arguments);
  }
}
