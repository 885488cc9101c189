/** The arguments a spy captures from one invocation, and the check of an
    expected tuple against them. */
module RecordedCalls {
  import opened Wrappers
  import opened Values
  import opened Failures
  import opened Arguments
  import opened ArgumentArrays

  /** At most this many arguments are recorded per call. */
  const ArgumentsLimit: nat := 9

  datatype RecordedMethodCall = RecordedMethodCall(arguments: seq<Argument>)

  function Min(a: nat, b: nat): nat {
    if a <= b then a else b
  }

  /** `init(arguments:)`: the first nine raw arguments, each wrapped with its
      index; the rest are dropped silently. */
  function Record(raw: seq<Dyn>): (c: RecordedMethodCall)
    ensures |c.arguments| == Min(|raw|, ArgumentsLimit)
    ensures forall i :: 0 <= i < |c.arguments| ==> c.arguments[i] == Argument(raw[i], i)
    ensures forall i :: 0 <= i < |c.arguments| ==> c.arguments[i].StoredPosition() == Some(PositionOf(i))
  {
    var kept := if |raw| <= ArgumentsLimit then raw else raw[..ArgumentsLimit];
    RecordedMethodCall(Wrap(kept))
  }

  /** Every one of the first `|expected|` recorded arguments from index `from`
      on equals the expected value at its index. */
  ghost predicate MatchesFrom(args: seq<Argument>, expected: seq<Dyn>, from: nat)
    requires |expected| <= |args|
  {
    forall j :: from <= j < |expected| ==> args[j].value == expected[j]
  }

  /** The equality checks of positions `from` to `|expected| - 1`, in order,
      stopping at the first failure (the `flatMap` chain). */
  function CheckFrom(args: seq<Argument>, expected: seq<Dyn>, from: nat): (r: Result<(), AssertionFailure>)
    requires |expected| <= |args| && |expected| <= 9 && from <= |expected|
    ensures r.Success? <==> MatchesFrom(args, expected, from)
    ensures r.Failure? ==> exists k :: from <= k < |expected| && MatchesFrom(args, expected[..k], from)
                                  && args[k].value != expected[k]
                                  && r.error == CheckEqual(args[k], expected[k], PositionOf(k)).error
    decreases |expected| - from
  {
    if from == |expected| then Success(())
    else
      var check := CheckEqual(args[from], expected[from], PositionOf(from));
      if check.Failure? then check else CheckFrom(args, expected, from + 1)
  }

  /** `assertCalled(with:)` for arities one to nine: the size check, then each
      expected value against the argument at its index. */
  function AssertCalled(call: RecordedMethodCall, expected: seq<Dyn>): (r: Result<(), AssertionFailure>)
    requires 1 <= |expected| <= 9
    ensures |call.arguments| < |expected| ==> r == Failure(ArgumentsCountMismatch(|expected|, |call.arguments|))
    ensures r.Success? <==> |call.arguments| >= |expected| && MatchesFrom(call.arguments, expected, 0)
    ensures r.Failure? && |call.arguments| >= |expected| ==>
              exists k :: 0 <= k < |expected| && MatchesFrom(call.arguments, expected[..k], 0)
                       && call.arguments[k].value != expected[k]
                       && r.error == CheckEqual(call.arguments[k], expected[k], PositionOf(k)).error
  {
    var size := CheckSize(call.arguments, |expected|);
    if size.Failure? then size else CheckFrom(call.arguments, expected, 0)
  }

  /** A call recorded from raw arguments matches an expected tuple exactly
      when the tuple is a prefix of those raw arguments; whatever follows is
      ignored. */
  lemma {:induction false} RecordedCallMatchesPrefix(raw: seq<Dyn>, expected: seq<Dyn>)
    requires 1 <= |expected| <= 9
    ensures AssertCalled(Record(raw), expected).Success? <==> expected <= raw
  {
    var args := Record(raw).arguments;
    if |args| >= |expected| {
      if MatchesFrom(args, expected, 0) {
        assert expected == raw[..|expected|];
      }
      if expected <= raw {
        forall j | 0 <= j < |expected| ensures args[j].value == expected[j] {
          assert raw[j] == expected[j];
        }
      }
    } else {
      assert |raw| < |expected|;
    }
  }
}
