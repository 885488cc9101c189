/** The failures the library reports, and their exact texts. */
module Failures {
  import opened Decimal

  /** Every failure kind the core raises. `TestDoubleTypeMismatch` and
      `TaskExplicitlyCanceled` are raised by the doubles but absent from the
      enum's declaration; they are added here so that the model is closed. */
  datatype AssertionFailure =
    | NilValue
    | ArgumentsCountMismatch(expectedCount: int, providedCount: int)
    | TypeMismatch(expectedType: string, receivedType: string, argument: string)
    | ValueMismatch(expectedValue: string, receivedValue: string, argument: string)
    | ExpectedToBeCalled
    | ExpectedToNotBeCalled
    | ExpectedToBeCalledOnce(calledCount: int)
    | ExpectedToBeCalledTimes(expectedCount: int, calledCount: int)
    | TestDoubleTypeMismatch(expected: string, received: string)
    | TaskExplicitlyCanceled

  /** Where a non-fatal failure is attributed: the caller's file and line. */
  datatype Location = Location(file: string, line: nat)

  /** One non-fatal report: the failure and where it was raised. */
  datatype Report = Report(failure: AssertionFailure, location: Location)

  /** The text a handler shows for a failure; one case per kind. Every
      failure except the nil factory and the cancelled delay states what was
      expected. */
  function Message(f: AssertionFailure): (m: string)
    ensures |m| > 0
    ensures "Expected " <= m <==> !(f.NilValue? || f.TaskExplicitlyCanceled?)
  {
    match f
    case NilValue =>
      assert "TestDoubleFactory value must not be nil"[1] != "Expected "[1];
      "TestDoubleFactory value must not be nil"
    case ArgumentsCountMismatch(expected, provided) =>
      "Expected arguments count to be <" + IntToString(expected) + "> but got <" + IntToString(provided) + ">"
    case TypeMismatch(expected, received, argument) =>
      "Expected " + argument + " to be <" + expected + "> but got <" + received + ">"
    case ValueMismatch(expected, received, argument) =>
      "Expected " + argument + " to be <" + expected + "> but got <" + received + ">"
    case ExpectedToBeCalled =>
      "Expected to be called at least once"
    case ExpectedToNotBeCalled =>
      "Expected to not to be called"
    case ExpectedToBeCalledOnce(called) =>
      "Expected to be called once but called " + IntToString(called) + " time(s)"
    case ExpectedToBeCalledTimes(expected, called) =>
      "Expected to be called " + IntToString(expected) + " time(s) but called " + IntToString(called) + " time(s)"
    case TestDoubleTypeMismatch(expected, received) =>
      "Expected <" + expected + "> test double but got <" + received + ">"
    case TaskExplicitlyCanceled =>
      assert "Task was explicitly canceled"[0] != "Expected "[0];
      "Task was explicitly canceled"
  }

  /** A type mismatch and a value mismatch with the same three texts read the same. */
  lemma MismatchMessagesAgree(expected: string, received: string, argument: string)
    ensures Message(TypeMismatch(expected, received, argument))
         == Message(ValueMismatch(expected, received, argument))
         == "Expected " + argument + " to be <" + expected + "> but got <" + received + ">"
  {
  }

  /** The texts the reporter tests pin. */
  lemma PinnedCountMismatchMessage()
    ensures Message(ArgumentsCountMismatch(3, 2)) == "Expected arguments count to be <3> but got <2>"
  {
    assert IntToString(3) == "3" && IntToString(2) == "2";
  }

  lemma PinnedCalledOnceMessage()
    ensures Message(ExpectedToBeCalledOnce(3)) == "Expected to be called once but called 3 time(s)"
  {
    assert IntToString(3) == "3";
  }

  lemma PinnedCalledTimesMessage()
    ensures Message(ExpectedToBeCalledTimes(2, 3)) == "Expected to be called 2 time(s) but called 3 time(s)"
  {
    assert IntToString(2) == "2" && IntToString(3) == "3";
    assert "Expected to be called " + "2" == "Expected to be called 2";
    assert "Expected to be called 2" + " time(s) but called " == "Expected to be called 2 time(s) but called ";
    assert "Expected to be called 2 time(s) but called " + "3" == "Expected to be called 2 time(s) but called 3";
    assert "Expected to be called 2 time(s) but called 3" + " time(s)"
        == "Expected to be called 2 time(s) but called 3 time(s)";
  }

  lemma PinnedValueMismatchMessage()
    ensures Message(ValueMismatch("5", "3", "second argument")) == "Expected second argument to be <5> but got <3>"
  {
    assert "Expected " + "second argument" == "Expected second argument";
    assert "Expected second argument" + " to be <" == "Expected second argument to be <";
    assert "Expected second argument to be <" + "5" == "Expected second argument to be <5";
    assert "Expected second argument to be <5" + "> but got <" == "Expected second argument to be <5> but got <";
    assert "Expected second argument to be <5> but got <" + "3" == "Expected second argument to be <5> but got <3";
    assert "Expected second argument to be <5> but got <3" + ">" == "Expected second argument to be <5> but got <3>";
  }

  lemma PinnedTypeMismatchMessage()
    ensures Message(TypeMismatch("String", "Int", "first argument")) == "Expected first argument to be <String> but got <Int>"
  {
    assert "Expected " + "first argument" == "Expected first argument";
    assert "Expected first argument" + " to be <" == "Expected first argument to be <";
    assert "Expected first argument to be <" + "String" == "Expected first argument to be <String";
    assert "Expected first argument to be <String" + "> but got <" == "Expected first argument to be <String> but got <";
    assert "Expected first argument to be <String> but got <" + "Int" == "Expected first argument to be <String> but got <Int";
    assert "Expected first argument to be <String> but got <Int" + ">" == "Expected first argument to be <String> but got <Int>";
  }

  /** The called-once message names the count unambiguously. */
  lemma CalledOnceMessageInjective(m: int, n: int)
    requires Message(ExpectedToBeCalledOnce(m)) == Message(ExpectedToBeCalledOnce(n))
    ensures m == n
  {
    var prefix := "Expected to be called once but called ";
    var suffix := " time(s)";
    assert Message(ExpectedToBeCalledOnce(m)) == prefix + IntToString(m) + suffix;
    assert Message(ExpectedToBeCalledOnce(n)) == prefix + IntToString(n) + suffix;
    OneSlotInjective(prefix, IntToString(m), IntToString(n), suffix);
    IntToStringInjective(m, n);
  }

  /** The called-times message names both counts unambiguously. */
  lemma CalledTimesMessageInjective(e1: int, c1: int, e2: int, c2: int)
    requires Message(ExpectedToBeCalledTimes(e1, c1)) == Message(ExpectedToBeCalledTimes(e2, c2))
    ensures e1 == e2 && c1 == c2
  {
    var prefix := "Expected to be called ";
    var middle := " time(s) but called ";
    var suffix := " time(s)";
    assert Message(ExpectedToBeCalledTimes(e1, c1)) == prefix + IntToString(e1) + middle + IntToString(c1) + suffix;
    assert Message(ExpectedToBeCalledTimes(e2, c2)) == prefix + IntToString(e2) + middle + IntToString(c2) + suffix;
    NoSeparatorInIntToString(e1);
    NoSeparatorInIntToString(e2);
    TwoSlotsInjective(prefix, IntToString(e1), IntToString(c1), IntToString(e2), IntToString(c2), middle, suffix);
    IntToStringInjective(e1, e2);
    IntToStringInjective(c1, c2);
  }

  /** The arguments-count message names both counts unambiguously. */
  lemma CountMismatchMessageInjective(e1: int, p1: int, e2: int, p2: int)
    requires Message(ArgumentsCountMismatch(e1, p1)) == Message(ArgumentsCountMismatch(e2, p2))
    ensures e1 == e2 && p1 == p2
  {
    var prefix := "Expected arguments count to be <";
    var middle := "> but got <";
    assert Message(ArgumentsCountMismatch(e1, p1)) == prefix + IntToString(e1) + middle + IntToString(p1) + ">";
    assert Message(ArgumentsCountMismatch(e2, p2)) == prefix + IntToString(e2) + middle + IntToString(p2) + ">";
    NoSeparatorInIntToString(e1);
    NoSeparatorInIntToString(e2);
    TwoSlotsInjective(prefix, IntToString(e1), IntToString(p1), IntToString(e2), IntToString(p2), middle, ">");
    IntToStringInjective(e1, e2);
    IntToStringInjective(p1, p2);
  }

  /** A rendered integer holds neither a space nor a '>'. */
  lemma NoSeparatorInIntToString(i: int)
    ensures NoSeparator(IntToString(i))
  {
    if i < 0 {
      assert IntToString(i) == "-" + NatToString(-i);
    }
  }

  predicate NoSeparator(s: string) {
    forall k :: 0 <= k < |s| ==> s[k] != ' ' && s[k] != '>'
  }

  /** A fixed text with one slot determines what was put in the slot. */
  lemma OneSlotInjective(p: string, a: string, b: string, q: string)
    requires p + a + q == p + b + q
    ensures a == b
  {
    var w := p + a + q;
    assert |a| == |b|;
    assert a == w[|p|..|p| + |a|];
    assert b == (p + b + q)[|p|..|p| + |b|];
  }

  /** Index of the first space or '>' in a text (its length when there is none). */
  function FirstSeparator(s: string): (k: nat)
    ensures k <= |s|
  {
    if s == [] || s[0] == ' ' || s[0] == '>' then 0 else 1 + FirstSeparator(s[1..])
  }

  lemma {:induction false} FirstSeparatorAfter(a: string, rest: string)
    requires NoSeparator(a)
    requires |rest| > 0 && (rest[0] == ' ' || rest[0] == '>')
    ensures FirstSeparator(a + rest) == |a|
  {
    if a != [] {
      assert (a + rest)[1..] == a[1..] + rest;
      FirstSeparatorAfter(a[1..], rest);
    }
  }

  /** Equal texts with equal beginnings have equal remainders. */
  lemma CancelPrefix(p: string, x: string, y: string)
    requires p + x == p + y
    ensures x == y
  {
    assert x == (p + x)[|p|..];
    assert y == (p + y)[|p|..];
  }

  /** Equal texts with equal endings have equal beginnings. */
  lemma CancelSuffix(x: string, y: string, q: string)
    requires x + q == y + q
    ensures x == y
  {
    assert x == (x + q)[..|x|];
    assert y == (y + q)[..|y|];
  }

  /** A fixed text with two slots, the first free of separators and followed by
      a separator, determines what was put in both slots. */
  lemma TwoSlotsInjective(p: string, a1: string, b1: string, a2: string, b2: string, mid: string, q: string)
    requires p + a1 + mid + b1 + q == p + a2 + mid + b2 + q
    requires NoSeparator(a1) && NoSeparator(a2)
    requires |mid| > 0 && (mid[0] == ' ' || mid[0] == '>')
    ensures a1 == a2 && b1 == b2
  {
    var y1 := mid + (b1 + q);
    var y2 := mid + (b2 + q);
    assert p + a1 + mid + b1 + q == p + (a1 + y1);
    assert p + a2 + mid + b2 + q == p + (a2 + y2);
    CancelPrefix(p, a1 + y1, a2 + y2);
    FirstSeparatorAfter(a1, y1);
    FirstSeparatorAfter(a2, y2);
    assert a1 == (a1 + y1)[..|a1|];
    assert a2 == (a2 + y2)[..|a2|];
    CancelPrefix(a1, y1, y2);
    CancelPrefix(mid, b1 + q, b2 + q);
    CancelSuffix(b1, b2, q);
  }
}
