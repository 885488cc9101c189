/** One positional argument of a call, as a fake callback or a recorded call
    sees it, and the three ways to read it. */
module Arguments {
  import opened Wrappers
  import opened Values
  import opened Failures
  import opened Outcomes
  import opened ResultReporting

  /** The nine positions an argument can be named by in a failure message. */
  datatype Position = First | Second | Third | Fourth | Fifth | Sixth | Seventh | Eighth | Ninth

  function RawValue(p: Position): string {
    match p
    case First => "first"
    case Second => "second"
    case Third => "third"
    case Fourth => "fourth"
    case Fifth => "fifth"
    case Sixth => "sixth"
    case Seventh => "seventh"
    case Eighth => "eighth"
    case Ninth => "ninth"
  }

  /** How a failure message names an argument, e.g. "second argument". */
  function Name(p: Position): (s: string)
    ensures |s| > |" argument"| && s[|s| - |" argument"|..] == " argument"
  {
    RawValue(p) + " argument"
  }

  /** Zero-based index of a position. */
  function Index(p: Position): (i: nat)
    ensures i < 9
  {
    match p
    case First => 0
    case Second => 1
    case Third => 2
    case Fourth => 3
    case Fifth => 4
    case Sixth => 5
    case Seventh => 6
    case Eighth => 7
    case Ninth => 8
  }

  /** The position of the argument at index `i` (the initializer from an
      offset); only the first nine indices have one. */
  function PositionAt(i: nat): (p: Option<Position>)
    ensures p.Some? <==> i < 9
    ensures p.Some? ==> Index(p.value) == i
  {
    if i < 9 then Some([First, Second, Third, Fourth, Fifth, Sixth, Seventh, Eighth, Ninth][i]) else None
  }

  function PositionOf(i: nat): (p: Position)
    requires i < 9
    ensures Index(p) == i
  {
    PositionAt(i).value
  }

  /** Every position is the one at its own index, so the nine are distinct. */
  lemma PositionIndexRoundTrip(p: Position)
    ensures PositionAt(Index(p)) == Some(p)
  {
  }

  /** Distinct positions have distinct names. */
  lemma NameInjective(p: Position, q: Position)
    requires Name(p) == Name(q)
    ensures p == q
  {
    assert RawValue(p) == Name(p)[..|Name(p)| - |" argument"|];
    assert RawValue(q) == Name(q)[..|Name(q)| - |" argument"|];
  }

  /** An argument: the value passed and the index it was passed at. */
  datatype Argument = Argument(value: Dyn, offset: nat) {
    function StoredPosition(): Option<Position> {
      PositionAt(offset)
    }
  }

  /** The result of an operation that may also emit one non-fatal report. */
  datatype Reported<+T> = Reported(value: T, report: Option<Report>)

  /** The mismatch of a stored value against an expected type. */
  function TypeMismatchOf(a: Argument, t: TypeTag, pos: Position): AssertionFailure {
    TypeMismatch(TypeName(t), TypeName(TypeOf(a.value)), Name(pos))
  }

  /** `cast(to:argumentPosition:)`: the value when it has type `t`; otherwise
      no value and one non-fatal type-mismatch report. */
  function Cast(a: Argument, t: TypeTag, pos: Position, loc: Location): (r: Reported<Option<Dyn>>)
    ensures r.value.Some? <==> TypeOf(a.value) == t
    ensures r.value.Some? ==> r.value.value == a.value && r.report.None?
    ensures r.value.None? ==> r.report == Some(Report(TypeMismatchOf(a, t, pos), loc))
  {
    if TypeOf(a.value) == t then Reported(Some(a.value), None)
    else Reported(None, Some(Report(TypeMismatchOf(a, t, pos), loc)))
  }

  /** `castStrictly(to:argumentPosition:)`: the value when it has type `t`;
      otherwise the fatal path. */
  function CastStrictly(a: Argument, t: TypeTag, pos: Position): (r: Outcome<Dyn>)
    ensures !r.Threw?
    ensures r.Returned? <==> TypeOf(a.value) == t
    ensures r.Returned? ==> r.value == a.value
    ensures r.Fatal? ==> r.failure == TypeMismatchOf(a, t, pos)
  {
    if TypeOf(a.value) == t then Returned(a.value) else Fatal(TypeMismatchOf(a, t, pos))
  }

  /** The strict cast succeeds exactly when the soft one does and aborts with
      the very failure the soft one reports. */
  lemma StrictCastAgreesWithCast(a: Argument, t: TypeTag, pos: Position, loc: Location)
    ensures CastStrictly(a, t, pos).Returned? <==> Cast(a, t, pos, loc).value.Some?
    ensures CastStrictly(a, t, pos).Returned? ==> CastStrictly(a, t, pos).value == Cast(a, t, pos, loc).value.value
    ensures CastStrictly(a, t, pos).Fatal? ==> Cast(a, t, pos, loc).report == Some(Report(CastStrictly(a, t, pos).failure, loc))
  {
  }

  /** The equality check as a result: a type mismatch when the stored value
      has another type than `expected`, a value mismatch when it has the same
      type but differs, success otherwise. */
  function CheckEqual(a: Argument, expected: Dyn, pos: Position): (r: Result<(), AssertionFailure>)
    ensures r.Success? <==> a.value == expected
    ensures r.Failure? && TypeOf(a.value) != TypeOf(expected) ==> r.error == TypeMismatchOf(a, TypeOf(expected), pos)
    ensures r.Failure? && TypeOf(a.value) == TypeOf(expected) ==>
              r.error == ValueMismatch(Display(expected), Display(a.value), Name(pos))
  {
    match CastStrictly(a, TypeOf(expected), pos)
    case Returned(v) =>
      if v != expected then Failure(ValueMismatch(Display(expected), Display(v), Name(pos))) else Success(())
    case _ => Failure(TypeMismatchOf(a, TypeOf(expected), pos))
  }

  /** `assertEqual(_:position:)`: whether the stored value equals `expected`,
      with at most one report of why not. */
  function AssertEqual(a: Argument, expected: Dyn, pos: Position, loc: Location): (r: Reported<bool>)
    ensures r.value <==> a.value == expected
    ensures r.value <==> r.report.None?
  {
    var cast := Cast(a, TypeOf(expected), pos, loc);
    if cast.value.None? then Reported(false, cast.report)
    else if cast.value.value != expected then
      Reported(false, Some(Report(ValueMismatch(Display(expected), Display(cast.value.value), Name(pos)), loc)))
    else Reported(true, None)
  }

  /** The reporting form and the result form agree: the report sent is
      exactly the failure of the result form, so a wrong type is never also
      reported as a wrong value. */
  lemma AssertEqualReportsCheckEqual(a: Argument, expected: Dyn, pos: Position, loc: Location)
    ensures AssertEqual(a, expected, pos, loc)
         == Reported(CheckEqual(a, expected, pos).Success?, ReportFailure(CheckEqual(a, expected, pos), loc))
  {
  }

  /** `enumerated().map { Argument(value:position:) }`: wrap raw values with
      their indices. */
  function Wrap(raw: seq<Dyn>): (args: seq<Argument>)
    ensures |args| == |raw|
    ensures forall i :: 0 <= i < |raw| ==> args[i] == Argument(raw[i], i)
  {
    seq(|raw|, i requires 0 <= i < |raw| => Argument(raw[i], i))
  }

  /** The values held by a list of arguments, in order. */
  function ValuesOf(args: seq<Argument>): (vs: seq<Dyn>)
    ensures |vs| == |args|
    ensures forall i :: 0 <= i < |args| ==> vs[i] == args[i].value
  {
    seq(|args|, i requires 0 <= i < |args| => args[i].value)
  }

  /** Wrapping loses nothing: the wrapped arguments hold the raw values in order. */
  lemma ValuesOfWrap(raw: seq<Dyn>)
    ensures ValuesOf(Wrap(raw)) == raw
  {
  }
}
