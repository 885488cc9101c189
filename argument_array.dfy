/** Size checks and bulk strict casts over a list of arguments. */
module ArgumentArrays {
  import opened Wrappers
  import opened Values
  import opened Failures
  import opened Outcomes
  import opened ResultReporting
  import opened Arguments

  /** The size check as a result: at least `expectedSize` arguments, extra
      arguments tolerated. */
  function CheckSize(args: seq<Argument>, expectedSize: int): (r: Result<(), AssertionFailure>)
    ensures r.Success? <==> |args| >= expectedSize
    ensures r.Failure? ==> r.error == ArgumentsCountMismatch(expectedSize, |args|)
  {
    if |args| >= expectedSize then Success(()) else Failure(ArgumentsCountMismatch(expectedSize, |args|))
  }

  /** `assertSize(of:strict:)`: true when there are enough arguments; otherwise
      a count mismatch, fatal when `strict`, else reported and false. */
  function AssertSize(args: seq<Argument>, expectedSize: int, strict: bool, loc: Location): (r: Outcome<Reported<bool>>)
    ensures !r.Threw?
    ensures r.Fatal? <==> strict && |args| < expectedSize
    ensures r.Fatal? ==> r.failure == ArgumentsCountMismatch(expectedSize, |args|)
    ensures r.Returned? ==> r.value.value == (|args| >= expectedSize)
    ensures r.Returned? ==> r.value.report == ReportFailure(CheckSize(args, expectedSize), loc)
  {
    if |args| >= expectedSize then Returned(Reported(true, None))
    else
      var failure := ArgumentsCountMismatch(expectedSize, |args|);
      if strict then Fatal(failure) else Returned(Reported(false, Some(Report(failure, loc))))
  }

  /** Every one of the first `|types|` arguments from index `from` on has the type at its index. */
  ghost predicate TypesMatchFrom(args: seq<Argument>, types: seq<TypeTag>, from: nat)
    requires |types| <= |args|
  {
    forall j :: from <= j < |types| ==> TypeOf(args[j].value) == types[j]
  }

  /** The strict casts of positions `from` to `|types| - 1`, in order, stopping
      at the first one that aborts. */
  function CastFrom(args: seq<Argument>, types: seq<TypeTag>, from: nat): (r: Outcome<seq<Dyn>>)
    requires |types| <= |args| && |types| <= 9 && from <= |types|
    ensures !r.Threw?
    ensures r.Returned? <==> TypesMatchFrom(args, types, from)
    ensures r.Returned? ==> r.value == ValuesOf(args[from..|types|])
    ensures r.Fatal? ==> exists k :: from <= k < |types| && TypesMatchFrom(args, types[..k], from)
                                  && r.failure == TypeMismatchOf(args[k], types[k], PositionOf(k))
                                  && TypeOf(args[k].value) != types[k]
    decreases |types| - from
  {
    if from == |types| then Returned([])
    else
      var cast := CastStrictly(args[from], types[from], PositionOf(from));
      if cast.Fatal? then Fatal(cast.failure)
      else
        var rest := CastFrom(args, types, from + 1);
        if rest.Returned? then
          assert args[from..|types|] == [args[from]] + args[from + 1..|types|];
          Returned([cast.value] + rest.value)
        else rest
  }

  /** `as(_:...)` for arities one to nine: a strict size check, then the strict
      casts of the first `|types|` arguments, named first to ninth. */
  function As(args: seq<Argument>, types: seq<TypeTag>, loc: Location): (r: Outcome<seq<Dyn>>)
    requires 1 <= |types| <= 9
    ensures !r.Threw?
    ensures |args| < |types| ==> r == Fatal(ArgumentsCountMismatch(|types|, |args|))
    ensures r.Returned? <==> |args| >= |types| && TypesMatchFrom(args, types, 0)
    ensures r.Returned? ==> r.value == ValuesOf(args[..|types|])
    ensures r.Fatal? && |args| >= |types| ==>
              exists k :: 0 <= k < |types| && TypesMatchFrom(args, types[..k], 0)
                       && r.failure == TypeMismatchOf(args[k], types[k], PositionOf(k))
                       && TypeOf(args[k].value) != types[k]
  {
    var size := AssertSize(args, |types|, true, loc);
    if size.Fatal? then Fatal(size.failure) else CastFrom(args, types, 0)
  }
}
