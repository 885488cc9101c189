/** `Result.reportFailure(file:line:)`: turn an assertion result into at most
    one non-fatal report. */
module ResultReporting {
  import opened Wrappers
  import opened Failures

  function ReportFailure<T>(r: Result<T, AssertionFailure>, loc: Location): (report: Option<Report>)
    ensures report.None? <==> r.Success?
    ensures r.Failure? ==> report.value == Report(r.error, loc)
  {
    match r
    case Success(_) => None
    case Failure(f) => Some(Report(f, loc))
  }
}
