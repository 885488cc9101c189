/** `FailureReporter`: the process-wide slot holding the handler that
    receives every non-fatal failure report. The slot is modelled as one
    object; each delivery is logged with the handler that received it. */
module Reporting {
  import opened Wrappers
  import opened Failures

  /** The handler in the slot: the built-in one, which fails the running
      test, or one installed by a test, told apart by an identity. */
  datatype Handler = DefaultHandler | CustomHandler(id: nat)

  /** One `handleFailure` call: who received which report. */
  datatype Delivery = Delivery(handler: Handler, report: Report)

  class FailureReporter {
    var reportHandler: Handler
    var delivered: seq<Delivery>

    /** At start-up the slot holds the default handler. */
    constructor ()
      ensures reportHandler == DefaultHandler && delivered == []
    {
      reportHandler := DefaultHandler;
      delivered := [];
    }

    /** `setHandler(_:)`: replaces the handler; nothing is delivered. */
    method SetHandler(h: Handler)
      modifies this
      ensures reportHandler == h && delivered == old(delivered)
    {
      reportHandler := h;
    }

    /** `resetToDefault()`: puts a default handler back into the slot. */
    method ResetToDefault()
      modifies this
      ensures reportHandler == DefaultHandler && delivered == old(delivered)
    {
      reportHandler := DefaultHandler;
    }

    /** `handler.handleFailure(_:location:)`: the current handler receives
        the report; the slot is unchanged. */
    method HandleFailure(report: Report)
      modifies this
      ensures reportHandler == old(reportHandler)
      ensures delivered == old(delivered) + [Delivery(reportHandler, report)]
    {
      delivered := delivered + [Delivery(reportHandler, report)];
    }

    /** The step shared by every assertion helper: a report, if any, goes to
        the current handler; no report delivers nothing. */
    method Deliver(report: Option<Report>)
      modifies this
      ensures reportHandler == old(reportHandler)
      ensures report.None? ==> delivered == old(delivered)
      ensures report.Some? ==> delivered == old(delivered) + [Delivery(reportHandler, report.value)]
    {
      if report.Some? {
        HandleFailure(report.value);
      }
    }
  }

  /** Entry `i` of the log is the latest delivery to `h`. */
  ghost predicate LatestFor(log: seq<Delivery>, h: Handler, i: int) {
    0 <= i < |log| && log[i].handler == h && forall j :: i < j < |log| ==> log[j].handler != h
  }

  /** The message of the latest report a handler received, as a test's
      recording handler keeps it; `None` if it received none. */
  function LastMessage(log: seq<Delivery>, h: Handler): (m: Option<string>)
    ensures m.None? <==> forall i :: 0 <= i < |log| ==> log[i].handler != h
    ensures m.Some? ==> exists i :: LatestFor(log, h, i) && m.value == Message(log[i].report.failure)
  {
    if |log| == 0 then None
    else if log[|log| - 1].handler == h then
      assert LatestFor(log, h, |log| - 1);
      Some(Message(log[|log| - 1].report.failure))
    else
      var earlier := log[..|log| - 1];
      var m := LastMessage(earlier, h);
      OtherDeliveryKeepsLatest(log, earlier, h, m);
      m
  }

  /** A last delivery to another handler changes nothing about `h`'s latest one. */
  lemma OtherDeliveryKeepsLatest(log: seq<Delivery>, earlier: seq<Delivery>, h: Handler, m: Option<string>)
    requires |log| > 0 && earlier == log[..|log| - 1] && log[|log| - 1].handler != h
    requires m.None? <==> forall i :: 0 <= i < |earlier| ==> earlier[i].handler != h
    requires m.Some? ==> exists i :: LatestFor(earlier, h, i) && m.value == Message(earlier[i].report.failure)
    ensures m.None? <==> forall i :: 0 <= i < |log| ==> log[i].handler != h
    ensures m.Some? ==> exists i :: LatestFor(log, h, i) && m.value == Message(log[i].report.failure)
  {
    if m.Some? {
      var i :| LatestFor(earlier, h, i) && m.value == Message(earlier[i].report.failure);
      LatestSurvives(log, earlier, h, i);
      assert log[i].handler == h;
    } else {
      forall k | 0 <= k < |log|
        ensures log[k].handler != h
      {
        if k < |earlier| {
          assert log[k] == earlier[k];
        }
      }
    }
  }

  lemma LatestSurvives(log: seq<Delivery>, earlier: seq<Delivery>, h: Handler, i: int)
    requires |log| > 0 && earlier == log[..|log| - 1] && log[|log| - 1].handler != h
    requires LatestFor(earlier, h, i)
    ensures LatestFor(log, h, i) && log[i] == earlier[i]
  {
    forall j | i < j < |log|
      ensures log[j].handler != h
    {
      if j < |earlier| {
        assert log[j] == earlier[j];
      }
    }
  }

  /** A delivery sets the receiving handler's latest message and leaves what
      every other handler saw as it was. */
  lemma DeliveryUpdatesOnlyItsHandler(log: seq<Delivery>, d: Delivery, h: Handler)
    ensures h == d.handler ==> LastMessage(log + [d], h) == Some(Message(d.report.failure))
    ensures h != d.handler ==> LastMessage(log + [d], h) == LastMessage(log, h)
  {
    assert (log + [d])[..|log|] == log;
  }
}
