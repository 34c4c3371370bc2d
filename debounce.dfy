/** The button monitor of lab2/base_interrupt.c: every edge of the button
    line is reported as a press (falling) or a release (rising), except edges
    that arrive less than 50 ms after the last reported one. */
module Debounce {
  import opened Gpio

  const DebounceMs := 50

  /** What the program prints for an accepted edge. */
  datatype Report = Pressed | Released

  function ReportOf(edge: Edge): Report
  {
    if edge == Falling then Pressed else Released
  }

  /** One return from the wait: its outcome, and `now_ms()` taken right after
      an event is read. */
  datatype Arrival = Arrival(outcome: WaitOutcome, t: int)

  /** The loop ends on a failed wait or read. */
  predicate Ends(a: Arrival)
  {
    a.outcome == WaitFailed || a.outcome == ReadFailed
  }

  /** The events the filter accepts from `arrivals`, given that the last
      accepted one was at `last` ms, up to the arrival that ends the loop. */
  function Accepted(last: int, arrivals: seq<Arrival>): seq<Arrival>
    decreases |arrivals|
  {
    if arrivals == [] || Ends(arrivals[0]) then []
    else if arrivals[0].outcome.Event? && Debounced(arrivals[0].t, last, DebounceMs) then
      [arrivals[0]] + Accepted(arrivals[0].t, arrivals[1..])
    else Accepted(last, arrivals[1..])
  }

  /** `last_ms` once the loop has consumed `arrivals`. */
  function LastAfter(last: int, arrivals: seq<Arrival>): int
  {
    var acc := Accepted(last, arrivals);
    if acc == [] then last else acc[|acc| - 1].t
  }

  /** Every event of `acc` is an event, and it comes at least 50 ms after
      the one before it (the first at least 50 ms after `last`). */
  predicate Spaced(last: int, acc: seq<Arrival>)
  {
    (forall j :: 0 <= j < |acc| ==> acc[j].outcome.Event?)
    && (|acc| > 0 ==> acc[0].t - last >= DebounceMs)
    && (forall j :: 0 < j < |acc| ==> acc[j].t - acc[j - 1].t >= DebounceMs)
  }

  /** Any two accepted events are at least 50 ms apart. */
  lemma {:induction false} AcceptedSpaced(last: int, arrivals: seq<Arrival>)
    ensures Spaced(last, Accepted(last, arrivals))
    decreases |arrivals|
  {
    if arrivals != [] && !Ends(arrivals[0]) {
      var a := arrivals[0];
      if a.outcome.Event? && Debounced(a.t, last, DebounceMs) {
        AcceptedSpaced(a.t, arrivals[1..]);
        var rest := Accepted(a.t, arrivals[1..]);
        var acc := [a] + rest;
        assert Accepted(last, arrivals) == acc;
        forall j | 0 < j < |acc|
          ensures acc[j].t - acc[j - 1].t >= DebounceMs
        {
          if j > 1 {
            assert acc[j] == rest[j - 1] && acc[j - 1] == rest[j - 2];
          }
        }
      } else {
        AcceptedSpaced(last, arrivals[1..]);
        assert Accepted(last, arrivals) == Accepted(last, arrivals[1..]);
      }
    }
  }

  /** An event within 50 ms of the last accepted one is dropped, and the
      filter then sees the rest as if it had never come. */
  lemma DroppedIsInvisible(last: int, a: Arrival, rest: seq<Arrival>)
    requires !Ends(a) && (a.outcome.Event? ==> a.t - last < DebounceMs)
    ensures Accepted(last, [a] + rest) == Accepted(last, rest)
  {
    assert ([a] + rest)[1..] == rest;
  }

  /** The reports printed for `arrivals`: one per accepted event, in order. */
  function Reports(acc: seq<Arrival>): (rs: seq<Report>)
    requires forall j :: 0 <= j < |acc| ==> acc[j].outcome.Event?
    ensures |rs| == |acc|
    ensures forall j :: 0 <= j < |acc| ==> (rs[j] == Pressed <==> acc[j].outcome.edge == Falling)
  {
    seq(|acc|, j requires 0 <= j < |acc| => ReportOf(acc[j].outcome.edge))
  }

  /** `main`'s `last_ms`, and the reports printed so far. */
  class Monitor {
    var lastMs: int
    var reports: seq<Report>

    constructor ()
      ensures lastMs == 0 && reports == []
    {
      lastMs := 0;
      reports := [];
    }

    /** The loop over `arrivals`. Returns whether the loop ended on a
        failure, and the events it accepted. */
    method Run(arrivals: seq<Arrival>) returns (ended: bool, accepted: seq<Arrival>)
      modifies this
      ensures accepted == Accepted(old(lastMs), arrivals)
      ensures lastMs == LastAfter(old(lastMs), arrivals)
      ensures ended <==> exists k :: 0 <= k < |arrivals| && Ends(arrivals[k])
      ensures forall j :: 0 <= j < |accepted| ==> accepted[j].outcome.Event?
      ensures reports == old(reports) + Reports(accepted)
    {
      accepted := [];
      ended := false;
      var k := 0;
      while k < |arrivals|
        invariant 0 <= k <= |arrivals|
        invariant forall j :: 0 <= j < k ==> !Ends(arrivals[j])
        invariant accepted + Accepted(lastMs, arrivals[k..]) == Accepted(old(lastMs), arrivals)
        invariant accepted == [] ==> lastMs == old(lastMs)
        invariant accepted != [] ==> lastMs == accepted[|accepted| - 1].t
        invariant forall j :: 0 <= j < |accepted| ==> accepted[j].outcome.Event?
        invariant reports == old(reports) + Reports(accepted)
      {
        var a := arrivals[k];
        assert arrivals[k..] == [a] + arrivals[k + 1..];
        if a.outcome == WaitFailed || a.outcome == ReadFailed {
          ended := true;
          break;
        }
        if a.outcome == Timeout {
          k := k + 1;
          continue;
        }
        if a.t - lastMs < DebounceMs {
          k := k + 1;
          continue;
        }
        lastMs := a.t;
        reports := reports + [ReportOf(a.outcome.edge)];
        accepted := accepted + [a];
        k := k + 1;
      }
      LastAfterSplit(old(lastMs), arrivals, accepted, lastMs, k, ended);
    }
  }

  /** Once the loop has stopped at position `k`, the rest contributes no
      accepted events, so the last accepted time is the recorded one. */
  lemma LastAfterSplit(last0: int, arrivals: seq<Arrival>, accepted: seq<Arrival>, last: int, k: nat, ended: bool)
    requires k <= |arrivals|
    requires ended ==> k < |arrivals| && Ends(arrivals[k])
    requires !ended ==> k == |arrivals|
    requires accepted + Accepted(last, arrivals[k..]) == Accepted(last0, arrivals)
    requires accepted == [] ==> last == last0
    requires accepted != [] ==> last == accepted[|accepted| - 1].t
    ensures Accepted(last0, arrivals) == accepted
    ensures LastAfter(last0, arrivals) == last
  {
    assert Accepted(last, arrivals[k..]) == [];
  }
}
