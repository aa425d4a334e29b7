/** The polling metrics page (locust-dashboard/src/pages/Metrics.js): a
    start/stop status, a seconds counter driven by a one-second interval
    that also fetches a sample, and an unbounded sample list. Replies of
    `/api/start`, `/api/stop` and `/api/metrics` are parameters; intervals
    are identified by numbers the page hands out in order. */
module MetricsPage {
  import opened JsValues
  import opened Optional

  const StartFailedAlert := "Failed to start load test"

  /** `res.data.status === expected` for a reply, or how reading it fails. */
  function ReplyStatusIs(reply: Settled, expected: string): (c: Option<bool>)
    ensures c.None? <==> reply.Rejected? || IsNullish(reply.value)
    ensures c == Some(true) <==> reply.Fulfilled? && !IsNullish(reply.value)
                                  && Get(reply.value, "status") == Str(expected)
  {
    if reply.Rejected? || IsNullish(reply.value) then None
    else Some(Get(reply.value, "status") == Str(expected))
  }

  class Page {
    var metrics: seq<JsValue>
    var status: string
    var timer: int
    var intervalId: Option<nat>
    /** Intervals that have been set and not cleared. */
    var activeIntervals: set<nat>
    var nextId: nat
    /** Fetches started by a tick whose reply has not arrived. */
    var pendingFetches: nat
    var alerts: seq<string>

    /** A running page always has its interval live, and every live
        interval was handed out. */
    ghost predicate Valid()
      reads this
    {
      (status == "running" ==> intervalId.Some? && intervalId.value in activeIntervals)
      && (forall id :: id in activeIntervals ==> id < nextId)
    }

    constructor ()
      ensures Valid()
      ensures metrics == [] && status == "stopped" && timer == 0 && intervalId == None
      ensures activeIntervals == {} && pendingFetches == 0 && alerts == []
    {
      metrics := [];
      status := "stopped";
      timer := 0;
      intervalId := None;
      activeIntervals := {};
      nextId := 0;
      pendingFetches := 0;
      alerts := [];
    }

    /** Displayed "Total Requests": one per buffered sample. */
    function TotalRequests(): nat
      reads this
    {
      |metrics|
    }

    /** `startLoadTest`: only the exact status 'Locust started' starts the
        run and sets a new interval; a failed request or a reply without
        data raises the alert. */
    method StartLoadTest(reply: Settled)
      requires Valid()
      modifies this
      ensures Valid()
      ensures ReplyStatusIs(reply, "Locust started") == Some(true) ==>
        status == "running" && intervalId == Some(old(nextId))
        && activeIntervals == old(activeIntervals) + {old(nextId)} && nextId == old(nextId) + 1
        && alerts == old(alerts)
      ensures ReplyStatusIs(reply, "Locust started") == Some(false) ==>
        status == old(status) && intervalId == old(intervalId)
        && activeIntervals == old(activeIntervals) && alerts == old(alerts)
      ensures ReplyStatusIs(reply, "Locust started").None? ==>
        status == old(status) && intervalId == old(intervalId)
        && activeIntervals == old(activeIntervals) && alerts == old(alerts) + [StartFailedAlert]
      ensures metrics == old(metrics) && timer == old(timer) && pendingFetches == old(pendingFetches)
    {
      var accepted := ReplyStatusIs(reply, "Locust started");
      if accepted.None? {
        alerts := alerts + [StartFailedAlert];
      } else if accepted.value {
        status := "running";
        var id := nextId;
        nextId := nextId + 1;
        activeIntervals := activeIntervals + {id};
        intervalId := Some(id);
      }
    }

    /** One firing of a live interval: the counter goes up by one and a
        fetch starts. */
    method Tick(id: nat)
      requires id in activeIntervals
      modifies this
      ensures timer == old(timer) + 1 && pendingFetches == old(pendingFetches) + 1
      ensures metrics == old(metrics) && status == old(status) && intervalId == old(intervalId)
      ensures activeIntervals == old(activeIntervals) && nextId == old(nextId) && alerts == old(alerts)
    {
      timer := timer + 1;
      pendingFetches := pendingFetches + 1;
    }

    /** `fetchMetrics` after its reply: exactly one sample is appended and
        every earlier one kept; a failed fetch appends nothing. */
    method FetchResolved(reply: Settled)
      requires pendingFetches > 0
      modifies this
      ensures reply.Fulfilled? ==> metrics == old(metrics) + [reply.value]
      ensures reply.Fulfilled? ==> TotalRequests() == old(TotalRequests()) + 1
      ensures reply.Rejected? ==> metrics == old(metrics)
      ensures pendingFetches == old(pendingFetches) - 1
      ensures status == old(status) && timer == old(timer) && intervalId == old(intervalId)
      ensures activeIntervals == old(activeIntervals) && nextId == old(nextId) && alerts == old(alerts)
    {
      if reply.Fulfilled? {
        metrics := metrics + [reply.value];
      }
      pendingFetches := pendingFetches - 1;
    }

    /** `stopLoadTest`: only the exact status 'Locust stopped' stops the run
        and clears the current interval (`intervalId` itself is kept). */
    method StopLoadTest(reply: Settled)
      requires Valid()
      modifies this
      ensures Valid()
      ensures ReplyStatusIs(reply, "Locust stopped") == Some(true) ==>
        status == "stopped"
        && activeIntervals == old(activeIntervals) - (if intervalId.Some? then {intervalId.value} else {})
      ensures ReplyStatusIs(reply, "Locust stopped") != Some(true) ==>
        status == old(status) && activeIntervals == old(activeIntervals)
      ensures metrics == old(metrics) && timer == old(timer) && intervalId == old(intervalId)
      ensures nextId == old(nextId) && pendingFetches == old(pendingFetches) && alerts == old(alerts)
    {
      if ReplyStatusIs(reply, "Locust stopped") == Some(true) {
        status := "stopped";
        if intervalId.Some? {
          activeIntervals := activeIntervals - {intervalId.value};
        }
      }
    }

    /** `clearMetrics`: samples and counter reset; the run status is kept. */
    method ClearMetrics()
      requires Valid()
      modifies this
      ensures Valid()
      ensures metrics == [] && timer == 0 && TotalRequests() == 0
      ensures status == old(status) && intervalId == old(intervalId) && activeIntervals == old(activeIntervals)
      ensures nextId == old(nextId) && pendingFetches == old(pendingFetches) && alerts == old(alerts)
    {
      metrics := [];
      timer := 0;
    }
  }
}
