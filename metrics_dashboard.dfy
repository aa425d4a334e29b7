/** The live metrics dashboard
    (locust-dashboard/src/components/MetricsDashboard.js): a buffer of the
    samples pushed over the WebSocket, the running/starting flags driven by
    the start and stop replies, and the uptime text. Socket messages, HTTP
    replies and `Date.now()` (milliseconds) are parameters. */
module MetricsDashboard {
  import opened Text
  import opened JsValues
  import opened Optional

  /** Samples kept from before a new one arrives (`prev.slice(-100)`). */
  const Kept := 100

  /** JavaScript's `a % b` for `b > 0`: the remainder takes the sign of `a`. */
  function JsRem(a: int, b: int): (r: int)
    requires b > 0
    ensures a >= 0 ==> 0 <= r < b
    ensures a < 0 ==> -b < r <= 0
  {
    if a >= 0 then a % b else -((-a) % b)
  }

  /** Whole seconds in a non-negative or negative span of milliseconds
      (`Math.floor(ms / 1000)`; Dafny's `/` by a positive divisor floors). */
  function Seconds(ms: int): int {
    ms / 1000
  }

  /** `${minutes}m ${sec}s` for a span of `seconds`. */
  function UptimeText(seconds: int): string {
    Decimal(seconds / 60) + "m " + Decimal(JsRem(seconds, 60)) + "s"
  }

  /** For a span that does not run backwards, the text shows whole minutes
      and a seconds part in 0..59 that together give the span back. */
  lemma UptimeParts(seconds: int)
    requires seconds >= 0
    ensures 0 <= JsRem(seconds, 60) < 60
    ensures (seconds / 60) * 60 + JsRem(seconds, 60) == seconds
    ensures UptimeText(seconds) == Decimal(seconds / 60) + "m " + Decimal(seconds % 60) + "s"
  {
  }

  /** A decimal numeral holds neither 'm' nor ' '. */
  lemma DecimalHasNoLetters(n: int)
    ensures 'm' !in Decimal(n) && ' ' !in Decimal(n) && 's' !in Decimal(n)
  {
    var d := NatDigits(if n < 0 then -n else n);
    assert forall i :: 0 <= i < |d| ==> '0' <= d[i] <= '9';
  }

  /** The minutes and seconds numerals can be read back from the text. */
  lemma ReadBackParts(m1: string, s1: string, m2: string, s2: string)
    requires 'm' !in m1 && 'm' !in m2 && 's' !in s1 && 's' !in s2
    requires m1 + "m " + s1 + "s" == m2 + "m " + s2 + "s"
    ensures m1 == m2 && s1 == s2
  {
    var t := m1 + "m " + s1 + "s";
    assert t == m1 + ("m " + s1 + "s");
    assert t == m2 + ("m " + s2 + "s");
    BeforeFirstSplit(m1, "m " + s1 + "s", 'm');
    BeforeFirstSplit(m2, "m " + s2 + "s", 'm');
    assert s1 + "s" == t[|m1| + 2..] == s2 + "s";
    BeforeFirstSplit(s1, "s", 's');
    BeforeFirstSplit(s2, "s", 's');
  }

  /** Reading the text back: for spans that do not run backwards, the text
      determines the number of seconds. */
  lemma UptimeTextInjective(a: int, b: int)
    requires a >= 0 && b >= 0
    requires UptimeText(a) == UptimeText(b)
    ensures a == b
  {
    DecimalHasNoLetters(a / 60);
    DecimalHasNoLetters(b / 60);
    DecimalHasNoLetters(JsRem(a, 60));
    DecimalHasNoLetters(JsRem(b, 60));
    ReadBackParts(Decimal(a / 60), Decimal(JsRem(a, 60)), Decimal(b / 60), Decimal(JsRem(b, 60)));
    DecimalInjective(a / 60, b / 60);
    DecimalInjective(JsRem(a, 60), JsRem(b, 60));
    UptimeParts(a);
    UptimeParts(b);
  }

  /** `handleStart`'s success test: a non-empty string status that contains
      "locust started" once lower-cased (ASCII letters). */
  predicate StartAccepted(status: JsValue) {
    status.Str? && status.s != "" && Contains(ToLower(status.s), "locust started")
  }

  /** The statuses for which `handleStart` alerts: a falsy one, or a
      string without "locust started". */
  predicate StartRejected(status: JsValue) {
    !Truthy(status) || (status.Str? && !Contains(ToLower(status.s), "locust started"))
  }

  /** Every status is accepted, rejected with an alert, or (a truthy
      non-string, which has no `toLowerCase`) makes the handler throw. */
  lemma StartVerdicts(status: JsValue)
    ensures !(StartAccepted(status) && StartRejected(status))
    ensures !StartAccepted(status) && !StartRejected(status) <==> Truthy(status) && !status.Str?
  {
  }

  const StartFailedAlert := "❌ Failed to start Locust"
  const StopFailedAlert := "❌ Failed to stop Locust"

  /** `handleStop`'s success test. */
  predicate StopAccepted(status: JsValue) {
    status == Str("stopped") || status == Str("Locust stopped")
  }

  /** `latest?.key ?? 0` for the newest sample of a buffer. */
  function Stat(metrics: seq<JsValue>, key: string): (v: JsValue)
    ensures metrics == [] ==> v == Num(0)
    ensures metrics != [] && !IsNullish(OptGet(metrics[|metrics| - 1], key)) ==>
      v == OptGet(metrics[|metrics| - 1], key)
    ensures metrics != [] && IsNullish(OptGet(metrics[|metrics| - 1], key)) ==> v == Num(0)
    ensures !IsNullish(v)
  {
    var latest := if metrics == [] then Undefined else metrics[|metrics| - 1];
    Coalesce(OptGet(latest, key), Num(0))
  }

  class Dashboard {
    var metrics: seq<JsValue>
    var running: bool
    var startTime: Option<int>
    var elapsedTime: string
    var starting: bool
    /** The `alert` messages shown, oldest first. */
    var alerts: seq<string>

    ghost predicate Valid()
      reads this
    {
      |metrics| <= Kept + 1
    }

    constructor ()
      ensures Valid()
      ensures metrics == [] && !running && startTime == None && elapsedTime == "0m 0s" && !starting
      ensures alerts == []
    {
      alerts := [];
      metrics := [];
      running := false;
      startTime := None;
      elapsedTime := "0m 0s";
      starting := false;
    }

    /** `ws.onmessage`: keep the last 100 samples and append the new one;
        a sample whose status is "Locust stopped" ends the run. A `null`
        sample is appended and then throws on `data.status`. */
    method OnMessage(data: JsValue)
      modifies this
      ensures metrics == LastN(old(metrics), Kept) + [data]
      ensures |metrics| <= Kept + 1 && metrics[|metrics| - 1] == data
      ensures |old(metrics)| <= Kept ==> metrics == old(metrics) + [data]
      ensures Valid()
      ensures !IsNullish(data) && Get(data, "status") == Str("Locust stopped") ==>
        !running && startTime == None
      ensures !(!IsNullish(data) && Get(data, "status") == Str("Locust stopped")) ==>
        running == old(running) && startTime == old(startTime)
      ensures elapsedTime == old(elapsedTime) && starting == old(starting) && alerts == old(alerts)
    {
      metrics := LastN(metrics, Kept) + [data];
      if !IsNullish(data) && Get(data, "status") == Str("Locust stopped") {
        running := false;
        startTime := None;
      }
    }

    /** One tick of the uptime interval, which runs while `running &&
        startTime` (a start time of 0 is falsy). */
    method Tick(now: int)
      requires Valid()
      modifies this
      ensures Valid()
      ensures running && startTime.Some? && startTime.value != 0 ==>
        elapsedTime == UptimeText(Seconds(now - startTime.value))
      ensures !(running && startTime.Some? && startTime.value != 0) ==> elapsedTime == old(elapsedTime)
      ensures metrics == old(metrics) && running == old(running)
      ensures startTime == old(startTime) && starting == old(starting) && alerts == old(alerts)
    {
      if running && startTime.Some? && startTime.value != 0 {
        elapsedTime := UptimeText(Seconds(now - startTime.value));
      }
    }

    /** `handleStart` up to the awaited reply. */
    method BeginStart()
      requires Valid()
      modifies this
      ensures Valid()
      ensures starting
      ensures metrics == old(metrics) && running == old(running)
      ensures startTime == old(startTime) && elapsedTime == old(elapsedTime) && alerts == old(alerts)
    {
      starting := true;
    }

    /** `handleStart` after the reply: `starting` ends, and the run starts
        only on an accepted status; a rejected one raises the failure alert.
        A failed request or unparsable body throws before `starting` is
        cleared; a null body, or a status without `toLowerCase`, throws after
        it, with no alert. */
    method FinishStart(reply: Settled, now: int)
      requires Valid()
      modifies this
      ensures Valid()
      ensures reply.Rejected? ==>
        starting == old(starting) && running == old(running) && startTime == old(startTime)
      ensures reply.Fulfilled? ==> !starting
      ensures reply.Fulfilled? && !IsNullish(reply.value) && StartAccepted(Get(reply.value, "status")) ==>
        running && startTime == Some(now)
      ensures reply.Fulfilled? && !(!IsNullish(reply.value) && StartAccepted(Get(reply.value, "status"))) ==>
        running == old(running) && startTime == old(startTime)
      ensures reply.Fulfilled? && !IsNullish(reply.value) && StartRejected(Get(reply.value, "status")) ==>
        alerts == old(alerts) + [StartFailedAlert]
      ensures !(reply.Fulfilled? && !IsNullish(reply.value) && StartRejected(Get(reply.value, "status"))) ==>
        alerts == old(alerts)
      ensures metrics == old(metrics) && elapsedTime == old(elapsedTime)
    {
      match reply
      case Rejected(_) =>
      case Fulfilled(data) =>
        starting := false;
        if !IsNullish(data) {
          var status := Get(data, "status");
          if StartAccepted(status) {
            running := true;
            startTime := Some(now);
          } else if StartRejected(status) {
            alerts := alerts + [StartFailedAlert];
          }
        }
    }

    /** `handleStop`: a reply status of "stopped" or "Locust stopped" ends
        the run; any other status leaves it as it was and raises the failure
        alert. A failed request, or a null body, throws with no alert. */
    method HandleStop(reply: Settled)
      requires Valid()
      modifies this
      ensures Valid()
      ensures reply.Fulfilled? && !IsNullish(reply.value) && StopAccepted(Get(reply.value, "status")) ==>
        !running && startTime == None
      ensures !(reply.Fulfilled? && !IsNullish(reply.value) && StopAccepted(Get(reply.value, "status"))) ==>
        running == old(running) && startTime == old(startTime)
      ensures reply.Fulfilled? && !IsNullish(reply.value) && !StopAccepted(Get(reply.value, "status")) ==>
        alerts == old(alerts) + [StopFailedAlert]
      ensures !(reply.Fulfilled? && !IsNullish(reply.value) && !StopAccepted(Get(reply.value, "status"))) ==>
        alerts == old(alerts)
      ensures metrics == old(metrics) && elapsedTime == old(elapsedTime) && starting == old(starting)
    {
      if reply.Fulfilled? && !IsNullish(reply.value) {
        if StopAccepted(Get(reply.value, "status")) {
          running := false;
          startTime := None;
        } else {
          alerts := alerts + [StopFailedAlert];
        }
      }
    }

    /** `handleClear`: the buffer and uptime are reset; `running` is not touched. */
    method HandleClear()
      modifies this
      ensures metrics == [] && elapsedTime == "0m 0s" && startTime == None
      ensures running == old(running) && starting == old(starting) && alerts == old(alerts)
      ensures Valid()
    {
      metrics := [];
      elapsedTime := "0m 0s";
      startTime := None;
    }
  }
}
