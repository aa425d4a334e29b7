/** The load tests page (locust-dashboard/src/pages/LoadTests.js): the
    history table's status chip and the start dialog, whose configuration
    is posted to the API. `StartTest` runs `handleStartTest` up to its
    `await`, `StartSettled` runs when the post settles. */
module LoadTests {
  import opened JsValues
  import opened Text
  import opened Optional
  import MetricsApi

  /** `getStatusColor`. */
  function StatusColor(status: string): (color: string)
    ensures color == "success" <==> status == "Running"
    ensures color == "primary" <==> status == "Completed"
    ensures color == "error" <==> status == "Failed"
    ensures color == "default" <==> status !in {"Running", "Completed", "Failed"}
  {
    match status
    case "Running" => "success"
    case "Completed" => "primary"
    case "Failed" => "error"
    case _ => "default"
  }

  /** The dialog's fields; they start as numbers and hold text once edited. */
  datatype TestConfig = TestConfig(users: JsValue, rate: JsValue, time: JsValue, host: JsValue)

  const InitialConfig := TestConfig(Num(10), Num(2), Str("10m"), Str("https://your-api-url.com"))

  /** A posted request. */
  datatype Post = StartPost(config: TestConfig) | StopPost

  /** How a number or string field reaches the API after JSON encoding. */
  function AsField(v: JsValue): MetricsApi.Field
    requires v.Num? || v.Str?
  {
    if v.Num? then MetricsApi.FInt(v.n) else MetricsApi.FStr(v.s)
  }

  /** The JSON body `handleStartTest` posts, as the API reads it: the four
      dialog keys, each a number or a string. */
  function PostedFields(c: TestConfig): (m: map<string, MetricsApi.Field>)
    requires c.users.Num? || c.users.Str?
    requires c.rate.Num? || c.rate.Str?
    requires c.time.Num? || c.time.Str?
    requires c.host.Num? || c.host.Str?
    ensures m.Keys == {"users", "rate", "time", "host"}
    ensures forall k :: k in m ==> m[k].FInt? || m[k].FStr?
  {
    map["users" := AsField(c.users), "rate" := AsField(c.rate),
        "time" := AsField(c.time), "host" := AsField(c.host)]
  }

  /** The untouched dialog's body, were it to reach the API's
      `start_locust`, would launch the same command as an empty body: the
      page's initial values are the API's defaults. (The page posts to
      `/api/start-locust`, a route the API does not serve.) */
  lemma InitialConfigIsApiDefault()
    ensures MetricsApi.LaunchCommand(PostedFields(InitialConfig)) == MetricsApi.LaunchCommand(map[])
  {
  }

  /** A body from a dialog whose fields were all typed in would, at the
      API's `start_locust`, launch locust with exactly that text. */
  lemma TypedConfigLaunches(users: string, rate: string, time: string, host: string)
    ensures MetricsApi.LaunchCommand(PostedFields(TestConfig(Str(users), Str(rate), Str(time), Str(host))))
         == Some(["locust", "-f", "locustfile.py", "--headless", "-u", users, "-r", rate,
                  "-t", time, "--host", host])
  {
  }

  class Page {
    var open: bool
    var config: TestConfig
    var loading: bool
    var posted: seq<Post>
    /** Start posts that have not settled. */
    var pendingStarts: nat

    constructor ()
      ensures !open && config == InitialConfig && !loading && posted == [] && pendingStarts == 0
    {
      open := false;
      config := InitialConfig;
      loading := false;
      posted := [];
      pendingStarts := 0;
    }

    /** The Start button is disabled while a start is loading. */
    predicate StartDisabled()
      reads this
    {
      loading
    }

    method OpenDialog()
      modifies this
      ensures open
      ensures config == old(config) && loading == old(loading) && posted == old(posted)
      ensures pendingStarts == old(pendingStarts)
    {
      open := true;
    }

    /** The dialog's Cancel button or its backdrop. */
    method CloseDialog()
      modifies this
      ensures !open
      ensures config == old(config) && loading == old(loading) && posted == old(posted)
      ensures pendingStarts == old(pendingStarts)
    {
      open := false;
    }

    method SetUsers(value: string)
      modifies this
      ensures config == old(config).(users := Str(value))
      ensures open == old(open) && loading == old(loading) && posted == old(posted)
      ensures pendingStarts == old(pendingStarts)
    {
      config := config.(users := Str(value));
    }

    method SetRate(value: string)
      modifies this
      ensures config == old(config).(rate := Str(value))
      ensures open == old(open) && loading == old(loading) && posted == old(posted)
      ensures pendingStarts == old(pendingStarts)
    {
      config := config.(rate := Str(value));
    }

    method SetTime(value: string)
      modifies this
      ensures config == old(config).(time := Str(value))
      ensures open == old(open) && loading == old(loading) && posted == old(posted)
      ensures pendingStarts == old(pendingStarts)
    {
      config := config.(time := Str(value));
    }

    method SetHost(value: string)
      modifies this
      ensures config == old(config).(host := Str(value))
      ensures open == old(open) && loading == old(loading) && posted == old(posted)
      ensures pendingStarts == old(pendingStarts)
    {
      config := config.(host := Str(value));
    }

    /** `handleStartTest` up to the `await`: loading starts and the current
        configuration is posted. */
    method StartTest()
      requires !StartDisabled()
      modifies this
      ensures loading && posted == old(posted) + [StartPost(config)]
      ensures pendingStarts == old(pendingStarts) + 1
      ensures open == old(open) && config == old(config)
    {
      loading := true;
      posted := posted + [StartPost(config)];
      pendingStarts := pendingStarts + 1;
    }

    /** `handleStartTest` after the post settles: the dialog closes only on
        success, and loading ends either way. */
    method StartSettled(ok: bool)
      requires pendingStarts > 0
      modifies this
      ensures !loading && pendingStarts == old(pendingStarts) - 1
      ensures ok ==> !open
      ensures !ok ==> open == old(open)
      ensures config == old(config) && posted == old(posted)
    {
      if ok {
        open := false;
      }
      loading := false;
      pendingStarts := pendingStarts - 1;
    }

    /** `handleStopTest`: the stop is posted; its outcome is only logged. */
    method StopTest()
      modifies this
      ensures posted == old(posted) + [StopPost]
      ensures open == old(open) && config == old(config) && loading == old(loading)
      ensures pendingStarts == old(pendingStarts)
    {
      posted := posted + [StopPost];
    }
  }
}
