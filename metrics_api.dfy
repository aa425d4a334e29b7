/** The metrics API (metrics-api/main.py): the single Locust child process
    that `/start-locust` launches and `/stop-locust` ends, the set of open
    WebSocket connections, and the broadcast of posted samples to them.
    Whether the child is still running (`poll() is None`), whether `Popen`
    succeeds, whether the body parses and which sends fail are parameters. */
module MetricsApi {
  import opened Text
  import opened JsValues
  import opened Optional

  /** A JSON request field as Python holds it after `request.json()`.
      `Other` is a float, list or dict, carried with its `str()` text. */
  datatype Field = FNone | FBool(b: bool) | FInt(i: int) | FStr(s: string) | Other(text: string)

  /** The parsed request body: a JSON object, or some other JSON value
      (which has no `.get`). */
  datatype Body = JsonObject(fields: map<string, Field>) | NotAnObject

  /** A started child process and whether it is still running. */
  datatype Process = Process(command: seq<string>, alive: bool)

  /** What an endpoint answers: `{"status": ...}`, a 400 with
      `{"error": ...}`, or a 500 carrying an exception text. */
  datatype Response = Ok(status: string) | BadRequest(error: string) | InternalError

  /** How a WebSocket's receive loop ends. */
  datatype Close = ClientDisconnect | OtherFailure

  /** One `send_json` of a payload to a connection. */
  datatype Delivery = Delivery(conn: nat, payload: JsValue)

  const AlreadyRunning := "Locust already running."
  const NotRunning := "Locust is not running."
  const DefaultTime := "10m"
  const DefaultHost := "https://your-api-url.com"

  /** Python's `str()` of a field. */
  function PyStr(f: Field): (s: string)
    ensures f.FStr? ==> s == f.s
    ensures f.FInt? ==> s == Decimal(f.i)
  {
    match f
    case FNone => "None"
    case FBool(b) => if b then "True" else "False"
    case FInt(i) => Decimal(i)
    case FStr(s) => s
    case Other(text) => text
  }

  /** `data.get(key, default)`. */
  function GetOr(fields: map<string, Field>, key: string, default: Field): (f: Field)
    ensures key in fields ==> f == fields[key]
    ensures key !in fields ==> f == default
  {
    if key in fields then fields[key] else default
  }

  /** The argument list `start_locust` hands to `Popen`, or None when the
      time or host field is not a string (Popen then raises). */
  function LaunchCommand(fields: map<string, Field>): (r: Option<seq<string>>)
    ensures r.Some? <==> GetOr(fields, "time", FStr(DefaultTime)).FStr?
                         && GetOr(fields, "host", FStr(DefaultHost)).FStr?
    ensures r.Some? ==>
      |r.value| == 12
      && r.value[..5] == ["locust", "-f", "locustfile.py", "--headless", "-u"]
      && r.value[5] == PyStr(GetOr(fields, "users", FInt(10)))
      && r.value[6] == "-r" && r.value[7] == PyStr(GetOr(fields, "rate", FInt(2)))
      && r.value[8] == "-t" && r.value[9] == GetOr(fields, "time", FStr(DefaultTime)).s
      && r.value[10] == "--host" && r.value[11] == GetOr(fields, "host", FStr(DefaultHost)).s
  {
    var users := PyStr(GetOr(fields, "users", FInt(10)));
    var rate := PyStr(GetOr(fields, "rate", FInt(2)));
    var time := GetOr(fields, "time", FStr(DefaultTime));
    var host := GetOr(fields, "host", FStr(DefaultHost));
    if time.FStr? && host.FStr? then
      Some(["locust", "-f", "locustfile.py", "--headless", "-u", users, "-r", rate,
            "-t", time.s, "--host", host.s])
    else None
  }

  /** An empty body launches 10 users at 2 per second for 10 minutes
      against the placeholder host. */
  lemma DefaultLaunch()
    ensures LaunchCommand(map[]) == Some(["locust", "-f", "locustfile.py", "--headless",
      "-u", "10", "-r", "2", "-t", "10m", "--host", "https://your-api-url.com"])
  {
    assert Decimal(10) == "10" && Decimal(2) == "2";
  }

  /** `locust_process and locust_process.poll() is None`. */
  predicate Running(p: Option<Process>) {
    p.Some? && p.value.alive
  }

  class Server {
    var process: Option<Process>
    var connections: set<nat>
    /** Every `send_json` made so far, in order. */
    var sent: seq<Delivery>

    constructor ()
      ensures process == None && connections == {} && sent == []
    {
      process := None;
      connections := {};
      sent := [];
    }

    /** The child exits on its own (its run time is over, or it fails). */
    method ProcessExit()
      modifies this
      ensures process == if old(process).Some? then Some(old(process).value.(alive := false)) else None
      ensures connections == old(connections) && sent == old(sent)
    {
      if process.Some? {
        process := Some(process.value.(alive := false));
      }
    }

    /** `start_locust`: refused while a run is alive; otherwise the body's
        fields, with their defaults, make the command, and a successful
        spawn becomes the current process. */
    method StartLocust(body: Option<Body>, spawnOk: bool) returns (r: Response)
      modifies this
      ensures old(Running(process)) ==> r == BadRequest(AlreadyRunning) && process == old(process)
      ensures r == Ok("Locust started") <==>
        !old(Running(process)) && body.Some? && body.value.JsonObject?
        && LaunchCommand(body.value.fields).Some? && spawnOk
      ensures r == Ok("Locust started") ==>
        process == Some(Process(LaunchCommand(body.value.fields).value, true))
      ensures r != Ok("Locust started") ==> process == old(process)
      ensures r.Ok? || r.InternalError? || r == BadRequest(AlreadyRunning)
      ensures connections == old(connections) && sent == old(sent)
    {
      if Running(process) {
        return BadRequest(AlreadyRunning);
      }
      if body.None? || body.value.NotAnObject? {
        return InternalError;
      }
      var command := LaunchCommand(body.value.fields);
      if command.None? || !spawnOk {
        return InternalError;
      }
      process := Some(Process(command.value, true));
      r := Ok("Locust started");
    }

    /** `stop_locust`: a live run is interrupted, waited for and forgotten;
        with none, the stop is refused. */
    method StopLocust() returns (r: Response)
      modifies this
      ensures old(Running(process)) ==> r == Ok("Locust stopped") && process == None
      ensures !old(Running(process)) ==> r == BadRequest(NotRunning) && process == old(process)
      ensures connections == old(connections) && sent == old(sent)
    {
      if Running(process) {
        process := None;
        r := Ok("Locust stopped");
      } else {
        r := BadRequest(NotRunning);
      }
    }

    /** `websocket_endpoint` after `accept()`. */
    method Accept(conn: nat)
      modifies this
      ensures connections == old(connections) + {conn}
      ensures process == old(process) && sent == old(sent)
    {
      connections := connections + {conn};
    }

    /** The end of a connection's receive loop: only a client disconnect
        removes it from the set; any other failure leaves it there. */
    method Closed(conn: nat, how: Close)
      requires conn in connections
      modifies this
      ensures how == ClientDisconnect ==> connections == old(connections) - {conn}
      ensures how == OtherFailure ==> connections == old(connections)
      ensures process == old(process) && sent == old(sent)
    {
      if how == ClientDisconnect {
        connections := connections - {conn};
      }
    }

    /** `receive_metrics`: the parsed sample goes to every open connection,
        one send each, in the set's iteration order; the first send that
        fails ends the broadcast with a 500, and a body that does not parse
        sends nothing. */
    method ReceiveMetrics(payload: Option<JsValue>, failing: set<nat>) returns (r: Response)
      modifies this
      ensures r == Ok("ok") <==> payload.Some? && connections * failing == {}
      ensures r.Ok? || r.InternalError?
      ensures payload.None? ==> sent == old(sent)
      ensures |sent| >= |old(sent)| && sent[..|old(sent)|] == old(sent)
      ensures payload.Some? ==> forall k :: |old(sent)| <= k < |sent| ==>
        sent[k] == Delivery(sent[k].conn, payload.value) && sent[k].conn in connections - failing
      ensures forall k, l :: |old(sent)| <= k < l < |sent| ==> sent[k].conn != sent[l].conn
      ensures r.Ok? ==> |sent| - |old(sent)| == |connections|
      ensures r.Ok? ==> forall c :: c in connections ==> c in Recipients(sent[|old(sent)|..])
      ensures process == old(process) && connections == old(connections)
    {
      if payload.None? {
        return InternalError;
      }
      var p := payload.value;
      var pending := connections;
      var failed := false;
      ghost var order: seq<nat> := [];
      while pending != {} && !failed
        invariant pending <= connections
        invariant failed ==> connections * failing != {}
        invariant !failed ==> (connections - pending) * failing == {}
        invariant |order| == |connections - pending|
        invariant sent == old(sent) + Deliveries(order, p)
        invariant forall i :: 0 <= i < |order| ==> order[i] in connections - pending - failing
        invariant forall c :: c in connections - pending ==> c in order
        invariant forall i, j :: 0 <= i < j < |order| ==> order[i] != order[j]
        invariant process == old(process) && connections == old(connections)
        decreases |pending|, !failed
      {
        var c :| c in pending;
        if c in failing {
          failed := true;
        } else {
          sent := sent + [Delivery(c, p)];
          order := order + [c];
          pending := pending - {c};
        }
      }
      RecipientsOfDeliveries(order, p);
      r := if failed then InternalError else Ok("ok");
    }
  }

  /** One delivery of `p` to each connection of `order`, in that order. */
  function Deliveries(order: seq<nat>, p: JsValue): (ds: seq<Delivery>)
    ensures |ds| == |order|
    ensures forall i :: 0 <= i < |order| ==> ds[i] == Delivery(order[i], p)
  {
    seq(|order|, i requires 0 <= i < |order| => Delivery(order[i], p))
  }

  /** The connections a run of deliveries went to, in order. */
  function Recipients(ds: seq<Delivery>): (cs: seq<nat>)
    ensures |cs| == |ds|
    ensures forall i :: 0 <= i < |ds| ==> cs[i] == ds[i].conn
  {
    seq(|ds|, i requires 0 <= i < |ds| => ds[i].conn)
  }

  lemma RecipientsOfDeliveries(order: seq<nat>, p: JsValue)
    ensures Recipients(Deliveries(order, p)) == order
  {
  }
}
