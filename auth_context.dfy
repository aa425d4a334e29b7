/** The authentication context of the dashboard
    (locust-dashboard/src/contexts/AuthContext.js): the classifier that turns
    an error value into one display message, and the session state machine
    over the stored token and the current user. HTTP replies are parameters;
    the requests the session sends are recorded in order. */
module AuthContext {
  import opened Text
  import opened JsValues
  import opened Optional

  /** Text returned for any failure recognised as a connection problem. */
  const NetworkMessage := "Unable to connect to server. Please check if the backend is running."

  /** The object `login` and `signup` resolve with: `{success: true}` or
      `{success: false, error}`. */
  datatype AuthResult = AuthResult(success: bool, error: JsValue)

  /** How a call to `login` or `signup` settles. */
  datatype AuthOutcome = Resolved(result: AuthResult) | Failed(reason: JsValue)

  /** An HTTP request the session sent. */
  datatype Request =
    | PostLogin(email: string, password: string)
    | PostSignup(email: string, password: string, fullName: string)
    | GetMe(bearer: string)

  /** Outcome of mapping a list of validation entries to messages. */
  datatype Mapped = Values(vals: seq<JsValue>) | Stopped(exception: JsValue)

  /** `error?.response?.data`. */
  function ResponseData(error: JsValue): JsValue {
    OptGet(OptGet(error, "response"), "data")
  }

  /** `err.msg || err.message || 'Invalid input'` for an entry that is not
      null or undefined. */
  function EntryText(err: JsValue): (r: JsValue)
    requires !IsNullish(err)
    ensures Truthy(r)
  {
    Or(Or(Get(err, "msg"), Get(err, "message")), Str("Invalid input"))
  }

  /** The message one entry contributes; in a `detail` array
      (`keepStrings`) a string entry stands for itself. */
  function EntryValue(err: JsValue, keepStrings: bool): (r: JsValue)
    requires !IsNullish(err)
    ensures Truthy(r) || r == err
    ensures !IsNullish(r)
  {
    if keepStrings && err.Str? then err else EntryText(err)
  }

  /** The mapping callback, which throws on a null or undefined entry. */
  function EntryMessage(err: JsValue, keepStrings: bool): (c: Completion)
    ensures c.Throw? <==> IsNullish(err)
  {
    if keepStrings && err.Str? then Normal(err)
    else if IsNullish(err) then Throw(ReadError(err, "msg"))
    else Normal(EntryText(err))
  }

  /** `xs.map(callback)`: entries are mapped left to right and the first
      throw ends the map. */
  function MapEntries(xs: seq<JsValue>, keepStrings: bool): Mapped
    decreases |xs|
  {
    if xs == [] then Values([])
    else match EntryMessage(xs[0], keepStrings)
      case Throw(e) => Stopped(e)
      case Normal(v) =>
        match MapEntries(xs[1..], keepStrings)
        case Stopped(e) => Stopped(e)
        case Values(vs) => Values([v] + vs)
  }

  function JoinMapped(m: Mapped): Completion {
    match m
    case Stopped(e) => Throw(e)
    case Values(vs) => Normal(Str(JoinValues(vs, ", ")))
  }

  /** `extractErrorMessage(error)`. */
  function ExtractErrorMessage(error: JsValue): (r: Completion)
    ensures error.Str? ==> r == Normal(error)
  {
    if error.Str? then Normal(error)
    else
      var data := ResponseData(error);
      if Truthy(data) && data.Arr? then JoinMapped(MapEntries(data.elems, false))
      else if Truthy(data) && Truthy(Get(data, "detail")) && Get(data, "detail").Str? then
        Normal(Get(data, "detail"))
      else if Truthy(data) && Truthy(Get(data, "detail")) && Get(data, "detail").Arr? then
        JoinMapped(MapEntries(Get(data, "detail").elems, true))
      else if Truthy(data) && Truthy(Get(data, "message")) then
        Normal(if Get(data, "message").Str? then Get(data, "message") else Str("An error occurred"))
      else
        Normal(Or(OptGet(error, "message"), Str("An unexpected error occurred")))
  }

  /** Mapping succeeds exactly when no entry is null or undefined; it then
      yields one message per entry, in order, and otherwise stops with the
      TypeError of the first such entry. */
  lemma {:induction false} MapEntriesSpec(xs: seq<JsValue>, keepStrings: bool)
    ensures MapEntries(xs, keepStrings).Values? <==> forall i :: 0 <= i < |xs| ==> !IsNullish(xs[i])
    ensures MapEntries(xs, keepStrings).Values? ==>
      MapEntries(xs, keepStrings).vals
        == seq(|xs|, i requires 0 <= i < |xs| && !IsNullish(xs[i]) => EntryValue(xs[i], keepStrings))
    ensures MapEntries(xs, keepStrings).Stopped? ==>
      exists k :: 0 <= k < |xs| && IsNullish(xs[k])
        && (forall i :: 0 <= i < k ==> !IsNullish(xs[i]))
        && MapEntries(xs, keepStrings).exception == ReadError(xs[k], "msg")
    decreases |xs|
  {
    if xs != [] {
      MapEntriesSpec(xs[1..], keepStrings);
      if !IsNullish(xs[0]) {
        var m := MapEntries(xs[1..], keepStrings);
        if m.Stopped? {
          var k :| 0 <= k < |xs[1..]| && IsNullish(xs[1..][k])
            && (forall i :: 0 <= i < k ==> !IsNullish(xs[1..][i]))
            && m.exception == ReadError(xs[1..][k], "msg");
          assert IsNullish(xs[k + 1]);
          assert forall i :: 0 <= i < k + 1 ==> !IsNullish(xs[i]) by {
            forall i | 0 <= i < k + 1 ensures !IsNullish(xs[i]) {
              if i > 0 { assert xs[i] == xs[1..][i - 1]; }
            }
          }
        } else {
          assert forall i :: 1 <= i < |xs| ==> xs[i] == xs[1..][i - 1];
        }
      }
    }
  }

  /** The text of `[...].join(', ')` over messages that are never nullish. */
  function JoinedText(xs: seq<JsValue>, keepStrings: bool): string
    requires forall i :: 0 <= i < |xs| ==> !IsNullish(xs[i])
  {
    Join(seq(|xs|, i requires 0 <= i < |xs| => ToStr(EntryValue(xs[i], keepStrings))), ", ")
  }

  lemma JoinMappedText(xs: seq<JsValue>, keepStrings: bool)
    requires forall i :: 0 <= i < |xs| ==> !IsNullish(xs[i])
    ensures JoinMapped(MapEntries(xs, keepStrings)) == Normal(Str(JoinedText(xs, keepStrings)))
  {
    MapEntriesSpec(xs, keepStrings);
    var vs := MapEntries(xs, keepStrings).vals;
    assert seq(|vs|, i requires 0 <= i < |vs| => JoinPiece(vs[i]))
        == seq(|xs|, i requires 0 <= i < |xs| => ToStr(EntryValue(xs[i], keepStrings)));
  }

  /** The precedence of `extractErrorMessage` for an error that is not a
      string: an array body, then a string or array `detail`, then `message`
      (a non-string one gives 'An error occurred'), then the error's own
      `message`, then 'An unexpected error occurred'. Array entries give
      their `msg`, else `message`, else 'Invalid input' (a string `detail`
      entry stands for itself), joined with ', ' in order; a null or
      undefined entry makes the classifier throw. */
  lemma ExtractPrecedence(error: JsValue)
    requires !error.Str?
    ensures var data := ResponseData(error);
      && (Truthy(data) && data.Arr? && (forall i :: 0 <= i < |data.elems| ==> !IsNullish(data.elems[i])) ==>
            ExtractErrorMessage(error) == Normal(Str(JoinedText(data.elems, false))))
      && (Truthy(data) && data.Arr? && (exists i :: 0 <= i < |data.elems| && IsNullish(data.elems[i])) ==>
            ExtractErrorMessage(error).Throw?)
      && (Truthy(data) && !data.Arr? && Get(data, "detail").Str? && Get(data, "detail").s != "" ==>
            ExtractErrorMessage(error) == Normal(Get(data, "detail")))
      && (Truthy(data) && !data.Arr? && Get(data, "detail").Arr?
          && (forall i :: 0 <= i < |Get(data, "detail").elems| ==> !IsNullish(Get(data, "detail").elems[i])) ==>
            ExtractErrorMessage(error) == Normal(Str(JoinedText(Get(data, "detail").elems, true))))
      && (Truthy(data) && !data.Arr? && Get(data, "detail").Arr?
          && (exists i :: 0 <= i < |Get(data, "detail").elems| && IsNullish(Get(data, "detail").elems[i])) ==>
            ExtractErrorMessage(error).Throw?)
      && (Truthy(data) && !data.Arr? && !(Truthy(Get(data, "detail")) && (Get(data, "detail").Str? || Get(data, "detail").Arr?))
          && Truthy(Get(data, "message")) ==>
            ExtractErrorMessage(error) == Normal(if Get(data, "message").Str? then Get(data, "message") else Str("An error occurred")))
      && (!Truthy(data) || (!data.Arr? && !(Truthy(Get(data, "detail")) && (Get(data, "detail").Str? || Get(data, "detail").Arr?))
                            && !Truthy(Get(data, "message"))) ==>
            ExtractErrorMessage(error) == Normal(Or(OptGet(error, "message"), Str("An unexpected error occurred"))))
  {
    var data := ResponseData(error);
    if Truthy(data) && data.Arr? {
      MapEntriesSpec(data.elems, false);
      if forall i :: 0 <= i < |data.elems| ==> !IsNullish(data.elems[i]) {
        JoinMappedText(data.elems, false);
      }
    } else if Truthy(data) && Get(data, "detail").Arr? {
      var d := Get(data, "detail").elems;
      MapEntriesSpec(d, true);
      if forall i :: 0 <= i < |d| ==> !IsNullish(d[i]) {
        JoinMappedText(d, true);
      }
    }
  }

  /** The classifier returns something other than a string only when it
      passes the error's own `message` through (the reason every page
      guards `typeof result.error === 'string'`). */
  lemma ExtractNonString(error: JsValue)
    requires ExtractErrorMessage(error).Normal? && !ExtractErrorMessage(error).value.Str?
    ensures ExtractErrorMessage(error).value == OptGet(error, "message")
    ensures Truthy(OptGet(error, "message"))
  {
  }

  /** `error.code === 'NETWORK_ERROR' || error.message.includes('Network Error')`,
      evaluated after the handler's logging has read `error.response`. */
  function IsNetworkError(error: JsValue): (c: Completion)
    ensures c.Normal? ==> c.value.Bool?
    ensures c == Normal(Bool(true)) <==>
      !IsNullish(error)
      && (|| Get(error, "code") == Str("NETWORK_ERROR")
          || (Get(error, "message").Str? && Contains(Get(error, "message").s, "Network Error"))
          || (Get(error, "message").Arr? && Str("Network Error") in Get(error, "message").elems))
    ensures IsNullish(error) ==> c == Throw(ReadError(error, "response"))
    ensures !IsNullish(error) && Get(error, "code") != Str("NETWORK_ERROR") ==>
      (c.Throw? <==> !(Get(error, "message").Str? || Get(error, "message").Arr?))
  {
    if IsNullish(error) then Throw(ReadError(error, "response"))
    else if Get(error, "code") == Str("NETWORK_ERROR") then Normal(Bool(true))
    else
      var m := Get(error, "message");
      match m
      case Str(s) => Normal(Bool(Contains(s, "Network Error")))
      case Arr(xs) => Normal(Bool(Str("Network Error") in xs))
      case Undefined => Throw(ReadError(m, "includes"))
      case Null => Throw(ReadError(m, "includes"))
      case _ => Throw(TypeError("error.message.includes is not a function"))
  }

  /** The `catch` block shared by `login` and `signup`; `fallback` is
      'Login failed' or 'Signup failed'. */
  function CatchAuthError(error: JsValue, fallback: string): (r: AuthOutcome)
    requires fallback != ""
    ensures r.Resolved? ==> !r.result.success && Truthy(r.result.error)
    ensures IsNetworkError(error) == Normal(Bool(true)) ==>
      r == Resolved(AuthResult(false, Str(NetworkMessage)))
    ensures IsNetworkError(error).Throw? ==> r == Failed(IsNetworkError(error).exception)
    ensures IsNetworkError(error) == Normal(Bool(false)) && ExtractErrorMessage(error).Throw? ==>
      r == Failed(ExtractErrorMessage(error).exception)
    ensures IsNetworkError(error) == Normal(Bool(false)) && ExtractErrorMessage(error).Normal? ==>
      r == Resolved(AuthResult(false, Or(ExtractErrorMessage(error).value, Str(fallback))))
  {
    match IsNetworkError(error)
    case Throw(e) => Failed(e)
    case Normal(b) =>
      if b == Bool(true) then Resolved(AuthResult(false, Str(NetworkMessage)))
      else match ExtractErrorMessage(error)
        case Throw(e) => Failed(e)
        case Normal(m) => Resolved(AuthResult(false, Or(m, Str(fallback))))
  }

  /** A request failure flagged as a network error — by its code or by the
      words 'Network Error' in a string message — gets the fixed connection
      message whatever else the error holds. */
  lemma NetworkErrorMessage(error: JsValue, fallback: string)
    requires fallback != "" && !IsNullish(error)
    requires Get(error, "code") == Str("NETWORK_ERROR")
          || (Get(error, "message").Str? && Contains(Get(error, "message").s, "Network Error"))
    ensures CatchAuthError(error, fallback) == Resolved(AuthResult(false, Str(NetworkMessage)))
  {
  }

  /** A failure with no response body and an ordinary string message
      resolves with that message, or with 'An unexpected error occurred'
      when it is empty: the 'Login failed' / 'Signup failed' fallback is not
      reached on this path. */
  lemma OrdinaryErrorMessage(error: JsValue, fallback: string)
    requires fallback != "" && !IsNullish(error) && !error.Str?
    requires Get(error, "code") != Str("NETWORK_ERROR")
    requires Get(error, "message").Str? && !Contains(Get(error, "message").s, "Network Error")
    requires !Truthy(ResponseData(error))
    ensures CatchAuthError(error, fallback)
         == Resolved(AuthResult(false, Or(Get(error, "message"), Str("An unexpected error occurred"))))
  {
    ExtractPrecedence(error);
  }

  /** The message of the TypeError that `const { access_token } =
      response.data` throws when the body is null or undefined. */
  function DestructureMessage(data: JsValue): string
    requires IsNullish(data)
  {
    "Cannot destructure property 'access_token' of 'response.data' as it is "
    + (if data.Null? then "null." else "undefined.")
  }

  /** How `login` settles for a reply to the credentials post and a reply
      to `/api/users/me`: it succeeds exactly when both are fulfilled and the
      first carries a body; every failure goes through the shared catch
      with the 'Login failed' fallback. */
  function LoginOutcome(reply: Settled, me: Settled): (r: AuthOutcome)
    ensures r.Resolved? && r.result.success <==>
      reply.Fulfilled? && !IsNullish(reply.value) && me.Fulfilled?
    ensures r.Resolved? && r.result.success ==> r.result.error == Undefined
    ensures reply.Rejected? ==> r == CatchAuthError(reply.reason, "Login failed")
    ensures reply.Fulfilled? && IsNullish(reply.value) ==>
      r == CatchAuthError(TypeError(DestructureMessage(reply.value)), "Login failed")
    ensures reply.Fulfilled? && !IsNullish(reply.value) && me.Rejected? ==>
      r == CatchAuthError(me.reason, "Login failed")
  {
    match reply
    case Rejected(e) => CatchAuthError(e, "Login failed")
    case Fulfilled(data) =>
      if IsNullish(data) then CatchAuthError(TypeError(DestructureMessage(data)), "Login failed")
      else match me
        case Rejected(e) => CatchAuthError(e, "Login failed")
        case Fulfilled(_) => Resolved(AuthResult(true, Undefined))
  }

  /** How `signup` settles once its own post succeeded: as the awaited
      `login` resolves, or, when that login rejects, through its own catch
      with the 'Signup failed' fallback. */
  function AfterLogin(inner: AuthOutcome): (r: AuthOutcome)
    ensures inner.Resolved? ==> r == inner
    ensures inner.Failed? ==> r == CatchAuthError(inner.reason, "Signup failed")
  {
    match inner
    case Resolved(_) => inner
    case Failed(x) => CatchAuthError(x, "Signup failed")
  }

  /** The session: the `token` slot of local storage and the `user` state. */
  class AuthSession {
    var token: Option<string>
    var user: JsValue
    var loading: bool
    var requests: seq<Request>

    /** The provider mounts with whatever token local storage holds. */
    constructor (stored: Option<string>)
      ensures token == stored && user == Null && loading && requests == []
    {
      token := stored;
      user := Null;
      loading := true;
      requests := [];
    }

    /** `isAuthenticated: !!user`. */
    predicate IsAuthenticated()
      reads this
    {
      Truthy(user)
    }

    /** The mount effect: a stored (non-empty) token is checked against
        `/api/users/me`; a valid one sets the user, an invalid one is
        removed. Loading ends either way. */
    method CheckStoredToken(me: Settled)
      modifies this
      ensures !loading
      ensures old(token).Some? && old(token).value != "" ==>
        && requests == old(requests) + [GetMe(old(token).value)]
        && (me.Fulfilled? ==> user == me.value && token == old(token))
        && (me.Rejected? ==> user == old(user) && token == None)
      ensures !(old(token).Some? && old(token).value != "") ==>
        requests == old(requests) && user == old(user) && token == old(token)
    {
      if token.Some? && token.value != "" {
        requests := requests + [GetMe(token.value)];
        match me
        case Fulfilled(data) => user := data;
        case Rejected(_) => token := None;
      }
      loading := false;
    }

    /** `login(email, password)`: post the credentials, store the token,
        fetch the user. The token is stored before `/api/users/me` is asked,
        so a failure there leaves it stored while the user stays unset. */
    method Login(email: string, password: string, reply: Settled, me: Settled)
      returns (outcome: AuthOutcome)
      modifies this
      ensures loading == old(loading)
      ensures |requests| >= |old(requests)| + 1 && requests[..|old(requests)|] == old(requests)
      ensures requests[|old(requests)|] == PostLogin(email, password)
      ensures outcome.Resolved? && outcome.result.success <==>
        reply.Fulfilled? && !IsNullish(reply.value) && me.Fulfilled?
      ensures outcome.Resolved? && outcome.result.success ==>
        outcome.result.error == Undefined && user == me.value
      ensures reply.Fulfilled? && !IsNullish(reply.value) ==>
        && token == Some(ToStr(Get(reply.value, "access_token")))
        && requests == old(requests) + [PostLogin(email, password), GetMe(ToStr(Get(reply.value, "access_token")))]
      ensures reply.Rejected? ==>
        token == old(token) && requests == old(requests) + [PostLogin(email, password)]
        && outcome == CatchAuthError(reply.reason, "Login failed")
      ensures reply.Fulfilled? && IsNullish(reply.value) ==>
        token == old(token) && requests == old(requests) + [PostLogin(email, password)]
        && outcome == CatchAuthError(TypeError(DestructureMessage(reply.value)), "Login failed")
      ensures reply.Fulfilled? && !IsNullish(reply.value) && me.Rejected? ==>
        outcome == CatchAuthError(me.reason, "Login failed")
      ensures !(outcome.Resolved? && outcome.result.success) ==> user == old(user)
      ensures outcome == LoginOutcome(reply, me)
    {
      requests := requests + [PostLogin(email, password)];
      match reply
      case Rejected(e) =>
        outcome := CatchAuthError(e, "Login failed");
      case Fulfilled(data) =>
        if IsNullish(data) {
          var e := TypeError(DestructureMessage(data));
          outcome := CatchAuthError(e, "Login failed");
        } else {
          var t := ToStr(Get(data, "access_token"));
          token := Some(t);
          requests := requests + [GetMe(t)];
          match me
          case Rejected(e) =>
            outcome := CatchAuthError(e, "Login failed");
          case Fulfilled(u) =>
            user := u;
            outcome := Resolved(AuthResult(true, Undefined));
        }
    }

    /** `signup(email, password, full_name)`: post the account, then log in
        with the same email and password and settle as that login does; a
        failed post, or a login that throws, is classified with the
        'Signup failed' fallback. */
    method Signup(email: string, password: string, fullName: string,
                  reply: Settled, loginReply: Settled, me: Settled)
      returns (outcome: AuthOutcome)
      modifies this
      ensures loading == old(loading)
      ensures |requests| >= |old(requests)| + 1 && requests[..|old(requests)|] == old(requests)
      ensures requests[|old(requests)|] == PostSignup(email, password, fullName)
      ensures reply.Rejected? ==>
        requests == old(requests) + [PostSignup(email, password, fullName)]
        && token == old(token) && user == old(user)
        && outcome == CatchAuthError(reply.reason, "Signup failed")
      ensures reply.Fulfilled? ==>
        |requests| >= |old(requests)| + 2 && requests[|old(requests)| + 1] == PostLogin(email, password)
      ensures outcome.Resolved? && outcome.result.success <==>
        reply.Fulfilled? && loginReply.Fulfilled? && !IsNullish(loginReply.value) && me.Fulfilled?
      ensures outcome.Resolved? && outcome.result.success ==> user == me.value
      ensures !(outcome.Resolved? && outcome.result.success) ==> user == old(user)
      ensures reply.Fulfilled? && loginReply.Fulfilled? && !IsNullish(loginReply.value) ==>
        && token == Some(ToStr(Get(loginReply.value, "access_token")))
        && requests == old(requests) + [PostSignup(email, password, fullName), PostLogin(email, password),
                                        GetMe(ToStr(Get(loginReply.value, "access_token")))]
      ensures reply.Fulfilled? && !(loginReply.Fulfilled? && !IsNullish(loginReply.value)) ==>
        && token == old(token)
        && requests == old(requests) + [PostSignup(email, password, fullName), PostLogin(email, password)]
      ensures reply.Fulfilled? ==> outcome == AfterLogin(LoginOutcome(loginReply, me))
    {
      requests := requests + [PostSignup(email, password, fullName)];
      match reply
      case Rejected(e) =>
        outcome := CatchAuthError(e, "Signup failed");
      case Fulfilled(_) =>
        var r := Login(email, password, loginReply, me);
        outcome := AfterLogin(r);
    }

    /** `logout()`: the token is removed and the user cleared. */
    method Logout()
      modifies this
      ensures token == None && user == Null && !IsAuthenticated()
      ensures requests == old(requests) && loading == old(loading)
    {
      token := None;
      user := Null;
    }
  }
}
