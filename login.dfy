/** The login page (locust-dashboard/src/pages/Login.js): email and
    password fields and a submit handler that shows the context's error, or
    a default, when `login` does not succeed. `Submit` runs up to the
    `await`, `Resolve` runs when it settles. */
module Login {
  import opened JsValues
  import opened Optional
  import opened Pages
  import opened AuthContext

  const InvalidCredentials := "Invalid credentials. Please try again."

  /** The message shown after a login that did not succeed: the context's
      error when it is a string, else the default; a thrown error shows the
      default too. */
  function FailureMessage(outcome: AuthOutcome): (m: string)
    requires !(outcome.Resolved? && outcome.result.success)
    ensures outcome.Resolved? && outcome.result.error.Str? ==> m == outcome.result.error.s
    ensures !(outcome.Resolved? && outcome.result.error.Str?) ==> m == InvalidCredentials
  {
    match outcome
    case Resolved(result) => StringOr(result.error, InvalidCredentials)
    case Failed(_) => InvalidCredentials
  }

  /** Every failure the auth context reports for a network problem reaches
      the user as the fixed connection message. */
  lemma NetworkFailureShown(error: JsValue)
    requires IsNetworkError(error) == Normal(Bool(true))
    ensures !(CatchAuthError(error, "Login failed").Resolved? && CatchAuthError(error, "Login failed").result.success)
    ensures FailureMessage(CatchAuthError(error, "Login failed")) == NetworkMessage
  {
  }

  class Page {
    var email: string
    var password: string
    var error: string
    var isLoading: bool
    var inFlight: Option<LoginCall>
    var navigatedTo: Option<Navigation>

    ghost predicate Valid()
      reads this
    {
      isLoading <==> inFlight.Some?
    }

    constructor ()
      ensures Valid()
      ensures email == "" && password == "" && error == "" && !isLoading
      ensures inFlight == None && navigatedTo == None
    {
      email := "";
      password := "";
      error := "";
      isLoading := false;
      inFlight := None;
      navigatedTo := None;
    }

    method SetEmail(value: string)
      modifies this
      ensures email == value
      ensures password == old(password) && error == old(error) && isLoading == old(isLoading)
      ensures inFlight == old(inFlight) && navigatedTo == old(navigatedTo)
    {
      email := value;
    }

    method SetPassword(value: string)
      modifies this
      ensures password == value
      ensures email == old(email) && error == old(error) && isLoading == old(isLoading)
      ensures inFlight == old(inFlight) && navigatedTo == old(navigatedTo)
    {
      password := value;
    }

    /** `handleSubmit` up to the `await`: loading starts, the error is
        cleared and `login` is called with the fields. */
    method Submit()
      requires Valid() && !isLoading
      modifies this
      ensures Valid()
      ensures isLoading && error == "" && inFlight == Some(LoginCall(Str(email), password))
      ensures email == old(email) && password == old(password) && navigatedTo == old(navigatedTo)
    {
      isLoading := true;
      error := "";
      inFlight := Some(LoginCall(Str(email), password));
    }

    /** `handleSubmit` after `login` settles: success goes to the
        dashboard, anything else shows its message; loading ends on every
        path. */
    method Resolve(outcome: AuthOutcome)
      requires Valid() && inFlight.Some?
      modifies this
      ensures Valid() && !isLoading && inFlight == None
      ensures outcome.Resolved? && outcome.result.success ==>
        navigatedTo == Some(Navigation("/dashboard", Undefined)) && error == old(error)
      ensures !(outcome.Resolved? && outcome.result.success) ==>
        error == FailureMessage(outcome) && navigatedTo == old(navigatedTo)
      ensures email == old(email) && password == old(password)
    {
      if outcome.Resolved? && outcome.result.success {
        navigatedTo := Some(Navigation("/dashboard", Undefined));
      } else {
        error := FailureMessage(outcome);
      }
      isLoading := false;
      inFlight := None;
    }
  }
}
