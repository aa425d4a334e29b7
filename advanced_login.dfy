/** The advanced login page (locust-dashboard/src/pages/AdvancedLogin.js):
    the login page's submit handler plus an effect that pre-fills the email
    from the route state the signup page hands over. */
module AdvancedLogin {
  import opened JsValues
  import opened Optional
  import opened Pages
  import opened AuthContext
  import Login
  import AdvancedSignup

  class Page {
    /** The email field; the route state may hand over any value. */
    var email: JsValue
    var password: string
    var error: string
    var isLoading: bool
    var inFlight: Option<LoginCall>
    var navigatedTo: Option<Navigation>

    ghost predicate Valid()
      reads this
    {
      isLoading <==> inFlight.Some?
    }

    constructor ()
      ensures Valid()
      ensures email == Str("") && password == "" && error == "" && !isLoading
      ensures inFlight == None && navigatedTo == None
    {
      email := Str("");
      password := "";
      error := "";
      isLoading := false;
      inFlight := None;
      navigatedTo := None;
    }

    /** The route-state effect: a truthy `state.email` replaces the email
        field; without one the field is left alone. */
    method ApplyRouteState(state: JsValue)
      modifies this
      ensures Truthy(OptGet(state, "email")) ==> email == OptGet(state, "email")
      ensures !Truthy(OptGet(state, "email")) ==> email == old(email)
      ensures password == old(password) && error == old(error) && isLoading == old(isLoading)
      ensures inFlight == old(inFlight) && navigatedTo == old(navigatedTo)
    {
      if Truthy(OptGet(state, "email")) {
        email := OptGet(state, "email");
      }
    }

    method SetEmail(value: string)
      modifies this
      ensures email == Str(value)
      ensures password == old(password) && error == old(error) && isLoading == old(isLoading)
      ensures inFlight == old(inFlight) && navigatedTo == old(navigatedTo)
    {
      email := Str(value);
    }

    method SetPassword(value: string)
      modifies this
      ensures password == value
      ensures email == old(email) && error == old(error) && isLoading == old(isLoading)
      ensures inFlight == old(inFlight) && navigatedTo == old(navigatedTo)
    {
      password := value;
    }

    /** `handleSubmit` up to the `await`. */
    method Submit()
      requires Valid() && !isLoading
      modifies this
      ensures Valid()
      ensures isLoading && error == "" && inFlight == Some(LoginCall(email, password))
      ensures email == old(email) && password == old(password) && navigatedTo == old(navigatedTo)
    {
      isLoading := true;
      error := "";
      inFlight := Some(LoginCall(email, password));
    }

    /** `handleSubmit` after `login` settles, as on the login page. */
    method Resolve(outcome: AuthOutcome)
      requires Valid() && inFlight.Some?
      modifies this
      ensures Valid() && !isLoading && inFlight == None
      ensures outcome.Resolved? && outcome.result.success ==>
        navigatedTo == Some(Navigation("/dashboard", Undefined)) && error == old(error)
      ensures !(outcome.Resolved? && outcome.result.success) ==>
        error == Login.FailureMessage(outcome) && navigatedTo == old(navigatedTo)
      ensures email == old(email) && password == old(password)
    {
      if outcome.Resolved? && outcome.result.success {
        navigatedTo := Some(Navigation("/dashboard", Undefined));
      } else {
        error := Login.FailureMessage(outcome);
      }
      isLoading := false;
      inFlight := None;
    }
  }

  /** The state the advanced signup page navigates with pre-fills exactly
      the email that signed up (when it is not empty). */
  lemma PrefillFromSignup(signedUp: string)
    requires signedUp != ""
    ensures Truthy(OptGet(AdvancedSignup.LoginState(signedUp), "email"))
    ensures OptGet(AdvancedSignup.LoginState(signedUp), "email") == Str(signedUp)
  {
  }
}
