/** The advanced signup page (locust-dashboard/src/pages/AdvancedSignup.js):
    a four-field form, the terms checkbox, the ordered validation chain, the
    strength meter, and the hand-off to the login page after a successful
    signup. The submit handler is split at its `await`: `Submit` runs up to
    the call to `signup`, `Resolve` runs when it settles. */
module AdvancedSignup {
  import opened JsValues
  import opened Optional
  import opened SignupRules
  import opened Pages
  import opened AuthContext

  const Palette: seq<string> := ["#ccc", "#f44336", "#ff9800", "#2196f3", "#4caf50"]
  const CreatedMessage := "Account created successfully! Please login."
  const SignupFailed := "Signup failed. Please try again."

  /** The route state handed to the login page. `result.message` is never
      set by the auth context, so the default message is always used. */
  function LoginState(email: string): (st: JsValue)
    ensures st.Obj? && Get(st, "email") == Str(email) && Get(st, "message") == Str(CreatedMessage)
  {
    Obj(map["message" := Or(Undefined, Str(CreatedMessage)), "email" := Str(email)])
  }

  class Page {
    var formData: map<string, string>
    var agreedToTerms: bool
    var error: string
    var isLoading: bool
    /** The signup call awaiting its result, if any. */
    var inFlight: Option<SignupCall>
    var navigatedTo: Option<Navigation>

    /** Every field of the form is present, and the page is loading exactly
        while a call is in flight. */
    ghost predicate Valid()
      reads this
    {
      SignupFields <= formData.Keys && (isLoading <==> inFlight.Some?)
    }

    constructor ()
      ensures Valid()
      ensures formData == EmptySignupForm && !agreedToTerms && error == "" && !isLoading
      ensures inFlight == None && navigatedTo == None
    {
      formData := EmptySignupForm;
      agreedToTerms := false;
      error := "";
      isLoading := false;
      inFlight := None;
      navigatedTo := None;
    }

    /** The strength meter under the password field. */
    function Strength(): (s: SignupRules.Strength)
      reads this
      requires Valid()
      ensures s == PasswordStrength(formData["password"], Palette)
    {
      PasswordStrength(formData["password"], Palette)
    }

    /** `handleChange`: only the field named by the event changes. */
    method HandleChange(name: string, value: string)
      requires Valid()
      modifies this
      ensures Valid()
      ensures formData == old(formData)[name := value]
      ensures forall k :: k in old(formData) && k != name ==> formData[k] == old(formData)[k]
      ensures agreedToTerms == old(agreedToTerms) && error == old(error) && isLoading == old(isLoading)
      ensures inFlight == old(inFlight) && navigatedTo == old(navigatedTo)
    {
      formData := formData[name := value];
    }

    method SetAgreed(agreed: bool)
      modifies this
      ensures agreedToTerms == agreed
      ensures formData == old(formData) && error == old(error) && isLoading == old(isLoading)
      ensures inFlight == old(inFlight) && navigatedTo == old(navigatedTo)
    {
      agreedToTerms := agreed;
    }

    /** `handleSubmit` up to the `await`: the first failing check is shown
        and loading ends at once; a form that passes every check calls
        `signup` with its email, password and full name. The submit button
        is disabled while loading. */
    method Submit()
      requires Valid() && !isLoading
      modifies this
      ensures Valid()
      ensures var v := SignupValidation(old(formData["full_name"]), old(formData["email"]),
                                        old(formData["password"]), old(formData["confirmPassword"]),
                                        agreedToTerms);
        (v.Some? ==> error == v.value && !isLoading && inFlight == None)
        && (v.None? ==>
              error == "" && isLoading
              && inFlight == Some(SignupCall(formData["email"], formData["password"], formData["full_name"])))
      ensures formData == old(formData) && agreedToTerms == old(agreedToTerms)
      ensures navigatedTo == old(navigatedTo)
    {
      isLoading := true;
      error := "";
      var v := SignupValidation(formData["full_name"], formData["email"], formData["password"],
                                formData["confirmPassword"], agreedToTerms);
      if v.Some? {
        error := v.value;
        isLoading := false;
        return;
      }
      inFlight := Some(SignupCall(formData["email"], formData["password"], formData["full_name"]));
    }

    /** `handleSubmit` after `signup` settles: success goes to the login
        page carrying the submitted email; a failure shows its error when it
        is a string and the default otherwise; loading always ends. */
    method Resolve(outcome: AuthOutcome)
      requires Valid() && inFlight.Some?
      modifies this
      ensures Valid() && !isLoading && inFlight == None
      ensures outcome.Resolved? && outcome.result.success ==>
        navigatedTo == Some(Navigation("/login", LoginState(old(inFlight).value.email)))
        && error == old(error)
      ensures outcome.Resolved? && !outcome.result.success ==>
        error == StringOr(outcome.result.error, SignupFailed) && navigatedTo == old(navigatedTo)
      ensures outcome.Failed? ==> error == SignupFailed && navigatedTo == old(navigatedTo)
      ensures formData == old(formData) && agreedToTerms == old(agreedToTerms)
    {
      match outcome {
        case Resolved(result) =>
          if result.success {
            navigatedTo := Some(Navigation("/login", LoginState(inFlight.value.email)));
          } else {
            error := StringOr(result.error, SignupFailed);
          }
        case Failed(_) =>
          error := SignupFailed;
      }
      isLoading := false;
      inFlight := None;
    }
  }
}
