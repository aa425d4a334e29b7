/** The newer signup page (locust-dashboard/src/pages/NewSignup.js): a
    shorter rule set (matching passwords, then the terms; no empty-field or
    length check), loading that starts only once the rules pass, and a
    dashboard redirect whenever `signup` returns, whatever it returned.
    `Submit` runs up to the `await`, `Resolve` runs when it settles. */
module NewSignup {
  import opened JsValues
  import opened Optional
  import opened SignupRules
  import opened Pages
  import opened AuthContext

  const Palette: seq<string> := ["#e5e7eb", "#ef4444", "#f59e0b", "#3b82f6", "#10b981"]
  const NoMatch := "Passwords do not match"
  const AgreeConditions := "Please agree to the terms and conditions"
  const CreateFailed := "Failed to create account. Please try again."

  /** The page's checks, in order. */
  function Validation(password: string, confirmPassword: string, agreed: bool): (r: Option<string>)
    ensures password != confirmPassword ==> r == Some(NoMatch)
    ensures password == confirmPassword && !agreed ==> r == Some(AgreeConditions)
    ensures r.None? <==> password == confirmPassword && agreed
  {
    var checks := [Check(password == confirmPassword, NoMatch), Check(agreed, AgreeConditions)];
    FirstFailureCons(checks[0], checks[1..]);
    FirstFailureCons(checks[1], []);
    assert checks == [checks[0]] + ([checks[1]] + []);
    FirstFailure(checks)
  }

  /** Unlike the other signup pages, an empty or short password that both
      fields agree on passes once the terms are accepted. */
  lemma AcceptsEmptyPassword()
    ensures Validation("", "", true) == None
    ensures SignupValidation("name", "a@b.c", "", "", true) == Some(FillAll)
  {
  }

  class Page {
    var formData: map<string, string>
    var agreedToTerms: bool
    var error: string
    var isLoading: bool
    var inFlight: Option<SignupCall>
    var navigatedTo: Option<Navigation>

    ghost predicate Valid()
      reads this
    {
      SignupFields <= formData.Keys && (isLoading <==> inFlight.Some?)
    }

    constructor ()
      ensures Valid()
      ensures formData == EmptySignupForm && !agreedToTerms && error == "" && !isLoading
      ensures inFlight == None && navigatedTo == None
    {
      formData := EmptySignupForm;
      agreedToTerms := false;
      error := "";
      isLoading := false;
      inFlight := None;
      navigatedTo := None;
    }

    /** The strength meter under the password field. */
    function Strength(): (s: SignupRules.Strength)
      reads this
      requires Valid()
      ensures s == PasswordStrength(formData["password"], Palette)
    {
      PasswordStrength(formData["password"], Palette)
    }

    /** `handleChange`: only the field named by the event changes. */
    method HandleChange(name: string, value: string)
      requires Valid()
      modifies this
      ensures Valid()
      ensures formData == old(formData)[name := value]
      ensures forall k :: k in old(formData) && k != name ==> formData[k] == old(formData)[k]
      ensures agreedToTerms == old(agreedToTerms) && error == old(error) && isLoading == old(isLoading)
      ensures inFlight == old(inFlight) && navigatedTo == old(navigatedTo)
    {
      formData := formData[name := value];
    }

    method SetAgreed(agreed: bool)
      modifies this
      ensures agreedToTerms == agreed
      ensures formData == old(formData) && error == old(error) && isLoading == old(isLoading)
      ensures inFlight == old(inFlight) && navigatedTo == old(navigatedTo)
    {
      agreedToTerms := agreed;
    }

    /** `handleSubmit` up to the `await`: the error is cleared first; a
        failing rule sets its message and returns without ever setting
        loading; otherwise loading starts and `signup` is called. */
    method Submit()
      requires Valid() && !isLoading
      modifies this
      ensures Valid()
      ensures var v := Validation(formData["password"], formData["confirmPassword"], agreedToTerms);
        (v.Some? ==> error == v.value && !isLoading && inFlight == None)
        && (v.None? ==>
              error == "" && isLoading
              && inFlight == Some(SignupCall(formData["email"], formData["password"], formData["full_name"])))
      ensures formData == old(formData) && agreedToTerms == old(agreedToTerms)
      ensures navigatedTo == old(navigatedTo)
    {
      error := "";
      var v := Validation(formData["password"], formData["confirmPassword"], agreedToTerms);
      if v.Some? {
        error := v.value;
        return;
      }
      isLoading := true;
      inFlight := Some(SignupCall(formData["email"], formData["password"], formData["full_name"]));
    }

    /** `handleSubmit` after `signup` settles: the result is not inspected,
        so any returned result, failed or not, goes to the dashboard; only
        a thrown error shows the failure text. Loading always ends. */
    method Resolve(outcome: AuthOutcome)
      requires Valid() && inFlight.Some?
      modifies this
      ensures Valid() && !isLoading && inFlight == None
      ensures outcome.Resolved? ==>
        navigatedTo == Some(Navigation("/dashboard", Undefined)) && error == old(error)
      ensures outcome.Failed? ==> error == CreateFailed && navigatedTo == old(navigatedTo)
      ensures formData == old(formData) && agreedToTerms == old(agreedToTerms)
    {
      if outcome.Resolved? {
        navigatedTo := Some(Navigation("/dashboard", Undefined));
      } else {
        error := CreateFailed;
      }
      isLoading := false;
      inFlight := None;
    }
  }
}
