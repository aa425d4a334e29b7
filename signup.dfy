/** The signup page (locust-dashboard/src/pages/Signup.js): the same form
    and validation chain as the advanced page, but a successful signup goes
    straight to the dashboard. `Submit` runs up to the `await` of `signup`,
    `Resolve` runs when it settles. */
module Signup {
  import opened JsValues
  import opened Optional
  import opened SignupRules
  import opened Pages
  import opened AuthContext

  const SignupFailed := "Signup failed. Please try again."
  const GenericError := "An error occurred. Please try again."

  /** The alert text: the error when it is a string, a generic text
      otherwise. */
  function DisplayedError(error: JsValue): (t: string)
    ensures error.Str? ==> t == error.s
    ensures !error.Str? ==> t == GenericError
  {
    StringOr(error, GenericError)
  }

  /** Every error the page stores is a string, so the alert shows it as
      it is and the generic text never appears. */
  lemma ShownAsStored(error: string)
    ensures DisplayedError(Str(error)) == error
  {
  }

  class Page {
    var formData: map<string, string>
    var agreedToTerms: bool
    var error: string
    var isLoading: bool
    var inFlight: Option<SignupCall>
    var navigatedTo: Option<Navigation>

    ghost predicate Valid()
      reads this
    {
      SignupFields <= formData.Keys && (isLoading <==> inFlight.Some?)
    }

    constructor ()
      ensures Valid()
      ensures formData == EmptySignupForm && !agreedToTerms && error == "" && !isLoading
      ensures inFlight == None && navigatedTo == None
    {
      formData := EmptySignupForm;
      agreedToTerms := false;
      error := "";
      isLoading := false;
      inFlight := None;
      navigatedTo := None;
    }

    /** `handleChange`: only the field named by the event changes. */
    method HandleChange(name: string, value: string)
      requires Valid()
      modifies this
      ensures Valid()
      ensures formData == old(formData)[name := value]
      ensures forall k :: k in old(formData) && k != name ==> formData[k] == old(formData)[k]
      ensures agreedToTerms == old(agreedToTerms) && error == old(error) && isLoading == old(isLoading)
      ensures inFlight == old(inFlight) && navigatedTo == old(navigatedTo)
    {
      formData := formData[name := value];
    }

    method SetAgreed(agreed: bool)
      modifies this
      ensures agreedToTerms == agreed
      ensures formData == old(formData) && error == old(error) && isLoading == old(isLoading)
      ensures inFlight == old(inFlight) && navigatedTo == old(navigatedTo)
    {
      agreedToTerms := agreed;
    }

    /** `handleSubmit` up to the `await`: each failing check sets its
        message and resets loading before returning; a form that passes
        every check calls `signup`. */
    method Submit()
      requires Valid() && !isLoading
      modifies this
      ensures Valid()
      ensures var v := SignupValidation(formData["full_name"], formData["email"],
                                        formData["password"], formData["confirmPassword"],
                                        agreedToTerms);
        (v.Some? ==> error == v.value && !isLoading && inFlight == None)
        && (v.None? ==>
              error == "" && isLoading
              && inFlight == Some(SignupCall(formData["email"], formData["password"], formData["full_name"])))
      ensures formData == old(formData) && agreedToTerms == old(agreedToTerms)
      ensures navigatedTo == old(navigatedTo)
    {
      isLoading := true;
      error := "";
      var v := SignupValidation(formData["full_name"], formData["email"], formData["password"],
                                formData["confirmPassword"], agreedToTerms);
      if v.Some? {
        error := v.value;
        isLoading := false;
        return;
      }
      inFlight := Some(SignupCall(formData["email"], formData["password"], formData["full_name"]));
    }

    /** `handleSubmit` after `signup` settles: success goes to the
        dashboard; a failure shows its error when it is a string and the
        default otherwise; a thrown error shows the default; loading always
        ends. */
    method Resolve(outcome: AuthOutcome)
      requires Valid() && inFlight.Some?
      modifies this
      ensures Valid() && !isLoading && inFlight == None
      ensures outcome.Resolved? && outcome.result.success ==>
        navigatedTo == Some(Navigation("/dashboard", Undefined)) && error == old(error)
      ensures outcome.Resolved? && !outcome.result.success ==>
        error == StringOr(outcome.result.error, SignupFailed) && navigatedTo == old(navigatedTo)
      ensures outcome.Failed? ==> error == SignupFailed && navigatedTo == old(navigatedTo)
      ensures formData == old(formData) && agreedToTerms == old(agreedToTerms)
    {
      match outcome {
        case Resolved(result) =>
          if result.success {
            navigatedTo := Some(Navigation("/dashboard", Undefined));
          } else {
            error := StringOr(result.error, SignupFailed);
          }
        case Failed(_) =>
          error := SignupFailed;
      }
      isLoading := false;
      inFlight := None;
    }
  }
}
