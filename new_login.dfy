/** The newer login page (locust-dashboard/src/pages/NewLogin.js): the
    fields live in one `formData` record, and the submit handler goes to
    the dashboard whenever `login` returns, without looking at the result. */
module NewLogin {
  import opened JsValues
  import opened Optional
  import opened Pages
  import opened AuthContext

  const InvalidEmailOrPassword := "Invalid email or password"

  const LoginFields: set<string> := {"email", "password"}

  class Page {
    var formData: map<string, string>
    var error: string
    var isLoading: bool
    var inFlight: Option<LoginCall>
    var navigatedTo: Option<Navigation>

    ghost predicate Valid()
      reads this
    {
      LoginFields <= formData.Keys && (isLoading <==> inFlight.Some?)
    }

    constructor ()
      ensures Valid()
      ensures formData == map["email" := "", "password" := ""] && error == "" && !isLoading
      ensures inFlight == None && navigatedTo == None
    {
      formData := map["email" := "", "password" := ""];
      error := "";
      isLoading := false;
      inFlight := None;
      navigatedTo := None;
    }

    /** `handleChange`: only the field named by the event changes. */
    method HandleChange(name: string, value: string)
      requires Valid()
      modifies this
      ensures Valid()
      ensures formData == old(formData)[name := value]
      ensures forall k :: k in old(formData) && k != name ==> formData[k] == old(formData)[k]
      ensures error == old(error) && isLoading == old(isLoading)
      ensures inFlight == old(inFlight) && navigatedTo == old(navigatedTo)
    {
      formData := formData[name := value];
    }

    /** `handleSubmit` up to the `await`: the error is cleared and loading
        starts. */
    method Submit()
      requires Valid() && !isLoading
      modifies this
      ensures Valid()
      ensures isLoading && error == ""
      ensures inFlight == Some(LoginCall(Str(formData["email"]), formData["password"]))
      ensures formData == old(formData) && navigatedTo == old(navigatedTo)
    {
      error := "";
      isLoading := true;
      inFlight := Some(LoginCall(Str(formData["email"]), formData["password"]));
    }

    /** `handleSubmit` after `login` settles: a returned result, even an
        unsuccessful one, goes to the dashboard; only a thrown error shows
        the fixed message. Loading always ends. */
    method Resolve(outcome: AuthOutcome)
      requires Valid() && inFlight.Some?
      modifies this
      ensures Valid() && !isLoading && inFlight == None
      ensures outcome.Resolved? ==>
        navigatedTo == Some(Navigation("/dashboard", Undefined)) && error == old(error)
      ensures outcome.Failed? ==> error == InvalidEmailOrPassword && navigatedTo == old(navigatedTo)
      ensures formData == old(formData)
    {
      if outcome.Resolved? {
        navigatedTo := Some(Navigation("/dashboard", Undefined));
      } else {
        error := InvalidEmailOrPassword;
      }
      isLoading := false;
      inFlight := None;
    }
  }
}
