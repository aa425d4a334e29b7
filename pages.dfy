/** What the page models share: where a page navigates to, and the calls a
    page makes into the auth context (whose results are parameters of the
    page's resolve step). */
module Pages {
  import opened JsValues

  /** `navigate(path, { state })`; `state` is `undefined` when none is passed. */
  datatype Navigation = Navigation(path: string, state: JsValue)

  /** `login(email, password)`. */
  datatype LoginCall = LoginCall(email: JsValue, password: string)

  /** `signup(email, password, full_name)`. */
  datatype SignupCall = SignupCall(email: string, password: string, fullName: string)

  /** The form fields of the signup pages. */
  const SignupFields: set<string> := {"full_name", "email", "password", "confirmPassword"}

  /** An empty signup form. */
  const EmptySignupForm: map<string, string> :=
    map["full_name" := "", "email" := "", "password" := "", "confirmPassword" := ""]
}
