/** The newer dashboard page (locust-dashboard/src/pages/NewDashboard.js):
    a run toggle and a logout with no confirmation step. The avatar letter
    and greeting are those of the UserDisplay module; the chip text is the
    one of the Dashboard module. */
module NewDashboard {
  import opened Optional
  import opened AuthContext

  class Page {
    var isRunning: bool
    var navigatedTo: Option<string>

    constructor ()
      ensures !isRunning && navigatedTo == None
    {
      isRunning := false;
      navigatedTo := None;
    }

    /** `handleStartTest`: the run flips; two clicks give back the state. */
    method HandleStartTest()
      modifies this
      ensures isRunning == !old(isRunning) && navigatedTo == old(navigatedTo)
    {
      isRunning := !isRunning;
    }

    /** `handleLogout`: the session is logged out at once and the page
        goes to /login. */
    method HandleLogout(auth: AuthSession)
      modifies this, auth
      ensures !auth.IsAuthenticated() && auth.token == None
      ensures auth.requests == old(auth.requests) && auth.loading == old(auth.loading)
      ensures navigatedTo == Some("/login") && isRunning == old(isRunning)
    {
      auth.Logout();
      navigatedTo := Some("/login");
    }
  }
}
