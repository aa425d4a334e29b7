/** The main dashboard page (locust-dashboard/src/pages/Dashboard.js): a
    run toggle with a notice, a logout that asks for confirmation first,
    and the sidebar's short list of test suites. */
module Dashboard {
  import opened Text
  import opened Optional
  import opened AuthContext

  /** How many test suites the sidebar lists. */
  const SidebarCount := 2

  /** The suites the sidebar shows: `testSuites.slice(0, 2)`. */
  function SidebarSuites(names: seq<string>): (shown: seq<string>)
    ensures |shown| == if |names| < SidebarCount then |names| else SidebarCount
    ensures shown == names[..|shown|]
  {
    Prefix(names, SidebarCount)
  }

  /** A sidebar caption: the first 20 characters of the name and '...'. */
  function SuiteCaption(name: string): (caption: string)
    ensures 3 <= |caption| <= 23 && caption[|caption| - 3..] == "..."
    ensures |name| <= 20 ==> caption == name + "..."
    ensures |name| > 20 ==> caption == name[..20] + "..."
  {
    Prefix(name, 20) + "..."
  }

  /** The status chip's text. */
  function ChipLabel(isRunning: bool): (text: string)
    ensures text == "Test Running" <==> isRunning
    ensures text == "Ready" <==> !isRunning
  {
    if isRunning then "Test Running" else "Ready"
  }

  class Page {
    var isRunning: bool
    var logoutDialogOpen: bool
    var snackbarOpen: bool
    var snackbarMessage: string
    var navigatedTo: Option<string>

    constructor ()
      ensures !isRunning && !logoutDialogOpen && !snackbarOpen && snackbarMessage == ""
      ensures navigatedTo == None
    {
      isRunning := false;
      logoutDialogOpen := false;
      snackbarOpen := false;
      snackbarMessage := "";
      navigatedTo := None;
    }

    /** `handleLogout`: only the confirmation dialog opens. */
    method HandleLogout()
      modifies this
      ensures logoutDialogOpen
      ensures isRunning == old(isRunning) && snackbarOpen == old(snackbarOpen)
      ensures snackbarMessage == old(snackbarMessage) && navigatedTo == old(navigatedTo)
    {
      logoutDialogOpen := true;
    }

    /** `confirmLogout`: the session is logged out, the page goes to
        /login and the dialog closes. */
    method ConfirmLogout(auth: AuthSession)
      modifies this, auth
      ensures !auth.IsAuthenticated() && auth.token == None
      ensures auth.requests == old(auth.requests) && auth.loading == old(auth.loading)
      ensures navigatedTo == Some("/login") && !logoutDialogOpen
      ensures isRunning == old(isRunning) && snackbarOpen == old(snackbarOpen)
      ensures snackbarMessage == old(snackbarMessage)
    {
      auth.Logout();
      navigatedTo := Some("/login");
      logoutDialogOpen := false;
    }

    /** `cancelLogout`: the dialog closes and nothing else happens. */
    method CancelLogout()
      modifies this
      ensures !logoutDialogOpen
      ensures isRunning == old(isRunning) && snackbarOpen == old(snackbarOpen)
      ensures snackbarMessage == old(snackbarMessage) && navigatedTo == old(navigatedTo)
    {
      logoutDialogOpen := false;
    }

    /** `handleStartTest`: the run flips, and the notice reports what the
        click did, judged from the state before it. */
    method HandleStartTest()
      modifies this
      ensures isRunning == !old(isRunning) && snackbarOpen
      ensures snackbarMessage == if isRunning then "Load test started" else "Load test stopped"
      ensures logoutDialogOpen == old(logoutDialogOpen) && navigatedTo == old(navigatedTo)
    {
      snackbarMessage := if isRunning then "Load test stopped" else "Load test started";
      isRunning := !isRunning;
      snackbarOpen := true;
    }

    /** The notice closes (its close button or its three-second timer). */
    method CloseSnackbar()
      modifies this
      ensures !snackbarOpen
      ensures isRunning == old(isRunning) && snackbarMessage == old(snackbarMessage)
      ensures logoutDialogOpen == old(logoutDialogOpen) && navigatedTo == old(navigatedTo)
    {
      snackbarOpen := false;
    }
  }
}
