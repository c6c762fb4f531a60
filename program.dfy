/** The standalone program component: it tracks the login status each frame
    and starts a login with the same credential normalisation as the
    application instance. */
module Entry {
  import Wrappers
  import L = Login
  import Credentials
  import Session

  class Program {
    /** The last progress report received. */
    var loginStatus: Credentials.LoginProgress
    /** The status `Update` last recorded. */
    var lastLoginStatus: Credentials.Status
    /** The client's MULTIPLE_SIMS setting, false after `InitializeClient`. */
    var multipleSims: bool

    constructor ()
      ensures loginStatus == Session.InitialStatus && lastLoginStatus == Credentials.None
      ensures !multipleSims
    {
      loginStatus := Session.InitialStatus;
      lastLoginStatus := Credentials.None;
      multipleSims := false;
    }

    /** Records the status when it differs from the last one recorded, and
        says whether it logged a change. */
    method Update() returns (logged: bool)
      modifies this
      ensures lastLoginStatus == loginStatus.status
      ensures logged <==> old(lastLoginStatus) != loginStatus.status
      ensures loginStatus == old(loginStatus) && multipleSims == old(multipleSims)
    {
      logged := false;
      if lastLoginStatus != loginStatus.status {
        lastLoginStatus := loginStatus.status;
        logged := true;
      }
    }

    /** The network's login-progress event replaces the status. */
    method LoginProgress(e: Credentials.LoginProgress)
      modifies this
      ensures loginStatus == e
      ensures lastLoginStatus == old(lastLoginStatus) && multipleSims == old(multipleSims)
    {
      loginStatus := e;
    }

    /** Starts a login with the credentials typed on the login screen and
        the grid chosen from the grid list; the start location is always
        "last". */
    method BeginLogin(username: string, password: string, grid: L.Grid,
                      startUri: (string, int, int, int) -> string)
      returns (request: Wrappers.Option<Credentials.LoginParams>)
      modifies this
      ensures var a := Credentials.BeginLogin(username, password, grid, startUri);
              loginStatus == a.status && request == a.request
              && multipleSims == (old(multipleSims) || a.setsMultipleSims)
      ensures request.Some? ==> request.value.start == "last"
      ensures lastLoginStatus == old(lastLoginStatus)
    {
      // The "Logging in..." report set first is replaced by the attempt's
      // own status, which is that same report when a request is issued.
      var attempt := Credentials.BeginLogin(username, password, grid, startUri);
      multipleSims := multipleSims || attempt.setsMultipleSims;
      loginStatus := attempt.status;
      request := attempt.request;
    }
  }

  /** Two frames with no progress event between them: the second one logs
      nothing. */
  method UpdateTwice(prog: Program) returns (first: bool, second: bool)
    modifies prog
    ensures !second
    ensures prog.lastLoginStatus == prog.loginStatus.status
  {
    first := prog.Update();
    second := prog.Update();
  }
}
