/** The application instance: the per-frame login state machine
    Login -> LoggedIn -> Running (and Test -> Running), login status
    tracking, the login entry point, the login-progress handler and the
    land-patch handler that marks the current region's terrain modified. */
module Session {
  import Wrappers
  import L = Login
  import Credentials
  import Scheduler
  import Terrain

  datatype State = Login | LoggedIn | Running | Test

  /** The state after one frame, given the status the frame has just
      recorded. */
  function NextState(s: State, status: Credentials.Status): (r: State)
    ensures s == Login ==> (r == LoggedIn <==> status == Credentials.Success)
    ensures s == Login ==> r in {Login, LoggedIn}
    ensures s != Login ==> r == Running
  {
    match s
    case Login => if status == Credentials.Success then LoggedIn else Login
    case LoggedIn => Running
    case Running => Running
    case Test => Running
  }

  /** The states over a run of frames, one recorded status per frame. */
  function RunStates(s: State, statuses: seq<Credentials.Status>): State
    decreases |statuses|
  {
    if statuses == [] then s else RunStates(NextState(s, statuses[0]), statuses[1..])
  }

  /** Once the login state is left it is never entered again, and after any
      frame outside it the instance is Running for good. */
  lemma {:induction false} LoginNeverReentered(s: State, statuses: seq<Credentials.Status>)
    requires s != Login
    ensures RunStates(s, statuses) != Login
    ensures statuses != [] ==> RunStates(s, statuses) == Running
    decreases |statuses|
  {
    if statuses != [] {
      LoginNeverReentered(NextState(s, statuses[0]), statuses[1..]);
    }
  }

  /** From the login state, a Success followed by at least one more frame
      ends Running; without any Success the instance stays at Login. */
  lemma {:induction false} SuccessLeadsToRunning(statuses: seq<Credentials.Status>, k: nat)
    requires k + 1 < |statuses| && statuses[k] == Credentials.Success
    ensures RunStates(Login, statuses) == Running
    decreases k
  {
    if statuses[0] == Credentials.Success {
      LoginNeverReentered(LoggedIn, statuses[1..]);
    } else {
      SuccessLeadsToRunning(statuses[1..], k - 1);
    }
  }

  lemma {:induction false} NoSuccessStaysAtLogin(statuses: seq<Credentials.Status>)
    requires forall k :: 0 <= k < |statuses| ==> statuses[k] != Credentials.Success
    ensures RunStates(Login, statuses) == Login
    decreases |statuses|
  {
    if statuses != [] {
      NoSuccessStaysAtLogin(statuses[1..]);
    }
  }

  const InitialStatus: Credentials.LoginProgress := Credentials.LoginProgress(Credentials.None, "", "")

  /** A region component: its simulator and its terrain, which `Start`
      creates on a later frame than the component itself. */
  class Region {
    var sim: Terrain.Simulator
    /** Null until `Start` has run. */
    var terrain: Terrain.RegionTerrain?

    constructor (sim: Terrain.Simulator)
      ensures this.sim == sim && terrain == null
    {
      this.sim := sim;
      terrain := null;
    }

    /** `Start`: builds the region's terrain for its simulator. */
    method Start()
      modifies this
      ensures terrain != null && fresh(terrain) && terrain.Valid() && terrain.sim == sim
      ensures terrain.CurrentFlags() == Terrain.InitialFlags && !terrain.hasTerrainImage
      ensures sim == old(sim)
    {
      terrain := new Terrain.RegionTerrain(sim);
    }
  }

  class Instance {
    /** The last progress report received. */
    var loginStatus: Credentials.LoginProgress
    /** The status the state machine last recorded. */
    var lastLoginStatus: Credentials.Status
    var currentState: State
    /** Whether the login screen component exists. */
    var loginScreen: bool
    /** The current region, or null before the first sim change. */
    var currentSim: Region?
    /** The client's MULTIPLE_SIMS setting. */
    var multipleSims: bool

    /** Field initialisers and `Start`: no status, the Login state, a
        single simulator. */
    constructor ()
      ensures loginStatus == InitialStatus && lastLoginStatus == Credentials.None
      ensures currentState == Login && !loginScreen && currentSim == null && !multipleSims
    {
      loginStatus := InitialStatus;
      lastLoginStatus := Credentials.None;
      currentState := Login;
      loginScreen := false;
      currentSim := null;
      multipleSims := false;
    }

    /** One frame. At Login: show the login screen if absent, record a
        changed status (returning whether it logged the change) and move to
        LoggedIn on Success. LoggedIn: destroy the login screen, go Running.
        Test: post the sim-changed handler, go Running. Running: camera and
        movement input only. */
    method Update(loom: Scheduler.Loom, simChanged: Scheduler.Action) returns (statusLogged: bool)
      modifies this, loom
      ensures old(currentState) == Login ==>
                lastLoginStatus == loginStatus.status && loginScreen
                && (statusLogged <==> old(lastLoginStatus) != loginStatus.status)
      ensures old(currentState) != Login ==> lastLoginStatus == old(lastLoginStatus) && !statusLogged
      ensures currentState == NextState(old(currentState), lastLoginStatus)
      ensures old(currentState) == LoggedIn ==> !loginScreen
      ensures old(currentState) in {Running, Test} ==> loginScreen == old(loginScreen)
      ensures old(currentState) == Test ==> loom.actions == old(loom.actions) + [simChanged]
      ensures old(currentState) != Test ==> loom.actions == old(loom.actions)
      ensures loom.delayed == old(loom.delayed)
      ensures loom.currentActions == old(loom.currentActions) && loom.currentDelayed == old(loom.currentDelayed)
      ensures loginStatus == old(loginStatus) && currentSim == old(currentSim) && multipleSims == old(multipleSims)
    {
      statusLogged := false;
      match currentState
      case Login =>
        if !loginScreen {
          loginScreen := true;
        }
        if lastLoginStatus != loginStatus.status {
          lastLoginStatus := loginStatus.status;
          statusLogged := true;
        }
        if lastLoginStatus == Credentials.Success {
          currentState := LoggedIn;
        }
      case LoggedIn =>
        loginScreen := false;
        currentState := Running;
      case Running =>
      case Test =>
        loom.QueueOnMainThread(simChanged);
        currentState := Running;
    }

    /** The network's login-progress event replaces the status. */
    method LoginProgress(e: Credentials.LoginProgress)
      modifies this
      ensures loginStatus == e
      ensures lastLoginStatus == old(lastLoginStatus) && currentState == old(currentState)
      ensures currentSim == old(currentSim) && loginScreen == old(loginScreen) && multipleSims == old(multipleSims)
    {
      loginStatus := e;
    }

    /** BeginLogin: builds the options and either records the blank-field
        failure or returns the login request it hands to the network. */
    method BeginLogin(username: string, password: string, grid: L.Grid,
                      startUri: (string, int, int, int) -> string)
      returns (request: Wrappers.Option<Credentials.LoginParams>)
      modifies this
      ensures var a := Credentials.BeginLogin(username, password, grid, startUri);
              loginStatus == a.status && request == a.request
              && multipleSims == (old(multipleSims) || a.setsMultipleSims)
      ensures lastLoginStatus == old(lastLoginStatus) && currentState == old(currentState)
      ensures currentSim == old(currentSim) && loginScreen == old(loginScreen)
    {
      // The "Logging in..." report set first is replaced by the attempt's
      // own status, which is that same report when a request is issued.
      var attempt := Credentials.BeginLogin(username, password, grid, startUri);
      multipleSims := multipleSims || attempt.setsMultipleSims;
      loginStatus := attempt.status;
      request := attempt.request;
    }

    /** The land-patch event posts `markModified` to the main thread. */
    method TerrainLandPatchReceived(loom: Scheduler.Loom, markModified: Scheduler.Action)
      modifies loom
      ensures loom.actions == old(loom.actions) + [markModified] && loom.delayed == old(loom.delayed)
    {
      loom.QueueOnMainThread(markModified);
    }

    /** The action posted on a sim change: a fresh region for the new
        simulator becomes current. Its terrain does not exist yet. */
    method SimChangedAction(sim: Terrain.Simulator)
      modifies this
      ensures currentSim != null && fresh(currentSim)
      ensures currentSim.sim == sim && currentSim.terrain == null
      ensures loginStatus == old(loginStatus) && lastLoginStatus == old(lastLoginStatus)
      ensures currentState == old(currentState) && loginScreen == old(loginScreen) && multipleSims == old(multipleSims)
    {
      currentSim := new Region(sim);
    }

    /** The action the land-patch event posts, as written: it returns when
        there is no current region and otherwise marks the region's terrain
        modified. It throws (a null dereference) when the current region's
        terrain has not been created yet. */
    method LandPatchAction() returns (threw: bool)
      modifies if currentSim != null && currentSim.terrain != null then {currentSim.terrain} else {}
      ensures threw <==> currentSim != null && currentSim.terrain == null
      ensures !threw && currentSim != null ==> currentSim.terrain.modified
      ensures currentSim != null && currentSim.terrain != null ==> UnchangedExceptModified(currentSim.terrain)
    {
      if currentSim == null {
        return false;
      }
      if currentSim.terrain == null {
        return true;
      }
      currentSim.terrain.modified := true;
      threw := false;
    }

    /** A sim change followed, in the same drain, by a land-patch action: the
        region's `Start` has not run, so the action throws. */
    method SimChangeThenLandPatch(sim: Terrain.Simulator) returns (threw: bool)
      modifies this
      ensures threw
    {
      SimChangedAction(sim);
      threw := LandPatchAction();
    }

    /** The land-patch action with the null check extended to the terrain:
        it never throws, marks an existing terrain modified and otherwise
        changes nothing. */
    method LandPatchActionGuarded()
      modifies if currentSim != null && currentSim.terrain != null then {currentSim.terrain} else {}
      ensures currentSim != null && currentSim.terrain != null ==>
                currentSim.terrain.modified && UnchangedExceptModified(currentSim.terrain)
    {
      if currentSim == null || currentSim.terrain == null {
        return;
      }
      currentSim.terrain.modified := true;
    }

    /** After a sim change and the new region's `Start`, the guarded action
        marks that region's terrain modified. */
    method SimChangeStartThenLandPatch(sim: Terrain.Simulator)
      modifies this
      ensures currentSim != null && currentSim.terrain != null && currentSim.terrain.modified
      ensures currentSim.sim == sim && currentSim.terrain.sim == sim
    {
      SimChangedAction(sim);
      currentSim.Start();
      LandPatchActionGuarded();
    }
  }

  /** Every terrain field except `modified` is as before. */
  twostate predicate UnchangedExceptModified(t: Terrain.RegionTerrain)
    reads t
  {
    && t.terrainInProgress == old(t.terrainInProgress)
    && t.terrainTimeSinceUpdate == old(t.terrainTimeSinceUpdate)
    && t.fetchingTerrainTexture == old(t.fetchingTerrainTexture)
    && t.terrainTextureNeedsUpdate == old(t.terrainTextureNeedsUpdate)
    && t.hasTerrainImage == old(t.hasTerrainImage)
    && t.sim == old(t.sim)
  }
}
