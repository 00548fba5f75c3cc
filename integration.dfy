/** How the parts fit together: the client's page role lists against the server's route role
    lists, the monitoring flags against the detection service's camera state, the session
    restore against the token check, and whole request sequences against the backend. */
module Integration {
  import opened Common
  import Server
  import Detection
  import App
  import Browser
  import LoginScreen
  import DashboardScreen
  import MonitoringScreen

  // ---------------------------------------------------------------------------------------
  // Role lists

  /** Each page's role list is the server's list for the endpoint the page calls: the
      violations and worker list pages load admin/manager data, the registration and edit
      pages write admin-only data (the edit page also reads a worker, which admin may). */
  lemma PageAndServerRoleListsAgree(role: string, id: string)
    ensures role in App.PageRoles(App.ViolationsPage) <==> Server.Admits(Server.ViolationList, role)
    ensures role in App.PageRoles(App.ViewWorkersPage) <==> Server.Admits(Server.WorkerList, role)
    ensures role in App.PageRoles(App.WorkerRegistrationPage) <==> Server.Admits(Server.WorkerRegistration, role)
    ensures role in App.PageRoles(App.EditWorkerPage(id)) <==> Server.Admits(Server.WorkerUpdate, role)
    ensures role in App.PageRoles(App.EditWorkerPage(id)) ==> Server.Admits(Server.WorkerDetail, role)
  {
    App.PageRolesByPage(role, id);
    Server.AllowListsByRoute(role);
  }

  // ---------------------------------------------------------------------------------------
  // Monitoring flags and the detection service

  /** The page's flag for each section is the service's status for it. */
  predicate Synced(view: MonitoringScreen.MonitoringView, service: Detection.DetectionService)
    reads view, service
  {
    forall section :: section in {Detection.Gate, Detection.Machine} ==>
      view.IsOn(section) == (section in service.cameraStatus && service.cameraStatus[section])
  }

  /** One press of a toggle button whose reply arrives before the next press: the page and the
      service stay in step whatever status the service answers with. */
  method ToggleFromPage(view: MonitoringScreen.MonitoringView, service: Detection.DetectionService,
                        cameraType: string, opens: bool)
    returns (action: string, reply: Detection.Reply)
    requires service.Valid() && Synced(view, service)
    requires cameraType == Detection.Gate || cameraType == Detection.Machine
    modifies view, service
    ensures service.Valid() && Synced(view, service)
    ensures action == (if old(view.IsOn(cameraType)) then "off" else "on")
  {
    action := view.ActionFor(cameraType);
    reply := service.ToggleCamera(cameraType, action, opens);
    var sent := view.ToggleCamera(cameraType, MonitoringScreen.Answered(reply.status == 200));
  }

  /** With the corrected reply handler, a press whose action may be stale (the flags changed
      since the click) still leaves the page and the service in step, as long as replies are
      applied in the order the service answered them. */
  method ToggleFromPageSettingAction(view: MonitoringScreen.MonitoringView, service: Detection.DetectionService,
                                     cameraType: string, action: string, opens: bool)
    returns (reply: Detection.Reply)
    requires service.Valid() && Synced(view, service)
    requires cameraType == Detection.Gate || cameraType == Detection.Machine
    modifies view, service
    ensures service.Valid() && Synced(view, service)
    ensures action == "off" ==> reply.status == 200 && !view.IsOn(cameraType)
    ensures view.activeSection == old(view.activeSection)
  {
    reply := service.ToggleCamera(cameraType, action, opens);
    view.ApplyReplySettingAction(cameraType, action, MonitoringScreen.Answered(reply.status == 200));
  }

  /** Sets up the scenarios below: the gate camera turned on from a fresh page and a fresh
      service, with the two in step and the gate tab shown. */
  method GateOnFromPage() returns (view: MonitoringScreen.MonitoringView, service: Detection.DetectionService)
    ensures fresh(view) && fresh(service)
    ensures service.Valid() && Synced(view, service)
    ensures view.IsOn(Detection.Gate) && view.activeSection == Detection.Gate
  {
    service := new Detection.DetectionService();
    view := new MonitoringScreen.MonitoringView();
    view.SelectSection(Detection.Gate);
    var r := service.ToggleCamera(Detection.Gate, view.ActionFor(Detection.Gate), true);
    var action := view.ToggleCamera(Detection.Gate, MonitoringScreen.Answered(r.status == 200));
  }

  /** A page mounted while the service holds a camera on: the page starts with both flags
      off (leaving it by the back button does not turn the camera off), so it is out of step
      with the service and shows no stream. */
  predicate StaleMount(view: MonitoringScreen.MonitoringView, service: Detection.DetectionService)
    reads view, service
  {
    && Detection.AnyOn(service.cameraStatus)
    && !view.IsOn(Detection.Gate) && !view.IsOn(Detection.Machine)
  }

  /** Any press on a page mounted over a camera left on: the page sends "on", the service
      refuses it with 409 because a section is already on, no flag changes, and so every later
      press meets the same state; the page can neither turn the camera off nor show it. */
  method PressOnStaleMount(view: MonitoringScreen.MonitoringView, service: Detection.DetectionService,
                           cameraType: string, opens: bool)
    returns (action: string, reply: Detection.Reply)
    requires service.Valid() && StaleMount(view, service)
    requires cameraType == Detection.Gate || cameraType == Detection.Machine
    modifies view, service
    ensures service.Valid() && StaleMount(view, service) && !Synced(view, service)
    ensures action == "on" && reply.status == 409
    ensures service.cameraStatus == old(service.cameraStatus)
    ensures view.VisibleStream().None?
  {
    action := view.ActionFor(cameraType);
    reply := service.ToggleCamera(cameraType, action, opens);
    var sent := view.ToggleCamera(cameraType, MonitoringScreen.Answered(reply.status == 200));
  }

  /** The gate turned on from one page, then the page left by the back button and mounted
      again: the new page is out of step with the service, and both its buttons get 409. */
  method RemountAsWritten() returns (view: MonitoringScreen.MonitoringView, service: Detection.DetectionService,
                                     gateReply: Detection.Reply, machineReply: Detection.Reply)
    ensures service.Valid() && service.cameraStatus[Detection.Gate] && !Synced(view, service)
    ensures gateReply.status == 409 && machineReply.status == 409
    ensures !view.IsOn(Detection.Gate) && !view.IsOn(Detection.Machine)
  {
    var first;
    first, service := GateOnFromPage();
    assert service.cameraStatus[Detection.Gate];
    view := new MonitoringScreen.MonitoringView();
    var action;
    action, gateReply := PressOnStaleMount(view, service, Detection.Gate, true);
    action, machineReply := PressOnStaleMount(view, service, Detection.Machine, true);
  }

  /** The off button pressed twice before the first reply, with the page as written: both
      presses send "off", the service answers "turned off" then "already off", both with 200,
      and each ok flips the flag, so the page ends showing the gate on and streaming a feed
      the service answers with 404. */
  method DoublePressAsWritten() returns (view: MonitoringScreen.MonitoringView, service: Detection.DetectionService)
    ensures !Synced(view, service)
    ensures service.Valid() && view.IsOn(Detection.Gate) && !service.cameraStatus[Detection.Gate]
    ensures view.VisibleStream() == Some(Detection.Gate) && service.VideoFeed(Detection.Gate).status == 404
  {
    view, service := GateOnFromPage();
    var first := view.ActionFor(Detection.Gate);
    var second := view.ActionFor(Detection.Gate);
    var r1 := service.ToggleCamera(Detection.Gate, first, true);
    var r2 := service.ToggleCamera(Detection.Gate, second, true);
    view.ApplyReply(Detection.Gate, MonitoringScreen.Answered(r1.status == 200));
    view.ApplyReply(Detection.Gate, MonitoringScreen.Answered(r2.status == 200));
    assert view.IsOn(Detection.Gate) && !service.cameraStatus[Detection.Gate];
  }

  /** The same double press with the corrected reply handler: the page ends with the gate off,
      in step with the service, and shows no stream. */
  method DoublePressSettingAction() returns (view: MonitoringScreen.MonitoringView, service: Detection.DetectionService)
    ensures service.Valid() && Synced(view, service)
    ensures !view.IsOn(Detection.Gate) && !service.cameraStatus[Detection.Gate]
    ensures view.VisibleStream().None?
  {
    view, service := GateOnFromPage();
    var first := view.ActionFor(Detection.Gate);
    var second := view.ActionFor(Detection.Gate);
    var r1 := ToggleFromPageSettingAction(view, service, Detection.Gate, first, true);
    var r2 := ToggleFromPageSettingAction(view, service, Detection.Gate, second, true);
  }

  // ---------------------------------------------------------------------------------------
  // Session restore against the token check

  /** The reply the client builds from the server's answer to `POST /validate-token`. */
  function ValidateReplyFor(r: Server.Response): App.ValidateReply
  {
    if r.status == 200 && r.body.TokenValid? then App.ValidOk(r.body.role) else App.ValidNotOk
  }

  /** Restoring a stored session signs in exactly when the stored token is signed and
      unexpired, with the role signed into it; otherwise the token is dropped. */
  method RestoreAgainstServer(shell: App.AppShell, wire: map<string, Server.Jwt>, now: int) returns (sent: bool)
    requires "token" in shell.storage.items ==> ' ' !in shell.storage.items["token"]
    modifies shell, shell.storage
    ensures sent == old(shell.HasToken())
    ensures sent ==> var t := old(shell.storage.items["token"]);
              && (shell.isAuthenticated <==> t in wire && wire[t].signedWithSecret && now < wire[t].expiresAt)
              && (shell.isAuthenticated ==> shell.userRole == wire[t].claims.role)
              && (!shell.isAuthenticated ==> shell.storage.items == old(shell.storage.items) - {"token"})
    ensures !sent ==> !shell.isAuthenticated
  {
    var reply := App.NetworkError;
    if shell.HasToken() {
      var t := shell.storage.items["token"];
      Server.BearerAuthenticates(t, wire, now);
      reply := ValidateReplyFor(Server.ValidateToken(Some("Bearer " + t), wire, now));
    }
    sent := shell.RestoreSession(reply);
  }

  // ---------------------------------------------------------------------------------------
  // The login state the guard sees

  /** With no role set, signing in leaves the router bouncing between "/" and "/dashboard":
      from any of the post-login paths no number of redirects ever reaches a page. */
  lemma {:induction false} NoRoleNeverRenders(path: string, fuel: nat)
    requires path in {"/", "/dashboard", "/admin-dashboard", "/manager-dashboard"}
    ensures App.Follow(path, true, "", fuel).Redirect?
    ensures App.Follow(path, true, "", fuel).to in {"/", "/dashboard"}
    decreases fuel
  {
    App.PageAccess(App.DashboardPage, true, "");
    var v := App.Resolve(path, true, "");
    if path != "/" && path != "/dashboard" {
      assert path[1] != 'e';
      assert App.MatchProtected(path).None?;
    }
    assert v.Redirect? && v.to in {"/", "/dashboard"};
    if fuel > 0 {
      NoRoleNeverRenders(v.to, fuel - 1);
    }
  }

  /** A first sign-in in a fresh tab, with the login form as written: the token and role are
      stored, yet whatever the role, following the post-login redirects never shows a page. */
  method FirstLoginAsWritten(role: string, token: string, fuel: nat) returns (view: App.View)
    ensures view.Redirect?
  {
    var storage := new Browser.LocalStorage(map[]);
    var shell := new App.AppShell(storage);
    var sent := shell.RestoreSession(App.NetworkError);
    var form := new LoginScreen.LoginForm();
    var endpoint, body, navigateTo := form.HandleSubmit(LoginScreen.Answered(true, token, role, ""), shell);
    assert shell.isAuthenticated && shell.userRole == "";
    NoRoleNeverRenders(navigateTo.value, fuel);
    view := App.Follow(navigateTo.value, shell.isAuthenticated, shell.userRole, fuel);
  }

  /** The same first sign-in with the role set as well: every known role lands on the dashboard. */
  method FirstLoginSettingRole(role: string, token: string) returns (view: App.View)
    requires role in {App.AdminRole, App.ManagerRole, App.WorkerRole}
    ensures view == App.Show(App.DashboardPage)
  {
    var storage := new Browser.LocalStorage(map[]);
    var shell := new App.AppShell(storage);
    var sent := shell.RestoreSession(App.NetworkError);
    var form := new LoginScreen.LoginForm();
    var endpoint, body, navigateTo := form.HandleSubmitSettingRole(LoginScreen.Answered(true, token, role, ""), shell);
    view := App.Follow(navigateTo.value, shell.isAuthenticated, shell.userRole, 2);
  }

  /** In one tab an admin's session is restored, the admin logs out and a worker signs in with
      the form as written: the guard still sees the admin role and shows the worker the
      admin-only registration page. */
  method ReloginAsWritten(adminToken: string, workerToken: string) returns (view: App.View)
    requires adminToken != ""
    ensures view == App.Show(App.WorkerRegistrationPage)
  {
    var storage := new Browser.LocalStorage(map["token" := adminToken]);
    var shell := new App.AppShell(storage);
    var sent := shell.RestoreSession(App.ValidOk(App.AdminRole));
    assert shell.userRole == App.AdminRole;
    var dashboard := new DashboardScreen.DashboardView();
    dashboard.HandleLogout(shell);
    var form := new LoginScreen.LoginForm();
    var endpoint, body, navigateTo := form.HandleSubmit(LoginScreen.Answered(true, workerToken, App.WorkerRole, ""), shell);
    assert shell.isAuthenticated && shell.userRole == App.AdminRole;
    App.PageAccess(App.WorkerRegistrationPage, true, App.AdminRole);
    view := App.Resolve("/worker-registration", shell.isAuthenticated, shell.userRole);
  }

  /** The same sequence with the role set on sign-in: the worker is sent back to "/". */
  method ReloginSettingRole(adminToken: string, workerToken: string) returns (view: App.View)
    requires adminToken != ""
    ensures view == App.Redirect("/")
  {
    var storage := new Browser.LocalStorage(map["token" := adminToken]);
    var shell := new App.AppShell(storage);
    var sent := shell.RestoreSession(App.ValidOk(App.AdminRole));
    var dashboard := new DashboardScreen.DashboardView();
    dashboard.HandleLogout(shell);
    var form := new LoginScreen.LoginForm();
    var endpoint, body, navigateTo := form.HandleSubmitSettingRole(LoginScreen.Answered(true, workerToken, App.WorkerRole, ""), shell);
    assert shell.isAuthenticated && shell.userRole == App.WorkerRole;
    App.PageAccess(App.WorkerRegistrationPage, true, App.WorkerRole);
    view := App.Resolve("/worker-registration", shell.isAuthenticated, shell.userRole);
  }

  // ---------------------------------------------------------------------------------------
  // Request sequences against the backend

  /** An admin registers a worker, reads it, edits it, reads it, deletes it twice over, then
      reads it again: 201, 200, 200, 200, 200, 404, 404, and the read after the edit returns
      the edited row. */
  method WorkerLifecycle(t: string, wire: map<string, Server.Jwt>, now: int, w: Server.Worker, edited: Server.Worker)
    returns (statuses: seq<int>, afterEdit: Server.Body)
    requires ' ' !in t && t != "" && t in wire && wire[t].signedWithSecret && now < wire[t].expiresAt
    requires wire[t].claims.role == Server.Admin
    ensures statuses == [201, 200, 200, 200, 200, 404, 404]
    ensures afterEdit.WorkerRow? && afterEdit.worker == edited
  {
    var header := Some("Bearer " + t);
    Server.BearerAuthenticates(t, wire, now);
    var db := new Server.Database();
    var id := db.nextWorkerId;
    var r1 := db.RegisterWorker(header, wire, now, w, false);
    var r2 := Server.GetWorker(db.workers, header, wire, now, id, false);
    assert r2 == Server.Response(200, Server.WorkerRow(id, w));
    var r3 := db.UpdateWorker(header, wire, now, id, edited, false);
    var read := Server.GetWorker(db.workers, header, wire, now, id, false);
    assert read == Server.Response(200, Server.WorkerRow(id, edited));
    afterEdit := read.body;
    var r4 := db.DeleteWorker(header, wire, now, id, false);
    var r5 := db.DeleteWorker(header, wire, now, id, false);
    var r6 := Server.GetWorker(db.workers, header, wire, now, id, false);
    statuses := [r1.status, r2.status, r3.status, read.status, r4.status, r5.status, r6.status];
  }

  /** A new account: registration 201, the same email again 409, sign-in 200 with the stored
      role; the worker token it issues is then refused the violation list with 403. */
  method WorkerAccount(email: string, password: string, now: int, t: string, wire: map<string, Server.Jwt>)
    returns (statuses: seq<int>, token: Server.Jwt)
    requires email != "" && password != ""
    ensures statuses == [201, 409, 200]
    ensures token.claims.role == Server.WorkerRole
    ensures ' ' !in t && t != "" && t in wire && wire[t] == token
            ==> Server.ListViolations([], Some("Bearer " + t), wire, now, false) == Server.AccessDenied
  {
    var db := new Server.Database();
    var r1 := db.Register(email, password, Server.WorkerRole, false, false);
    var r2 := db.Register(email, password, Server.Manager, false, false);
    assert db.users[0].email == email;
    var u := db.users[0];
    Server.LoginIssuesStoredClaims(db.users, u, false, now, t, wire, now);
    var r3 := Server.Login(db.users, email, password, false, now);
    token := r3.body.token;
    statuses := [r1.status, r2.status, r3.status];
    if ' ' !in t && t != "" && t in wire && wire[t] == token {
      Server.BearerAuthenticates(t, wire, now);
    }
  }
}
