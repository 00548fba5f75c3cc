/** The login/registration form: which endpoint and body a submit sends, what a reply does to
    storage and the session, and where a successful login navigates. */
module LoginScreen {
  import opened Common
  import opened Browser
  import App

  /** The JSON body of the submit request. */
  datatype RequestBody =
    | Credentials(email: string, password: string)
    | Registration(email: string, password: string, role: string)

  /** What the submit's `fetch` produced: a parsed reply (the fields used from its JSON, an
      absent `message` as ""), or an exception from the request or from parsing. */
  datatype SubmitReply = Answered(ok: bool, token: string, role: string, message: string) | Thrown

  const DefaultRole: string := "worker"
  /** The options of the role selector (the admin option is commented out). */
  const SelectableRoles: seq<string> := ["worker", "manager"]

  const RegisteredMessage: string := "Registration successful! Please login."
  const FallbackMessage: string := "An error occurred. Please try again."
  const ServerErrorMessage: string := "Server error. Please try again later."

  function Endpoint(isRegister: bool): string
  {
    if isRegister then "register" else "login"
  }

  function RequestBodyFor(isRegister: bool, email: string, password: string, role: string): (r: RequestBody)
    ensures r.email == email && r.password == password
    ensures r.Registration? ==> r.role == role
  {
    if isRegister then Registration(email, password, role) else Credentials(email, password)
  }

  /** The body carries a role exactly when it goes to the registration endpoint. */
  lemma BodyMatchesEndpoint(isRegister: bool, email: string, password: string, role: string)
    ensures RequestBodyFor(isRegister, email, password, role).Registration? <==> Endpoint(isRegister) == "register"
    ensures Endpoint(isRegister) == "register" || Endpoint(isRegister) == "login"
  {
  }

  /** The page a successful login navigates to. */
  function RedirectFor(role: string): (r: string)
    ensures r == "/admin-dashboard" <==> role == App.AdminRole
    ensures r == "/manager-dashboard" <==> role == App.ManagerRole
    ensures r == "/dashboard" <==> role != App.AdminRole && role != App.ManagerRole
  {
    if role == App.AdminRole then "/admin-dashboard"
    else if role == App.ManagerRole then "/manager-dashboard"
    else "/dashboard"
  }

  /** With the session's role set, every role the dashboard admits lands on the dashboard:
      the role-specific paths are unknown routes, so they pass through "/" to "/dashboard". */
  lemma {:induction false} SignedInRoleLandsOnDashboard(role: string)
    requires role in App.PageRoles(App.DashboardPage)
    ensures App.Follow(RedirectFor(role), true, role, 2) == App.Show(App.DashboardPage)
  {
    App.PageAccess(App.DashboardPage, true, role);
    var target := RedirectFor(role);
    if target != "/dashboard" {
      assert target[1] != 'e';
      assert App.MatchProtected(target).None?;
      assert App.Resolve(target, true, role) == App.Redirect("/");
      assert App.Resolve("/", true, role) == App.Redirect("/dashboard");
    }
  }

  /** The message a refused submit shows: the server's message, or the generic one. */
  function RefusalMessage(serverMessage: string): (r: string)
    ensures r != ""
    ensures serverMessage != "" ==> r == serverMessage
    ensures serverMessage == "" ==> r == FallbackMessage
  {
    if serverMessage != "" then serverMessage else FallbackMessage
  }

  class LoginForm {
    var email: string
    var password: string
    var role: string
    var isRegister: bool
    var message: string

    constructor ()
      ensures email == "" && password == "" && role == DefaultRole && !isRegister && message == ""
      ensures role in SelectableRoles
    {
      email := "";
      password := "";
      role := DefaultRole;
      isRegister := false;
      message := "";
    }

    /** The link under the form flips between login and registration. */
    method ToggleMode()
      modifies this`isRegister
      ensures isRegister == !old(isRegister)
    {
      isRegister := !isRegister;
    }

    /** The role selector offers only the worker and manager roles. */
    method SelectRole(r: string)
      requires r in SelectableRoles
      modifies this`role
      ensures role == r && role != App.AdminRole
    {
      role := r;
    }

    method EnterCredentials(e: string, p: string)
      modifies this`email, this`password
      ensures email == e && password == p
    {
      email := e;
      password := p;
    }

    /** `handleSubmit`, as written: a successful login stores the token and role and marks the
        session authenticated but leaves the shell's `userRole` as it was. */
    method HandleSubmit(reply: SubmitReply, shell: App.AppShell)
      returns (endpoint: string, body: RequestBody, navigateTo: Option<string>)
      modifies this`message, this`isRegister, shell`isAuthenticated, shell.storage
      ensures endpoint == Endpoint(old(isRegister))
      ensures body == RequestBodyFor(old(isRegister), email, password, role)
      ensures shell.userRole == old(shell.userRole)
      ensures reply.Thrown?
              ==> message == ServerErrorMessage && isRegister == old(isRegister) && navigateTo.None?
                  && shell.isAuthenticated == old(shell.isAuthenticated) && shell.storage.items == old(shell.storage.items)
      ensures reply.Answered? && !reply.ok
              ==> message == RefusalMessage(reply.message) && isRegister == old(isRegister) && navigateTo.None?
                  && shell.isAuthenticated == old(shell.isAuthenticated) && shell.storage.items == old(shell.storage.items)
      ensures reply.Answered? && reply.ok && old(isRegister)
              ==> message == RegisteredMessage && !isRegister && navigateTo.None?
                  && shell.isAuthenticated == old(shell.isAuthenticated) && shell.storage.items == old(shell.storage.items)
      ensures reply.Answered? && reply.ok && !old(isRegister)
              ==> message == "" && !isRegister && navigateTo == Some(RedirectFor(reply.role))
                  && shell.isAuthenticated
                  && shell.storage.items == old(shell.storage.items)["token" := reply.token]["role" := reply.role]
    {
      message := "";
      endpoint := Endpoint(isRegister);
      body := RequestBodyFor(isRegister, email, password, role);
      navigateTo := None;
      match reply
      case Thrown =>
        message := ServerErrorMessage;
      case Answered(ok, token, replyRole, serverMessage) =>
        if ok {
          if !isRegister {
            shell.storage.SetItem("token", token);
            shell.storage.SetItem("role", replyRole);
            shell.isAuthenticated := true;
            navigateTo := Some(RedirectFor(replyRole));
          } else {
            message := RegisteredMessage;
            isRegister := false;
          }
        } else {
          message := RefusalMessage(serverMessage);
        }
    }

    /** `handleSubmit` with the session's role set from the login reply as well, so that the
        guard sees the role that was just signed in. */
    method HandleSubmitSettingRole(reply: SubmitReply, shell: App.AppShell)
      returns (endpoint: string, body: RequestBody, navigateTo: Option<string>)
      modifies this`message, this`isRegister, shell`isAuthenticated, shell`userRole, shell.storage
      ensures endpoint == Endpoint(old(isRegister))
      ensures reply.Answered? && reply.ok && !old(isRegister)
              ==> navigateTo == Some(RedirectFor(reply.role)) && shell.isAuthenticated && shell.userRole == reply.role
                  && shell.storage.items == old(shell.storage.items)["token" := reply.token]["role" := reply.role]
      ensures !(reply.Answered? && reply.ok && !old(isRegister))
              ==> navigateTo.None? && shell.userRole == old(shell.userRole)
                  && shell.isAuthenticated == old(shell.isAuthenticated) && shell.storage.items == old(shell.storage.items)
      ensures reply.Answered? && reply.ok && !old(isRegister) && reply.role in App.PageRoles(App.DashboardPage)
              ==> App.Follow(navigateTo.value, shell.isAuthenticated, shell.userRole, 2) == App.Show(App.DashboardPage)
    {
      var wasRegister := isRegister;
      endpoint, body, navigateTo := HandleSubmit(reply, shell);
      if reply.Answered? && reply.ok && !wasRegister {
        shell.userRole := reply.role;
        if reply.role in App.PageRoles(App.DashboardPage) {
          SignedInRoleLandsOnDashboard(reply.role);
        }
      }
    }
  }
}
