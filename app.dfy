/** The client's top-level component: the route table with each page's role list, the redirects
    at "/" and for unknown paths, and the restore of a stored session when the client loads. */
module App {
  import opened Common
  import opened Browser
  import ProtectedRoute

  datatype Page =
    | LoginPage | DashboardPage | MonitoringPage | ViolationsPage
    | WorkerRegistrationPage | ViewWorkersPage | EditWorkerPage(id: string)

  /** What the router does with a location: render a page or navigate elsewhere. */
  datatype View = Show(page: Page) | Redirect(to: string)

  const AdminRole: string := "admin"
  const ManagerRole: string := "manager"
  const WorkerRole: string := "worker"
  const EditWorkerPrefix: string := "/edit-worker/"

  /** The `roles` each protected route hands to the guard. */
  function PageRoles(p: Page): seq<string>
  {
    match p
    case DashboardPage | MonitoringPage => [AdminRole, ManagerRole, WorkerRole]
    case ViolationsPage | ViewWorkersPage => [AdminRole, ManagerRole]
    case WorkerRegistrationPage | EditWorkerPage(_) => [AdminRole]
    case LoginPage => []
  }

  /** The pages behind the guard; an edit page's id is one non-empty path segment. */
  predicate IsProtected(p: Page)
  {
    p != LoginPage && (p.EditWorkerPage? ==> p.id != "" && '/' !in p.id)
  }

  function PathOf(p: Page): string
  {
    match p
    case LoginPage => "/"
    case DashboardPage => "/dashboard"
    case MonitoringPage => "/monitoring"
    case ViolationsPage => "/violations"
    case WorkerRegistrationPage => "/worker-registration"
    case ViewWorkersPage => "/view-workers"
    case EditWorkerPage(id) => EditWorkerPrefix + id
  }

  /** The protected route a path selects, if any; `/edit-worker/:id` takes one segment. */
  function MatchProtected(path: string): Option<Page>
  {
    if path == "/dashboard" then Some(DashboardPage)
    else if path == "/monitoring" then Some(MonitoringPage)
    else if path == "/violations" then Some(ViolationsPage)
    else if path == "/worker-registration" then Some(WorkerRegistrationPage)
    else if path == "/view-workers" then Some(ViewWorkersPage)
    else if |path| > |EditWorkerPrefix| && path[..|EditWorkerPrefix|] == EditWorkerPrefix
            && '/' !in path[|EditWorkerPrefix|..]
    then Some(EditWorkerPage(path[|EditWorkerPrefix|..]))
    else None
  }

  /** Every protected page is reached by its own path, and a matched path is that page's path. */
  lemma MatchPathOf(p: Page, path: string)
    ensures IsProtected(p) ==> MatchProtected(PathOf(p)) == Some(p)
    ensures MatchProtected(path) == Some(p) ==> IsProtected(p) && PathOf(p) == path
  {
    if p.EditWorkerPage? && IsProtected(p) {
      var s := PathOf(p);
      assert s[..|EditWorkerPrefix|] == EditWorkerPrefix;
      assert s[|EditWorkerPrefix|..] == p.id;
      assert s[1] == 'e' && s[2] == 'd';
    }
    if MatchProtected(path) == Some(p) && p.EditWorkerPage? {
      assert path == path[..|EditWorkerPrefix|] + path[|EditWorkerPrefix|..];
    }
  }

  /** The route table: "/" is the login page, or the dashboard once authenticated; a protected
      path passes the guard with its role list; anything else goes back to "/". */
  function Resolve(path: string, isAuthenticated: bool, userRole: string): (r: View)
    ensures r.Show? ==> r.page == LoginPage || IsProtected(r.page)
  {
    if path == "/" then
      (if isAuthenticated then Redirect("/dashboard") else Show(LoginPage))
    else match MatchProtected(path)
      case None => Redirect("/")
      case Some(p) =>
        MatchPathOf(p, path);
        match ProtectedRoute.Guard(isAuthenticated, Some(PageRoles(p)), userRole)
        case RenderChildren => Show(p)
        case Redirect(to) => Redirect(to)
  }

  /** The root and fallback routes. */
  lemma RootAndFallback(path: string, isAuthenticated: bool, userRole: string)
    ensures Resolve("/", isAuthenticated, userRole)
            == (if isAuthenticated then Redirect("/dashboard") else Show(LoginPage))
    ensures path != "/" && MatchProtected(path).None? ==> Resolve(path, isAuthenticated, userRole) == Redirect("/")
    ensures Resolve(path, isAuthenticated, userRole) == Show(LoginPage) <==> path == "/" && !isAuthenticated
  {
  }

  /** A protected page is shown exactly to an authenticated user whose role its list holds;
      everyone else is sent to "/". */
  lemma {:induction false} PageAccess(p: Page, isAuthenticated: bool, userRole: string)
    requires IsProtected(p)
    ensures Resolve(PathOf(p), isAuthenticated, userRole) == Show(p)
            <==> isAuthenticated && userRole in PageRoles(p)
    ensures Resolve(PathOf(p), isAuthenticated, userRole) != Show(p)
            ==> Resolve(PathOf(p), isAuthenticated, userRole) == Redirect("/")
  {
    MatchPathOf(p, PathOf(p));
    ProtectedRoute.GuardCases(isAuthenticated, Some(PageRoles(p)), userRole);
  }

  /** The role lists, page by page. */
  lemma PageRolesByPage(role: string, id: string)
    ensures role in PageRoles(DashboardPage) <==> role in {AdminRole, ManagerRole, WorkerRole}
    ensures role in PageRoles(MonitoringPage) <==> role in {AdminRole, ManagerRole, WorkerRole}
    ensures role in PageRoles(ViolationsPage) <==> role in {AdminRole, ManagerRole}
    ensures role in PageRoles(ViewWorkersPage) <==> role in {AdminRole, ManagerRole}
    ensures role in PageRoles(WorkerRegistrationPage) <==> role == AdminRole
    ensures role in PageRoles(EditWorkerPage(id)) <==> role == AdminRole
  {
  }

  /** The router following at most `fuel` redirects from `path`. */
  function Follow(path: string, isAuthenticated: bool, userRole: string, fuel: nat): View
    decreases fuel
  {
    var v := Resolve(path, isAuthenticated, userRole);
    if v.Redirect? && fuel > 0 then Follow(v.to, isAuthenticated, userRole, fuel - 1) else v
  }

  /** The reply to the session check: ok with the token's role, not ok, or no answer at all. */
  datatype ValidateReply = ValidOk(role: string) | ValidNotOk | NetworkError

  /** The component's state and the storage it reads. */
  class AppShell {
    var isAuthenticated: bool
    var userRole: string
    const storage: LocalStorage

    constructor (storage: LocalStorage)
      ensures this.storage == storage
      ensures !isAuthenticated && userRole == ""
    {
      this.storage := storage;
      isAuthenticated := false;
      userRole := "";
    }

    /** A non-empty token is stored (`!token` is false). */
    predicate HasToken()
      reads this, storage
    {
      "token" in storage.items && storage.items["token"] != ""
    }

    /** The `validateToken` effect. Without a token no request is sent; an ok reply restores
        the session with the reply's role; a refusal or a network error drops the token. */
    method RestoreSession(reply: ValidateReply) returns (sent: bool)
      modifies this, storage
      ensures sent == old(HasToken())
      ensures !sent ==> !isAuthenticated && userRole == old(userRole) && storage.items == old(storage.items)
      ensures sent && reply.ValidOk?
              ==> isAuthenticated && userRole == reply.role && storage.items == old(storage.items)
      ensures sent && !reply.ValidOk?
              ==> !isAuthenticated && userRole == old(userRole) && storage.items == old(storage.items) - {"token"}
    {
      var token := storage.GetItem("token");
      if token.None? || token.value == "" {
        isAuthenticated := false;
        return false;
      }
      sent := true;
      match reply
      case ValidOk(role) =>
        isAuthenticated := true;
        userRole := role;
      case _ =>
        storage.RemoveItem("token");
        isAuthenticated := false;
    }
  }
}
