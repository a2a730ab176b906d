/**
  The route table (src/App.jsx): which page a location shows, and behind
  which guard. Five pages are open, profile and directory need a signed-in
  user, the application form and the task list need the interviewee role,
  and the whole `/interviewer` subtree needs the interviewer role through
  its parent guard. Anything else redirects home.
 */
module AppRoutes {
  import opened Js
  import ProtectedRoute

  datatype Page =
    | Announcements | LoginPage | RegisterPage | ForgotPasswordPage
    | ProfilePage | Directory | Application | MyTasks
    | ManageAnnouncements | CandidateList | CandidateDetail(id: string) | ManageTasks

  /** A route's element: a page, or `<Navigate to=... replace />`. */
  datatype Element = Show(page: Page) | Navigate(to: string)

  /** The `ProtectedRoute` wrapper of a route: None when there is none,
      otherwise its `allowRoles`. */
  datatype Route = Route(guard: Option<Option<seq<string>>>, element: Element)

  const INTERVIEWEE := "interviewee"
  const INTERVIEWER := "interviewer"
  const CANDIDATES_PREFIX := "/interviewer/candidates/"
  const INTERVIEWER_HOME := "/interviewer/announcements"

  /** The router ignores one trailing slash. */
  function Canonical(path: string): (p: string)
    ensures |path| > 1 && path[|path| - 1] == '/' ==> p == path[..|path| - 1]
    ensures !(|path| > 1 && path[|path| - 1] == '/') ==> p == path
  {
    if |path| > 1 && path[|path| - 1] == '/' then path[..|path| - 1] else path
  }

  /** The `:id` of `/interviewer/candidates/:id`: one non-empty segment. */
  function CandidateId(p: string): (id: Option<string>)
    ensures id.Some? ==> p == CANDIDATES_PREFIX + id.value && id.value != "" && '/' !in id.value
    ensures id.None? ==> forall s :: s != "" && '/' !in s ==> p != CANDIDATES_PREFIX + s
  {
    if StartsWith(p, CANDIDATES_PREFIX) && |p| > |CANDIDATES_PREFIX| && '/' !in p[|CANDIDATES_PREFIX|..] then
      assert p == CANDIDATES_PREFIX + p[|CANDIDATES_PREFIX|..];
      Some(p[|CANDIDATES_PREFIX|..])
    else
      assert forall s :: s != "" && '/' !in s && p == CANDIDATES_PREFIX + s ==> p[|CANDIDATES_PREFIX|..] == s;
      None
  }

  /** The route a location matches. */
  function Match(path: string): Route
  {
    var p := Canonical(path);
    var signedIn := Some(None);
    var intervieweeOnly := Some(Some([INTERVIEWEE]));
    var interviewerOnly := Some(Some([INTERVIEWER]));
    if p == "/" || p == "/announcements" then Route(None, Show(Announcements))
    else if p == "/login" then Route(None, Show(LoginPage))
    else if p == "/register" then Route(None, Show(RegisterPage))
    else if p == "/forgot-password" then Route(None, Show(ForgotPasswordPage))
    else if p == "/profile" then Route(signedIn, Show(ProfilePage))
    else if p == "/directory" then Route(signedIn, Show(Directory))
    else if p == "/application" then Route(intervieweeOnly, Show(Application))
    else if p == "/tasks" then Route(intervieweeOnly, Show(MyTasks))
    else if p == "/interviewer" then Route(interviewerOnly, Navigate(INTERVIEWER_HOME))
    else if p == INTERVIEWER_HOME then Route(interviewerOnly, Show(ManageAnnouncements))
    else if p == "/interviewer/candidates" then Route(interviewerOnly, Show(CandidateList))
    else if p == "/interviewer/tasks" then Route(interviewerOnly, Show(ManageTasks))
    else if CandidateId(p).Some? then Route(interviewerOnly, Show(CandidateDetail(CandidateId(p).value)))
    else Route(None, Navigate("/"))
  }

  /** What the user sees at a location. */
  datatype Screen = Loading | Redirect(to: string) | Rendered(page: Page)

  function ElementScreen(e: Element): Screen
  {
    match e
    case Show(pg) => Rendered(pg)
    case Navigate(t) => Redirect(t)
  }

  /** The route's element behind its guard. */
  function Render(user: Json, loading: bool, path: string): (s: Screen)
    ensures Match(path).guard.None? ==> s == ElementScreen(Match(path).element)
    ensures Match(path).guard.Some? ==>
      match ProtectedRoute.Guard(user, loading, Match(path).guard.value)
      case Placeholder => s == Loading
      case RedirectTo(t) => s == Redirect(t)
      case RenderChildren => s == ElementScreen(Match(path).element)
  {
    var r := Match(path);
    if r.guard.None? then ElementScreen(r.element)
    else
      match ProtectedRoute.Guard(user, loading, r.guard.value)
      case Placeholder => Loading
      case RedirectTo(t) => Redirect(t)
      case RenderChildren => ElementScreen(r.element)
  }

  /** Who may see a page: the access table the routes implement. */
  datatype Access = Open | SignedIn | RoleOnly(role: string)

  function Required(pg: Page): Access
  {
    match pg
    case Announcements => Open
    case LoginPage => Open
    case RegisterPage => Open
    case ForgotPasswordPage => Open
    case ProfilePage => SignedIn
    case Directory => SignedIn
    case Application => RoleOnly(INTERVIEWEE)
    case MyTasks => RoleOnly(INTERVIEWEE)
    case _ => RoleOnly(INTERVIEWER)
  }

  predicate Allowed(user: Json, a: Access)
  {
    match a
    case Open => true
    case SignedIn => Truthy(user)
    case RoleOnly(r) => Truthy(user) && Chain(user, "role") == Str(r)
  }

  /** The canonical location of a page. */
  function PathOf(pg: Page): string
  {
    match pg
    case Announcements => "/announcements"
    case LoginPage => "/login"
    case RegisterPage => "/register"
    case ForgotPasswordPage => "/forgot-password"
    case ProfilePage => "/profile"
    case Directory => "/directory"
    case Application => "/application"
    case MyTasks => "/tasks"
    case ManageAnnouncements => INTERVIEWER_HOME
    case CandidateList => "/interviewer/candidates"
    case CandidateDetail(id) => CANDIDATES_PREFIX + id
    case ManageTasks => "/interviewer/tasks"
  }

  /** The `ProtectedRoute` wrapper that enforces an access rule. */
  function GuardFor(a: Access): Option<Option<seq<string>>>
  {
    match a
    case Open => None
    case SignedIn => Some(None)
    case RoleOnly(r) => Some(Some([r]))
  }

  /** The route table agrees with the access table: every route that shows
      a page wraps it in exactly the guard its access rule calls for. */
  lemma RoutesMatchAccess(path: string)
    ensures Match(path).element.Show? ==> Match(path).guard == GuardFor(Required(Match(path).element.page))
  {
  }

  /** No location shows a page to a user the access table does not allow. */
  lemma RenderedOnlyIfAllowed(user: Json, loading: bool, path: string)
    requires Render(user, loading, path).Rendered?
    ensures Allowed(user, Required(Render(user, loading, path).page))
    ensures !loading || Required(Render(user, loading, path).page) == Open
  {
    RoutesMatchAccess(path);
    if Match(path).guard.Some? {
      assert Match(path).element.Show?;
    }
  }

  /** Conversely, once the session has loaded, every page shows at its own
      location to every user the table allows. */
  lemma AllowedRendersAtPath(user: Json, pg: Page)
    requires pg.CandidateDetail? ==> pg.id != "" && '/' !in pg.id
    requires Allowed(user, Required(pg))
    ensures Render(user, false, PathOf(pg)) == Rendered(pg)
  {
    match Required(pg)
    case Open => OpenRoutes(user, false);
    case SignedIn => SignedInRenders(user, pg);
    case RoleOnly(r) =>
      if r == INTERVIEWEE {
        IntervieweeRenders(user, pg);
      } else if pg.CandidateDetail? {
        CandidateRoute(pg.id);
        BehindGuard(user, PathOf(pg), Some([INTERVIEWER]), pg);
      } else {
        InterviewerRenders(user, pg);
      }
  }

  lemma SignedInRenders(user: Json, pg: Page)
    requires Required(pg) == SignedIn && Truthy(user)
    ensures Render(user, false, PathOf(pg)) == Rendered(pg)
  {
    GuardedMatches();
    if pg == ProfilePage {
      BehindGuard(user, "/profile", None, pg);
    } else {
      BehindGuard(user, "/directory", None, pg);
    }
  }

  lemma IntervieweeRenders(user: Json, pg: Page)
    requires Required(pg) == RoleOnly(INTERVIEWEE) && Allowed(user, Required(pg))
    ensures Render(user, false, PathOf(pg)) == Rendered(pg)
  {
    GuardedMatches();
    if pg == Application {
      BehindGuard(user, "/application", Some([INTERVIEWEE]), pg);
    } else {
      BehindGuard(user, "/tasks", Some([INTERVIEWEE]), pg);
    }
  }

  lemma InterviewerRenders(user: Json, pg: Page)
    requires Required(pg) == RoleOnly(INTERVIEWER) && Allowed(user, Required(pg)) && !pg.CandidateDetail?
    ensures Render(user, false, PathOf(pg)) == Rendered(pg)
  {
    GuardedMatches();
    if pg == ManageAnnouncements {
      BehindGuard(user, INTERVIEWER_HOME, Some([INTERVIEWER]), pg);
    } else if pg == CandidateList {
      BehindGuard(user, "/interviewer/candidates", Some([INTERVIEWER]), pg);
    } else {
      BehindGuard(user, "/interviewer/tasks", Some([INTERVIEWER]), pg);
    }
  }

  /** A page behind a guard that admits the user renders. */
  lemma BehindGuard(user: Json, path: string, roles: Option<seq<string>>, pg: Page)
    requires Match(path) == Route(Some(roles), Show(pg))
    requires ProtectedRoute.Guard(user, false, roles) == ProtectedRoute.RenderChildren
    ensures Render(user, false, path) == Rendered(pg)
  {
  }

  /** The guarded pages at their canonical locations. */
  lemma GuardedMatches()
    ensures Match("/profile") == Route(Some(None), Show(ProfilePage))
    ensures Match("/directory") == Route(Some(None), Show(Directory))
    ensures Match("/application") == Route(Some(Some([INTERVIEWEE])), Show(Application))
    ensures Match("/tasks") == Route(Some(Some([INTERVIEWEE])), Show(MyTasks))
    ensures Match(INTERVIEWER_HOME) == Route(Some(Some([INTERVIEWER])), Show(ManageAnnouncements))
    ensures Match("/interviewer/candidates") == Route(Some(Some([INTERVIEWER])), Show(CandidateList))
    ensures Match("/interviewer/tasks") == Route(Some(Some([INTERVIEWER])), Show(ManageTasks))
  {
  }

  /** `/interviewer/candidates/:id` matches only the detail route. */
  lemma CandidateRoute(id: string)
    requires id != "" && '/' !in id
    ensures Match(CANDIDATES_PREFIX + id) == Route(Some(Some([INTERVIEWER])), Show(CandidateDetail(id)))
  {
    var p := CANDIDATES_PREFIX + id;
    assert p[|p| - 1] == id[|id| - 1];
    assert id[|id| - 1] in id;
    assert Canonical(p) == p;
    assert p[13] == 'c' && INTERVIEWER_HOME[13] == 'a';
    assert |p| > 24;
    assert CandidateId(p) == Some(id) by {
      assert StartsWith(p, CANDIDATES_PREFIX);
      assert p[|CANDIDATES_PREFIX|..] == id;
    }
  }

  /** The open pages show whatever the session, even while it loads. */
  lemma OpenRoutes(user: Json, loading: bool)
    ensures Render(user, loading, "/") == Rendered(Announcements)
    ensures Render(user, loading, "/announcements") == Rendered(Announcements)
    ensures Render(user, loading, "/login") == Rendered(LoginPage)
    ensures Render(user, loading, "/register") == Rendered(RegisterPage)
    ensures Render(user, loading, "/forgot-password") == Rendered(ForgotPasswordPage)
  {
  }

  lemma InterviewerMatch()
    ensures Match("/interviewer") == Route(Some(Some([INTERVIEWER])), Navigate(INTERVIEWER_HOME))
  {
  }

  /** The interviewer index redirects to the announcement manager, behind
      the subtree's guard. */
  lemma InterviewerIndex(user: Json)
    requires Truthy(user) && Chain(user, "role") == Str(INTERVIEWER)
    ensures Render(user, false, "/interviewer") == Redirect(INTERVIEWER_HOME)
    ensures Render(user, false, INTERVIEWER_HOME) == Rendered(ManageAnnouncements)
  {
  }

  /** A location no route names redirects home without consulting the
      session, even while it loads. */
  lemma UnmatchedRedirectsHome(user: Json, loading: bool, path: string)
    requires Match(path).element == Navigate("/")
    ensures Render(user, loading, path) == Redirect("/")
  {
  }
}
