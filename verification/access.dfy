/**
  Who can reach what: the navigation of the page frame, the route table
  and the session transitions taken together.
 */
module Access {
  import opened Js
  import AppRoutes
  import Layout
  import AuthContext
  import Client

  /** The screen a location settles on once the session has loaded,
      following at most `hops` redirects. */
  function Settle(user: Json, path: string, hops: nat): AppRoutes.Screen
    decreases hops
  {
    match AppRoutes.Render(user, false, path)
    case Redirect(t) => if hops == 0 then AppRoutes.Redirect(t) else Settle(user, t, hops - 1)
    case s => s
  }

  /** Every link the frame can show. */
  const NAV_PATHS := {"/", "/announcements", "/profile", "/directory", "/application", "/tasks", "/interviewer"}

  /** The page a navigation link is for. */
  function LinkPage(path: string): AppRoutes.Page
  {
    if path == "/profile" then AppRoutes.ProfilePage
    else if path == "/directory" then AppRoutes.Directory
    else if path == "/application" then AppRoutes.Application
    else if path == "/tasks" then AppRoutes.MyTasks
    else if path == "/interviewer" then AppRoutes.ManageAnnouncements
    else AppRoutes.Announcements
  }

  /** The frame shows a navigation link exactly when following it lands on
      its page: no shown link bounces, and no hidden link would have led
      there. */
  lemma NavLinkShownIffReachable(user: Json, path: string)
    requires path in NAV_PATHS
    ensures path in Layout.NavLinks(user) <==> Settle(user, path, 2) == AppRoutes.Rendered(LinkPage(path))
  {
    if path == "/" || path == "/announcements" {
      AppRoutes.OpenRoutes(user, false);
    } else if path == "/profile" || path == "/directory" {
      SignedInLink(user, path);
    } else if path == "/application" || path == "/tasks" {
      IntervieweeLink(user, path);
    } else {
      InterviewerLink(user);
    }
  }

  lemma SignedInLink(user: Json, path: string)
    requires path == "/profile" || path == "/directory"
    ensures path in Layout.NavLinks(user) <==> Settle(user, path, 2) == AppRoutes.Rendered(LinkPage(path))
  {
    var pg := LinkPage(path);
    if path == "/profile" {
      assert AppRoutes.Match("/profile") == AppRoutes.Route(Some(None), AppRoutes.Show(pg));
    } else {
      assert AppRoutes.Match("/directory") == AppRoutes.Route(Some(None), AppRoutes.Show(pg));
    }
    if !Truthy(user) {
      assert AppRoutes.Render(user, false, path) == AppRoutes.Redirect("/login");
      assert Settle(user, path, 2) == Settle(user, "/login", 1);
      AppRoutes.OpenRoutes(user, false);
    } else {
      assert AppRoutes.Render(user, false, path) == AppRoutes.Rendered(pg);
    }
  }

  lemma IntervieweeLink(user: Json, path: string)
    requires path == "/application" || path == "/tasks"
    ensures path in Layout.NavLinks(user) <==> Settle(user, path, 2) == AppRoutes.Rendered(LinkPage(path))
  {
    var pg := LinkPage(path);
    var r := AppRoutes.Route(Some(Some([AppRoutes.INTERVIEWEE])), AppRoutes.Show(pg));
    if path == "/application" {
      assert AppRoutes.Match("/application") == r;
    } else {
      assert AppRoutes.Match("/tasks") == r;
    }
    RoleGuardedLink(user, path, AppRoutes.INTERVIEWEE, pg);
  }

  /** A link to a page behind a one-role guard lands on the page exactly
      for a user with that role. */
  lemma RoleGuardedLink(user: Json, path: string, role: string, pg: AppRoutes.Page)
    requires AppRoutes.Match(path) == AppRoutes.Route(Some(Some([role])), AppRoutes.Show(pg))
    requires pg != AppRoutes.LoginPage && pg != AppRoutes.Announcements
    ensures Settle(user, path, 2) == AppRoutes.Rendered(pg) <==> Truthy(user) && Layout.RoleIs(user, role)
  {
    if !Truthy(user) {
      assert AppRoutes.Render(user, false, path) == AppRoutes.Redirect("/login");
      assert Settle(user, path, 2) == Settle(user, "/login", 1);
      assert AppRoutes.Render(user, false, "/login") == AppRoutes.Rendered(AppRoutes.LoginPage);
    } else if !Layout.RoleIs(user, role) {
      assert AppRoutes.Render(user, false, path) == AppRoutes.Redirect("/");
      assert Settle(user, path, 2) == Settle(user, "/", 1);
      assert AppRoutes.Render(user, false, "/") == AppRoutes.Rendered(AppRoutes.Announcements);
    } else {
      assert AppRoutes.Render(user, false, path) == AppRoutes.Rendered(pg);
    }
  }

  lemma InterviewerLink(user: Json)
    ensures "/interviewer" in Layout.NavLinks(user)
            <==> Settle(user, "/interviewer", 2) == AppRoutes.Rendered(AppRoutes.ManageAnnouncements)
  {
    AppRoutes.InterviewerMatch();
    if !Truthy(user) {
      NoRoleWithoutUser(user);
      assert AppRoutes.Render(user, false, "/interviewer") == AppRoutes.Redirect("/login");
      assert Settle(user, "/interviewer", 2) == Settle(user, "/login", 1);
      AppRoutes.OpenRoutes(user, false);
    } else if !Layout.RoleIs(user, "interviewer") {
      assert AppRoutes.Render(user, false, "/interviewer") == AppRoutes.Redirect("/");
      assert Settle(user, "/interviewer", 2) == Settle(user, "/", 1);
      AppRoutes.OpenRoutes(user, false);
    } else {
      AppRoutes.InterviewerIndex(user);
      assert Settle(user, "/interviewer", 2) == Settle(user, AppRoutes.INTERVIEWER_HOME, 1);
    }
  }

  /** A falsy user has no role. */
  lemma NoRoleWithoutUser(user: Json)
    requires !Truthy(user)
    ensures Chain(user, "role") == Undefined
  {
    if user.Str? {
      assert Own(user) == map[];
    }
  }

  /** While the session loads, no guarded location shows anything but the
      placeholder. */
  lemma LoadingShowsPlaceholder(st: Client.Storage, path: string)
    requires AppRoutes.Match(path).guard.Some?
    ensures AppRoutes.Render(AuthContext.Initial(st).user, true, path) == AppRoutes.Loading
  {
  }

  /** After logging out, only the open pages render, and the signed-in
      pages send the visitor to the login page. */
  lemma LogoutLocksPages(s: AuthContext.Session, path: string)
    ensures var user := AuthContext.Logout(s).user;
      AppRoutes.Render(user, false, path).Rendered? ==>
        AppRoutes.Required(AppRoutes.Render(user, false, path).page) == AppRoutes.Open
    ensures var user := AuthContext.Logout(s).user;
      AppRoutes.Match(path).guard.Some? ==> AppRoutes.Render(user, false, path) == AppRoutes.Redirect("/login")
  {
    var user := AuthContext.Logout(s).user;
    if AppRoutes.Render(user, false, path).Rendered? {
      AppRoutes.RenderedOnlyIfAllowed(user, false, path);
    }
  }

  /** A login whose user is an interviewee never reaches an interviewer
      page, and the interviewer area sends them home. */
  lemma IntervieweeLoginStaysOut(codec: Codec, s: AuthContext.Session, env: string, payload: Json,
                                 hash: Json -> string, resp: Client.Response, path: string)
    ensures var user := AuthContext.Login(codec, s, env, payload, hash, resp).0.user;
      Chain(user, "role") == Str(AppRoutes.INTERVIEWEE) ==>
        && AppRoutes.Render(user, false, "/interviewer") == AppRoutes.Redirect("/")
        && (AppRoutes.Render(user, false, path).Rendered? ==>
              AppRoutes.Required(AppRoutes.Render(user, false, path).page) != AppRoutes.RoleOnly(AppRoutes.INTERVIEWER))
  {
    var user := AuthContext.Login(codec, s, env, payload, hash, resp).0.user;
    if Chain(user, "role") == Str(AppRoutes.INTERVIEWEE) {
      IntervieweeStaysOut(user, path);
    }
  }

  lemma IntervieweeStaysOut(user: Json, path: string)
    requires Chain(user, "role") == Str(AppRoutes.INTERVIEWEE)
    ensures AppRoutes.Render(user, false, "/interviewer") == AppRoutes.Redirect("/")
    ensures AppRoutes.Render(user, false, path).Rendered? ==>
              AppRoutes.Required(AppRoutes.Render(user, false, path).page) != AppRoutes.RoleOnly(AppRoutes.INTERVIEWER)
  {
    AppRoutes.InterviewerMatch();
    if AppRoutes.Render(user, false, path).Rendered? {
      AppRoutes.RenderedOnlyIfAllowed(user, false, path);
    }
  }
}
