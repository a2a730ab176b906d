/**
  The page frame (src/components/Layout.jsx): the navigation links and
  account controls shown for the session's user, the role label, and the
  colour theme, which persists in the `xdsec_theme` slot and defaults to
  following the system.
 */
module Layout {
  import opened Js
  import Client

  const THEME_KEY := "xdsec_theme"
  const SYSTEM := "system"
  const INTERVIEWER_LABEL := "面试官"
  const INTERVIEWEE_LABEL := "面试者"

  /** `user?.role === role`. */
  predicate RoleIs(user: Json, role: string)
  {
    StrictEq(Chain(user, "role"), Str(role))
  }

  /** The left-hand navigation links, in order. */
  function NavLinks(user: Json): (links: seq<string>)
    ensures |links| >= 2 && links[0] == "/" && links[1] == "/announcements"
    ensures "/profile" in links <==> Truthy(user)
    ensures "/directory" in links <==> Truthy(user)
    ensures "/application" in links <==> RoleIs(user, "interviewee")
    ensures "/tasks" in links <==> RoleIs(user, "interviewee")
    ensures "/interviewer" in links <==> RoleIs(user, "interviewer")
  {
    ["/", "/announcements"]
    + (if Truthy(user) then ["/profile", "/directory"] else [])
    + (if RoleIs(user, "interviewee") then ["/application", "/tasks"] else [])
    + (if RoleIs(user, "interviewer") then ["/interviewer"] else [])
  }

  /** The frame links only to the seven known locations. */
  lemma NavLinksKnown(user: Json)
    ensures forall i :: 0 <= i < |NavLinks(user)| ==>
      NavLinks(user)[i] in {"/", "/announcements", "/profile", "/directory", "/application", "/tasks", "/interviewer"}
  {
  }

  /** The right-hand account links: login and register for a visitor only. */
  function AccountLinks(user: Json): (links: seq<string>)
    ensures Truthy(user) <==> links == []
    ensures !Truthy(user) ==> links == ["/login", "/register"]
  {
    if Truthy(user) then [] else ["/login", "/register"]
  }

  /** The logout button is shown exactly for a signed-in user. */
  predicate ShowsLogout(user: Json)
  {
    Truthy(user)
  }

  /** The header's account area shows either the logout button or the
      login and register links, never both and never neither. */
  lemma AccountAreaExclusive(user: Json)
    ensures ShowsLogout(user) <==> AccountLinks(user) == []
    ensures !ShowsLogout(user) <==> AccountLinks(user) == ["/login", "/register"]
  {
  }

  /** The role label beside the logout button. */
  function RoleLabel(user: Json): (text: string)
    ensures text == INTERVIEWER_LABEL <==> RoleIs(user, "interviewer")
    ensures text == INTERVIEWEE_LABEL <==> !RoleIs(user, "interviewer")
  {
    if RoleIs(user, "interviewer") then INTERVIEWER_LABEL else INTERVIEWEE_LABEL
  }

  /** `getItem(THEME_KEY) || "system"`. */
  function InitialTheme(st: Client.Storage): (theme: string)
    ensures THEME_KEY in st && st[THEME_KEY] != "" ==> theme == st[THEME_KEY]
    ensures THEME_KEY !in st || st[THEME_KEY] == "" ==> theme == SYSTEM
  {
    if THEME_KEY in st && st[THEME_KEY] != "" then st[THEME_KEY] else SYSTEM
  }

  /** The effect of a theme: the document's `data-theme` attribute (None
      when removed) and the storage with the theme written back. */
  function ApplyTheme(theme: string, st: Client.Storage): (r: (Option<string>, Client.Storage))
    ensures r.0.None? <==> theme == SYSTEM
    ensures r.0.Some? ==> r.0.value == theme
    ensures THEME_KEY in r.1 && r.1[THEME_KEY] == theme
    ensures forall k :: k != THEME_KEY ==> (k in r.1 <==> k in st) && (k in st ==> r.1[k] == st[k])
  {
    (if theme == SYSTEM then None else Some(theme), st[THEME_KEY := theme])
  }

  /** A chosen theme survives a reload: the next frame starts with it. */
  lemma ThemeSurvivesReload(theme: string, st: Client.Storage)
    requires theme != ""
    ensures InitialTheme(ApplyTheme(theme, st).1) == theme
  {
  }

  /** A first visit follows the system theme and sets no attribute. */
  lemma FirstVisitFollowsSystem(st: Client.Storage)
    requires THEME_KEY !in st
    ensures ApplyTheme(InitialTheme(st), st).0.None?
  {
  }
}
