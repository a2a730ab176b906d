/**
  The route guard (src/components/ProtectedRoute.jsx): a placeholder while
  the session loads, the login page for a visitor, the home page for a
  signed-in user without an allowed role, and the guarded page otherwise.
 */
module ProtectedRoute {
  import opened Js

  /** What the guard renders. */
  datatype Decision = Placeholder | RedirectTo(target: string) | RenderChildren

  /** `allowRoles.includes(user.role)`: the role is one of the listed strings. */
  predicate HasRole(user: Json, roles: seq<string>)
  {
    Chain(user, "role").Str? && Chain(user, "role").s in roles
  }

  /** `ProtectedRoute({ allowRoles })` for the session's user and loading
      flag; an absent `allowRoles` admits every signed-in user, while any
      array, even an empty one, restricts. */
  function Guard(user: Json, loading: bool, allowRoles: Option<seq<string>>): (d: Decision)
    ensures loading ==> d == Placeholder
    ensures !loading && !Truthy(user) ==> d == RedirectTo("/login")
    ensures !loading && Truthy(user) && allowRoles.Some? && !HasRole(user, allowRoles.value) ==> d == RedirectTo("/")
    ensures d == RenderChildren <==>
      !loading && Truthy(user) && (allowRoles.None? || HasRole(user, allowRoles.value))
  {
    if loading then Placeholder
    else if !Truthy(user) then RedirectTo("/login")
    else if allowRoles.Some? && !HasRole(user, allowRoles.value) then RedirectTo("/")
    else RenderChildren
  }

  /** Admission is monotone in the role list: a guard that admits a user
      under some roles admits them under any longer list. */
  lemma GuardMonotone(user: Json, loading: bool, roles: seq<string>, more: seq<string>)
    requires Guard(user, loading, Some(roles)) == RenderChildren
    ensures Guard(user, loading, Some(roles + more)) == RenderChildren
    ensures Guard(user, loading, None) == RenderChildren
  {
  }

  /** An empty role list admits nobody. */
  lemma EmptyRolesAdmitNobody(user: Json, loading: bool)
    ensures Guard(user, loading, Some([])) != RenderChildren
  {
  }
}
