/** The route guard (src/components/ProtectedRoute.jsx): admit the nested routes or send the
    visitor back to "/". */
module ProtectedRoute {
  import opened Wrappers
  import opened Records

  /** Rendering the nested `<Outlet />`, or `<Navigate to=... replace />`. */
  datatype Decision = Admit | Redirect(to: string)

  const Root: string := "/"

  /** `ProtectedRoute({ roles })` for the signed-in `user`; `roles` is None when the prop is
      omitted. An empty list is still a present (truthy) list. */
  function Decide(user: Option<User>, roles: Option<seq<string>>): (d: Decision)
    ensures d == Admit || d == Redirect(Root)
    ensures d == Admit <==> user.Some? && (roles.None? || user.value.role in roles.value)
  {
    if user.None? then Redirect(Root)
    else if roles.Some? && user.value.role !in roles.value then Redirect(Root)
    else Admit
  }

  /** Adding roles to a list never turns an admission into a redirect. */
  lemma MoreRolesAdmitMore(user: Option<User>, roles: seq<string>, more: seq<string>)
    requires forall r :: r in roles ==> r in more
    requires Decide(user, Some(roles)) == Admit
    ensures Decide(user, Some(more)) == Admit
  {
  }

  /** Omitting the list admits at least everyone some list admits. */
  lemma OmittedRolesAdmitMost(user: Option<User>, roles: seq<string>)
    requires Decide(user, Some(roles)) == Admit
    ensures Decide(user, None) == Admit
  {
  }
}
