/** The client's route guard: a page is rendered only for an authenticated user whose role the
    page's list admits; everyone else is sent back to the login page at "/". */
module ProtectedRoute {
  import opened Common

  datatype Outcome = RenderChildren | Redirect(to: string)

  /** `ProtectedRoute`. `roles` is `None` when the route gives no list; an empty list is a
      list and admits nobody. */
  function Guard(isAuthenticated: bool, roles: Option<seq<string>>, userRole: string): (r: Outcome)
    ensures r.Redirect? ==> r.to == "/"
  {
    if !isAuthenticated || (roles.Some? && userRole !in roles.value) then Redirect("/")
    else RenderChildren
  }

  /** The four cases of the guard. */
  lemma GuardCases(isAuthenticated: bool, roles: Option<seq<string>>, userRole: string)
    ensures !isAuthenticated ==> Guard(isAuthenticated, roles, userRole) == Redirect("/")
    ensures isAuthenticated && roles.None? ==> Guard(isAuthenticated, roles, userRole) == RenderChildren
    ensures isAuthenticated && roles.Some? && userRole in roles.value
            ==> Guard(isAuthenticated, roles, userRole) == RenderChildren
    ensures isAuthenticated && roles.Some? && userRole !in roles.value
            ==> Guard(isAuthenticated, roles, userRole) == Redirect("/")
  {
  }

  /** Admitting more roles never takes a page away from someone who could see it. */
  lemma GuardMonotone(isAuthenticated: bool, fewer: seq<string>, more: seq<string>, userRole: string)
    requires forall x :: x in fewer ==> x in more
    ensures Guard(isAuthenticated, Some(fewer), userRole) == RenderChildren
            ==> Guard(isAuthenticated, Some(more), userRole) == RenderChildren
    ensures Guard(isAuthenticated, Some(fewer), userRole) == RenderChildren
            ==> Guard(isAuthenticated, None, userRole) == RenderChildren
  {
  }
}
