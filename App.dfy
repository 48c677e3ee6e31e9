/** The application shell: the guard in front of the profile route. */
module App {
  import opened Js
  import opened Storage

  datatype Guard = Render | Redirect(to: string, replace: bool)

  /**
   * `PrivateRoute`: the child is rendered when session storage holds a non-empty
   * `accessToken`; otherwise the guard redirects to /login, replacing the entry.
   */
  function PrivateRoute(session: Store): (g: Guard)
    ensures g.Render? <==> Truthy(GetItem(session, SessionAccessTokenKey))
    ensures g.Redirect? ==> g == Redirect("/login", true)
  {
    if Truthy(GetItem(session, SessionAccessTokenKey)) then Render else Redirect("/login", true)
  }
}
