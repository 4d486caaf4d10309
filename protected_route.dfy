/** The route guard (frontend/src/components/auth/ProtectedRoute.jsx). What the
    authentication context reports is taken as three flags. */
module ProtectedRoute {

  /** What the guard renders. */
  datatype Screen = Spinner | Redirect(to: string) | Children

  function Guard(loading: bool, authenticated: bool, admin: bool, requireAdmin: bool := false): (s: Screen)
    ensures loading ==> s == Spinner
    ensures !loading && !authenticated ==> s == Redirect("/login")
    ensures !loading && authenticated && requireAdmin && !admin ==> s == Redirect("/dashboard")
    ensures s == Children <==> !loading && authenticated && (!requireAdmin || admin)
  {
    if loading then Spinner
    else if !authenticated then Redirect("/login")
    else if requireAdmin && !admin then Redirect("/dashboard")
    else Children
  }

  /** Without `requireAdmin`, every signed-in user sees the page. */
  lemma DefaultAdmitsEveryUser(admin: bool)
    ensures Guard(false, true, admin) == Children
  {
  }

  /** An admin sees the page whether or not it requires one. */
  lemma AdminAdmitted(requireAdmin: bool)
    ensures Guard(false, true, true, requireAdmin) == Children
  {
  }

  /** The guard only ever redirects to the two pages. */
  lemma RedirectTargets(loading: bool, authenticated: bool, admin: bool, requireAdmin: bool)
    ensures Guard(loading, authenticated, admin, requireAdmin).Redirect? ==>
      Guard(loading, authenticated, admin, requireAdmin).to in {"/login", "/dashboard"}
  {
  }
}
