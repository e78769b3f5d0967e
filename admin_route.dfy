/** The admin route guard (src/admin/utils/AdminRoutes.jsx). */
module AdminRouteGuard {
  import opened Wrappers
  import opened Records
  import opened Auth

  /** `user.role === 'admin' || user.role === 'superadmin'`: exact string equality. */
  predicate IsAdminRole(role: Option<Value>) {
    role == Some(Str("admin")) || role == Some(Str("superadmin"))
  }

  function AdminRoute(loading: bool, user: Option<User>): (v: View)
    ensures loading <==> v == ShowLoading
    ensures v == ShowChildren <==> !loading && user.Some? && IsAdminRole(user.value.role)
    ensures v != ShowLoading && v != ShowChildren ==> v == RedirectTo("/appointments")
  {
    if loading then ShowLoading
    else if user.Some? && IsAdminRole(user.value.role) then ShowChildren
    else RedirectTo("/appointments")
  }

  /** Every other role, including no role at all, is sent to "/appointments"
      once loading is over, and so is a signed-out visitor, who is not sent
      to "/login". */
  lemma OtherRolesRedirected(u: User)
    requires !IsAdminRole(u.role)
    ensures AdminRoute(false, Some(u)) == RedirectTo("/appointments")
    ensures AdminRoute(false, None) == RedirectTo("/appointments")
  {
  }

  /** The comparison is case-sensitive and exact: "Admin", "ADMIN", a role
      with spaces around it, or a non-string role are not admin roles. */
  lemma RoleCaseMatters()
    ensures !IsAdminRole(Some(Str("Admin"))) && !IsAdminRole(Some(Str("ADMIN")))
    ensures !IsAdminRole(Some(Str(" admin"))) && !IsAdminRole(Some(Str("Superadmin")))
    ensures !IsAdminRole(Some(Num(1))) && !IsAdminRole(None)
  {
  }
}
