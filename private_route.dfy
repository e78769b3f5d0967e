/** The signed-in route guard (src/context/PrivateRoute.jsx). */
module PrivateRouteGuard {
  import opened Wrappers
  import opened Auth

  function PrivateRoute(loading: bool, user: Option<User>): (v: View)
    ensures loading ==> v == ShowLoading
    ensures !loading && user.Some? ==> v == ShowChildren
    ensures !loading && user.None? ==> v == RedirectTo("/login")
  {
    if loading then ShowLoading
    else if user.Some? then ShowChildren
    else RedirectTo("/login")
  }

  /** The guard looks only at the flag and at whether there is a user. */
  lemma OnlyPresenceMatters(loading: bool, u1: Option<User>, u2: Option<User>)
    requires u1.Some? == u2.Some?
    ensures PrivateRoute(loading, u1) == PrivateRoute(loading, u2)
  {
  }
}
