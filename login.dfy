/** The sign-in page (src/pages/Login.jsx): after signing in, the user's
    profile decides where they are sent. */
module Login {
  import opened Wrappers
  import opened Records
  import Store
  import opened Auth
  import opened AdminRouteGuard
  import opened PrivateRouteGuard

  /** `signInWithEmailAndPassword`: succeeds when the backend answers and the
      account exists with that password. */
  predicate SignInSucceeds(db: Store.Db, email: string, password: string, ok: bool) {
    ok && email in db.accounts && db.accounts[email] == password
  }

  /** Lines 33-45: where a profile lookup sends the user; `None` when the
      lookup fails and the error is shown instead. */
  function Destination(l: Lookup): (r: Option<string>)
    ensures l.Failed? <==> r.None?
    ensures r == Some("/admin/dashboard") <==> l.Found? && IsAdminRole(Get(l.profile, "role"))
    ensures r.Some? && r != Some("/admin/dashboard") ==> r == Some("/appointments")
  {
    match l
    case Found(p) => if IsAdminRole(Get(p, "role")) then Some("/admin/dashboard") else Some("/appointments")
    case Missing => Some("/appointments")
    case Failed => None
  }

  /** Once the authentication context has resolved the same profile, the
      page the user is sent to lets them in. */
  lemma DestinationAdmitted(uid: string, email: string, l: Lookup)
    requires !l.Failed?
    ensures var user := UserAfter(SignedIn(uid, email, l));
            (Destination(l) == Some("/admin/dashboard") ==> AdminRoute(false, user) == ShowChildren) &&
            (Destination(l) == Some("/appointments") ==> PrivateRoute(false, user) == ShowChildren)
  {
  }

  /** A user sent to "/appointments" would be turned away from every
      administrative page. */
  lemma ClientsKeptOut(uid: string, email: string, l: Lookup)
    requires Destination(l) == Some("/appointments")
    ensures AdminRoute(false, UserAfter(SignedIn(uid, email, l))) == RedirectTo("/appointments")
  {
  }

  class LoginPage {
    var error: string
    var loading: bool
    var navigatedTo: Option<string>

    constructor ()
      ensures error == "" && !loading && navigatedTo.None?
    {
      error := "";
      loading := false;
      navigatedTo := None;
    }

    /** `handleSubmit`: `uid` is the account's identifier and `errMsg` the
        message of whichever step failed. */
    method Submit(db: Store.Db, email: string, password: string, signInOk: bool,
                  uid: string, readOk: bool, errMsg: string)
      modifies this
      ensures !loading
      ensures var l := LookupProfile(db, uid, readOk);
              if SignInSucceeds(db, email, password, signInOk) && !l.Failed? then
                error == "" && navigatedTo == Destination(l)
              else
                error == errMsg && navigatedTo == old(navigatedTo)
    {
      error := "";
      loading := true;
      if !SignInSucceeds(db, email, password, signInOk) {
        error := errMsg;
      } else {
        var l := LookupProfile(db, uid, readOk);
        match l {
          case Failed =>
            error := errMsg;
          case Found(p) =>
            var role := Get(p, "role");
            if role == Some(Str("admin")) || role == Some(Str("superadmin")) {
              navigatedTo := Some("/admin/dashboard");
            } else {
              navigatedTo := Some("/appointments");
            }
          case Missing =>
            navigatedTo := Some("/appointments");
        }
      }
      loading := false;
    }
  }
}
