/** The authentication context (src/context/AuthContext.jsx): on every
    auth-state event the provider resolves the signed-in user's role from
    their profile record and then clears its loading flag. */
module Auth {
  import opened Wrappers
  import opened Records
  import Store

  /** The signed-in user as the context exposes it: `{ ...currentUser, role }`. */
  datatype User = User(uid: string, email: string, role: Option<Value>)

  /** The outcome of `getDoc(doc(db, 'users', uid))`. */
  datatype Lookup = Found(profile: Fields) | Missing | Failed

  /** The profile read against the backend; `readOk` says whether the read succeeded. */
  function LookupProfile(db: Store.Db, uid: string, readOk: bool): (r: Lookup)
    ensures r.Failed? <==> !readOk
    ensures r.Found? ==> (Store.Users, uid) in db.docs && r.profile == db.docs[(Store.Users, uid)]
    ensures r.Missing? ==> (Store.Users, uid) !in db.docs
  {
    if !readOk then Failed
    else if (Store.Users, uid) in db.docs then Found(db.docs[(Store.Users, uid)])
    else Missing
  }

  /** `userDoc.exists() ? userDoc.data().role : 'user'`, and 'user' when the
      read fails. A profile without a `role` field gives no role at all. */
  function RoleOf(l: Lookup): (r: Option<Value>)
    ensures l.Found? ==> r == Get(l.profile, "role")
    ensures !l.Found? ==> r == Some(Str("user"))
  {
    match l
    case Found(p) => Get(p, "role")
    case Missing => Some(Str("user"))
    case Failed => Some(Str("user"))
  }

  /** An `onAuthStateChanged` event, with the profile lookup it leads to. */
  datatype AuthEvent = SignedOut | SignedIn(uid: string, email: string, lookup: Lookup)

  function UserAfter(ev: AuthEvent): (r: Option<User>)
    ensures ev.SignedOut? <==> r.None?
    ensures ev.SignedIn? ==> r == Some(User(ev.uid, ev.email, RoleOf(ev.lookup)))
  {
    match ev
    case SignedOut => None
    case SignedIn(uid, email, lookup) => Some(User(uid, email, RoleOf(lookup)))
  }

  /** The context's value `{ user, loading }`. */
  datatype AuthState = AuthState(user: Option<User>, loading: bool)

  /** Lines 10-11: no user, still loading. */
  const Initial := AuthState(None, true)

  /** One run of the callback: the user is replaced, then loading ends. */
  function Step(s: AuthState, ev: AuthEvent): AuthState {
    AuthState(UserAfter(ev), false)
  }

  /** The state after a sequence of events, in order. */
  function Replay(s: AuthState, evs: seq<AuthEvent>): AuthState
    decreases |evs|
  {
    if evs == [] then s else Replay(Step(s, evs[0]), evs[1..])
  }

  /** Loading ends with the first event and never comes back, and the
      context then reflects the last event alone. */
  lemma {:induction false} ReplayLast(s: AuthState, evs: seq<AuthEvent>)
    requires evs != []
    ensures Replay(s, evs) == AuthState(UserAfter(evs[|evs| - 1]), false)
    decreases |evs|
  {
    if |evs| > 1 {
      ReplayLast(Step(s, evs[0]), evs[1..]);
      assert evs[1..][|evs[1..]| - 1] == evs[|evs| - 1];
    }
  }

  /** A user with no profile record, or whose lookup failed, has role "user";
      a signed-out user has none. */
  lemma RoleDefaults(uid: string, email: string, l: Lookup)
    ensures !l.Found? ==> UserAfter(SignedIn(uid, email, l)) == Some(User(uid, email, Some(Str("user"))))
    ensures l.Found? && "role" in l.profile ==> UserAfter(SignedIn(uid, email, l)).value.role == Some(l.profile["role"])
  {
  }

  class AuthProvider {
    var user: Option<User>
    var loading: bool

    constructor ()
      ensures user.None? && loading
    {
      user := None;
      loading := true;
    }

    /** The `onAuthStateChanged` callback. */
    method OnAuthStateChanged(ev: AuthEvent)
      modifies this
      ensures AuthState(user, loading) == Step(old(AuthState(user, loading)), ev)
      ensures !loading
    {
      match ev {
        case SignedOut =>
          user := None;
        case SignedIn(uid, email, lookup) =>
          user := Some(User(uid, email, RoleOf(lookup)));
      }
      loading := false;
    }
  }

  /** What a route guard renders. */
  datatype View = ShowLoading | ShowChildren | RedirectTo(path: string)
}
