/** The sign-up page (src/pages/Register.jsx): email and password sign-up,
    and Google sign-up, each ending with a profile under `users/<uid>`. */
module Register {
  import opened Wrappers
  import opened Text
  import opened Records
  import Store
  import opened Auth
  import opened AdminRouteGuard
  import Login
  import Services

  /** The checks of lines 25-33, in order; `password.length` counts UTF-16 code units. */
  function RegisterError(password: string, confirm: string): (r: Option<string>)
    ensures r.None? <==> password == confirm && Utf16Length(password) >= 6
    ensures password != confirm ==> r == Some("Passwords do not match")
    ensures password == confirm && Utf16Length(password) < 6 ==> r == Some("Password must be at least 6 characters")
  {
    if password != confirm then Some("Passwords do not match")
    else if Utf16Length(password) < 6 then Some("Password must be at least 6 characters")
    else None
  }

  /** Lines 44-49. */
  function ProfileFields(uid: string, email: string): (r: Fields)
    ensures r.Keys == {"uid", "email", "role", "createdAt"}
    ensures r["role"] == Str("normal") && r["uid"] == Str(uid)
  {
    map["uid" := Str(uid), "email" := Str(email), "role" := Str("normal"), "createdAt" := ServerTime]
  }

  /** Lines 73-79: `name: user.displayName || ''`. */
  function GoogleProfileFields(uid: string, email: string, displayName: Option<string>): (r: Fields)
    ensures r.Keys == {"uid", "email", "name", "role", "createdAt"}
    ensures r["role"] == Str("normal")
    ensures displayName.Some? ==> r["name"] == Str(displayName.value)
    ensures displayName.None? ==> r["name"] == Str("")
  {
    var name := if displayName.Some? then displayName.value else "";
    map["uid" := Str(uid), "email" := Str(email), "name" := Str(name), "role" := Str("normal"), "createdAt" := ServerTime]
  }

  /** A user who signs up here signs in to the client area and is kept out
      of the admin pages. */
  lemma SignedUpUsersAreClients(db: Store.Db, uid: string, email: string)
    ensures var l := LookupProfile(db.(docs := db.docs[(Store.Users, uid) := ProfileFields(uid, email)]), uid, true);
            l == Found(ProfileFields(uid, email))
            && RoleOf(l) == Some(Str("normal"))
            && Login.Destination(l) == Some("/appointments")
            && AdminRoute(false, UserAfter(SignedIn(uid, email, l))) == RedirectTo("/appointments")
  {
  }

  /** A password of six or more blanks is accepted here but refused by the
      services form, which trims before measuring. */
  lemma BlankPasswordsDiffer(p: string)
    requires IsBlank(p) && Utf16Length(p) >= 6
    ensures RegisterError(p, p).None?
    ensures !Services.LongEnough(p)
  {
    TrimEmptyIffBlank(p);
  }

  class RegisterPage {
    var db: Store.Db
    var email: string
    var password: string
    var confirmPassword: string
    var error: string
    var loading: bool
    var navigatedTo: Option<string>

    constructor (db: Store.Db)
      ensures this.db == db && email == "" && password == "" && confirmPassword == ""
      ensures error == "" && !loading && navigatedTo.None?
    {
      this.db := db;
      email := "";
      password := "";
      confirmPassword := "";
      error := "";
      loading := false;
      navigatedTo := None;
    }

    /** `handleSubmit`: `uid` is the identifier the identity provider assigns
        and `errMsg` the message of the step that failed. An account created
        before a failed profile write stays. */
    method Submit(uid: string, okCreate: bool, okSet: bool, errMsg: string)
      modifies this`db, this`error, this`loading, this`navigatedTo
      ensures RegisterError(password, confirmPassword).Some? ==>
                error == RegisterError(password, confirmPassword).value
                && db == old(db) && loading == old(loading) && navigatedTo == old(navigatedTo)
      ensures RegisterError(password, confirmPassword).None? ==> !loading
      ensures RegisterError(password, confirmPassword).None? ==>
                var created := Store.CreateAccount(old(db), email, password, okCreate);
                if created.None? then
                  db == old(db) && error == errMsg && navigatedTo == old(navigatedTo)
                else if !okSet then
                  db == created.value && error == errMsg && navigatedTo == old(navigatedTo)
                else
                  db == Store.Set(created.value, Store.Users, uid, ProfileFields(uid, email), true).value
                  && error == "" && navigatedTo == Some("/appointments")
    {
      error := "";
      var e := RegisterError(password, confirmPassword);
      if e.Some? {
        error := e.value;
        return;
      }
      loading := true;
      var created := Store.CreateAccount(db, email, password, okCreate);
      if created.None? {
        error := errMsg;
      } else {
        db := created.value;
        var written := Store.Set(db, Store.Users, uid, ProfileFields(uid, email), okSet);
        if written.None? {
          error := errMsg;
        } else {
          db := written.value;
          navigatedTo := Some("/appointments");
        }
      }
      loading := false;
    }

    /** `handleGoogleSignUp`: a profile is written only when none exists, so
        an existing profile, and its role, is kept. */
    method GoogleSignUp(okPopup: bool, uid: string, googleEmail: string, displayName: Option<string>,
                        readOk: bool, okSet: bool, errMsg: string)
      modifies this`db, this`error, this`loading, this`navigatedTo
      ensures !loading
      ensures !okPopup || !readOk ==> db == old(db) && error == errMsg && navigatedTo == old(navigatedTo)
      ensures okPopup && readOk && (Store.Users, uid) in old(db).docs ==>
                db == old(db) && error == "" && navigatedTo == Some("/appointments")
      ensures okPopup && readOk && (Store.Users, uid) !in old(db).docs ==>
                if okSet then
                  db == Store.Set(old(db), Store.Users, uid, GoogleProfileFields(uid, googleEmail, displayName), true).value
                  && error == "" && navigatedTo == Some("/appointments")
                else
                  db == old(db) && error == errMsg && navigatedTo == old(navigatedTo)
    {
      error := "";
      loading := true;
      if !okPopup {
        error := errMsg;
      } else {
        var l := LookupProfile(db, uid, readOk);
        if l.Failed? {
          error := errMsg;
        } else if l.Found? {
          navigatedTo := Some("/appointments");
        } else {
          var written := Store.Set(db, Store.Users, uid, GoogleProfileFields(uid, googleEmail, displayName), okSet);
          if written.None? {
            error := errMsg;
          } else {
            db := written.value;
            navigatedTo := Some("/appointments");
          }
        }
      }
      loading := false;
    }
  }
}
