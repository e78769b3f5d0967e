/** The pending-clients page (src/admin/pages/ClientsAdmin.jsx): an admin
    turns a client who registered through the services form into an account
    holder, deletes users, and searches both lists. */
module ClientsAdmin {
  import opened Wrappers
  import opened Text
  import opened Records
  import opened Lists
  import Store
  import opened Auth
  import opened AdminRouteGuard

  const TempPassword := "TempPassword123!"

  /** `client.password || 'TempPassword123!'` */
  function PasswordFor(client: Fields): string {
    if TextOf(client, "password") != "" then TextOf(client, "password") else TempPassword
  }

  /** The profile written to `users/<email>` (lines 66-72). */
  function ProfileFor(client: Fields, now: int): (r: Fields)
    ensures r.Keys <= {"name", "email", "phone", "role", "createdAt"}
    ensures Get(r, "name") == Get(client, "name") && Get(r, "email") == Get(client, "email")
    ensures Get(r, "phone") == Get(client, "phone")
    ensures Get(r, "role") == Some(Str("client"))
    ensures Truthy(Get(client, "createdAt")) ==> Get(r, "createdAt") == Get(client, "createdAt")
    ensures !Truthy(Get(client, "createdAt")) ==> Get(r, "createdAt") == Some(LocalDate(now))
  {
    var f := Put(Put(Put(map[], "name", Get(client, "name")), "email", Get(client, "email")), "phone", Get(client, "phone"));
    f["role" := Str("client")]["createdAt" := FirstTruthy([Get(client, "createdAt")], LocalDate(now))]
  }

  /** The record appended to the users list (lines 81-86): no id and no `createdAt`. */
  function ListedUser(client: Fields): (r: Fields)
    ensures r.Keys <= {"name", "email", "phone", "role"}
    ensures forall k :: k in {"name", "email", "phone"} ==> Get(r, k) == Get(client, k)
    ensures Get(r, "role") == Some(Str("client"))
  {
    Put(Put(Put(map[], "name", Get(client, "name")), "email", Get(client, "email")), "phone", Get(client, "phone"))["role" := Str("client")]
  }

  /** The four backend steps of lines 57-75, each with its own oracle. The
      result is the store after the steps that went through, and whether all
      four did; a failed step leaves the earlier ones in place. */
  function Promote(db: Store.Db, client: Doc, now: int, okCreate: bool, okMail: bool, okSet: bool, okDelete: bool): (Store.Db, bool) {
    var email := TextOf(client.fields, "email");
    match Store.CreateAccount(db, email, PasswordFor(client.fields), okCreate)
    case None => (db, false)
    case Some(d1) =>
      match Store.SendReset(d1, email, okMail)
      case None => (d1, false)
      case Some(d2) =>
        match Store.Set(d2, Store.Users, email, ProfileFor(client.fields, now), okSet)
        case None => (d2, false)
        case Some(d3) =>
          match Store.Delete(d3, Store.Clients, client.id, okDelete)
          case None => (d3, false)
          case Some(d4) => (d4, true)
  }

  /** Whether the identity provider takes the new account. */
  predicate AccountAccepted(db: Store.Db, client: Doc, okCreate: bool) {
    Store.CreateAccount(db, TextOf(client.fields, "email"), PasswordFor(client.fields), okCreate).Some?
  }

  /** A completed promotion leaves an account and a reset mail for the
      client's email, the profile under `users/<email>`, and no pending
      client record; every other record is as it was. */
  lemma PromoteComplete(db: Store.Db, client: Doc, now: int, okCreate: bool, okMail: bool, okSet: bool, okDelete: bool)
    ensures var (r, done) := Promote(db, client, now, okCreate, okMail, okSet, okDelete);
            var email := TextOf(client.fields, "email");
            (done <==> AccountAccepted(db, client, okCreate) && okMail && okSet && okDelete)
            && (done ==>
                  r.accounts == db.accounts[email := PasswordFor(client.fields)]
                  && r.resetMails == db.resetMails + [email]
                  && r.docs == db.docs[(Store.Users, email) := ProfileFor(client.fields, now)] - {(Store.Clients, client.id)})
            && (!AccountAccepted(db, client, okCreate) ==> r == db)
  {
  }

  /** Once the account exists, a failure in a later step cannot be retried
      from this page: the identity provider refuses the email from then on,
      and the retry changes nothing. */
  lemma {:induction false} RetryAfterPartialFailure(db: Store.Db, client: Doc, now: int,
      okCreate: bool, okMail: bool, okSet: bool, okDelete: bool,
      now2: int, okCreate2: bool, okMail2: bool, okSet2: bool, okDelete2: bool)
    requires AccountAccepted(db, client, okCreate)
    ensures var r := Promote(db, client, now, okCreate, okMail, okSet, okDelete).0;
            Promote(r, client, now2, okCreate2, okMail2, okSet2, okDelete2) == (r, false)
  {
    var email := TextOf(client.fields, "email");
    var r := Promote(db, client, now, okCreate, okMail, okSet, okDelete).0;
    var d1 := Store.CreateAccount(db, email, PasswordFor(client.fields), okCreate).value;
    assert email in d1.accounts;
    assert r.accounts == d1.accounts;
    assert !AccountAccepted(r, client, okCreate2);
  }

  /** The profile is stored under the email, while the authentication
      context reads `users/<uid>`: a promoted client who signs in is given
      the role "user", never "client". */
  lemma PromotedRoleUnseen(db: Store.Db, client: Doc, now: int, okCreate: bool, okMail: bool, okSet: bool, okDelete: bool, uid: string)
    requires uid != TextOf(client.fields, "email") && (Store.Users, uid) !in db.docs
    ensures var r := Promote(db, client, now, okCreate, okMail, okSet, okDelete).0;
            RoleOf(LookupProfile(r, uid, true)) == Some(Str("user"))
  {
    PromoteComplete(db, client, now, okCreate, okMail, okSet, okDelete);
  }

  /** The admin's authentication state after the first step of a promotion
      (lines 57-61). `createUserWithEmailAndPassword` on the app's own `auth`
      signs the new account in, so the authentication context runs for it:
      `uid` is the id the identity provider gives the account and `lookup`
      the profile read for it. `secondary` says whether the account is made
      through a separate authentication instance, which the page does not do. */
  function SessionAfterCreate(s: AuthState, accepted: bool, uid: string, email: string,
                              lookup: Lookup, secondary: bool): (r: AuthState)
    ensures !accepted || secondary ==> r == s
    ensures accepted && !secondary ==>
              !r.loading && r.user == Some(User(uid, email, RoleOf(lookup)))
  {
    if accepted && !secondary then Step(s, SignedIn(uid, email, lookup)) else s
  }

  /** As written, an accepted promotion signs the admin out in favour of the
      new client: its uid has no profile (the profile is written under the
      email), so the role resolves to "user" and the admin guard sends the
      session to "/appointments", whatever the admin's own state was. */
  lemma PromotionSignsAdminOut(s: AuthState, db: Store.Db, client: Doc, okCreate: bool,
                               uid: string, lookupDb: Store.Db, readOk: bool)
    requires AccountAccepted(db, client, okCreate)
    requires (Store.Users, uid) !in lookupDb.docs
    ensures var email := TextOf(client.fields, "email");
            var r := SessionAfterCreate(s, true, uid, email, LookupProfile(lookupDb, uid, readOk), false);
            r.user == Some(User(uid, email, Some(Str("user"))))
            && AdminRoute(r.loading, r.user) == RedirectTo("/appointments")
  {
  }

  /** Made through a separate authentication instance, the account leaves
      the session alone: an admin the guard admitted is still admitted. */
  lemma SecondaryAuthKeepsAdmin(s: AuthState, db: Store.Db, client: Doc, okCreate: bool,
                                uid: string, lookup: Lookup)
    requires AdminRoute(s.loading, s.user) == ShowChildren
    ensures var r := SessionAfterCreate(s, AccountAccepted(db, client, okCreate), uid,
                                        TextOf(client.fields, "email"), lookup, true);
            r == s && AdminRoute(r.loading, r.user) == ShowChildren
  {
  }

  /** `(x || '').toLowerCase().includes(term.toLowerCase())` for the name,
      the email or the phone (lines 109-121). */
  predicate TermMatches(term: string, f: Fields) {
    Includes(Lower(TextOf(f, "name")), Lower(term))
    || Includes(Lower(TextOf(f, "email")), Lower(term))
    || Includes(Lower(TextOf(f, "phone")), Lower(term))
  }

  function MatchesTerm(term: string): Doc -> bool {
    (d: Doc) => TermMatches(term, d.fields)
  }

  /** An empty search lists everyone. */
  lemma EmptyTermKeepsAll(xs: seq<Doc>)
    ensures Filter(xs, MatchesTerm("")) == xs
  {
    forall d | d in xs
      ensures MatchesTerm("")(d)
    {
      assert StartsWith(Lower(TextOf(d.fields, "name")), "");
    }
    FilterAll(xs, MatchesTerm(""));
  }

  /** Searching for a client's own email finds them, before and after the
      promotion. */
  lemma EmailFindsClient(client: Fields)
    ensures TermMatches(TextOf(client, "email"), client)
    ensures TermMatches(TextOf(client, "email"), ListedUser(client))
  {
    var e := Lower(TextOf(client, "email"));
    assert StartsWith(e, e);
    assert TextOf(ListedUser(client), "email") == TextOf(client, "email");
  }

  class ClientsAdminPage {
    var db: Store.Db
    var clients: seq<Doc>
    var users: seq<Doc>
    var loading: bool
    var searchTerm: string
    var error: string
    var success: string

    constructor (db: Store.Db)
      ensures this.db == db && clients == [] && users == [] && loading
      ensures searchTerm == "" && error == "" && success == ""
    {
      this.db := db;
      clients := [];
      users := [];
      loading := true;
      searchTerm := "";
      error := "";
      success := "";
    }

    /** The mount effect: clients first, then users; the first failed read
        stops it with "Failed to load data.". */
    method Load(okClients: bool, clientSnap: seq<Doc>, okUsers: bool, userSnap: seq<Doc>)
      requires Store.IsSnapshot(db, Store.Clients, (f: Fields) => true, clientSnap)
      requires Store.IsSnapshot(db, Store.Users, (f: Fields) => true, userSnap)
      modifies this`clients, this`users, this`loading, this`error
      ensures !loading
      ensures clients == (if okClients then clientSnap else old(clients))
      ensures users == (if okClients && okUsers then userSnap else old(users))
      ensures error == (if okClients && okUsers then old(error) else "Failed to load data.")
    {
      loading := true;
      if okClients {
        clients := clientSnap;
        if okUsers {
          users := userSnap;
        } else {
          error := "Failed to load data.";
        }
      } else {
        error := "Failed to load data.";
      }
      loading := false;
    }

    /** `handleCreateAccount`; `errMsg` is the message of the step that failed. */
    method CreateAccountFor(client: Doc, confirmed: bool, now: int,
                            okCreate: bool, okMail: bool, okSet: bool, okDelete: bool, errMsg: string)
      modifies this`db, this`clients, this`users, this`error, this`success
      ensures !confirmed ==> db == old(db) && clients == old(clients) && users == old(users) && error == "" && success == ""
      ensures confirmed ==>
                var (r, done) := Promote(old(db), client, now, okCreate, okMail, okSet, okDelete);
                db == r
                && (done ==> clients == RemoveById(old(clients), client.id)
                             && users == old(users) + [Doc("", ListedUser(client.fields))]
                             && error == ""
                             && success == "Account created and email sent to " + TextOf(client.fields, "email"))
                && (!done ==> clients == old(clients) && users == old(users)
                              && error == "Failed to create account: " + errMsg && success == "")
    {
      error := "";
      success := "";
      if !confirmed {
        return;
      }
      var email := TextOf(client.fields, "email");
      var step := Store.CreateAccount(db, email, PasswordFor(client.fields), okCreate);
      if step.Some? {
        db := step.value;
        step := Store.SendReset(db, email, okMail);
        if step.Some? {
          db := step.value;
          step := Store.Set(db, Store.Users, email, ProfileFor(client.fields, now), okSet);
          if step.Some? {
            db := step.value;
            step := Store.Delete(db, Store.Clients, client.id, okDelete);
            if step.Some? {
              db := step.value;
              clients := RemoveById(clients, client.id);
              users := users + [Doc("", ListedUser(client.fields))];
              success := "Account created and email sent to " + email;
              return;
            }
          }
        }
      }
      error := "Failed to create account: " + errMsg;
    }

    /** `handleDeleteUser`. A user appended after a promotion has no id, and
        the backend refuses to address it. */
    method DeleteUser(user: Doc, confirmed: bool, ok: bool, errMsg: string)
      modifies this`db, this`users, this`error, this`success
      ensures !confirmed ==> db == old(db) && users == old(users) && error == old(error) && success == old(success)
      ensures confirmed && ok && user.id != "" ==>
                db == Store.Delete(old(db), Store.Users, user.id, true).value
                && users == RemoveById(old(users), user.id)
                && success == "User " + TextOf(user.fields, "name") + " deleted" && error == old(error)
      ensures confirmed && !(ok && user.id != "") ==>
                db == old(db) && users == old(users)
                && error == "Failed to delete user: " + errMsg && success == old(success)
    {
      if !confirmed {
        return;
      }
      if ok && user.id != "" {
        db := Store.Delete(db, Store.Users, user.id, true).value;
        users := RemoveById(users, user.id);
        success := "User " + TextOf(user.fields, "name") + " deleted";
      } else {
        error := "Failed to delete user: " + errMsg;
      }
    }

    function FilteredClients(): (r: seq<Doc>)
      reads this
      ensures forall d :: d in r <==> d in clients && TermMatches(searchTerm, d.fields)
    {
      Filter(clients, MatchesTerm(searchTerm))
    }

    function FilteredUsers(): (r: seq<Doc>)
      reads this
      ensures forall d :: d in r <==> d in users && TermMatches(searchTerm, d.fields)
    {
      Filter(users, MatchesTerm(searchTerm))
    }
  }
}
