/** The backend collaborator: a document store keyed by (collection, id), the
    identity provider's accounts, and the password-reset mails it has sent.
    Every write takes an oracle `ok` saying whether the backend accepted it;
    a write that is not accepted changes nothing (`None`). */
module Store {
  import opened Wrappers
  import opened Records
  import Text

  datatype Coll = Users | Clients | Appointments | Testimonials | Blogs | BlogComments | Contacts

  datatype Db = Db(docs: map<(Coll, string), Fields>, accounts: map<string, string>, resetMails: seq<string>)

  /** `addDoc(collection(db, c), f)`, where `id` is the fresh id the backend assigns. */
  function Add(db: Db, c: Coll, id: string, f: Fields, ok: bool): (r: Option<Db>)
    requires (c, id) !in db.docs
    ensures r.Some? <==> ok
    ensures r.Some? ==> r.value.docs.Keys == db.docs.Keys + {(c, id)} && r.value.docs[(c, id)] == f
    ensures r.Some? ==> forall k :: k in db.docs ==> r.value.docs[k] == db.docs[k]
    ensures r.Some? ==> r.value.accounts == db.accounts && r.value.resetMails == db.resetMails
  {
    if ok then Some(db.(docs := db.docs[(c, id) := f])) else None
  }

  /** `updateDoc(doc(db, c, id), patch)`: a field-level merge; it fails when the
      document does not exist. */
  function Update(db: Db, c: Coll, id: string, patch: Fields, ok: bool): (r: Option<Db>)
    ensures r.Some? <==> ok && (c, id) in db.docs
    ensures r.Some? ==> r.value.docs.Keys == db.docs.Keys && r.value.docs[(c, id)] == db.docs[(c, id)] + patch
    ensures r.Some? ==> forall k :: k in db.docs && k != (c, id) ==> r.value.docs[k] == db.docs[k]
    ensures r.Some? ==> r.value.accounts == db.accounts && r.value.resetMails == db.resetMails
  {
    if ok && (c, id) in db.docs then Some(db.(docs := db.docs[(c, id) := db.docs[(c, id)] + patch])) else None
  }

  /** `updateDoc(doc(db, c, id), { [key]: increment(1) })`; a field that is
      missing or not a number becomes 1. */
  function Increment(db: Db, c: Coll, id: string, key: string, ok: bool): (r: Option<Db>)
    ensures r.Some? <==> ok && (c, id) in db.docs
    ensures r.Some? ==> r.value.docs.Keys == db.docs.Keys
    ensures r.Some? ==> CounterOf(r.value.docs[(c, id)], key) == CounterOf(db.docs[(c, id)], key) + 1
    ensures r.Some? ==> r.value.docs[(c, id)].Keys == db.docs[(c, id)].Keys + {key}
    ensures r.Some? ==> forall k :: k in db.docs[(c, id)] && k != key ==> r.value.docs[(c, id)][k] == db.docs[(c, id)][k]
    ensures r.Some? ==> forall k :: k in db.docs && k != (c, id) ==> r.value.docs[k] == db.docs[k]
    ensures r.Some? ==> r.value.accounts == db.accounts && r.value.resetMails == db.resetMails
  {
    if ok && (c, id) in db.docs then
      var f := db.docs[(c, id)];
      Some(db.(docs := db.docs[(c, id) := f[key := Num(CounterOf(f, key) + 1)]]))
    else None
  }

  /** `setDoc(doc(db, c, id), f)`: creates or overwrites the whole document. */
  function Set(db: Db, c: Coll, id: string, f: Fields, ok: bool): (r: Option<Db>)
    ensures r.Some? <==> ok
    ensures r.Some? ==> r.value.docs == db.docs[(c, id) := f]
    ensures r.Some? ==> r.value.accounts == db.accounts && r.value.resetMails == db.resetMails
  {
    if ok then Some(db.(docs := db.docs[(c, id) := f])) else None
  }

  /** `deleteDoc(doc(db, c, id))`: succeeds whether or not the document exists. */
  function Delete(db: Db, c: Coll, id: string, ok: bool): (r: Option<Db>)
    ensures r.Some? <==> ok
    ensures r.Some? ==> r.value.docs == db.docs - {(c, id)}
    ensures r.Some? ==> r.value.accounts == db.accounts && r.value.resetMails == db.resetMails
  {
    if ok then Some(db.(docs := db.docs - {(c, id)})) else None
  }

  /** `createUserWithEmailAndPassword(auth, email, password)`: refused for an
      empty email, an email already in use, or a password under six characters
      (counted in UTF-16 code units, as the client's own checks count). */
  function CreateAccount(db: Db, email: string, password: string, ok: bool): (r: Option<Db>)
    ensures r.Some? <==> ok && email != "" && email !in db.accounts && Text.Utf16Length(password) >= 6
    ensures r.Some? ==> r.value == db.(accounts := db.accounts[email := password])
  {
    if ok && email != "" && email !in db.accounts && Text.Utf16Length(password) >= 6
    then Some(db.(accounts := db.accounts[email := password]))
    else None
  }

  /** `sendPasswordResetEmail(auth, email)` */
  function SendReset(db: Db, email: string, ok: bool): (r: Option<Db>)
    ensures r.Some? <==> ok
    ensures r.Some? ==> r.value == db.(resetMails := db.resetMails + [email])
  {
    if ok then Some(db.(resetMails := db.resetMails + [email])) else None
  }

  /** `getDoc(doc(db, c, id))` when the read itself succeeds. */
  function Lookup(db: Db, c: Coll, id: string): Option<Fields> {
    if (c, id) in db.docs then Some(db.docs[(c, id)]) else None
  }

  function IdsOf(db: Db, c: Coll): set<string> {
    set k | k in db.docs.Keys && k.0 == c :: k.1
  }

  /** `getDocs(query(collection(db, c), where ...))` as a map from id to fields;
      the order of the result is the query engine's and is not modelled. */
  function Query(db: Db, c: Coll, keep: Fields -> bool): (r: map<string, Fields>)
    ensures forall id :: id in r <==> (c, id) in db.docs && keep(db.docs[(c, id)])
    ensures forall id :: id in r ==> r[id] == db.docs[(c, id)]
  {
    map id | id in IdsOf(db, c) && keep(db.docs[(c, id)]) :: db.docs[(c, id)]
  }

  /** `snap` is what `getDocs` returns for the query: each matching document
      once, with its id, in an order the backend chooses. */
  predicate IsSnapshot(db: Db, c: Coll, keep: Fields -> bool, snap: seq<Doc>) {
    var q := Query(db, c, keep);
    (forall i, j :: 0 <= i < j < |snap| ==> snap[i].id != snap[j].id)
    && (forall d :: d in snap ==> d.id in q && q[d.id] == d.fields)
    && (forall id :: id in q ==> Doc(id, q[id]) in snap)
  }
}
