/** The services page's registration form (src/components/Services.jsx): a
    prospective client leaves their details in `clients` for an admin to
    promote later. */
module Services {
  import opened Wrappers
  import opened Text
  import opened Records
  import Store
  import ClientAppointments
  import ClientsAdmin

  datatype ClientForm = ClientForm(name: string, email: string, age: string, phone: string,
                                   location: string, password: string, confirmPassword: string)

  const EmptyForm := ClientForm("", "", "", "", "", "", "")

  /** `/^254\d{9}$/.test(phone)` */
  predicate ValidPhone(p: string) {
    |p| == 12 && StartsWith(p, "254") && AllDigits(p[3..])
  }

  /** `str.trim().length >= 6`, the length in UTF-16 code units. */
  predicate LongEnough(s: string) {
    Utf16Length(Trim(s)) >= 6
  }

  /** The checks of lines 62-75, in order; `None` when the form is accepted. */
  function FormError(f: ClientForm): (r: Option<string>)
    ensures r.None? <==> ValidPhone(f.phone) && LongEnough(f.password) && f.password == f.confirmPassword
    ensures !ValidPhone(f.phone) ==> r == Some("Phone number must be in the format 2547XXXXXXXX.")
    ensures ValidPhone(f.phone) && !LongEnough(f.password) ==> r == Some("Password must be at least 6 characters.")
    ensures ValidPhone(f.phone) && LongEnough(f.password) && f.password != f.confirmPassword ==>
              r == Some("Passwords do not match!")
  {
    if !ValidPhone(f.phone) then Some("Phone number must be in the format 2547XXXXXXXX.")
    else if !LongEnough(f.password) then Some("Password must be at least 6 characters.")
    else if f.password != f.confirmPassword then Some("Passwords do not match!")
    else None
  }

  /** The record added to `clients` (lines 78-86): the confirmation is not stored. */
  function ClientFields(f: ClientForm): (r: Fields)
    ensures r.Keys == {"name", "email", "age", "phone", "location", "password", "createdAt"}
    ensures "confirmPassword" !in r && r["createdAt"] == ServerTime
    ensures TextOf(r, "phone") == f.phone && TextOf(r, "email") == f.email && TextOf(r, "password") == f.password
  {
    map["name" := Str(f.name), "email" := Str(f.email), "age" := Str(f.age), "phone" := Str(f.phone),
        "location" := Str(f.location), "password" := Str(f.password), "createdAt" := ServerTime]
  }

  /** Every number the booking form accepts passes here too ... */
  lemma WhatsAppNumbersPass(s: string)
    requires ClientAppointments.ValidWhatsApp(s)
    ensures ValidPhone(s)
  {
    assert s[..4][..3] == s[..3];
  }

  /** ... but this check is looser than its message: any digit may follow "254". */
  lemma PhoneRuleLooserThanMessage(n: string)
    requires |n| == 9 && AllDigits(n)
    ensures ValidPhone("254" + n)
    ensures ClientAppointments.ValidWhatsApp("254" + n) <==> n[0] == '7'
  {
    var s := "254" + n;
    assert s[..3] == "254";
    assert s[3..] == n;
    assert s[3] == n[0];
    if n[0] == '7' {
      assert s[..4] == "2547";
      assert s[4..] == n[1..];
    }
  }

  /** A client accepted here keeps their own password when promoted, and it
      is long enough for the identity provider. */
  lemma StoredPasswordUsable(f: ClientForm)
    requires FormError(f).None?
    ensures ClientsAdmin.PasswordFor(ClientFields(f)) == f.password && Utf16Length(f.password) >= 6
  {
    LongEnoughUntrimmed(f.password);
  }

  /** A password long enough once trimmed is long enough as typed. */
  lemma LongEnoughUntrimmed(p: string)
    requires LongEnough(p)
    ensures Utf16Length(p) >= 6
  {
    TrimShorter(p);
  }

  /** The store after the record of lines 78-86 is added (`None` when the write fails). */
  function Registered(db: Store.Db, f: ClientForm, newId: string, ok: bool): Option<Store.Db>
    requires (Store.Clients, newId) !in db.docs
  {
    Store.Add(db, Store.Clients, newId, ClientFields(f), ok)
  }

  class ServicesPage {
    var db: Store.Db
    var form: ClientForm
    var submitted: bool
    var error: string

    constructor (db: Store.Db)
      ensures this.db == db && form == EmptyForm && !submitted && error == ""
    {
      this.db := db;
      form := EmptyForm;
      submitted := false;
      error := "";
    }

    /** `handleSubmit`; `newId` is the id the backend assigns. */
    method Submit(newId: string, ok: bool)
      requires (Store.Clients, newId) !in db.docs
      modifies this`db, this`form, this`submitted, this`error
      ensures var e := FormError(old(form));
              var r := Registered(old(db), old(form), newId, ok);
              if e.Some? then
                error == e.value && !submitted && form == old(form) && db == old(db)
              else if r.Some? then
                db == r.value && submitted && form == EmptyForm && error == ""
              else
                error == "Failed to register client. Please try again later." && !submitted
                && form == old(form) && db == old(db)
    {
      error := "";
      submitted := false;
      var e := FormError(form);
      if e.Some? {
        error := e.value;
        return;
      }
      Persist(newId, ok);
    }

    /** The write of an accepted form (lines 78-101). */
    method Persist(newId: string, ok: bool)
      requires (Store.Clients, newId) !in db.docs
      requires error == "" && !submitted
      modifies this`db, this`form, this`submitted, this`error
      ensures var r := Registered(old(db), old(form), newId, ok);
              if r.Some? then
                db == r.value && submitted && form == EmptyForm && error == ""
              else
                error == "Failed to register client. Please try again later." && !submitted
                && form == old(form) && db == old(db)
    {
      var r := Registered(db, form, newId, ok);
      if r.Some? {
        db := r.value;
        submitted := true;
        form := EmptyForm;
      } else {
        error := "Failed to register client. Please try again later.";
      }
    }
  }
}
