/** The admin dashboard (src/admin/AdminDashboard.jsx): the approved and
    rescheduled appointments, each enriched with a client name and phone
    found through a matching user, a status and text filter, and the
    WhatsApp and telephone links built from a normalised phone number. */
module Dashboard {
  import opened Wrappers
  import opened Text
  import opened Records
  import opened Lists
  import Store
  import ClientAppointments

  /** `formatPhoneNumber(phone)`: the digits, with a leading 0 replaced by the
      country code 254 and 254 put in front of anything else. */
  function FormatPhone(phone: string): string {
    if phone == "" then ""
    else
      var cleaned := Digits(phone);
      var cleaned := if StartsWith(cleaned, "0") then "254" + cleaned[1..] else cleaned;
      if !StartsWith(cleaned, "254") then "254" + cleaned else cleaned
  }

  /** The result is empty only for an empty input; otherwise it is all digits
      and starts with the country code. */
  lemma FormatPhoneShape(phone: string)
    ensures phone == "" ==> FormatPhone(phone) == ""
    ensures phone != "" ==> AllDigits(FormatPhone(phone)) && StartsWith(FormatPhone(phone), "254")
  {
    if phone != "" {
      var c := Digits(phone);
      var c2 := if StartsWith(c, "0") then "254" + c[1..] else c;
      assert AllDigits(c2);
      var r := if !StartsWith(c2, "254") then "254" + c2 else c2;
      assert r == FormatPhone(phone);
      assert AllDigits("254");
      assert AllDigits(r);
    }
  }

  /** A digit string that already starts with 254 is left as it is. */
  lemma FormatPhoneFixes(s: string)
    requires AllDigits(s) && StartsWith(s, "254")
    ensures FormatPhone(s) == s
  {
    assert s[0] == '2';
  }

  /** Normalising twice is normalising once. */
  lemma FormatPhoneIdempotent(phone: string)
    ensures FormatPhone(FormatPhone(phone)) == FormatPhone(phone)
  {
    FormatPhoneShape(phone);
    if phone != "" {
      FormatPhoneFixes(FormatPhone(phone));
    }
  }

  /** The three spellings of a Kenyan mobile number — with the trunk prefix
      0, bare, and with the country code — normalise to the same string. */
  lemma FormatPhoneSpellings(n: string)
    requires AllDigits(n) && n != [] && n[0] != '0' && n[0] != '2'
    ensures FormatPhone("0" + n) == "254" + n
    ensures FormatPhone(n) == "254" + n
    ensures FormatPhone("254" + n) == "254" + n
  {
    assert AllDigits("0" + n);
    assert ("0" + n)[1..] == n;
    assert !StartsWith(n, "254");
    FormatPhoneFixes("254" + n);
  }

  /** The number 0712345678 in its three spellings. */
  lemma FormatPhoneExamples()
    ensures FormatPhone("0" + "712345678") == "254" + "712345678"
    ensures FormatPhone("712345678") == "254" + "712345678"
    ensures FormatPhone("254" + "712345678") == "254" + "712345678"
  {
    assert AllDigits("712345678");
    FormatPhoneSpellings("712345678");
  }

  /** `formatPhoneNumber` as the component writes it, reassigning `cleaned`. */
  method FormatPhoneNumber(phone: string) returns (cleaned: string)
    ensures cleaned == FormatPhone(phone)
    ensures phone != "" ==> AllDigits(cleaned) && StartsWith(cleaned, "254")
  {
    FormatPhoneShape(phone);
    if phone == "" {
      return "";
    }
    cleaned := Digits(phone);
    if StartsWith(cleaned, "0") {
      cleaned := "254" + cleaned[1..];
    }
    if !StartsWith(cleaned, "254") {
      cleaned := "254" + cleaned;
    }
  }

  /** A number the booking form accepts is already in normal form. */
  lemma WhatsAppNumbersNormal(s: string)
    requires ClientAppointments.ValidWhatsApp(s)
    ensures FormatPhone(s) == s
  {
    assert s[..4][..3] == s[..3];
    FormatPhoneFixes(s);
  }

  /** `appt.status?.toLowerCase() === 'approved' || ... === 'rescheduled'` */
  predicate Eligible(appt: Doc) {
    "status" in appt.fields && appt.fields["status"].Str?
    && (Lower(appt.fields["status"].s) == "approved" || Lower(appt.fields["status"].s) == "rescheduled")
  }

  /** `u.phone === appt.phone || u.phoneNumber === appt.phone ||
      u.phone === appt.phoneNumber || u.userId === appt.userId`, where two
      missing fields are equal (`undefined === undefined`). */
  predicate MatchAsWritten(u: Doc, appt: Doc) {
    Get(u.fields, "phone") == Get(appt.fields, "phone")
    || Get(u.fields, "phoneNumber") == Get(appt.fields, "phone")
    || Get(u.fields, "phone") == Get(appt.fields, "phoneNumber")
    || Get(u.fields, "userId") == Get(appt.fields, "userId")
  }

  /** `users.find(...)` with the matching as written. */
  function MatchedUser(users: seq<Doc>, appt: Doc): Option<Doc> {
    Find(users, (u: Doc) => MatchAsWritten(u, appt))
  }

  /** The enriched record: `clientName` and `phone` fall back through the
      appointment's own fields, then the matched user's, then a default. */
  function Enrich(appt: Doc, matched: Option<Doc>): (r: Doc)
    ensures r.id == appt.id && r.fields.Keys == appt.fields.Keys + {"clientName", "phone"}
    ensures forall k :: k in appt.fields && k != "clientName" && k != "phone" ==> r.fields[k] == appt.fields[k]
    // clientName: appt.clientName || matchedUser?.userName || matchedUser?.name || 'Unnamed Client'
    ensures Truthy(Get(appt.fields, "clientName")) ==> r.fields["clientName"] == appt.fields["clientName"]
    ensures !Truthy(Get(appt.fields, "clientName")) && matched.Some? && Truthy(Get(matched.value.fields, "userName")) ==>
              r.fields["clientName"] == matched.value.fields["userName"]
    ensures !Truthy(Get(appt.fields, "clientName")) && matched.Some? && !Truthy(Get(matched.value.fields, "userName"))
            && Truthy(Get(matched.value.fields, "name")) ==>
              r.fields["clientName"] == matched.value.fields["name"]
    ensures !Truthy(Get(appt.fields, "clientName"))
            && (matched.None? || (!Truthy(Get(matched.value.fields, "userName")) && !Truthy(Get(matched.value.fields, "name")))) ==>
              r.fields["clientName"] == Str("Unnamed Client")
    // phone: appt.phone || appt.phoneNumber || matchedUser?.phone || matchedUser?.phoneNumber || ''
    ensures Truthy(Get(appt.fields, "phone")) ==> r.fields["phone"] == appt.fields["phone"]
    ensures !Truthy(Get(appt.fields, "phone")) && Truthy(Get(appt.fields, "phoneNumber")) ==>
              r.fields["phone"] == appt.fields["phoneNumber"]
    ensures !Truthy(Get(appt.fields, "phone")) && !Truthy(Get(appt.fields, "phoneNumber")) && matched.Some?
            && Truthy(Get(matched.value.fields, "phone")) ==>
              r.fields["phone"] == matched.value.fields["phone"]
    ensures !Truthy(Get(appt.fields, "phone")) && !Truthy(Get(appt.fields, "phoneNumber")) && matched.Some?
            && !Truthy(Get(matched.value.fields, "phone")) && Truthy(Get(matched.value.fields, "phoneNumber")) ==>
              r.fields["phone"] == matched.value.fields["phoneNumber"]
    ensures !Truthy(Get(appt.fields, "phone")) && !Truthy(Get(appt.fields, "phoneNumber"))
            && (matched.None? || (!Truthy(Get(matched.value.fields, "phone")) && !Truthy(Get(matched.value.fields, "phoneNumber")))) ==>
              r.fields["phone"] == Str("")
    ensures Truthy(Some(r.fields["clientName"]))
  {
    var mu := if matched.Some? then matched.value.fields else map[];
    Doc(appt.id, appt.fields["clientName" := ClientName(appt.fields, mu)]["phone" := ClientPhone(appt.fields, mu)])
  }

  /** `appt.clientName || matchedUser?.userName || matchedUser?.name || 'Unnamed Client'`,
      where `mu` is the matched user's record (empty when there is none). */
  function ClientName(appt: Fields, mu: Fields): (v: Value)
    ensures Truthy(Get(appt, "clientName")) ==> v == appt["clientName"]
    ensures !Truthy(Get(appt, "clientName")) && Truthy(Get(mu, "userName")) ==> v == mu["userName"]
    ensures !Truthy(Get(appt, "clientName")) && !Truthy(Get(mu, "userName")) && Truthy(Get(mu, "name")) ==> v == mu["name"]
    ensures !Truthy(Get(appt, "clientName")) && !Truthy(Get(mu, "userName")) && !Truthy(Get(mu, "name")) ==>
              v == Str("Unnamed Client")
  {
    var vs := [Get(appt, "clientName"), Get(mu, "userName"), Get(mu, "name")];
    assert vs[1..] == [vs[1], vs[2]] && vs[1..][1..] == [vs[2]] && vs[1..][1..][1..] == [];
    FirstTruthy(vs, Str("Unnamed Client"))
  }

  /** `appt.phone || appt.phoneNumber || matchedUser?.phone || matchedUser?.phoneNumber || ''` */
  function ClientPhone(appt: Fields, mu: Fields): (v: Value)
    ensures Truthy(Get(appt, "phone")) ==> v == appt["phone"]
    ensures !Truthy(Get(appt, "phone")) && Truthy(Get(appt, "phoneNumber")) ==> v == appt["phoneNumber"]
    ensures !Truthy(Get(appt, "phone")) && !Truthy(Get(appt, "phoneNumber")) && Truthy(Get(mu, "phone")) ==> v == mu["phone"]
    ensures (!Truthy(Get(appt, "phone")) && !Truthy(Get(appt, "phoneNumber")) && !Truthy(Get(mu, "phone"))
             && Truthy(Get(mu, "phoneNumber"))) ==> v == mu["phoneNumber"]
    ensures (!Truthy(Get(appt, "phone")) && !Truthy(Get(appt, "phoneNumber")) && !Truthy(Get(mu, "phone"))
             && !Truthy(Get(mu, "phoneNumber"))) ==> v == Str("")
  {
    var vs := [Get(appt, "phone"), Get(appt, "phoneNumber"), Get(mu, "phone"), Get(mu, "phoneNumber")];
    assert vs[1..] == [vs[1], vs[2], vs[3]] && vs[1..][1..] == [vs[2], vs[3]];
    assert vs[1..][1..][1..] == [vs[3]] && vs[1..][1..][1..][1..] == [];
    FirstTruthy(vs, Str(""))
  }

  function EnrichAll(appts: seq<Doc>, users: seq<Doc>): (r: seq<Doc>)
    ensures |r| == |appts|
    ensures forall i :: 0 <= i < |appts| ==> r[i] == Enrich(appts[i], MatchedUser(users, appts[i]))
  {
    if appts == [] then []
    else
      var rest := EnrichAll(appts[1..], users);
      assert forall i :: 1 <= i < |appts| ==> rest[i - 1] == Enrich(appts[i], MatchedUser(users, appts[i]));
      [Enrich(appts[0], MatchedUser(users, appts[0]))] + rest
  }

  /** A booking made on the client page has no `phone`, `phoneNumber` or `clientName`. */
  lemma BookingHasNoContactFields(uid: string, b: ClientAppointments.Booking)
    ensures var f := ClientAppointments.StoredBooking(uid, b);
            "phone" !in f && "phoneNumber" !in f && "clientName" !in f
  {
  }

  /** The matching as written pairs an appointment without a phone with the
      first user without a `phoneNumber`, whoever that is, and the card then
      shows that user's name and phone. */
  lemma PhonelessBookingTakesFirstUser(users: seq<Doc>, appt: Doc)
    requires users != [] && "phoneNumber" !in users[0].fields
    requires "phone" !in appt.fields && "phoneNumber" !in appt.fields && "clientName" !in appt.fields
    ensures MatchedUser(users, appt) == Some(users[0])
    ensures var r := Enrich(appt, MatchedUser(users, appt));
            r.fields["clientName"] == FirstTruthy([Get(users[0].fields, "userName"), Get(users[0].fields, "name")], Str("Unnamed Client"))
            && r.fields["phone"] == FirstTruthy([Get(users[0].fields, "phone")], Str(""))
  {
    assert MatchAsWritten(users[0], appt);
    var mu := users[0].fields;
    assert FirstTruthy([None, Get(mu, "userName"), Get(mu, "name")], Str("Unnamed Client"))
        == FirstTruthy([Get(mu, "userName"), Get(mu, "name")], Str("Unnamed Client"));
    assert FirstTruthy([None, None, Get(mu, "phone"), None], Str(""))
        == FirstTruthy([Get(mu, "phone"), None], Str(""));
    assert FirstTruthy([Get(mu, "phone"), None], Str("")) == FirstTruthy([Get(mu, "phone")], Str(""));
  }

  /** JavaScript equality restricted to a value that is present. */
  predicate SameDefined(a: Option<Value>, b: Option<Value>) {
    b.Some? && a == b
  }

  /** The matching as evidently intended: a field the appointment lacks
      matches nothing. */
  predicate MatchDefined(u: Doc, appt: Doc) {
    SameDefined(Get(u.fields, "phone"), Get(appt.fields, "phone"))
    || SameDefined(Get(u.fields, "phoneNumber"), Get(appt.fields, "phone"))
    || SameDefined(Get(u.fields, "phone"), Get(appt.fields, "phoneNumber"))
    || SameDefined(Get(u.fields, "userId"), Get(appt.fields, "userId"))
  }

  function MatchedUserDefined(users: seq<Doc>, appt: Doc): Option<Doc> {
    Find(users, (u: Doc) => MatchDefined(u, appt))
  }

  /** The corrected matching only pairs records that share a phone number or
      a user id, and it never pairs an appointment that has none of them. */
  lemma MatchDefinedSound(users: seq<Doc>, appt: Doc)
    ensures MatchedUserDefined(users, appt).Some? ==>
              var u := MatchedUserDefined(users, appt).value;
              u in users
              && (("phone" in appt.fields && (Get(u.fields, "phone") == Get(appt.fields, "phone") || Get(u.fields, "phoneNumber") == Get(appt.fields, "phone")))
                  || ("phoneNumber" in appt.fields && Get(u.fields, "phone") == Get(appt.fields, "phoneNumber"))
                  || ("userId" in appt.fields && Get(u.fields, "userId") == Get(appt.fields, "userId")))
    ensures "phone" !in appt.fields && "phoneNumber" !in appt.fields && "userId" !in appt.fields ==>
              MatchedUserDefined(users, appt).None?
  {
    FindFirst(users, (u: Doc) => MatchDefined(u, appt));
  }

  /** The status part of the filter: "all" (exactly) keeps everything,
      otherwise the lower-cased statuses must agree. */
  predicate StatusMatches(statusFilter: string, appt: Doc) {
    statusFilter == "all"
    || ("status" in appt.fields && appt.fields["status"].Str? && Lower(appt.fields["status"].s) == Lower(statusFilter))
  }

  /** `appt.key?.toLowerCase().includes(lower)` */
  predicate FieldIncludes(appt: Doc, key: string, lower: string) {
    key in appt.fields && appt.fields[key].Str? && Includes(Lower(appt.fields[key].s), lower)
  }

  /** The search part: a blank search keeps everything, otherwise the
      lower-cased search (untrimmed) must occur in the client name, the
      service or the phone. */
  predicate SearchMatches(search: string, appt: Doc) {
    Trim(search) == ""
    || FieldIncludes(appt, "clientName", Lower(search))
    || FieldIncludes(appt, "service", Lower(search))
    || FieldIncludes(appt, "phone", Lower(search))
  }

  /** The status filter ignores letter case, except that only the exact
      value "all" switches it off. */
  lemma StatusFilterIgnoresCase(statusFilter: string, appt: Doc)
    requires statusFilter != "all" && Lower(statusFilter) != "all"
    ensures StatusMatches(statusFilter, appt) <==> StatusMatches(Lower(statusFilter), appt)
  {
    LowerIdempotent(statusFilter);
  }

  /** The search ignores letter case: a search and its lower-cased form show
      the same cards. */
  lemma SearchIgnoresCase(search: string, appt: Doc)
    ensures SearchMatches(search, appt) <==> SearchMatches(Lower(search), appt)
  {
    LowerIdempotent(search);
    TrimEmptyIffBlank(search);
    TrimEmptyIffBlank(Lower(search));
    BlankIgnoresCase(search);
  }

  /** A card is shown when it passes both parts. */
  function ShownBy(statusFilter: string, search: string): Doc -> bool {
    (a: Doc) => StatusMatches(statusFilter, a) && SearchMatches(search, a)
  }

  function StatusBy(statusFilter: string): Doc -> bool {
    (a: Doc) => StatusMatches(statusFilter, a)
  }

  function SearchBy(search: string): Doc -> bool {
    (a: Doc) => SearchMatches(search, a)
  }

  /** With status "all" and a blank search every appointment is shown. */
  lemma AllAndBlankShowEverything(xs: seq<Doc>, search: string)
    requires IsBlank(search)
    ensures Filter(xs, ShownBy("all", search)) == xs
  {
    TrimEmptyIffBlank(search);
    FilterAll(xs, ShownBy("all", search));
  }

  /** The order the cards are listed in, by an abstract time key. */
  function KeyLe(key: Doc -> int): (Doc, Doc) -> bool {
    (a: Doc, b: Doc) => key(a) <= key(b)
  }

  /** The signed-in admin's own record: `u.email === user?.email || u.userId === user?.uid`. */
  function IsSelf(uid: string, email: string): Doc -> bool {
    (u: Doc) => Get(u.fields, "email") == Some(Str(email)) || Get(u.fields, "userId") == Some(Str(uid))
  }

  /** The welcome name: the matching user's `userName || name || 'Admin'`;
      when no record matches, the name is left as it was. */
  function WelcomeName(users: seq<Doc>, uid: string, email: string, current: Value): (r: Value)
    ensures var m := Find(users, IsSelf(uid, email));
            && (m.None? ==> r == current)
            && (m.Some? && Truthy(Get(m.value.fields, "userName")) ==> r == m.value.fields["userName"])
            && (m.Some? && !Truthy(Get(m.value.fields, "userName")) && Truthy(Get(m.value.fields, "name")) ==>
                  r == m.value.fields["name"])
            && (m.Some? && !Truthy(Get(m.value.fields, "userName")) && !Truthy(Get(m.value.fields, "name")) ==>
                  r == Str("Admin"))
  {
    match Find(users, IsSelf(uid, email))
    case None => current
    case Some(u) =>
      var vs := [Get(u.fields, "userName"), Get(u.fields, "name")];
      assert vs[1..] == [vs[1]] && vs[1..][1..] == [];
      FirstTruthy(vs, Str("Admin"))
  }

  /** The name is taken from the first user whose email or uid is the
      signed-in user's, and it is never blank. */
  lemma WelcomeNameFromFirstSelf(users: seq<Doc>, uid: string, email: string, current: Value, i: nat)
    requires i < |users| && IsSelf(uid, email)(users[i])
    requires forall j :: 0 <= j < i ==> !IsSelf(uid, email)(users[j])
    ensures Find(users, IsSelf(uid, email)) == Some(users[i])
    ensures Truthy(Some(WelcomeName(users, uid, email, current)))
  {
    FindFirst(users, IsSelf(uid, email));
  }

  /** What the Engage and Call buttons do. */
  datatype Action = Alert(message: string) | OpenWhatsApp(number: string) | Dial(uri: string)

  /** `handleEngage(appt)`; the greeting text of the message is not modelled. */
  function Engage(appt: Doc): (r: Action)
    ensures !Truthy(Get(appt.fields, "phone")) <==> r == Alert("No phone number found for this client.")
    ensures r.OpenWhatsApp? ==> r.number == FormatPhone(TextOf(appt.fields, "phone"))
    ensures Truthy(Get(appt.fields, "phone")) ==> r == OpenWhatsApp(FormatPhone(TextOf(appt.fields, "phone")))
  {
    if !Truthy(Get(appt.fields, "phone")) then Alert("No phone number found for this client.")
    else OpenWhatsApp(FormatPhone(TextOf(appt.fields, "phone")))
  }

  /** `handleCall(appt)`: `tel:+` followed by the normalised number. */
  function Call(appt: Doc): (r: Action)
    ensures !Truthy(Get(appt.fields, "phone")) <==> r == Alert("No phone number available for this client.")
    ensures r.Dial? ==> r.uri == "tel:+" + FormatPhone(TextOf(appt.fields, "phone"))
    ensures Truthy(Get(appt.fields, "phone")) ==> r == Dial("tel:+" + FormatPhone(TextOf(appt.fields, "phone")))
  {
    if !Truthy(Get(appt.fields, "phone")) then Alert("No phone number available for this client.")
    else Dial("tel:+" + FormatPhone(TextOf(appt.fields, "phone")))
  }

  /** For a phone held as text, Engage opens WhatsApp on a number in the
      form wa.me expects: the country code 254 followed by digits only. */
  lemma EngageOpensWhatsApp(appt: Doc)
    requires "phone" in appt.fields && appt.fields["phone"].Str? && appt.fields["phone"].s != ""
    ensures Engage(appt).OpenWhatsApp?
    ensures var n := Engage(appt).number;
            StartsWith(n, "254") && AllDigits(n)
  {
    FormatPhoneShape(appt.fields["phone"].s);
  }

  /** For a phone held as text, the dialled URI is a global number in the
      sense of section 5.1.4 of RFC 3966: "+" then digits only, here starting
      with the country code 254. */
  lemma CallIsGlobalNumber(appt: Doc)
    requires "phone" in appt.fields && appt.fields["phone"].Str? && appt.fields["phone"].s != ""
    ensures Call(appt).Dial?
    ensures var uri := Call(appt).uri;
            StartsWith(uri, "tel:+254") && AllDigits(uri[5..])
  {
    var n := FormatPhone(appt.fields["phone"].s);
    FormatPhoneShape(appt.fields["phone"].s);
    var uri := "tel:+" + n;
    assert uri[5..] == n;
    assert uri[..8] == "tel:+" + n[..3];
  }

  class DashboardPage {
    /** The signed-in user's uid and email, when there is one. */
    var user: Option<(string, string)>
    var db: Store.Db
    var appointments: seq<Doc>
    var users: seq<Doc>
    var filtered: seq<Doc>
    var loading: bool
    var search: string
    var statusFilter: string
    var userName: Value

    constructor (user: Option<(string, string)>, db: Store.Db)
      ensures this.user == user && this.db == db
      ensures appointments == [] && users == [] && filtered == [] && loading
      ensures search == "" && statusFilter == "all" && userName == Str("Admin")
    {
      this.user := user;
      this.db := db;
      appointments := [];
      users := [];
      filtered := [];
      loading := true;
      search := "";
      statusFilter := "all";
      userName := Str("Admin");
    }

    /** The users effect: it runs only with a signed-in user; a failed read
        changes nothing. */
    method LoadUsers(ok: bool, snap: seq<Doc>)
      requires Store.IsSnapshot(db, Store.Users, (f: Fields) => true, snap)
      modifies this`users, this`userName
      ensures user.None? || !ok ==> users == old(users) && userName == old(userName)
      ensures user.Some? && ok ==> users == snap && userName == WelcomeName(snap, user.value.0, user.value.1, old(userName))
    {
      if user.None? || !ok {
        return;
      }
      users := snap;
      userName := WelcomeName(snap, user.value.0, user.value.1, userName);
    }

    /** The appointments effect. It runs only once some user is loaded, so
        with no users `loading` never becomes false. `key` stands for the
        time the card's date and time parse to. */
    method LoadAppointments(ok: bool, snap: seq<Doc>, key: Doc -> int)
      requires Store.IsSnapshot(db, Store.Appointments, (f: Fields) => true, snap)
      modifies this`appointments, this`filtered, this`loading
      ensures |users| == 0 ==> appointments == old(appointments) && filtered == old(filtered) && loading == old(loading)
      ensures |users| > 0 ==> !loading
      ensures |users| > 0 && !ok ==> appointments == old(appointments) && filtered == old(filtered)
      ensures |users| > 0 && ok ==>
                appointments == SortBy(EnrichAll(Filter(snap, Eligible), users), KeyLe(key))
                && filtered == appointments
    {
      ShowAppointments(ok, SortBy(EnrichAll(Filter(snap, Eligible), users), KeyLe(key)));
    }

    /** The state updates of the appointments effect, given the enriched and sorted list. */
    method ShowAppointments(ok: bool, list: seq<Doc>)
      modifies this`appointments, this`filtered, this`loading
      ensures |users| == 0 ==> appointments == old(appointments) && filtered == old(filtered) && loading == old(loading)
      ensures |users| > 0 ==> !loading
      ensures |users| > 0 && !ok ==> appointments == old(appointments) && filtered == old(filtered)
      ensures |users| > 0 && ok ==> appointments == list && filtered == list
    {
      if |users| == 0 {
        return;
      }
      if ok {
        appointments := list;
        filtered := list;
      }
      loading := false;
    }

    /** The filter effect: it copies the list, applies the status filter
        unless it is "all", then the search unless it is blank. */
    method ApplyFilters()
      modifies this`filtered
      ensures filtered == Filter(appointments, ShownBy(statusFilter, search))
    {
      var temp := appointments;
      if statusFilter != "all" {
        temp := Filter(temp, StatusBy(statusFilter));
      }
      if Trim(search) != "" {
        temp := Filter(temp, SearchBy(search));
      }
      var both := ShownBy(statusFilter, search);
      if statusFilter != "all" && Trim(search) != "" {
        FilterFilter(appointments, StatusBy(statusFilter), SearchBy(search), both);
      } else if statusFilter != "all" {
        FilterFilter(appointments, StatusBy(statusFilter), (a: Doc) => true, both);
        FilterAll(temp, (a: Doc) => true);
      } else if Trim(search) != "" {
        FilterFilter(appointments, (a: Doc) => true, SearchBy(search), both);
        FilterAll(appointments, (a: Doc) => true);
      } else {
        FilterAll(appointments, both);
      }
      filtered := temp;
    }
  }
}
