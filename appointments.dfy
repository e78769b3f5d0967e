/** The client's appointments page (src/components/Appointments.jsx): booking,
    manual reschedule, revoke, delete, the answer to an admin's suggested time,
    and the client's testimonials. Each handler checks its inputs, makes one
    backend write and, only when that write succeeds, updates the page's list
    with a replace-by-id or remove-by-id. `alert` is the page's `notice`. */
module ClientAppointments {
  import opened Wrappers
  import opened Text
  import opened Records
  import opened Lists
  import Store

  const Doctor := "Dr. Jasmine Gatiba"

  /** `/^2547\d{8}$/.test(s)`: "2547" followed by exactly eight ASCII digits. */
  predicate ValidWhatsApp(s: string) {
    |s| == 12 && StartsWith(s, "2547") && AllDigits(s[4..])
  }

  datatype Booking = Booking(patientName: string, whatsapp: string, date: string, time: string, service: string)

  const EmptyBooking := Booking("", "", "", "", "")

  /** The checks of `handleBookingSubmit`, in the order they run. */
  function BookingError(user: Option<string>, b: Booking): (r: Option<string>)
    ensures r.None? <==> user.Some? && b.patientName != "" && b.whatsapp != "" && b.date != ""
                         && b.time != "" && b.service != "" && ValidWhatsApp(b.whatsapp)
    ensures user.None? ==> r == Some("Please login first.")
    ensures r == Some("WhatsApp must be in format 2547XXXXXXXX") ==> b.whatsapp != "" && !ValidWhatsApp(b.whatsapp)
  {
    if user.None? then Some("Please login first.")
    else if b.patientName == "" || b.whatsapp == "" || b.date == "" || b.time == "" || b.service == "" then
      Some("Please fill all appointment fields.")
    else if !ValidWhatsApp(b.whatsapp) then Some("WhatsApp must be in format 2547XXXXXXXX")
    else None
  }

  /** The fields of the booking both as stored and as kept in the page. */
  function BookingFields(b: Booking): Fields {
    map["patientName" := Str(b.patientName), "whatsapp" := Str(b.whatsapp), "date" := Str(b.date),
        "time" := Str(b.time), "service" := Str(b.service), "doctorName" := Str(Doctor),
        "status" := Str("approved")]
  }

  /** The stored appointment: it carries the owner's uid and a server timestamp. */
  function StoredBooking(uid: string, b: Booking): Fields {
    BookingFields(b)["userId" := Str(uid)]["createdAt" := ServerTime]
  }

  /** The record prepended to the page's list: no `userId`, a local date. */
  function LocalBooking(id: string, b: Booking, now: int): Doc {
    Doc(id, BookingFields(b)["createdAt" := LocalDate(now)])
  }

  /** The page's copy differs from the stored record only in `userId` and `createdAt`. */
  lemma LocalBookingMatchesStored(id: string, uid: string, b: Booking, now: int)
    ensures LocalBooking(id, b, now).fields - {"createdAt"} == StoredBooking(uid, b) - {"userId", "createdAt"}
    ensures "userId" !in LocalBooking(id, b, now).fields
    ensures HasText(StoredBooking(uid, b), "status", "approved") && HasText(StoredBooking(uid, b), "userId", uid)
  {
    assert "userId" !in BookingFields(b);
    assert "createdAt" !in BookingFields(b);
  }

  /** `where('userId', '==', uid)` */
  function OwnedBy(uid: string): Fields -> bool {
    (f: Fields) => HasText(f, "userId", uid)
  }

  /** The load-time order: `(a.date || '').localeCompare(b.date || '')`. */
  predicate DateLe(a: Doc, b: Doc) {
    LexLe(TextOf(a.fields, "date"), TextOf(b.fields, "date"))
  }

  /** The testimonial order: `(a.createdAt?.seconds || 0) - (b.createdAt?.seconds || 0)`. */
  predicate CreatedLe(a: Doc, b: Doc) {
    SecondsOf(a.fields) <= SecondsOf(b.fields)
  }

  lemma DateLeTotal()
    ensures TotalPreorder(DateLe)
  {
    forall a: Doc, b: Doc ensures DateLe(a, b) || DateLe(b, a) {
      LexLeTotal(TextOf(a.fields, "date"), TextOf(b.fields, "date"));
    }
    forall a: Doc, b: Doc, c: Doc | DateLe(a, b) && DateLe(b, c) ensures DateLe(a, c) {
      LexLeTransitive(TextOf(a.fields, "date"), TextOf(b.fields, "date"), TextOf(c.fields, "date"));
    }
  }

  /** `appts.sort(...)` at load time. */
  function ByDate(snap: seq<Doc>): seq<Doc> {
    SortBy(snap, DateLe)
  }

  /** `tests.sort(...)` at load time. */
  function ByCreated(snap: seq<Doc>): seq<Doc> {
    SortBy(snap, CreatedLe)
  }

  /** What the load leaves in the page: the user's appointments in date order. */
  lemma LoadedAppointmentsSorted(snap: seq<Doc>)
    ensures SortedBy(ByDate(snap), DateLe)
    ensures multiset(ByDate(snap)) == multiset(snap)
  {
    DateLeTotal();
    SortBySorted(snap, DateLe);
  }

  /** ... and the testimonials oldest first. */
  lemma LoadedTestimonialsSorted(snap: seq<Doc>)
    ensures SortedBy(ByCreated(snap), CreatedLe)
    ensures multiset(ByCreated(snap)) == multiset(snap)
  {
    SortBySorted(snap, CreatedLe);
  }

  /** The list is sorted only when it is loaded: a booking is prepended, so a
      later date can come to stand before an earlier one. */
  lemma PrependCanBreakDateOrder()
    ensures exists xs: seq<Doc>, b: Booking, id: string, now: int ::
              SortedBy(xs, DateLe) && !SortedBy([LocalBooking(id, b, now)] + xs, DateLe)
  {
    var earlier := Doc("a", map["date" := Str("1")]);
    var b := Booking("Ann", "254712345678", "2", "10:00", "Massage");
    var ys := [LocalBooking("b", b, 0)] + [earlier];
    assert TextOf(ys[0].fields, "date") == "2";
    assert !DateLe(ys[0], ys[1]);
    assert SortedBy([earlier], DateLe);
  }

  predicate IsPendingReschedule(a: Doc) {
    HasText(a.fields, "status", "pending reschedule")
  }

  /** `appts.find(a => a.status === 'pending reschedule')`: the appointment the
      suggestion prompt opens for. */
  function PendingPrompt(appts: seq<Doc>): Option<Doc> {
    Find(appts, IsPendingReschedule)
  }

  /** The prompt opens exactly when some appointment's status is, letter for
      letter, "pending reschedule", and then for the first such appointment. */
  lemma PendingPromptFirst(appts: seq<Doc>)
    ensures PendingPrompt(appts).Some? <==> exists i :: 0 <= i < |appts| && IsPendingReschedule(appts[i])
    ensures PendingPrompt(appts).Some? ==>
              exists i :: 0 <= i < |appts| && appts[i] == PendingPrompt(appts).value && IsPendingReschedule(appts[i])
                          && forall j :: 0 <= j < i ==> !IsPendingReschedule(appts[j])
  {
    FindFirst(appts, IsPendingReschedule);
  }

  /** The status the admin screen writes when it suggests a new time. */
  const SuggestedStatus := "Pending Reschedule"

  predicate IsSuggested(a: Doc) {
    HasText(a.fields, "status", SuggestedStatus)
  }

  /** The prompt as evidently intended: it looks for the status the admin
      screen actually writes. */
  function SuggestionPrompt(appts: seq<Doc>): Option<Doc> {
    Find(appts, IsSuggested)
  }

  /** The corrected prompt opens exactly when some appointment carries the
      admin's suggestion status, and then for the first of them. */
  lemma SuggestionPromptFirst(appts: seq<Doc>)
    ensures SuggestionPrompt(appts).Some? <==> exists i :: 0 <= i < |appts| && IsSuggested(appts[i])
    ensures SuggestionPrompt(appts).Some? ==>
              exists i :: 0 <= i < |appts| && appts[i] == SuggestionPrompt(appts).value && IsSuggested(appts[i])
                          && forall j :: 0 <= j < i ==> !IsSuggested(appts[j])
  {
    FindFirst(appts, IsSuggested);
  }

  /** The reschedule form, opened on an appointment and then edited. */
  datatype RescheduleData = RescheduleData(id: string, oldDate: string, oldTime: string, date: string, time: string)

  const EmptyReschedule := RescheduleData("", "", "", "", "")

  /** `openReschedule(appt)`: the old and the new date and time both start as
      the appointment's, `''` when it has none. */
  function OpenReschedule(a: Doc): (r: RescheduleData)
    ensures r.id == a.id && r.oldDate == r.date && r.oldTime == r.time
    ensures "date" in a.fields && a.fields["date"].Str? ==> r.date == a.fields["date"].s
    ensures "date" !in a.fields ==> r.date == ""
    ensures "time" in a.fields && a.fields["time"].Str? ==> r.time == a.fields["time"].s
    ensures "time" !in a.fields ==> r.time == ""
  {
    RescheduleData(a.id, TextOf(a.fields, "date"), TextOf(a.fields, "time"), TextOf(a.fields, "date"), TextOf(a.fields, "time"))
  }

  function RescheduleError(r: RescheduleData): (e: Option<string>)
    ensures e.None? <==> r.id != "" && r.date != "" && r.time != ""
    ensures r.id == "" ==> e == Some("Missing appointment id.")
  {
    if r.id == "" then Some("Missing appointment id.")
    else if r.date == "" || r.time == "" then Some("Please provide new date and time.")
    else None
  }

  /** The change made to the page's copy: new date and time, the old ones archived. */
  function ReschedulePatch(r: RescheduleData): Fields {
    map["date" := Str(r.date), "time" := Str(r.time), "status" := Str("rescheduled"),
        "previousDate" := Str(r.oldDate), "previousTime" := Str(r.oldTime)]
  }

  function StoredReschedulePatch(r: RescheduleData): Fields {
    ReschedulePatch(r)["updatedAt" := ServerTime]
  }

  /** Rescheduling an appointment opened from the list: that appointment gets
      the new date and time and archives the old ones; every other record and
      every other field stays as it was. */
  lemma RescheduleArchivesPrevious(xs: seq<Doc>, i: nat, date: string, time: string)
    requires i < |xs|
    ensures var r := OpenReschedule(xs[i]).(date := date, time := time);
            var ys := Merge(xs, xs[i].id, ReschedulePatch(r));
            && |ys| == |xs|
            && HasText(ys[i].fields, "date", date) && HasText(ys[i].fields, "time", time)
            && HasText(ys[i].fields, "status", "rescheduled")
            && HasText(ys[i].fields, "previousDate", TextOf(xs[i].fields, "date"))
            && HasText(ys[i].fields, "previousTime", TextOf(xs[i].fields, "time"))
            && (forall k :: k in xs[i].fields && k !in ReschedulePatch(r) ==> ys[i].fields[k] == xs[i].fields[k])
            && (forall j :: 0 <= j < |xs| && xs[j].id != xs[i].id ==> ys[j] == xs[j])
  {
    var r := OpenReschedule(xs[i]).(date := date, time := time);
    var p := ReschedulePatch(r);
    var ys := Merge(xs, xs[i].id, p);
    assert ys[i].fields == xs[i].fields + p;
    assert p["previousDate"] == Str(TextOf(xs[i].fields, "date"));
    assert p["previousTime"] == Str(TextOf(xs[i].fields, "time"));
  }

  const RevokePatch: Fields := map["status" := Str("revoked")]

  /** Revoking sets the status of every record with the id to "revoked", leaves
      the rest alone, and revoking twice is revoking once. */
  lemma RevokeIdempotent(xs: seq<Doc>, id: string)
    ensures var ys := Merge(xs, id, RevokePatch);
            && Merge(ys, id, RevokePatch) == ys
            && (forall j :: 0 <= j < |xs| && xs[j].id == id ==> HasText(ys[j].fields, "status", "revoked"))
            && (forall j :: 0 <= j < |xs| && xs[j].id != id ==> ys[j] == xs[j])
  {
    MergeIdempotent(xs, id, RevokePatch);
  }

  const AcceptPatch: Fields := map["status" := Str("approved")]

  /** Accepting a suggestion only approves: the suggested date and time are not
      copied into `date`/`time`, and no field but `status` changes. */
  lemma AcceptKeepsSchedule(xs: seq<Doc>, id: string)
    ensures var ys := Merge(xs, id, AcceptPatch);
            forall j, k :: 0 <= j < |xs| && k in xs[j].fields && k != "status" ==>
              k in ys[j].fields && ys[j].fields[k] == xs[j].fields[k]
    ensures var ys := Merge(xs, id, AcceptPatch);
            forall j :: 0 <= j < |xs| && xs[j].id == id ==>
              HasText(ys[j].fields, "status", "approved") && ys[j].fields.Keys == xs[j].fields.Keys + {"status"}
  {
  }

  datatype TestimonialForm = TestimonialForm(name: string, kind: string, message: string)

  const EmptyTestimonial := TestimonialForm("", "Patient", "")

  function TestimonialFields(t: TestimonialForm): Fields {
    map["name" := Str(t.name), "type" := Str(t.kind), "message" := Str(t.message), "status" := Str("pending")]
  }

  /** `openEditTestimonial(t)`: missing fields read as "", a missing or empty type as "Patient". */
  function OpenEditTestimonial(t: Doc): (r: (string, TestimonialForm))
    ensures r.0 == t.id
    ensures "name" in t.fields && t.fields["name"].Str? ==> r.1.name == t.fields["name"].s
    ensures "name" !in t.fields ==> r.1.name == ""
    ensures "message" in t.fields && t.fields["message"].Str? ==> r.1.message == t.fields["message"].s
    ensures "message" !in t.fields ==> r.1.message == ""
    ensures Truthy(Get(t.fields, "type")) && t.fields["type"].Str? ==> r.1.kind == t.fields["type"].s
    ensures !Truthy(Get(t.fields, "type")) ==> r.1.kind == "Patient"
    ensures r.1.kind != ""
  {
    var kind := TextOf(t.fields, "type");
    (t.id, TestimonialForm(TextOf(t.fields, "name"), if kind == "" then "Patient" else kind, TextOf(t.fields, "message")))
  }

  /** The input of an edited testimonial is complete. */
  predicate Complete(t: TestimonialForm) {
    t.name != "" && t.kind != "" && t.message != ""
  }

  /** Editing a testimonial writes the new name, type and message, sends it
      back to moderation, keeps its other fields, and leaves every other
      testimonial as it was. */
  lemma EditReturnsToPending(xs: seq<Doc>, id: string, t: TestimonialForm)
    ensures var ys := Merge(xs, id, TestimonialFields(t));
            && |ys| == |xs|
            && (forall j :: 0 <= j < |xs| && xs[j].id == id ==>
                  && HasText(ys[j].fields, "status", "pending")
                  && HasText(ys[j].fields, "name", t.name) && HasText(ys[j].fields, "type", t.kind)
                  && HasText(ys[j].fields, "message", t.message)
                  && forall k :: k in xs[j].fields && k !in TestimonialFields(t) ==> ys[j].fields[k] == xs[j].fields[k])
            && (forall j :: 0 <= j < |xs| && xs[j].id != id ==> ys[j] == xs[j])
  {
  }

  /** The page: the signed-in user's uid, the backend, and the component state. */
  class AppointmentsPage {
    var user: Option<string>
    var db: Store.Db
    var loading: bool
    var error: Option<string>
    var appointments: seq<Doc>
    var testimonials: seq<Doc>
    var booking: Booking
    var testimonialForm: TestimonialForm
    var showReschedule: bool
    var rescheduleData: RescheduleData
    var showEditTestimonial: bool
    var editId: string
    var editTestimonial: TestimonialForm
    var showSuggested: bool
    var suggestedAppt: Option<Doc>
    var notice: string

    /** The initial state of the component (lines 38-88). */
    constructor (user: Option<string>, db: Store.Db)
      ensures this.user == user && this.db == db && loading && error.None?
      ensures appointments == [] && testimonials == []
      ensures booking == EmptyBooking && testimonialForm == EmptyTestimonial
      ensures !showReschedule && rescheduleData == EmptyReschedule
      ensures !showEditTestimonial && editId == "" && editTestimonial == TestimonialForm("", "", "")
      ensures !showSuggested && suggestedAppt.None? && notice == ""
    {
      this.user := user;
      this.db := db;
      loading := true;
      error := None;
      appointments := [];
      testimonials := [];
      booking := EmptyBooking;
      testimonialForm := EmptyTestimonial;
      showReschedule := false;
      rescheduleData := EmptyReschedule;
      showEditTestimonial := false;
      editId := "";
      editTestimonial := TestimonialForm("", "", "");
      showSuggested := false;
      suggestedAppt := None;
      notice := "";
    }

    /** The load effect. `apptSnap` and `testSnap` are the two query results in
        the order the backend returned them; `ok` says whether both reads succeeded. */
    method Load(ok: bool, apptSnap: seq<Doc>, testSnap: seq<Doc>)
      requires user.Some? ==> Store.IsSnapshot(db, Store.Appointments, OwnedBy(user.value), apptSnap)
      requires user.Some? ==> Store.IsSnapshot(db, Store.Testimonials, OwnedBy(user.value), testSnap)
      modifies this`loading, this`error, this`appointments, this`testimonials, this`suggestedAppt, this`showSuggested
      ensures !loading
      ensures error == if user.Some? && !ok then Some("Failed to load data from server.") else old(error)
      ensures if user.Some? && ok then
                var pending := PendingPrompt(ByDate(apptSnap));
                appointments == ByDate(apptSnap) && testimonials == ByCreated(testSnap)
                && suggestedAppt == (if pending.Some? then pending else old(suggestedAppt))
                && showSuggested == (pending.Some? || old(showSuggested))
              else
                appointments == old(appointments) && testimonials == old(testimonials)
                && suggestedAppt == old(suggestedAppt) && showSuggested == old(showSuggested)
    {
      ShowLoaded(ok, ByDate(apptSnap), ByCreated(testSnap));
    }

    /** The state updates of the load effect, given the two lists already sorted. */
    method ShowLoaded(ok: bool, appts: seq<Doc>, tests: seq<Doc>)
      modifies this`loading, this`error, this`appointments, this`testimonials, this`suggestedAppt, this`showSuggested
      ensures !loading
      ensures error == if user.Some? && !ok then Some("Failed to load data from server.") else old(error)
      ensures if user.Some? && ok then
                var pending := PendingPrompt(appts);
                appointments == appts && testimonials == tests
                && suggestedAppt == (if pending.Some? then pending else old(suggestedAppt))
                && showSuggested == (pending.Some? || old(showSuggested))
              else
                appointments == old(appointments) && testimonials == old(testimonials)
                && suggestedAppt == old(suggestedAppt) && showSuggested == old(showSuggested)
    {
      if user.Some? {
        if !ok {
          error := Some("Failed to load data from server.");
        } else {
          appointments := appts;
          testimonials := tests;
          var pending := PendingPrompt(appts);
          if pending.Some? {
            suggestedAppt := pending;
            showSuggested := true;
          }
        }
      }
      loading := false;
    }

    /** `handleBookingSubmit`; `newId` is the id the backend assigns. */
    method BookingSubmit(newId: string, ok: bool, now: int)
      requires (Store.Appointments, newId) !in db.docs
      modifies this`db, this`appointments, this`booking, this`notice
      ensures var err := BookingError(user, old(booking));
              if err.Some? then
                db == old(db) && appointments == old(appointments) && booking == old(booking) && notice == err.value
              else if !ok then
                db == old(db) && appointments == old(appointments) && booking == old(booking)
                && notice == "Failed to book appointment."
              else
                db == Store.Add(old(db), Store.Appointments, newId, StoredBooking(user.value, old(booking)), true).value
                && appointments == [LocalBooking(newId, old(booking), now)] + old(appointments)
                && booking == EmptyBooking && notice == "Appointment booked successfully."
    {
      var err := BookingError(user, booking);
      if err.Some? {
        notice := err.value;
        return;
      }
      var w := Store.Add(db, Store.Appointments, newId, StoredBooking(user.value, booking), ok);
      if w.None? {
        notice := "Failed to book appointment.";
        return;
      }
      db := w.value;
      appointments := [LocalBooking(newId, booking, now)] + appointments;
      booking := EmptyBooking;
      notice := "Appointment booked successfully.";
    }

    method OpenRescheduleFor(a: Doc)
      modifies this`rescheduleData, this`showReschedule
      ensures rescheduleData == OpenReschedule(a) && showReschedule
    {
      rescheduleData := OpenReschedule(a);
      showReschedule := true;
    }

    /** `handleRescheduleSubmit` */
    method RescheduleSubmit(ok: bool)
      modifies this`db, this`appointments, this`showReschedule, this`notice
      ensures var r := old(rescheduleData);
              var w := Store.Update(old(db), Store.Appointments, r.id, StoredReschedulePatch(r), ok);
              if RescheduleError(r).Some? then
                db == old(db) && appointments == old(appointments) && showReschedule == old(showReschedule)
                && notice == RescheduleError(r).value
              else if w.None? then
                db == old(db) && appointments == old(appointments) && showReschedule == old(showReschedule)
                && notice == "Failed to reschedule appointment."
              else
                db == w.value && appointments == Merge(old(appointments), r.id, ReschedulePatch(r))
                && !showReschedule && notice == "Appointment rescheduled successfully."
    {
      var r := rescheduleData;
      var err := RescheduleError(r);
      if err.Some? {
        notice := err.value;
        return;
      }
      var w := Store.Update(db, Store.Appointments, r.id, StoredReschedulePatch(r), ok);
      if w.None? {
        notice := "Failed to reschedule appointment.";
        return;
      }
      db := w.value;
      appointments := Merge(appointments, r.id, ReschedulePatch(r));
      showReschedule := false;
      notice := "Appointment rescheduled successfully.";
    }

    /** `handleRevoke(id)`; `confirmed` is the answer to the confirmation. */
    method Revoke(id: string, confirmed: bool, ok: bool)
      modifies this`db, this`appointments, this`notice
      ensures var w := Store.Update(old(db), Store.Appointments, id,
                                    RevokePatch["revokedAt" := ServerTime]["updatedAt" := ServerTime], ok);
              if id == "" || !confirmed then
                db == old(db) && appointments == old(appointments) && notice == old(notice)
              else if w.None? then
                db == old(db) && appointments == old(appointments) && notice == "Failed to revoke appointment."
              else
                db == w.value && appointments == Merge(old(appointments), id, RevokePatch)
                && notice == "Appointment revoked."
    {
      if id == "" || !confirmed {
        return;
      }
      var w := Store.Update(db, Store.Appointments, id, RevokePatch["revokedAt" := ServerTime]["updatedAt" := ServerTime], ok);
      if w.None? {
        notice := "Failed to revoke appointment.";
        return;
      }
      db := w.value;
      appointments := Merge(appointments, id, RevokePatch);
      notice := "Appointment revoked.";
    }

    /** `handleDeleteAppointment(id)` */
    method DeleteAppointment(id: string, confirmed: bool, ok: bool)
      modifies this`db, this`appointments, this`notice
      ensures if id == "" || !confirmed then
                db == old(db) && appointments == old(appointments) && notice == old(notice)
              else if !ok then
                db == old(db) && appointments == old(appointments) && notice == "Failed to delete appointment."
              else
                db == Store.Delete(old(db), Store.Appointments, id, true).value
                && appointments == RemoveById(old(appointments), id) && notice == "Appointment deleted."
    {
      if id == "" || !confirmed {
        return;
      }
      var w := Store.Delete(db, Store.Appointments, id, ok);
      if w.None? {
        notice := "Failed to delete appointment.";
        return;
      }
      db := w.value;
      appointments := RemoveById(appointments, id);
      notice := "Appointment deleted.";
    }

    /** `handleAcceptSuggested(appt)` */
    method AcceptSuggested(appt: Option<Doc>, ok: bool)
      modifies this`db, this`appointments, this`showSuggested, this`notice
      ensures appt.None? ==>
                db == old(db) && appointments == old(appointments) && showSuggested == old(showSuggested)
                && notice == old(notice)
      ensures appt.Some? ==>
                var w := Store.Update(old(db), Store.Appointments, appt.value.id, AcceptPatch["updatedAt" := ServerTime], ok);
                if w.None? then
                  db == old(db) && appointments == old(appointments) && showSuggested == old(showSuggested)
                  && notice == "Failed to accept suggested time."
                else
                  db == w.value && appointments == Merge(old(appointments), appt.value.id, AcceptPatch)
                  && !showSuggested && notice == "Appointment confirmed! Status is now Approved."
    {
      if appt.None? {
        return;
      }
      var w := Store.Update(db, Store.Appointments, appt.value.id, AcceptPatch["updatedAt" := ServerTime], ok);
      if w.None? {
        notice := "Failed to accept suggested time.";
        return;
      }
      db := w.value;
      appointments := Merge(appointments, appt.value.id, AcceptPatch);
      notice := "Appointment confirmed! Status is now Approved.";
      showSuggested := false;
    }

    /** `handleDeclineSuggested(appt)`: the appointment is deleted outright. */
    method DeclineSuggested(appt: Option<Doc>, confirmed: bool, ok: bool)
      modifies this`db, this`appointments, this`showSuggested, this`notice
      ensures appt.None? || !confirmed ==>
                db == old(db) && appointments == old(appointments) && showSuggested == old(showSuggested)
                && notice == old(notice)
      ensures appt.Some? && confirmed && !ok ==>
                db == old(db) && appointments == old(appointments) && showSuggested == old(showSuggested)
                && notice == "Failed to decline suggested time."
      ensures appt.Some? && confirmed && ok ==>
                db == Store.Delete(old(db), Store.Appointments, appt.value.id, true).value
                && appointments == RemoveById(old(appointments), appt.value.id)
                && !showSuggested && notice == "Appointment deleted. Please make a new appointment."
    {
      if appt.None? || !confirmed {
        return;
      }
      var w := Store.Delete(db, Store.Appointments, appt.value.id, ok);
      if w.None? {
        notice := "Failed to decline suggested time.";
        return;
      }
      db := w.value;
      appointments := RemoveById(appointments, appt.value.id);
      notice := "Appointment deleted. Please make a new appointment.";
      showSuggested := false;
    }

    /** `handleTestimonialSubmit`; `newId` is the id the backend assigns. */
    method TestimonialSubmit(newId: string, ok: bool, now: int)
      requires (Store.Testimonials, newId) !in db.docs
      modifies this`db, this`testimonials, this`testimonialForm, this`notice
      ensures var t := old(testimonialForm);
              if user.None? then
                db == old(db) && testimonials == old(testimonials) && testimonialForm == t
                && notice == "Please login to submit testimonial."
              else if t.name == "" || t.kind == "" || t.message == "" then
                db == old(db) && testimonials == old(testimonials) && testimonialForm == t
                && notice == "Fill all testimonial fields."
              else if !ok then
                db == old(db) && testimonials == old(testimonials) && testimonialForm == t
                && notice == "Failed to submit testimonial."
              else
                db == Store.Add(old(db), Store.Testimonials, newId,
                                TestimonialFields(t)["userId" := Str(user.value)]["createdAt" := ServerTime], true).value
                && testimonials == [Doc(newId, TestimonialFields(t)["createdAt" := LocalDate(now)]["userId" := Str(user.value)])]
                                   + old(testimonials)
                && testimonialForm == EmptyTestimonial
                && notice == "Testimonial submitted \U{2014} pending approval."
    {
      if user.None? {
        notice := "Please login to submit testimonial.";
        return;
      }
      var t := testimonialForm;
      if t.name == "" || t.kind == "" || t.message == "" {
        notice := "Fill all testimonial fields.";
        return;
      }
      var w := Store.Add(db, Store.Testimonials, newId, TestimonialFields(t)["userId" := Str(user.value)]["createdAt" := ServerTime], ok);
      if w.None? {
        notice := "Failed to submit testimonial.";
        return;
      }
      db := w.value;
      testimonials := [Doc(newId, TestimonialFields(t)["createdAt" := LocalDate(now)]["userId" := Str(user.value)])] + testimonials;
      testimonialForm := EmptyTestimonial;
      notice := "Testimonial submitted \U{2014} pending approval.";
    }

    method OpenEditTestimonialFor(t: Doc)
      modifies this`editId, this`editTestimonial, this`showEditTestimonial
      ensures (editId, editTestimonial) == OpenEditTestimonial(t) && showEditTestimonial
    {
      var e := OpenEditTestimonial(t);
      editId := e.0;
      editTestimonial := e.1;
      showEditTestimonial := true;
    }

    /** `handleEditTestimonialSubmit`: the edit goes back to status "pending". */
    method EditTestimonialSubmit(ok: bool)
      modifies this`db, this`testimonials, this`showEditTestimonial, this`notice
      ensures var w := Store.Update(old(db), Store.Testimonials, editId, TestimonialFields(editTestimonial)["updatedAt" := ServerTime], ok);
              if editId == "" then
                db == old(db) && testimonials == old(testimonials) && showEditTestimonial == old(showEditTestimonial)
                && notice == old(notice)
              else if !Complete(editTestimonial) then
                db == old(db) && testimonials == old(testimonials) && showEditTestimonial == old(showEditTestimonial)
                && notice == "Fill all fields."
              else if w.None? then
                db == old(db) && testimonials == old(testimonials) && showEditTestimonial == old(showEditTestimonial)
                && notice == "Failed to update testimonial."
              else
                db == w.value && testimonials == Merge(old(testimonials), editId, TestimonialFields(editTestimonial))
                && !showEditTestimonial && notice == "Testimonial updated and marked pending."
    {
      if editId == "" {
        return;
      }
      if !Complete(editTestimonial) {
        notice := "Fill all fields.";
        return;
      }
      var w := Store.Update(db, Store.Testimonials, editId, TestimonialFields(editTestimonial)["updatedAt" := ServerTime], ok);
      if w.None? {
        notice := "Failed to update testimonial.";
        return;
      }
      db := w.value;
      testimonials := Merge(testimonials, editId, TestimonialFields(editTestimonial));
      showEditTestimonial := false;
      notice := "Testimonial updated and marked pending.";
    }

    /** `handleDeleteTestimonial(id)` */
    method DeleteTestimonial(id: string, confirmed: bool, ok: bool)
      modifies this`db, this`testimonials, this`notice
      ensures if id == "" || !confirmed then
                db == old(db) && testimonials == old(testimonials) && notice == old(notice)
              else if !ok then
                db == old(db) && testimonials == old(testimonials) && notice == "Failed to delete testimonial."
              else
                db == Store.Delete(old(db), Store.Testimonials, id, true).value
                && testimonials == RemoveById(old(testimonials), id) && notice == "Testimonial deleted."
    {
      if id == "" || !confirmed {
        return;
      }
      var w := Store.Delete(db, Store.Testimonials, id, ok);
      if w.None? {
        notice := "Failed to delete testimonial.";
        return;
      }
      db := w.value;
      testimonials := RemoveById(testimonials, id);
      notice := "Testimonial deleted.";
    }
  }
}
