/** The admin's appointment screen (src/admin/pages/AppointmentsAdmin.jsx):
    every action goes through `updateAppointment`, which writes a patch to the
    backend and, only when that write succeeds, merges the same patch into the
    record with that id in the page's list. */
module AdminAppointments {
  import opened Wrappers
  import opened Text
  import opened Records
  import opened Lists
  import Store
  import ClientAppointments

  const ApprovePatch: Fields := map["status" := Str("Approved"), "adminComment" := Str("Approved \U{2705}")]

  const RevokePatch: Fields := map["status" := Str("Revoked"), "adminComment" := Str("Revoked by admin")]

  /** The suggestion of a new date and time; the appointment's own date and
      time are left as they are. */
  function ProposePatch(date: string, time: string): Fields {
    map["status" := Str("Pending Reschedule"), "suggestedDate" := Str(date), "suggestedTime" := Str(time),
        "adminComment" := Str("Suggested new date/time, awaiting client confirmation")]
  }

  function CommentPatch(comment: string): Fields {
    map["adminComment" := Str(comment)]
  }

  /** What `updateAppointment` writes: the patch plus a server timestamp. */
  function Stored(patch: Fields): Fields {
    patch["updatedAt" := ServerTime]
  }

  /** Approving sets status and comment of the record with that id, and nothing else. */
  lemma ApproveSetsStatus(xs: seq<Doc>, id: string)
    ensures var ys := Merge(xs, id, ApprovePatch);
            && |ys| == |xs|
            && (forall j :: 0 <= j < |xs| && xs[j].id == id ==>
                  HasText(ys[j].fields, "status", "Approved") && HasText(ys[j].fields, "adminComment", "Approved \U{2705}")
                  && forall k :: k in xs[j].fields && k != "status" && k != "adminComment" ==> ys[j].fields[k] == xs[j].fields[k])
            && (forall j :: 0 <= j < |xs| && xs[j].id != id ==> ys[j] == xs[j])
  {
  }

  /** Revoking twice is revoking once. */
  lemma RevokeIdempotent(xs: seq<Doc>, id: string)
    ensures Merge(Merge(xs, id, RevokePatch), id, RevokePatch) == Merge(xs, id, RevokePatch)
    ensures forall j :: 0 <= j < |xs| && xs[j].id == id ==> HasText(Merge(xs, id, RevokePatch)[j].fields, "status", "Revoked")
  {
    MergeIdempotent(xs, id, RevokePatch);
  }

  /** A proposal records the suggestion beside the appointment: `date` and
      `time` keep their values, and only the patch's four fields change. */
  lemma ProposeKeepsSchedule(xs: seq<Doc>, id: string, date: string, time: string)
    ensures var ys := Merge(xs, id, ProposePatch(date, time));
            forall j :: 0 <= j < |xs| && xs[j].id == id ==>
              && HasText(ys[j].fields, "status", "Pending Reschedule")
              && HasText(ys[j].fields, "suggestedDate", date) && HasText(ys[j].fields, "suggestedTime", time)
              && Get(ys[j].fields, "date") == Get(xs[j].fields, "date")
              && Get(ys[j].fields, "time") == Get(xs[j].fields, "time")
  {
    var p := ProposePatch(date, time);
    assert "date" !in p && "time" !in p by {
      assert p.Keys == {"status", "suggestedDate", "suggestedTime", "adminComment"};
    }
  }

  /** A comment changes only `adminComment`. */
  lemma CommentOnlyComment(xs: seq<Doc>, id: string, comment: string)
    ensures var ys := Merge(xs, id, CommentPatch(comment));
            forall j :: 0 <= j < |xs| ==>
              ys[j].id == xs[j].id
              && ys[j].fields - {"adminComment"} == xs[j].fields - {"adminComment"}
              && (xs[j].id == id ==> HasText(ys[j].fields, "adminComment", comment))
  {
    forall j | 0 <= j < |xs|
      ensures Merge(xs, id, CommentPatch(comment))[j].fields - {"adminComment"} == xs[j].fields - {"adminComment"}
    {
      var ys := Merge(xs, id, CommentPatch(comment));
      if xs[j].id == id {
        assert ys[j].fields == xs[j].fields[ "adminComment" := Str(comment)];
      }
    }
  }

  /** The admin's suggestion does not open the client's prompt: the client
      looks for "pending reschedule" in lower case. Whatever the prompt did
      not find before, it does not find after the proposal either. */
  lemma ProposalMissedByClient(xs: seq<Doc>, id: string, date: string, time: string)
    requires ClientAppointments.PendingPrompt(xs).None?
    ensures ClientAppointments.PendingPrompt(Merge(xs, id, ProposePatch(date, time))).None?
  {
    var ys := Merge(xs, id, ProposePatch(date, time));
    ClientAppointments.PendingPromptFirst(xs);
    ClientAppointments.PendingPromptFirst(ys);
    forall i | 0 <= i < |ys| ensures !ClientAppointments.IsPendingReschedule(ys[i]) {
      assert !ClientAppointments.IsPendingReschedule(xs[i]);
    }
  }

  /** With the status the client evidently meant to look for, a proposal on
      an appointment in the client's list opens the prompt. */
  lemma ProposalFoundByCorrectedPrompt(xs: seq<Doc>, id: string, date: string, time: string)
    requires exists i :: 0 <= i < |xs| && xs[i].id == id
    ensures ClientAppointments.SuggestionPrompt(Merge(xs, id, ProposePatch(date, time))).Some?
  {
    var ys := Merge(xs, id, ProposePatch(date, time));
    var i :| 0 <= i < |xs| && xs[i].id == id;
    assert ClientAppointments.IsSuggested(ys[i]);
    ClientAppointments.SuggestionPromptFirst(ys);
  }

  /** The buttons on an appointment card. */
  datatype Offered = Offered(approve: bool, reschedule: bool, comment: bool, revoke: bool)

  /** `appt.status !== 'Approved' && appt.status !== 'Revoked'` for Approve,
      `appt.status !== 'Revoked'` for Reschedule; Comment and Revoke always. */
  function Actions(appt: Doc): (r: Offered)
    ensures r.approve <==> !HasText(appt.fields, "status", "Approved") && !HasText(appt.fields, "status", "Revoked")
    ensures r.reschedule <==> !HasText(appt.fields, "status", "Revoked")
    ensures r.comment && r.revoke
    ensures r.approve ==> r.reschedule
  {
    var st := Get(appt.fields, "status");
    Offered(st != Some(Str("Approved")) && st != Some(Str("Revoked")), st != Some(Str("Revoked")), true, true)
  }

  /** After the admin revokes, only Comment and Revoke remain; after the admin
      approves, Reschedule remains too. */
  lemma ActionsAfterAdminWrites(d: Doc)
    ensures Actions(Doc(d.id, d.fields + RevokePatch)) == Offered(false, false, true, true)
    ensures Actions(Doc(d.id, d.fields + ApprovePatch)) == Offered(false, true, true, true)
  {
  }

  /** A status the client page writes is in lower case, so the client's own
      revocation still offers Approve and Reschedule here. */
  lemma ClientRevokedStillApprovable(xs: seq<Doc>, id: string)
    ensures var ys := Merge(xs, id, ClientAppointments.RevokePatch);
            forall j :: 0 <= j < |xs| && xs[j].id == id ==> Actions(ys[j]).approve && Actions(ys[j]).reschedule
  {
  }

  /** The badge colour for a status. */
  function Badge(appt: Doc): (r: string)
    ensures r in {"success", "warning", "info", "danger", "secondary"}
    ensures r == "success" <==> HasText(appt.fields, "status", "Approved")
    ensures r == "danger" <==> HasText(appt.fields, "status", "Revoked")
    ensures r == "info" <==> HasText(appt.fields, "status", "Pending Reschedule")
  {
    if HasText(appt.fields, "status", "Approved") then "success"
    else if HasText(appt.fields, "status", "Pending Approval") then "warning"
    else if HasText(appt.fields, "status", "Pending Reschedule") then "info"
    else if HasText(appt.fields, "status", "Revoked") then "danger"
    else "secondary"
  }

  /** Every status the client page writes gets the neutral badge. */
  lemma ClientStatusesNeutral(d: Doc, s: string)
    requires s in {"approved", "rescheduled", "revoked", "pending"}
    requires HasText(d.fields, "status", s)
    ensures Badge(d) == "secondary"
  {
  }

  /** The render order: newest `createdAt` first, a missing time counting as 0. */
  predicate NewestFirst(a: Doc, b: Doc) {
    SecondsOf(b.fields) <= SecondsOf(a.fields)
  }

  lemma RenderOrderSorted(xs: seq<Doc>)
    ensures SortedBy(SortBy(xs, NewestFirst), NewestFirst)
    ensures multiset(SortBy(xs, NewestFirst)) == multiset(xs)
  {
    SortBySorted(xs, NewestFirst);
  }

  class AdminAppointmentsPage {
    var db: Store.Db
    var appointments: seq<Doc>
    var loading: bool
    var error: string
    var showReschedule: bool
    var showComment: bool
    var selectedAppt: Option<Doc>
    var newDate: string
    var newTime: string
    var comment: string
    var notice: string

    constructor (db: Store.Db)
      ensures this.db == db && appointments == [] && loading && error == ""
      ensures !showReschedule && !showComment && selectedAppt.None?
      ensures newDate == "" && newTime == "" && comment == "" && notice == ""
    {
      this.db := db;
      appointments := [];
      loading := true;
      error := "";
      showReschedule := false;
      showComment := false;
      selectedAppt := None;
      newDate := "";
      newTime := "";
      comment := "";
      notice := "";
    }

    /** The load effect: every appointment, in the order the backend returned them. */
    method Load(ok: bool, snap: seq<Doc>)
      requires Store.IsSnapshot(db, Store.Appointments, (f: Fields) => true, snap)
      modifies this`appointments, this`error, this`loading
      ensures !loading
      ensures ok ==> appointments == snap && error == old(error)
      ensures !ok ==> appointments == old(appointments) && error == "Failed to load appointments."
    {
      if ok {
        appointments := snap;
      } else {
        error := "Failed to load appointments.";
      }
      loading := false;
    }

    /** `updateAppointment(id, updates)`: a failed write leaves the list as it
        was and sets the error. */
    method UpdateAppointment(id: string, updates: Fields, ok: bool)
      modifies this`db, this`appointments, this`error
      ensures var w := Store.Update(old(db), Store.Appointments, id, Stored(updates), ok);
              if w.None? then
                db == old(db) && appointments == old(appointments) && error == "Action failed. Try again."
              else
                db == w.value && appointments == Merge(old(appointments), id, updates) && error == old(error)
    {
      var w := Store.Update(db, Store.Appointments, id, Stored(updates), ok);
      if w.None? {
        error := "Action failed. Try again.";
        return;
      }
      db := w.value;
      appointments := Merge(appointments, id, updates);
    }

    /** `handleApprove(id)` */
    method Approve(id: string, ok: bool)
      modifies this`db, this`appointments, this`error
      ensures var w := Store.Update(old(db), Store.Appointments, id, Stored(ApprovePatch), ok);
              if w.None? then
                db == old(db) && appointments == old(appointments) && error == "Action failed. Try again."
              else
                db == w.value && appointments == Merge(old(appointments), id, ApprovePatch) && error == old(error)
    {
      UpdateAppointment(id, ApprovePatch, ok);
    }

    /** `handleRevoke(id)`; `confirmed` is the answer to the confirmation. */
    method Revoke(id: string, confirmed: bool, ok: bool)
      modifies this`db, this`appointments, this`error
      ensures var w := Store.Update(old(db), Store.Appointments, id, Stored(RevokePatch), ok);
              if !confirmed then
                db == old(db) && appointments == old(appointments) && error == old(error)
              else if w.None? then
                db == old(db) && appointments == old(appointments) && error == "Action failed. Try again."
              else
                db == w.value && appointments == Merge(old(appointments), id, RevokePatch) && error == old(error)
    {
      if !confirmed {
        return;
      }
      UpdateAppointment(id, RevokePatch, ok);
    }

    /** `handleReschedule(appt)` and `handleComment(appt)` open a modal on a card. */
    method OpenReschedule(appt: Doc)
      modifies this`selectedAppt, this`showReschedule
      ensures selectedAppt == Some(appt) && showReschedule
    {
      selectedAppt := Some(appt);
      showReschedule := true;
    }

    method OpenComment(appt: Doc)
      modifies this`selectedAppt, this`showComment
      ensures selectedAppt == Some(appt) && showComment
    {
      selectedAppt := Some(appt);
      showComment := true;
    }

    /** `submitReschedule`: once both inputs are filled, the modal closes and
        its inputs clear whether or not the write succeeded. With no selected
        appointment, `selectedAppt.id` throws and nothing changes. */
    method SubmitReschedule(ok: bool)
      modifies this`db, this`appointments, this`error, this`showReschedule, this`newDate, this`newTime, this`notice
      ensures old(newDate) == "" || old(newTime) == "" || selectedAppt.None? ==>
                db == old(db) && appointments == old(appointments) && error == old(error)
                && showReschedule == old(showReschedule) && newDate == old(newDate) && newTime == old(newTime)
      ensures old(newDate) == "" || old(newTime) == "" ==> notice == "Please select date and time."
      ensures old(newDate) != "" && old(newTime) != "" ==> notice == old(notice)
      ensures old(newDate) != "" && old(newTime) != "" && selectedAppt.Some? ==>
                var patch := ProposePatch(old(newDate), old(newTime));
                var w := Store.Update(old(db), Store.Appointments, selectedAppt.value.id, Stored(patch), ok);
                && !showReschedule && newDate == "" && newTime == ""
                && (w.None? ==> db == old(db) && appointments == old(appointments) && error == "Action failed. Try again.")
                && (w.Some? ==> db == w.value && appointments == Merge(old(appointments), selectedAppt.value.id, patch)
                                && error == old(error))
    {
      if newDate == "" || newTime == "" {
        notice := "Please select date and time.";
        return;
      }
      if selectedAppt.None? {
        return;
      }
      UpdateAppointment(selectedAppt.value.id, ProposePatch(newDate, newTime), ok);
      showReschedule := false;
      newDate := "";
      newTime := "";
    }

    /** `submitComment`: a blank comment is refused; otherwise the modal closes
        and the input clears whatever the write did. */
    method SubmitComment(ok: bool)
      modifies this`db, this`appointments, this`error, this`showComment, this`comment, this`notice
      ensures if IsBlank(old(comment)) || selectedAppt.None? then
                db == old(db) && appointments == old(appointments) && error == old(error)
                && showComment == old(showComment) && comment == old(comment)
                && notice == (if IsBlank(old(comment)) then "Please write a comment." else old(notice))
              else
                var w := Store.Update(old(db), Store.Appointments, selectedAppt.value.id, Stored(CommentPatch(old(comment))), ok);
                && !showComment && comment == "" && notice == old(notice)
                && (w.None? ==> db == old(db) && appointments == old(appointments) && error == "Action failed. Try again.")
                && (w.Some? ==> db == w.value && appointments == Merge(old(appointments), selectedAppt.value.id, CommentPatch(old(comment)))
                                && error == old(error))
    {
      // `comment.trim() === ''`, which holds exactly for a blank comment (Text.TrimEmptyIffBlank)
      if IsBlank(comment) {
        notice := "Please write a comment.";
        return;
      }
      if selectedAppt.None? {
        return;
      }
      UpdateAppointment(selectedAppt.value.id, CommentPatch(comment), ok);
      showComment := false;
      comment := "";
    }

    /** The render-time `appointments.sort(...)`, which reorders the state
        array itself: newest first. */
    method SortForRender()
      modifies this`appointments
      ensures appointments == SortBy(old(appointments), NewestFirst)
    {
      appointments := SortBy(appointments, NewestFirst);
    }
  }
}
