# PhysioCare front end: a Dafny model

PhysioCare is a physiotherapy clinic's React web application that talks
straight to Firebase. This project models the part of it that makes
decisions:

- **Appointments.** A client books, reschedules, revokes and deletes
  appointments, and accepts or declines the time an administrator suggests.
  A client also writes testimonials. The administrator approves, revokes,
  comments on and proposes new times for appointments. The dashboard
  normalises phone numbers, enriches appointments with the matching user,
  and filters them.
- **Access control.** The authentication context resolves the signed-in
  user's role. Two route guards sit on the route table, and sign-in sends
  the user to a role-dependent page. Composed, they give a fail-closed
  result: no visitor without an administrative role is shown an
  administrative page.
- **Forms and accounts.** This covers the registration and sign-up checks,
  the order they run in and the roles new accounts get. It also covers
  promoting a registered client into a user account, and searching clients
  and users.
- **Text.** Testimonials and contact messages are cut to a number of
  words. Blog previews have their HTML tags stripped.
- **Blog.** Comments are created and moderated (`pending`/`approved`, or no
  status at all). Only approved comments are shown. Posts are saved from a
  form, and their like and share counters are kept.

The backend is a value `Store.Db`: a map from (collection, id) to a
record's fields, plus the identity provider's accounts and the password-reset
mails it has sent. Every write takes a boolean that says whether the backend
accepted it. A read that the page makes is a parameter (`snap`) tied to the
store by `Store.IsSnapshot`: the snapshot holds exactly the matching
documents, each once, in an order the backend chooses.

Each page is a `class`. Its fields are the component's state plus the store
it writes to, and each event handler is a `method` whose `ensures` gives
the whole new state. A confirmation dialog's answer is a boolean parameter.
What the decisions compute is stated as functions, with lemmas about them.
A JavaScript record is a `map<string, Value>` in which a missing key is
`undefined`. Object spread is map union, and JavaScript truthiness is
`Records.Truthy`.

The page classes follow the code as written, defects included. Where a
defect was found, a corrected definition sits beside the as-written one,
with the intended property proved about it (see "## Findings").

## Model

| member | source | states |
|---|---|---|
| ClientAppointments.BookingError | src/components/Appointments.jsx:154-162 | a booking is accepted iff there is a user and all five fields are non-empty and the WhatsApp number is valid; no user gives "Please login first."; the WhatsApp message only for a non-empty, invalid number |
| ClientAppointments.ValidWhatsApp | src/components/Appointments.jsx:90-91 | defines the accepted WhatsApp number: twelve characters, "2547" then eight ASCII digits (used by `BookingError`) |
| ClientAppointments.StoredBooking | src/components/Appointments.jsx:166-176 | defines the stored booking: the five fields, the doctor, status "approved", the owner's uid and a server timestamp (related to the local copy by `LocalBookingMatchesStored`) |
| ClientAppointments.BookingFields | src/components/Appointments.jsx:166-190 | defines the fields common to the stored and the local booking: the five inputs, the doctor and status "approved" |
| ClientAppointments.OwnedBy | src/components/Appointments.jsx:105 | defines the load query: the records whose `userId` is the signed-in uid |
| ClientAppointments.DateLe | src/components/Appointments.jsx:118 | defines the load order of appointments: their dates, a missing one read as "", compared as strings |
| ClientAppointments.CreatedLe | src/components/Appointments.jsx:120-124 | defines the load order of testimonials: creation seconds, a missing time read as 0 |
| ClientAppointments.LocalBooking | src/components/Appointments.jsx:178-190 | defines the record prepended to the page: the same fields without `userId`, with a local date |
| ClientAppointments.LocalBookingMatchesStored | src/components/Appointments.jsx:166-190 | the record prepended to the page equals the stored one except that it has no `userId` and a local date; the stored record has status "approved" and the owner's uid |
| ClientAppointments.DateLeTotal | src/components/Appointments.jsx:118 | the load-time comparison on dates (plain lexicographic order) is a total preorder |
| ClientAppointments.LoadedAppointmentsSorted | src/components/Appointments.jsx:117-119 | the loaded appointments are sorted by date and are a permutation of the query result |
| ClientAppointments.LoadedTestimonialsSorted | src/components/Appointments.jsx:120-124 | the loaded testimonials are sorted by creation time and are a permutation of the query result |
| ClientAppointments.PrependCanBreakDateOrder | src/components/Appointments.jsx:185-190 | there is a date-sorted list that a successful booking leaves unsorted, because the new record is prepended |
| ClientAppointments.PendingPromptFirst | src/components/Appointments.jsx:127-133 | the suggestion prompt opens iff some appointment's status is exactly "pending reschedule", and it opens on the first one |
| ClientAppointments.PendingPrompt | src/components/Appointments.jsx:127-129 | defines the appointment the prompt opens for as the first with status exactly "pending reschedule" (characterised by `PendingPromptFirst`) |
| ClientAppointments.IsPendingReschedule | src/components/Appointments.jsx:128 | defines the status the prompt looks for: exactly "pending reschedule" |
| ClientAppointments.IsSuggested | src/admin/pages/AppointmentsAdmin.jsx:96 | defines the corrected test: the status the admin screen writes, "Pending Reschedule" |
| ClientAppointments.SuggestionPrompt | src/admin/pages/AppointmentsAdmin.jsx:96 | defines the corrected prompt: the first appointment that carries the admin's suggestion |
| ClientAppointments.SuggestionPromptFirst | src/admin/pages/AppointmentsAdmin.jsx:96 | the corrected prompt opens iff some appointment carries the admin's "Pending Reschedule", and on the first one |
| ClientAppointments.OpenReschedule | src/components/Appointments.jsx:211-220 | the form opens on the appointment's id; the new date and time are the appointment's string date and time, "" when missing; the previous date and time equal them |
| ClientAppointments.RescheduleError | src/components/Appointments.jsx:227-231 | a reschedule is accepted iff id, date and time are non-empty; a missing id gives "Missing appointment id." |
| ClientAppointments.StoredReschedulePatch | src/components/Appointments.jsx:235-243 | defines the stored change: new date and time, status "rescheduled", the previous date and time, and a server timestamp |
| ClientAppointments.ReschedulePatch | src/components/Appointments.jsx:247-256 | defines the page's change: the same without the timestamp (its effect is stated by `RescheduleArchivesPrevious`) |
| ClientAppointments.RescheduleArchivesPrevious | src/components/Appointments.jsx:227-258 | rescheduling an appointment opened from the list gives it the new date and time, status "rescheduled" and the old date and time as previousDate/previousTime; the other records are unchanged |
| ClientAppointments.RevokeIdempotent | src/components/Appointments.jsx:272-284 | revoking sets status "revoked" on the records with that id only, and revoking twice equals revoking once |
| ClientAppointments.AcceptKeepsSchedule | src/components/Appointments.jsx:311-322 | accepting a suggestion sets only status "approved"; date, time and the suggestion fields are kept as they were |
| ClientAppointments.OpenEditTestimonial | src/components/Appointments.jsx:397-405 | the form opens on the testimonial's id; name and message are the record's, "" when missing; the type is the record's truthy type, otherwise "Patient", so it is never empty |
| ClientAppointments.EditReturnsToPending | src/components/Appointments.jsx:412-431 | the list keeps its length; the record with the edited id gets the form's name, type and message and status "pending", and keeps its other fields; every other record is unchanged |
| ClientAppointments.TestimonialFields | src/components/Appointments.jsx:366-373 | defines a testimonial's written fields: the form's name, type and message and status "pending" |
| ClientAppointments.Complete | src/components/Appointments.jsx:416 | defines a complete edit: name, type and message all non-empty |
| ClientAppointments.AppointmentsPage.constructor | src/components/Appointments.jsx:39-88 | initial state: loading, empty lists and forms, no modal open |
| ClientAppointments.AppointmentsPage.Load | src/components/Appointments.jsx:94-144 | without a user nothing is read; on success the lists are the sorted query results and the prompt opens on `PendingPrompt`; on failure the error is "Failed to load data from server."; loading ends on every path |
| ClientAppointments.AppointmentsPage.ShowLoaded | src/components/Appointments.jsx:94-144 | the same state updates given the two lists already sorted: the prompt opens exactly when `PendingPrompt` finds an appointment |
| ClientAppointments.AppointmentsPage.BookingSubmit | src/components/Appointments.jsx:154-206 | a rejected booking writes nothing and changes no list; an accepted one adds the stored record, prepends the local one and resets the form; a failed write keeps list and form |
| ClientAppointments.AppointmentsPage.OpenRescheduleFor | src/components/Appointments.jsx:211-220 | the reschedule modal opens with `OpenReschedule(a)` |
| ClientAppointments.AppointmentsPage.RescheduleSubmit | src/components/Appointments.jsx:227-267 | a rejected form writes nothing; on success the store and the list get the reschedule patch and the modal closes; on failure nothing changes |
| ClientAppointments.AppointmentsPage.Revoke | src/components/Appointments.jsx:272-290 | after confirmation a successful write sets status "revoked" in store and list; otherwise nothing changes |
| ClientAppointments.AppointmentsPage.DeleteAppointment | src/components/Appointments.jsx:295-306 | an empty id or a declined confirmation changes nothing; a successful delete removes every record with the id, keeping the order of the rest |
| ClientAppointments.AppointmentsPage.AcceptSuggested | src/components/Appointments.jsx:311-331 | with an appointment, a successful write sets only its status to "approved" and closes the prompt |
| ClientAppointments.AppointmentsPage.DeclineSuggested | src/components/Appointments.jsx:333-349 | after confirmation a successful delete removes the appointment from store and list and closes the prompt |
| ClientAppointments.AppointmentsPage.TestimonialSubmit | src/components/Appointments.jsx:359-395 | an incomplete form or no user writes nothing; success adds a pending testimonial, prepends it to the local list and resets the form |
| ClientAppointments.AppointmentsPage.OpenEditTestimonialFor | src/components/Appointments.jsx:397-405 | the edit modal opens with `OpenEditTestimonial(t)` |
| ClientAppointments.AppointmentsPage.EditTestimonialSubmit | src/components/Appointments.jsx:412-441 | a successful update writes the fields with status "pending" and merges them into the list; otherwise the list is unchanged |
| ClientAppointments.AppointmentsPage.DeleteTestimonial | src/components/Appointments.jsx:443-454 | after confirmation a successful delete removes every testimonial with the id |
| AdminAppointments.ApproveSetsStatus | src/admin/pages/AppointmentsAdmin.jsx:75-77 | approve sets status "Approved" and adminComment "Approved ✅" on the records with that id, and changes nothing else |
| AdminAppointments.ProposePatch | src/admin/pages/AppointmentsAdmin.jsx:93-100 | defines the suggestion: status "Pending Reschedule", the suggested date and time and the fixed comment; the appointment's own date and time are not touched |
| AdminAppointments.CommentPatch | src/admin/pages/AppointmentsAdmin.jsx:113 | defines the comment write: only `adminComment` |
| AdminAppointments.Stored | src/admin/pages/AppointmentsAdmin.jsx:62-65 | defines what `updateAppointment` writes: the patch plus a server timestamp |
| AdminAppointments.NewestFirst | src/admin/pages/AppointmentsAdmin.jsx:136-137 | defines the render order: newest creation time first, a missing time counting as 0 |
| AdminAppointments.RevokeIdempotent | src/admin/pages/AppointmentsAdmin.jsx:79-86 | revoke sets status "Revoked" and is idempotent |
| AdminAppointments.ProposeKeepsSchedule | src/admin/pages/AppointmentsAdmin.jsx:93-100 | a proposal sets "Pending Reschedule", suggestedDate and suggestedTime, and leaves date and time untouched |
| AdminAppointments.CommentOnlyComment | src/admin/pages/AppointmentsAdmin.jsx:111-116 | a comment changes only adminComment of the records with that id |
| AdminAppointments.ProposalMissedByClient | src/components/Appointments.jsx:127-133 | an admin proposal never makes the client's prompt (as written) open |
| AdminAppointments.ProposalFoundByCorrectedPrompt | src/admin/pages/AppointmentsAdmin.jsx:93-100 | after an admin proposal on a listed appointment, the corrected prompt opens |
| AdminAppointments.Actions | src/admin/pages/AppointmentsAdmin.jsx:198-229 | Approve is offered iff status is neither "Approved" nor "Revoked", Reschedule iff status is not "Revoked", Comment and Revoke always |
| AdminAppointments.ActionsAfterAdminWrites | src/admin/pages/AppointmentsAdmin.jsx:198-229 | after the admin's revoke only Comment and Revoke remain; after approve, Reschedule, Comment and Revoke |
| AdminAppointments.ClientRevokedStillApprovable | src/admin/pages/AppointmentsAdmin.jsx:198-229 | an appointment the client revoked (lower-case "revoked") is still offered Approve and Reschedule |
| AdminAppointments.Badge | src/admin/pages/AppointmentsAdmin.jsx:149-161 | the badge is "success", "danger" or "info" exactly for "Approved", "Revoked" and "Pending Reschedule" |
| AdminAppointments.ClientStatusesNeutral | src/admin/pages/AppointmentsAdmin.jsx:149-161 | every status the client page writes gets the neutral "secondary" badge |
| AdminAppointments.RenderOrderSorted | src/admin/pages/AppointmentsAdmin.jsx:134-138 | the render-time sort puts the newest first and is a permutation |
| AdminAppointments.AdminAppointmentsPage.constructor | src/admin/pages/AppointmentsAdmin.jsx:33-41 | initial state: loading, no appointments, no modal |
| AdminAppointments.AdminAppointmentsPage.Load | src/admin/pages/AppointmentsAdmin.jsx:44-59 | on success the list is the query result; on failure the error is set; loading ends |
| AdminAppointments.AdminAppointmentsPage.UpdateAppointment | src/admin/pages/AppointmentsAdmin.jsx:62-73 | a successful write stores the patch with a server timestamp and merges the patch into the record with that id only; a failed write leaves the list and sets "Action failed. Try again." |
| AdminAppointments.AdminAppointmentsPage.Approve | src/admin/pages/AppointmentsAdmin.jsx:75-77 | the approve patch through `UpdateAppointment` |
| AdminAppointments.AdminAppointmentsPage.Revoke | src/admin/pages/AppointmentsAdmin.jsx:79-86 | after confirmation, the revoke patch through `UpdateAppointment` |
| AdminAppointments.AdminAppointmentsPage.OpenReschedule | src/admin/pages/AppointmentsAdmin.jsx:88-91 | the reschedule modal opens on the appointment |
| AdminAppointments.AdminAppointmentsPage.OpenComment | src/admin/pages/AppointmentsAdmin.jsx:106-109 | the comment modal opens on the appointment |
| AdminAppointments.AdminAppointmentsPage.SubmitReschedule | src/admin/pages/AppointmentsAdmin.jsx:93-104 | a missing date or time is refused; otherwise the proposal is written, and the modal closes and clears even when the write failed |
| AdminAppointments.AdminAppointmentsPage.SubmitComment | src/admin/pages/AppointmentsAdmin.jsx:111-116 | a blank comment is refused; otherwise only adminComment is written and the modal closes |
| AdminAppointments.AdminAppointmentsPage.SortForRender | src/admin/pages/AppointmentsAdmin.jsx:134-138 | the state list is reordered newest first, in place |
| Dashboard.FormatPhoneShape | src/admin/AdminDashboard.jsx:122-127 | "" for an empty input; otherwise the result is all digits and starts with "254" |
| Dashboard.FormatPhoneFixes | src/admin/AdminDashboard.jsx:124-126 | a digit string that starts with "254" is unchanged |
| Dashboard.FormatPhoneIdempotent | src/admin/AdminDashboard.jsx:124-127 | normalising twice equals normalising once |
| Dashboard.FormatPhoneSpellings | src/admin/AdminDashboard.jsx:124-126 | "0"+n, n and "254"+n all normalise to "254"+n |
| Dashboard.FormatPhoneExamples | src/admin/AdminDashboard.jsx:124-126 | "0712345678", "712345678" and "254712345678" all give "254712345678" |
| Dashboard.FormatPhoneNumber | src/admin/AdminDashboard.jsx:122-128 | the step-by-step normalisation computes `FormatPhone` and yields digits starting with "254" |
| Dashboard.WhatsAppNumbersNormal | src/components/Appointments.jsx:91 | a number the booking form accepts is already in normal form |
| Dashboard.Enrich | src/admin/AdminDashboard.jsx:70-83 | keeps the id and every field but clientName and phone; clientName is always truthy; an appointment's own truthy clientName is kept; the fallback order is that of `ClientName` and `ClientPhone` |
| Dashboard.Eligible | src/admin/AdminDashboard.jsx:57-61 | defines which appointments the dashboard lists: a string status that lower-cases to "approved" or "rescheduled" |
| Dashboard.MatchAsWritten | src/admin/AdminDashboard.jsx:63-69 | defines the user matching as written, where two missing fields are equal (its consequence is `PhonelessBookingTakesFirstUser`) |
| Dashboard.MatchedUser | src/admin/AdminDashboard.jsx:63-69 | defines the matched user as the first user the matching as written accepts |
| Dashboard.MatchDefined | src/admin/AdminDashboard.jsx:63-69 | defines the corrected matching: only a field the appointment has can match (stated by `MatchDefinedSound`) |
| Dashboard.MatchedUserDefined | src/admin/AdminDashboard.jsx:63-69 | defines the corrected matched user: the first user the corrected matching accepts |
| Dashboard.IsSelf | src/admin/AdminDashboard.jsx:39-41 | defines the signed-in admin's own record: same email or same uid |
| Dashboard.ClientName | src/admin/AdminDashboard.jsx:72-76 | the first truthy of the appointment's clientName, the matched user's userName, then name, otherwise "Unnamed Client" |
| Dashboard.ClientPhone | src/admin/AdminDashboard.jsx:77-82 | the first truthy of the appointment's phone, its phoneNumber, the matched user's phone, then phoneNumber, otherwise "" |
| Dashboard.EnrichAll | src/admin/AdminDashboard.jsx:62-84 | each appointment is enriched with the first user the matching as written finds |
| Dashboard.BookingHasNoContactFields | src/components/Appointments.jsx:166-176 | a booking stored by the client page has no phone, phoneNumber or clientName |
| Dashboard.PhonelessBookingTakesFirstUser | src/admin/AdminDashboard.jsx:63-69 | such a booking is matched to the first user without a phoneNumber and shows that user's name and phone |
| Dashboard.MatchDefinedSound | src/admin/AdminDashboard.jsx:63-69 | the corrected matching pairs only records that share a defined phone or user id, and never pairs a booking without any |
| Dashboard.AllAndBlankShowEverything | src/admin/AdminDashboard.jsx:102-119 | status "all" with a blank search shows the whole list |
| Dashboard.StatusFilterIgnoresCase | src/admin/AdminDashboard.jsx:104-107 | the status filter ignores case, except that only exactly "all" switches it off |
| Dashboard.SearchIgnoresCase | src/admin/AdminDashboard.jsx:109-117 | a search and its lower-cased form show the same cards |
| Dashboard.StatusMatches | src/admin/AdminDashboard.jsx:104-107 | defines the status filter: exactly "all" keeps every card, otherwise the lower-cased statuses agree |
| Dashboard.SearchMatches | src/admin/AdminDashboard.jsx:109-117 | defines the search: a blank search keeps every card, otherwise the lower-cased search occurs in the client name, service or phone |
| Dashboard.FieldIncludes | src/admin/AdminDashboard.jsx:113-115 | defines one search field test: a string field whose lower-cased text contains the lower-cased search |
| Dashboard.ShownBy | src/admin/AdminDashboard.jsx:102-119 | defines a shown card as one that passes both filters (used by `ApplyFilters`) |
| Dashboard.FormatPhone | src/admin/AdminDashboard.jsx:122-128 | defines the phone formatting; its meaning is stated by `FormatPhoneShape`, `FormatPhoneSpellings` and `FormatPhoneIdempotent` |
| Dashboard.WelcomeName | src/admin/AdminDashboard.jsx:39-42 | without a matching user the current name is kept; with one, it is the user's truthy userName, else their truthy name, else "Admin" |
| Dashboard.WelcomeNameFromFirstSelf | src/admin/AdminDashboard.jsx:39-42 | the first user that matches the uid or the email is the one used, and the welcome name is then truthy |
| Dashboard.Engage | src/admin/AdminDashboard.jsx:131-146 | no phone gives the alert; otherwise WhatsApp opens on the normalised number |
| Dashboard.Call | src/admin/AdminDashboard.jsx:149-153 | no phone gives the alert; otherwise the dialled URI is "tel:+" and the normalised number |
| Dashboard.EngageOpensWhatsApp | src/admin/AdminDashboard.jsx:131-146 | for a non-empty phone held as text, Engage opens WhatsApp on digits that start with the country code 254 |
| Dashboard.CallIsGlobalNumber | src/admin/AdminDashboard.jsx:152 | the dialled URI is a global number ("tel:+" then digits starting with the country code 254), as section 5.1.4 of RFC 3966 describes |
| Dashboard.DashboardPage.constructor | src/admin/AdminDashboard.jsx:20-26 | initial state: no data, loading, filter "all", welcome name "Admin" |
| Dashboard.DashboardPage.LoadUsers | src/admin/AdminDashboard.jsx:29-48 | only with a signed-in user and a successful read are the users replaced and the welcome name resolved |
| Dashboard.DashboardPage.LoadAppointments | src/admin/AdminDashboard.jsx:51-99 | with no users nothing runs and loading never clears; otherwise the eligible appointments are enriched and loading ends |
| Dashboard.DashboardPage.ShowAppointments | src/admin/AdminDashboard.jsx:51-99 | the state updates of that effect given the finished list: both lists become it only when users are loaded and the read succeeded |
| Dashboard.DashboardPage.ApplyFilters | src/admin/AdminDashboard.jsx:102-119 | the filtered list is the in-order sublist passing the status filter and the search |
| Auth.LookupProfile | src/context/AuthContext.jsx:17 | the lookup fails iff the read fails; it finds the stored profile, or reports none |
| Auth.RoleOf | src/context/AuthContext.jsx:18-22 | a found profile gives its role field; a missing profile or a failed lookup gives "user" |
| Auth.UserAfter | src/context/AuthContext.jsx:15-26 | sign-out gives no user; sign-in gives the user with `RoleOf` of the lookup |
| Auth.Step | src/context/AuthContext.jsx:14-28 | defines one run of the callback: the user is replaced, then loading ends |
| Auth.Replay | src/context/AuthContext.jsx:14-28 | defines the state after a sequence of callback runs, in order (its result is stated by `ReplayLast`) |
| Auth.ReplayLast | src/context/AuthContext.jsx:14-28 | after any non-empty sequence of events, the user is the last event's and loading is false |
| Auth.RoleDefaults | src/context/AuthContext.jsx:18-22 | a missing or failed lookup gives role "user"; a profile's own role is kept |
| Auth.AuthProvider.constructor | src/context/AuthContext.jsx:10-11 | initially no user and loading |
| Auth.AuthProvider.OnAuthStateChanged | src/context/AuthContext.jsx:14-28 | the callback replaces the user and ends loading on every branch |
| AdminRouteGuard.AdminRoute | src/admin/utils/AdminRoutes.jsx:8-14 | loading shows the loading view; the children iff a user with role exactly "admin" or "superadmin"; every other case redirects to "/appointments" |
| AdminRouteGuard.IsAdminRole | src/admin/utils/AdminRoutes.jsx:10 | defines an admin role: exactly the string "admin" or "superadmin" |
| AdminRouteGuard.OtherRolesRedirected | src/admin/utils/AdminRoutes.jsx:10 | every role other than exactly "admin" or "superadmin", and no role or no user at all, is redirected to "/appointments" once loading is over |
| AdminRouteGuard.RoleCaseMatters | src/admin/utils/AdminRoutes.jsx:10 | "Admin", "ADMIN", " admin", "Superadmin", a number or no role are not admin roles |
| PrivateRouteGuard.PrivateRoute | src/context/PrivateRoute.jsx:8-10 | loading first; then the children iff there is a user, whatever the role; otherwise "/login" |
| PrivateRouteGuard.OnlyPresenceMatters | src/context/PrivateRoute.jsx:6-10 | the outcome depends only on the flag and on whether there is a user |
| AppRoutes.TrimSlashes | src/App.jsx:55-125 | trailing slashes are dropped and nothing else changes |
| AppRoutes.Normal | src/App.jsx:55-125 | the compared path is the lower-cased pathname with its trailing slashes, and only those, removed; it is lower case and does not end in '/' |
| AppRoutes.MatchesNormal | src/App.jsx:55-125 | defines pattern matching on a normalised path: "/" matches the empty path, "/blog/:id" one non-empty segment after "/blog/", the others exact equality |
| AppRoutes.Resolve | src/App.jsx:55-125 | defines the rendered route as the route that matches (made unique by `ResolveMatching`) |
| AppRoutes.Render | src/App.jsx:53-125 | defines the screen as the resolved route's page behind its guard, or nothing (used by `FailClosed`) |
| AppRoutes.GuardView | src/App.jsx:65-125 | defines what each kind of route shows: public routes their page, the others what `PrivateRoute` or `AdminRoute` decides |
| AppRoutes.NormalLowerCase | src/App.jsx:55-125 | lower-casing a normalised path changes nothing |
| AppRoutes.PatternsIdentify | src/App.jsx:57-125 | two table entries with the same pattern are the same route |
| AppRoutes.StaticNotPost | src/App.jsx:57-125 | every pattern is the root, the single-post pattern, or a static path that no single-post path equals |
| AppRoutes.ShapesUnique | src/App.jsx:57-125 | two patterns of those shapes that match one normalised pathname are equal |
| AppRoutes.MatchesNormalUnique | src/App.jsx:57-125 | a path matches at most one route |
| AppRoutes.ResolveMatching | src/App.jsx:55-125 | a path that matches a route resolves to exactly that route |
| AppRoutes.AdminTeamUnrouted | src/admin/components/Topbar.jsx:27 | the Topbar's "/admin/team" link resolves to no route, in any letter case |
| AppRoutes.NoRouteOfLength11 | src/App.jsx:57-125 | no route matches a normalised path of length 11 whose second character is 'a' |
| AppRoutes.AdminPagesGuarded | src/App.jsx:74-125 | every administrative page, and only those, is behind the admin guard |
| AppRoutes.FailClosed | src/App.jsx:57-125 | no path shows an administrative page to a visitor without a user or with a non-admin role |
| AppRoutes.AppointmentsNeedSignIn | src/App.jsx:65-72 | "/appointments" shows its page only to a signed-in user once loading ends |
| AppRoutes.AppointmentsOpenWhenSignedIn | src/App.jsx:65-72 | conversely, a signed-in user sees the page at any spelling of "/appointments" once loading ends |
| AppRoutes.AppointmentsPrivate | src/App.jsx:65-72 | the appointments route is behind the signed-in guard |
| AppRoutes.AdminPatternShape | src/App.jsx:74-125 | every administrative pattern starts with "/admin" |
| AppRoutes.AdminPagesHideNavbar | src/App.jsx:49-53 | a lower-case path that reaches an administrative page hides the public navbar |
| AppRoutes.ShowsNavbar | src/App.jsx:49-53 | defines the navbar test as written: shown unless the pathname starts with "/admin", case-sensitively |
| AppRoutes.ShowsNavbarAnyCase | src/App.jsx:49 | defines the corrected navbar test on the lower-cased pathname |
| AppRoutes.CapitalAdminShowsNavbar | src/App.jsx:49-53 | as written, a path with a capital in "/admin" that normalises to "/admin/dashboard" reaches the admin dashboard with the public navbar shown |
| AppRoutes.NormalCapitalDashboard | src/App.jsx:49-58 | "/ADMIN/dashboard" normalises to "/admin/dashboard" |
| AppRoutes.LowerLetters | src/App.jsx:55-125 | a path whose characters lower-case one by one to a pattern without a trailing slash normalises to it |
| AppRoutes.AdminPagesHideNavbarAnyCase | src/App.jsx:49-53 | with the prefix test on the lower-cased path, every path that reaches an administrative page, in any case, hides the navbar |
| Login.Destination | src/pages/Login.jsx:33-47 | a failed lookup navigates nowhere; "/admin/dashboard" iff a profile with an admin role; otherwise "/appointments" |
| Login.SignInSucceeds | src/pages/Login.jsx:22-25 | defines a successful sign-in: the backend answers and the account exists with that password |
| Login.DestinationAdmitted | src/pages/Login.jsx:33-45 | the admin guard admits the user sent to the dashboard |
| Login.ClientsKeptOut | src/pages/Login.jsx:39-45 | a user sent to "/appointments" is turned away by the admin guard |
| Login.LoginPage.constructor | src/pages/Login.jsx:10-13 | initially no error, not loading |
| Login.LoginPage.Submit | src/pages/Login.jsx:16-51 | a sign-in or lookup failure sets the error and navigates nowhere; success navigates to `Destination`; loading ends |
| ClientsAdmin.ProfileFor | src/admin/pages/ClientsAdmin.jsx:66-72 | the user record has the client's name, email and phone, role "client", and the client's creation date or a local date |
| ClientsAdmin.ListedUser | src/admin/pages/ClientsAdmin.jsx:81-86 | the appended user has the client's name, email and phone and role "client" |
| ClientsAdmin.PromoteComplete | src/admin/pages/ClientsAdmin.jsx:55-75 | a completed promotion leaves an account with the password, a reset mail, the profile under the email and no staged client |
| ClientsAdmin.Promote | src/admin/pages/ClientsAdmin.jsx:55-75 | defines the four backend steps of a promotion, each with its own outcome, a failed step keeping the earlier ones (stated by `PromoteComplete` and `RetryAfterPartialFailure`) |
| ClientsAdmin.PasswordFor | src/admin/pages/ClientsAdmin.jsx:60 | defines the account password: the client's non-empty password, otherwise "TempPassword123!" |
| ClientsAdmin.AccountAccepted | src/admin/pages/ClientsAdmin.jsx:57-61 | defines whether the identity provider takes the new account for the client's email and password |
| ClientsAdmin.RetryAfterPartialFailure | src/admin/pages/ClientsAdmin.jsx:57-75 | once the account exists, a retry is refused at its first step |
| ClientsAdmin.PromotedRoleUnseen | src/admin/pages/ClientsAdmin.jsx:65-72 | the profile is keyed by email, so the account's uid resolves to role "user" |
| ClientsAdmin.SessionAfterCreate | src/admin/pages/ClientsAdmin.jsx:57-61 | an accepted account made on the app's own authentication replaces the session with the new account and the role read for its uid (src/context/AuthContext.jsx:14-28); a declined one, or one made through a separate instance, leaves the session alone |
| ClientsAdmin.PromotionSignsAdminOut | src/admin/pages/ClientsAdmin.jsx:57-61 | after an accepted promotion the session belongs to the new client with role "user", and the admin guard redirects it to "/appointments" |
| ClientsAdmin.SecondaryAuthKeepsAdmin | src/admin/pages/ClientsAdmin.jsx:57-61 | an account made through a separate authentication instance leaves the session unchanged, so an admitted admin stays admitted |
| ClientsAdmin.EmptyTermKeepsAll | src/admin/pages/ClientsAdmin.jsx:109-121 | an empty search keeps every record |
| ClientsAdmin.EmailFindsClient | src/admin/pages/ClientsAdmin.jsx:109-121 | searching for a client's email finds it, before and after promotion |
| ClientsAdmin.TermMatches | src/admin/pages/ClientsAdmin.jsx:109-121 | defines the search: the lower-cased term occurs in the lower-cased name, email or phone, a missing one reading as "" |
| ClientsAdmin.ClientsAdminPage.constructor | src/admin/pages/ClientsAdmin.jsx:20-25 | initial state: loading, no lists, empty search |
| ClientsAdmin.ClientsAdminPage.Load | src/admin/pages/ClientsAdmin.jsx:28-47 | clients, then users; the first failed read sets "Failed to load data."; loading ends |
| ClientsAdmin.ClientsAdminPage.CreateAccountFor | src/admin/pages/ClientsAdmin.jsx:50-93 | nothing after a declined confirmation; lists change only after all four steps succeed, and then the client is removed and one user appended; any failure sets the error |
| ClientsAdmin.ClientsAdminPage.DeleteUser | src/admin/pages/ClientsAdmin.jsx:96-106 | after confirmation a successful delete removes only the users with that id |
| ClientsAdmin.ClientsAdminPage.FilteredClients | src/admin/pages/ClientsAdmin.jsx:109-114 | exactly the clients whose name, email or phone contains the term, ignoring case |
| ClientsAdmin.ClientsAdminPage.FilteredUsers | src/admin/pages/ClientsAdmin.jsx:116-121 | exactly the users whose name, email or phone contains the term, ignoring case |
| Services.FormError | src/components/Services.jsx:51-75 | accepted iff the phone, the trimmed password length in UTF-16 units and the confirmation all pass; the checks run in the order phone, length, match |
| Services.ValidPhone | src/components/Services.jsx:51 | defines the accepted phone: twelve characters, "254" then nine ASCII digits |
| Services.LongEnough | src/components/Services.jsx:52 | defines the password check: at least 6 UTF-16 units after trimming |
| Services.ClientFields | src/components/Services.jsx:78-86 | the stored record has no confirmPassword and a server timestamp |
| Services.WhatsAppNumbersPass | src/components/Services.jsx:51 | every number the booking form accepts passes here |
| Services.PhoneRuleLooserThanMessage | src/components/Services.jsx:51 | any "254" plus 9 digits passes, but the booking check holds only when the fourth digit is 7 |
| Services.StoredPasswordUsable | src/components/Services.jsx:62-86 | an accepted client's promotion uses their own password, which has at least 6 UTF-16 units |
| Services.LongEnoughUntrimmed | src/components/Services.jsx:52 | a password that passes the trimmed check has at least 6 UTF-16 units untrimmed |
| Services.ServicesPage.constructor | src/components/Services.jsx:17-31 | initial state: empty form, no error |
| Services.ServicesPage.Submit | src/components/Services.jsx:54-102 | a failed check writes nothing and sets its message; otherwise as `Persist` |
| Services.ServicesPage.Persist | src/components/Services.jsx:77-101 | success adds the client record, marks the form submitted and resets it; a failed write sets "Failed to register client. Please try again later." and changes nothing else |
| Services.Registered | src/components/Services.jsx:77-101 | defines the store after the client record is added, `None` when the write fails |
| Register.RegisterError | src/pages/Register.jsx:25-33 | accepted iff the passwords match and have at least 6 UTF-16 units; a mismatch is reported first |
| Register.ProfileFields | src/pages/Register.jsx:44-49 | the profile is keyed by uid and has role "normal" |
| Register.GoogleProfileFields | src/pages/Register.jsx:73-79 | role "normal" and the display name or "" |
| Register.SignedUpUsersAreClients | src/pages/Register.jsx:44-51 | a new user resolves to role "normal" and is kept out of the admin pages |
| Register.BlankPasswordsDiffer | src/pages/Register.jsx:30 | six blanks pass here but fail the services form's trimmed check |
| Register.RegisterPage.constructor | src/pages/Register.jsx:14-18 | initial state: empty fields, no error |
| Register.RegisterPage.Submit | src/pages/Register.jsx:21-58 | a failed check creates no account; success creates the account, writes the profile and navigates to "/appointments" |
| Register.RegisterPage.GoogleSignUp | src/pages/Register.jsx:61-89 | a profile is written only when none exists, so an existing role is kept |
| Landing.TrimText | src/pages/LandingPage.jsx:48-57 | cut iff the text has more than maxWords words; then the first maxWords words and "..."; otherwise the text itself |
| Landing.TrimmedIsWordPrefix | src/pages/LandingPage.jsx:50-54 | a cut text is a prefix of the text followed by a space, holding exactly maxWords words, then "..." |
| Landing.CardFor | src/pages/LandingPage.jsx:187-219 | the button shows iff the text was cut, labelled "Show Less" when the card is expanded and "Read More" otherwise; the expanded card shows the full text, the others the cut text |
| Landing.Toggle | src/pages/LandingPage.jsx:213-219 | clicking the expanded card collapses it; clicking another expands that one |
| Landing.ToggleExpandsOne | src/pages/LandingPage.jsx:187-219 | a click expands that card, collapses the others, and a second click collapses it again |
| ContactsAdmin.TruncateText | src/admin/pages/ContactsAdmin.jsx:55-59 | the text itself with at most wordLimit words; otherwise the first wordLimit words and "..." |
| ContactsAdmin.ShowsReadMore | src/admin/pages/ContactsAdmin.jsx:104 | defines when the "Read more" link shows: more than 15 space-separated words |
| ContactsAdmin.ReadMoreIffShortened | src/admin/pages/ContactsAdmin.jsx:104 | Read More shows iff the card's text differs from the message |
| ContactsAdmin.ContactsAdminPage.constructor | src/admin/pages/ContactsAdmin.jsx:24-28 | initial state: loading, no contacts, no modal |
| ContactsAdmin.ContactsAdminPage.Load | src/admin/pages/ContactsAdmin.jsx:30-53 | on success the list is the query result; otherwise the error is set; loading ends |
| ContactsAdmin.ContactsAdminPage.ReadMore | src/admin/pages/ContactsAdmin.jsx:61-64 | the modal opens on the contact |
| ContactsAdmin.ContactsAdminPage.Delete | src/admin/pages/ContactsAdmin.jsx:66-76 | removes only the matching id; the modal closes only if it shows that contact; a failure keeps the list and sets the error |
| Blog.IndexOf | src/components/Blog.jsx:111 | the position of the first occurrence of the character |
| Blog.ShownWith | src/components/Blog.jsx:123 | defines which posts render: all of them, or only the expanded one |
| Blog.StripTags | src/components/Blog.jsx:111 | never longer; adds no '>'; a text without '<' is unchanged |
| Blog.NoTagCons | src/components/Blog.jsx:111 | a character in front of a tag-free text keeps it tag-free, unless a '<' meets a later '>' |
| Blog.StripTagsLeavesNoTag | src/components/Blog.jsx:111 | no complete tag is left after stripping |
| Blog.Preview | src/components/Blog.jsx:109-115 | "" without content; otherwise the first 50 words of the stripped text, with "..." iff there are more |
| Blog.PreviewBounded | src/components/Blog.jsx:112-114 | a preview has at most 50 words and ends in "..." iff the text had more |
| Blog.PreviewHasNoTag | src/components/Blog.jsx:109-115 | no tag survives into a preview |
| Blog.Visible | src/components/Blog.jsx:121-123 | with a post expanded only that post is rendered |
| Blog.NothingExpandedShowsAll | src/components/Blog.jsx:123 | with nothing expanded every post is rendered, in order |
| Blog.CommentFields | src/components/Blog.jsx:71-77 | the comment has blogId, name, email, comment and createdAt and no status |
| Blog.BlogPage.constructor | src/components/Blog.jsx:31-39 | initial state: no posts, nothing expanded, empty comment form |
| Blog.BlogPage.Load | src/components/Blog.jsx:42-55 | on success the posts are the query result |
| Blog.BlogPage.SetExpanded | src/components/Blog.jsx:123 | the expanded post is the one chosen |
| Blog.BlogPage.CommentSubmit | src/components/Blog.jsx:61-84 | an incomplete comment writes nothing; success adds it and resets the form; a failed write sets the error |
| Blog.BlogPage.Like | src/components/Blog.jsx:86-94 | a successful increment bumps only that post's likes by 1, a missing count read as 0 |
| SingleBlog.ShownCommentsApproved | src/pages/SingleBlog.jsx:51-64 | the shown comments are exactly this post's approved comments |
| SingleBlog.ApprovedFor | src/pages/SingleBlog.jsx:53-58 | defines the comment query: this post's comments with status exactly "approved" |
| SingleBlog.CommentFields | src/pages/SingleBlog.jsx:83-90 | a new comment has status "pending" and the post's id |
| SingleBlog.NewCommentAwaitsApproval | src/pages/SingleBlog.jsx:83-90 | a new comment is not shown until approved |
| SingleBlog.Bumped | src/pages/SingleBlog.jsx:103 | the local count goes up by 1, a missing count read as 0; other fields are kept |
| SingleBlog.BumpInSync | src/pages/SingleBlog.jsx:100-104 | the local count and the stored count move together |
| SingleBlog.SingleBlogPage.constructor | src/pages/SingleBlog.jsx:28-36 | initial state: no post, no comments, empty form |
| SingleBlog.SingleBlogPage.LoadBlog | src/pages/SingleBlog.jsx:39-48 | a stored post is shown; a missing one leaves the page as it was |
| SingleBlog.SingleBlogPage.LoadComments | src/pages/SingleBlog.jsx:51-64 | on success the comments are the approved-only query result |
| SingleBlog.SingleBlogPage.SubmitComment | src/pages/SingleBlog.jsx:71-97 | an empty field writes nothing; success adds a pending comment and resets the form |
| SingleBlog.SingleBlogPage.Like | src/pages/SingleBlog.jsx:100-104 | a successful increment bumps likes in store and page |
| SingleBlog.SingleBlogPage.Share | src/pages/SingleBlog.jsx:107-127 | after the share or copy step, a successful increment bumps shares |
| BlogsAdmin.ModerationFor | src/admin/pages/BlogsAdmin.jsx:246-264 | Approve iff the status is exactly "pending"; otherwise Revoke, also for a missing status |
| BlogsAdmin.ModerationToggles | src/admin/pages/BlogsAdmin.jsx:91-100 | approving shows the comment and offers Revoke; revoking hides it and offers Approve |
| BlogsAdmin.BlogListCommentHidden | src/components/Blog.jsx:71-77 | a blog-list comment is never shown and is offered Revoke; it takes a revoke and then an approve to publish it |
| BlogsAdmin.PendingCommentApprovable | src/pages/SingleBlog.jsx:83-90 | a pending comment is offered Approve, and one approval publishes it |
| BlogsAdmin.DeleteBlogKeepsComments | src/admin/pages/BlogsAdmin.jsx:72-77 | deleting a post leaves its comments in the store |
| BlogsAdmin.EditPanel | src/admin/pages/BlogsAdmin.jsx:79-82 | the form opens on the post |
| BlogsAdmin.TogglePanel | src/admin/pages/BlogsAdmin.jsx:118 | the button flips the form's visibility and keeps the post being edited |
| BlogsAdmin.TogglePanelClearing | src/admin/pages/BlogsAdmin.jsx:118 | the corrected button also forgets the post when it closes the form |
| BlogsAdmin.AddAfterClosedEditStillEdits | src/admin/pages/BlogsAdmin.jsx:79-82 | closing an edit and pressing "Add Blog" shows a form still bound to the closed post |
| BlogsAdmin.AddAfterClosedEditIsFresh | src/admin/pages/BlogsAdmin.jsx:118 | with the corrected button, "Add Blog" after closing an edit is bound to no post, however often it is pressed |
| BlogsAdmin.BlogsAdminPage.constructor | src/admin/pages/BlogsAdmin.jsx:25-33 | initial state: loading, no form, no modal |
| BlogsAdmin.BlogsAdminPage.FetchBlogs | src/admin/pages/BlogsAdmin.jsx:36-49 | on success the posts are the query result; loading ends |
| BlogsAdmin.BlogsAdminPage.FetchComments | src/admin/pages/BlogsAdmin.jsx:52-70 | on success the comments are those of the chosen post, whatever their status |
| BlogsAdmin.ForBlog | src/admin/pages/BlogsAdmin.jsx:56 | defines the moderation query: every comment of the post, whatever its status |
| BlogsAdmin.BlogsAdminPage.OpenComments | src/admin/pages/BlogsAdmin.jsx:84-88 | the modal opens on the post and loads its comments |
| BlogsAdmin.BlogsAdminPage.SetCommentStatus | src/admin/pages/BlogsAdmin.jsx:91-100 | a successful write stores the status and refetches, ending the comments' loading; a failed one changes nothing, the loading flag included |
| BlogsAdmin.BlogsAdminPage.DeleteComment | src/admin/pages/BlogsAdmin.jsx:103-108 | only after confirmation and a successful write is the comment deleted and the list refetched, ending the loading; otherwise nothing changes |
| BlogsAdmin.BlogsAdminPage.DeleteBlog | src/admin/pages/BlogsAdmin.jsx:72-77 | only after confirmation is the post deleted and the list refetched |
| BlogsAdmin.BlogsAdminPage.Edit | src/admin/pages/BlogsAdmin.jsx:79-82 | the state becomes `EditPanel` of the old state |
| BlogsAdmin.BlogsAdminPage.Saved | src/admin/pages/BlogForm.jsx:92-94 | the form's callbacks refetch, close the form and clear the edited post |
| BlogsAdmin.BlogsAdminPage.ToggleForm | src/admin/pages/BlogsAdmin.jsx:118 | the state becomes `TogglePanel` of the old state |
| BlogForm.BlogData | src/admin/pages/BlogForm.jsx:76-84 | exactly the seven fields; content is the editor's HTML; createdAt is the server's clock; a new post starts with 0 likes and shares |
| BlogForm.Written | src/admin/pages/BlogForm.jsx:74-95 | defines the store after a save: the post updated when one is being edited, otherwise added; `None` when the write fails |
| BlogForm.Save | src/admin/pages/BlogForm.jsx:86-90 | an edit updates the edited post; otherwise a new post is added |
| BlogForm.EditKeepsCounters | src/admin/pages/BlogForm.jsx:82-83 | an edit carries likes and shares over from the edited post, a missing count as 0 |
| BlogForm.EditOverwritesLiveCounters | src/admin/pages/BlogForm.jsx:81-87 | saving an edit writes the counts the form opened with over the stored ones, and resets createdAt |
| BlogForm.AddAfterClosedEditReplaces | src/admin/pages/BlogForm.jsx:86-87 | as written, a post saved from "Add Blog" after a closed edit replaces the closed post; no post is added |
| BlogForm.AddAfterClosedEditAdds | src/admin/pages/BlogForm.jsx:88-89 | with the corrected button, that post is added and the closed one is untouched |
| BlogForm.BlogFormView.constructor | src/admin/pages/BlogForm.jsx:33-37 | initial state: empty fields, no error, not loading |
| BlogForm.BlogFormView.LoadEdit | src/admin/pages/BlogForm.jsx:57-64 | the form is filled from the post being edited |
| BlogForm.BlogFormView.Submit | src/admin/pages/BlogForm.jsx:66-105 | an empty title or HTML sets "Title and content are required." and changes nothing else, on the form or the page; otherwise as `Persist` |
| BlogForm.BlogFormView.Persist | src/admin/pages/BlogForm.jsx:74-104 | success stores the post, refetches, ends the page's loading, closes the form and clears it; failure sets "Failed to save blog. Try again." and leaves the fields, the store and the page unchanged; loading ends |
| Text.Digits | src/admin/AdminDashboard.jsx:124 | only digits, no longer than the text; a text of digits is unchanged |
| Text.DigitsInOrder | src/admin/AdminDashboard.jsx:124 | the result is exactly the digits of the text, in order |
| Text.Lower | src/admin/AdminDashboard.jsx:106 | same length, every ASCII capital lowered, other characters kept |
| Text.LowerIdempotent | src/admin/AdminDashboard.jsx:106 | lowering twice equals lowering once |
| Text.IncludesSlice | src/admin/AdminDashboard.jsx:113-115 | a text includes every slice of itself |
| Text.TrimStart | src/components/Services.jsx:52 | a suffix of the text that is empty or starts with a non-space; what it drops is white space |
| Text.IsSpace | src/components/Services.jsx:52 | defines the characters `trim` removes: the ECMAScript WhiteSpace and LineTerminator characters |
| Text.IsBlank | src/admin/pages/AppointmentsAdmin.jsx:112 | defines a text of white space only, which `trim` empties (stated by `TrimEmptyIffBlank`) |
| Text.Includes | src/admin/AdminDashboard.jsx:113-115 | defines `s.includes(sub)`: sub occurs in s at some position |
| Text.TrimEnd | src/components/Services.jsx:52 | a prefix of the text that is empty or ends with a non-space; what it drops is white space |
| Text.Trim | src/components/Services.jsx:52 | no longer than the text, and neither end of the result is white space |
| Text.TrimIsMiddle | src/components/Services.jsx:52 | the result is a contiguous slice of the text whose two sides are white space |
| Text.TrimStartShorter | src/components/Services.jsx:52 | trimming the start does not lengthen the text in UTF-16 units |
| Text.TrimEndShorter | src/components/Services.jsx:52 | trimming the end does not lengthen the text in UTF-16 units |
| Text.TrimShorter | src/components/Services.jsx:52 | trimming does not lengthen the text in UTF-16 units |
| Text.Utf16Length | src/pages/Register.jsx:30 | `length` counts UTF-16 units: between one and two per character, one per character below U+10000 |
| Text.Utf16LengthAppend | src/pages/Register.jsx:30 | the UTF-16 length of a concatenation is the sum of the lengths |
| Text.EmojiLength | src/pages/Register.jsx:30 | three emoji are three characters but six UTF-16 units |
| Text.BlankIgnoresCase | src/admin/AdminDashboard.jsx:109-110 | lower-casing neither makes nor unmakes white space |
| Text.TrimStartBlank | src/admin/pages/AppointmentsAdmin.jsx:112 | trimming the start of a blank text leaves nothing |
| Text.TrimEndKeeps | src/admin/pages/AppointmentsAdmin.jsx:112 | a text that starts with a non-space does not trim to nothing |
| Text.TrimEmptyIffBlank | src/admin/pages/AppointmentsAdmin.jsx:112 | the trimmed text is empty iff every character is white space |
| Text.CountAppend | src/pages/LandingPage.jsx:49 | counts add up over concatenation |
| Text.CountAbsent | src/pages/LandingPage.jsx:49 | a text without the character counts 0 |
| Text.Split | src/pages/LandingPage.jsx:49 | at least one piece, and no piece holds the separator |
| Text.JoinSplit | src/pages/LandingPage.jsx:49-52 | joining the pieces with the separator gives the text back |
| Text.CountJoin | src/pages/LandingPage.jsx:52 | joining separator-free pieces adds one separator fewer than pieces |
| Text.SplitLength | src/pages/LandingPage.jsx:50 | a text has one more word than separators |
| Text.JoinPrefix | src/pages/LandingPage.jsx:52 | the first k pieces, joined, are a prefix of the text |
| Text.JoinPrefixSep | src/pages/LandingPage.jsx:52 | when more pieces follow, that prefix is followed by a separator |
| Text.FirstWordsAll | src/pages/LandingPage.jsx:56 | with fewer separators than n, the first n words are the whole text |
| Text.FirstWords | src/pages/LandingPage.jsx:48-53 | defines the first n space-separated words joined back with spaces (stated by `FirstWordsAll` and `FirstWordsCut`) |
| Text.FirstWordsCut | src/pages/LandingPage.jsx:52 | otherwise they are a prefix followed by a space, holding n - 1 spaces |
| Text.CountEllipsis | src/pages/LandingPage.jsx:52 | appending "..." adds no space |
| Text.LexLeTotal | src/components/Appointments.jsx:118 | the string order is total |
| Text.LexLe | src/components/Appointments.jsx:118 | defines the date order: lexicographic by code point |
| Text.LexLeTransitive | src/components/Appointments.jsx:118 | the string order is transitive |
| Lists.Filter | src/components/Appointments.jsx:300 | exactly the kept elements, with their multiplicities |
| Lists.FilterKeepsOrder | src/components/Appointments.jsx:300 | the result keeps the order of the rest |
| Lists.SubsequenceSkip | src/components/Appointments.jsx:300 | a subsequence of a list's tail is a subsequence of the list |
| Lists.SubsequenceTail | src/components/Appointments.jsx:300 | dropping the first element of a subsequence leaves a subsequence |
| Lists.FilterFilter | src/admin/AdminDashboard.jsx:103-118 | two filters in a row are one filter by both conditions |
| Lists.FilterAll | src/admin/AdminDashboard.jsx:104-111 | a filter that keeps everything changes nothing |
| Lists.FindFirst | src/components/Appointments.jsx:127-129 | `find` answers the first match, and fails iff there is none |
| Lists.Merge | src/admin/pages/AppointmentsAdmin.jsx:66-67 | the records with that id get the patch; the others are unchanged |
| Lists.MergeIdempotent | src/components/Appointments.jsx:283 | merging the same patch twice equals merging it once |
| Lists.BumpCounter | src/components/Blog.jsx:89-93 | only the records with that id get their counter raised by 1 |
| Lists.RemoveById | src/components/Appointments.jsx:300 | exactly the records with another id, in order |
| Lists.RemoveByIdIdempotent | src/components/Appointments.jsx:448 | removing twice equals removing once |
| Lists.InsertBy | src/components/Appointments.jsx:118 | a permutation of the list with the element added |
| Lists.InsertBySorted | src/components/Appointments.jsx:118 | inserting into a sorted list keeps it sorted |
| Lists.SortBy | src/components/Appointments.jsx:118 | a permutation of the list |
| Lists.SortBySorted | src/components/Appointments.jsx:118 | for a total preorder the result is sorted |
| Records.Put | src/admin/pages/ClientsAdmin.jsx:66-72 | the key reads as the given value, and the other keys are unchanged |
| Records.FirstTruthy | src/admin/AdminDashboard.jsx:72-83 | the first truthy value, or the default when none is truthy |
| Records.Truthy | src/admin/AdminDashboard.jsx:72-83 | defines JavaScript truthiness of a field: a missing field, "" and 0 are falsy, every other value truthy |
| Records.HasText | src/pages/SingleBlog.jsx:55-56 | defines `f.key === s` for a string `s` |
| Records.CounterOf | src/components/Blog.jsx:91 | defines `(f.key || 0)` for a counter |
| Records.SecondsOf | src/components/Appointments.jsx:122 | defines `(f.createdAt?.seconds || 0)` |
| Records.TextOf | src/admin/pages/ClientsAdmin.jsx:111-113 | defines `f.key || ''` for a text field |
| Store.Add | src/components/Appointments.jsx:166 | succeeds iff accepted; then the store gains exactly the new document, and the other documents, the accounts and the mails are kept |
| Store.Update | src/admin/pages/AppointmentsAdmin.jsx:65 | succeeds iff accepted and the document exists; then it merges the patch into that document only |
| Store.Increment | src/components/Blog.jsx:88 | succeeds iff accepted and the document exists; then it raises only that counter by 1, keeping the document's other fields, the other documents, the accounts and the mails |
| Store.Set | src/pages/Register.jsx:44 | succeeds iff accepted; then that document is replaced and nothing else changes |
| Store.Delete | src/components/Appointments.jsx:298 | succeeds iff accepted; then only that document is gone, whether or not it existed, and nothing else changes |
| Store.CreateAccount | src/admin/pages/ClientsAdmin.jsx:57-61 | accepted iff the email is new and non-empty and the password has at least 6 UTF-16 units; then the account holds that password |
| Store.SendReset | src/admin/pages/ClientsAdmin.jsx:63 | on success the mail to that address is recorded |
| Store.Query | src/components/Appointments.jsx:103-107 | exactly the documents of the collection that match |

## Left out

- Firebase Auth and Firestore are replaced by `Store.Db` and a success boolean per write. The query engine, `orderBy`, security rules and network errors are not modelled. A read's result is a parameter tied to the store. Its order is the backend's.
- `serverTimestamp()` stays an unresolved `ServerTime` value. `new Date()` is a number parameter. dayjs parsing, and the dashboard's sort by date and time, are replaced by an abstract integer key.
- `localeCompare` on dates is modelled as plain lexicographic order by code point.
- Firestore refuses a record with an `undefined` field. This is folded into the write's success boolean.
- A field that is not a string reads as "" through `Records.TextOf`. A template string with a missing name shows "undefined" in the page, but "" in the model.
- A password's `length` is counted in UTF-16 units (`Text.Utf16Length`). The identity provider is taken to count its six-character minimum the same way.
- `toLowerCase` is modelled for ASCII letters only. `trim` is modelled for the white-space characters of the ECMAScript standard.
- Path matching ignores percent-decoding.
- The Services page's live `onSnapshot` subscription of the team list is not modelled. It only feeds a display.
- DOMPurify and the tiptap editor are not modelled. The editor's HTML is an opaque string parameter, so an empty editor's "<p></p>" is not modelled either. The Cloudinary image upload is also out.
- The following browser calls are not modelled: `navigator.share`, the clipboard, `window.open` and `location`. The WhatsApp message text and `encodeURIComponent` are also out. `SingleBlog.SingleBlogPage.Share` takes whether the share or copy step succeeded.
- Blog.jsx's `handleShare` is not modelled. It only opens the browser's share sheet.
- `alert` is recorded as a notice string. `console.error` is dropped.
- Asynchronous interleaving and React effect re-runs are out of scope. This includes the load effect that re-runs on `error` with a stale `alert(error)`, and a refetch that is not awaited. Each handler runs to completion.
- The "submitting" flags are not modelled. Each is set at the start of a handler and cleared in its `finally`. Form change handlers that copy one input into the state are also out.
- The landing page's placeholder testimonials, and its layout, are not modelled.
- `ClientsAdmin.ClientsAdminPage.CreateAccountFor`: the method does not change the authentication session. The session switch that account creation causes is stated separately by `ClientsAdmin.SessionAfterCreate` and `ClientsAdmin.PromotionSignsAdminOut`. After the switch, the reset mail, the profile write and the client deletion run as the new client; whether the security rules allow that is folded into their success booleans.
- `Login.LoginPage.Submit`: the error text comes from the identity provider and is a parameter.
- Navbar.jsx, Topbar.jsx, Footer.jsx and main.jsx are presentation. Only the Topbar's "/admin/team" link is used. AdminTeam.jsx, SiignUp.jsx, ChangePassword.jsx and ResetPassword.jsx are not part of this model: they are unrouted, or are wrappers around the identity provider.
- The page classes keep the as-written behaviour of each defect listed under Findings. The corrected definitions are proved beside them.

## Findings

| source | as written | input that shows it | evidently intended | confidence | as-written member | corrected member |
|---|---|---|---|---|---|---|
| src/components/Appointments.jsx:127-129 | the client's prompt looks for status "pending reschedule", while the admin screen writes "Pending Reschedule" (src/admin/pages/AppointmentsAdmin.jsx:96) | any appointment on which the admin proposed a new time | the prompt opens for the status the admin writes | high; not executed | AdminAppointments.ProposalMissedByClient | AdminAppointments.ProposalFoundByCorrectedPrompt |
| src/admin/AdminDashboard.jsx:63-69 | `u.phoneNumber === appt.phone` holds when both are `undefined` | a booking made on the client page (no phone, no phoneNumber, no clientName), with a first user that has no phoneNumber | only defined values match | high; not executed | Dashboard.PhonelessBookingTakesFirstUser | Dashboard.MatchDefinedSound |
| src/components/Blog.jsx:71-77 | comments posted from the blog list have no status, so the post page never shows them and moderation offers "Revoke" | any comment submitted from the blog list | the comment is stored as "pending", as the post page does | high; not executed | BlogsAdmin.BlogListCommentHidden | BlogsAdmin.PendingCommentApprovable |
| src/admin/pages/BlogsAdmin.jsx:118 | the "Close" button hides the form but keeps the post being edited | press Edit on a post, press Close, press "Add Blog", and save | closing the form clears the edited post, so "Add Blog" adds a new post | medium; not executed | BlogForm.AddAfterClosedEditReplaces | BlogForm.AddAfterClosedEditAdds |
| src/App.jsx:49 | the navbar is hidden by a case-sensitive `startsWith('/admin')`, while the routes match case-insensitively | "/ADMIN/dashboard" | every path that reaches an administrative page hides the public navbar, as a lower-case one does | medium; not executed | AppRoutes.CapitalAdminShowsNavbar | AppRoutes.AdminPagesHideNavbarAnyCase |
| src/admin/pages/ClientsAdmin.jsx:57-61 | the account is created on the app's own authentication instance, which signs the new client in and the admin out | any confirmed promotion the identity provider accepts | the admin stays signed in while the client's account is created | medium; not executed | ClientsAdmin.PromotionSignsAdminOut | ClientsAdmin.SecondaryAuthKeepsAdmin |
