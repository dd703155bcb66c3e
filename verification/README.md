# FreightForge account registry and waybill lifecycle, in Dafny

FreightForge is a prototype rail-freight portal. Its page code keeps four in-memory dictionaries:
approved accounts (`USERS`), pending accounts (`PENDING_USERS`), shipments (`SHIPMENTS`) and
waybills (`WAYBILLS`). It also keeps three session keys: the stashed registration, the issued OTP
and the logged-in user. Two small state machines sit inside the page branches:

- **Account registry.** Registration has two steps: form validation, then OTP confirmation. The
  admin approves or rejects pending accounts. Login checks the password and the approval.
- **Waybill lifecycle.** Booking creates a waybill with three seeded tracking checkpoints and an
  ETA, and files the same booking details as a shipment. Tracking is an exact lookup. Simulating
  delivery is a one-way transition to `Delivered`.

This project lifts both machines out of the page code as pure transitions over one immutable
`State` record.

- `records.dfy` (module `Records`): the data model.
- `registry.dfy` (module `Registry`): login, the admin check, registration, approve and reject.
- `tracking.dfy` (module `Tracking`): waybill generation, booking, tracking and delivery.
- `portal.dfy` (module `Portal`): the seeded start state, the user actions, and the invariant
  proved for every state reachable from the seed.
- `wrappers.dfy` (module `Wrappers`): `Option` and `Result`.

A refused transition returns `Failure(reason)`. The state is then unchanged (`Portal.Settle`).
The OTP, the waybill reference and the clock are inputs. Time is whole hours on one clock.

Behaviour of the code that the model keeps:

- Delivery updates only the waybill; the shipment under the same reference keeps status `Booked`.
- Validating the same username twice before the OTP is confirmed succeeds both times; the
  second replaces the stashed registration. A duplicate is only refused once the first
  registration has been filed as pending.
- The approval state is a string held under an optional key (`"yes"`, `"no"` or absent).
- A waybill reference that is already in use is overwritten without a check.
- There is no persistence layer: all state is in memory.

The user actions of `Portal` use the corrected approvals page (`Registry.Approve`,
`Registry.Reject`; see "## Findings"), so the reachability lemmas are stated for it. The page as
written reaches no more states: the contracts of `Registry.ApproveAsWritten` and
`Registry.RejectAsWritten` say that whenever they succeed they produce the corrected result, and
that they differ from it exactly on pending records without an approval value.

## Model

| member | source | states |
|---|---|---|
| Registry.CheckUser | freight_forge_app.py:81-89 | a record is returned iff the username is an approved-dictionary key, its password equals the given one exactly and its approval value is "yes"; the record returned is the stored one |
| Registry.Login | freight_forge_app.py:177-191 | login succeeds exactly when the login predicate matches, and then the session user is the stored record; a failed attempt changes nothing, so an earlier session user stays |
| Registry.PendingRecord | freight_forge_app.py:153-164 | a stashed registration carries every form field (username, business name, contact person, email, mobile, PAN/GST, business type, address, password and the uploaded document's bytes) and has no approval value |
| Registry.RequestOtp | freight_forge_app.py:145-164 | refused with MissingFields iff the form is not `Registry.Complete` (business name, contact person, email, mobile, PAN/GST, username or password empty, or no document uploaded; business type and address are not required); otherwise refused with UsernameTaken iff the username is `Registry.Taken` (a key of either dictionary); on success the stash holds exactly this form's record with no approval value, the OTP is the issued code, and nothing else changes |
| Registry.VerifyOtp | freight_forge_app.py:166-175 | refused when no OTP is set or the entered code differs; on a match the stashed record is filed in the pending dictionary under its username without re-checking it, all other pending entries and the approved dictionary are unchanged, and both session keys are cleared |
| Registry.Approve | freight_forge_app.py:195-216 | refused as NotAdmin iff the session is not an admin's and as NotPending iff an admin names a non-pending user; allowed only for an admin session (`Registry.IsAdmin`: the session user's username is "admin") and a pending username; the record, marked "yes", joins the approved dictionary and leaves the pending one, and every other entry of both dictionaries is unchanged |
| Registry.Reject | freight_forge_app.py:195-224 | refused as NotAdmin iff the session is not an admin's and as NotPending iff an admin names a non-pending user; allowed only for the admin session and a pending username; exactly that key leaves the pending dictionary, and the approved dictionary is unchanged |
| Registry.ApproveAsWritten | freight_forge_app.py:204-216 | as written, approving a pending record with no approval value fails before the approve button is drawn, because the listing row looks the value up directly; it differs from the corrected approve exactly in that case, so the seeded records marked "no" are approved as usual |
| Registry.RejectAsWritten | freight_forge_app.py:204-224 | as written, the same listing failure precedes the reject button; it differs from the corrected reject exactly on records with no approval value |
| Registry.LoginPreservesInv | freight_forge_app.py:186-188 | login keeps the registry invariant: the session user is the current approved record under its name |
| Registry.RequestOtpPreservesInv | freight_forge_app.py:148-164 | validation keeps the registry invariant: a stashed registration's username is still unclaimed in both dictionaries |
| Registry.VerifyOtpPreservesInv | freight_forge_app.py:171-173 | the OTP commit keeps the dictionaries disjoint and each record under its own username |
| Registry.ApprovePreservesInv | freight_forge_app.py:212-216 | approve keeps the dictionaries disjoint and every approved record marked "yes" |
| Registry.RejectPreservesInv | freight_forge_app.py:224 | reject keeps the registry invariant |
| Registry.PendingCannotLogin | freight_forge_app.py:86-89 | under the invariant, a pending username cannot log in with any password |
| Registry.ApproveThenLogin | freight_forge_app.py:210-216 | after approval a pending user logs in with its registered password and gets the approved record |
| Registry.RejectThenNoLogin | freight_forge_app.py:222-224 | after rejection the username cannot log in with any password |
| Registry.AdminSessionIsAdminRecord | freight_forge_app.py:91-93 | under the invariant, a session that passes `Registry.IsAdmin` (its user's username is "admin") holds exactly the approved "admin" record |
| Registry.RegisterTwiceIsTaken | freight_forge_app.py:148-171 | once a username has been validated and its OTP confirmed, validating it again is refused as taken, whatever else the form holds |
| Registry.RequestOtpTwiceReplaces | freight_forge_app.py:148-164 | validating the same username twice before confirmation succeeds, and the second form replaces the stashed registration |
| Registry.WrongOtpKeepsRegistration | freight_forge_app.py:169-175 | a wrong code is refused and leaves the stashed registration in place |
| Registry.RegisteredUserApprovalCrashesAsWritten | freight_forge_app.py:153-164 | as written, an account registered through the form reaches the pending dictionary without an approval value, so its approve and reject buttons are never drawn |
| Registry.RegisteredUserCanBeApproved | freight_forge_app.py:166-216 | with the corrected listing, the same account is approved and can then log in with the password it chose |
| Tracking.GenerateWaybill | freight_forge_app.py:66-79 | a new waybill is booked, embeds the given details under the given reference, has three checkpoints starting at booking time, none of them "Delivered", and an ETA after every checkpoint |
| Tracking.SeededTimelineUndelivered | freight_forge_app.py:71-75 | the three seeded checkpoints contain no "Delivered" event |
| Tracking.ChargeCents | freight_forge_app.py:249-251 | the charge in cents equals, as an exact real number, the quantity times 900 km times 0.11 per ton-km, times 100 |
| Tracking.BookingDetails | freight_forge_app.py:261-272 | the details record the session user, the form's goods, quantity, origin, destination, dispatch date and train option, the charge of `Tracking.ChargeCents` for that quantity, status Booked and the booking hour |
| Tracking.Book | freight_forge_app.py:259-275 | refused iff nobody is logged in; otherwise the details built from the session user, the form and now (route, charge and all) sit under the reference as the shipment and inside the waybill, which is booked with checkpoints at now, now+4h and now+16h and ETA now+20h; the key sets grow by exactly the reference, every other entry and the accounts are unchanged |
| Tracking.Track | freight_forge_app.py:305-307 | a waybill is found iff the reference is exactly a key, and it is the stored one |
| Tracking.Deliver | freight_forge_app.py:306-319 | refused as not found iff the reference is not a key and as already delivered iff its waybill is delivered; otherwise the waybill becomes delivered with its old history as a prefix and one "Delivered" event at now appended, while the shipments, the other waybills and the accounts are unchanged |
| Tracking.BookPreservesInv | freight_forge_app.py:274-275 | booking keeps waybill and shipment keys equal and each waybill embedding the shipment beside it |
| Tracking.DeliverPreservesInv | freight_forge_app.py:317-319 | delivery keeps every waybill well formed: seeded prefix kept, one "Delivered" event exactly when delivered |
| Tracking.BookThenTrack | freight_forge_app.py:274-275 | a booked reference is then found by tracking, booked, embedding the shipment filed beside it |
| Tracking.BookOverwritesOnCollision | freight_forge_app.py:67-68 | booking under any reference already in use replaces the earlier waybill and shipment by the new booking's, and the number of waybills does not grow |
| Tracking.BookFreshGrows | freight_forge_app.py:67-68 | booking under a fresh reference adds exactly one waybill |
| Tracking.DeliverTwice | freight_forge_app.py:317-319 | a second delivery is refused as already delivered, and the history holds exactly one "Delivered" event |
| Tracking.DeliveryLeavesShipmentBooked | freight_forge_app.py:317-319 | after delivery the waybill is delivered while the shipment under the same reference is still booked |
| Portal.Seed | freight_forge_app.py:13-56 | the start state has the approved admin, the two customers pending with "no", no freight and an empty session, and satisfies the invariant |
| Portal.ApplyPreservesInv | freight_forge_app.py:145-319 | every user action, successful or refused, keeps the registry and freight invariants |
| Portal.RunPreservesInv | freight_forge_app.py:145-319 | any sequence of actions keeps the invariants |
| Portal.ReachableAccounts | freight_forge_app.py:13-56 | in every state reachable from the seed the account dictionaries are disjoint, every approved record says "yes", and no pending username can log in |
| Portal.ReachableWaybills | freight_forge_app.py:66-79 | in every reachable state each waybill embeds the shipment beside it, starts with the seeded timeline and holds at most one "Delivered" event |
| Portal.SeedAdminLogin | freight_forge_app.py:13-25 | from the start state, logging in as admin with the seeded password gives an admin session |
| Portal.SeedCustomersPending | freight_forge_app.py:27-56 | the seeded customers cannot log in, even with their own passwords |

## Left out

- Page rendering is not modelled: forms, tabs, messages, balloons, the debug output in the login
  check, and the waybill download text. None of it changes the state.
- The OTP and waybill-reference generators are random. Both values are inputs, with the
  generators' shape as a precondition: six digits, and ten upper-case letters or digits.
- Each read of the current time is separate in the code. The model uses one `now` per action,
  so the checkpoint offsets of 4, 16 and 20 hours are exact in the model.
- Tracking.ChargeCents: the float product of quantity, 900 km and 0.11 is held as integer cents
  (quantity × 900 × 11), so float rounding of the displayed charge is not modelled.
- The uploaded document is opaque bytes. Any upload, even an empty file, passes the form's check,
  so the model only asks that a file is present.
- The unused session keys written by the OTP sender (verified flag, contact) and the
  just-booked reference are left out.
- The page runtime re-executes the page module on every interaction, which would re-seed the four
  dictionaries. The model treats them as persisting, as the seeding guards evidently intend.
- The "Book & Pay Now" button is drawn inside the branch of the inquiry form's submit button.
  "Simulate Delivery" is drawn inside the branch of "Track Now". Under the runtime's
  one-click-per-interaction buttons, neither click ever reaches its action. The model takes
  booking and delivery as the transitions the pages evidently intend.
- Registry.ApproveAsWritten: checks only the approved record's own listing row, not the rows
  before it in dictionary insertion order, which the model's maps do not keep. In one session
  this is exact: the only pending records with an approval value are the seeded ones, and they
  are inserted before any record registered through the form.
- Registry.RejectAsWritten: the same as ApproveAsWritten.
- One session is modelled. With several sessions sharing the dictionaries, the OTP commit's
  missing uniqueness re-check could overwrite a pending record. `Registry.VerifyOtp`'s contract
  states that overwrite but no multi-session interleaving is modelled.
- The quantity and dispatch-date limits are enforced by the form widgets; the model
  keeps the 1–1000 ton bound as a type and leaves the date unconstrained.

## Findings

| source | as written | input that shows it | evidently intended | confidence | as-written member | corrected member |
|---|---|---|---|---|---|---|
| freight_forge_app.py:206 | the approvals listing reads each pending record's approval value by direct key lookup, but records filed through the registration form (lines 153-164) carry no such key | register any complete form, confirm the OTP, log in as admin, open the approvals tab: the row for the new account fails before its approve and reject buttons are drawn | the new account can be approved or rejected like the seeded ones, which carry "no" | high, not executed | Registry.ApproveAsWritten, shown by Registry.RegisteredUserApprovalCrashesAsWritten | Registry.Approve, proved by Registry.RegisteredUserCanBeApproved |
