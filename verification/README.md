# StayHealthy telehealth front end — a Dafny model of its state logic

StayHealthy is a React single-page application. Patients use it to find doctors,
book and reschedule appointments, chat with a doctor, leave reviews and get
notifications. It has no server: every rule lives in React state handlers and
context providers. This project models those handlers as Dafny code and proves
what they promise. The clock, `Math.random()` and the timers are turned into
explicit parameters.

The model follows the source file by file, one module per file:

- **Availability and booking.**
  - `Availability`: the per-doctor, per-date slot store, with its mock slot generator, slot check and subscriber registry.
  - `TimeSlotPicker`: the picker's update, selection and staleness handlers.
  - `BookingContext`: the booking draft — its ordered validation, the booking record and the reset.
  - `DoctorCard`: the next-seven-days search, the availability badge and the book button.
- **Slot lists and forms.**
  - `AppointmentRescheduleModal`: the 12-hour "hh:mm AM/PM" slot filter, submit and date change.
  - `AppointmentBooking`: the booking page's route guards, its copy of the slot filter and its submit guard.
  - `ProfileRescheduleModal`: the profile page's reschedule dialog.
  - `AppointmentForm`: the services booking form.
- **Validators.**
  - `Validation`: `validateField`, `validateForm` and `handleApiError`.
  - `ReviewForm`: the review checks.
  - `ChatInterface`: the send guard and the attachment limits.
- **List operations.**
  - `Notifications`: the notification store.
  - `NotificationCenter`: the drawer's filter tabs, badge and actions.
  - `FloatingNotification`: the floating button.
  - `DoctorContext`: the doctor filters.
  - `Appointments`: cancel, reschedule and the upcoming/past split, shared by both appointment lists.
  - `ReviewsList`: the review search, filter, sort, pagination and page strip.
  - `ConsultationHistory`, `MedicalReports`, `HealthTips`: the filtered lists of their pages.
  - `SelfCheckup`: the read-more toggles.

Two shared modules support the rest:

- `Common` holds the JavaScript helpers the source relies on:
  - `filter`, `includes` and `toLowerCase`;
  - `trim`, `split`, `parseInt` and `Number`;
  - the object spread `{ ...base, ...extra }`, used by the booking record and the doctor filters.
- `Sorting` holds an insertion sort that stands for `Array.prototype.sort`.

Components whose state React keeps in `useState` become classes. Their methods
change those fields and state the whole new state. Pure computations become
functions, and lemmas relate them to independent statements of what they do.

Subscriber callbacks are not called from inside the store. A store method that
notifies returns its deliveries, one `Delivery(callback, update)` per registered
handler, in registration order. A picker runs its own handler on the deliveries
addressed to its callback (`Picker.Receive`), so the picker's view after a batch
is `Replay` of its old view; deliveries for other handlers are left to the caller.

## Model

| member | source | states |
|---|---|---|
| Availability.GeneratedIsSubsequenceOfBase | src/context/AvailabilityContext.js:146-176 | every list `generateMockTimeSlots` and a fetch produce (today's, a random day's, or the empty list of a failed fetch) is an order-preserving subsequence of the twelve base slots |
| Availability.TodaySlotsAreLaterSlots | src/context/AvailabilityContext.js:162-173 | for today the generated list is exactly the base slots strictly later than the current hour and minute, in base order |
| Availability.TodaySlotMembership | src/context/AvailabilityContext.js:162-173 | base slot i is offered today iff its clock time (read independently of the string) is after the current time |
| Availability.BaseSlotClock | src/context/AvailabilityContext.js:146-159 | splitting base slot i on ':' and converting with `Number` gives the hour and minute it stands for |
| Availability.TodayAtQuarterPastTen | src/context/AvailabilityContext.js:166-172 | at 10:15 today's list starts at 10:30 and holds the remaining nine slots |
| Availability.TodayBeforeOpening | src/context/AvailabilityContext.js:162-173 | before 9:00 today's list is the whole base list |
| Availability.Store | src/context/AvailabilityContext.js:59-65 | storing a list under (doctor, date) makes it that key's list, adds only that doctor and date, and keeps every other doctor and date |
| Availability.StoreLeavesOthers | src/context/AvailabilityContext.js:59-65 | a lookup of any other (doctor, date) pair is unchanged by a store |
| Availability.Notify | src/context/AvailabilityContext.js:36-42 | one delivery per registered callback of that doctor, in registration order, each carrying the same update |
| Availability.NotifyReachesOnlyThatDoctor | src/context/AvailabilityContext.js:36-42 | a callback not registered for the doctor receives nothing |
| Availability.RemoveSlotSpec | src/context/AvailabilityContext.js:106 | the lost slot is gone, every other slot stays, and the order is kept |
| Availability.RemoveCallbackSpec | src/context/AvailabilityContext.js:23-33 | unsubscribing removes every occurrence of the callback, keeps the other callbacks and their order |
| Availability.RemoveNoCallbackKeepsAll | src/context/AvailabilityContext.js:29 | filtering with an `undefined` callback removes nothing |
| Availability.AvailabilityStore.Subscribe | src/context/AvailabilityContext.js:15-20 | the callback is appended to that doctor's list only |
| Availability.AvailabilityStore.Unsubscribe | src/context/AvailabilityContext.js:23-33 | that doctor's list loses the callback; other doctors are untouched |
| Availability.AvailabilityStore.Fetch | src/context/AvailabilityContext.js:45-90 | returns the generated list, stores exactly it under (doctor, date) and hands it to that doctor's subscribers; a failed fetch returns [] and sets the error; `loading` is false afterwards |
| Availability.AvailabilityStore.CheckSlot | src/context/AvailabilityContext.js:93-137 | true iff the slot is in the stored list and is not lost; a missing key reads as []; a loss removes the slot from that key only, notifies subscribers and returns false |
| TimeSlotPicker.SelectionAfterUpdate | src/components/booking/TimeSlotPicker.js:66-75 | the selection after an update is either the old one or null; a truthy selection survives iff it is among the new slots, so a surviving selection is always offered; an empty selection is left alone |
| TimeSlotPicker.Handle | src/components/booking/TimeSlotPicker.js:59-79 | one handler run on a view: an update for another doctor or date changes nothing; a matching one installs its slots, sets `lastUpdate` to now and keeps or clears the selection as `SelectionAfterUpdate` says |
| TimeSlotPicker.ReplaySelection | src/components/booking/TimeSlotPicker.js:59-79 | however many deliveries the handler runs on, the selection ends as it began or null |
| TimeSlotPicker.ReplayKeepsNone | src/components/booking/TimeSlotPicker.js:59-79 | a picker with nothing selected still has nothing selected after any deliveries |
| TimeSlotPicker.ReplayAppend | src/components/booking/TimeSlotPicker.js:59-79 | running the handler on two batches of deliveries in turn equals running it on both at once |
| TimeSlotPicker.ReplayClears | src/components/booking/TimeSlotPicker.js:66-75 | once a delivery to this handler for its doctor and date lacks the selected slot, the selection is null at the end of the batch |
| TimeSlotPicker.NotifyClears | src/context/AvailabilityContext.js:36-42 | when the store notifies a doctor's subscribers of slots that lack a registered picker's selection, that picker's handler clears the selection |
| TimeSlotPicker.Picker.LoadAvailability | src/components/booking/TimeSlotPicker.js:42-56 | the list becomes the fetch result, `lastUpdate` is now and the list is not stale; a failed fetch leaves the store and the selection alone and notifies no one; a successful one stores the slots and notifies every subscriber of the doctor, and this picker's own handler, when registered, runs on its delivery and clears a selection the new slots lack |
| TimeSlotPicker.Picker.HandleAvailabilityUpdate | src/components/booking/TimeSlotPicker.js:59-79 | the picker's new view is `Handle` of the old one: only an update for this doctor and date is applied; it replaces the slots, refreshes `lastUpdate` and clears a vanished selection; the flags are untouched |
| TimeSlotPicker.Picker.Receive | src/components/booking/TimeSlotPicker.js:59-79 | running the picker's handler on a batch of deliveries leaves it in `Replay` of its old view, ignoring deliveries addressed to other handlers; the flags are untouched |
| TimeSlotPicker.Picker.HandleSlotSelect | src/components/booking/TimeSlotPicker.js:117-146 | the slot is reported available iff the store holds it and it was not lost meanwhile; then it is committed and nothing is delivered; otherwise the loss and the reload are delivered, this picker's handler runs on its own deliveries, the list is the reload's result and a selected slot that was lost is cleared; `checking` is false on every path |
| TimeSlotPicker.Picker.StalenessTick | src/components/booking/TimeSlotPicker.js:96-99 | `isStale` is set exactly when more than 60000 ms have passed since `lastUpdate` |
| TimeSlotPicker.Picker.RefreshTick | src/components/booking/TimeSlotPicker.js:90-93 | the periodic refresh reloads: the list is the new fetch result and not stale, the deliveries are the store's notifications (none on a failed fetch) and the selection is what this picker's handler makes of its own deliveries |
| TimeSlotPicker.Picker.Mount | src/components/booking/TimeSlotPicker.js:82-88 | with a doctor and a date the picker loads, returning the load's notifications to the handlers registered before it, and then registers its handler at the end of the doctor's list; otherwise nothing changes and nothing is delivered |
| TimeSlotPicker.Picker.Teardown | src/components/booking/TimeSlotPicker.js:101-105 | the cleanup as written filters the doctor's list with an `undefined` callback |
| TimeSlotPicker.TeardownRemovesNothing | src/components/booking/TimeSlotPicker.js:104 | as written, the cleanup leaves the doctor's subscriber list exactly as it was |
| TimeSlotPicker.RemountDeliversTwice | src/components/booking/TimeSlotPicker.js:82-105 | mount, cleanup as written and remount leave the handler registered twice, so one update reaches it twice |
| TimeSlotPicker.Picker.TeardownOwnCallback | src/components/booking/TimeSlotPicker.js:101-105 | the intended cleanup removes every copy of this picker's handler from the doctor's list, keeps the other handlers in their order, and leaves other doctors and the stored slots unchanged |
| TimeSlotPicker.RemountWithOwnCallbackDeliversOnce | src/components/booking/TimeSlotPicker.js:82-105 | with the intended cleanup a remount delivers each update once |
| BookingContext.FirstFailure | src/context/BookingContext.js:27-43 | no message iff every check passed; otherwise the message of a failed check all of whose predecessors passed |
| BookingContext.ValidationIsFirstFailure | src/context/BookingContext.js:27-43 | `validateBookingData` reports the first missing item in the order user, doctor, date, time slot, booking type |
| BookingContext.ValidationPassesIffComplete | src/context/BookingContext.js:27-43 | validation passes iff all five are present and truthy |
| BookingContext.BaseBooking | src/context/BookingContext.js:57-66 | the computed booking has exactly its nine fields, each holding its value: the generated id, status 'confirmed', the doctor's id and name, the user's id and name, the date, the slot and the type |
| Common.Spread | src/context/BookingContext.js:57-68 | the object spread `{ ...base, ...extra }`: the keys are those of both, fields of `extra` win and the others keep their base value |
| BookingContext.BookingFields | src/context/BookingContext.js:57-68 | the booking's keys are the nine computed ones plus those of `bookingData`; every field of `bookingData` wins, and each computed field not overridden keeps its value |
| BookingContext.BookingSession.ClearBookingData | src/context/BookingContext.js:19-25 | doctor, date, slot, type and error become null whatever they were, so clearing twice equals clearing once |
| BookingContext.BookingSession.CreateBooking | src/context/BookingContext.js:45-101 | on a complete draft returns the booking and clears the draft; otherwise returns the first validation error, records it and keeps every selection; `loading` is false afterwards |
| BookingContext.GetAvailableTimeSlots | src/context/BookingContext.js:103-119 | six distinct on-the-hour slots, in order a subsequence of the twelve standard slots, the same list the profile reschedule dialog offers |
| BookingContext.SlotsIgnoreDoctorAndDate | src/context/BookingContext.js:103-119 | the slot list is the same for every doctor and every date |
| AppointmentRescheduleModal.BaseSlotHour | src/components/appointments/AppointmentRescheduleModal.js:72-75 | parsing base slot i gives the 24-hour hour it stands for |
| AppointmentRescheduleModal.TwelveHourParse | src/components/appointments/AppointmentRescheduleModal.js:72-75 | an "hh:mm AM/PM" text with an hour other than 12 compares by its hour plus 12 for PM |
| AppointmentRescheduleModal.AvailableSlotsSpec | src/components/appointments/AppointmentRescheduleModal.js:48-81 | any day other than today offers the full twelve slots; today offers the base slots whose hour is after the current hour |
| AppointmentRescheduleModal.TodaySlotMembership | src/components/appointments/AppointmentRescheduleModal.js:69-77 | base slot i is offered today iff its 24-hour hour exceeds the current hour |
| AppointmentRescheduleModal.MinutesIgnored | src/components/appointments/AppointmentRescheduleModal.js:70-76 | at 10:05 the 10:30 AM slot is excluded while 11:00 AM is kept |
| AppointmentRescheduleModal.RescheduleForm.DateEffect | src/components/appointments/AppointmentRescheduleModal.js:85-89 | a changed non-empty date recomputes the offered slots |
| AppointmentRescheduleModal.RescheduleForm.Open | src/components/appointments/AppointmentRescheduleModal.js:38-45 | opening loads the appointment's date and time into the form |
| AppointmentRescheduleModal.RescheduleForm.DateChange | src/components/appointments/AppointmentRescheduleModal.js:139-146 | the date changes and the slot is cleared |
| AppointmentRescheduleModal.RescheduleForm.Submit | src/components/appointments/AppointmentRescheduleModal.js:91-137 | the form's date, parsed, before today's midnight is refused first (a date that does not parse is never earlier); then a slot not offered is refused; otherwise the appointment with only date and time replaced; `loading` is false afterwards |
| AppointmentBooking.Route | src/pages/AppointmentBooking.js:40-72 | an unauthenticated user is redirected to /login before anything else; without a doctor no form is shown |
| AppointmentBooking.SameSlotsAsReschedule | src/pages/AppointmentBooking.js:75-108 | for equal day and clock the page offers the same list as the reschedule dialog |
| AppointmentBooking.BookingPage.SetDate | src/pages/AppointmentBooking.js:181-183 | changing the date keeps the chosen time slot |
| AppointmentBooking.BookingPage.SetTimeSlot | src/pages/AppointmentBooking.js:190-195 | choosing a slot sets only the slot; the date and the notes stay |
| AppointmentBooking.BookingPage.Submit | src/pages/AppointmentBooking.js:110-121 | an empty date or slot is refused with 'Required Fields Missing'; otherwise the booking goes through |
| ProfileRescheduleModal.AvailableSlots | src/components/profile/RescheduleModal.js:30-38 | six on-the-hour slots, in the order of the twelve-slot schedule they come from |
| ProfileRescheduleModal.SlotsIgnoreDate | src/components/profile/RescheduleModal.js:30-38 | any two dates are offered the same slots |
| ProfileRescheduleModal.RescheduleForm.DateChange | src/components/profile/RescheduleModal.js:83-89 | the date changes and the slot is cleared |
| ProfileRescheduleModal.RescheduleForm.SelectSlot | src/components/profile/RescheduleModal.js:131-139 | choosing a slot sets only the slot; the date and `loading` stay |
| ProfileRescheduleModal.RescheduleForm.Submit | src/components/profile/RescheduleModal.js:40-81 | only a form date that parses to before today's midnight is refused; any slot goes through, with only date and time replaced; `loading` is false afterwards |
| AppointmentForm.Payload | src/components/services/BookAppointment/AppointmentForm.js:54-60 | patient fields from the user, doctor fields from the doctor, then date, slot and notes from the form |
| AppointmentForm.FormState.SetDate | src/components/services/BookAppointment/AppointmentForm.js:33-38 | a changed date clears the chosen slot |
| AppointmentForm.FormState.SelectSlot | src/components/services/BookAppointment/AppointmentForm.js:128-131 | choosing a slot sets only the slot; the date, the notes and `loading` stay |
| AppointmentForm.FormState.Submit | src/components/services/BookAppointment/AppointmentForm.js:40-78 | an empty date or slot is refused and nothing is submitted; otherwise the payload is submitted and `loading` ends false |
| DoctorCard.OpenDays | src/components/doctors/DoctorCard.js:30-45 | day j counts as open iff its fetch came back with at least one slot |
| DoctorCard.OpenIffSlots | src/components/doctors/DoctorCard.js:30-45 | a day is open iff its fetch returns a slot; a failed fetch returns none |
| DoctorCard.FirstOpenDay | src/components/doctors/DoctorCard.js:34-45 | the first open day from i on, with every day before it closed; none when every remaining day is closed |
| DoctorCard.Card.CheckAvailability | src/components/doctors/DoctorCard.js:24-49 | no fetch when availability is off, and the store is untouched; today open means one fetch; otherwise days 1 to 7 in order up to the first open one, which becomes `nextAvailable`; at most 8 fetches; the store's data is what those fetches wrote, the deliveries are their notifications in order, `loading` is false and `error` reflects the last fetch |
| DoctorCard.Card.FetchDay | src/components/doctors/DoctorCard.js:30-39 | one of the card's fetches returns the fetch's list, is open iff that list is non-empty, and moves the store's data and the deliveries on by exactly that fetch; `loading` is false and `error` is set iff it failed |
| DoctorCard.FetchStep | src/context/AvailabilityContext.js:55-73 | one more fetch leaves the data and the deliveries alone when it fails; otherwise it writes its list under its date and appends one notification per subscriber |
| DoctorCard.FetchedDateHoldsResult | src/context/AvailabilityContext.js:59-65 | after the card's fetches, a date fetched successfully and not fetched again holds that fetch's list |
| DoctorCard.FetchesLeaveOthers | src/context/AvailabilityContext.js:59-65 | the card's fetches leave every other doctor and every date they did not fetch as it was |
| DoctorCard.FetchDeliveriesReachOnlyThatDoctor | src/context/AvailabilityContext.js:67-73 | every delivery of the card's fetches goes to a subscriber of the card's doctor and carries one successful fetch's list under its date |
| DoctorCard.AvailabilityDisplay | src/components/doctors/DoctorCard.js:51-83 | loading first, then 'Available Today', then 'Next Available', then 'Unavailable' |
| DoctorCard.Card.Display | src/components/doctors/DoctorCard.js:51-83 | the card's badge reads loading exactly while the store loads; once loaded and shown it reads 'Unavailable' exactly when the book button is disabled; a next-available badge carries the card's `nextAvailable` date |
| DoctorCard.DisabledIffUnavailable | src/components/doctors/DoctorCard.js:122 | with availability shown, the button is disabled exactly when the badge reads 'Unavailable' |
| Validation.EmailValidMatchesPattern | src/utils/validation.js:2 | the email scan agrees on every string with the regular expression read as a pattern |
| Validation.EmailRule | src/utils/validation.js:10-16 | `validateField` on 'email': a missing email gives only 'Email is required'; a present one gives one error exactly when the pattern fails |
| Validation.PasswordRule | src/utils/validation.js:18-35 | a missing password gives one error; a present one gives one message per failed rule, in rule order |
| Validation.PasswordAccepted | src/utils/validation.js:18-35 | a password passes iff it has at least 8 characters, an upper-case letter, a lower-case letter and a digit |
| Validation.FailedMessages | src/utils/validation.js:22-33 | no message iff every rule passed, never more messages than rules |
| Validation.NameAndPhoneRules | src/utils/validation.js:37-53 | missing gives only 'required'; otherwise one error exactly when the name or phone pattern fails |
| Validation.DateRule | src/utils/validation.js:55-76 | an empty date gives only 'Date is required'; otherwise a past date gives the future-date error first, a date after `maxDate` gives 'Date cannot be later than' the locale date of `maxDate` last, and there are exactly as many errors as these conditions hold |
| Validation.TimeSlotAndOtherRules | src/utils/validation.js:78-103 | the time slot errs iff missing; an unknown field errs only when required and missing |
| Validation.RatingRule | src/utils/validation.js:84-88 | a rating errs iff it is falsy or outside 1..5, and the error is exactly the one range message; a number errs iff it is below 1 or above 5 (0 is falsy) |
| Validation.ReviewRule | src/utils/validation.js:90-98 | a falsy comment gives 'Review comment is required', one shorter than 10 'must be at least 10 characters long', one longer than 500 'cannot exceed 500 characters', a truthy number nothing; no error iff truthy and, for text, 10 to 500 characters |
| Validation.ValidateForm | src/utils/validation.js:108-126 | `errors` holds exactly the schema fields whose entry in `FormErrors` is non-empty, each with those messages, and nothing else; valid iff no field fails, iff `errors` is empty |
| Validation.FormErrorsAt | src/utils/validation.js:112-117 | entry `a` of the per-entry error list is `validateField` applied to entry `a`'s name, the form's value for that name (absent reads as `undefined`) and its options |
| Validation.CheckEntry | src/utils/validation.js:113-117 | one loop step's `validateField` call yields the errors of schema entry `i` |
| Validation.ApiErrorMapping | src/utils/validation.js:171-188 | `handleApiError`: no response is a network error; 401 is unauthorized, 403 an expired session, 409 a booking conflict; 422 uses the server's message when present; every other status is a server error |
| ReviewForm.CheckReview | src/components/reviews/ReviewForm.js:22-38 | passes iff the rating is set and the comment has at least 10 characters; the comment is judged only once a rating is set |
| ReviewForm.RatingCheckedFirst | src/components/reviews/ReviewForm.js:22-29 | rating 0 is refused for the rating whatever the comment |
| ReviewForm.Form.SelectRating | src/components/reviews/ReviewForm.js:66-71 | clicking star n sets the rating to n; the comment and `isSubmitting` stay |
| ReviewForm.Form.SetComment | src/components/reviews/ReviewForm.js:86-89 | typing sets the comment to the text; the rating and `isSubmitting` stay |
| ReviewForm.Form.Submit | src/components/reviews/ReviewForm.js:20-59 | a failed check sends nothing; otherwise sends exactly {rating, comment, appointmentId}, resets on success, keeps the input on failure, and ends with `isSubmitting` false |
| ReviewsList.FilterAndSort | src/components/reviews/ReviewsList.js:94-129 | `getFilteredAndSortedReviews`: the result is a sub-multiset of the reviews |
| ReviewsList.FilterAndSortMembership | src/components/reviews/ReviewsList.js:97-111 | a review is listed iff it matches a non-empty search (comment or name, ignoring case) and the rating filter |
| ReviewsList.FilterAndSortCount | src/components/reviews/ReviewsList.js:94-129 | each review occurs in the result exactly as often as in the list when it passes the search and the rating filter, and not at all otherwise |
| ReviewsList.NoFiltersKeepsAll | src/components/reviews/ReviewsList.js:94-129 | with no search and 'all', the result is a permutation of every review |
| ReviewsList.RatingOrders | src/components/reviews/ReviewsList.js:118-123 | 'rating-high' gives non-increasing ratings, 'rating-low' non-decreasing ones |
| ReviewsList.RecentOrder | src/components/reviews/ReviewsList.js:115-117 | 'recent' lists the newest date first |
| ReviewsList.TotalPages | src/components/reviews/ReviewsList.js:132 | the ceiling of n/6: zero only for no reviews, and the last page is partly or fully used |
| ReviewsList.JsSlice | src/components/reviews/ReviewsList.js:133-136 | a slice is never longer than the list |
| ReviewsList.PageContents | src/components/reviews/ReviewsList.js:133-136 | page p shows positions (p-1)·6 up to p·6, at most six items, and page 0 shows nothing |
| ReviewsList.PagesCoverList | src/components/reviews/ReviewsList.js:132-136 | the pages from 1 to the last, one after another, are the whole list |
| ReviewsList.ClampPage | src/components/reviews/ReviewsList.js:139-142 | the page lands in 1..totalPages, or 0 when there are no pages; a page in range is kept, one below 1 becomes 1 and one past the end becomes the last page |
| ReviewsList.MarkRule | src/components/reviews/ReviewsList.js:242-270 | a page button is shown iff it is page 1, the last page or within 1 of the current page; otherwise pages exactly 2 away show an ellipsis |
| ReviewsList.StripIsBounded | src/components/reviews/ReviewsList.js:239-273 | at most five numbered buttons and two ellipses, whatever the page count |
| ReviewsList.Page.Visible | src/components/reviews/ReviewsList.js:131 | the shown list is a sub-multiset of the reviews |
| ReviewsList.Page.SubmitReview | src/components/reviews/ReviewsList.js:66-76 | the new review goes in front of the others and page 1 is shown |
| ReviewsList.Page.PageChange | src/components/reviews/ReviewsList.js:139-142 | the page becomes the clamp of the request against the current page count |
| ReviewsList.Page.SetFilters | src/components/reviews/ReviewsList.js:144-147 | the three filters take their new values; the page returns to 1 iff one of them changed, and is kept otherwise |
| Notifications.OptionOr | src/context/NotificationContext.js:13 | a destructuring default applies only when the option is `undefined` |
| Notifications.NewRecord | src/context/NotificationContext.js:15-23 | the stored record is unread with priority 'low' unless `options` says otherwise; every option field wins |
| Notifications.MarkedRead | src/context/NotificationContext.js:54 | the copy is read and keeps every other field |
| Notifications.MarkById | src/context/NotificationContext.js:52-56 | only entries with that id are marked read; length and every other entry are unchanged |
| Notifications.MarkAll | src/context/NotificationContext.js:58-60 | every entry is replaced by its read copy |
| Notifications.MarkAllLeavesNoneUnread | src/context/NotificationContext.js:58-60 | after marking all read the unread count is 0 |
| Notifications.MarkByIdCount | src/context/NotificationContext.js:52-56 | marking one id read lowers the unread count by the number of unread entries with that id |
| Notifications.RemoveSpec | src/context/NotificationContext.js:44-46 | removing drops exactly the entries with that id and keeps the rest in order |
| Notifications.ReminderToasts | src/context/NotificationContext.js:29 | an appointment reminder toasts through its high priority, a medication reminder does not, the quick helpers always do |
| Notifications.NotificationStore.UnreadCount | src/context/NotificationContext.js:103 | the number of entries whose `isRead` is falsy |
| Notifications.NotificationStore.Add | src/context/NotificationContext.js:11-42 | the new record goes in front of the old list, its id is the time, a toast shows iff `isToast` or high priority, and an unread record raises the count by one |
| Notifications.NotificationStore.Remove | src/context/NotificationContext.js:44-46 | the list keeps exactly the entries with another id |
| Notifications.NotificationStore.ClearAll | src/context/NotificationContext.js:48-50 | the list is empty |
| Notifications.NotificationStore.MarkAsRead | src/context/NotificationContext.js:52-56 | the list is marked by id and the unread count never rises |
| Notifications.NotificationStore.MarkAllAsRead | src/context/NotificationContext.js:58-60 | every entry is read and the unread count is 0 |
| Notifications.NotificationStore.AddAppointmentReminder | src/context/NotificationContext.js:63-79 | adds a high-priority, non-toast appointment record that still toasts |
| Notifications.NotificationStore.AddMedicationReminder | src/context/NotificationContext.js:82-92 | adds a medium-priority reminder record that does not toast |
| NotificationCenter.FilterTabs | src/components/notifications/NotificationCenter.js:227-238 | 'unread', 'appointments' and 'reminders' keep exactly their entries in order; any other tab keeps all |
| NotificationCenter.Badge | src/components/notifications/NotificationCenter.js:240-252 | the badge shows the unread count, only when it is above 0 |
| NotificationCenter.CountMatchesUnread | src/components/notifications/NotificationCenter.js:242 | the bell's count equals the size of the 'unread' tab; it is 0 iff every entry is read |
| NotificationCenter.SampleBadge | src/components/notifications/NotificationCenter.js:173-201 | the built-in sample list shows a badge of 2 |
| NotificationCenter.HandleAction | src/components/notifications/NotificationCenter.js:203-220 | 'view' navigates only for appointments, 'reschedule' navigates with the id, and every action closes the drawer |
| NotificationCenter.HandleDismiss | src/components/notifications/NotificationCenter.js:222-225 | dismissing leaves the list unchanged |
| FloatingNotification.Noun | src/components/notifications/FloatingNotification.js:25-26 | 'appointment' exactly for a count of 1, 'appointments' otherwise |
| FloatingNotification.Clicked | src/components/notifications/FloatingNotification.js:8-13 | a click flips the open flag; with exactly one appointment it becomes the selection, otherwise the selection stays |
| FloatingNotification.ClickTwice | src/components/notifications/FloatingNotification.js:8-13 | two clicks restore the open flag and leave the selection as the first click set it |
| FloatingNotification.Panel.Click | src/components/notifications/FloatingNotification.js:8-13 | the panel's open flag and selection after a click are `Clicked` of those before it |
| FloatingNotification.Panel.OverlayClick | src/components/notifications/FloatingNotification.js:36-39 | the overlay closes the panel and clears the selection |
| FloatingNotification.Panel.SelectItem | src/components/notifications/FloatingNotification.js:124 | a list item selects its appointment |
| DoctorContext.FilterDoctorsSpec | src/context/DoctorContext.js:86-119 | a doctor is kept iff the specialization matches ignoring case (unless 'all'), a non-empty query is in the name or specialization, and 'available' finds free slots; order is kept |
| DoctorContext.InitialFiltersKeepAll | src/context/DoctorContext.js:11-15 | under the initial filters every doctor is listed |
| DoctorContext.Directory.UpdateFilters | src/context/DoctorContext.js:78-83 | the filters become `Spread` of the old ones with the new: every given key is replaced and every other filter key kept; the doctors are untouched |
| DoctorContext.Directory.Filtered | src/context/DoctorContext.js:86-119 | the filtered doctors are an order-preserving subsequence of all doctors |
| Appointments.ReplaceById | src/components/appointments/AppointmentsList.js:162-170 | same length; each entry with the update's id is replaced and every other entry kept |
| Appointments.CancelSpec | src/components/appointments/AppointmentsList.js:156-160 | cancelling drops every appointment with that id and keeps the rest in order |
| Appointments.CancelUnknownId | src/components/appointments/AppointmentsList.js:156-160 | cancelling an absent id changes nothing |
| Appointments.ReplaceUnknownId | src/components/appointments/AppointmentsList.js:162-170 | rescheduling an absent id changes nothing |
| Appointments.ReplaceSpec | src/components/appointments/AppointmentsList.js:162-170 | with distinct ids the update takes the old entry's place and nothing else changes |
| Appointments.UpcomingPastPartition | src/components/appointments/AppointmentsList.js:172-177 | 'upcoming' and 'past' split the list between them; 'all' keeps it whole |
| Appointments.FilterIsOrderedSelection | src/components/appointments/AppointmentsList.js:172-177 | each tab keeps its appointments in order and adds nothing |
| Appointments.AppointmentList.Cancel | src/components/profile/ProfileAppointmentsList.js:121-125 | the list loses the appointments with that id |
| Appointments.AppointmentList.Reschedule | src/components/profile/ProfileAppointmentsList.js:127-135 | the list has the update in place of the entry with its id |
| Appointments.AppointmentList.CardCancel | src/components/appointments/AppointmentsList.js:28-31 | a card's cancel removes that card's own appointment |
| Appointments.AppointmentList.ProfileCardCancel | src/components/profile/ProfileAppointmentsList.js:68-75 | the profile card's Cancel button only closes a dialog, so the list is unchanged |
| Appointments.AppointmentList.Visible | src/components/profile/ProfileAppointmentsList.js:137-142 | the shown list is an order-preserving subsequence of the appointments |
| ConsultationHistory.Ordered | src/components/profile/ConsultationHistoryView.js:231-240 | sorting is a permutation of the filtered consultations |
| ConsultationHistory.FilteredConsultations | src/components/profile/ConsultationHistoryView.js:211-240 | the result is a sub-multiset of the consultations |
| ConsultationHistory.ListingSpec | src/components/profile/ConsultationHistoryView.js:211-240 | listed iff it matches the search (doctor, specialty or a present diagnosis) and the tab; a permutation of the filtered set |
| ConsultationHistory.DiagnosisRule | src/components/profile/ConsultationHistoryView.js:220-222 | a missing diagnosis never matches on its own; the empty search matches everything |
| ConsultationHistory.DoctorOrder | src/components/profile/ConsultationHistoryView.js:235-236 | 'doctor' lists names in ascending order |
| ConsultationHistory.DateOrder | src/components/profile/ConsultationHistoryView.js:233-234 | 'date' lists the newest first |
| ConsultationHistory.UpcomingTabMatchesCards | src/components/profile/ConsultationHistoryView.js:82 | the 'upcoming' tab lists exactly the matching consultations whose cards read as upcoming |
| MedicalReports.FilteredReportsSpec | src/components/profile/MedicalReportsList.js:123-129 | a report is listed iff its title or doctor matches and its status passes; order is kept |
| MedicalReports.EmptySearchKeepsAll | src/components/profile/MedicalReportsList.js:123-129 | the empty search on 'all' lists every report |
| HealthTips.FilteredTipsSpec | src/pages/HealthTips.js:157-162 | a tip is listed iff its title, description or category matches; order is kept; the empty search lists all |
| HealthTips.Page.TipClick | src/pages/HealthTips.js:164-167 | the clicked tip is selected and the dialog opens |
| ChatInterface.CheckFiles | src/components/chat/ChatInterface.js:129-154 | accepted iff at most 3 files totalling at most 5·1024·1024 bytes; the count is checked first |
| ChatInterface.TotalSizeAppend | src/components/chat/ChatInterface.js:141 | the total of two selections is the sum of their totals |
| ChatInterface.AcceptedFilesAreSmall | src/components/chat/ChatInterface.js:141-153 | no accepted file exceeds the size limit |
| ChatInterface.Session.Send | src/components/chat/ChatInterface.js:93-127 | nothing happens when the guard refuses; otherwise exactly one user message with the trimmed text and the attachments is appended, the input and attachments are cleared and the doctor starts typing |
| ChatInterface.Session.DoctorJoin | src/components/chat/ChatInterface.js:75-91 | the doctor's greeting is appended |
| ChatInterface.Session.DoctorReply | src/components/chat/ChatInterface.js:112-126 | typing stops and the doctor's reply is appended |
| ChatInterface.Session.FileSelect | src/components/chat/ChatInterface.js:129-154 | a refused selection leaves the attachments; an accepted one replaces them |
| ChatInterface.GuardMeaning | src/components/chat/ChatInterface.js:94 | the send guard (also the button's disabled state) refuses exactly white space alone with no attachments |
| SelfCheckup.Toggled | src/pages/SelfCheckup.js:102-107 | the toggled topic flips, a missing entry counting as collapsed, and no other entry changes |
| SelfCheckup.ToggleTwice | src/pages/SelfCheckup.js:102-107 | toggling the same topic twice shows every topic as before |
| SelfCheckup.Guide.ToggleContent | src/pages/SelfCheckup.js:102-107 | one topic flips and every other keeps its shown state |
| Sorting.SortSorted | src/components/reviews/ReviewsList.js:114-126 | the insertion sort standing for `Array.prototype.sort` orders by any total preorder |
| Sorting.NewestFirstOrder | src/components/reviews/ReviewsList.js:116 | the newest-first comparator orders by descending time when every time is known |

## Left out

- **Time, randomness and timers.**
  - The clock, `Math.random()` and the `setTimeout`/`setInterval` delays are left out.
  - The model receives the current time, the random draws and the fetch outcome as parameters. Each timer firing is a method the caller invokes.
- **Dates.**
  - `new Date(text)` is a caller-supplied parser; `None` stands for an invalid date.
  - `toDateString`, `toISOString` and `toLocaleDateString` are parameters or caller-supplied formatters.
- **Presentation and side effects.**
  - Toasts, `navigate` side effects beyond the routing decision, scrolling and all JSX layout are left out.
- **Input and output.**
  - AuthContext reads and writes `localStorage` only.
  - `fetchDoctors` and `fetchDoctorById` read a file.
  - The PDF preview's download, print and floating-point zoom are left out.
  - DoctorReviews' percentage breakdowns use floating point.
  - EditProfileModal relies on FileReader.
- **Code without coherent behaviour.**
  - src/components/profile/AppointmentsList.js refers to identifiers it never defines.
  - The card modal wiring in src/components/appointments/AppointmentsList.js renders a component it never imports.
  - Neither is part of this model.
- **Static pages.** The hard-coded doctor profile and the other static pages are not part of this model.
- **Language approximations.**
  - `localeCompare` is approximated by code-point order.
  - `toLowerCase` lowers ASCII letters only.
  - String lengths count characters, not UTF-16 code units.
  - `Number` and `parseInt` are read on decimal integers only.
- **Subscribers.** A subscriber that throws is not modelled. Callback identity is an abstract value compared by equality.
- **TimeSlotPicker's catch branch.** The fetch in this code base catches its own errors and returns `[]`, so a failed load clears the picker's list. The `catch` in `loadAvailability` can never run, and the model does what the code does.
- **TimeSlotPicker's effect dependencies.** The mount effect depends on `lastUpdate`, so it re-runs after every update. Only a single mount, cleanup and remount are modelled.
- ReviewsList.RecentOrder: stated only when every review date parses. With an invalid date the comparator returns `NaN`, which the engine treats as "equal", and the order is not a total preorder.
- ConsultationHistory.DateOrder: stated only when every consultation date parses, for the same reason.
- Sorting.SortSorted: the insertion sort stands for `Array.prototype.sort`. Only its result is modelled, not the engine's algorithm. For a comparator that is not a consistent order, the engine's result is implementation-defined.
- Sorting.SortSorted: stability is not stated. The lemmas prove the result ordered and a permutation of the input, not that equal keys keep their order.
- Appointments.AppointmentList.CardCancel: the card in src/components/appointments/AppointmentsList.js renders `RescheduleModal`, which that file neither defines nor imports, so the card cannot render there and its cancel handler is never reached; the handler is modelled as written.
- BookingContext.BookingFields: every booking and payload field is text. A numeric id carried through the spread is represented by its decimal text, so the model does not tell a number from a string.
- Availability.AvailabilityStore.Fetch: the failure path is a parameter. Generating slots cannot throw in this code base, so the failure stands for an exception from the environment.

## Findings

| source | as written | input that shows it | evidently intended | confidence | as-written member | corrected member |
|---|---|---|---|---|---|---|
| src/components/booking/TimeSlotPicker.js:104 | the cleanup calls `unsubscribeFromAvailability(doctorId)` without the callback, so filtering with `cb !== undefined` removes nothing | mount a picker for doctor d, run the cleanup, mount again; one update for d then reaches the handler twice | remove this picker's own handler, so that each update is delivered once | not executed | TimeSlotPicker.RemountDeliversTwice | TimeSlotPicker.RemountWithOwnCallbackDeliversOnce |
