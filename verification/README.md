# Clinic queue: a Dafny model of the dashboards' logic

MediQueue is a clinic front end with three roles:

- A **patient** sees the appointments filed under a fixed mock patient name (`'John Doe'`) and a badge with the count of unread notifications. They book a visit with an available doctor through a date-and-slot modal.
- A **doctor** works through the waiting list. They start one patient at a time, complete the current consultation and cycle their own availability status.
- The **compounder** (the receptionist) searches the queue and moves each visit from waiting to in progress to completed. They read the day's status counts and add notification records to the reception screen's own list.

The dashboards read their lists from a mock-data hook. Each dashboard calls it on its own and keeps the lists in its own component state, so a status change made at reception does not reach the doctor's copy of the queue, and a notification added at reception is neither shown there nor read by the patient screen. A second, standalone hook (`useRealData.ts`), which no screen uses, turns fetched database rows with their joined profiles into records of its own snake_case types.

This project models that logic as pure Dafny functions over immutable sequences, and proves properties about it:

- **Queue life cycle.** Status updates are a `map` over the queue keyed by queue id or appointment id. They change only the matching items' status. Repeating an update is the same as applying it once. With distinct ids (queue ids for the reception buttons, appointment ids for the doctor's), every button moves an item at most one step forward and never back. The three status counts partition the queue.
- **Doctor convention.** Starting is disabled while someone is in progress, so from a queue with distinct appointment ids and at most one consultation, no sequence of doctor actions produces two.
- **Selections.** Search, waiting list, unread list, today's appointments and the fixed mock patient's appointments are order-preserving subsequences with the stated membership, and search ignores letter case.
- **Form guards.** A booking is confirmed exactly when both a date and a slot are chosen, and only for a listed slot on a day that is not a Sunday. When the submit handler runs, a login submission makes exactly one `login` call if every field is filled, and none otherwise.
- **Data projections.** In the standalone hook, each projection copies the row's fields, takes the documented fallback names, and replaces a collection only when its query returned data.

Modules follow the source files:

- `Types`: `src/types/index.ts`
- `Queue`: the status map both dashboards apply, each to its own copy of the queue
- `CompounderDashboard`, `DoctorDashboard`, `PatientDashboard`, `BookingModal`, `LoginScreen`: the components of those names
- `RealData`: `useRealData.ts`
- `Badges`: the colour switches
- `Seqs` and `Text`: the JavaScript array and string methods the components use, given their JavaScript meaning

Effects become parameters:

- The clock: `today`, `now`, a notification's id and timestamp, and each calendar day's weekday.
- The authentication call: `login` is an oracle function.

Observations the proofs make visible:

- **Duplicate queue ids.** The reception update matches on queue id. With a repeated id, a Start press also turns a completed item back to in progress (`CompounderDashboard.DuplicateIdReopensCompleted`). The forward-only guarantee therefore needs distinct ids.
- **Duplicate appointment ids.** The doctor's update matches on appointment id. With two waiting items of one appointment, a single Start puts both in progress (`DoctorDashboard.DuplicateAppointmentIdStartsTwo`). The at-most-one convention therefore needs distinct appointment ids.
- **Per-doctor queue figure.** The "Queue:" figure on each doctor card counts the whole queue's waiting items, so it is the same for every doctor (`CompounderDashboard.QueueFigureIsGlobal`).
- **Empty-list Book button.** This button opens the modal without selecting a doctor, and the modal renders nothing without one. Pressing it shows nothing.
- **Sign-up mode.** Submitting in sign-up mode makes the same `login` call as signing in.
- **Disabled dates.** The calendar disables any day whose midnight lies before the present instant. The current day is therefore disabled once its midnight has passed. The model follows the code: `date < new Date()` compares instants, not calendar dates.

## Model

| member | source | states |
|---|---|---|
| Types.ParseRole | src/types/index.ts:6 | a text read as a role is that role's text |
| Types.ParseDoctorStatus | src/types/index.ts:21 | a text read as a doctor status is that status's text |
| Types.ParseAppointmentStatus | src/types/index.ts:33 | a text read as an appointment status is that status's text |
| Types.ParseQueueStatus | src/types/index.ts:45 | a text read as a queue status is that status's text |
| Types.ParseNotificationType | src/types/index.ts:53 | a text read as a notification type is that type's text |
| Types.TextParseRoundTrip | src/types/index.ts:6-53 | every value of the five string unions is read back from its own text |
| Types.CancelledIsNotAQueueStatus | src/types/index.ts:33-45 | `cancelled` is an appointment status but no queue status is written as it |
| Text.Lower | src/components/compounder/CompounderDashboard.tsx:37 | lower-casing keeps the length and maps each character on its own: an upper-case ASCII letter becomes the lower-case letter at the same place of the alphabet, and every other character is kept |
| Text.LowerIdempotent | src/components/compounder/CompounderDashboard.tsx:37 | lower-casing a lower-cased string changes nothing |
| Text.LowerAlphabet | src/components/compounder/CompounderDashboard.tsx:37 | the upper-case alphabet lowers to the lower-case alphabet |
| Text.Includes | src/components/compounder/CompounderDashboard.tsx:37 | `includes` is true exactly when the needle occurs at some index of the hay (the empty needle always does) |
| Text.Split | src/components/patient/PatientDashboard.tsx:158 | splitting at spaces gives at least one piece and no piece contains a space |
| Text.JoinSplit | src/components/patient/PatientDashboard.tsx:158 | joining the pieces of a split with single spaces gives back the input |
| Text.Initials | src/components/patient/PatientDashboard.tsx:158 | a doctor's initials are exactly the characters that start a word (an independent definition); empty pieces from extra spaces add nothing |
| Badges.QueueStatusTone | src/components/compounder/CompounderDashboard.tsx:74-81 | the queue badge takes the default grey exactly for strings that are not a queue status |
| Badges.DoctorStatusTone | src/components/compounder/CompounderDashboard.tsx:83-90 | the availability badge takes the default grey exactly for strings that are not a doctor status (the patient dashboard's copy at PatientDashboard.tsx:20-27 is the same) |
| Badges.SelfStatusTone | src/components/doctor/DoctorDashboard.tsx:46-54 | the doctor's own badge takes the default grey exactly outside available, busy, delayed and away |
| Badges.AppointmentStatusTone | src/components/patient/PatientDashboard.tsx:29-36 | the badge differs from the default grey exactly for `booked` and `in-progress`, both known appointment statuses |
| Badges.QueueStatusTonesDistinct | src/components/compounder/CompounderDashboard.tsx:74-81 | different queue statuses get different colours |
| Badges.DoctorStatusTonesDistinct | src/components/compounder/CompounderDashboard.tsx:83-90 | different doctor statuses get different colours |
| Badges.SelfStatusToneExtendsDoctorStatusTone | src/components/doctor/DoctorDashboard.tsx:46-54 | the doctor's own badge agrees with the availability badge everywhere except `delayed`, which gets its own colour |
| Badges.AppointmentTones | src/components/patient/PatientDashboard.tsx:29-36 | `cancelled` and `completed` both show the default grey; booked and in-progress have distinct colours |
| Queue.Retag | src/components/compounder/CompounderDashboard.tsx:41-47 | the status map keeps length and order, sets the status of every matching item, and leaves every other item and every other field untouched |
| Queue.RetagAbsent | src/components/compounder/CompounderDashboard.tsx:41-47 | an update whose key matches no item leaves the queue unchanged |
| Queue.RetagLastWins | src/components/compounder/CompounderDashboard.tsx:41-47 | of two updates with one key the later wins, so repeating an update is applying it once |
| Queue.RetagSingle | src/components/doctor/DoctorDashboard.tsx:23-29 | when one item matches, the map is a point update of that item |
| Queue.WithStatus | src/components/compounder/CompounderDashboard.tsx:30-31 | the status filter holds exactly the queue's items of that status |
| Queue.StatusCountsSum | src/components/compounder/CompounderDashboard.tsx:30-31 | the waiting, in-progress and completed counts add up to the queue length |
| Queue.TransitionMovesForward | src/types/index.ts:45 | a life-cycle transition is exactly a step one place forward in waiting, in-progress, completed |
| Queue.RetagKeepsIds | src/components/compounder/CompounderDashboard.tsx:41-47 | a status update keeps distinct queue ids and distinct appointment ids distinct |
| CompounderDashboard.FilteredQueue | src/components/compounder/CompounderDashboard.tsx:36-39 | the search keeps exactly the items whose lower-cased patient name contains the lower-cased term |
| CompounderDashboard.FilteredQueueIsSubsequence | src/components/compounder/CompounderDashboard.tsx:36-39 | the search result is an order-preserving subsequence holding each matching item as often as the queue does, and no other item |
| CompounderDashboard.EmptySearchKeepsAll | src/components/compounder/CompounderDashboard.tsx:27-39 | with an empty search term the whole queue is listed |
| CompounderDashboard.InitialViewListsWholeQueue | src/components/compounder/CompounderDashboard.tsx:27-39 | the dashboard opens (empty search, all doctors) with the whole queue listed |
| CompounderDashboard.SearchIgnoresSelectedDoctor | src/components/compounder/CompounderDashboard.tsx:28-39 | the doctor picker has no effect on the listed queue |
| CompounderDashboard.SearchIsCaseInsensitive | src/components/compounder/CompounderDashboard.tsx:37 | terms that differ only in letter case list the same items |
| CompounderDashboard.SearchJohnFindsJohnDoe | src/components/compounder/CompounderDashboard.tsx:37 | searching "john" lists the patient "John Doe" |
| CompounderDashboard.UpdateQueueStatus | src/components/compounder/CompounderDashboard.tsx:41-48 | each item whose queue id matches gets the new status; ids, other fields and other items are unchanged |
| CompounderDashboard.UpdateAbsentIdIsIdentity | src/components/compounder/CompounderDashboard.tsx:41-48 | an id not in the queue changes nothing |
| CompounderDashboard.UpdateIsIdempotent | src/components/compounder/CompounderDashboard.tsx:41-48 | applying the same update twice is applying it once |
| CompounderDashboard.TodayAppointments | src/components/compounder/CompounderDashboard.tsx:32-34 | today's appointments are exactly those dated with the clock's date |
| CompounderDashboard.TodayAppointmentsIsSubsequence | src/components/compounder/CompounderDashboard.tsx:32-34 | today's appointments are an order-preserving subsequence holding each appointment of that date as often as the list does |
| CompounderDashboard.QuickStats | src/components/compounder/CompounderDashboard.tsx:109-166 | each card shows its count: today's appointments, and the waiting, in-progress and completed items; the three status cards add up to the queue length, and today's card never exceeds the number of appointments |
| CompounderDashboard.QueueFigureIsGlobal | src/components/compounder/CompounderDashboard.tsx:219 | any two doctor cards show the same queue figure, the count on the "Waiting" stat card |
| CompounderDashboard.SendNotification | src/components/compounder/CompounderDashboard.tsx:56-66 | one unread success notification with the composed message is put in front, and the earlier list follows unchanged |
| CompounderDashboard.ReminderButtons | src/components/compounder/CompounderDashboard.tsx:258-271 | the bell and phone buttons each put one notification to the row's patient in front of the same list, with different messages |
| CompounderDashboard.OfferedAction | src/components/compounder/CompounderDashboard.tsx:272-288 | Start is offered exactly on waiting rows and Complete exactly on in-progress rows |
| CompounderDashboard.OfferedActionIsTransition | src/components/compounder/CompounderDashboard.tsx:272-288 | every offered button performs a life-cycle transition and never sets waiting |
| CompounderDashboard.Press | src/components/compounder/CompounderDashboard.tsx:272-288 | a button press keeps the queue length and never makes an item waiting that was not |
| CompounderDashboard.PressStepsForward | src/components/compounder/CompounderDashboard.tsx:272-288 | with distinct queue ids a press moves the pressed row one life-cycle step and changes no other row |
| CompounderDashboard.RunMovesForward | src/components/compounder/CompounderDashboard.tsx:41-48 | over any run of presses on a queue with distinct ids, each item keeps its place and fields and its status only moves forward |
| CompounderDashboard.DuplicateIdReopensCompleted | src/components/compounder/CompounderDashboard.tsx:43 | with a repeated queue id, a Start press turns a completed item back to in progress |
| DoctorDashboard.WaitingPatients | src/components/doctor/DoctorDashboard.tsx:20 | the waiting list holds exactly the waiting items and its length is the waiting count |
| DoctorDashboard.DisplayedPosition | src/components/doctor/DoctorDashboard.tsx:178-183 | a waiting item is listed at the position given by the number of waiting items ahead of it in the queue |
| DoctorDashboard.InProgressPatient | src/components/doctor/DoctorDashboard.tsx:21 | the current patient is absent exactly when nobody is in progress, and is otherwise the first in-progress item in queue order |
| DoctorDashboard.InProgressPatientIffCount | src/components/doctor/DoctorDashboard.tsx:21 | there is no current patient exactly when the in-progress count is zero |
| DoctorDashboard.SoleInProgressIsCurrent | src/components/doctor/DoctorDashboard.tsx:21 | a patient who is the only one in progress is the current patient |
| DoctorDashboard.UpdateAppointmentStatus | src/components/doctor/DoctorDashboard.tsx:23-30 | every item of the appointment gets the new status; appointment ids, other fields and other items are unchanged |
| DoctorDashboard.StartEnabled | src/components/doctor/DoctorDashboard.tsx:200 | Start is enabled exactly when the in-progress count is zero, that is, when no item is in progress |
| DoctorDashboard.Apply | src/components/doctor/DoctorDashboard.tsx:153-200 | each doctor button keeps the queue's length and every field but the status, never makes an item waiting, and does nothing when disabled or without a current patient |
| DoctorDashboard.UpdateOneAppointment | src/components/doctor/DoctorDashboard.tsx:23-30 | with distinct appointment ids, the update changes one item and moves the in-progress count accordingly |
| DoctorDashboard.WaitingIndex | src/components/doctor/DoctorDashboard.tsx:178 | every listed waiting patient is a waiting item of the queue |
| DoctorDashboard.StartMakesOneInProgress | src/components/doctor/DoctorDashboard.tsx:196-200 | an enabled Start leaves exactly one patient in progress, and that patient, now in progress, is the current patient |
| DoctorDashboard.CompleteEndsConsultation | src/components/doctor/DoctorDashboard.tsx:153-156 | completing the current patient leaves nobody in progress and the patient completed |
| DoctorDashboard.ApplyKeepsInvariant | src/components/doctor/DoctorDashboard.tsx:153-200 | each doctor button keeps appointment ids distinct and at most one patient in progress |
| DoctorDashboard.RunKeepsAtMostOneInProgress | src/components/doctor/DoctorDashboard.tsx:196-200 | from a queue with distinct appointment ids and at most one patient in progress, no sequence of doctor actions puts two patients in progress |
| DoctorDashboard.ApplyMovesForward | src/components/doctor/DoctorDashboard.tsx:153-200 | with distinct appointment ids, each doctor button moves every item at most one life-cycle step and keeps the ids distinct |
| DoctorDashboard.RunMovesForward | src/components/doctor/DoctorDashboard.tsx:23-30 | over any run of doctor actions on a queue with distinct appointment ids, each item keeps its place and fields and its status only moves forward |
| DoctorDashboard.DuplicateAppointmentIdStartsTwo | src/components/doctor/DoctorDashboard.tsx:25 | with two waiting items of one appointment, one Start puts both in progress |
| DoctorDashboard.NextSelfStatus | src/components/doctor/DoctorDashboard.tsx:72-77 | the next status is in the cycle; an unknown status moves to available; a known one always changes |
| DoctorDashboard.SelfStatusCycleOrder | src/components/doctor/DoctorDashboard.tsx:73-75 | the cycle is available, busy, delayed, away, then available again |
| DoctorDashboard.FourPressesReturn | src/components/doctor/DoctorDashboard.tsx:72-77 | four presses of Update Status return to the starting status |
| DoctorDashboard.SelfStatusesExtendDoctorStatus | src/components/doctor/DoctorDashboard.tsx:73 | the cycle holds every doctor status and also `delayed`, which is not one |
| PatientDashboard.MyAppointments | src/components/patient/PatientDashboard.tsx:17 | the patient's list holds exactly the appointments under the fixed patient name |
| PatientDashboard.MyAppointmentsIsSubsequence | src/components/patient/PatientDashboard.tsx:17 | the patient's list is an order-preserving subsequence holding each of their appointments as often as the full list does |
| PatientDashboard.UnreadNotifications | src/components/patient/PatientDashboard.tsx:18 | the unread list holds exactly the notifications not yet read |
| PatientDashboard.UnreadNotificationsSpec | src/components/patient/PatientDashboard.tsx:50-54 | the unread list is an order-preserving subsequence holding each unread notification as often as the full list does, so the badge's count is the number of unread notifications; the badge shows exactly when some notification is unread |
| PatientDashboard.FeaturedDoctors | src/components/patient/PatientDashboard.tsx:154 | the featured doctors are a prefix of the list of length three, or the whole list when it has fewer |
| PatientDashboard.CanBook | src/components/patient/PatientDashboard.tsx:184 | Book is enabled exactly for doctors whose status badge is green |
| PatientDashboard.PressBook | src/components/patient/PatientDashboard.tsx:178-186 | Book on an available doctor selects them and opens the modal; on any other doctor it does nothing |
| PatientDashboard.PressBookFromEmptyList | src/components/patient/PatientDashboard.tsx:131 | the empty-list button opens the modal and leaves the selection as it was |
| PatientDashboard.CloseModal | src/components/patient/PatientDashboard.tsx:200-203 | closing returns to the initial state: closed, no doctor selected |
| PatientDashboard.BookThenClose | src/components/patient/PatientDashboard.tsx:178-203 | Book shows the dialog for an available doctor, and closing afterwards always hides it and resets the view |
| PatientDashboard.EmptyListButtonShowsNothing | src/components/patient/BookAppointmentModal.tsx:55 | the empty-list button sets the open flag, but no dialog appears because no doctor is selected |
| BookingModal.TimeSlotsSchedule | src/components/patient/BookAppointmentModal.tsx:28-31 | the twelve slots are the half hours from 9:00 AM to 11:30 AM and from 2:00 PM to 4:30 PM, in order |
| BookingModal.TimeSlotsDistinct | src/components/patient/BookAppointmentModal.tsx:28-31 | no slot is listed twice |
| BookingModal.DateDisabled | src/components/patient/BookAppointmentModal.tsx:94 | every Sunday is disabled, and any other day is disabled exactly when its instant is before the present one |
| BookingModal.DateDisabledIsMonotone | src/components/patient/BookAppointmentModal.tsx:94 | a day disabled now stays disabled later, and any day whose midnight has passed is disabled |
| BookingModal.PickDate | src/components/patient/BookAppointmentModal.tsx:90-96 | a disabled day cannot be clicked; clicking the selected day deselects it; any other day becomes the form's date; slot and symptoms are untouched |
| BookingModal.PickDateTwiceClears | src/components/patient/BookAppointmentModal.tsx:90-96 | clicking an open day twice leaves no date, and the form cannot then be booked |
| BookingModal.PickSlot | src/components/patient/BookAppointmentModal.tsx:101-116 | a slot button exists only once a date is set, and it sets that listed slot |
| BookingModal.SlotPickerShown | src/components/patient/BookAppointmentModal.tsx:101 | the slot picker is shown exactly when choosing a slot would make the form acceptable |
| BookingModal.TypeSymptoms | src/components/patient/BookAppointmentModal.tsx:128-129 | typing changes the symptoms only |
| BookingModal.ConfirmBooking | src/components/patient/BookAppointmentModal.tsx:33-53 | a booking is confirmed and the modal closed exactly when date and slot are set; a confirmation resets the form and names the chosen date and slot; a rejection leaves the form as it was |
| BookingModal.SummaryShown | src/components/patient/BookAppointmentModal.tsx:135 | the summary is shown exactly when pressing Book would be accepted, and only with the slot picker |
| BookingModal.ModalRendered | src/components/patient/BookAppointmentModal.tsx:55 | without a doctor the modal renders nothing; when it renders, every confirmation names the doctor |
| BookingModal.AcceptanceIgnoresSymptoms | src/components/patient/BookAppointmentModal.tsx:34-41 | the symptoms never decide acceptance, and the summary is shown exactly when a press would be accepted |
| BookingModal.NoSecondConfirmation | src/components/patient/BookAppointmentModal.tsx:49-52 | after a confirmation the form is empty, so a second press is rejected |
| BookingModal.FilledFormsAreWellFormed | src/components/patient/BookAppointmentModal.tsx:90-116 | whatever the user does, a set date is not a Sunday and a set slot is listed, so every confirmed booking is for such a day and slot |
| LoginScreen.Submit | src/components/auth/LoginScreen.tsx:19-44 | with a field empty: an error and no `login` call; otherwise exactly one call with the form's fields, and the welcome toast exactly when `login` answers true |
| LoginScreen.SubmitIgnoresSignUpMode | src/components/auth/LoginScreen.tsx:19-44 | the sign-up switch does not change what a submission does |
| LoginScreen.SelectRole | src/components/auth/LoginScreen.tsx:102-110 | choosing an option sets the role to that option's non-empty value and changes no other field |
| LoginScreen.InitialFormIsIncomplete | src/components/auth/LoginScreen.tsx:13-16 | the screen opens with empty fields, so an immediate submission makes no `login` call |
| LoginScreen.RoleOptionsAreTheRoles | src/components/auth/LoginScreen.tsx:107-109 | the options are exactly the texts of the three roles |
| LoginScreen.ToggleSignUp | src/components/auth/LoginScreen.tsx:137 | the link flips the sign-up flag and changes nothing else |
| LoginScreen.ToggleTwiceIsIdentity | src/components/auth/LoginScreen.tsx:137 | following the link twice returns to the same form |
| RealData.OrElse | src/hooks/useRealData.ts:74 | the JavaScript or-fallback gives the value when present and non-empty, and the fallback otherwise |
| RealData.ProjectDoctor | src/hooks/useRealData.ts:71-81 | a doctor's name is the profile name or "Doctor"; the avatar comes from the profile; every other field is copied |
| RealData.ProjectAppointment | src/hooks/useRealData.ts:99-111 | the patient and doctor names are the joined names or "Patient" and "Doctor"; every other field is copied |
| RealData.ProjectQueueRow | src/hooks/useRealData.ts:127-134 | into the hook's own queue record: the patient name falls back to "Patient" and the slot to ""; id, appointment id, status and estimated time are copied |
| RealData.ProjectNotification | src/hooks/useRealData.ts:146-153 | `created_at` becomes the timestamp and every other field is copied |
| RealData.QueueFallbacks | src/hooks/useRealData.ts:130-131 | a queue row without its join shows "Patient" and an empty slot; an empty name falls back too; a present slot is shown |
| RealData.NameFallbacks | src/hooks/useRealData.ts:74-104 | missing or empty joined names show as "Doctor" and "Patient", and present names are copied |
| RealData.ProjectDoctors | src/hooks/useRealData.ts:70-83 | the doctor rows map one to one, in order |
| RealData.ProjectAppointments | src/hooks/useRealData.ts:98-113 | the appointment rows map one to one, in order |
| RealData.ProjectQueue | src/hooks/useRealData.ts:126-136 | the queue rows map one to one, in order |
| RealData.ProjectNotifications | src/hooks/useRealData.ts:145-155 | the notification rows map one to one, in order |
| RealData.ProjectQueueKeepsIdentity | src/hooks/useRealData.ts:127-134 | each queue item keeps its row's id, appointment id, status and estimated time in place |
| RealData.ApplyFetch | src/hooks/useRealData.ts:70-155 | each collection is replaced by its projected rows when its query returned data, and is kept otherwise |
| RealData.FetchRules | src/hooks/useRealData.ts:70-155 | a round where every query returned null changes nothing; repeating a round changes nothing; a round where every query returned data erases what came before |

## Left out

- Database queries, the realtime subscription and the `loading` flag in `useRealData.ts` are left out; the model starts from the rows a query returned. So are the try/catch error logging and the notification query's ordering by `created_at`.
- RealData.ProjectDoctor: the rating is taken as an already numeric column (a real). `parseFloat` of a non-numeric text, which gives NaN, is not modelled.
- `useMockData.ts`, which supplies every dashboard's lists and setters, is not part of this model; the dashboards' functions take the lists as parameters. `useRealData.ts` is modelled on its own, with its own record types (`RealData.LiveDoctor`, `LiveAppointment`, `LiveQueueItem`), because no screen reads it.
- `FlowPage.tsx`, `FlowChart.tsx`, `App.tsx` and `Index.tsx` are not part of this model. They hold routing and static diagrams, including the role dispatch.
- LoginScreen.Submit: the browser's constraint validation is not modelled. The email field has `type="email"` inside a form without `noValidate`, so for a malformed email the browser blocks the submit event and no call happens; the model calls `login` for any non-empty fields.
- The `login` implementation and the authentication context are not part of this model. `LoginScreen.Submit` takes `login`'s answer as a function parameter, and the `isLoading` button state is left out.
- Toasts, JSX layout and Tailwind classes are not modelled. Badge classes are reduced to the colour they name (`Badges.Tone`), and toast texts to a `Notice` value.
- Text.Lower: `toLowerCase` is modelled on ASCII letters only. Other characters with a lower-case form are left as they are, so Text.Includes and the search are exact only for ASCII names.
- Text.Split: a character is a Unicode scalar value, where JavaScript indexes UTF-16 code units. Names containing characters outside the Basic Multilingual Plane split into the same pieces, but the pieces' lengths differ from JavaScript's.
- Text.Initials: for a word that starts with a character outside the Basic Multilingual Plane, JavaScript's `n[0]` is a lone surrogate; the model gives the whole character.
- JavaScript numbers (`experience`, `consultationTime`, `queuePosition`, `estimatedWaitTime`, `estimatedTime`) are modelled as unbounded integers. Fractional values, NaN and floating-point limits are not modelled.
- `new Date()`, `Date.now()`, `toISOString()` and `getDay()` are inputs: `today`, `now`, the notification id and timestamp, and each calendar day's weekday.
- `format(date, 'PPP')` in the confirmation toast is not modelled; the toast carries the day itself.
- The doctor's `updateDoctorStatus` toast and the "Add Walk-in" and "View All" buttons do nothing to state and are not modelled. The reception row's bell and phone buttons are `SendNotification` with fixed messages (`CompounderDashboard.ReminderText`).
- The estimated-wait line is shown only for a truthy `estimatedTime`. This display rule is not modelled; the value is kept as an optional integer.
- The doctor dashboard's `todayAppointments` has the same definition as the reception one and is covered by `CompounderDashboard.TodayAppointments`.
