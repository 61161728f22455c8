/** The booking modal: date and slot pickers, the symptoms box, the
    confirmation check, and what is shown when. The clock ("now") and each
    calendar day's weekday are parameters. */
module BookingModal {

  import opened Wrappers
  import opened Text
  import opened Types

  /** The fixed list of bookable time slots. */
  const TimeSlots: seq<string> := [
    "9:00 AM", "9:30 AM", "10:00 AM", "10:30 AM", "11:00 AM", "11:30 AM",
    "2:00 PM", "2:30 PM", "3:00 PM", "3:30 PM", "4:00 PM", "4:30 PM"
  ]

  /** Hour on the 12-hour clock of an hour of the day (0 to 23). */
  function Hour12(hour: nat): (r: nat)
    ensures 1 <= r <= 12
  {
    if hour % 12 == 0 then 12 else hour % 12
  }

  /** A whole or half hour of the day on the 12-hour clock: "h:00 AM", "h:30 PM", ... */
  function ClockLabel(hour: nat, half: bool): string
  {
    NatToString(Hour12(hour)) + (if half then ":30" else ":00") + (if hour < 12 then " AM" else " PM")
  }

  /** Twelve slots: every half hour from 9:00 AM to 11:30 AM, then every half
      hour from 2:00 PM to 4:30 PM. */
  lemma TimeSlotsSchedule()
    ensures |TimeSlots| == 12
    ensures TimeSlots[0] == ClockLabel(9, false)
    ensures TimeSlots[1] == ClockLabel(9, true)
    ensures TimeSlots[2] == ClockLabel(10, false)
    ensures TimeSlots[3] == ClockLabel(10, true)
    ensures TimeSlots[4] == ClockLabel(11, false)
    ensures TimeSlots[5] == ClockLabel(11, true)
    ensures TimeSlots[6] == ClockLabel(14, false)
    ensures TimeSlots[7] == ClockLabel(14, true)
    ensures TimeSlots[8] == ClockLabel(15, false)
    ensures TimeSlots[9] == ClockLabel(15, true)
    ensures TimeSlots[10] == ClockLabel(16, false)
    ensures TimeSlots[11] == ClockLabel(16, true)
  {
  }

  /** No slot is listed twice. */
  lemma TimeSlotsDistinct()
    ensures forall i, j :: 0 <= i < j < |TimeSlots| ==> TimeSlots[i] != TimeSlots[j]
  {
  }

  /** A day offered by the calendar: its instant (midnight, in milliseconds)
      and its weekday as `getDay()` gives it (0 is Sunday). */
  datatype CalendarDay = CalendarDay(instant: int, weekday: int)

  /** The calendar's `disabled` test: any day before the present instant, and
      every Sunday. */
  predicate DateDisabled(d: CalendarDay, now: int): (r: bool)
    ensures d.weekday == 0 ==> r
    ensures d.weekday != 0 ==> (r <==> d.instant < now)
  {
    d.instant < now || d.weekday == 0
  }

  /** The comparison is with the present instant, not with today's date: the
      midnight of the current day is disabled as soon as it has passed, and a
      day disabled now stays disabled later. */
  lemma DateDisabledIsMonotone(d: CalendarDay, now: int, later: int)
    requires now <= later
    ensures DateDisabled(d, now) ==> DateDisabled(d, later)
    ensures d.instant < now ==> DateDisabled(d, now)
  {
  }

  /** The modal's form state. `date` is unset until a day is picked; `slot` is
      the empty string until a slot is picked. */
  datatype Form = Form(date: Option<CalendarDay>, slot: string, symptoms: string)

  const EmptyForm: Form := Form(None, "", "")

  /** A click on a day of the single-selection calendar, whose `onSelect` is
      the date setter: a disabled day cannot be clicked, a click on the
      selected day deselects it (`onSelect(undefined)`), and a click on any
      other day selects that day. Only the date changes. */
  function PickDate(f: Form, d: CalendarDay, now: int): (r: Form)
    ensures DateDisabled(d, now) ==> r == f
    ensures !DateDisabled(d, now) && f.date.Some? && f.date.value.instant == d.instant ==> r == f.(date := None)
    ensures !DateDisabled(d, now) && !(f.date.Some? && f.date.value.instant == d.instant) ==> r == f.(date := Some(d))
    ensures r.slot == f.slot && r.symptoms == f.symptoms
  {
    if DateDisabled(d, now) then f
    else if f.date.Some? && f.date.value.instant == d.instant then f.(date := None)
    else f.(date := Some(d))
  }

  /** Clicking the same open day twice leaves no date set, so the form can
      no longer be booked until a day is picked again. */
  lemma PickDateTwiceClears(f: Form, d: CalendarDay, now: int)
    requires !DateDisabled(d, now) && f.date.None?
    ensures PickDate(f, d, now).date == Some(d)
    ensures PickDate(PickDate(f, d, now), d, now).date.None?
    ensures !ConfirmBooking(PickDate(PickDate(f, d, now), d, now), None).closed
  {
  }

  /** The slot picker is on screen only once a date is set: exactly when
      choosing a slot would make the form acceptable. */
  predicate SlotPickerShown(f: Form): (r: bool)
    ensures r <==> ConfirmBooking(f.(slot := TimeSlots[0]), None).closed
  {
    f.date.Some?
  }

  /** Pressing the button of the k-th slot; without a date there are no buttons. */
  function PickSlot(f: Form, k: nat): (r: Form)
    ensures SlotPickerShown(f) && k < |TimeSlots| ==> r == f.(slot := TimeSlots[k])
    ensures !(SlotPickerShown(f) && k < |TimeSlots|) ==> r == f
  {
    if SlotPickerShown(f) && k < |TimeSlots| then f.(slot := TimeSlots[k]) else f
  }

  function TypeSymptoms(f: Form, text: string): (r: Form)
    ensures r.date == f.date && r.slot == f.slot && r.symptoms == text
  {
    f.(symptoms := text)
  }

  /** The booking summary is on screen only when both date and slot are set:
      exactly when pressing Book would be accepted, and only below the slot
      picker. */
  predicate SummaryShown(f: Form): (r: bool)
    ensures r <==> ConfirmBooking(f, None).closed
    ensures r ==> SlotPickerShown(f)
  {
    f.date.Some? && f.slot != ""
  }

  /** The modal renders nothing without a doctor; so whenever it is on screen,
      a confirmation names that doctor and never an undefined one. */
  predicate ModalRendered(doctor: Option<Doctor>): (r: bool)
    ensures !r ==> doctor.None?
    ensures r ==> doctor.Some? && forall f :: ConfirmBooking(f, doctor).closed ==>
                                    ConfirmBooking(f, doctor).notice.doctorName == Some(doctor.value.name)
  {
    doctor.Some?
  }

  /** What the toast says: the error, or the confirmation for the chosen
      doctor (`doctor?.name`), date and slot. */
  datatype Notice = SelectDateAndSlot | Confirmed(doctorName: Option<string>, date: CalendarDay, slot: string)

  /** The form after the press, whether `onClose` was called, and the toast. */
  datatype Outcome = Outcome(form: Form, closed: bool, notice: Notice)

  /** `handleBookAppointment`: rejected, with nothing reset and the modal left
      open, unless both a date and a slot are set; otherwise confirmed, the
      modal closed and date, slot and symptoms all reset. */
  function ConfirmBooking(f: Form, doctor: Option<Doctor>): (r: Outcome)
    ensures r.closed <==> f.date.Some? && f.slot != ""
    ensures !r.closed ==> r.form == f && r.notice == SelectDateAndSlot
    ensures r.closed ==> r.form == EmptyForm
    ensures r.closed ==> r.notice.Confirmed? && r.notice.date == f.date.value && r.notice.slot == f.slot
  {
    if f.date.None? || f.slot == "" then Outcome(f, false, SelectDateAndSlot)
    else Outcome(EmptyForm, true, Confirmed(if doctor.Some? then Some(doctor.value.name) else None, f.date.value, f.slot))
  }

  /** The symptoms never decide acceptance, and the summary is on screen exactly
      when a press would be accepted (so it implies the slot picker is shown). */
  lemma AcceptanceIgnoresSymptoms(f: Form, text: string, doctor: Option<Doctor>)
    ensures ConfirmBooking(TypeSymptoms(f, text), doctor).closed == ConfirmBooking(f, doctor).closed
    ensures SummaryShown(f) <==> ConfirmBooking(f, doctor).closed
    ensures SummaryShown(f) ==> SlotPickerShown(f)
  {
  }

  /** After a confirmed booking the form is empty, so pressing again is rejected. */
  lemma NoSecondConfirmation(f: Form, doctor: Option<Doctor>)
    requires ConfirmBooking(f, doctor).closed
    ensures !ConfirmBooking(ConfirmBooking(f, doctor).form, doctor).closed
  {
  }

  /** The user's inputs to the form. */
  datatype Input = ChooseDate(day: CalendarDay, now: int) | ChooseSlot(k: nat) | Describe(text: string)

  function Step(f: Form, i: Input): Form
  {
    match i
    case ChooseDate(d, now) => PickDate(f, d, now)
    case ChooseSlot(k) => PickSlot(f, k)
    case Describe(text) => TypeSymptoms(f, text)
  }

  function Fill(f: Form, inputs: seq<Input>): Form
    decreases |inputs|
  {
    if |inputs| == 0 then f else Fill(Step(f, inputs[0]), inputs[1..])
  }

  /** Forms the user can reach: the date, when set, is not a Sunday, and the
      slot, when set, is one of the listed slots. */
  predicate WellFormed(f: Form)
  {
    && (f.date.Some? ==> f.date.value.weekday != 0)
    && (f.slot == "" || f.slot in TimeSlots)
  }

  /** Whatever the user does from an empty form, a confirmed booking is for a
      weekday other than Sunday and for a listed slot. */
  lemma {:induction false} FilledFormsAreWellFormed(f: Form, inputs: seq<Input>)
    requires WellFormed(f)
    ensures WellFormed(Fill(f, inputs))
    ensures ConfirmBooking(Fill(f, inputs), None).closed ==>
              && Fill(f, inputs).date.value.weekday != 0
              && Fill(f, inputs).slot in TimeSlots
    decreases |inputs|
  {
    if |inputs| > 0 {
      var next := Step(f, inputs[0]);
      assert WellFormed(next);
      FilledFormsAreWellFormed(next, inputs[1..]);
    }
  }
}
