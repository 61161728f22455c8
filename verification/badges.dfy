/** The badge colour mappings of the dashboards. Each source function switches
    on a status string and has a grey default; the Tailwind class strings are
    abstracted to the colour they name. */
module Badges {

  import opened Wrappers
  import opened Types

  datatype Tone = Green | Yellow | Blue | Red | Orange | Gray

  /** The shared default of every mapping. */
  const DefaultTone: Tone := Gray

  /** Queue item badge: each queue status has its own colour and every other
      string takes the default. */
  function QueueStatusTone(s: string): (r: Tone)
    ensures r == DefaultTone <==> ParseQueueStatus(s).None?
  {
    if s == "waiting" then Yellow
    else if s == "in-progress" then Blue
    else if s == "completed" then Green
    else DefaultTone
  }

  /** Doctor availability badge, the same mapping on the reception and the
      patient dashboards: each doctor status has its own colour. */
  function DoctorStatusTone(s: string): (r: Tone)
    ensures r == DefaultTone <==> ParseDoctorStatus(s).None?
  {
    if s == "available" then Green
    else if s == "busy" then Yellow
    else if s == "away" then Red
    else DefaultTone
  }

  /** The doctor's own status badge, which also knows `delayed`. */
  function SelfStatusTone(s: string): (r: Tone)
    ensures r == DefaultTone <==> s !in ["available", "busy", "delayed", "away"]
  {
    if s == "available" then Green
    else if s == "busy" then Yellow
    else if s == "delayed" then Orange
    else if s == "away" then Red
    else DefaultTone
  }

  /** Appointment badge on the patient dashboard. */
  function AppointmentStatusTone(s: string): (r: Tone)
    ensures r != DefaultTone <==> s == "booked" || s == "in-progress"
    ensures r != DefaultTone ==> ParseAppointmentStatus(s).Some?
  {
    if s == "booked" then Blue
    else if s == "in-progress" then Green
    else if s == "completed" then Gray
    else DefaultTone
  }

  /** Distinct queue statuses get distinct colours. */
  lemma QueueStatusTonesDistinct(a: QueueStatus, b: QueueStatus)
    requires a != b
    ensures QueueStatusTone(QueueStatusText(a)) != QueueStatusTone(QueueStatusText(b))
  {
  }

  /** Distinct doctor statuses get distinct colours. */
  lemma DoctorStatusTonesDistinct(a: DoctorStatus, b: DoctorStatus)
    requires a != b
    ensures DoctorStatusTone(DoctorStatusText(a)) != DoctorStatusTone(DoctorStatusText(b))
  {
  }

  /** The self-status badge agrees with the availability badge on every doctor
      status and differs from it only by giving `delayed` its own colour. */
  lemma SelfStatusToneExtendsDoctorStatusTone(s: string)
    ensures s != "delayed" ==> SelfStatusTone(s) == DoctorStatusTone(s)
    ensures SelfStatusTone("delayed") != DoctorStatusTone("delayed")
  {
  }

  /** `cancelled` has no case of its own: it falls to the default, which is the
      same grey `completed` is shown in. Booked and in-progress are told apart. */
  lemma AppointmentTones()
    ensures AppointmentStatusTone(AppointmentStatusText(Cancelled)) == DefaultTone
    ensures AppointmentStatusTone(AppointmentStatusText(AppointmentCompleted)) == DefaultTone
    ensures AppointmentStatusTone(AppointmentStatusText(Booked)) != DefaultTone
    ensures AppointmentStatusTone(AppointmentStatusText(AppointmentInProgress)) != DefaultTone
    ensures AppointmentStatusTone(AppointmentStatusText(Booked))
         != AppointmentStatusTone(AppointmentStatusText(AppointmentInProgress))
  {
  }
}
