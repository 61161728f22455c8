/** The record and enumeration types shared by the dashboards. Each
    enumeration has its wire text (the string the source stores) and a parser
    back from that text. */
module Types {

  import opened Wrappers

  datatype Role = PatientRole | DoctorRole | CompounderRole

  function RoleText(r: Role): string
  {
    match r
    case PatientRole => "patient"
    case DoctorRole => "doctor"
    case CompounderRole => "compounder"
  }

  function ParseRole(t: string): (r: Option<Role>)
    ensures r.Some? ==> RoleText(r.value) == t
  {
    if t == "patient" then Some(PatientRole)
    else if t == "doctor" then Some(DoctorRole)
    else if t == "compounder" then Some(CompounderRole)
    else None
  }

  datatype DoctorStatus = Available | Busy | Away

  function DoctorStatusText(s: DoctorStatus): string
  {
    match s
    case Available => "available"
    case Busy => "busy"
    case Away => "away"
  }

  function ParseDoctorStatus(t: string): (r: Option<DoctorStatus>)
    ensures r.Some? ==> DoctorStatusText(r.value) == t
  {
    if t == "available" then Some(Available)
    else if t == "busy" then Some(Busy)
    else if t == "away" then Some(Away)
    else None
  }

  datatype AppointmentStatus = Booked | AppointmentInProgress | AppointmentCompleted | Cancelled

  function AppointmentStatusText(s: AppointmentStatus): string
  {
    match s
    case Booked => "booked"
    case AppointmentInProgress => "in-progress"
    case AppointmentCompleted => "completed"
    case Cancelled => "cancelled"
  }

  function ParseAppointmentStatus(t: string): (r: Option<AppointmentStatus>)
    ensures r.Some? ==> AppointmentStatusText(r.value) == t
  {
    if t == "booked" then Some(Booked)
    else if t == "in-progress" then Some(AppointmentInProgress)
    else if t == "completed" then Some(AppointmentCompleted)
    else if t == "cancelled" then Some(Cancelled)
    else None
  }

  /** The life cycle of a queue item: waiting (initial), in-progress, completed (terminal). */
  datatype QueueStatus = Waiting | InProgress | Completed

  function QueueStatusText(s: QueueStatus): string
  {
    match s
    case Waiting => "waiting"
    case InProgress => "in-progress"
    case Completed => "completed"
  }

  function ParseQueueStatus(t: string): (r: Option<QueueStatus>)
    ensures r.Some? ==> QueueStatusText(r.value) == t
  {
    if t == "waiting" then Some(Waiting)
    else if t == "in-progress" then Some(InProgress)
    else if t == "completed" then Some(Completed)
    else None
  }

  datatype NotificationType = Info | Warning | Success | Error

  function NotificationTypeText(k: NotificationType): string
  {
    match k
    case Info => "info"
    case Warning => "warning"
    case Success => "success"
    case Error => "error"
  }

  function ParseNotificationType(t: string): (r: Option<NotificationType>)
    ensures r.Some? ==> NotificationTypeText(r.value) == t
  {
    if t == "info" then Some(Info)
    else if t == "warning" then Some(Warning)
    else if t == "success" then Some(Success)
    else if t == "error" then Some(Error)
    else None
  }

  /** Every enumeration value is written as a text its parser reads back. */
  lemma TextParseRoundTrip()
    ensures forall r :: ParseRole(RoleText(r)) == Some(r)
    ensures forall s :: ParseDoctorStatus(DoctorStatusText(s)) == Some(s)
    ensures forall s :: ParseAppointmentStatus(AppointmentStatusText(s)) == Some(s)
    ensures forall s :: ParseQueueStatus(QueueStatusText(s)) == Some(s)
    ensures forall k :: ParseNotificationType(NotificationTypeText(k)) == Some(k)
  {
  }

  /** `cancelled` is an appointment status only: no queue status is written as it,
      so no queue operation can produce it. */
  lemma CancelledIsNotAQueueStatus()
    ensures ParseQueueStatus(AppointmentStatusText(Cancelled)) == None
    ensures forall s :: QueueStatusText(s) != AppointmentStatusText(Cancelled)
  {
  }

  datatype User = User(
    id: string,
    name: string,
    email: string,
    role: Role,
    phone: Option<string>,
    specialization: Option<string>,
    experience: Option<int>,
    avatar: Option<string>)

  /** `consultationTime` is in minutes; `rating` is the source's floating-point
      number, idealised as a real. */
  datatype Doctor = Doctor(
    id: string,
    name: string,
    specialization: string,
    experience: int,
    rating: real,
    consultationTime: int,
    avatar: Option<string>,
    status: DoctorStatus,
    nextAvailable: Option<string>)

  datatype Appointment = Appointment(
    id: string,
    patientId: string,
    patientName: string,
    doctorId: string,
    doctorName: string,
    date: string,
    timeSlot: string,
    status: AppointmentStatus,
    queuePosition: Option<int>,
    estimatedWaitTime: Option<int>,
    symptoms: Option<string>,
    notes: Option<string>)

  datatype QueueItem = QueueItem(
    id: string,
    appointmentId: string,
    patientName: string,
    timeSlot: string,
    status: QueueStatus,
    estimatedTime: Option<int>)

  /** The source's `type` field is named `kind` here (`type` is a Dafny keyword). */
  datatype Notification = Notification(
    id: string,
    title: string,
    message: string,
    kind: NotificationType,
    timestamp: string,
    read: bool)
}
