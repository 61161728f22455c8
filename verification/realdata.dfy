/** The data hook's projections from fetched rows (with their joined records)
    to the records the dashboards display, and the rule for when a fetched
    collection replaces the previous one. The queries and the realtime feed
    are not part of this model. */
module RealData {

  import opened Wrappers
  import opened Types

  /** `value || fallback` on an optional string: the fallback replaces a
      missing value and also the empty string, which JavaScript treats as false. */
  function OrElse(value: Option<string>, fallback: string): (r: string)
    ensures value.Some? && value.value != "" ==> r == value.value
    ensures value.None? || value.value == "" ==> r == fallback
  {
    if value.Some? && value.value != "" then value.value else fallback
  }

  /** A joined `profiles` record; either field may be null. */
  datatype ProfileJoin = ProfileJoin(name: Option<string>, avatar: Option<string>)

  /** `profile?.name`. */
  function NameOf(profile: Option<ProfileJoin>): Option<string>
  {
    if profile.Some? then profile.value.name else None
  }

  /** A `doctors` row with its joined profile. The rating column is taken as
      already numeric. */
  datatype DoctorRow = DoctorRow(
    id: string, userId: string, specialization: string, experience: int, rating: real,
    consultationTime: int, status: DoctorStatus, profile: Option<ProfileJoin>)

  /** The hook's doctor record. */
  datatype LiveDoctor = LiveDoctor(
    id: string, userId: string, name: string, specialization: string, experience: int,
    rating: real, consultationTime: int, status: DoctorStatus, avatar: Option<string>)

  function ProjectDoctor(row: DoctorRow): (d: LiveDoctor)
    ensures d.name == OrElse(NameOf(row.profile), "Doctor")
    ensures d.avatar == (if row.profile.Some? then row.profile.value.avatar else None)
    ensures d.id == row.id && d.userId == row.userId && d.specialization == row.specialization
    ensures d.experience == row.experience && d.rating == row.rating
    ensures d.consultationTime == row.consultationTime && d.status == row.status
  {
    LiveDoctor(row.id, row.userId, OrElse(NameOf(row.profile), "Doctor"), row.specialization,
               row.experience, row.rating, row.consultationTime, row.status,
               if row.profile.Some? then row.profile.value.avatar else None)
  }

  /** The joined doctor of an appointment, itself joined with its profile. */
  datatype DoctorJoin = DoctorJoin(profile: Option<ProfileJoin>)

  datatype AppointmentRow = AppointmentRow(
    id: string, patientId: string, doctorId: string, date: string, timeSlot: string,
    status: AppointmentStatus, queuePosition: Option<int>, estimatedWaitTime: Option<int>,
    symptoms: Option<string>, patient: Option<ProfileJoin>, doctor: Option<DoctorJoin>)

  /** The hook's appointment record. */
  datatype LiveAppointment = LiveAppointment(
    id: string, patientId: string, patientName: string, doctorId: string, doctorName: string,
    date: string, timeSlot: string, status: AppointmentStatus, queuePosition: Option<int>,
    estimatedWaitTime: Option<int>, symptoms: Option<string>)

  /** `apt.doctor?.profiles?.name`. */
  function DoctorNameOf(doctor: Option<DoctorJoin>): Option<string>
  {
    if doctor.Some? then NameOf(doctor.value.profile) else None
  }

  function ProjectAppointment(row: AppointmentRow): (a: LiveAppointment)
    ensures a.patientName == OrElse(NameOf(row.patient), "Patient")
    ensures a.doctorName == OrElse(DoctorNameOf(row.doctor), "Doctor")
    ensures a.id == row.id && a.patientId == row.patientId && a.doctorId == row.doctorId
    ensures a.date == row.date && a.timeSlot == row.timeSlot && a.status == row.status
    ensures a.queuePosition == row.queuePosition && a.estimatedWaitTime == row.estimatedWaitTime
    ensures a.symptoms == row.symptoms
  {
    LiveAppointment(row.id, row.patientId, OrElse(NameOf(row.patient), "Patient"), row.doctorId,
                    OrElse(DoctorNameOf(row.doctor), "Doctor"), row.date, row.timeSlot, row.status,
                    row.queuePosition, row.estimatedWaitTime, row.symptoms)
  }

  /** The appointment joined to a queue row: its slot and its patient's profile. */
  datatype AppointmentJoin = AppointmentJoin(timeSlot: Option<string>, patient: Option<ProfileJoin>)

  datatype QueueRow = QueueRow(
    id: string, appointmentId: string, status: QueueStatus, estimatedTime: Option<int>,
    appointment: Option<AppointmentJoin>)

  /** `item.appointment?.patient?.name`. */
  function PatientNameOf(appointment: Option<AppointmentJoin>): Option<string>
  {
    if appointment.Some? then NameOf(appointment.value.patient) else None
  }

  /** `item.appointment?.time_slot`. */
  function SlotOf(appointment: Option<AppointmentJoin>): Option<string>
  {
    if appointment.Some? then appointment.value.timeSlot else None
  }

  /** The hook's own queue record, a type of its own beside the dashboards'
      `QueueItem`. */
  datatype LiveQueueItem = LiveQueueItem(
    id: string, appointmentId: string, patientName: string, timeSlot: string,
    status: QueueStatus, estimatedTime: Option<int>)

  function ProjectQueueRow(row: QueueRow): (item: LiveQueueItem)
    ensures item.patientName == OrElse(PatientNameOf(row.appointment), "Patient")
    ensures item.timeSlot == OrElse(SlotOf(row.appointment), "")
    ensures item.id == row.id && item.appointmentId == row.appointmentId
    ensures item.status == row.status && item.estimatedTime == row.estimatedTime
  {
    LiveQueueItem(row.id, row.appointmentId, OrElse(PatientNameOf(row.appointment), "Patient"),
              OrElse(SlotOf(row.appointment), ""), row.status, row.estimatedTime)
  }

  datatype NotificationRow = NotificationRow(
    id: string, title: string, message: string, kind: NotificationType, createdAt: string, read: bool)

  /** `created_at` becomes `timestamp`; every other field is copied. */
  function ProjectNotification(row: NotificationRow): (n: Notification)
    ensures n.timestamp == row.createdAt
    ensures n.id == row.id && n.title == row.title && n.message == row.message
    ensures n.kind == row.kind && n.read == row.read
  {
    Notification(row.id, row.title, row.message, row.kind, row.createdAt, row.read)
  }

  /** A queue item with a missing join, or a join without a patient name, is
      shown as "Patient" with an empty slot when the slot is missing too;
      a present non-empty name is shown as it is. */
  lemma QueueFallbacks(row: QueueRow)
    ensures row.appointment.None? ==> ProjectQueueRow(row).patientName == "Patient" && ProjectQueueRow(row).timeSlot == ""
    ensures PatientNameOf(row.appointment) == Some("") ==> ProjectQueueRow(row).patientName == "Patient"
    ensures row.appointment.Some? && row.appointment.value.timeSlot.Some?
            ==> ProjectQueueRow(row).timeSlot == row.appointment.value.timeSlot.value
  {
  }

  /** Doctor and appointment names fall back to "Doctor" and "Patient" when
      the joined record or its name is missing or empty, and are copied
      otherwise. */
  lemma NameFallbacks(d: DoctorRow, a: AppointmentRow)
    ensures d.profile.None? ==> ProjectDoctor(d).name == "Doctor" && ProjectDoctor(d).avatar.None?
    ensures d.profile.Some? && d.profile.value.name == Some("") ==> ProjectDoctor(d).name == "Doctor"
    ensures a.patient.None? ==> ProjectAppointment(a).patientName == "Patient"
    ensures a.doctor.None? || a.doctor.value.profile.None? ==> ProjectAppointment(a).doctorName == "Doctor"
    ensures NameOf(a.patient).Some? && NameOf(a.patient).value != ""
            ==> ProjectAppointment(a).patientName == NameOf(a.patient).value
  {
  }

  /** `rows.map(project)` for each collection: same length, same order. */
  function ProjectDoctors(rows: seq<DoctorRow>): (r: seq<LiveDoctor>)
    ensures |r| == |rows| && forall i :: 0 <= i < |rows| ==> r[i] == ProjectDoctor(rows[i])
  {
    seq(|rows|, i requires 0 <= i < |rows| => ProjectDoctor(rows[i]))
  }

  function ProjectAppointments(rows: seq<AppointmentRow>): (r: seq<LiveAppointment>)
    ensures |r| == |rows| && forall i :: 0 <= i < |rows| ==> r[i] == ProjectAppointment(rows[i])
  {
    seq(|rows|, i requires 0 <= i < |rows| => ProjectAppointment(rows[i]))
  }

  function ProjectQueue(rows: seq<QueueRow>): (r: seq<LiveQueueItem>)
    ensures |r| == |rows| && forall i :: 0 <= i < |rows| ==> r[i] == ProjectQueueRow(rows[i])
  {
    seq(|rows|, i requires 0 <= i < |rows| => ProjectQueueRow(rows[i]))
  }

  function ProjectNotifications(rows: seq<NotificationRow>): (r: seq<Notification>)
    ensures |r| == |rows| && forall i :: 0 <= i < |rows| ==> r[i] == ProjectNotification(rows[i])
  {
    seq(|rows|, i requires 0 <= i < |rows| => ProjectNotification(rows[i]))
  }

  /** The queue projection keeps each row's id, appointment id, status and
      estimated time in place. */
  lemma ProjectQueueKeepsIdentity(rows: seq<QueueRow>)
    ensures |ProjectQueue(rows)| == |rows|
    ensures forall i :: 0 <= i < |rows| ==>
              && ProjectQueue(rows)[i].id == rows[i].id
              && ProjectQueue(rows)[i].appointmentId == rows[i].appointmentId
              && ProjectQueue(rows)[i].status == rows[i].status
              && ProjectQueue(rows)[i].estimatedTime == rows[i].estimatedTime
  {
  }

  /** The hook's four collections. */
  datatype Snapshot = Snapshot(
    doctors: seq<LiveDoctor>, appointments: seq<LiveAppointment>,
    queue: seq<LiveQueueItem>, notifications: seq<Notification>)

  const EmptySnapshot: Snapshot := Snapshot([], [], [], [])

  /** The data of one round of queries; None where a query returned null. */
  datatype Fetch = Fetch(
    doctors: Option<seq<DoctorRow>>, appointments: Option<seq<AppointmentRow>>,
    queue: Option<seq<QueueRow>>, notifications: Option<seq<NotificationRow>>)

  /** One `fetchData` round: each collection is replaced by its projected rows
      when its query returned data, and kept otherwise. */
  function ApplyFetch(s: Snapshot, f: Fetch): (r: Snapshot)
    ensures f.doctors.None? ==> r.doctors == s.doctors
    ensures f.doctors.Some? ==> r.doctors == ProjectDoctors(f.doctors.value)
    ensures f.appointments.None? ==> r.appointments == s.appointments
    ensures f.appointments.Some? ==> r.appointments == ProjectAppointments(f.appointments.value)
    ensures f.queue.None? ==> r.queue == s.queue
    ensures f.queue.Some? ==> r.queue == ProjectQueue(f.queue.value)
    ensures f.notifications.None? ==> r.notifications == s.notifications
    ensures f.notifications.Some? ==> r.notifications == ProjectNotifications(f.notifications.value)
  {
    Snapshot(
      if f.doctors.Some? then ProjectDoctors(f.doctors.value) else s.doctors,
      if f.appointments.Some? then ProjectAppointments(f.appointments.value) else s.appointments,
      if f.queue.Some? then ProjectQueue(f.queue.value) else s.queue,
      if f.notifications.Some? then ProjectNotifications(f.notifications.value) else s.notifications)
  }

  /** A round in which every query returned null changes nothing; applying
      the same round twice is applying it once; and a round in which every
      query returned data wins over whatever came before it. */
  lemma FetchRules(s: Snapshot, f: Fetch, g: Fetch)
    ensures ApplyFetch(s, Fetch(None, None, None, None)) == s
    ensures ApplyFetch(ApplyFetch(s, f), f) == ApplyFetch(s, f)
    ensures g.doctors.Some? && g.appointments.Some? && g.queue.Some? && g.notifications.Some?
            ==> ApplyFetch(ApplyFetch(s, f), g) == ApplyFetch(EmptySnapshot, g)
  {
  }
}
