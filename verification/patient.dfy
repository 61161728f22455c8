/** The patient dashboard: the appointments filed under a fixed mock patient
    name, the unread-notification count, the featured doctors, and opening and closing the booking modal. */
module PatientDashboard {

  import opened Wrappers
  import opened Seqs
  import opened Types
  import opened Badges
  import BookingModal

  /** The fixed name the dashboard filters appointments by. */
  const CurrentPatientName: string := "John Doe"

  function IsMine(a: Appointment): bool
  {
    a.patientName == CurrentPatientName
  }

  /** `myAppointments`: the appointments of the fixed patient name. */
  function MyAppointments(appointments: seq<Appointment>): (r: seq<Appointment>)
    ensures forall a :: a in r <==> a in appointments && a.patientName == CurrentPatientName
  {
    Filter(appointments, IsMine)
  }

  /** The patient's list is an order-preserving subsequence of all
      appointments, holding each of theirs as often as the full list does. */
  lemma MyAppointmentsIsSubsequence(appointments: seq<Appointment>)
    ensures IsSubseq(MyAppointments(appointments), appointments)
    ensures forall a ::
              multiset(MyAppointments(appointments))[a] ==
              (if a.patientName == CurrentPatientName then multiset(appointments)[a] else 0)
  {
    FilterIsSubseq(appointments, IsMine);
    FilterMultiplicity(appointments, IsMine);
  }

  function IsUnread(n: Notification): bool
  {
    !n.read
  }

  /** `unreadNotifications`: the notifications not yet read, in order. */
  function UnreadNotifications(ns: seq<Notification>): (r: seq<Notification>)
    ensures forall n :: n in r <==> n in ns && !n.read
  {
    Filter(ns, IsUnread)
  }

  /** The bell badge is shown when the unread count is positive. */
  predicate ShowsBadge(ns: seq<Notification>)
  {
    |UnreadNotifications(ns)| > 0
  }

  /** The unread list is an order-preserving subsequence holding each unread
      notification as often as the full list does, so its length is the
      count on the badge; the badge is shown exactly when some notification
      is unread. */
  lemma UnreadNotificationsSpec(ns: seq<Notification>)
    ensures IsSubseq(UnreadNotifications(ns), ns)
    ensures forall n ::
              multiset(UnreadNotifications(ns))[n] == (if !n.read then multiset(ns)[n] else 0)
    ensures ShowsBadge(ns) <==> exists i :: 0 <= i < |ns| && !ns[i].read
  {
    FilterIsSubseq(ns, IsUnread);
    FilterMultiplicity(ns, IsUnread);
    var unread := UnreadNotifications(ns);
    if |unread| > 0 {
      assert unread[0] in unread;
    }
    if i :| 0 <= i < |ns| && !ns[i].read {
      assert ns[i] in unread;
    }
  }

  /** `doctors.slice(0, 3)`: the first three doctors, or all when fewer. */
  function FeaturedDoctors(doctors: seq<Doctor>): (r: seq<Doctor>)
    ensures |r| == if |doctors| < 3 then |doctors| else 3
    ensures r == doctors[..|r|]
  {
    Take(doctors, 3)
  }

  /** The Book button is enabled exactly for available doctors: those whose
      status badge is green. */
  predicate CanBook(d: Doctor): (r: bool)
    ensures r <==> DoctorStatusTone(DoctorStatusText(d.status)) == Green
  {
    d.status == Available
  }

  /** The dashboard's modal state. */
  datatype View = View(selectedDoctor: Option<Doctor>, isBookingOpen: bool)

  const InitialView: View := View(None, false)

  /** Pressing Book on a doctor card: selects the doctor and opens the modal; a
      disabled button does nothing. */
  function PressBook(v: View, d: Doctor): (r: View)
    ensures CanBook(d) ==> r == View(Some(d), true)
    ensures !CanBook(d) ==> r == v
  {
    if CanBook(d) then View(Some(d), true) else v
  }

  /** The "Book Appointment" button of the empty appointment list opens the
      modal without choosing a doctor. */
  function PressBookFromEmptyList(v: View): (r: View)
    ensures r.isBookingOpen && r.selectedDoctor == v.selectedDoctor
  {
    v.(isBookingOpen := true)
  }

  /** The modal's `onClose`: closed and no doctor selected. */
  function CloseModal(v: View): (r: View)
    ensures r == InitialView
  {
    View(None, false)
  }

  /** The booking dialog is on screen: the modal renders nothing without a
      doctor and is otherwise open as the flag says. */
  predicate DialogShown(v: View)
  {
    BookingModal.ModalRendered(v.selectedDoctor) && v.isBookingOpen
  }

  /** Book on an available doctor shows the dialog for that doctor, and
      closing returns to the initial state whatever came before. */
  lemma BookThenClose(v: View, d: Doctor)
    ensures CanBook(d) ==> DialogShown(PressBook(v, d)) && PressBook(v, d).selectedDoctor == Some(d)
    ensures !DialogShown(CloseModal(PressBook(v, d)))
    ensures CloseModal(PressBook(v, d)) == InitialView
  {
  }

  /** From the initial state the empty-list button sets the open flag but no
      dialog appears, because no doctor is selected. */
  lemma EmptyListButtonShowsNothing()
    ensures PressBookFromEmptyList(InitialView).isBookingOpen
    ensures !DialogShown(PressBookFromEmptyList(InitialView))
  {
  }
}
