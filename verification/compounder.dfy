/** The reception ("compounder") dashboard: queue search, status counts,
    Start/Complete actions, and the notification records it adds to its own
    list (which no screen renders). */
module CompounderDashboard {

  import opened Wrappers
  import opened Seqs
  import opened Text
  import opened Types
  import opened Queue

  /** The dashboard's own state: the search box and the doctor picker. */
  datatype View = View(searchTerm: string, selectedDoctor: string)

  const InitialView: View := View("", "all")

  function MatchesSearch(term: string): QueueItem -> bool
  {
    (item: QueueItem) => Includes(Lower(item.patientName), Lower(term))
  }

  /** `filteredQueue`: the queue items whose patient name contains the search
      term, ignoring case, in queue order. */
  function FilteredQueue(v: View, q: seq<QueueItem>): (r: seq<QueueItem>)
    ensures |r| <= |q|
    ensures forall item :: item in r <==> item in q && Includes(Lower(item.patientName), Lower(v.searchTerm))
  {
    Filter(q, MatchesSearch(v.searchTerm))
  }

  /** The filter keeps an order-preserving subsequence of the queue, each item
      exactly as often as it occurs there when it matches and never otherwise. */
  lemma FilteredQueueIsSubsequence(v: View, q: seq<QueueItem>)
    ensures IsSubseq(FilteredQueue(v, q), q)
    ensures forall item ::
              multiset(FilteredQueue(v, q))[item] ==
              (if Includes(Lower(item.patientName), Lower(v.searchTerm)) then multiset(q)[item] else 0)
  {
    FilterIsSubseq(q, MatchesSearch(v.searchTerm));
    FilterMultiplicity(q, MatchesSearch(v.searchTerm));
  }

  /** The empty search term keeps the whole queue. */
  lemma {:induction false} EmptySearchKeepsAll(v: View, q: seq<QueueItem>)
    requires v.searchTerm == ""
    ensures FilteredQueue(v, q) == q
    decreases |q|
  {
    if |q| > 0 {
      assert OccursAt(Lower(q[0].patientName), "", 0);
      EmptySearchKeepsAll(v, q[1..]);
    }
  }

  /** The dashboard opens with the whole queue listed. */
  lemma InitialViewListsWholeQueue(q: seq<QueueItem>)
    ensures FilteredQueue(InitialView, q) == q
  {
    EmptySearchKeepsAll(InitialView, q);
  }

  /** Only the search term is consulted: the doctor picker changes nothing. */
  lemma SearchIgnoresSelectedDoctor(v: View, doctor: string, q: seq<QueueItem>)
    ensures FilteredQueue(v.(selectedDoctor := doctor), q) == FilteredQueue(v, q)
  {
  }

  /** Search terms that differ only in letter case select the same items. */
  lemma SearchIsCaseInsensitive(v: View, term: string, q: seq<QueueItem>)
    requires Lower(term) == Lower(v.searchTerm)
    ensures FilteredQueue(v.(searchTerm := term), q) == FilteredQueue(v, q)
  {
  }

  /** Searching "john" finds the patient "John Doe". */
  lemma SearchJohnFindsJohnDoe(item: QueueItem)
    requires item.patientName == "John Doe"
    ensures item in FilteredQueue(View("john", "all"), [item])
  {
  }

  /** `updateQueueStatus`: every item with the given queue id gets the new
      status; nothing else in the queue changes. */
  function UpdateQueueStatus(q: seq<QueueItem>, queueId: string, s: QueueStatus): (r: seq<QueueItem>)
    ensures |r| == |q|
    ensures forall i :: 0 <= i < |q| ==> r[i].id == q[i].id && r[i] == q[i].(status := r[i].status)
    ensures forall i :: 0 <= i < |q| ==> r[i].status == if q[i].id == queueId then s else q[i].status
  {
    Retag(q, QueueId(queueId), s)
  }

  /** An id that is not in the queue leaves it unchanged. */
  lemma UpdateAbsentIdIsIdentity(q: seq<QueueItem>, queueId: string, s: QueueStatus)
    requires forall i :: 0 <= i < |q| ==> q[i].id != queueId
    ensures UpdateQueueStatus(q, queueId, s) == q
  {
  }

  /** Applying the same update twice equals applying it once. */
  lemma UpdateIsIdempotent(q: seq<QueueItem>, queueId: string, s: QueueStatus)
    ensures UpdateQueueStatus(UpdateQueueStatus(q, queueId, s), queueId, s) == UpdateQueueStatus(q, queueId, s)
  {
    RetagLastWins(q, QueueId(queueId), s, s);
  }

  /** The four stat cards. */
  datatype Stats = Stats(today: nat, waiting: nat, inProgress: nat, completed: nat)

  function DatedOn(today: string): Appointment -> bool
  {
    (a: Appointment) => a.date == today
  }

  /** `todayAppointments`: the appointments dated `today` (the clock's date, a parameter). */
  function TodayAppointments(appointments: seq<Appointment>, today: string): (r: seq<Appointment>)
    ensures forall a :: a in r <==> a in appointments && a.date == today
  {
    Filter(appointments, DatedOn(today))
  }

  /** Today's appointments are an order-preserving subsequence holding each
      appointment of that date as often as the list does, so the card's count
      is the number of today's entries. */
  lemma TodayAppointmentsIsSubsequence(appointments: seq<Appointment>, today: string)
    ensures IsSubseq(TodayAppointments(appointments, today), appointments)
    ensures forall a ::
              multiset(TodayAppointments(appointments, today))[a] ==
              (if a.date == today then multiset(appointments)[a] else 0)
  {
    FilterIsSubseq(appointments, DatedOn(today));
    FilterMultiplicity(appointments, DatedOn(today));
  }

  function QuickStats(appointments: seq<Appointment>, q: seq<QueueItem>, today: string): (r: Stats)
    ensures r.waiting == StatusCount(q, Waiting) && r.inProgress == StatusCount(q, InProgress)
    ensures r.completed == StatusCount(q, Completed)
    ensures r.today == |TodayAppointments(appointments, today)|
    ensures r.waiting + r.inProgress + r.completed == |q|
    ensures r.today <= |appointments|
  {
    StatusCountsSum(q);
    Stats(|TodayAppointments(appointments, today)|,
          StatusCount(q, Waiting), StatusCount(q, InProgress), StatusCount(q, Completed))
  }

  /** The "Queue:" figure on each doctor card: the waiting count of the whole
      queue. */
  function DoctorCardQueueFigure(d: Doctor, q: seq<QueueItem>): nat
  {
    |Filter(q, HasStatus(Waiting))|
  }

  /** The figure does not depend on the doctor: every card shows the same
      number, the one on the "Waiting" stat card. */
  lemma QueueFigureIsGlobal(d1: Doctor, d2: Doctor, appointments: seq<Appointment>, q: seq<QueueItem>, today: string)
    ensures DoctorCardQueueFigure(d1, q) == DoctorCardQueueFigure(d2, q)
    ensures DoctorCardQueueFigure(d1, q) == QuickStats(appointments, q, today).waiting
  {
  }

  /** `sendNotification`: one new unread success notification in front, the
      previous list after it unchanged. The list is the reception component's
      own state. `id` and `timestamp` come from the clock. */
  function SendNotification(ns: seq<Notification>, id: string, timestamp: string,
                            patientName: string, message: string): (r: seq<Notification>)
    ensures |r| == |ns| + 1
    ensures r[1..] == ns
    ensures !r[0].read && r[0].kind == Success
    ensures r[0].id == id && r[0].timestamp == timestamp
    ensures r[0].message == "Notification sent to " + patientName + ": " + message
  {
    [Notification(id, "Patient Notification", "Notification sent to " + patientName + ": " + message,
                  Success, timestamp, false)] + ns
  }

  /** The two notification buttons of a queue row, bell and phone, each
      sending a fixed message to the row's patient. */
  datatype Reminder = TurnComingUp | ContactReception

  function ReminderText(m: Reminder): string
  {
    match m
    case TurnComingUp => "Your turn is coming up in 5 minutes"
    case ContactReception => "Please contact the reception"
  }

  /** The bell and the phone button of the same row add notifications with
      different messages, both naming the row's patient, to the same list. */
  lemma ReminderButtons(ns: seq<Notification>, id: string, timestamp: string, row: QueueItem)
    ensures var bell := SendNotification(ns, id, timestamp, row.patientName, ReminderText(TurnComingUp));
      var phone := SendNotification(ns, id, timestamp, row.patientName, ReminderText(ContactReception));
      && bell[1..] == ns && phone[1..] == ns
      && bell[0].message != phone[0].message
      && bell[0].message[..|"Notification sent to " + row.patientName|] == "Notification sent to " + row.patientName
  {
  }

  /** The status buttons of a queue row. */
  datatype Action = Start | Complete

  /** Start is shown only on waiting rows, Complete only on in-progress rows. */
  function OfferedAction(s: QueueStatus): (r: Option<Action>)
    ensures r == Some(Start) <==> s == Waiting
    ensures r == Some(Complete) <==> s == InProgress
  {
    match s
    case Waiting => Some(Start)
    case InProgress => Some(Complete)
    case Completed => None
  }

  function ActionTarget(a: Action): QueueStatus
  {
    match a
    case Start => InProgress
    case Complete => Completed
  }

  /** Every offered button performs a life-cycle transition of its row's status. */
  lemma OfferedActionIsTransition(s: QueueStatus)
    requires OfferedAction(s).Some?
    ensures Transition(s, ActionTarget(OfferedAction(s).value))
    ensures ActionTarget(OfferedAction(s).value) != Waiting
  {
  }

  /** Pressing the status button of `row` (a displayed row), or nothing when
      its row shows none. */
  function Press(q: seq<QueueItem>, row: QueueItem): (r: seq<QueueItem>)
    ensures |r| == |q|
    ensures forall i :: 0 <= i < |q| ==> r[i].status == Waiting ==> q[i].status == Waiting
  {
    match OfferedAction(row.status)
    case None => q
    case Some(a) => UpdateQueueStatus(q, row.id, ActionTarget(a))
  }

  /** With distinct queue ids, a press moves the pressed row one step along its
      life cycle and leaves every other row unchanged. */
  lemma PressStepsForward(q: seq<QueueItem>, i: nat)
    requires i < |q| && UniqueQueueIds(q)
    ensures var r := Press(q, q[i]);
      && (q[i].status != Completed ==> Transition(q[i].status, r[i].status))
      && forall j :: 0 <= j < |q| && j != i ==> r[j] == q[j]
  {
  }

  /** A run of presses, each on a row displayed at that moment (by index). */
  function Run(q: seq<QueueItem>, presses: seq<nat>): seq<QueueItem>
    decreases |presses|
  {
    if |presses| == 0 then q
    else
      var next := if presses[0] < |q| then Press(q, q[presses[0]]) else q;
      Run(next, presses[1..])
  }

  /** Over any run of presses on a queue with distinct ids, every item's status
      only moves forward through the life cycle, so no item returns to waiting. */
  lemma {:induction false} RunMovesForward(q: seq<QueueItem>, presses: seq<nat>)
    requires UniqueQueueIds(q)
    ensures |Run(q, presses)| == |q|
    ensures forall i :: 0 <= i < |q| ==> Rank(q[i].status) <= Rank(Run(q, presses)[i].status)
    ensures forall i :: 0 <= i < |q| ==> Run(q, presses)[i] == q[i].(status := Run(q, presses)[i].status)
    decreases |presses|
  {
    if |presses| > 0 {
      var next := if presses[0] < |q| then Press(q, q[presses[0]]) else q;
      if presses[0] < |q| {
        PressStepsForward(q, presses[0]);
        RetagKeepsIds(q, QueueId(q[presses[0]].id), Completed);
        assert UniqueQueueIds(next);
      }
      RunMovesForward(next, presses[1..]);
    }
  }

  /** With a repeated queue id a Start press also reopens a completed item that
      shares the id: uniqueness of ids is what keeps the life cycle forward-only. */
  lemma DuplicateIdReopensCompleted()
    ensures var done := QueueItem("q1", "a1", "Ann", "9:00 AM", Completed, None);
      var waiting := QueueItem("q1", "a2", "Bob", "9:30 AM", Waiting, None);
      Press([done, waiting], waiting)[0].status == InProgress
  {
  }
}
