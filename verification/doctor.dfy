/** The doctor dashboard: the waiting list, the current patient, the
    Start/Complete actions on appointments, and the doctor's own status. */
module DoctorDashboard {

  import opened Wrappers
  import opened Seqs
  import opened Types
  import opened Queue

  /** `waitingPatients`: the waiting items in queue order. */
  function WaitingPatients(q: seq<QueueItem>): (r: seq<QueueItem>)
    ensures |r| == StatusCount(q, Waiting)
    ensures forall item :: item in r <==> item in q && item.status == Waiting
  {
    WithStatus(q, Waiting)
  }

  /** A waiting item is listed at position (index + 1) equal to one more than
      the number of waiting items ahead of it in the queue. */
  lemma DisplayedPosition(q: seq<QueueItem>, k: nat)
    requires k < |q| && q[k].status == Waiting
    ensures StatusCount(q[..k], Waiting) < |WaitingPatients(q)|
    ensures WaitingPatients(q)[StatusCount(q[..k], Waiting)] == q[k]
  {
    FilterPosition(q, HasStatus(Waiting), k);
  }

  /** `inProgressPatient`: the first in-progress item in queue order, if any. */
  function InProgressPatient(q: seq<QueueItem>): (r: Option<QueueItem>)
    ensures r.None? <==> forall i :: 0 <= i < |q| ==> q[i].status != InProgress
    ensures r.Some? ==> exists k :: 0 <= k < |q| && q[k] == r.value && r.value.status == InProgress
                                  && forall j :: 0 <= j < k ==> q[j].status != InProgress
  {
    Find(q, HasStatus(InProgress))
  }

  /** There is a current patient exactly when the in-progress count is positive. */
  lemma InProgressPatientIffCount(q: seq<QueueItem>)
    ensures InProgressPatient(q).None? <==> StatusCount(q, InProgress) == 0
  {
    if StatusCount(q, InProgress) > 0 {
      var x := WithStatus(q, InProgress)[0];
      assert x in q && x.status == InProgress;
    }
    if InProgressPatient(q).Some? {
      assert InProgressPatient(q).value in WithStatus(q, InProgress);
    }
  }

  /** When a single item is in progress, it is the current patient. */
  lemma SoleInProgressIsCurrent(q: seq<QueueItem>, i: nat)
    requires i < |q| && q[i].status == InProgress
    requires forall j :: 0 <= j < |q| && j != i ==> q[j].status != InProgress
    ensures InProgressPatient(q) == Some(q[i])
  {
  }

  /** `updateAppointmentStatus`: every item of the given appointment gets the
      new status (in-progress or completed); nothing else changes. */
  function UpdateAppointmentStatus(q: seq<QueueItem>, appointmentId: string, s: QueueStatus): (r: seq<QueueItem>)
    requires s != Waiting
    ensures |r| == |q|
    ensures forall i :: 0 <= i < |q| ==> r[i].appointmentId == q[i].appointmentId && r[i] == q[i].(status := r[i].status)
    ensures forall i :: 0 <= i < |q| ==> r[i].status == if q[i].appointmentId == appointmentId then s else q[i].status
  {
    Retag(q, AppointmentId(appointmentId), s)
  }

  /** The dashboard's buttons: Start on the row at a position of the waiting
      list, and Complete on the current-patient card. */
  datatype Action = StartAt(position: nat) | CompleteCurrent

  /** Start is enabled exactly when no patient is in progress (`!!inProgressPatient`
      is false), that is, when the in-progress count is zero. */
  predicate StartEnabled(q: seq<QueueItem>): (r: bool)
    ensures r <==> StatusCount(q, InProgress) == 0
    ensures r <==> forall i :: 0 <= i < |q| ==> q[i].status != InProgress
  {
    InProgressPatientIffCount(q);
    InProgressPatient(q).None?
  }

  /** The queue after pressing a button. Each button is a status update, so
      the queue keeps its length and every field but the status, and no item
      is made waiting; a disabled or absent button does nothing. */
  function Apply(q: seq<QueueItem>, a: Action): (r: seq<QueueItem>)
    ensures |r| == |q|
    ensures forall i :: 0 <= i < |q| ==> r[i] == q[i].(status := r[i].status)
    ensures forall i :: 0 <= i < |q| ==> r[i].status == Waiting ==> q[i].status == Waiting
    ensures a.StartAt? && !(a.position < |WaitingPatients(q)| && StartEnabled(q)) ==> r == q
    ensures a.CompleteCurrent? && InProgressPatient(q).None? ==> r == q
  {
    match a
    case StartAt(p) =>
      var waiting := WaitingPatients(q);
      if p < |waiting| && StartEnabled(q) then UpdateAppointmentStatus(q, waiting[p].appointmentId, InProgress)
      else q
    case CompleteCurrent =>
      match InProgressPatient(q)
      case None => q
      case Some(current) => UpdateAppointmentStatus(q, current.appointmentId, Completed)
  }

  /** The doctor-side convention: at most one patient is in progress. */
  predicate AtMostOneInProgress(q: seq<QueueItem>)
  {
    StatusCount(q, InProgress) <= 1
  }

  /** The status update of an appointment present at index `i`, when
      appointment ids are distinct, changes that item only. */
  lemma UpdateOneAppointment(q: seq<QueueItem>, i: nat, s: QueueStatus)
    requires i < |q| && s != Waiting && UniqueAppointmentIds(q)
    ensures UpdateAppointmentStatus(q, q[i].appointmentId, s) == q[i := q[i].(status := s)]
    ensures StatusCount(UpdateAppointmentStatus(q, q[i].appointmentId, s), InProgress)
            + (if q[i].status == InProgress then 1 else 0)
         == StatusCount(q, InProgress) + (if s == InProgress then 1 else 0)
  {
    RetagSingle(q, AppointmentId(q[i].appointmentId), s, i);
    CountUpdate(q, i, q[i].(status := s), HasStatus(InProgress));
  }

  /** Where a listed waiting patient sits in the queue. */
  lemma WaitingIndex(q: seq<QueueItem>, p: nat) returns (i: nat)
    requires p < |WaitingPatients(q)|
    ensures i < |q| && q[i] == WaitingPatients(q)[p] && q[i].status == Waiting
  {
    var w := WaitingPatients(q)[p];
    assert w in WaitingPatients(q);
    i :| 0 <= i < |q| && q[i] == w;
  }

  /** Starting a waiting patient when nobody is in progress leaves exactly one
      patient in progress: the one started. */
  lemma StartMakesOneInProgress(q: seq<QueueItem>, p: nat)
    requires UniqueAppointmentIds(q) && StartEnabled(q) && p < |WaitingPatients(q)|
    ensures var r := Apply(q, StartAt(p));
      && StatusCount(r, InProgress) == 1
      && InProgressPatient(r) == Some(WaitingPatients(q)[p].(status := InProgress))
  {
    var i := WaitingIndex(q, p);
    InProgressPatientIffCount(q);
    UpdateOneAppointment(q, i, InProgress);
    var r := q[i := q[i].(status := InProgress)];
    assert Apply(q, StartAt(p)) == UpdateAppointmentStatus(q, q[i].appointmentId, InProgress);
    SoleInProgressIsCurrent(r, i);
  }

  /** Completing the current patient when at most one is in progress leaves
      nobody in progress, and the current patient completed. */
  lemma CompleteEndsConsultation(q: seq<QueueItem>)
    requires UniqueAppointmentIds(q) && AtMostOneInProgress(q) && InProgressPatient(q).Some?
    ensures var r := Apply(q, CompleteCurrent);
      && StatusCount(r, InProgress) == 0
      && InProgressPatient(q).value.(status := Completed) in r
  {
    var cur := InProgressPatient(q).value;
    var i :| 0 <= i < |q| && q[i] == cur && cur.status == InProgress;
    UpdateOneAppointment(q, i, Completed);
  }

  /** Every button keeps both distinct appointment ids and the at-most-one
      in-progress convention. */
  lemma ApplyKeepsInvariant(q: seq<QueueItem>, a: Action)
    requires UniqueAppointmentIds(q) && AtMostOneInProgress(q)
    ensures UniqueAppointmentIds(Apply(q, a)) && AtMostOneInProgress(Apply(q, a))
  {
    match a
    case StartAt(p) =>
      if p < |WaitingPatients(q)| && StartEnabled(q) {
        StartMakesOneInProgress(q, p);
        RetagKeepsIds(q, AppointmentId(WaitingPatients(q)[p].appointmentId), InProgress);
      }
    case CompleteCurrent =>
      if InProgressPatient(q).Some? {
        CompleteEndsConsultation(q);
        RetagKeepsIds(q, AppointmentId(InProgressPatient(q).value.appointmentId), Completed);
      }
  }

  function Run(q: seq<QueueItem>, actions: seq<Action>): seq<QueueItem>
    decreases |actions|
  {
    if |actions| == 0 then q else Run(Apply(q, actions[0]), actions[1..])
  }

  /** Doctor-driven runs from a queue with distinct appointment ids and at most
      one consultation never put two patients in progress. */
  lemma {:induction false} RunKeepsAtMostOneInProgress(q: seq<QueueItem>, actions: seq<Action>)
    requires UniqueAppointmentIds(q) && AtMostOneInProgress(q)
    ensures AtMostOneInProgress(Run(q, actions))
    decreases |actions|
  {
    if |actions| > 0 {
      ApplyKeepsInvariant(q, actions[0]);
      RunKeepsAtMostOneInProgress(Apply(q, actions[0]), actions[1..]);
    }
  }

  /** With distinct appointment ids, every doctor button moves each item at
      most one step forward through the life cycle. */
  lemma ApplyMovesForward(q: seq<QueueItem>, a: Action)
    requires UniqueAppointmentIds(q)
    ensures forall i :: 0 <= i < |q| ==> StaysOrSteps(q[i].status, Apply(q, a)[i].status)
    ensures UniqueAppointmentIds(Apply(q, a))
  {
  }

  /** Over any run of doctor actions on a queue with distinct appointment ids,
      every item keeps its place and fields and its status only moves forward. */
  lemma {:induction false} RunMovesForward(q: seq<QueueItem>, actions: seq<Action>)
    requires UniqueAppointmentIds(q)
    ensures |Run(q, actions)| == |q|
    ensures forall i :: 0 <= i < |q| ==> Rank(q[i].status) <= Rank(Run(q, actions)[i].status)
    ensures forall i :: 0 <= i < |q| ==> Run(q, actions)[i] == q[i].(status := Run(q, actions)[i].status)
    decreases |actions|
  {
    if |actions| > 0 {
      ApplyMovesForward(q, actions[0]);
      RunMovesForward(Apply(q, actions[0]), actions[1..]);
    }
  }

  /** With a repeated appointment id one Start puts two patients in progress:
      distinct appointment ids are what keep the at-most-one convention. */
  lemma DuplicateAppointmentIdStartsTwo()
    ensures var a := QueueItem("q1", "a1", "Ann", "9:00 AM", Waiting, None);
      var b := QueueItem("q2", "a1", "Bob", "9:30 AM", Waiting, None);
      StatusCount(Apply([a, b], StartAt(0)), InProgress) == 2
  {
  }

  /** The statuses the doctor cycles through with "Update Status". */
  const SelfStatuses: seq<string> := ["available", "busy", "delayed", "away"]

  const InitialSelfStatus: string := "available"

  /** `statuses[(statuses.indexOf(cur) + 1) % statuses.length]`. The dividend is
      never negative, so JavaScript's remainder and Dafny's agree. */
  function NextSelfStatus(cur: string): (r: string)
    ensures r in SelfStatuses
    ensures cur !in SelfStatuses ==> r == InitialSelfStatus
    ensures cur in SelfStatuses ==> r != cur
  {
    SelfStatuses[(IndexOf(SelfStatuses, cur) + 1) % |SelfStatuses|]
  }

  /** The cycle visits the four statuses in order. */
  lemma SelfStatusCycleOrder()
    ensures NextSelfStatus("available") == "busy"
    ensures NextSelfStatus("busy") == "delayed"
    ensures NextSelfStatus("delayed") == "away"
    ensures NextSelfStatus("away") == "available"
  {
  }

  /** Four presses return to the starting status. */
  lemma FourPressesReturn(cur: string)
    requires cur in SelfStatuses
    ensures NextSelfStatus(NextSelfStatus(NextSelfStatus(NextSelfStatus(cur)))) == cur
  {
    SelfStatusCycleOrder();
  }

  /** The cycle contains every `Doctor.status` value and also `delayed`, which is
      not one. */
  lemma SelfStatusesExtendDoctorStatus()
    ensures forall s :: DoctorStatusText(s) in SelfStatuses
    ensures "delayed" in SelfStatuses && ParseDoctorStatus("delayed").None?
  {
  }
}
