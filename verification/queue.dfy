/** The queue of visits as the reception and doctor dashboards each hold it
    (every dashboard keeps its own copy): the status map both of them apply,
    the status partition, and the forward-only order on statuses. */
module Queue {

  import opened Seqs
  import opened Types

  /** Which field a status update matches on: the reception dashboard matches
      the queue item id, the doctor dashboard the appointment id. */
  datatype Key = QueueId(id: string) | AppointmentId(id: string)

  predicate Selects(k: Key, item: QueueItem)
  {
    match k
    case QueueId(id) => item.id == id
    case AppointmentId(id) => item.appointmentId == id
  }

  /** `queue.map(item => matches ? { ...item, status } : item)`: same length and
      order, only the status field of matching items is set. */
  function Retag(q: seq<QueueItem>, k: Key, s: QueueStatus): (r: seq<QueueItem>)
    ensures |r| == |q|
    ensures forall i :: 0 <= i < |q| ==> r[i] == q[i].(status := r[i].status)
    ensures forall i :: 0 <= i < |q| ==> Selects(k, q[i]) ==> r[i].status == s
    ensures forall i :: 0 <= i < |q| ==> !Selects(k, q[i]) ==> r[i] == q[i]
    decreases |q|
  {
    if |q| == 0 then []
    else [if Selects(k, q[0]) then q[0].(status := s) else q[0]] + Retag(q[1..], k, s)
  }

  /** An update whose key matches nothing leaves the queue as it was. */
  lemma RetagAbsent(q: seq<QueueItem>, k: Key, s: QueueStatus)
    requires forall i :: 0 <= i < |q| ==> !Selects(k, q[i])
    ensures Retag(q, k, s) == q
  {
  }

  /** Of two updates with the same key the later one wins; in particular
      applying the same update twice is the same as applying it once. */
  lemma RetagLastWins(q: seq<QueueItem>, k: Key, s1: QueueStatus, s2: QueueStatus)
    ensures Retag(Retag(q, k, s1), k, s2) == Retag(q, k, s2)
  {
  }

  /** When exactly one item matches, the update is a point update of that item. */
  lemma RetagSingle(q: seq<QueueItem>, k: Key, s: QueueStatus, i: nat)
    requires i < |q| && Selects(k, q[i])
    requires forall j :: 0 <= j < |q| && j != i ==> !Selects(k, q[j])
    ensures Retag(q, k, s) == q[i := q[i].(status := s)]
  {
  }

  function HasStatus(s: QueueStatus): QueueItem -> bool
  {
    (item: QueueItem) => item.status == s
  }

  /** `queue.filter(item => item.status === s)`, in queue order. */
  function WithStatus(q: seq<QueueItem>, s: QueueStatus): (r: seq<QueueItem>)
    ensures forall item :: item in r <==> item in q && item.status == s
  {
    Filter(q, HasStatus(s))
  }

  function StatusCount(q: seq<QueueItem>, s: QueueStatus): nat
  {
    |WithStatus(q, s)|
  }

  /** The three status counts partition the queue. */
  lemma {:induction false} StatusCountsSum(q: seq<QueueItem>)
    ensures StatusCount(q, Waiting) + StatusCount(q, InProgress) + StatusCount(q, Completed) == |q|
    decreases |q|
  {
    if |q| > 0 {
      StatusCountsSum(q[1..]);
      assert WithStatus(q, Waiting) == (if q[0].status == Waiting then [q[0]] else []) + WithStatus(q[1..], Waiting);
      assert WithStatus(q, InProgress) == (if q[0].status == InProgress then [q[0]] else []) + WithStatus(q[1..], InProgress);
      assert WithStatus(q, Completed) == (if q[0].status == Completed then [q[0]] else []) + WithStatus(q[1..], Completed);
    }
  }

  /** Position of a status in the life cycle. */
  function Rank(s: QueueStatus): nat
  {
    match s
    case Waiting => 0
    case InProgress => 1
    case Completed => 2
  }

  /** The life-cycle transitions: waiting to in-progress, in-progress to completed. */
  predicate Transition(from: QueueStatus, to: QueueStatus)
  {
    (from == Waiting && to == InProgress) || (from == InProgress && to == Completed)
  }

  /** A status either stays or takes one life-cycle transition. */
  predicate StaysOrSteps(from: QueueStatus, to: QueueStatus)
  {
    from == to || Transition(from, to)
  }

  /** Every transition moves exactly one place forward, so none leads back. */
  lemma TransitionMovesForward(from: QueueStatus, to: QueueStatus)
    ensures Transition(from, to) <==> Rank(to) == Rank(from) + 1
  {
  }

  predicate UniqueQueueIds(q: seq<QueueItem>)
  {
    forall i, j :: 0 <= i < j < |q| ==> q[i].id != q[j].id
  }

  predicate UniqueAppointmentIds(q: seq<QueueItem>)
  {
    forall i, j :: 0 <= i < j < |q| ==> q[i].appointmentId != q[j].appointmentId
  }

  /** Updates never change ids, so uniqueness of either id is kept. */
  lemma RetagKeepsIds(q: seq<QueueItem>, k: Key, s: QueueStatus)
    ensures UniqueQueueIds(q) ==> UniqueQueueIds(Retag(q, k, s))
    ensures UniqueAppointmentIds(q) ==> UniqueAppointmentIds(Retag(q, k, s))
  {
  }
}
