/** block/cfq-iosched.c: all queues of a device, as a state machine.

One step is one operation under the queue lock.  `out` are the requests that were put on the dispatch
queue and have not completed.
*/
module CfqData {
  import opened Sequences
  import opened CfqQueue
  import opened CfqLists

  datatype State = State(head: Head, queues: seq<Queue>, lists: seq<seq<nat>>, busy: int, out: seq<Crq>)

  // ---- operations ----------------------------------------------------------------------------------

  predicate Shape(s: State) {
    |s.lists| == LISTS && forall j | 0 <= j < |s.queues| :: s.queues[j].ioprio < BUSY_RR
  }

  function Put(s: State, i: nat, q: Queue): State
    requires i < |s.queues|
  {
    s.(queues := s.queues[i := q])
  }

  /** cfq_del_cfqq_rr. */
  function DelRr(s: State, i: nat): State
    requires i < |s.queues|
  {
    s.(queues := s.queues[i := s.queues[i].(onRr := false)], lists := TakeOut(s.lists, i), busy := s.busy - 1)
  }

  /** cfq_add_cfqq_rr. */
  function AddRr(s: State, i: nat): State
    requires Shape(s) && i < |s.queues|
  {
    var queues := s.queues[i := s.queues[i].(onRr := true)];
    s.(queues := queues, lists := Resorted(queues, s.lists, i, false), busy := s.busy + 1)
  }

  /** The end of cfq_del_crq_rb: an empty queue leaves the lists. */
  function Settle(s: State, i: nat): State
    requires i < |s.queues|
  {
    if s.queues[i].onRr && s.queues[i].tree == [] then DelRr(s, i) else s
  }

  /** cfq_dispatch_insert of the request at k of queue i. */
  function DispatchInsert(s: State, i: nat, k: nat): (r: State)
    requires i < |s.queues| && k < |s.queues[i].tree|
    ensures |r.queues| == |s.queues| && |r.lists| == |s.lists|
  {
    var c := s.queues[i].tree[k];
    Settle(s.(queues := s.queues[i := Send(s.head, s.queues[i], k)], out := s.out + [c]), i)
  }

  /** The loop of cfq_add_crq_rb: a request at the same sector is dispatched. */
  function SendAlias(s: State, i: nat, sector: nat): (r: State)
    requires i < |s.queues|
    ensures |r.queues| == |s.queues| && |r.lists| == |s.lists|
  {
    var t := s.queues[i].tree;
    if HasAlias(t, sector) then DispatchInsert(s, i, Place(t, sector)) else s
  }

  /** The rest of cfq_add_crq_rb. */
  function LinkIn(s: State, i: nat, c: Crq): State
    requires Shape(s) && i < |s.queues|
  {
    var s1 := Put(s, i, Link(s.queues[i], c));
    var s2 := if s1.queues[i].onRr then s1 else AddRr(s1, i);
    Put(s2, i, s2.queues[i].(next := Choose(s.head, s2.queues[i].next, Some(c))))
  }

  lemma SendAliasShape(s: State, i: nat, sector: nat)
    requires Shape(s) && i < |s.queues|
    ensures Shape(SendAlias(s, i, sector))
  {
  }

  /** cfq_add_crq_rb. */
  function AddCrq(s: State, i: nat, c: Crq): State
    requires Shape(s) && i < |s.queues|
  {
    SendAliasShape(s, i, c.sector);
    LinkIn(SendAlias(s, i, c.sector), i, c)
  }

  /** cfq_insert_request, with the choice that cfq_crq_enqueued makes once more. */
  function InsertRequest(s: State, i: nat, c: Crq): State
    requires Shape(s) && i < |s.queues|
  {
    var s1 := AddCrq(s, i, c);
    var q := s1.queues[i];
    Put(s1, i, q.(fifo := q.fifo + [c.id], next := Choose(s.head, q.next, Some(c))))
  }

  /** cfq_merged_request after the request at k grew at its front to start at `sector`. */
  function FrontMerge(s: State, i: nat, k: nat, sector: nat): State
    requires Shape(s) && i < |s.queues| && k < |s.queues[i].tree|
  {
    AddCrq(Put(s, i, Detach(s.head, s.queues[i], k)), i, s.queues[i].tree[k].(sector := sector))
  }

  /** cfq_merged_requests: the request at m was appended to the one at k; `older` says that the fifo
  place of the former is taken over. */
  function MergeRequests(s: State, i: nat, k: nat, m: nat, older: bool): State
    requires i < |s.queues| && k < |s.queues[i].tree| && m < |s.queues[i].tree|
  {
    var q := s.queues[i];
    var a, b := q.tree[k].id, q.tree[m].id;
    var q1 := if older then q.(fifo := MoveBehind(RemoveFirst(q.fifo, a), a, b)) else q;
    Settle(Put(s, i, Remove(s.head, q1, m)), i)
  }

  /** A queue gets another class, priority or service time and is filed again. */
  function Refile(s: State, i: nat, class_: Class, ioprio: nat, serviceLast: nat, preempted: bool): State
    requires Shape(s) && i < |s.queues| && ioprio < BUSY_RR
  {
    var queues := s.queues[i := s.queues[i].(class_ := class_, ioprio := ioprio, serviceLast := serviceLast)];
    s.(queues := queues, lists := if queues[i].onRr then Resorted(queues, s.lists, i, preempted) else s.lists)
  }

  /** cfq_completed_request. */
  function Complete(s: State, k: nat, now: nat): State
    requires Shape(s) && k < |s.out| && s.out[k].queue < |s.queues|
  {
    var i := s.out[k].queue;
    var q := s.queues[i].(onDispatch := s.queues[i].onDispatch.Add(s.out[k].sync, -1));
    var s1 := s.(queues := s.queues[i := q], out := RemoveAt(s.out, k));
    if q.Dispatched() == 0 && q.onRr then Refile(s1, i, q.class_, q.ioprio, now, false) else s1
  }

  function EmptyQueue(class_: Class, ioprio: nat): Queue {
    Queue([], [], None, Two(0, 0), Two(0, 0), false, class_, ioprio, 0)
  }

  // ---- runs ------------------------------------------------------------------------------------------

  datatype Event =
    | NewQueue(class_: Class, ioprio: nat)
    | Insert(i: nat, c: Crq)
    | Grow(i: nat, k: nat, sector: nat)
    | Merge(i: nat, k: nat, m: nat, older: bool)
    | Dispatch(i: nat, k: nat)
    | Done(k: nat, now: nat)
    | File(i: nat, class_: Class, ioprio: nat, serviceLast: nat, preempted: bool)
    | NextLevel(l: nat)

  predicate Enabled(s: State, e: Event) {
    match e
    case NewQueue(_, p) => p < BUSY_RR
    case Insert(i, c) => i < |s.queues| && c.queue == i
    case Grow(i, k, _) => i < |s.queues| && k < |s.queues[i].tree|
    case Merge(i, k, m, _) => i < |s.queues| && k < |s.queues[i].tree| && m < |s.queues[i].tree| && k != m
    case Dispatch(i, k) => i < |s.queues| && k < |s.queues[i].tree|
    case Done(k, _) => k < |s.out| && s.out[k].queue < |s.queues|
    case File(i, _, p, _, _) => i < |s.queues| && p < BUSY_RR
    case NextLevel(l) => l < BUSY_RR
  }

  function Step(s: State, e: Event): State
    requires Shape(s) && Enabled(s, e)
  {
    match e
    case NewQueue(c, p) => s.(queues := s.queues + [EmptyQueue(c, p)])
    case Insert(i, c) => InsertRequest(s, i, c)
    case Grow(i, k, sector) => FrontMerge(s, i, k, sector)
    case Merge(i, k, m, older) => MergeRequests(s, i, k, m, older)
    case Dispatch(i, k) => DispatchInsert(s, i, k)
    case Done(k, now) => Complete(s, k, now)
    case File(i, c, p, t, pre) => Refile(s, i, c, p, t, pre)
    case NextLevel(l) => s.(lists := Splice(s.lists, l))
  }

  // ---- the invariant ---------------------------------------------------------------------------------

  function CountOut(out: seq<Crq>, i: nat, sync: bool): nat {
    if out == [] then 0
    else (if out[0].queue == i && out[0].sync == sync then 1 else 0) + CountOut(out[1..], i, sync)
  }

  function OutOf(out: seq<Crq>, i: nat): Two {
    Two(CountOut(out, i, true), CountOut(out, i, false))
  }

  /** on_dispatch[] counts the dispatched requests of each queue. */
  predicate OutOk(queues: seq<Queue>, out: seq<Crq>) {
    && (forall c | c in out :: c.queue < |queues|)
    && forall j | 0 <= j < |queues| :: queues[j].onDispatch == OutOf(out, j)
  }

  ghost predicate Base(s: State) {
    Shape(s) && RrOk(s.queues, s.lists, s.busy) && OutOk(s.queues, s.out)
  }

  /** What holds between operations. */
  ghost predicate Inv(s: State) {
    Base(s) && forall j | 0 <= j < |s.queues| :: Sound(s.queues[j], j)
  }

  /** What holds of queue i within an operation. */
  predicate Loose(q: Queue, i: nat, lacking: multiset<nat>, surplus: multiset<nat>) {
    Core(q, i) && FifoOk(q, lacking, surplus) && (q.tree != [] ==> q.onRr)
  }

  ghost predicate MidInv(s: State, i: nat, lacking: multiset<nat>, surplus: multiset<nat>) {
    && Base(s) && i < |s.queues|
    && (forall j | 0 <= j < |s.queues| && j != i :: Sound(s.queues[j], j))
    && Loose(s.queues[i], i, lacking, surplus)
  }

  lemma {:induction false} CountOutConcat(a: seq<Crq>, b: seq<Crq>, i: nat, sync: bool)
    ensures CountOut(a + b, i, sync) == CountOut(a, i, sync) + CountOut(b, i, sync)
  {
    if a == [] {
      assert a + b == b;
    } else {
      assert (a + b)[1..] == a[1..] + b;
      CountOutConcat(a[1..], b, i, sync);
    }
  }

  lemma OutOfAppend(out: seq<Crq>, c: Crq, i: nat)
    ensures OutOf(out + [c], i) == if c.queue == i then OutOf(out, i).Add(c.sync, 1) else OutOf(out, i)
  {
    CountOutConcat(out, [c], i, true);
    CountOutConcat(out, [c], i, false);
  }

  lemma OutOfRemove(out: seq<Crq>, k: nat, i: nat)
    requires k < |out|
    ensures OutOf(RemoveAt(out, k), i)
         == if out[k].queue == i then OutOf(out, i).Add(out[k].sync, -1) else OutOf(out, i)
  {
    var a, b := out[..k], out[k + 1..];
    assert out == a + ([out[k]] + b);
    forall sync: bool
      ensures CountOut(out, i, sync) == CountOut(RemoveAt(out, k), i, sync) + CountOut([out[k]], i, sync)
    {
      CountOutConcat(a, [out[k]] + b, i, sync);
      CountOutConcat([out[k]], b, i, sync);
      CountOutConcat(a, b, i, sync);
    }
    assert CountOut([out[k]], i, true) == if out[k].queue == i && out[k].sync then 1 else 0;
    assert CountOut([out[k]], i, false) == if out[k].queue == i && !out[k].sync then 1 else 0;
  }

  lemma OutOkSame(queues: seq<Queue>, out: seq<Crq>, i: nat, q: Queue)
    requires OutOk(queues, out) && i < |queues| && q.onDispatch == queues[i].onDispatch
    ensures OutOk(queues[i := q], out)
  {
  }

  lemma OutOkSend(queues: seq<Queue>, out: seq<Crq>, i: nat, q: Queue, c: Crq)
    requires OutOk(queues, out) && i < |queues| && c.queue == i
    requires q.onDispatch == queues[i].onDispatch.Add(c.sync, 1)
    ensures OutOk(queues[i := q], out + [c])
  {
    forall j | 0 <= j < |queues| ensures queues[i := q][j].onDispatch == OutOf(out + [c], j) {
      OutOfAppend(out, c, j);
    }
  }

  lemma OutOkDone(queues: seq<Queue>, out: seq<Crq>, k: nat, q: Queue)
    requires OutOk(queues, out) && k < |out| && out[k].queue < |queues|
    requires q.onDispatch == queues[out[k].queue].onDispatch.Add(out[k].sync, -1)
    ensures OutOk(queues[out[k].queue := q], RemoveAt(out, k))
  {
    var i := out[k].queue;
    forall j | 0 <= j < |queues| ensures queues[i := q][j].onDispatch == OutOf(RemoveAt(out, k), j) {
      OutOfRemove(out, k, j);
    }
  }
}
