/** The write-barrier protocol of block/ll_rw_blk.c and block/elevator.c as a state machine.

Every operation runs under the queue lock and is one step. The state holds the dispatch
queue, the requests still inside the I/O scheduler and those taken by the driver.
*/
module Barrier {
  import opened Sequences

  /** A file-system request, or one of the queue's own proxies pre_flush_rq, bar_rq, post_flush_rq. */
  datatype Kind = Fs | PreFlush | Bar | PostFlush

  /** struct request. `epoch` is history: how many barriers had been submitted before this request. */
  datatype Rq = Rq(kind: Kind, id: nat, epoch: nat, barrier: bool, color: bool, soft: bool, started: bool) {
    /** blk_fs_request: the barrier proxy is built from the original bio and is one too. */
    predicate IsFs() { kind.Fs? || kind.Bar? }

    predicate IsBarrier() { IsFs() && barrier }

    /** A request the sort-insert of elv_dispatch_sort may not pass. */
    predicate Fence() { soft || barrier || started }
  }

  /** q->ordseq: the completed phases. All false is the value 0. */
  datatype OrdSeq = OrdSeq(started: bool, drain: bool, preflush: bool, bar: bool, postflush: bool)

  const IDLE := OrdSeq(false, false, false, false, false)

  const ORDSEQ_STARTED: nat := 0x01
  const ORDSEQ_DRAIN: nat := 0x02
  const ORDSEQ_PREFLUSH: nat := 0x04
  const ORDSEQ_BAR: nat := 0x08
  const ORDSEQ_POSTFLUSH: nat := 0x10
  const ORDSEQ_DONE: nat := 0x20

  const EOPNOTSUPP: int := 95

  /** q->ordered: QUEUE_ORDERED_NONE, or ordering by draining or by tag, with or without flushes. */
  datatype Mode = Mode(none: bool, tag: bool, preflush: bool, postflush: bool)

  /** An ended request and the `uptodate` status it was ended with. */
  datatype Ended = Ended(id: nat, status: int)

  datatype State = State(
    mode: Mode,
    queue: seq<Rq>,          // q->queue_head
    sched: seq<Rq>,          // held by the I/O scheduler
    driver: seq<Rq>,         // dequeued by the driver, not yet ended
    inFlight: int,           // q->in_flight
    ordseq: OrdSeq,
    orderr: int,
    orig: Option<Rq>,        // q->orig_bar_rq while a sequence runs
    ordcolor: bool,
    nextId: nat,             // history: requests submitted
    epochs: nat,             // history: barriers submitted
    log: seq<bool>,          // history: which of the submitted requests are barriers
    ended: seq<Ended>,       // history: requests ended, in order
    errs: seq<int>)          // history: results of the phases of the running sequence

  function Init(mode: Mode): State {
    State(mode, [], [], [], 0, IDLE, 0, None, false, 0, 0, [], [], [])
  }

  /** blk_ordered_cur_seq */
  function CurSeq(o: OrdSeq): nat {
    if o == IDLE then 0
    else if !o.started then ORDSEQ_STARTED
    else if !o.drain then ORDSEQ_DRAIN
    else if !o.preflush then ORDSEQ_PREFLUSH
    else if !o.bar then ORDSEQ_BAR
    else if !o.postflush then ORDSEQ_POSTFLUSH
    else ORDSEQ_DONE
  }

  function Bit(b: bool): nat { if b then 1 else 0 }

  /** The number the five flags stand for, bit by bit. */
  function Mask(o: OrdSeq): nat {
    Bit(o.started) + 2 * (Bit(o.drain) + 2 * (Bit(o.preflush) + 2 * (Bit(o.bar) + 2 * Bit(o.postflush))))
  }

  /** Index of the lowest clear bit. */
  function Ffz(m: nat): nat {
    if m % 2 == 0 then 0 else 1 + Ffz(m / 2)
  }

  function Shift(n: nat): nat {
    if n == 0 then 1 else 2 * Shift(n - 1)
  }

  lemma FfzBit(b: bool, m: nat)
    ensures Ffz(Bit(b) + 2 * m) == if b then 1 + Ffz(m) else 0
  {
    assert (Bit(b) + 2 * m) / 2 == m && (Bit(b) + 2 * m) % 2 == Bit(b);
  }

  /** CurSeq is `ordseq ? 1 << ffz(ordseq) : 0`. */
  lemma CurSeqIsLowestClearBit(o: OrdSeq)
    ensures CurSeq(o) == if Mask(o) == 0 then 0 else Shift(Ffz(Mask(o)))
  {
    var m4 := Bit(o.postflush);
    var m3 := Bit(o.bar) + 2 * m4;
    var m2 := Bit(o.preflush) + 2 * m3;
    var m1 := Bit(o.drain) + 2 * m2;
    FfzBit(o.started, m1);
    FfzBit(o.drain, m2);
    FfzBit(o.preflush, m3);
    FfzBit(o.bar, m4);
    FfzBit(o.postflush, 0);
    assert Ffz(0) == 0;
    assert Shift(1) == 2 && Shift(2) == 4;
    assert Shift(3) == 8 && Shift(4) == 16 && Shift(5) == 32;
  }

  /** blk_ordered_req_seq, for a queue whose running sequence belongs to `orig`. */
  function ReqSeq(orig: Rq, r: Rq): nat {
    match r.kind
    case PreFlush => ORDSEQ_PREFLUSH
    case Bar => ORDSEQ_BAR
    case PostFlush => ORDSEQ_POSTFLUSH
    case Fs => if r.color == orig.color then ORDSEQ_DRAIN else ORDSEQ_DONE
  }

  function FirstError(errs: seq<int>): int {
    if errs == [] then 0 else if errs[0] != 0 then errs[0] else FirstError(errs[1..])
  }

  /** blk_ordered_complete_seq for the phase that turns ordseq into `done`. */
  function CompleteSeq(s: State, done: OrdSeq, error: int): State
    requires s.orig.Some?
  {
    var orderr := if error != 0 && s.orderr == 0 then error else s.orderr;
    if CurSeq(done) != ORDSEQ_DONE then
      s.(orderr := orderr, ordseq := done, errs := s.errs + [error])
    else
      var uptodate := if orderr != 0 then orderr else 1;
      s.(orderr := orderr, ordseq := IDLE, orig := None, errs := s.errs + [error],
         ended := s.ended + [Ended(s.orig.value.id, uptodate)])
  }

  /** The sequence is waiting for file-system requests to drain, and they have:
      in_flight is 0 and the head of the queue belongs to a later phase. */
  predicate Drained(s: State) {
    && s.orig.Some? && s.inFlight == 0 && CurSeq(s.ordseq) == ORDSEQ_DRAIN
    && s.queue != [] && ReqSeq(s.orig.value, s.queue[0]) > ORDSEQ_DRAIN
  }

  /** elv_completed_request, after the request itself has been accounted for. */
  function DrainCheck(s: State): State {
    if Drained(s) then CompleteSeq(s, s.ordseq.(drain := true), 0) else s
  }

  /** The scan of ELEVATOR_INSERT_REQUEUE: before the first request of the same or a later phase. */
  function RequeuePos(orig: Rq, q: seq<Rq>, seqno: nat): (p: nat)
    ensures p <= |q|
  {
    if q == [] || seqno <= ReqSeq(orig, q[0]) then 0 else 1 + RequeuePos(orig, q[1..], seqno)
  }

  function Proxy(kind: Kind): Rq {
    Rq(kind, 0, 0, true, false, true, false)
  }

  /** queue_flush or elv_insert at the front, if this phase needs a proxy. */
  function Stack(needed: bool, kind: Kind, q: seq<Rq>): seq<Rq> {
    if needed then [Proxy(kind)] + q else q
  }

  /** start_ordered for the barrier at the head of the queue, without the hand-out at its end. */
  function StartOrdered(s: State): State
    requires s.queue != []
  {
    var q1 := Stack(s.mode.postflush, PostFlush, s.queue[1..]);
    var q2 := Stack(true, Bar, q1);
    var q3 := Stack(s.mode.preflush, PreFlush, q2);
    s.(queue := q3, orig := Some(s.queue[0]), orderr := 0, errs := [],
       ordseq := OrdSeq(true, s.mode.tag || s.inFlight == 0, !s.mode.preflush, false, !s.mode.postflush))
  }

  function StartHead(q: seq<Rq>): seq<Rq>
    requires q != []
  {
    [q[0].(started := true)] + q[1..]
  }

  /** What blk_do_ordered decides about the head of the queue. */
  datatype Verdict = HandOut | Block | Begin | Drop

  function DoOrdered(s: State): Verdict
    requires s.queue != []
  {
    var r := s.queue[0];
    if s.orig.None? then
      if !r.IsBarrier() then HandOut else if s.mode.none then Drop else Begin
    else if s.mode.tag then
      if r.IsBarrier() && !r.kind.Bar? then Block else HandOut
    else
      if ReqSeq(s.orig.value, r) > CurSeq(s.ordseq) then Block else HandOut
  }

  /** The state in which elv_next_request marks the head as started, if it hands one out. */
  function Ready(s: State): State
    requires s.queue != []
  {
    if DoOrdered(s).Begin? then StartOrdered(s) else s
  }

  predicate HandsOut(s: State)
    requires s.queue != []
  {
    DoOrdered(s).HandOut? || (DoOrdered(s).Begin? && StartOrdered(s).ordseq.drain)
  }

  /** One pass of elv_next_request over the head of the queue. */
  function Next(s: State): State
    requires s.queue != []
  {
    if DoOrdered(s).Drop? then
      s.(queue := s.queue[1..], ended := s.ended + [Ended(s.queue[0].id, -EOPNOTSUPP)])
    else
      var t := Ready(s);
      if HandsOut(s) then t.(queue := StartHead(t.queue)) else t
  }

  /** The request elv_next_request returns to the driver, if any. */
  function Handed(s: State): Option<Rq>
    requires s.queue != []
  {
    if HandsOut(s) then Some(Ready(s).queue[0]) else None
  }

  datatype Event =
    | Submit(barrier: bool, soft: bool, sort: bool)  // __elv_add_request
    | Dispatch(i: nat, p: nat)                       // the scheduler moves a request to the queue
    | Pull                                           // elv_next_request looks at the head
    | Dequeue(i: nat)                                // blkdev_dequeue_request by the driver
    | Requeue(i: nat)                                // blk_requeue_request
    | Complete(i: nat, error: int)                   // the driver ends a request

  /** __elv_add_request sends barriers to the back of the queue, after draining the scheduler;
      the drain is a run of Dispatch steps. A dispatched request never passes a fence. */
  predicate Enabled(s: State, e: Event) {
    match e
    case Submit(barrier, soft, sort) => (sort && !barrier && !soft) || s.sched == []
    case Dispatch(i, p) =>
      i < |s.sched| && p <= |s.queue| && forall j | p <= j < |s.queue| :: !s.queue[j].Fence()
    case Pull => s.queue != []
    case Dequeue(i) => i < |s.queue| && s.queue[i].started
    case Requeue(i) => i < |s.driver|
    case Complete(i, _) => i < |s.driver|
  }

  function SubmitStep(s: State, barrier: bool, soft: bool, sort: bool): State {
    var toSched := sort && !barrier && !soft;
    var r := Rq(Fs, s.nextId, s.epochs, barrier, s.ordcolor, !toSched, false);
    var t := s.(nextId := s.nextId + 1, epochs := s.epochs + Bit(barrier), log := s.log + [barrier],
                ordcolor := if barrier then !s.ordcolor else s.ordcolor);
    if toSched then t.(sched := s.sched + [r]) else t.(queue := s.queue + [r])
  }

  /** elv_requeue_request */
  function RequeueStep(s: State, i: nat): State
    requires i < |s.driver|
  {
    var r := s.driver[i];
    var back := r.(started := false, soft := true);
    var p := if s.orig.None? then 0 else RequeuePos(s.orig.value, s.queue, ReqSeq(s.orig.value, r));
    s.(driver := RemoveAt(s.driver, i), inFlight := s.inFlight - Bit(r.IsFs()),
       queue := InsertAt(s.queue, p, back))
  }

  function PhaseDone(o: OrdSeq, k: Kind): OrdSeq {
    match k
    case PreFlush => o.(preflush := true)
    case Bar => o.(bar := true)
    case PostFlush => o.(postflush := true)
    case Fs => o
  }

  predicate PhaseBit(o: OrdSeq, k: Kind) {
    match k
    case PreFlush => o.preflush
    case Bar => o.bar
    case PostFlush => o.postflush
    case Fs => false
  }

  /** end_that_request_last for a file-system request; pre_flush_end_io, bar_end_io and
      post_flush_end_io for the proxies. */
  function CompleteStep(s: State, i: nat, error: int): State
    requires i < |s.driver|
  {
    var r := s.driver[i];
    var t := s.(driver := RemoveAt(s.driver, i), inFlight := s.inFlight - Bit(r.IsFs()));
    if r.kind.Fs? then DrainCheck(t.(ended := t.ended + [Ended(r.id, error)]))
    else
      var u := DrainCheck(t);
      if u.orig.Some? then CompleteSeq(u, PhaseDone(u.ordseq, r.kind), error) else u
  }

  function Step(s: State, e: Event): State
    requires Enabled(s, e)
  {
    match e
    case Submit(barrier, soft, sort) => SubmitStep(s, barrier, soft, sort)
    case Dispatch(i, p) =>
      s.(sched := RemoveAt(s.sched, i), queue := InsertAt(s.queue, p, s.sched[i]))
    case Pull => Next(s)
    case Dequeue(i) =>
      s.(queue := RemoveAt(s.queue, i), driver := s.driver + [s.queue[i]],
         inFlight := s.inFlight + Bit(s.queue[i].IsFs()))
    case Requeue(i) => RequeueStep(s, i)
    case Complete(i, error) => CompleteStep(s, i, error)
  }

  /** Every step of the run is enabled where it is taken. */
  predicate CanRun(s: State, run: seq<Event>)
    decreases |run|
  {
    run == [] || (Enabled(s, run[0]) && CanRun(Step(s, run[0]), run[1..]))
  }

  function Run(s: State, run: seq<Event>): State
    requires CanRun(s, run)
    decreases |run|
  {
    if run == [] then s else Run(Step(s, run[0]), run[1..])
  }
}
