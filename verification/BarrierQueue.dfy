/** The operations of ll_rw_blk.c and elevator.c on one request queue, updating it in place.
Each is a run of steps of the state machine in module Barrier. */
module BarrierQueue {
  import opened Sequences
  import opened Barrier

  lemma {:induction false} RunAppend(s: State, run: seq<Event>, e: Event)
    requires CanRun(s, run) && Enabled(Run(s, run), e)
    ensures CanRun(s, run + [e]) && Run(s, run + [e]) == Step(Run(s, run), e)
    decreases |run|
  {
    if run == [] {
      assert [e][1..] == [];
      assert run + [e] == [e];
    } else {
      assert (run + [e])[1..] == run[1..] + [e];
      RunAppend(Step(s, run[0]), run[1..], e);
    }
  }

  /** A run that ends with elv_next_request handing r to the driver. */
  ghost predicate EndsWithHandOut(s: State, run: seq<Event>, r: Rq) {
    exists prior: seq<Event> ::
      && run == prior + [Pull] && CanRun(s, prior)
      && Run(s, prior).queue != [] && Handed(Run(s, prior)) == Some(r)
  }

  class RequestQueue {
    const mode: Mode
    var queueHead: seq<Rq>
    var sched: seq<Rq>
    var driver: seq<Rq>
    var inFlight: int
    var ordseq: OrdSeq
    var orderr: int
    var origBarRq: Option<Rq>
    var ordcolor: bool
    var nextId: nat
    var epochs: nat
    var log: seq<bool>
    var ended: seq<Ended>
    var errs: seq<int>

    ghost function Now(): State
      reads this
    {
      State(mode, queueHead, sched, driver, inFlight, ordseq, orderr, origBarRq, ordcolor,
            nextId, epochs, log, ended, errs)
    }

    constructor (mode: Mode)
      ensures Now() == Init(mode)
    {
      this.mode := mode;
      queueHead, sched, driver := [], [], [];
      inFlight, ordseq, orderr, origBarRq, ordcolor := 0, IDLE, 0, None, false;
      nextId, epochs, log, ended, errs := 0, 0, [], [], [];
    }

    /** blk_ordered_complete_seq */
    method OrderedCompleteSeq(done: OrdSeq, error: int)
      requires origBarRq.Some?
      modifies this
      ensures Now() == CompleteSeq(old(Now()), done, error)
    {
      if error != 0 && orderr == 0 {
        orderr := error;
      }
      errs := errs + [error];
      ordseq := done;
      if CurSeq(ordseq) != ORDSEQ_DONE {
        return;
      }
      var uptodate := if orderr != 0 then orderr else 1;
      ordseq := IDLE;
      ended := ended + [Ended(origBarRq.value.id, uptodate)];
      origBarRq := None;
    }

    /** The end of elv_completed_request. */
    method CheckDrained()
      modifies this
      ensures Now() == DrainCheck(old(Now()))
    {
      if origBarRq.Some? && inFlight == 0 && CurSeq(ordseq) == ORDSEQ_DRAIN && queueHead != [] {
        if ReqSeq(origBarRq.value, queueHead[0]) > ORDSEQ_DRAIN {
          OrderedCompleteSeq(ordseq.(drain := true), 0);
        }
      }
    }

    /** end_that_request_last and the end_io functions of the proxies. */
    method CompleteRequest(i: nat, error: int)
      requires i < |driver|
      modifies this
      ensures Now() == Step(old(Now()), Complete(i, error))
    {
      var r := driver[i];
      driver := RemoveAt(driver, i);
      if r.IsFs() {
        inFlight := inFlight - 1;
      }
      if r.kind.Fs? {
        ended := ended + [Ended(r.id, error)];
        CheckDrained();
      } else {
        CheckDrained();
        if origBarRq.Some? {
          OrderedCompleteSeq(PhaseDone(ordseq, r.kind), error);
        }
      }
    }

    /** blkdev_dequeue_request */
    method DequeueRequest(i: nat)
      requires i < |queueHead| && queueHead[i].started
      modifies this
      ensures Now() == Step(old(Now()), Dequeue(i))
    {
      var r := queueHead[i];
      queueHead := RemoveAt(queueHead, i);
      driver := driver + [r];
      if r.IsFs() {
        inFlight := inFlight + 1;
      }
    }

    /** The list walk of ELEVATOR_INSERT_REQUEUE. */
    method FindRequeuePos(seqno: nat) returns (p: nat)
      requires origBarRq.Some?
      ensures p == RequeuePos(origBarRq.value, queueHead, seqno)
    {
      p := 0;
      assert queueHead[0..] == queueHead;
      while p < |queueHead| && seqno > ReqSeq(origBarRq.value, queueHead[p])
        invariant p <= |queueHead|
        invariant p + RequeuePos(origBarRq.value, queueHead[p..], seqno) == RequeuePos(origBarRq.value, queueHead, seqno)
      {
        assert queueHead[p..][1..] == queueHead[p + 1..];
        p := p + 1;
      }
    }

    /** elv_requeue_request */
    method RequeueRequest(i: nat)
      requires i < |driver|
      modifies this
      ensures Now() == Step(old(Now()), Requeue(i))
    {
      var r := driver[i];
      var p := 0;
      if origBarRq.Some? {
        p := FindRequeuePos(ReqSeq(origBarRq.value, r));
      }
      driver := RemoveAt(driver, i);
      if r.IsFs() {
        inFlight := inFlight - 1;
      }
      queueHead := InsertAt(queueHead, p, r.(started := false, soft := true));
    }

    /** One request moved by the I/O scheduler to a place it may choose, behind every fence. */
    method DispatchOne(i: nat, p: nat)
      requires Enabled(Now(), Dispatch(i, p))
      modifies this
      ensures Now() == Step(old(Now()), Dispatch(i, p))
    {
      var r := sched[i];
      sched := RemoveAt(sched, i);
      queueHead := InsertAt(queueHead, p, r);
    }

    /** elv_drain_elevator: forced dispatch until the scheduler is empty. */
    method DrainElevator() returns (ghost run: seq<Event>)
      modifies this
      ensures sched == [] && CanRun(old(Now()), run) && Now() == Run(old(Now()), run)
    {
      run := [];
      while sched != []
        invariant CanRun(old(Now()), run) && Now() == Run(old(Now()), run)
        decreases |sched|
      {
        var i :| 0 <= i < |sched|;
        var p: nat := Choose();
        RunAppend(old(Now()), run, Dispatch(i, p));
        DispatchOne(i, p);
        run := run + [Dispatch(i, p)];
      }
    }

    /** Some place in the queue that lies behind every fence. */
    method Choose() returns (p: nat)
      ensures p <= |queueHead| && forall j | p <= j < |queueHead| :: !queueHead[j].Fence()
    {
      p := |queueHead|;
      while p > 0 && !queueHead[p - 1].Fence()
        invariant p <= |queueHead| && forall j | p <= j < |queueHead| :: !queueHead[j].Fence()
      {
        var stop: bool := *;
        if stop {
          break;
        }
        p := p - 1;
      }
    }

    /** __elv_add_request */
    method AddRequest(barrier: bool, soft: bool, sort: bool) returns (ghost run: seq<Event>)
      modifies this
      ensures CanRun(old(Now()), run) && Now() == Run(old(Now()), run)
      ensures run != [] && run[|run| - 1] == Submit(barrier, soft, sort)
    {
      run := [];
      var toSched := sort && !barrier && !soft;
      if !toSched {
        run := DrainElevator();
      }
      RunAppend(old(Now()), run, Submit(barrier, soft, sort));
      Place(barrier, soft, sort);
      run := run + [Submit(barrier, soft, sort)];
    }

    /** The request itself, and elv_insert at the back or into the scheduler. */
    method Place(barrier: bool, soft: bool, sort: bool)
      requires Enabled(Now(), Submit(barrier, soft, sort))
      modifies this
      ensures Now() == Step(old(Now()), Submit(barrier, soft, sort))
    {
      var toSched := sort && !barrier && !soft;
      var r := Rq(Fs, nextId, epochs, barrier, ordcolor, !toSched, false);
      nextId, epochs, log := nextId + 1, epochs + Bit(barrier), log + [barrier];
      if barrier {
        ordcolor := !ordcolor;
      }
      if toSched {
        sched := sched + [r];
      } else {
        queueHead := queueHead + [r];
      }
    }

    /** start_ordered; true if the head of the queue may be handed out at once. */
    method Start() returns (now: bool)
      requires queueHead != []
      modifies this
      ensures Now() == StartOrdered(old(Now())) && now == ordseq.drain
    {
      BeginSequence();
      QueueProxies();
      if mode.tag || inFlight == 0 {
        ordseq := ordseq.(drain := true);
      }
      now := ordseq.drain;
    }

    /** The barrier leaves the queue, and nothing has been done yet. */
    method BeginSequence()
      requires queueHead != []
      modifies `orderr, `errs, `ordseq, `origBarRq, `queueHead
      ensures orderr == 0 && errs == [] && ordseq == OrdSeq(true, false, false, false, false)
      ensures origBarRq == Some(old(queueHead[0])) && queueHead == old(queueHead[1..])
    {
      orderr, errs := 0, [];
      ordseq := OrdSeq(true, false, false, false, false);
      origBarRq := Some(queueHead[0]);
      queueHead := queueHead[1..];
    }

    /** The proxies go to the front of the queue, the last one first; what is not needed counts as done. */
    method QueueProxies()
      modifies `queueHead, `ordseq
      ensures queueHead == Stack(mode.preflush, PreFlush, Stack(true, Bar, Stack(mode.postflush, PostFlush, old(queueHead))))
      ensures ordseq == old(ordseq).(postflush := !mode.postflush, preflush := !mode.preflush)
    {
      queueHead := Stack(mode.postflush, PostFlush, queueHead);
      ordseq := ordseq.(postflush := !mode.postflush);
      queueHead := Stack(true, Bar, queueHead);
      queueHead := Stack(mode.preflush, PreFlush, queueHead);
      ordseq := ordseq.(preflush := !mode.preflush);
    }

    /** blk_do_ordered on the head of the queue, and the marking as started that follows in
        elv_next_request. `again` is its return value 0: look at the next request. */
    method Pass() returns (again: bool, rq: Option<Rq>)
      requires queueHead != []
      modifies this
      ensures Now() == Next(old(Now()))
      ensures again == old(DoOrdered(Now()).Drop?) && (!again ==> rq == Handed(old(Now())))
      ensures again ==> rq.None? && |queueHead| < old(|queueHead|) && sched == old(sched)
    {
      var r := queueHead[0];
      again, rq := false, None;
      var hand := true;
      if origBarRq.None? {
        if r.IsBarrier() {
          if mode.none {
            queueHead := queueHead[1..];
            ended := ended + [Ended(r.id, -EOPNOTSUPP)];
            return true, None;
          }
          hand := Start();
        }
      } else if mode.tag {
        hand := !(r.IsBarrier() && !r.kind.Bar?);
      } else {
        hand := ReqSeq(origBarRq.value, r) <= CurSeq(ordseq);
      }
      if hand {
        rq := Some(queueHead[0]);
        queueHead := StartHead(queueHead);
      }
    }

    /** elv_next_request, with a scheduler that dispatches when and what it likes. */
    method NextRequest() returns (rq: Option<Rq>, ghost run: seq<Event>)
      modifies this
      ensures CanRun(old(Now()), run) && Now() == Run(old(Now()), run)
      ensures rq.Some? ==> EndsWithHandOut(old(Now()), run, rq.value)
    {
      rq, run := None, [];
      ghost var s0 := Now();
      while true
        invariant rq.None? && CanRun(s0, run) && Now() == Run(s0, run)
        decreases |sched|, |queueHead|
      {
        if queueHead != [] {
          ghost var prior := run;
          RunAppend(s0, run, Pull);
          var again;
          again, rq := Pass();
          run := prior + [Pull];
          if !again {
            return;
          }
        } else {
          var idle: bool := *;
          if sched == [] || idle {
            return;
          }
          var i :| 0 <= i < |sched|;
          RunAppend(s0, run, Dispatch(i, 0));
          DispatchOne(i, 0);
          run := run + [Dispatch(i, 0)];
        }
      }
    }
  }
}
