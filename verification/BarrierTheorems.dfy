/** What the barrier protocol guarantees in every run, in terms of the order of submission. */
module BarrierTheorems {
  import opened Sequences
  import opened Barrier
  import opened BarrierOrder
  import opened BarrierDrain

  function Trues(log: seq<bool>): nat {
    if log == [] then 0 else Trues(log[..|log| - 1]) + Bit(log[|log| - 1])
  }

  lemma {:induction false} TruesMonotone(log: seq<bool>, m: nat, n: nat)
    requires m <= n <= |log|
    ensures Trues(log[..m]) <= Trues(log[..n])
    decreases n
  {
    if m < n {
      TruesMonotone(log, m, n - 1);
      assert log[..n][..n - 1] == log[..n - 1];
    }
  }

  lemma TruesPast(log: seq<bool>, m: nat, n: nat)
    requires m < n <= |log| && log[m]
    ensures Trues(log[..m]) < Trues(log[..n])
  {
    TruesMonotone(log, m + 1, n);
    assert log[..m + 1][..m] == log[..m];
  }

  /** The history recorded in a request agrees with the log of submissions. */
  predicate Known(log: seq<bool>, r: Rq) {
    r.kind.Fs? ==> r.id < |log| && r.barrier == log[r.id] && r.epoch == Trues(log[..r.id])
  }

  predicate AllKnown(log: seq<bool>, q: seq<Rq>) {
    forall i | 0 <= i < |q| :: Known(log, q[i])
  }

  predicate History(s: State) {
    && s.nextId == |s.log| && s.epochs == Trues(s.log)
    && AllKnown(s.log, s.queue) && AllKnown(s.log, s.sched) && AllKnown(s.log, s.driver)
    && (s.orig.Some? ==> Known(s.log, s.orig.value))
  }

  lemma KnownGrows(log: seq<bool>, b: bool, q: seq<Rq>)
    requires AllKnown(log, q)
    ensures AllKnown(log + [b], q)
  {
    forall i | 0 <= i < |q|
      ensures Known(log + [b], q[i])
    {
      assert Known(log, q[i]);
      if q[i].kind.Fs? {
        assert (log + [b])[..q[i].id] == log[..q[i].id];
      }
    }
  }

  lemma SubmitHistory(s: State, barrier: bool, soft: bool, sort: bool)
    requires History(s)
    ensures History(SubmitStep(s, barrier, soft, sort))
  {
    var t := SubmitStep(s, barrier, soft, sort);
    KnownGrows(s.log, barrier, s.queue);
    KnownGrows(s.log, barrier, s.sched);
    KnownGrows(s.log, barrier, s.driver);
    assert t.log[..|s.log|] == s.log;
    if s.orig.Some? {
      KnownGrows(s.log, barrier, [s.orig.value]);
      assert Known(t.log, [s.orig.value][0]);
    }
  }

  lemma KnownRemove(log: seq<bool>, q: seq<Rq>, i: nat)
    requires AllKnown(log, q) && i < |q|
    ensures Known(log, q[i]) && AllKnown(log, RemoveAt(q, i))
  {
  }

  lemma KnownInsert(log: seq<bool>, q: seq<Rq>, p: nat, r: Rq)
    requires AllKnown(log, q) && p <= |q| && Known(log, r)
    ensures AllKnown(log, InsertAt(q, p, r))
  {
  }

  lemma PullHistory(s: State)
    requires History(s) && s.queue != []
    ensures History(Next(s))
  {
    assert Known(s.log, s.queue[0]);
    ReadyKnown(s);
  }

  lemma ReadyKnown(s: State)
    requires AllKnown(s.log, s.queue) && s.queue != []
    ensures AllKnown(s.log, Ready(s).queue) && AllKnown(s.log, s.queue[1..])
    ensures Ready(s).queue != [] && AllKnown(s.log, StartHead(Ready(s).queue))
  {
    assert AllKnown(s.log, s.queue[1..]);
    var t := Ready(s);
    assert AllKnown(s.log, t.queue);
    assert t.queue != [] && Known(s.log, t.queue[0]);
  }

  lemma RequeueHistory(s: State, i: nat)
    requires History(s) && i < |s.driver|
    ensures History(RequeueStep(s, i))
  {
    var r := s.driver[i];
    KnownRemove(s.log, s.driver, i);
    var p := if s.orig.None? then 0 else RequeuePos(s.orig.value, s.queue, ReqSeq(s.orig.value, r));
    KnownInsert(s.log, s.queue, p, r.(started := false, soft := true));
  }

  /** t differs from s in the progress of the sequence only, which may be over. */
  predicate SameHistory(s: State, t: State) {
    && t.nextId == s.nextId && t.log == s.log && t.epochs == s.epochs
    && t.queue == s.queue && t.sched == s.sched && t.driver == s.driver
    && (t.orig == s.orig || t.orig == None)
  }

  lemma CompleteSeqHistory(s: State, done: OrdSeq, error: int)
    requires s.orig.Some?
    ensures SameHistory(s, CompleteSeq(s, done, error))
  {
  }

  lemma DrainCheckHistory(s: State)
    ensures SameHistory(s, DrainCheck(s))
  {
    if Drained(s) {
      CompleteSeqHistory(s, s.ordseq.(drain := true), 0);
    }
  }

  lemma ProxyHistory(t: State, kind: Kind, error: int)
    ensures var u := DrainCheck(t);
      SameHistory(t, if u.orig.Some? then CompleteSeq(u, PhaseDone(u.ordseq, kind), error) else u)
  {
    DrainCheckHistory(t);
    var u := DrainCheck(t);
    if u.orig.Some? {
      CompleteSeqHistory(u, PhaseDone(u.ordseq, kind), error);
    }
  }

  lemma CompleteHistory(s: State, i: nat, error: int)
    requires History(s) && i < |s.driver|
    ensures History(CompleteStep(s, i, error))
  {
    KnownRemove(s.log, s.driver, i);
    var r := s.driver[i];
    var t := s.(driver := RemoveAt(s.driver, i), inFlight := s.inFlight - Bit(r.IsFs()));
    if r.kind.Fs? {
      DrainCheckHistory(t.(ended := t.ended + [Ended(r.id, error)]));
    } else {
      ProxyHistory(t, r.kind, error);
    }
  }

  lemma DispatchHistory(s: State, i: nat, p: nat)
    requires History(s) && Enabled(s, Dispatch(i, p))
    ensures History(Step(s, Dispatch(i, p)))
  {
    KnownRemove(s.log, s.sched, i);
    KnownInsert(s.log, s.queue, p, s.sched[i]);
  }

  lemma StepHistory(s: State, e: Event)
    requires History(s) && Enabled(s, e)
    ensures History(Step(s, e))
  {
    match e
    case Submit(barrier, soft, sort) => SubmitHistory(s, barrier, soft, sort);
    case Dispatch(i, p) => DispatchHistory(s, i, p);
    case Pull => PullHistory(s);
    case Dequeue(i) =>
      KnownRemove(s.log, s.queue, i);
    case Requeue(i) => RequeueHistory(s, i);
    case Complete(i, error) => CompleteHistory(s, i, error);
  }

  lemma {:induction false} RunHistory(s: State, run: seq<Event>)
    requires History(s) && CanRun(s, run)
    ensures History(Run(s, run))
    decreases |run|
  {
    if run != [] {
      StepHistory(s, run[0]);
      RunHistory(Step(s, run[0]), run[1..]);
    }
  }

  /** A state of some run that orders barriers by draining the queue. */
  ghost predicate Reachable(s: State) {
    exists mode: Mode, run: seq<Event> ::
      !mode.none && !mode.tag && CanRun(Init(mode), run) && s == Run(Init(mode), run)
  }

  lemma ReachableGood(s: State)
    requires Reachable(s)
    ensures Good(s) && History(s)
  {
    var mode: Mode, run: seq<Event> :| !mode.none && !mode.tag && CanRun(Init(mode), run) && s == Run(Init(mode), run);
    assert Good(Init(mode));
    RunGood(Init(mode), run);
    RunHistory(Init(mode), run);
  }

  /** A submitted request that has not been ended is somewhere in the queue, the scheduler or the driver,
      or is the barrier whose sequence is running. */
  lemma NotEnded(s: State, n: nat) returns (r: Rq)
    requires Inv(s) && History(s) && n < s.nextId && EndedTimes(s.ended, n) != 1
    ensures r.kind.Fs? && r.id == n && Known(s.log, r)
    ensures r in s.queue || r in s.sched || r in s.driver || (s.orig.Some? && r == s.orig.value)
  {
    assert Whereabouts(s, n) == 1;
    if Count(s.queue, OfId(n)) > 0 {
      var i := CountFind(s.queue, OfId(n));
      r := s.queue[i];
    } else if Count(s.sched, OfId(n)) > 0 {
      var i := CountFind(s.sched, OfId(n));
      r := s.sched[i];
    } else if Count(s.driver, OfId(n)) > 0 {
      var i := CountFind(s.driver, OfId(n));
      r := s.driver[i];
    } else {
      r := s.orig.value;
    }
  }

  /** Barriers that have not been ended lie at or behind the horizon. */
  lemma OpenBarrier(s: State, x: Rq)
    requires Good(s) && x.kind.Fs? && x.barrier
    requires x in s.queue || x in s.sched || x in s.driver || (s.orig.Some? && x == s.orig.value)
    ensures x.epoch >= Horizon(s) || (s.orig.Some? && x.epoch == Horizon(s) - 1)
  {
    if x in s.queue {
      var i :| 0 <= i < |s.queue| && s.queue[i] == x;
      assert PlaceOk(s.queue, Horizon(s), s.orig.Some?, i);
    }
  }

  /** The file-system request that is handed out next. */
  lemma HandedFs(s: State)
    requires Good(s) && s.queue != [] && HandsOut(s) && Ready(s).queue[0].kind.Fs?
    ensures DoOrdered(s).HandOut?
    ensures Handed(s) == Some(s.queue[0])
    ensures s.queue[0].epoch == if s.orig.Some? then Horizon(s) - 1 else Horizon(s)
  {
    if DoOrdered(s).Begin? {
      FirstPhase(s);
    } else {
      assert s.queue[..0] == [];
      assert PlaceOk(s.queue, Horizon(s), s.orig.Some?, 0);
      if s.orig.Some? {
        HeadSeq(s);
      }
    }
  }

  /** No request overtakes a barrier: when a file-system request is handed out, every barrier
      submitted before it has been ended. */
  lemma NothingPassesABarrier(s: State, n: nat)
    requires Reachable(s) && s.queue != [] && Handed(s).Some? && Handed(s).value.kind.Fs?
    requires n < Handed(s).value.id && n < |s.log| && s.log[n]
    ensures EndedTimes(s.ended, n) == 1
  {
    ReachableGood(s);
    HandedFs(s);
    var r := s.queue[0];
    assert Known(s.log, r);
    if EndedTimes(s.ended, n) != 1 {
      var x := NotEnded(s, n);
      OpenBarrier(s, x);
      TruesPast(s.log, n, r.id);
    }
  }

  lemma ReadyGood(s: State)
    requires Good(s) && History(s) && s.queue != [] && HandsOut(s)
    ensures Good(Ready(s)) && History(Ready(s)) && Ready(s).ended == s.ended
    ensures Ready(s).queue != [] && DoOrdered(Ready(s)).HandOut?
  {
    if DoOrdered(s).Begin? {
      StartKeeps(s);
      StartDrain(s);
      FirstPhase(s);
      assert AllKnown(s.log, s.queue[1..]);
      assert Known(s.log, s.queue[0]);
    }
  }

  /** Requests left over once the queue is drained come after the barrier. */
  lemma LeftOver(s: State, x: Rq)
    requires Good(s) && s.orig.Some? && s.ordseq.drain && x.kind.Fs?
    requires x in s.queue || x in s.sched || x in s.driver
    ensures x.epoch > s.orig.value.epoch
  {
  }

  /** The pre-flush, barrier and post-flush proxies are handed out only when every request submitted
      before the barrier has been ended, and each only when the phases before it are over. */
  lemma BarrierWaitsForEarlierRequests(s: State, n: nat)
    requires Reachable(s) && s.queue != [] && Handed(s).Some? && !Handed(s).value.kind.Fs?
    ensures Ready(s).orig.Some? && Ready(s).ordseq.drain
    ensures n < Ready(s).orig.value.id ==> EndedTimes(s.ended, n) == 1
    ensures !Handed(s).value.kind.PreFlush? ==> Ready(s).ordseq.preflush
    ensures Handed(s).value.kind.PostFlush? ==> Ready(s).ordseq.bar
  {
    ReachableGood(s);
    ReadyGood(s);
    var t := Ready(s);
    var k := t.queue[0].kind;
    CountHit(t.queue, 0, OfKind(k));
    assert Outstanding(t, k) > 0;
    HeadSeq(t);
    var b := t.orig.value;
    if n < b.id && EndedTimes(s.ended, n) != 1 {
      var x := NotEnded(t, n);
      TruesMonotone(t.log, n, b.id);
      if x != b {
        LeftOver(t, x);
      }
    }
  }

  /** WARN_ON(blk_ordered_req_seq(rq) < blk_ordered_cur_seq(q)) never fires, and when
      elv_completed_request looks at the head of the queue of a draining sequence there is one. */
  lemma NoWarning(s: State)
    requires Reachable(s) && s.orig.Some?
    ensures s.queue != [] ==> ReqSeq(s.orig.value, s.queue[0]) >= CurSeq(s.ordseq)
    ensures CurSeq(s.ordseq) == ORDSEQ_DRAIN ==> s.queue != []
  {
    ReachableGood(s);
    if s.queue != [] {
      HeadSeq(s);
    } else if CurSeq(s.ordseq) == ORDSEQ_DRAIN {
      assert Outstanding(s, Bar) == 1;
      var i := CountFind(s.driver, OfKind(Bar));
    }
  }

  /** A state of a run in any mode. */
  ghost predicate ReachableAnyMode(s: State) {
    exists mode: Mode, run: seq<Event> :: CanRun(Init(mode), run) && s == Run(Init(mode), run)
  }

  lemma ReachableInv(s: State)
    requires ReachableAnyMode(s)
    ensures Inv(s)
  {
    var mode: Mode, run: seq<Event> :| CanRun(Init(mode), run) && s == Run(Init(mode), run);
    assert Inv(Init(mode));
    RunKeeps(Init(mode), run);
  }

  /** In drain and tag mode alike, whatever order the proxies complete in, the phase bit of a
      completing proxy is clear, so BUG_ON(q->ordseq & seq) never fires. */
  lemma PhaseCompletesOnce(s: State, i: nat)
    requires ReachableAnyMode(s) && i < |s.driver| && !s.driver[i].kind.Fs?
    ensures s.orig.Some? && !PhaseBit(s.ordseq, s.driver[i].kind)
    ensures !PhaseBit(DrainCheck(Left(s, i)).ordseq, s.driver[i].kind)
  {
    ReachableInv(s);
    PhaseIsOpen(s, i);
    ProxyLeft(s, i);
    DrainCheckKeeps(Left(s, i), s.driver[i].kind);
  }

  const ALL_DONE := OrdSeq(true, true, true, true, true)

  /** The barrier is ended with this completion exactly if no phase is left. */
  lemma BarrierEndsWithLastPhase(s: State, i: nat, error: int)
    requires ReachableAnyMode(s) && i < |s.driver| && !s.driver[i].kind.Fs?
    ensures s.orig.Some?
    ensures var t := CompleteStep(s, i, error);
            var done := PhaseDone(DrainCheck(Left(s, i)).ordseq, s.driver[i].kind);
            if done == ALL_DONE then
              t.orig.None? && t.ordseq == IDLE && t.ended == s.ended + [Ended(s.orig.value.id, Status(t.errs))]
            else
              t.orig == s.orig && t.ordseq == done && t.ended == s.ended
  {
    ReachableInv(s);
    PhaseIsOpen(s, i);
    ProxyLeft(s, i);
    DrainCheckKeeps(Left(s, i), s.driver[i].kind);
    LastPhase(DrainCheck(Left(s, i)), s.driver[i].kind, error);
  }

  lemma LastPhase(u: State, k: Kind, error: int)
    requires SequenceState(u) && u.orig.Some?
    ensures var done := PhaseDone(u.ordseq, k);
            var t := CompleteSeq(u, done, error);
            if done == ALL_DONE then
              t.orig.None? && t.ordseq == IDLE && t.ended == u.ended + [Ended(u.orig.value.id, Status(t.errs))]
            else
              t.orig == u.orig && t.ordseq == done && t.ended == u.ended
  {
    FirstErrorAppend(u.errs, error);
  }

  /** The status of a barrier: 1, or the first error that any of its phases reported. */
  function Status(errs: seq<int>): int {
    if FirstError(errs) != 0 then FirstError(errs) else 1
  }

  /** In every run no request is ended twice, and the running barrier not before its sequence is over. */
  lemma EndedAtMostOnce(s: State, n: nat)
    requires ReachableAnyMode(s)
    ensures EndedTimes(s.ended, n) <= 1
    ensures s.orig.Some? ==> EndedTimes(s.ended, s.orig.value.id) == 0
  {
    ReachableInv(s);
    assert Whereabouts(s, n) <= 1;
    if s.orig.Some? {
      assert Whereabouts(s, s.orig.value.id) <= 1;
    }
  }
}
