/** What every step of the barrier protocol keeps, and what follows for whole runs. */
module BarrierOrder {
  import opened Sequences
  import opened Barrier

  /** Which requests to count. */
  datatype Sel = OfKind(kind: Kind) | OfId(id: nat) | Barriers | Accounted

  predicate Hit(r: Rq, c: Sel) {
    match c
    case OfKind(k) => r.kind == k
    case OfId(n) => r.kind.Fs? && r.id == n
    case Barriers => r.kind.Fs? && r.barrier
    case Accounted => r.IsFs()
  }

  function Count(q: seq<Rq>, c: Sel): nat {
    if q == [] then 0 else Bit(Hit(q[0], c)) + Count(q[1..], c)
  }

  lemma {:induction false} CountConcat(a: seq<Rq>, b: seq<Rq>, c: Sel)
    ensures Count(a + b, c) == Count(a, c) + Count(b, c)
  {
    if a == [] {
      assert a + b == b;
    } else {
      assert (a + b)[1..] == a[1..] + b;
      CountConcat(a[1..], b, c);
    }
  }

  lemma CountInsert(q: seq<Rq>, p: nat, r: Rq, c: Sel)
    requires p <= |q|
    ensures Count(InsertAt(q, p, r), c) == Count(q, c) + Bit(Hit(r, c))
  {
    CountConcat(q[..p] + [r], q[p..], c);
    CountConcat(q[..p], [r], c);
    CountConcat(q[..p], q[p..], c);
    assert q[..p] + q[p..] == q;
  }

  lemma CountRemove(q: seq<Rq>, i: nat, c: Sel)
    requires i < |q|
    ensures Count(RemoveAt(q, i), c) == Count(q, c) - Bit(Hit(q[i], c))
  {
    CountConcat(q[..i], q[i + 1..], c);
    CountConcat(q[..i], [q[i]] + q[i + 1..], c);
    CountConcat([q[i]], q[i + 1..], c);
    assert q[..i] + ([q[i]] + q[i + 1..]) == q;
  }

  lemma {:induction false} CountHit(q: seq<Rq>, i: nat, c: Sel)
    requires i < |q| && Hit(q[i], c)
    ensures Count(q, c) > 0
  {
    if i > 0 {
      CountHit(q[1..], i - 1, c);
    }
  }

  lemma {:induction false} CountFind(q: seq<Rq>, c: Sel) returns (i: nat)
    requires Count(q, c) > 0
    ensures i < |q| && Hit(q[i], c)
  {
    if Hit(q[0], c) {
      i := 0;
    } else {
      i := CountFind(q[1..], c);
      i := i + 1;
    }
  }

  lemma {:induction false} CountSame(a: seq<Rq>, b: seq<Rq>, c: Sel)
    requires |a| == |b| && forall i | 0 <= i < |a| :: Hit(a[i], c) == Hit(b[i], c)
    ensures Count(a, c) == Count(b, c)
  {
    if a != [] {
      CountSame(a[1..], b[1..], c);
    }
  }

  function EndedTimes(log: seq<Ended>, n: nat): nat {
    if log == [] then 0 else EndedTimes(log[..|log| - 1], n) + Bit(log[|log| - 1].id == n)
  }

  /** Where a submitted request is: counted over the queue, the scheduler, the driver, the running
      barrier and the log of ended requests. */
  function Whereabouts(s: State, n: nat): nat {
    Count(s.queue, OfId(n)) + Count(s.sched, OfId(n)) + Count(s.driver, OfId(n))
    + Bit(s.orig.Some? && s.orig.value.id == n) + EndedTimes(s.ended, n)
  }

  /** Conservation: every submitted request is in exactly one place, or has been ended exactly once. */
  ghost predicate Conserved(s: State) {
    forall n: nat :: Whereabouts(s, n) == Bit(n < s.nextId)
  }

  function Outstanding(s: State, k: Kind): nat {
    Count(s.queue, OfKind(k)) + Count(s.driver, OfKind(k))
  }

  /** A phase whose bit is clear has its proxy out exactly once; otherwise there is none. */
  predicate ProxiesMatch(s: State) {
    forall k: Kind | k != Fs ::
      Outstanding(s, k) == Bit(s.orig.Some? && !PhaseBit(s.ordseq, k))
  }

  predicate SequenceState(s: State) {
    && (s.orig.None? <==> s.ordseq == IDLE)
    && (s.orig.Some? ==> s.ordseq.started && s.orig.value.kind.Fs? && s.orig.value.barrier)
    && (s.orig.Some? ==> s.orderr == FirstError(s.errs))
    && (s.orig.Some? ==> CurSeq(s.ordseq) != ORDSEQ_DONE)
    && s.inFlight == Count(s.driver, Accounted)
  }

  predicate ColorOk(r: Rq) {
    r.kind.Fs? ==> r.color == (r.epoch % 2 == 1)
  }

  predicate Waiting(s: State, r: Rq) {
    r.kind.Fs? && !r.barrier && !r.soft && !r.started && r.epoch == s.epochs
  }

  predicate Flags(s: State) {
    && s.ordcolor == (s.epochs % 2 == 1)
    && (forall i | 0 <= i < |s.queue| :: ColorOk(s.queue[i]) && (!s.queue[i].kind.Fs? ==> s.queue[i].soft))
    && (forall i | 0 <= i < |s.driver| :: ColorOk(s.driver[i]) && s.driver[i].started)
    && (forall i | 0 <= i < |s.sched| :: ColorOk(s.sched[i]) && Waiting(s, s.sched[i]))
    && (s.orig.Some? ==> ColorOk(s.orig.value))
  }

  /** Kept in every mode. */
  ghost predicate Inv(s: State) {
    Conserved(s) && ProxiesMatch(s) && SequenceState(s) && Flags(s)
  }

  lemma CountAppend(q: seq<Rq>, r: Rq, c: Sel)
    ensures Count(q + [r], c) == Count(q, c) + Bit(Hit(r, c))
  {
    CountConcat(q, [r], c);
  }

  lemma CountCons(q: seq<Rq>, r: Rq, c: Sel)
    ensures Count([r] + q, c) == Count(q, c) + Bit(Hit(r, c))
  {
    assert ([r] + q)[1..] == q;
  }

  lemma CountHead(q: seq<Rq>, c: Sel)
    requires q != []
    ensures Count(StartHead(q), c) == Count(q, c)
  {
    CountCons(q[1..], q[0].(started := true), c);
  }

  lemma LogAppend(log: seq<Ended>, e: Ended, n: nat)
    ensures EndedTimes(log + [e], n) == EndedTimes(log, n) + Bit(e.id == n)
  {
    assert (log + [e])[..|log|] == log;
  }

  lemma SubmitKeeps(s: State, barrier: bool, soft: bool, sort: bool)
    requires Inv(s) && Enabled(s, Submit(barrier, soft, sort))
    ensures Inv(SubmitStep(s, barrier, soft, sort))
  {
    var t := SubmitStep(s, barrier, soft, sort);
    var r := if sort && !barrier && !soft then t.sched[|s.sched|] else t.queue[|s.queue|];
    forall n: nat
      ensures Whereabouts(t, n) == Bit(n < t.nextId)
    {
      assert Whereabouts(s, n) == Bit(n < s.nextId);
      CountAppend(s.queue, r, OfId(n));
      CountAppend(s.sched, r, OfId(n));
    }
    forall k: Kind | k != Fs
      ensures Outstanding(t, k) == Outstanding(s, k)
    {
      CountAppend(s.queue, r, OfKind(k));
    }
  }

  lemma DispatchKeeps(s: State, i: nat, p: nat)
    requires Inv(s) && Enabled(s, Dispatch(i, p))
    ensures Inv(Step(s, Dispatch(i, p)))
  {
    var t := Step(s, Dispatch(i, p));
    var r := s.sched[i];
    forall n: nat
      ensures Whereabouts(t, n) == Whereabouts(s, n)
    {
      CountInsert(s.queue, p, r, OfId(n));
      CountRemove(s.sched, i, OfId(n));
    }
    assert Conserved(t) by {
      assert forall n: nat :: Whereabouts(s, n) == Bit(n < s.nextId);
    }
    forall k: Kind | k != Fs
      ensures Outstanding(t, k) == Outstanding(s, k)
    {
      CountInsert(s.queue, p, r, OfKind(k));
    }
  }

  lemma DequeueKeeps(s: State, i: nat)
    requires Inv(s) && Enabled(s, Dequeue(i))
    ensures Inv(Step(s, Dequeue(i)))
  {
    var t := Step(s, Dequeue(i));
    var r := s.queue[i];
    Moved(s, t, r, s.queue, i, s.driver);
    CountAppend(s.driver, r, Accounted);
  }

  /** A request that only changes places is still counted once. */
  lemma Moved(s: State, t: State, r: Rq, q: seq<Rq>, i: nat, d: seq<Rq>)
    requires Inv(s) && q == s.queue && d == s.driver && i < |q| && r == q[i]
    requires t.queue == RemoveAt(q, i) && t.driver == d + [r]
    requires t.sched == s.sched && t.orig == s.orig && t.ended == s.ended && t.nextId == s.nextId && t.ordseq == s.ordseq
    ensures Conserved(t) && ProxiesMatch(t)
  {
    forall n: nat
      ensures Whereabouts(t, n) == Bit(n < t.nextId)
    {
      assert Whereabouts(s, n) == Bit(n < s.nextId);
      CountRemove(q, i, OfId(n));
      CountAppend(d, r, OfId(n));
    }
    forall k: Kind | k != Fs
      ensures Outstanding(t, k) == Outstanding(s, k)
    {
      CountRemove(q, i, OfKind(k));
      CountAppend(d, r, OfKind(k));
    }
  }

  lemma RequeueKeeps(s: State, i: nat)
    requires Inv(s) && i < |s.driver|
    ensures Inv(RequeueStep(s, i))
  {
    var t := RequeueStep(s, i);
    var r := s.driver[i];
    var back := r.(started := false, soft := true);
    var p := if s.orig.None? then 0 else RequeuePos(s.orig.value, s.queue, ReqSeq(s.orig.value, r));
    forall n: nat
      ensures Whereabouts(t, n) == Bit(n < t.nextId)
    {
      assert Whereabouts(s, n) == Bit(n < s.nextId);
      CountInsert(s.queue, p, back, OfId(n));
      CountRemove(s.driver, i, OfId(n));
    }
    forall k: Kind | k != Fs
      ensures Outstanding(t, k) == Outstanding(s, k)
    {
      CountInsert(s.queue, p, back, OfKind(k));
      CountRemove(s.driver, i, OfKind(k));
    }
    CountRemove(s.driver, i, Accounted);
  }

  /** Inv while the end of the phase of k is being handled: its proxy is gone, its bit still clear. */
  ghost predicate InvDuring(s: State, k: Kind) {
    && Conserved(s) && SequenceState(s) && Flags(s)
    && forall j: Kind | j != Fs ::
         Outstanding(s, j) == Bit(s.orig.Some? && !PhaseBit(PhaseDone(s.ordseq, k), j))
  }

  lemma {:induction false} FirstErrorAppend(errs: seq<int>, e: int)
    ensures FirstError(errs + [e]) == if FirstError(errs) != 0 then FirstError(errs) else e
  {
    if errs != [] {
      assert (errs + [e])[1..] == errs[1..] + [e];
      FirstErrorAppend(errs[1..], e);
    } else {
      assert (errs + [e])[1..] == [];
    }
  }

  lemma ConservedEnd(s: State, t: State, e: Ended)
    requires Conserved(s) && s.orig.Some? && e.id == s.orig.value.id
    requires t.queue == s.queue && t.sched == s.sched && t.driver == s.driver && t.orig.None?
    requires t.ended == s.ended + [e] && t.nextId == s.nextId
    ensures Conserved(t)
  {
    forall n: nat
      ensures Whereabouts(t, n) == Bit(n < t.nextId)
    {
      assert Whereabouts(s, n) == Bit(n < s.nextId);
      LogAppend(s.ended, e, n);
    }
  }

  lemma ConservedSame(s: State, t: State)
    requires Conserved(s)
    requires t.queue == s.queue && t.sched == s.sched && t.driver == s.driver && t.orig == s.orig
    requires t.ended == s.ended && t.nextId == s.nextId
    ensures Conserved(t)
  {
    forall n: nat
      ensures Whereabouts(t, n) == Bit(n < t.nextId)
    {
      assert Whereabouts(s, n) == Bit(n < s.nextId);
    }
  }

  /** Marking one more phase as done, and ending the barrier if it was the last one. */
  lemma CompleteSeqKeeps(s: State, done: OrdSeq, error: int, k: Kind)
    requires Conserved(s) && SequenceState(s) && Flags(s) && s.orig.Some? && done.started
    requires forall j: Kind | j != Fs :: Outstanding(s, j) == Bit(!PhaseBit(PhaseDone(done, k), j))
    requires CurSeq(done) == ORDSEQ_DONE ==> PhaseDone(done, k) == done
    ensures InvDuring(CompleteSeq(s, done, error), k)
  {
    var t := CompleteSeq(s, done, error);
    FirstErrorAppend(s.errs, error);
    if CurSeq(done) == ORDSEQ_DONE {
      ConservedEnd(s, t, t.ended[|s.ended|]);
    } else {
      ConservedSame(s, t);
    }
    assert forall j: Kind :: Outstanding(t, j) == Outstanding(s, j);
  }

  lemma DrainCheckKeeps(s: State, k: Kind)
    requires InvDuring(s, k)
    requires k != Fs ==> !PhaseBit(s.ordseq, k)
    ensures InvDuring(DrainCheck(s), k)
    ensures k != Fs ==> DrainCheck(s).orig == s.orig && !PhaseBit(DrainCheck(s).ordseq, k)
  {
    if Drained(s) {
      CompleteSeqKeeps(s, s.ordseq.(drain := true), 0, k);
    }
  }

  /** The state right after a request has left the driver. */
  function Left(s: State, i: nat): State
    requires i < |s.driver|
  {
    s.(driver := RemoveAt(s.driver, i), inFlight := s.inFlight - Bit(s.driver[i].IsFs()))
  }

  /** The proxy that completes is the one its phase is waiting for, so BUG_ON(q->ordseq & seq)
      does not fire. */
  lemma PhaseIsOpen(s: State, i: nat)
    requires Inv(s) && i < |s.driver| && !s.driver[i].kind.Fs?
    ensures s.orig.Some? && !PhaseBit(s.ordseq, s.driver[i].kind)
    ensures Outstanding(s, s.driver[i].kind) == 1
  {
    CountHit(s.driver, i, OfKind(s.driver[i].kind));
    assert Outstanding(s, s.driver[i].kind) > 0;
  }

  lemma ProxyLeft(s: State, i: nat)
    requires Inv(s) && i < |s.driver| && !s.driver[i].kind.Fs?
    ensures InvDuring(Left(s, i), s.driver[i].kind)
  {
    var k := s.driver[i].kind;
    var t := Left(s, i);
    PhaseIsOpen(s, i);
    forall n: nat
      ensures Whereabouts(t, n) == Bit(n < t.nextId)
    {
      assert Whereabouts(s, n) == Bit(n < s.nextId);
      CountRemove(s.driver, i, OfId(n));
    }
    forall j: Kind | j != Fs
      ensures Outstanding(t, j) == Bit(s.orig.Some? && !PhaseBit(PhaseDone(s.ordseq, k), j))
    {
      assert Outstanding(s, j) == Bit(s.orig.Some? && !PhaseBit(s.ordseq, j));
      CountRemove(s.driver, i, OfKind(j));
    }
    CountRemove(s.driver, i, Accounted);
  }

  lemma FsLeft(s: State, i: nat, error: int)
    requires Inv(s) && i < |s.driver| && s.driver[i].kind.Fs?
    ensures var t := Left(s, i); InvDuring(t.(ended := t.ended + [Ended(s.driver[i].id, error)]), Fs)
  {
    var e := Ended(s.driver[i].id, error);
    var t := Left(s, i).(ended := s.ended + [e]);
    forall n: nat
      ensures Whereabouts(t, n) == Bit(n < t.nextId)
    {
      assert Whereabouts(s, n) == Bit(n < s.nextId);
      CountRemove(s.driver, i, OfId(n));
      LogAppend(s.ended, e, n);
    }
    forall j: Kind | j != Fs
      ensures Outstanding(t, j) == Outstanding(s, j)
    {
      CountRemove(s.driver, i, OfKind(j));
    }
    CountRemove(s.driver, i, Accounted);
  }

  lemma CompleteKeeps(s: State, i: nat, error: int)
    requires Inv(s) && i < |s.driver|
    ensures Inv(CompleteStep(s, i, error))
  {
    var r := s.driver[i];
    if r.kind.Fs? {
      FsLeft(s, i, error);
      DrainCheckKeeps(Left(s, i).(ended := s.ended + [Ended(r.id, error)]), Fs);
    } else {
      PhaseIsOpen(s, i);
      ProxyLeft(s, i);
      DrainCheckKeeps(Left(s, i), r.kind);
      var u := DrainCheck(Left(s, i));
      CompleteSeqKeeps(u, PhaseDone(u.ordseq, r.kind), error, r.kind);
    }
  }

  lemma IdleHeadIsFs(s: State)
    requires Inv(s) && s.orig.None? && s.queue != []
    ensures s.queue[0].kind.Fs?
  {
    var k := s.queue[0].kind;
    CountHit(s.queue, 0, OfKind(k));
    assert Outstanding(s, k) > 0;
  }

  lemma StartCounts(s: State)
    requires s.queue != []
    ensures forall c: Sel ::
              Count(StartOrdered(s).queue, c)
              == Count(s.queue[1..], c) + Bit(s.mode.postflush && Hit(Proxy(PostFlush), c))
                 + Bit(Hit(Proxy(Bar), c)) + Bit(s.mode.preflush && Hit(Proxy(PreFlush), c))
  {
    var q1 := Stack(s.mode.postflush, PostFlush, s.queue[1..]);
    var q2 := Stack(true, Bar, q1);
    forall c: Sel
      ensures Count(StartOrdered(s).queue, c)
              == Count(s.queue[1..], c) + Bit(s.mode.postflush && Hit(Proxy(PostFlush), c))
                 + Bit(Hit(Proxy(Bar), c)) + Bit(s.mode.preflush && Hit(Proxy(PreFlush), c))
    {
      CountCons(s.queue[1..], Proxy(PostFlush), c);
      CountCons(q1, Proxy(Bar), c);
      CountCons(q2, Proxy(PreFlush), c);
    }
  }

  lemma StartKeeps(s: State)
    requires Inv(s) && s.queue != [] && DoOrdered(s).Begin?
    ensures Inv(StartOrdered(s))
  {
    var t := StartOrdered(s);
    IdleHeadIsFs(s);
    var rest := s.queue[1..];
    StartCounts(s);
    forall n: nat
      ensures Whereabouts(t, n) == Bit(n < t.nextId)
    {
      assert Whereabouts(s, n) == Bit(n < s.nextId);
      assert Count(s.queue, OfId(n)) == Bit(s.queue[0].id == n) + Count(rest, OfId(n));
    }
    forall k: Kind | k != Fs
      ensures Outstanding(t, k) == Bit(!PhaseBit(t.ordseq, k))
    {
      assert Outstanding(s, k) == 0;
    }
    assert forall i | 0 <= i < |rest| :: rest[i] == s.queue[i + 1];
  }

  lemma HandOutKeeps(s: State)
    requires Inv(s) && s.queue != []
    ensures Inv(s.(queue := StartHead(s.queue)))
  {
    var t := s.(queue := StartHead(s.queue));
    forall n: nat
      ensures Whereabouts(t, n) == Bit(n < t.nextId)
    {
      assert Whereabouts(s, n) == Bit(n < s.nextId);
      CountHead(s.queue, OfId(n));
    }
    forall k: Kind | k != Fs
      ensures Outstanding(t, k) == Outstanding(s, k)
    {
      CountHead(s.queue, OfKind(k));
    }
  }

  lemma DropKeeps(s: State)
    requires Inv(s) && s.queue != [] && DoOrdered(s).Drop?
    ensures Inv(Next(s))
  {
    var t := Next(s);
    IdleHeadIsFs(s);
    forall n: nat
      ensures Whereabouts(t, n) == Bit(n < t.nextId)
    {
      assert Whereabouts(s, n) == Bit(n < s.nextId);
      LogAppend(s.ended, t.ended[|s.ended|], n);
    }
    forall k: Kind | k != Fs
      ensures Outstanding(t, k) == Outstanding(s, k)
    {
      assert Count(s.queue, OfKind(k)) == Count(s.queue[1..], OfKind(k));
    }
  }

  lemma PullKeeps(s: State)
    requires Inv(s) && s.queue != []
    ensures Inv(Next(s))
  {
    if DoOrdered(s).Drop? {
      DropKeeps(s);
    } else {
      if DoOrdered(s).Begin? {
        StartKeeps(s);
      }
      if HandsOut(s) {
        HandOutKeeps(Ready(s));
      }
    }
  }

  /** Every step, in every mode, keeps the invariant. */
  lemma StepKeeps(s: State, e: Event)
    requires Inv(s) && Enabled(s, e)
    ensures Inv(Step(s, e))
  {
    match e
    case Submit(barrier, soft, sort) => SubmitKeeps(s, barrier, soft, sort);
    case Dispatch(i, p) => DispatchKeeps(s, i, p);
    case Pull => PullKeeps(s);
    case Dequeue(i) => DequeueKeeps(s, i);
    case Requeue(i) => RequeueKeeps(s, i);
    case Complete(i, error) => CompleteKeeps(s, i, error);
  }

  lemma {:induction false} RunKeeps(s: State, run: seq<Event>)
    requires Inv(s) && CanRun(s, run)
    ensures Inv(Run(s, run))
    decreases |run|
  {
    if run != [] {
      StepKeeps(s, run[0]);
      RunKeeps(Step(s, run[0]), run[1..]);
    }
  }
}
