/** Ordering by draining: the invariant behind "nothing passes a barrier". */
module BarrierDrain {
  import opened Sequences
  import opened Barrier
  import opened BarrierOrder

  /** The epoch of the first request behind everything that has been released so far: the number of
      barriers whose sequence has been started. */
  function Horizon(s: State): int {
    s.epochs - Count(s.queue, Barriers)
  }

  function SeqOf(k: Kind): nat {
    match k
    case Fs => 0
    case PreFlush => ORDSEQ_PREFLUSH
    case Bar => ORDSEQ_BAR
    case PostFlush => ORDSEQ_POSTFLUSH
  }

  /** Queue order during a sequence: requeued earlier requests, the proxies, later requests. */
  function Rank(a: int, r: Rq): nat {
    match r.kind
    case Fs => if r.epoch < a then 0 else 4
    case PreFlush => 1
    case Bar => 2
    case PostFlush => 3
  }

  /** A file-system request at place i: one from before the running barrier waits to be retried;
      any other has passed exactly the barriers that stand before it. */
  predicate PlaceOk(q: seq<Rq>, a: int, active: bool, i: nat)
    requires i < |q|
  {
    var r := q[i];
    r.kind.Fs? ==>
      if r.epoch < a then active && r.epoch == a - 1 && !r.barrier && r.soft
      else
        && r.epoch == a + Count(q[..i], Barriers)
        && (r.started ==> !active && !r.barrier && r.epoch == a)
  }

  predicate Ranked(q: seq<Rq>, a: int) {
    forall i, j | 0 <= i < j < |q| :: Rank(a, q[i]) <= Rank(a, q[j])
  }

  predicate QueueOk(q: seq<Rq>, a: int, active: bool) {
    (forall i | 0 <= i < |q| :: PlaceOk(q, a, active, i)) && Ranked(q, a)
  }

  /** A proxy the driver knows about is the one whose phase is current. */
  predicate InPhase(r: Rq, o: OrdSeq) {
    !r.kind.Fs? && r.started ==> CurSeq(o) == SeqOf(r.kind)
  }

  predicate PhaseOrder(s: State) {
    && (forall i | 0 <= i < |s.queue| :: InPhase(s.queue[i], s.ordseq))
    && (forall i | 0 <= i < |s.driver| :: InPhase(s.driver[i], s.ordseq))
    && (s.ordseq.bar ==> s.ordseq.drain && s.ordseq.preflush)
  }

  predicate DriverOk(s: State, a: int) {
    forall i | 0 <= i < |s.driver| :: s.driver[i].kind.Fs? ==>
      !s.driver[i].barrier && s.driver[i].epoch == (if s.orig.Some? then a - 1 else a)
  }

  /** Once drained, no request from before the running barrier is left anywhere. */
  predicate DrainedOk(s: State, a: int) {
    s.orig.Some? && s.ordseq.drain ==>
      && (forall i | 0 <= i < |s.queue| :: s.queue[i].kind.Fs? ==> s.queue[i].epoch >= a)
      && (forall i | 0 <= i < |s.driver| :: !s.driver[i].kind.Fs?)
  }

  predicate DrainInv(s: State) {
    var a := Horizon(s);
    && !s.mode.none && !s.mode.tag
    && QueueOk(s.queue, a, s.orig.Some?)
    && (s.orig.Some? ==> s.orig.value.epoch == a - 1)
    && DriverOk(s, a) && DrainedOk(s, a) && PhaseOrder(s)
  }

  ghost predicate Good(s: State) {
    Inv(s) && DrainInv(s)
  }

  lemma FromParts(s: State, a: int)
    requires a == Horizon(s) && !s.mode.none && !s.mode.tag && QueueOk(s.queue, a, s.orig.Some?)
    requires s.orig.Some? ==> s.orig.value.epoch == a - 1
    requires DriverOk(s, a) && DrainedOk(s, a) && PhaseOrder(s)
    ensures DrainInv(s)
  {
  }

  lemma {:induction false} CountNone(q: seq<Rq>, c: Sel)
    requires forall i | 0 <= i < |q| :: !Hit(q[i], c)
    ensures Count(q, c) == 0
  {
    if q != [] {
      CountNone(q[1..], c);
    }
  }

  lemma PrefixInsert(q: seq<Rq>, p: nat, r: Rq, i: nat, c: Sel)
    requires p <= |q| && i <= |q|
    ensures i <= p ==> Count(InsertAt(q, p, r)[..i], c) == Count(q[..i], c)
    ensures p <= i ==> Count(InsertAt(q, p, r)[..i + 1], c) == Count(q[..i], c) + Bit(Hit(r, c))
  {
    var t := InsertAt(q, p, r);
    if i <= p {
      assert t[..i] == q[..i];
    }
    if p <= i {
      assert t[..i + 1] == InsertAt(q[..i], p, r);
      CountInsert(q[..i], p, r, c);
    }
  }

  lemma PrefixRemove(q: seq<Rq>, p: nat, i: nat, c: Sel)
    requires p < |q| && i < |q|
    ensures i <= p ==> Count(RemoveAt(q, p)[..i], c) == Count(q[..i], c)
    ensures p <= i ==> Count(RemoveAt(q, p)[..i], c) == Count(q[..i + 1], c) - Bit(Hit(q[p], c))
  {
    var t := RemoveAt(q, p);
    if i <= p {
      assert t[..i] == q[..i];
    }
    if p <= i {
      assert t[..i] == RemoveAt(q[..i + 1], p);
      CountRemove(q[..i + 1], p, c);
    }
  }

  /** Inserting a request that is not a barrier. */
  lemma QueueInsert(q: seq<Rq>, a: int, active: bool, p: nat, r: Rq)
    requires QueueOk(q, a, active) && p <= |q| && !Hit(r, Barriers)
    requires r.kind.Fs? && r.epoch < a ==> active && r.epoch == a - 1 && !r.barrier && r.soft
    requires r.kind.Fs? && r.epoch >= a ==> r.epoch == a + Count(q[..p], Barriers) && !r.started
    requires forall j | 0 <= j < p :: Rank(a, q[j]) <= Rank(a, r)
    requires forall j | p <= j < |q| :: Rank(a, r) <= Rank(a, q[j])
    ensures QueueOk(InsertAt(q, p, r), a, active)
  {
    var t := InsertAt(q, p, r);
    forall i | 0 <= i < |t|
      ensures PlaceOk(t, a, active, i)
    {
      if i < p {
        assert t[i] == q[i] && PlaceOk(q, a, active, i);
        PrefixInsert(q, p, r, i, Barriers);
      } else if i == p {
        assert t[i] == r;
        PrefixInsert(q, p, r, i, Barriers);
      } else {
        assert t[i] == q[i - 1] && PlaceOk(q, a, active, i - 1);
        PrefixInsert(q, p, r, i - 1, Barriers);
      }
    }
    assert Ranked(t, a) by {
      assert forall i | 0 <= i < |t| :: t[i] == if i < p then q[i] else if i == p then r else q[i - 1];
    }
  }

  /** Taking out a request that is not a barrier. */
  lemma QueueRemove(q: seq<Rq>, a: int, active: bool, p: nat)
    requires QueueOk(q, a, active) && p < |q| && !Hit(q[p], Barriers)
    ensures QueueOk(RemoveAt(q, p), a, active)
  {
    var t := RemoveAt(q, p);
    forall i | 0 <= i < |t|
      ensures PlaceOk(t, a, active, i)
    {
      PrefixRemove(q, p, i, Barriers);
      if i < p {
        assert t[i] == q[i] && PlaceOk(q, a, active, i);
      } else {
        assert t[i] == q[i + 1] && PlaceOk(q, a, active, i + 1);
      }
    }
    assert Ranked(t, a) by {
      assert forall i | 0 <= i < |t| :: t[i] == if i < p then q[i] else q[i + 1];
    }
  }

  /** Appending a new request behind everything. */
  lemma QueueAppend(q: seq<Rq>, a: int, active: bool, r: Rq)
    requires QueueOk(q, a, active) && r.kind.Fs? && !r.started && a <= r.epoch == a + Count(q, Barriers)
    ensures QueueOk(q + [r], a, active)
  {
    var t := q + [r];
    assert t[..|q|] == q;
    forall i | 0 <= i < |t|
      ensures PlaceOk(t, a, active, i)
    {
      if i < |q| {
        assert t[..i] == q[..i];
        assert PlaceOk(q, a, active, i);
      }
    }
  }

  lemma SubmitDrain(s: State, barrier: bool, soft: bool, sort: bool)
    requires DrainInv(s) && Enabled(s, Submit(barrier, soft, sort))
    ensures DrainInv(SubmitStep(s, barrier, soft, sort))
  {
    var t, a := SubmitStep(s, barrier, soft, sort), Horizon(s);
    if !(sort && !barrier && !soft) {
      var r := t.queue[|s.queue|];
      CountAppend(s.queue, r, Barriers);
      QueueAppend(s.queue, a, s.orig.Some?, r);
      SubmitParts(s, t, a, r);
    }
    FromParts(t, a);
  }

  /** A new request at the end of the queue, of this epoch. */
  lemma SubmitParts(s: State, t: State, a: int, r: Rq)
    requires DrainedOk(s, a) && PhaseOrder(s) && r.kind.Fs? && r.epoch >= a
    requires t.queue == s.queue + [r] && t.driver == s.driver && t.ordseq == s.ordseq && t.orig == s.orig
    ensures DrainedOk(t, a) && PhaseOrder(t)
  {
    forall i | 0 <= i < |t.queue|
      ensures InPhase(t.queue[i], t.ordseq) && (t.queue[i] == r || (i < |s.queue| && t.queue[i] == s.queue[i]))
    {
      if i < |s.queue| {
        assert InPhase(s.queue[i], s.ordseq);
      }
    }
  }

  lemma DispatchDrain(s: State, i: nat, p: nat)
    requires DrainInv(s) && Flags(s) && Enabled(s, Dispatch(i, p))
    ensures DrainInv(Step(s, Dispatch(i, p)))
  {
    var t := Step(s, Dispatch(i, p));
    var q, r, a := s.queue, s.sched[i], Horizon(s);
    assert q == q[..p] + q[p..];
    CountConcat(q[..p], q[p..], Barriers);
    assert Count(q[p..], Barriers) == 0 by {
      assert forall j | 0 <= j < |q[p..]| :: q[p..][j] == q[p + j] && !q[p + j].Fence();
      CountNone(q[p..], Barriers);
    }
    forall j | p <= j < |q|
      ensures Rank(a, q[j]) == 4
    {
      assert PlaceOk(q, a, s.orig.Some?, j) && !q[j].Fence();
    }
    QueueInsert(q, a, s.orig.Some?, p, r);
    CountInsert(q, p, r, Barriers);
    SameElements(s, t, p, r);
    FromParts(t, a);
  }

  lemma SameElements(s: State, t: State, p: nat, r: Rq)
    requires p <= |s.queue| && t.queue == InsertAt(s.queue, p, r) && t.driver == s.driver
    requires t.ordseq == s.ordseq && t.orig == s.orig
    requires PhaseOrder(s) && InPhase(r, s.ordseq) && DrainedOk(s, Horizon(s))
    requires s.orig.Some? && s.ordseq.drain && r.kind.Fs? ==> r.epoch >= Horizon(s)
    ensures PhaseOrder(t) && DrainedOk(t, Horizon(s))
  {
    assert forall i | 0 <= i < |t.queue| ::
        t.queue[i] == if i < p then s.queue[i] else if i == p then r else s.queue[i - 1];
  }

  /** The head of the queue of a running sequence. */
  lemma HeadSeq(s: State)
    requires Good(s) && s.orig.Some? && s.queue != []
    ensures var r := s.queue[0];
            var v := ReqSeq(s.orig.value, r);
            if r.kind.Fs? then v == (if r.epoch < Horizon(s) then ORDSEQ_DRAIN else ORDSEQ_DONE)
            else v == SeqOf(r.kind)
    ensures ReqSeq(s.orig.value, s.queue[0]) >= CurSeq(s.ordseq)
  {
    var r, a := s.queue[0], Horizon(s);
    assert PlaceOk(s.queue, a, true, 0);
    assert s.queue[..0] == [];
    if r.kind.Fs? {
      assert r.epoch == a - 1 || r.epoch == a;
    } else {
      CountHit(s.queue, 0, OfKind(r.kind));
      assert Outstanding(s, r.kind) > 0;
    }
  }

  lemma QueueStart(q: seq<Rq>, a: int, active: bool)
    requires q != [] && QueueOk(q, a, active)
    requires q[0].kind.Fs? && q[0].epoch >= a ==> !active && !q[0].barrier
    ensures QueueOk(StartHead(q), a, active)
  {
    var t := StartHead(q);
    assert q[..0] == t[..0] == [];
    forall i | 0 <= i < |t|
      ensures PlaceOk(t, a, active, i)
    {
      assert PlaceOk(q, a, active, i);
      if i > 0 {
        assert t[..i] == StartHead(q[..i]);
        CountHead(q[..i], Barriers);
      }
    }
    assert forall i | 0 <= i < |t| :: Rank(a, t[i]) == Rank(a, q[i]);
  }

  lemma HandOutDrain(s: State)
    requires Good(s) && s.queue != [] && DoOrdered(s).HandOut?
    ensures DrainInv(s.(queue := StartHead(s.queue)))
  {
    var t := s.(queue := StartHead(s.queue));
    CountHead(s.queue, Barriers);
    if s.orig.Some? {
      HeadSeq(s);
    } else {
      IdleHeadIsFs(s);
    }
    QueueStart(s.queue, Horizon(s), s.orig.Some?);
    HeadParts(s, t);
    FromParts(t, Horizon(s));
  }

  /** The head of the queue is marked started, in its phase if it is a proxy. */
  lemma HeadParts(s: State, t: State)
    requires DrainInv(s) && s.queue != [] && t == s.(queue := StartHead(s.queue))
    requires InPhase(t.queue[0], s.ordseq)
    ensures DriverOk(t, Horizon(s)) && DrainedOk(t, Horizon(s)) && PhaseOrder(t)
  {
    forall i | 0 <= i < |t.queue|
      ensures InPhase(t.queue[i], s.ordseq) && t.queue[i].kind == s.queue[i].kind && t.queue[i].epoch == s.queue[i].epoch
    {
      assert InPhase(s.queue[i], s.ordseq);
    }
  }

  lemma DequeueDrain(s: State, i: nat)
    requires DrainInv(s) && Enabled(s, Dequeue(i))
    ensures DrainInv(Step(s, Dequeue(i)))
  {
    var t := Step(s, Dequeue(i));
    var a := Horizon(s);
    assert PlaceOk(s.queue, a, s.orig.Some?, i);
    QueueRemove(s.queue, a, s.orig.Some?, i);
    CountRemove(s.queue, i, Barriers);
    DequeueRest(s, t, i, a);
    FromParts(t, a);
  }

  lemma DequeueRest(s: State, t: State, i: nat, a: int)
    requires i < |s.queue| && s.queue[i].started && PlaceOk(s.queue, a, s.orig.Some?, i)
    requires t.queue == RemoveAt(s.queue, i) && t.driver == s.driver + [s.queue[i]]
    requires t.ordseq == s.ordseq && t.orig == s.orig
    requires DriverOk(s, a) && DrainedOk(s, a) && PhaseOrder(s)
    ensures DriverOk(t, a) && DrainedOk(t, a) && PhaseOrder(t)
  {
    var r := s.queue[i];
    assert forall j | 0 <= j < |t.queue| :: t.queue[j] == if j < i then s.queue[j] else s.queue[j + 1];
    assert forall j | 0 <= j < |t.driver| :: t.driver[j] == if j < |s.driver| then s.driver[j] else r;
  }

  /** In a drain-mode sequence a requeued request goes back to the head of the queue. */
  lemma RequeueAtHead(s: State, i: nat)
    requires Good(s) && s.orig.Some? && i < |s.driver|
    ensures RequeuePos(s.orig.value, s.queue, ReqSeq(s.orig.value, s.driver[i])) == 0
    ensures forall j | 0 <= j < |s.queue| :: Rank(Horizon(s), s.driver[i]) <= Rank(Horizon(s), s.queue[j])
  {
    var r, a := s.driver[i], Horizon(s);
    if s.queue != [] {
      HeadSeq(s);
      assert Rank(a, r) <= Rank(a, s.queue[0]);
    }
  }

  lemma RequeueDrain(s: State, i: nat)
    requires Good(s) && i < |s.driver|
    ensures DrainInv(RequeueStep(s, i))
  {
    if s.orig.Some? {
      RequeueAtHead(s, i);
    } else {
      IdleIsFs(s, i);
    }
    RequeueDrainAt(s, i);
  }

  lemma RequeueDrainAt(s: State, i: nat)
    requires DrainInv(s) && i < |s.driver|
    requires s.orig.Some? ==> RequeuePos(s.orig.value, s.queue, ReqSeq(s.orig.value, s.driver[i])) == 0
    requires forall j | 0 <= j < |s.queue| :: Rank(Horizon(s), s.driver[i]) <= Rank(Horizon(s), s.queue[j])
    ensures DrainInv(RequeueStep(s, i))
  {
    var a := Horizon(s);
    var back := s.driver[i].(started := false, soft := true);
    assert s.queue[..0] == [];
    QueueInsert(s.queue, a, s.orig.Some?, 0, back);
    CountInsert(s.queue, 0, back, Barriers);
    RequeueRest(s, RequeueStep(s, i), i, back, a);
    FromParts(RequeueStep(s, i), a);
  }

  lemma IdleIsFs(s: State, i: nat)
    requires Good(s) && s.orig.None? && i < |s.driver|
    ensures s.driver[i].kind.Fs?
    ensures forall j | 0 <= j < |s.queue| :: Rank(Horizon(s), s.queue[j]) == 4
  {
    var k := s.driver[i].kind;
    CountHit(s.driver, i, OfKind(k));
    assert Outstanding(s, k) > 0;
    forall j | 0 <= j < |s.queue|
      ensures Rank(Horizon(s), s.queue[j]) == 4
    {
      CountHit(s.queue, j, OfKind(s.queue[j].kind));
      assert Outstanding(s, s.queue[j].kind) > 0;
      assert PlaceOk(s.queue, Horizon(s), false, j);
    }
  }

  lemma RequeueRest(s: State, t: State, i: nat, back: Rq, a: int)
    requires i < |s.driver| && back == s.driver[i].(started := false, soft := true)
    requires t.queue == InsertAt(s.queue, 0, back) && t.driver == RemoveAt(s.driver, i)
    requires t.ordseq == s.ordseq && t.orig == s.orig
    requires DriverOk(s, a) && DrainedOk(s, a) && PhaseOrder(s)
    ensures DriverOk(t, a) && DrainedOk(t, a) && PhaseOrder(t)
  {
    assert forall j | 0 <= j < |t.queue| :: t.queue[j] == if j == 0 then back else s.queue[j - 1];
    assert forall j | 0 <= j < |t.driver| :: t.driver[j] == if j < i then s.driver[j] else s.driver[j + 1];
  }

  /** The queue of a sequence that is being set up: nothing in it has been handed out, and nothing
      ranks below `low`. */
  predicate Behind(q: seq<Rq>, a: int, low: nat) {
    && QueueOk(q, a, true)
    && forall i | 0 <= i < |q| :: Rank(a, q[i]) >= low > 0 && !q[i].started
  }

  lemma QueueBehind(q: seq<Rq>, a: int)
    requires q != [] && QueueOk(q, a, false) && Hit(q[0], Barriers)
    requires forall i | 0 <= i < |q| :: q[i].kind.Fs?
    ensures q[0].epoch == a && Behind(q[1..], a + 1, 4)
  {
    var t := q[1..];
    assert q[..0] == [];
    assert PlaceOk(q, a, false, 0);
    forall i | 0 <= i < |t|
      ensures PlaceOk(t, a + 1, true, i) && t[i].epoch >= a + 1 && !t[i].started && t[i].kind.Fs?
    {
      assert PlaceOk(q, a, false, i + 1) && t[i] == q[i + 1];
      assert q[..i + 1] == [q[0]] + t[..i];
      CountCons(t[..i], q[0], Barriers);
    }
  }

  lemma QueueStack(needed: bool, k: Kind, q: seq<Rq>, a: int)
    requires k != Fs && Behind(q, a, Rank(a, Proxy(k)) + 1)
    ensures Behind(Stack(needed, k, q), a, Rank(a, Proxy(k)))
    ensures Count(Stack(needed, k, q), Barriers) == Count(q, Barriers)
  {
    if needed {
      var r := Proxy(k);
      assert InsertAt(q, 0, r) == [r] + q;
      QueueInsert(q, a, true, 0, r);
      CountCons(q, r, Barriers);
      InFront(q, a, r);
    }
  }

  lemma InFront(q: seq<Rq>, a: int, r: Rq)
    requires Behind(q, a, Rank(a, r) + 1) && QueueOk([r] + q, a, true) && !r.started && Rank(a, r) > 0
    ensures Behind([r] + q, a, Rank(a, r))
  {
    var t := [r] + q;
    forall i | 0 <= i < |t| ensures Rank(a, t[i]) >= Rank(a, r) && !t[i].started {
      if i > 0 {
        assert t[i] == q[i - 1];
      }
    }
  }

  lemma StartQueue(s: State, a: int)
    requires s.queue != [] && Behind(s.queue[1..], a, 4)
    ensures Behind(StartOrdered(s).queue, a, 1)
    ensures Count(StartOrdered(s).queue, Barriers) == Count(s.queue[1..], Barriers)
  {
    var q1 := Stack(s.mode.postflush, PostFlush, s.queue[1..]);
    QueueStack(s.mode.postflush, PostFlush, s.queue[1..], a);
    QueueStack(true, Bar, q1, a);
    QueueStack(s.mode.preflush, PreFlush, Stack(true, Bar, q1), a);
  }

  lemma IdleAllFs(s: State)
    requires Inv(s) && s.orig.None?
    ensures forall i | 0 <= i < |s.queue| :: s.queue[i].kind.Fs?
    ensures forall i | 0 <= i < |s.driver| :: s.driver[i].kind.Fs?
  {
    forall i | 0 <= i < |s.queue|
      ensures s.queue[i].kind.Fs?
    {
      CountHit(s.queue, i, OfKind(s.queue[i].kind));
      assert Outstanding(s, s.queue[i].kind) > 0;
    }
    forall i | 0 <= i < |s.driver|
      ensures s.driver[i].kind.Fs?
    {
      CountHit(s.driver, i, OfKind(s.driver[i].kind));
      assert Outstanding(s, s.driver[i].kind) > 0;
    }
  }

  lemma NoneInFlight(s: State)
    requires s.inFlight == Count(s.driver, Accounted) == 0
    ensures forall i | 0 <= i < |s.driver| :: !s.driver[i].IsFs()
  {
    forall i | 0 <= i < |s.driver|
      ensures !s.driver[i].IsFs()
    {
      if s.driver[i].IsFs() {
        CountHit(s.driver, i, Accounted);
      }
    }
  }

  lemma StartDrain(s: State)
    requires Good(s) && s.queue != [] && DoOrdered(s).Begin?
    ensures DrainInv(StartOrdered(s))
  {
    IdleAllFs(s);
    if s.inFlight == 0 {
      NoneInFlight(s);
    }
    StartDrainFs(s);
  }

  lemma StartDrainFs(s: State)
    requires DrainInv(s) && s.orig.None? && s.queue != [] && s.queue[0].barrier
    requires forall i | 0 <= i < |s.queue| :: s.queue[i].kind.Fs?
    requires forall i | 0 <= i < |s.driver| :: s.driver[i].kind.Fs?
    requires s.inFlight == 0 ==> s.driver == []
    ensures DrainInv(StartOrdered(s))
  {
    var a := Horizon(s);
    QueueBehind(s.queue, a);
    StartQueue(s, a + 1);
  }

  lemma LeftDrain(s: State, i: nat)
    requires DrainInv(s) && i < |s.driver|
    ensures DrainInv(Left(s, i))
  {
    var t := Left(s, i);
    assert forall j | 0 <= j < |t.driver| :: t.driver[j] == if j < i then s.driver[j] else s.driver[j + 1];
  }

  lemma DrainCheckDrain(s: State)
    requires Good(s)
    ensures DrainInv(DrainCheck(s))
  {
    if Drained(s) {
      HeadSeq(s);
      NoneInFlight(s);
      DrainedDrain(s);
    }
  }

  lemma DrainedDrain(s: State)
    requires DrainInv(s) && Drained(s) && s.ordseq.started
    requires s.queue[0].kind.Fs? ==> s.queue[0].epoch >= Horizon(s)
    requires forall i | 0 <= i < |s.driver| :: !s.driver[i].IsFs()
    ensures DrainInv(CompleteSeq(s, s.ordseq.(drain := true), 0))
  {
    assert forall i | 0 <= i < |s.queue| :: Rank(Horizon(s), s.queue[0]) <= Rank(Horizon(s), s.queue[i]);
  }

  /** The proxy in hand is the only request of its phase, and no other proxy has been handed out. */
  lemma NoOtherProxy(s: State, k: Kind)
    requires InvDuring(s, k) && DrainInv(s) && k != Fs && s.orig.Some? && CurSeq(s.ordseq) == SeqOf(k)
    ensures forall i | 0 <= i < |s.queue| :: !s.queue[i].kind.Fs? ==> !s.queue[i].started
    ensures forall i | 0 <= i < |s.driver| :: s.driver[i].kind.Fs?
    ensures CurSeq(PhaseDone(s.ordseq, k)) == ORDSEQ_DONE ==> forall i | 0 <= i < |s.queue| :: s.queue[i].kind.Fs?
  {
    forall i | 0 <= i < |s.queue|
      ensures !s.queue[i].kind.Fs? ==> !s.queue[i].started
      ensures CurSeq(PhaseDone(s.ordseq, k)) == ORDSEQ_DONE ==> s.queue[i].kind.Fs?
    {
      CountHit(s.queue, i, OfKind(s.queue[i].kind));
      assert Outstanding(s, s.queue[i].kind) > 0;
      assert InPhase(s.queue[i], s.ordseq);
    }
    forall i | 0 <= i < |s.driver|
      ensures s.driver[i].kind.Fs?
    {
      CountHit(s.driver, i, OfKind(s.driver[i].kind));
      assert Outstanding(s, s.driver[i].kind) > 0;
      assert InPhase(s.driver[i], s.ordseq);
    }
  }

  lemma PhaseDoneDrain(s: State, k: Kind, error: int)
    requires DrainInv(s) && k != Fs && s.orig.Some? && s.ordseq.started && CurSeq(s.ordseq) == SeqOf(k)
    requires forall i | 0 <= i < |s.queue| :: !s.queue[i].kind.Fs? ==> !s.queue[i].started
    requires forall i | 0 <= i < |s.driver| :: s.driver[i].kind.Fs?
    ensures DrainInv(CompleteSeq(s, PhaseDone(s.ordseq, k), error))
  {
    assert s.ordseq.drain;
    var t := CompleteSeq(s, PhaseDone(s.ordseq, k), error);
    var a := Horizon(s);
    if t.orig.None? {
      forall i | 0 <= i < |t.queue|
        ensures PlaceOk(t.queue, a, false, i)
      {
        assert PlaceOk(s.queue, a, true, i);
      }
    }
  }

  lemma CompleteDrain(s: State, i: nat, error: int)
    requires Good(s) && i < |s.driver|
    ensures DrainInv(CompleteStep(s, i, error))
  {
    var r := s.driver[i];
    LeftDrain(s, i);
    var t := Left(s, i);
    if r.kind.Fs? {
      FsLeft(s, i, error);
      DrainCheckDrain(t.(ended := t.ended + [Ended(r.id, error)]));
    } else {
      PhaseIsOpen(s, i);
      ProxyLeft(s, i);
      assert InPhase(r, s.ordseq);
      NoOtherProxy(t, r.kind);
      PhaseDoneDrain(t, r.kind, error);
    }
  }

  lemma PullDrain(s: State)
    requires Good(s) && s.queue != []
    ensures DrainInv(Next(s))
  {
    if DoOrdered(s).Begin? {
      StartKeeps(s);
      StartDrain(s);
      if HandsOut(s) {
        FirstPhase(s);
        HandOutDrain(StartOrdered(s));
      }
    } else if HandsOut(s) {
      HandOutDrain(s);
    }
  }

  /** A sequence that starts on a drained queue hands out its first proxy at once. */
  lemma FirstPhase(s: State)
    requires s.queue != [] && DoOrdered(s).Begin? && StartOrdered(s).ordseq.drain && !s.mode.tag
    ensures StartOrdered(s).queue != [] && DoOrdered(StartOrdered(s)).HandOut?
    ensures !StartOrdered(s).queue[0].kind.Fs?
  {
  }

  lemma StepGood(s: State, e: Event)
    requires Good(s) && Enabled(s, e)
    ensures Good(Step(s, e))
  {
    StepKeeps(s, e);
    match e
    case Submit(barrier, soft, sort) => SubmitDrain(s, barrier, soft, sort);
    case Dispatch(i, p) => DispatchDrain(s, i, p);
    case Pull => PullDrain(s);
    case Dequeue(i) => DequeueDrain(s, i);
    case Requeue(i) => RequeueDrain(s, i);
    case Complete(i, error) => CompleteDrain(s, i, error);
  }

  lemma {:induction false} RunGood(s: State, run: seq<Event>)
    requires Good(s) && CanRun(s, run)
    ensures Good(Run(s, run))
    decreases |run|
  {
    if run != [] {
      StepGood(s, run[0]);
      RunGood(Step(s, run[0]), run[1..]);
    }
  }
}
