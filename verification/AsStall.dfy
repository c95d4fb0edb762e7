/** block/as-iosched.c: a run after which the scheduler waits for a request that is not at the driver.

A read without an io_context is dispatched while the context of an earlier read is still noted, whose time
is over. as_move_to_dispatch clears ioc_finished but copy_io_context leaves the old context in place, whose
requests have all completed. A read of a third process that is out of reach is then held back.
*/
module AsStall {
  import opened Sequences
  import opened AsSort
  import opened AsBatch
  import opened AsTheorems
  import opened AsHistory

  /** Between operations with at most one read queued or at the driver, and no writes. */
  predicate Quiet(s: State, queued: seq<Arq>, out: seq<Out>, ioc: Option<nat>, finished: bool) {
    && |queued| <= 1
    && s.sync.tree == queued && s.sync.fifo == Keys(queued)
    && s.sync.next == (if queued == [] then None else Some(queued[0].sector))
    && s.async.tree == [] && s.async.fifo == [] && s.async.next == None
    && s.status == Off && s.ioc == ioc && s.iocFinished == finished && !s.changedBatch
    && s.out == out && s.nrDispatched == |out|
  }

  /** e is an event of the code that leads from s and h to t and g. */
  ghost predicate Leads(hz: Hz, c: Config, s: State, h: History, e: Event, t: State, g: History) {
    Enabled(s, e) && Truthful(hz, c, s, h, e) && Step(c, s, e) == t && Track(hz, c, s, h, e) == g
  }

  // ---- the steps -----------------------------------------------------------------------------------------

  lemma ReadArrives(hz: Hz, c: Config, s: State, h: History, ioc: Option<nat>, finished: bool, a: Arq, now: nat)
      returns (t: State, g: History)
    requires Quiet(s, [], [], ioc, finished) && a.expires == now + c.fifoExpireSync
    ensures Leads(hz, c, s, h, Arrive(true, a, now, false), t, g) && g == Counted(hz, h, true, a, now)
    ensures Quiet(t, [a], [], ioc, finished)
    ensures t.batchSync == s.batchSync && t.anticStart == s.anticStart && t.sync.last == s.sync.last
  {
    t, g := Add(c, s, true, a, now, false), Counted(hz, h, true, a, now);
    assert Linked([], a) == [a] && Keys([a]) == [a.sector];
  }

  lemma SendOnly(d: Side, a: Arq)
    requires d.tree == [a] && d.fifo == [a.sector]
    ensures Place(d.tree, a.sector) == 0
    ensures Send(d, 0).tree == [] && Send(d, 0).fifo == [] && Send(d, 0).next == None && Send(d, 0).last == a.End()
  {
  }

  /** A read is at the driver; its context is noted, if it has one. */
  predicate AtDriver(t: State, a: Arq, ioc: Option<nat>) {
    t.batchSync && t.sync.last == a.End() && Quiet(t, [], [Out(true, a.ioc)], if a.ioc.Some? then a.ioc else ioc, false)
  }

  lemma ReadMoves(s: State, a: Arq, ioc: Option<nat>, finished: bool)
    requires Quiet(s, [a], [], ioc, finished) && s.batchSync
    ensures AtDriver(MoveToDispatch(s, true, 0), a, ioc)
  {
    assert s.sync.fifo == [a.sector];
    SendOnly(s.sync, a);
    assert Keys([]) == [];
  }

  lemma ReadLaunched(c: Config, s: State, a: Arq, ioc: Option<nat>, finished: bool, now: nat)
    requires Quiet(s.(changedBatch := false), [a], [], ioc, finished) && s.batchSync
    ensures Launch(c, s, a.sector, now).1 && AtDriver(Launch(c, s, a.sector, now).0, a, ioc)
  {
    var s1 := BeginBatch(c, s, now);
    assert s1.sync.fifo == [a.sector];
    SendOnly(s1.sync, a);
    ReadMoves(s1, a, ioc, finished);
  }

  lemma NotExpired(c: Config, s: State, a: Arq, now: nat)
    requires s.sync.tree == [a] && s.sync.fifo == [a.sector] && a.expires >= now
    ensures !FifoExpired(c, s, true, now)
  {
    SendOnly(s.sync, a);
  }

  lemma KeyLaunched(c: Config, s: State, a: Arq, ioc: Option<nat>, finished: bool, now: nat)
    requires Quiet(s.(changedBatch := false), [a], [], ioc, finished) && s.batchSync && a.expires >= now
    ensures DispatchKey(c, s, a.sector, now).1 && AtDriver(DispatchKey(c, s, a.sector, now).0, a, ioc)
  {
    assert s.sync.fifo == [a.sector];
    NotExpired(c, s, a, now);
    ReadLaunched(c, Checked(c, s, true, now), a, ioc, finished, now);
  }

  /** The first read of all starts a batch. */
  lemma FirstDispatch(hz: Hz, c: Config, s: State, h: History, a: Arq, now: nat) returns (t: State, g: History)
    requires Quiet(s, [a], [], None, false) && !s.batchSync && a.expires >= now
    ensures Leads(hz, c, s, h, DispatchOne(now, false), t, g) && AtDriver(t, a, None) && g == Sent(h, a.ioc)
  {
    var s1 := ToReads(s, now);
    assert s.sync.fifo == [a.sector];
    KeyLaunched(c, s1, a, None, false, now);
    t, g := DispatchKey(c, s1, a.sector, now).0, Sent(h, a.ioc);
  }

  lemma BatchRuns(c: Config, s: State, a: Arq, ioc: Option<nat>, finished: bool, now: nat, breaks: bool)
    requires Quiet(s, [a], [], ioc, finished) && s.batchSync
    ensures Dispatch(c, s, now, breaks) == RunBatch(c, s, now, breaks)
  {
    assert s.sync.fifo == [a.sector];
  }

  lemma BatchGoesOn(c: Config, s: State, a: Arq, ioc: Option<nat>, finished: bool, now: nat)
    requires Quiet(s, [a], [], ioc, finished) && s.batchSync
    ensures Continue(c, s, now) == DispatchKey(c, Renewed(c, s, now), a.sector, now)
    ensures Quiet(Renewed(c, s, now), [a], [], ioc, finished) && Renewed(c, s, now).batchSync
  {
  }

  /** Anticipation is broken, and the batch goes on. */
  lemma NotHeldBack(c: Config, s: State, a: Arq, ioc: Option<nat>, finished: bool, now: nat, breaks: bool) returns (s1: State)
    requires Quiet(s, [a], [], ioc, finished) && s.batchSync && a.expires >= now
    requires breaks || (finished && Elapsed(now, s.anticStart) >= c.anticExpire)
    ensures Quiet(s1, [a], [], ioc, finished) && s1.batchSync
    ensures Dispatch(c, s, now, breaks) == DispatchKey(c, s1, a.sector, now)
  {
    assert s.sync.fifo == [a.sector];
    NotExpired(c, s, a, now);
    BatchRuns(c, s, a, ioc, finished, now, breaks);
    var s0 := if c.anticExpire != 0 then Checked(c, s, true, now) else s;
    assert RunBatch(c, s, now, breaks) == Continue(c, s0, now);
    BatchGoesOn(c, s0, a, ioc, finished, now);
    s1 := Renewed(c, s0, now);
  }

  lemma BreakingDispatch(c: Config, s: State, a: Arq, ioc: Option<nat>, finished: bool, now: nat, breaks: bool)
    requires Quiet(s, [a], [], ioc, finished) && s.batchSync && a.expires >= now
    requires breaks || (finished && Elapsed(now, s.anticStart) >= c.anticExpire)
    ensures var r := Dispatch(c, s, now, breaks); r.1 && AtDriver(r.0, a, ioc)
  {
    var s1 := NotHeldBack(c, s, a, ioc, finished, now, breaks);
    assert s1.(changedBatch := false) == s1;
    KeyLaunched(c, s1, a, ioc, finished, now);
  }

  /** A read that comes when the time of the noted process is over. */
  lemma LateDispatch(hz: Hz, c: Config, s: State, h: History, a: Arq, ioc: Option<nat>, now: nat)
      returns (t: State, g: History)
    requires Quiet(s, [a], [], ioc, true) && s.batchSync && a.expires >= now
    requires Elapsed(now, s.anticStart) >= c.anticExpire
    ensures Leads(hz, c, s, h, DispatchOne(now, false), t, g) && AtDriver(t, a, ioc) && g == Sent(h, a.ioc)
  {
    BreakingDispatch(c, s, a, ioc, true, now, false);
    t, g := Dispatch(c, s, now, false).0, Sent(h, a.ioc);
  }

  lemma ReadCompletes(hz: Hz, c: Config, s: State, h: History, o: Out, ioc: Option<nat>, now: nat)
      returns (t: State, g: History)
    requires Quiet(s, [], [o], ioc, false) && s.batchSync
    ensures Leads(hz, c, s, h, Done(0, now), t, g) && g == Back(h, o, now)
    ensures t.batchSync && Quiet(t, [], [], ioc, ioc.Some? && o.ioc == ioc) && t.sync.last == s.sync.last
    ensures ioc.Some? && o.ioc == ioc ==> t.anticStart == now
  {
    t, g := Complete(c, s, 0, now), Back(h, o, now);
    assert RemoveAt([o], 0) == [];
  }

  // ---- the read that may be held back ----------------------------------------------------------------------

  /** Nothing is known about processes but that this one has ended its only request. */
  predicate Young(h: History, ioc: nat) {
    && h.newThinkMean == 0 && h.newSeekMean == 0 && h.exitProb == 0 && h.exitNoCoop == 0
    && var p := h.Of(ioc);
       p.running && p.queued == 0 && p.dispatched == 0 && p.think.samples == 0 && p.seek.samples == 0
  }

  /** Nothing is known about this process. */
  predicate Unknown(h: History, ioc: nat) {
    !h.Of(ioc).ioRunning && !h.Of(ioc).ioStarted
  }

  /** The statistics are asked, and only the distance counts. */
  lemma DistanceDecides(hz: Hz, c: Config, s: State, h: History, a: Arq, ioc: nat, now: nat)
    requires c.anticExpire != 0 && Quiet(s, [a], [], Some(ioc), false) && s.batchSync && a.expires >= now
    requires a.ioc != Some(ioc) && Young(h, ioc)
    ensures DispatchAsks(c, s, now) && ArqAt(s.sync, s.sync.next) == Some(a)
    ensures Decide(hz, c, s, h, Some(a), true, now).0 == WithinReach(s.sync.last, a.sector, 8192)
  {
    assert s.sync.fifo == [a.sector];
    NotExpired(c, s, a, now);
    SendOnly(s.sync, a);
    assert Shift(8192, 0) == 8192;
  }

  lemma Stalls(c: Config, s: State, a: Arq, ioc: Option<nat>, now: nat)
    requires c.anticExpire != 0 && Quiet(s, [a], [], ioc, false) && s.batchSync && a.expires >= now
    requires ioc.Some? && a.ioc != ioc
    ensures Stalled(Dispatch(c, s, now, false).0)
  {
    assert s.sync.fifo == [a.sector];
    NotExpired(c, s, a, now);
    SendOnly(s.sync, a);
  }

  /** Waiting for the completion of a request with nothing at the driver. */
  predicate Stalled(s: State) {
    s.status == WaitReq && s.out == [] && s.Pending(true) && s.batchSync
  }

  lemma StaysStalled(c: Config, s: State, now: nat, breaks: bool)
    requires Stalled(s)
    ensures Dispatch(c, s, now, breaks) == (s, false)
  {
  }

  // ---- the run -------------------------------------------------------------------------------------------

  /** A read arrives, is dispatched and completes. */
  function OneRead(a: Arq, now: nat): seq<Event> {
    [Arrive(true, a, now, false), DispatchOne(now, false), Done(0, now)]
  }

  function LastRead(a: Arq, now: nat, breaks: bool): seq<Event> {
    [Arrive(true, a, now, false), DispatchOne(now, breaks)]
  }

  /** One read; when the time of its process is over another one; and a last one, to which the statistics say
  yes if it is within reach of the end of the second. */
  function ThreeReads(a1: Arq, now: nat, a2: Arq, a3: Arq, later: nat): seq<Event> {
    OneRead(a1, now) + (OneRead(a2, later) + LastRead(a3, later, WithinReach(a2.End(), a3.sector, 8192)))
  }

  lemma PutInFront(hz: Hz, c: Config, s: State, h: History, e: Event, t: State, g: History, es: seq<Event>, u: State, k: History)
    requires Leads(hz, c, s, h, e, t, g) && IsReal(hz, c, t, g, es, u, k)
    ensures IsReal(hz, c, s, h, [e] + es, u, k)
  {
    assert ([e] + es)[1..] == es;
  }

  lemma TwoEvents(hz: Hz, c: Config, s: State, h: History, e: Event, s1: State, h1: History, f: Event, t: State, g: History)
    requires Leads(hz, c, s, h, e, s1, h1) && Leads(hz, c, s1, h1, f, t, g)
    ensures IsReal(hz, c, s, h, [e, f], t, g)
  {
    PutInFront(hz, c, s1, h1, f, t, g, [], t, g);
    PutInFront(hz, c, s, h, e, s1, h1, [f], t, g);
    assert [f] + [] == [f] && [e] + [f] == [e, f];
  }

  lemma ThreeEvents(hz: Hz, c: Config, s: State, h: History, e: Event, s1: State, h1: History, f: Event, s2: State, h2: History,
                    k: Event, t: State, g: History)
    requires Leads(hz, c, s, h, e, s1, h1) && Leads(hz, c, s1, h1, f, s2, h2) && Leads(hz, c, s2, h2, k, t, g)
    ensures IsReal(hz, c, s, h, [e, f, k], t, g)
  {
    TwoEvents(hz, c, s1, h1, f, s2, h2, k, t, g);
    PutInFront(hz, c, s, h, e, s1, h1, [f, k], t, g);
    assert [e] + [f, k] == [e, f, k];
  }

  lemma OneReadReal(hz: Hz, c: Config, s: State, h: History, a: Arq, now: nat, s1: State, h1: History, s2: State, h2: History,
                    t: State, g: History)
    requires Leads(hz, c, s, h, Arrive(true, a, now, false), s1, h1)
    requires Leads(hz, c, s1, h1, DispatchOne(now, false), s2, h2) && Leads(hz, c, s2, h2, Done(0, now), t, g)
    ensures IsReal(hz, c, s, h, OneRead(a, now), t, g)
  {
    ThreeEvents(hz, c, s, h, Arrive(true, a, now, false), s1, h1, DispatchOne(now, false), s2, h2, Done(0, now), t, g);
  }

  /** What the first read leaves: its process is noted and has ended its request. */
  predicate FirstDone(t: State, g: History, p: nat, q: nat, now: nat) {
    t.batchSync && Quiet(t, [], [], Some(p), true) && t.anticStart == now && Young(g, p) && Unknown(g, q)
  }

  lemma HistoryOfFirst(hz: Hz, a: Arq, p: nat, q: nat, now: nat)
    requires a.ioc == Some(p) && p != q
    ensures var g := Back(Sent(Counted(hz, NO_HISTORY, true, a, now), a.ioc), Out(true, a.ioc), now);
      Young(g, p) && Unknown(g, q)
  {
  }

  lemma FirstRead(hz: Hz, c: Config, a: Arq, p: nat, q: nat, now: nat) returns (t: State, g: History)
    requires a.ioc == Some(p) && p != q && a.expires == now + c.fifoExpireSync
    ensures FirstDone(t, g, p, q, now) && IsReal(hz, c, Start(c, now), NO_HISTORY, OneRead(a, now), t, g)
  {
    var s := Start(c, now);
    assert Keys([]) == [];
    var s1, h1 := ReadArrives(hz, c, s, NO_HISTORY, None, false, a, now);
    var s2, h2 := FirstDispatch(hz, c, s1, h1, a, now);
    t, g := ReadCompletes(hz, c, s2, h2, Out(true, a.ioc), a.ioc, now);
    HistoryOfFirst(hz, a, p, q, now);
    OneReadReal(hz, c, s, NO_HISTORY, a, now, s1, h1, s2, h2, t, g);
  }

  /** What the second read leaves: the first process is still noted, as if its request were not complete. */
  predicate SecondDone(t: State, g: History, p: nat, q: nat, last: nat) {
    t.batchSync && Quiet(t, [], [], Some(p), false) && t.sync.last == last && Young(g, p) && Unknown(g, q)
  }

  lemma SecondRead(hz: Hz, c: Config, s: State, h: History, a: Arq, p: nat, q: nat, now: nat, later: nat) returns (t: State)
    requires FirstDone(s, h, p, q, now) && later >= now + c.anticExpire
    requires a.ioc == None && a.expires == later + c.fifoExpireSync
    ensures SecondDone(t, h, p, q, a.End()) && IsReal(hz, c, s, h, OneRead(a, later), t, h)
  {
    var s1, s2;
    s1, s2, t := SecondSteps(hz, c, s, h, a, p, later);
    OneReadReal(hz, c, s, h, a, later, s1, h, s2, h, t, h);
  }

  /** A read without a context leaves no trace in the statistics. */
  lemma SecondSteps(hz: Hz, c: Config, s: State, h: History, a: Arq, p: nat, now: nat) returns (s1: State, s2: State, t: State)
    requires Quiet(s, [], [], Some(p), true) && s.batchSync && Elapsed(now, s.anticStart) >= c.anticExpire
    requires a.ioc == None && a.expires == now + c.fifoExpireSync
    ensures Leads(hz, c, s, h, Arrive(true, a, now, false), s1, h)
    ensures Leads(hz, c, s1, h, DispatchOne(now, false), s2, h) && Leads(hz, c, s2, h, Done(0, now), t, h)
    ensures t.batchSync && Quiet(t, [], [], Some(p), false) && t.sync.last == a.End()
  {
    var g;
    s1, g := ReadArrives(hz, c, s, h, Some(p), true, a, now);
    s2, g := LateDispatch(hz, c, s1, h, a, Some(p), now);
    t, g := ReadCompletes(hz, c, s2, h, Out(true, None), Some(p), now);
  }

  lemma StillYoung(hz: Hz, h: History, a: Arq, p: nat, q: nat, now: nat)
    requires Young(h, p) && Unknown(h, q) && p != q && a.ioc == Some(q)
    ensures Young(Counted(hz, h, true, a, now), p)
  {
  }

  /** The last read is at the driver or held back. */
  predicate ServedOrStalled(t: State, a: Arq, near: bool) {
    if near then t.out == [Out(true, a.ioc)] && t.status == Off else Stalled(t)
  }

  lemma ThirdRead(hz: Hz, c: Config, s: State, h: History, a: Arq, p: nat, q: nat, last: nat, now: nat)
      returns (t: State, g: History)
    requires c.anticExpire != 0 && SecondDone(s, h, p, q, last) && p != q
    requires a.ioc == Some(q) && a.expires == now + c.fifoExpireSync
    ensures IsReal(hz, c, s, h, LastRead(a, now, WithinReach(last, a.sector, 8192)), t, g)
    ensures ServedOrStalled(t, a, WithinReach(last, a.sector, 8192))
  {
    var s1, h1 := ReadArrives(hz, c, s, h, Some(p), false, a, now);
    StillYoung(hz, h, a, p, q, now);
    t, g := ThirdDispatch(hz, c, s1, h1, a, p, now);
    TwoEvents(hz, c, s, h, Arrive(true, a, now, false), s1, h1, DispatchOne(now, WithinReach(last, a.sector, 8192)), t, g);
  }

  lemma ThirdDispatch(hz: Hz, c: Config, s: State, h: History, a: Arq, p: nat, now: nat) returns (t: State, g: History)
    requires c.anticExpire != 0 && Quiet(s, [a], [], Some(p), false) && s.batchSync && Young(h, p)
    requires a.ioc.Some? && a.ioc != Some(p) && a.expires >= now
    ensures Leads(hz, c, s, h, DispatchOne(now, WithinReach(s.sync.last, a.sector, 8192)), t, g)
    ensures ServedOrStalled(t, a, WithinReach(s.sync.last, a.sector, 8192))
  {
    var breaks := WithinReach(s.sync.last, a.sector, 8192);
    DistanceDecides(hz, c, s, h, a, p, now);
    if breaks {
      BreakingDispatch(c, s, a, Some(p), false, now, true);
    } else {
      Stalls(c, s, a, Some(p), now);
    }
    t, g := Dispatch(c, s, now, breaks).0, Track(hz, c, s, h, DispatchOne(now, breaks));
  }

  lemma ThreeReadsRun(hz: Hz, c: Config, a1: Arq, p: nat, now: nat, a2: Arq, a3: Arq, q: nat, later: nat)
      returns (t: State, g: History)
    requires c.anticExpire != 0 && later >= now + c.anticExpire && p != q
    requires a1.ioc == Some(p) && a1.expires == now + c.fifoExpireSync
    requires a2.ioc == None && a2.expires == later + c.fifoExpireSync
    requires a3.ioc == Some(q) && a3.expires == later + c.fifoExpireSync
    ensures IsReal(hz, c, Start(c, now), NO_HISTORY, ThreeReads(a1, now, a2, a3, later), t, g)
    ensures ServedOrStalled(t, a3, WithinReach(a2.End(), a3.sector, 8192))
  {
    var s1, h1 := FirstRead(hz, c, a1, p, q, now);
    var s2 := SecondRead(hz, c, s1, h1, a2, p, q, now, later);
    t, g := ThirdRead(hz, c, s2, h1, a3, p, q, a2.End(), later);
    JoinReads(hz, c, Start(c, now), NO_HISTORY, OneRead(a1, now), s1, h1, OneRead(a2, later), s2, h1,
              LastRead(a3, later, WithinReach(a2.End(), a3.sector, 8192)), t, g);
  }

  lemma JoinReads(hz: Hz, c: Config, s: State, h: History, a: seq<Event>, s1: State, h1: History, b: seq<Event>,
                  s2: State, h2: History, d: seq<Event>, t: State, g: History)
    requires IsReal(hz, c, s, h, a, s1, h1) && IsReal(hz, c, s1, h1, b, s2, h2) && IsReal(hz, c, s2, h2, d, t, g)
    ensures IsReal(hz, c, s, h, a + (b + d), t, g)
  {
    RealConcat(hz, c, s1, h1, b, s2, h2, d, t, g);
    RealConcat(hz, c, s, h, a, s1, h1, b + d, t, g);
  }

  /** With anticipation on: a read of one process; when its time is over a read without a context; and a read
  of a third process. Computed from the start with all statistics as the code keeps them, this run ends with
  nothing at the driver and the last read queued exactly if that is not within reach, more than 4096 sectors
  behind or 8192 ahead of the end of the second read. as_dispatch_request then waits for a completion that
  cannot come and dispatches nothing in any later call. Otherwise the last read is dispatched. */
  lemma WaitsForNothing(hz: Hz, c: Config, a1: Arq, now: nat, a2: Arq, a3: Arq, later: nat) returns (s: State, h: History)
    requires c.anticExpire != 0 && later >= now + c.anticExpire
    requires a1.ioc.Some? && a2.ioc == None && a3.ioc.Some? && a3.ioc != a1.ioc
    requires a1.expires == now + c.fifoExpireSync && a2.expires == a3.expires == later + c.fifoExpireSync
    ensures IsReal(hz, c, Start(c, now), NO_HISTORY, ThreeReads(a1, now, a2, a3, later), s, h) && Reachable(c, s)
    ensures s.status == WaitReq && s.out == [] && s.Pending(true)
       <==> a3.sector + 4096 < a2.End() || a3.sector > a2.End() + 8192
    ensures s.status == WaitReq ==> forall at: nat, breaks: bool :: Dispatch(c, s, at, breaks) == (s, false)
    ensures s.out == [] || s.out == [Out(true, a3.ioc)]
  {
    s, h := ThreeReadsRun(hz, c, a1, a1.ioc.value, now, a2, a3, a3.ioc.value, later);
    RealCanRun(hz, c, Start(c, now), NO_HISTORY, ThreeReads(a1, now, a2, a3, later), s, h);
    if s.status == WaitReq {
      forall at: nat, breaks: bool ensures Dispatch(c, s, at, breaks) == (s, false) {
        StaysStalled(c, s, at, breaks);
      }
    }
  }
}
