/** block/as-iosched.c: what holds in every run. */
module AsTheorems {
  import opened Sequences
  import opened AsSort
  import opened AsBatch

  ghost predicate CanRun(c: Config, s: State, es: seq<Event>)
    decreases |es|
  {
    es == [] || (Enabled(s, es[0]) && CanRun(c, Step(c, s, es[0]), es[1..]))
  }

  ghost function Run(c: Config, s: State, es: seq<Event>): State
    requires CanRun(c, s, es)
    decreases |es|
  {
    if es == [] then s else Run(c, Step(c, s, es[0]), es[1..])
  }

  /** as_init_queue. */
  function Start(c: Config, now: nat): State {
    State(Side([], [], None, 0), Side([], [], None, 0), Off, 0, None, false, false, false, false,
          now + c.batchExpireSync, if c.batchExpireAsync / 10 < 2 then 2 else c.batchExpireAsync / 10, 0, false, 0, 0, [], 0)
  }

  lemma {:induction false} RunKeeps(c: Config, s: State, es: seq<Event>)
    requires Inv(s) && CanRun(c, s, es)
    ensures Inv(Run(c, s, es))
    decreases |es|
  {
    if es != [] {
      StepKeeps(c, s, es[0]);
      RunKeeps(c, Step(c, s, es[0]), es[1..]);
    }
  }

  ghost predicate Reachable(c: Config, s: State) {
    exists now: nat, es: seq<Event> | CanRun(c, Start(c, now), es) :: s == Run(c, Start(c, now), es)
  }

  lemma ReachableInv(c: Config, s: State)
    requires Reachable(c, s)
    ensures Inv(s)
  {
    var now: nat, es: seq<Event> :| CanRun(c, Start(c, now), es) && s == Run(c, Start(c, now), es);
    assert Inv(Start(c, now));
    RunKeeps(c, Start(c, now), es);
  }

  /** next_arq of each direction is a queued request and the best one of the whole sort_list, although only neighbours are
  ever compared. */
  lemma LocalChoiceIsGlobal(c: Config, s: State, d: bool)
    requires Reachable(c, s)
    ensures s.Dir(d).next == None <==> s.Dir(d).tree == []
    ensures var x, tree := s.Dir(d).next, s.Dir(d).tree;
      x.Some? ==> BestOf(s.Dir(d).last, x.value, tree) && exists j | 0 <= j < |tree| :: tree[j].sector == x.value
  {
    ReachableInv(c, s);
  }

  /** Requests of the two directions are never at the driver together, and a switch that is being waited
  for has something to wait for. */
  lemma BatchesDoNotMix(c: Config, s: State)
    requires Reachable(c, s)
    ensures forall o, p | o in s.out && p in s.out :: o.sync == p.sync
    ensures s.changedBatch ==> s.nrDispatched > 0 && forall o | o in s.out :: o.sync != s.batchSync
    ensures s.nrDispatched == |s.out|
    ensures s.Waiting() ==> s.ioc.Some?
  {
    ReachableInv(c, s);
  }

  /** A device without work is never left without work: something is dispatched, or a read is being
  anticipated. */
  lemma IdleDeviceIsServed(c: Config, s: State, now: nat, breaks: bool)
    requires Reachable(c, s) && s.out == [] && (s.Pending(true) || s.Pending(false))
    ensures Dispatch(c, s, now, breaks).1 || Dispatch(c, s, now, breaks).0.Waiting()
  {
    ReachableInv(c, s);
    DispatchKeeps(c, s, now, breaks);
  }

  // ---- waiting for a request that is at the driver --------------------------------------------------------

  /** ANTIC_WAIT_REQ can be entered only while this is about a request at the driver. */
  predicate Awaited(s: State) {
    s.ioc.Some? && !s.iocFinished ==> exists k | 0 <= k < |s.out| :: s.out[k].ioc == s.ioc
  }

  predicate HasContexts(tree: seq<Arq>) {
    forall i | 0 <= i < |tree| :: tree[i].ioc.Some?
  }

  /** A dispatched read without an io_context leaves that of an earlier read in place: it is being waited
  for exactly if the new read has a context, there was none, or it has a request at the driver. */
  lemma AwaitedAfterDispatch(s: State, i: nat)
    requires i < |s.sync.tree|
    ensures Awaited(MoveToDispatch(s, true, i))
       <==> s.sync.tree[i].ioc.Some? || s.ioc == None || exists k | 0 <= k < |s.out| :: s.out[k].ioc == s.ioc
  {
    var r, a := MoveToDispatch(s, true, i), s.sync.tree[i];
    assert r.out[|s.out|].ioc == a.ioc;
    forall k | 0 <= k < |s.out| ensures r.out[k] == s.out[k] {
    }
  }

  predicate Named(s: State) {
    HasContexts(s.sync.tree) && Awaited(s)
  }

  lemma MoveNamed(s: State, d: bool, i: nat)
    requires i < |s.Dir(d).tree| && HasContexts(s.sync.tree)
    ensures Named(MoveToDispatch(s, d, i))
  {
    if d {
      AwaitedAfterDispatch(s, i);
    }
  }

  lemma LaunchNamed(c: Config, s: State, key: nat, now: nat)
    requires Named(s)
    ensures Named(Launch(c, s, key, now).0)
  {
    var s1 := BeginBatch(c, s, now);
    var i := Place(s1.Dir(s1.batchSync).tree, key);
    if i < |s1.Dir(s1.batchSync).tree| {
      MoveNamed(s1, s1.batchSync, i);
    }
  }

  lemma DispatchKeyNamed(c: Config, s: State, key: nat, now: nat)
    requires Named(s)
    ensures Named(DispatchKey(c, s, key, now).0)
  {
    var d := s.batchSync;
    LaunchNamed(c, Checked(c, s, d, now), if FifoExpired(c, s, d, now) then s.Dir(d).fifo[0] else key, now);
  }

  lemma SwitchNamed(c: Config, s: State, now: nat)
    requires Named(s)
    ensures Named(Switch(c, s, now).0)
  {
    if s.Pending(true) && !(s.Pending(false) && s.batchSync) {
      DispatchKeyNamed(c, ToReads(s, now), s.sync.fifo[0], now);
    } else if s.Pending(false) && s.async.next.Some? {
      DispatchKeyNamed(c, ToWrites(s), s.async.next.value, now);
    }
  }

  lemma ContinueNamed(c: Config, s: State, now: nat)
    requires Named(s)
    ensures Named(Continue(c, s, now).0)
  {
    var key := s.Dir(s.batchSync).next;
    if key == None {
      SwitchNamed(c, s, now);
    } else {
      DispatchKeyNamed(c, Renewed(c, s, now), key.value, now);
    }
  }

  lemma RunBatchNamed(c: Config, s: State, now: nat, breaks: bool)
    requires Named(s)
    ensures Named(RunBatch(c, s, now, breaks).0)
  {
    if s.batchSync && c.anticExpire != 0 {
      var s1 := Checked(c, s, true, now);
      if FifoExpired(c, s, true, now) {
        LaunchNamed(c, s1, s.sync.fifo[0], now);
      } else if !CanAnticipate(c, s1, ArqAt(s.sync, s.sync.next), now, breaks) {
        ContinueNamed(c, s1, now);
      }
    } else {
      ContinueNamed(c, s, now);
    }
  }

  lemma DispatchNamed(c: Config, s: State, now: nat, breaks: bool)
    requires Named(s)
    ensures Named(Dispatch(c, s, now, breaks).0)
  {
    var s1 := Idled(s);
    SwitchNamed(c, s1, now);
    RunBatchNamed(c, s1, now, breaks);
  }

  lemma CompleteFields(c: Config, s: State, k: nat, now: nat)
    requires k < |s.out|
    ensures var r := Complete(c, s, k, now);
      && r.sync == s.sync && r.out == RemoveAt(s.out, k) && r.ioc == s.ioc
      && r.iocFinished == (s.iocFinished || (s.ioc.Some? && s.ioc == s.out[k].ioc))
  {
    var s1 := EndOldBatch(s);
    var s2 := s1.(nrDispatched := s1.nrDispatched - 1, out := RemoveAt(s1.out, k));
    CountBatchFields(c, s2, s.out[k].sync, now);
  }

  lemma CountBatchFields(c: Config, s: State, sync: bool, now: nat)
    ensures var r := CountBatch(c, s, sync, now);
      r.sync == s.sync && r.out == s.out && r.ioc == s.ioc && r.iocFinished == s.iocFinished
  {
  }

  lemma CompleteNamed(c: Config, s: State, k: nat, now: nat)
    requires Named(s) && k < |s.out|
    ensures Named(Complete(c, s, k, now))
  {
    var r := Complete(c, s, k, now);
    CompleteFields(c, s, k, now);
    if r.ioc.Some? && !r.iocFinished {
      var j :| 0 <= j < |s.out| && s.out[j].ioc == s.ioc;
      assert r.out[if j < k then j else j - 1] == s.out[j];
    }
  }

  lemma AddNamed(c: Config, s: State, d: bool, a: Arq, now: nat, breaks: bool)
    requires Named(s) && (d ==> a.ioc.Some?)
    ensures Named(Add(c, s, d, a, now, breaks))
  {
    var r := Add(c, s, d, a, now, breaks);
    assert r.out == s.out && r.ioc == s.ioc && r.iocFinished == s.iocFinished;
  }

  lemma MergeNamed(s: State, d: bool, i: nat)
    requires Named(s) && i + 1 < |s.Dir(d).tree|
    ensures Named(s.With(d, Merge(s.Dir(d), i)))
  {
  }

  /** Every read has an io_context. */
  predicate ReadsNamed(e: Event) {
    e.Arrive? && e.d ==> e.a.ioc.Some?
  }

  lemma StepNamed(c: Config, s: State, e: Event)
    requires Named(s) && Enabled(s, e) && ReadsNamed(e)
    ensures Named(Step(c, s, e))
  {
    match e
    case Arrive(d, a, now, breaks) => AddNamed(c, s, d, a, now, breaks);
    case Extend(d, i, nr) =>
    case MergeNext(d, i) => MergeNamed(s, d, i);
    case DispatchOne(now, breaks) => DispatchNamed(c, s, now, breaks);
    case Done(k, now) => CompleteNamed(c, s, k, now);
    case Timeout =>
  }

  lemma {:induction false} RunNamed(c: Config, s: State, es: seq<Event>)
    requires Named(s) && CanRun(c, s, es) && forall i | 0 <= i < |es| :: ReadsNamed(es[i])
    ensures Named(Run(c, s, es))
    decreases |es|
  {
    if es != [] {
      StepNamed(c, s, es[0]);
      RunNamed(c, Step(c, s, es[0]), es[1..]);
    }
  }

  /** If every read has an io_context, ANTIC_WAIT_REQ waits for a request that is at the driver. */
  lemma WaitsForTheDriver(c: Config, now: nat, es: seq<Event>)
    requires CanRun(c, Start(c, now), es) && forall i | 0 <= i < |es| :: ReadsNamed(es[i])
    ensures var s := Run(c, Start(c, now), es);
      s.status == WaitReq ==> exists k | 0 <= k < |s.out| :: s.out[k].ioc == s.ioc
  {
    RunNamed(c, Start(c, now), es);
    assert Inv(Start(c, now));
    RunKeeps(c, Start(c, now), es);
  }
}
