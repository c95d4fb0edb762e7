/** block/cfq-iosched.c: the bookkeeping holds between any two operations of any run. */
module CfqTheorems {
  import opened Sequences
  import opened CfqQueue
  import opened CfqLists
  import opened CfqData

  ghost predicate Others(queues: seq<Queue>, i: nat) {
    forall j | 0 <= j < |queues| && j != i :: Sound(queues[j], j)
  }

  /** From the parts of MidInv. */
  lemma MidFromParts(s: State, i: nat, lacking: multiset<nat>, surplus: multiset<nat>)
    requires Base(s) && i < |s.queues| && Others(s.queues, i) && Loose(s.queues[i], i, lacking, surplus)
    ensures MidInv(s, i, lacking, surplus)
  {
  }

  lemma OthersPut(queues: seq<Queue>, i: nat, q: Queue)
    requires i < |queues| && Others(queues, i)
    ensures Others(queues[i := q], i)
  {
  }

  lemma BasePut(s: State, i: nat, q: Queue)
    requires Base(s) && i < |s.queues|
    requires q.onRr == s.queues[i].onRr && q.onDispatch == s.queues[i].onDispatch && q.ioprio < BUSY_RR
    ensures Base(Put(s, i, q))
  {
    RrSame(s.queues, s.lists, s.busy, i, q);
    OutOkSame(s.queues, s.out, i, q);
  }

  lemma BaseDelRr(s: State, i: nat)
    requires Base(s) && i < |s.queues| && s.queues[i].onRr
    ensures Base(DelRr(s, i)) && s.busy > 0
  {
    var q := s.queues[i].(onRr := false);
    RrDel(s.queues, s.lists, s.busy, i, q);
    OutOkSame(s.queues, s.out, i, q);
  }

  lemma BaseAddRr(s: State, i: nat)
    requires Base(s) && i < |s.queues| && !s.queues[i].onRr
    ensures Base(AddRr(s, i))
  {
    var q := s.queues[i].(onRr := true);
    RrAdd(s.queues, s.lists, s.busy, i, q);
    OutOkSame(s.queues, s.out, i, q);
  }

  /** Settle restores that on_rr means having requests. */
  lemma SettleKeeps(s: State, i: nat, lacking: multiset<nat>, surplus: multiset<nat>)
    requires MidInv(s, i, lacking, surplus)
    ensures var r := Settle(s, i);
      && MidInv(r, i, lacking, surplus)
      && (r.queues[i].onRr <==> r.queues[i].tree != [])
  {
    var r := Settle(s, i);
    if s.queues[i].onRr && s.queues[i].tree == [] {
      BaseDelRr(s, i);
      OthersPut(s.queues, i, r.queues[i]);
      assert Loose(r.queues[i], i, lacking, surplus);
    }
    MidFromParts(r, i, lacking, surplus);
  }

  lemma SendKeeps(s: State, i: nat, k: nat, surplus: multiset<nat>)
    requires MidInv(s, i, multiset{}, surplus) && k < |s.queues[i].tree|
    ensures MidInv(s.(queues := s.queues[i := Send(s.head, s.queues[i], k)], out := s.out + [s.queues[i].tree[k]]),
                   i, multiset{}, surplus)
  {
    var q, c := s.queues[i], s.queues[i].tree[k];
    var q' := Send(s.head, q, k);
    var s' := s.(queues := s.queues[i := q'], out := s.out + [c]);
    SendCore(s.head, q, i, k);
    SendFifo(s.head, q, k, surplus);
    RrSame(s.queues, s.lists, s.busy, i, q');
    assert c.queue == i;
    OutOkSend(s.queues, s.out, i, q', c);
    OthersPut(s.queues, i, q');
    assert Loose(q', i, multiset{}, surplus);
    MidFromParts(s', i, multiset{}, surplus);
  }

  lemma DispatchKeeps(s: State, i: nat, k: nat, surplus: multiset<nat>)
    requires MidInv(s, i, multiset{}, surplus) && k < |s.queues[i].tree|
    ensures var r := DispatchInsert(s, i, k);
      && MidInv(r, i, multiset{}, surplus)
      && (r.queues[i].onRr <==> r.queues[i].tree != [])
  {
    SendKeeps(s, i, k, surplus);
    SettleKeeps(s.(queues := s.queues[i := Send(s.head, s.queues[i], k)], out := s.out + [s.queues[i].tree[k]]),
                i, multiset{}, surplus);
  }

  lemma SendAliasKeeps(s: State, i: nat, sector: nat, surplus: multiset<nat>)
    requires MidInv(s, i, multiset{}, surplus)
    ensures MidInv(SendAlias(s, i, sector), i, multiset{}, surplus)
    ensures !HasAlias(SendAlias(s, i, sector).queues[i].tree, sector)
  {
    var t := s.queues[i].tree;
    if HasAlias(t, sector) {
      DispatchKeeps(s, i, Place(t, sector), surplus);
      SendClearsAlias(s.head, s.queues[i], sector);
    }
  }

  lemma LinkInKeeps(s: State, i: nat, c: Crq, surplus: multiset<nat>)
    requires MidInv(s, i, multiset{}, surplus) && c.queue == i && !HasAlias(s.queues[i].tree, c.sector)
    ensures MidInv(LinkIn(s, i, c), i, multiset{c.id}, surplus)
    ensures LinkIn(s, i, c).queues[i].onRr && c in LinkIn(s, i, c).queues[i].tree
  {
    var q := Link(s.queues[i], c);
    var s1 := Put(s, i, q);
    BasePut(s, i, q);
    OthersPut(s.queues, i, q);
    var s2 := if s1.queues[i].onRr then s1 else AddRr(s1, i);
    if !s1.queues[i].onRr {
      BaseAddRr(s1, i);
      OthersPut(s1.queues, i, s2.queues[i]);
    }
    var q2 := s2.queues[i];
    var q3 := q2.(next := Choose(s.head, q2.next, Some(c)));
    BasePut(s2, i, q3);
    OthersPut(s2.queues, i, q3);
    LinkedLoose(s.head, s.queues[i], i, c, surplus, q3);
    MidFromParts(Put(s2, i, q3), i, multiset{c.id}, surplus);
  }

  lemma LinkedLoose(h: Head, q: Queue, i: nat, c: Crq, surplus: multiset<nat>, r: Queue)
    requires Loose(q, i, multiset{}, surplus) && c.queue == i && !HasAlias(q.tree, c.sector)
    requires r == Link(q, c).(onRr := true, next := Choose(h, Link(q, c).next, Some(c)))
    ensures Loose(r, i, multiset{c.id}, surplus) && c in r.tree
  {
    LinkCore(h, q, i, c);
    LinkFifo(q, c, surplus);
    assert r.tree[Place(q.tree, c.sector)] == c;
  }

  lemma AddCrqKeeps(s: State, i: nat, c: Crq, surplus: multiset<nat>)
    requires MidInv(s, i, multiset{}, surplus) && c.queue == i
    ensures MidInv(AddCrq(s, i, c), i, multiset{c.id}, surplus)
    ensures AddCrq(s, i, c).queues[i].onRr && c in AddCrq(s, i, c).queues[i].tree
  {
    SendAliasKeeps(s, i, c.sector, surplus);
    LinkInKeeps(SendAlias(s, i, c.sector), i, c, surplus);
  }

  // ---- every operation keeps the invariant -----------------------------------------------------------

  lemma InvIsMid(s: State, i: nat)
    requires Inv(s) && i < |s.queues|
    ensures MidInv(s, i, multiset{}, multiset{})
  {
    assert Sound(s.queues[i], i);
  }

  lemma MidIsInv(s: State, i: nat)
    requires MidInv(s, i, multiset{}, multiset{}) && (s.queues[i].onRr <==> s.queues[i].tree != [])
    ensures Inv(s)
  {
    assert Sound(s.queues[i], i);
  }

  lemma InsertKeeps(s: State, i: nat, c: Crq)
    requires Inv(s) && i < |s.queues| && c.queue == i
    ensures Inv(InsertRequest(s, i, c))
  {
    InvIsMid(s, i);
    AddCrqKeeps(s, i, c, multiset{});
    var s1 := AddCrq(s, i, c);
    var q := s1.queues[i];
    var q' := q.(fifo := q.fifo + [c.id], next := Choose(s.head, q.next, Some(c)));
    BasePut(s1, i, q');
    OthersPut(s1.queues, i, q');
    assert multiset(q'.fifo) == multiset(q.fifo) + multiset{c.id};
    assert Loose(q', i, multiset{}, multiset{});
    MidFromParts(Put(s1, i, q'), i, multiset{}, multiset{});
    MidIsInv(Put(s1, i, q'), i);
  }

  /** Without the request that is to be repositioned only its fifo place is left over. */
  lemma FrontMergeMid(s: State, i: nat, k: nat)
    requires Inv(s) && i < |s.queues| && k < |s.queues[i].tree|
    ensures s.queues[i].tree[k].queue == i
    ensures MidInv(Put(s, i, Detach(s.head, s.queues[i], k)), i, multiset{}, multiset{s.queues[i].tree[k].id})
  {
    InvIsMid(s, i);
    var q := s.queues[i];
    var q' := Detach(s.head, q, k);
    DetachCore(s.head, q, i, k);
    DetachFifo(s.head, q, k);
    BasePut(s, i, q');
    OthersPut(s.queues, i, q');
    MidFromParts(Put(s, i, q'), i, multiset{}, multiset{q.tree[k].id});
  }

  lemma FrontMergeKeeps(s: State, i: nat, k: nat, sector: nat)
    requires Inv(s) && i < |s.queues| && k < |s.queues[i].tree|
    ensures Inv(FrontMerge(s, i, k, sector))
  {
    FrontMergeMid(s, i, k);
    var q, id := s.queues[i], s.queues[i].tree[k].id;
    var s1 := Put(s, i, Detach(s.head, q, k));
    var c := q.tree[k].(sector := sector);
    AddCrqKeeps(s1, i, c, multiset{id});
    var r := AddCrq(s1, i, c);
    Balanced(r.queues[i], id);
    MidFromParts(r, i, multiset{}, multiset{});
    MidIsInv(r, i);
  }

  lemma DetachFifo(h: Head, q: Queue, k: nat)
    requires k < |q.tree| && FifoOk(q, multiset{}, multiset{})
    ensures FifoOk(Detach(h, q, k), multiset{}, multiset{q.tree[k].id})
  {
    var ids := Ids(q.tree);
    RemoveAtCounts(ids, k);
    assert Ids(RemoveAt(q.tree, k)) == RemoveAt(ids, k);
  }

  lemma Balanced(q: Queue, id: nat)
    requires FifoOk(q, multiset{id}, multiset{id})
    ensures FifoOk(q, multiset{}, multiset{})
  {
    var a, b := multiset(q.fifo), multiset(Ids(q.tree));
    forall y: nat ensures a[y] == b[y] {
      assert (a + multiset{id})[y] == (b + multiset{id})[y];
    }
  }

  /** Two different requests of the tree have two places in the fifo. */
  lemma TwoPlaces(q: Queue, k: nat, m: nat)
    requires FifoOk(q, multiset{}, multiset{}) && k < |q.tree| && m < |q.tree| && k != m
    ensures q.tree[k].id in q.fifo && q.tree[m].id in RemoveFirst(q.fifo, q.tree[k].id)
  {
    FifoHas(q, k, multiset{});
    var ids := Ids(q.tree);
    RemoveAtCounts(ids, k);
    assert RemoveAt(ids, k)[if m < k then m else m - 1] == ids[m];
    RemoveFirstCounts(q.fifo, ids[k]);
    var a, b := multiset(RemoveAt(ids, k)), multiset(RemoveFirst(q.fifo, ids[k]));
    assert multiset(q.fifo) == multiset(q.fifo) + multiset{} && multiset(ids) == multiset(ids) + multiset{};
    assert (a + multiset{ids[k]})[ids[m]] == (b + multiset{ids[k]})[ids[m]];
    assert ids[m] in a;
    assert ids[m] in b;
  }

  lemma MergeKeeps(s: State, i: nat, k: nat, m: nat, older: bool)
    requires Inv(s) && i < |s.queues| && k < |s.queues[i].tree| && m < |s.queues[i].tree| && k != m
    ensures Inv(MergeRequests(s, i, k, m, older))
  {
    InvIsMid(s, i);
    var q := s.queues[i];
    var a, b := q.tree[k].id, q.tree[m].id;
    var q1 := if older then q.(fifo := MoveBehind(RemoveFirst(q.fifo, a), a, b)) else q;
    if older {
      TwoPlaces(q, k, m);
      TakeOverCounts(q.fifo, a, b);
    }
    assert FifoOk(q1, multiset{}, multiset{});
    FifoHas(q1, m, multiset{});
    RemoveFifo(s.head, q1, m, multiset{}, multiset{});
    var q2 := Remove(s.head, q1, m);
    DetachCore(s.head, q1.(fifo := RemoveFirst(q1.fifo, b)), i, m);
    BasePut(s, i, q2);
    OthersPut(s.queues, i, q2);
    MidFromParts(Put(s, i, q2), i, multiset{}, multiset{});
    SettleKeeps(Put(s, i, q2), i, multiset{}, multiset{});
    MidIsInv(Settle(Put(s, i, q2), i), i);
  }

  lemma RefileBase(s: State, i: nat, class_: Class, ioprio: nat, serviceLast: nat, preempted: bool)
    requires Base(s) && i < |s.queues| && ioprio < BUSY_RR
    ensures Base(Refile(s, i, class_, ioprio, serviceLast, preempted))
  {
    var q := s.queues[i].(class_ := class_, ioprio := ioprio, serviceLast := serviceLast);
    BasePut(s, i, q);
    if q.onRr {
      RrResort(s.queues[i := q], s.lists, s.busy, i, preempted);
    }
  }

  lemma RefileKeeps(s: State, i: nat, class_: Class, ioprio: nat, serviceLast: nat, preempted: bool)
    requires Inv(s) && i < |s.queues| && ioprio < BUSY_RR
    ensures Inv(Refile(s, i, class_, ioprio, serviceLast, preempted))
  {
    RefileBase(s, i, class_, ioprio, serviceLast, preempted);
    var r := Refile(s, i, class_, ioprio, serviceLast, preempted);
    forall j | 0 <= j < |r.queues| ensures Sound(r.queues[j], j) {
      assert Sound(s.queues[j], j);
    }
  }

  /** A completed request was counted in on_dispatch[]. */
  lemma CompleteKeeps(s: State, k: nat, now: nat)
    requires Inv(s) && k < |s.out| && s.out[k].queue < |s.queues|
    ensures Inv(Complete(s, k, now))
    ensures s.queues[s.out[k].queue].onDispatch.At(s.out[k].sync) > 0
  {
    var i := s.out[k].queue;
    var q := s.queues[i].(onDispatch := s.queues[i].onDispatch.Add(s.out[k].sync, -1));
    var s1 := s.(queues := s.queues[i := q], out := RemoveAt(s.out, k));
    RrSame(s.queues, s.lists, s.busy, i, q);
    OutOkDone(s.queues, s.out, k, q);
    OutOfRemove(s.out, k, i);
    assert Base(s1);
    forall j | 0 <= j < |s1.queues| ensures Sound(s1.queues[j], j) {
      assert Sound(s.queues[j], j);
    }
    if q.Dispatched() == 0 && q.onRr {
      RefileKeeps(s1, i, q.class_, q.ioprio, now, false);
    }
  }

  lemma NewQueueKeeps(s: State, class_: Class, ioprio: nat)
    requires Inv(s) && ioprio < BUSY_RR
    ensures Inv(s.(queues := s.queues + [EmptyQueue(class_, ioprio)]))
  {
    var r := s.(queues := s.queues + [EmptyQueue(class_, ioprio)]);
    forall id: nat ensures OnRr(r.queues, id) == OnRr(s.queues, id) {
    }
    NobodyOut(s.out, |s.queues|);
    assert OutOk(r.queues, r.out);
    forall j | 0 <= j < |r.queues| ensures Sound(r.queues[j], j) {
      assert j < |s.queues| ==> Sound(s.queues[j], j);
    }
  }

  lemma {:induction false} NobodyOut(out: seq<Crq>, n: nat)
    requires forall c | c in out :: c.queue < n
    ensures OutOf(out, n) == Two(0, 0)
  {
    if out != [] {
      assert out[0] in out;
      NobodyOut(out[1..], n);
    }
  }

  lemma StepKeeps(s: State, e: Event)
    requires Inv(s) && Enabled(s, e)
    ensures Inv(Step(s, e))
  {
    match e
    case NewQueue(c, p) => NewQueueKeeps(s, c, p);
    case Insert(i, c) => InsertKeeps(s, i, c);
    case Grow(i, k, sector) => FrontMergeKeeps(s, i, k, sector);
    case Merge(i, k, m, older) => MergeKeeps(s, i, k, m, older);
    case Dispatch(i, k) =>
      InvIsMid(s, i);
      DispatchKeeps(s, i, k, multiset{});
      MidIsInv(DispatchInsert(s, i, k), i);
    case Done(k, now) => CompleteKeeps(s, k, now);
    case File(i, c, p, t, pre) => RefileKeeps(s, i, c, p, t, pre);
    case NextLevel(l) => RrSplice(s.queues, s.lists, s.busy, l);
  }

  // ---- runs ------------------------------------------------------------------------------------------

  ghost predicate CanRun(s: State, es: seq<Event>)
    decreases |es|
  {
    es == [] || (Shape(s) && Enabled(s, es[0]) && CanRun(Step(s, es[0]), es[1..]))
  }

  ghost function Run(s: State, es: seq<Event>): State
    requires CanRun(s, es)
    decreases |es|
  {
    if es == [] then s else Run(Step(s, es[0]), es[1..])
  }

  function Start(h: Head): State {
    State(h, [], [[], [], [], [], [], [], [], [], [], [], []], 0, [])
  }

  lemma {:induction false} EmptyListsHaveNoMembers(lists: seq<seq<nat>>)
    requires forall l | 0 <= l < |lists| :: lists[l] == []
    ensures Members(lists) == multiset{}
  {
    if lists != [] {
      EmptyListsHaveNoMembers(lists[1..]);
    }
  }

  lemma StartInv(h: Head)
    ensures Inv(Start(h))
  {
    EmptyListsHaveNoMembers(Start(h).lists);
  }

  lemma {:induction false} RunKeeps(s: State, es: seq<Event>)
    requires Inv(s) && CanRun(s, es)
    ensures Inv(Run(s, es))
    decreases |es|
  {
    if es != [] {
      StepKeeps(s, es[0]);
      RunKeeps(Step(s, es[0]), es[1..]);
    }
  }

  /** In every reachable state: next_crq is NULL iff the tree is empty, on_rr holds iff it is not, the
  counters count, and the fifo holds the requests of the tree. */
  lemma Bookkeeping(h: Head, es: seq<Event>, i: nat)
    requires CanRun(Start(h), es) && i < |Run(Start(h), es).queues|
    ensures var s := Run(Start(h), es); var q := s.queues[i];
      && (q.next == None <==> q.tree == [])
      && (q.onRr <==> q.tree != [])
      && q.queued == Two(CountKind(q.tree, true), CountKind(q.tree, false))
      && multiset(q.fifo) == multiset(Ids(q.tree))
      && q.onDispatch == OutOf(s.out, i)
  {
    StartInv(h);
    RunKeeps(Start(h), es);
    QueueFacts(Run(Start(h), es), i);
  }

  lemma QueueFacts(s: State, i: nat)
    requires Inv(s) && i < |s.queues|
    ensures var q := s.queues[i];
      && (q.next == None <==> q.tree == [])
      && (q.onRr <==> q.tree != [])
      && q.queued == Two(CountKind(q.tree, true), CountKind(q.tree, false))
      && multiset(q.fifo) == multiset(Ids(q.tree))
      && q.onDispatch == OutOf(s.out, i)
  {
    var q := s.queues[i];
    assert Sound(q, i);
    var a, b := multiset(q.fifo), multiset(Ids(q.tree));
    assert a == a + multiset{} && b == b + multiset{};
  }

  /** How many queues have requests. */
  function Busy(queues: seq<Queue>): nat {
    if queues == [] then 0
    else Busy(queues[..|queues| - 1]) + if queues[|queues| - 1].tree != [] then 1 else 0
  }

  lemma {:induction false} CountMembers(m: multiset<nat>, queues: seq<Queue>)
    requires forall id: nat :: m[id] == if id < |queues| && queues[id].tree != [] then 1 else 0
    ensures |m| == Busy(queues)
    decreases |queues|
  {
    if queues == [] {
      assert m == multiset{};
    } else {
      var n := |queues| - 1;
      CountMembers(m[n := 0], queues[..n]);
      assert m == m[n := 0][n := m[n]];
    }
  }

  lemma OnOneList(s: State, id: nat)
    requires Inv(s)
    ensures Members(s.lists)[id] == if id < |s.queues| && s.queues[id].tree != [] then 1 else 0
  {
    if id < |s.queues| {
      assert Sound(s.queues[id], id);
    }
  }

  /** busy_queues is the number of queues with requests, and each of these is on exactly one list, the
  others on none. */
  ghost predicate BusyCounted(s: State) {
    && s.busy == Busy(s.queues)
    && forall id: nat :: Members(s.lists)[id] == if id < |s.queues| && s.queues[id].tree != [] then 1 else 0
  }

  lemma BusyOf(s: State)
    requires Inv(s)
    ensures BusyCounted(s)
  {
    forall id: nat
      ensures Members(s.lists)[id] == if id < |s.queues| && s.queues[id].tree != [] then 1 else 0
    {
      OnOneList(s, id);
    }
    CountMembers(Members(s.lists), s.queues);
  }

  lemma BusyQueues(h: Head, es: seq<Event>)
    requires CanRun(Start(h), es)
    ensures BusyCounted(Run(Start(h), es))
  {
    StartInv(h);
    RunKeeps(Start(h), es);
    BusyOf(Run(Start(h), es));
  }
}
