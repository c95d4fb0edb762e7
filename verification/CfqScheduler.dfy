/** block/cfq-iosched.c: the operations as they update cfq_data in place. */
module CfqScheduler {
  import opened Sequences
  import opened CfqQueue
  import opened CfqLists
  import opened CfqData
  import opened CfqTheorems

  // ---- what is queued ----------------------------------------------------------------------------------

  ghost function AllQueued(queues: seq<Queue>): multiset<Crq> {
    if queues == [] then multiset{} else multiset(queues[0].tree) + AllQueued(queues[1..])
  }

  lemma {:induction false} AllQueuedUpdate(queues: seq<Queue>, i: nat, q: Queue, c: Crq)
    requires i < |queues|
    ensures AllQueued(queues[i := q])[c] + multiset(queues[i].tree)[c]
         == AllQueued(queues)[c] + multiset(q.tree)[c]
  {
    var r := queues[i := q];
    if i == 0 {
      assert r[1..] == queues[1..];
    } else {
      AllQueuedUpdate(queues[1..], i - 1, q, c);
      assert r[1..] == queues[1..][i - 1 := q];
    }
  }

  /** All requests the scheduler is responsible for. */
  ghost function Total(s: State): multiset<Crq> {
    multiset(s.out) + AllQueued(s.queues)
  }

  /** Dispatching loses nothing and dispatches nothing twice. */
  lemma DispatchConserves(s: State, i: nat, k: nat)
    requires i < |s.queues| && k < |s.queues[i].tree|
    ensures Total(DispatchInsert(s, i, k)) == Total(s)
  {
    var r, c := DispatchInsert(s, i, k), s.queues[i].tree[k];
    assert r.out == s.out + [c] && r.queues == s.queues[i := r.queues[i]];
    assert r.queues[i].tree == RemoveAt(s.queues[i].tree, k);
    RemoveAtCounts(s.queues[i].tree, k);
    forall y: Crq ensures Total(r)[y] == Total(s)[y] {
      AllQueuedUpdate(s.queues, i, r.queues[i], y);
      assert multiset(r.out)[y] == multiset(s.out)[y] + multiset{c}[y];
    }
  }

  lemma {:induction false} NothingQueued(queues: seq<Queue>)
    requires forall i | 0 <= i < |queues| :: queues[i].tree == []
    ensures AllQueued(queues) == multiset{}
  {
    if queues != [] {
      NothingQueued(queues[1..]);
    }
  }

  // ---- auxiliary ---------------------------------------------------------------------------------------

  function Counted(s: State, i: nat, sync: bool): State
    requires i < |s.queues|
  {
    Put(s, i, s.queues[i].(queued := s.queues[i].queued.Add(sync, 1)))
  }

  lemma CountedDispatch(s: State, i: nat, sync: bool, k: nat)
    requires i < |s.queues| && k < |s.queues[i].tree|
    ensures DispatchInsert(Counted(s, i, sync), i, k) == Counted(DispatchInsert(s, i, k), i, sync)
  {
    var q := s.queues[i];
    var q1 := q.(queued := q.queued.Add(sync, 1));
    assert Send(s.head, q1, k) == Send(s.head, q, k).(queued := Send(s.head, q, k).queued.Add(sync, 1));
  }

  lemma QueuedPositive(q: Queue, i: nat, k: nat)
    requires Core(q, i) && k < |q.tree|
    ensures q.queued.At(q.tree[k].sync) > 0
  {
    CountKindRemove(q.tree, k, q.tree[k].sync);
  }

  lemma {:induction false} TwoLists(lists: seq<seq<nat>>, a: nat, b: nat, id: nat)
    requires a < b < |lists| && id in lists[a] && id in lists[b]
    ensures Members(lists)[id] >= 2
  {
    if a == 0 {
      MembersHas(lists[1..], b - 1, id);
      assert multiset(lists[0])[id] >= 1;
    } else {
      TwoLists(lists[1..], a - 1, b - 1, id);
    }
  }

  lemma Refill(lists: seq<seq<nat>>, l: nat, rest: seq<nat>)
    requires l < |lists| && rest != []
    ensures lists[l := rest][l := rest[1..]] == lists[l := rest[1..]]
  {
  }

  /** A queue that leaves the front of a list leaves the other lists alone. */
  lemma TakeOutFront(queues: seq<Queue>, lists: seq<seq<nat>>, busy: int, l: nat, rest: seq<nat>)
    requires RrOk(queues, lists, busy) && l < LISTS && rest != [] && lists[l] == rest
    ensures OnRr(queues, rest[0])
    ensures TakeOut(lists, rest[0]) == lists[l := rest[1..]]
  {
    var id := rest[0];
    MembersHas(lists, l, id);
    assert Members(lists)[id] == if OnRr(queues, id) then 1 else 0;
    forall j | 0 <= j < LISTS && j != l ensures RemoveFirst(lists[j], id) == lists[j] {
      RemoveFirstCounts(lists[j], id);
      if id in lists[j] {
        TwoLists(lists, if j < l then j else l, if j < l then l else j, id);
      }
    }
  }

  // ---- struct cfq_data -----------------------------------------------------------------------------------

  class Scheduler {
    const head: Head
    var queues: seq<Queue>
    var lists: seq<seq<nat>>
    var busy: int
    var out: seq<Crq>

    ghost function Now(): State reads this {
      State(head, queues, lists, busy, out)
    }

    constructor (h: Head)
      ensures Now() == Start(h) && Inv(Now())
    {
      head := h;
      queues, lists, busy, out := [], Start(h).lists, 0, [];
      new;
      StartInv(h);
    }

    /** The loop of cfq_resort_rr_list, from the tail of the list on. */
    method SortPlace(list: seq<nat>, t: nat) returns (k: nat)
      ensures k == SortPos(queues, list, t)
    {
      k := |list|;
      assert list[..k] == list;
      while k > 0 && !ServedBefore(queues, list[k - 1], t)
        invariant k <= |list| && SortPos(queues, list[..k], t) == SortPos(queues, list, t)
      {
        assert list[..k][..k - 1] == list[..k - 1];
        k := k - 1;
      }
    }

    /** cfq_resort_rr_list. */
    method ResortRrList(i: nat, preempted: bool)
      requires Shape(Now()) && i < |queues| && queues[i].onRr
      modifies `lists
      ensures lists == Resorted(queues, old(lists), i, preempted)
    {
      var q := queues[i];
      var rest := TakeOut(lists, i);
      var l := if q.class_ == Rt then CUR_RR else if q.class_ == Idle then IDLE_RR
               else if q.Dispatched() != 0 then BUSY_RR else q.ioprio;
      var k := 0;
      if !preempted && l != BUSY_RR {
        k := SortPlace(rest[l], q.serviceLast);
      }
      lists := rest[l := rest[l][..k] + [i] + rest[l][k..]];
    }

    /** cfq_add_cfqq_rr. */
    method AddCfqqRr(i: nat)
      requires Shape(Now()) && i < |queues| && !queues[i].onRr
      modifies this
      ensures Now() == AddRr(old(Now()), i)
    {
      queues := queues[i := queues[i].(onRr := true)];
      busy := busy + 1;
      ResortRrList(i, false);
    }

    /** cfq_del_cfqq_rr. */
    method DelCfqqRr(i: nat)
      requires i < |queues| && queues[i].onRr && busy > 0
      modifies this
      ensures Now() == DelRr(old(Now()), i)
    {
      queues := queues[i := queues[i].(onRr := false)];
      lists := TakeOut(lists, i);
      busy := busy - 1;
    }

    /** cfq_update_next_crq. */
    method UpdateNextCrq(i: nat, k: nat)
      requires i < |queues| && k < |queues[i].tree|
      modifies `queues
      ensures queues == old(queues)[i := old(queues)[i].(next := NextWithout(head, old(queues)[i].next, old(queues)[i].tree, k))]
    {
      var q := queues[i];
      if q.next == Some(q.tree[k]) {
        queues := queues[i := q.(next := FindNext(head, q.tree, k))];
      }
    }

    /** cfq_del_crq_rb. */
    method DelCrqRb(i: nat, k: nat)
      requires i < |queues| && k < |queues[i].tree| && queues[i].queued.At(queues[i].tree[k].sync) > 0
      requires queues[i].onRr ==> busy > 0
      modifies this
      ensures Now() == Settle(Put(old(Now()), i, Detach(head, old(queues)[i], k)), i)
    {
      var q := queues[i];
      queues := queues[i := q.(queued := q.queued.Add(q.tree[k].sync, -1))];
      UpdateNextCrq(i, k);
      queues := queues[i := queues[i].(tree := RemoveAt(q.tree, k))];
      assert queues == old(queues)[i := Detach(head, q, k)];
      if queues[i].onRr && queues[i].tree == [] {
        DelCfqqRr(i);
      }
    }

    /** cfq_dispatch_insert. */
    method DispatchInsert(i: nat, k: nat)
      requires i < |queues| && k < |queues[i].tree| && queues[i].queued.At(queues[i].tree[k].sync) > 0
      requires queues[i].onRr ==> busy > 0
      modifies this
      ensures Now() == CfqData.DispatchInsert(old(Now()), i, k)
    {
      var q := queues[i];
      var c := q.tree[k];
      var q1 := q.(next := FindNext(head, q.tree, k), fifo := RemoveFirst(q.fifo, c.id));
      queues := queues[i := q1];
      DelCrqRb(i, k);
      queues := queues[i := queues[i].(onDispatch := queues[i].onDispatch.Add(c.sync, 1))];
      out := out + [c];
      ghost var q2 := Detach(head, q1, k);
      assert Send(head, q, k) == q2.(onDispatch := q.onDispatch.Add(c.sync, 1));
    }

    /** The search of __cfq_add_crq_rb. */
    method FindPlace(i: nat, sector: nat) returns (k: nat)
      requires i < |queues|
      ensures k == Place(queues[i].tree, sector)
    {
      k := 0;
      var t := queues[i].tree;
      while k < |t| && t[k].sector < sector
        invariant k <= |t| && k + Place(t[k..], sector) == Place(t, sector)
      {
        assert t[k..][1..] == t[k + 1..];
        k := k + 1;
      }
    }

    /** The loop of cfq_add_crq_rb: requests at the same sector go to the dispatch queue. */
    method SendAliases(i: nat, c: Crq, ghost s0: State, ghost surplus: multiset<nat>)
      requires MidInv(s0, i, multiset{}, surplus) && Now() == Counted(s0, i, c.sync)
      modifies this
      ensures Now() == Counted(SendAlias(s0, i, c.sector), i, c.sync)
    {
      var k := FindPlace(i, c.sector);
      while k < |queues[i].tree| && queues[i].tree[k].sector == c.sector
        invariant i < |queues| && k == Place(queues[i].tree, c.sector)
        invariant
          || Now() == Counted(s0, i, c.sync)
          || (Now() == Counted(SendAlias(s0, i, c.sector), i, c.sync) && !HasAlias(queues[i].tree, c.sector))
        decreases |queues[i].tree|
      {
        AliasStep(s0, i, c, surplus);
        DispatchInsert(i, k);
        k := FindPlace(i, c.sector);
      }
    }

    /** The rest of cfq_add_crq_rb. */
    method LinkNew(i: nat, c: Crq, ghost s: State)
      requires Shape(s) && i < |s.queues| && Now() == Counted(s, i, c.sync)
      modifies this
      ensures Now() == LinkIn(s, i, c)
    {
      var k := FindPlace(i, c.sector);
      var q := queues[i];
      queues := queues[i := q.(tree := q.tree[..k] + [c] + q.tree[k..])];
      assert Now() == Put(s, i, Link(s.queues[i], c));
      if !queues[i].onRr {
        AddCfqqRr(i);
      }
      queues := queues[i := queues[i].(next := Choose(head, queues[i].next, Some(c)))];
    }

    /** cfq_add_crq_rb. */
    method AddCrqRb(i: nat, c: Crq, ghost surplus: multiset<nat>)
      requires MidInv(Now(), i, multiset{}, surplus) && c.queue == i
      modifies this
      ensures Now() == AddCrq(old(Now()), i, c)
    {
      ghost var s0 := Now();
      queues := queues[i := queues[i].(queued := queues[i].queued.Add(c.sync, 1))];
      SendAliases(i, c, s0, surplus);
      SendAliasShape(s0, i, c.sector);
      LinkNew(i, c, SendAlias(s0, i, c.sector));
    }

    method Enqueue(i: nat, c: Crq)
      requires MidInv(Now(), i, multiset{}, multiset{}) && c.queue == i
      modifies this
      ensures Now() == CfqData.InsertRequest(old(Now()), i, c)
    {
      AddCrqLength(Now(), i, c);
      AddCrqRb(i, c, multiset{});
      var q := queues[i];
      q := q.(fifo := q.fifo + [c.id]);
      q := q.(next := Choose(head, q.next, Some(c)));
      queues := queues[i := q];
    }

    /** cfq_insert_request. */
    method InsertRequest(i: nat, c: Crq)
      requires Inv(Now()) && i < |queues| && c.queue == i
      modifies this
      ensures Now() == CfqData.InsertRequest(old(Now()), i, c) && Inv(Now())
    {
      InvIsMid(Now(), i);
      InsertKeeps(Now(), i, c);
      Enqueue(i, c);
    }

    /** cfq_update_next_crq and cfq_reposition_crq_rb. */
    method Reposition(i: nat, k: nat, sector: nat)
      requires i < |queues| && k < |queues[i].tree| && queues[i].tree[k].queue == i
      requires MidInv(Put(Now(), i, Detach(head, queues[i], k)), i, multiset{}, multiset{queues[i].tree[k].id})
      modifies this
      ensures Shape(old(Now())) && Now() == FrontMerge(old(Now()), i, k, sector)
    {
      ghost var s := Now();
      var q := queues[i];
      var c := q.tree[k];
      UpdateNextCrq(i, k);
      queues := queues[i := queues[i].(tree := RemoveAt(q.tree, k))];
      queues := queues[i := queues[i].(queued := q.queued.Add(c.sync, -1))];
      assert queues == s.queues[i := Detach(head, q, k)];
      DetachShape(s, i, k);
      AddCrqRb(i, c.(sector := sector), multiset{c.id});
    }

    /** cfq_merged_request after a front merge. */
    method MergedRequest(i: nat, k: nat, sector: nat)
      requires Inv(Now()) && i < |queues| && k < |queues[i].tree|
      modifies this
      ensures Now() == FrontMerge(old(Now()), i, k, sector) && Inv(Now())
    {
      FrontMergeKeeps(Now(), i, k, sector);
      FrontMergeMid(Now(), i, k);
      Reposition(i, k, sector);
    }

    method Swallow(i: nat, k: nat, m: nat, older: bool)
      requires i < |queues| && k < |queues[i].tree| && m < |queues[i].tree|
      requires queues[i].queued.At(queues[i].tree[m].sync) > 0 && busy > 0
      modifies this
      ensures Now() == MergeRequests(old(Now()), i, k, m, older)
    {
      var q := queues[i];
      var a, b := q.tree[k].id, q.tree[m].id;
      if older {
        q := q.(fifo := MoveBehind(RemoveFirst(q.fifo, a), a, b));
      }
      ghost var q1 := q;
      q := q.(fifo := RemoveFirst(q.fifo, b));
      queues := queues[i := q];
      DelCrqRb(i, m);
      assert Detach(head, q, m) == Remove(head, q1, m);
      assert old(queues)[i := q][i := Detach(head, q, m)] == old(queues)[i := Detach(head, q, m)];
    }

    /** cfq_merged_requests. */
    method MergedRequests(i: nat, k: nat, m: nat, older: bool)
      requires Inv(Now()) && i < |queues| && k < |queues[i].tree| && m < |queues[i].tree| && k != m
      modifies this
      ensures Now() == MergeRequests(old(Now()), i, k, m, older) && Inv(Now())
    {
      MergeKeeps(Now(), i, k, m, older);
      InvIsMid(Now(), i);
      MemberFacts(Now(), i, m, multiset{});
      Swallow(i, k, m, older);
    }

    /** cfq_completed_request. */
    method CompletedRequest(k: nat, now: nat)
      requires Inv(Now()) && k < |out|
      modifies this
      ensures old(out)[k].queue < |old(queues)| && Now() == Complete(old(Now()), k, now) && Inv(Now())
    {
      var i := out[k].queue;
      assert out[k] in out;
      CompleteKeeps(Now(), k, now);
      var q := queues[i].(onDispatch := queues[i].onDispatch.Add(out[k].sync, -1));
      queues := queues[i := q];
      out := RemoveAt(out, k);
      if q.Dispatched() == 0 && q.onRr {
        queues := queues[i := q.(serviceLast := now)];
        ResortRrList(i, false);
      }
    }

    // ---- forced dispatch ------------------------------------------------------------------------------

    /** next_crq of a queue goes to the dispatch queue. */
    method DispatchNext(i: nat)
      requires Inv(Now()) && i < |queues| && queues[i].next.Some?
      modifies this
      ensures Inv(Now()) && |queues| == |old(queues)| && |queues[i].tree| < |old(queues)[i].tree|
      ensures lists == if queues[i].tree == [] then TakeOut(old(lists), i) else old(lists)
      ensures Total(Now()) == Total(old(Now())) && |out| == |old(out)| + 1
    {
      assert Sound(queues[i], i);
      var k := FindCrq(i, queues[i].next.value);
      InvIsMid(Now(), i);
      MemberFacts(Now(), i, k, multiset{});
      StepKeeps(Now(), Dispatch(i, k));
      DispatchConserves(Now(), i, k);
      DispatchInsert(i, k);
    }

    /** The inner loop of cfq_forced_dispatch_cfqqs: one queue is emptied. */
    method DrainQueue(i: nat) returns (dispatched: nat)
      requires Inv(Now()) && i < |queues| && queues[i].onRr
      modifies this
      ensures Inv(Now()) && |queues| == |old(queues)|
      ensures queues[i].tree == [] && queues[i].fifo == []
      ensures lists == TakeOut(old(lists), i)
      ensures Total(Now()) == Total(old(Now())) && |out| == |old(out)| + dispatched
    {
      dispatched := 0;
      QueueFacts(Now(), i);
      while queues[i].next.Some?
        invariant Inv(Now()) && |queues| == |old(queues)| && (queues[i].next == None <==> queues[i].tree == [])
        invariant lists == if queues[i].tree == [] then TakeOut(old(lists), i) else old(lists)
        invariant Total(Now()) == Total(old(Now())) && |out| == |old(out)| + dispatched
        decreases |queues[i].tree|
      {
        DispatchNext(i);
        QueueFacts(Now(), i);
        dispatched := dispatched + 1;
      }
      assert Sound(queues[i], i);
      EmptyFifo(queues[i], i);
    }

    /** cfq_forced_dispatch_cfqqs: the queues of one list are emptied and leave it. */
    method ForcedDispatchCfqqs(l: nat) returns (dispatched: nat)
      requires Inv(Now()) && l < LISTS
      modifies this
      ensures Inv(Now()) && lists == old(lists)[l := []]
      ensures Total(Now()) == Total(old(Now())) && |out| == |old(out)| + dispatched
    {
      dispatched := 0;
      var rest := lists[l];
      ghost var lists0 := lists;
      while rest != []
        invariant Inv(Now()) && lists == lists0[l := rest]
        invariant Total(Now()) == Total(old(Now())) && |out| == |old(out)| + dispatched
        decreases |rest|
      {
        TakeOutFront(queues, lists, busy, l, rest);
        Refill(lists0, l, rest);
        var d := DrainQueue(rest[0]);
        dispatched := dispatched + d;
        rest := rest[1..];
      }
    }

    /** cfq_forced_dispatch: every queued request goes to the dispatch queue exactly once, and no queue
    is busy afterwards. */
    method ForcedDispatch() returns (dispatched: nat)
      requires Inv(Now())
      modifies this
      ensures Inv(Now()) && busy == 0
      ensures forall i | 0 <= i < |queues| :: queues[i].tree == [] && queues[i].fifo == []
      ensures multiset(out) == multiset(old(out)) + AllQueued(old(queues))
      ensures dispatched == |AllQueued(old(queues))|
    {
      dispatched := 0;
      var i := 0;
      while i < LISTS
        invariant i <= LISTS && Inv(Now()) && forall l | 0 <= l < i :: lists[l] == []
        invariant Total(Now()) == Total(old(Now())) && |out| == |old(out)| + dispatched
      {
        var d := ForcedDispatchCfqqs(i);
        dispatched := dispatched + d;
        i := i + 1;
      }
      Drained(Now());
      assert |multiset(out)| == |out| && |multiset(old(out))| == |old(out)|;
    }

    method FindCrq(i: nat, c: Crq) returns (k: nat)
      requires i < |queues| && c in queues[i].tree
      ensures k < |queues[i].tree| && queues[i].tree[k] == c
    {
      k := 0;
      while queues[i].tree[k] != c
        invariant k < |queues[i].tree| && c !in queues[i].tree[..k]
        decreases |queues[i].tree| - k
      {
        k := k + 1;
      }
    }
  }

  // ---- facts the methods use -----------------------------------------------------------------------------

  lemma MemberFacts(s: State, i: nat, k: nat, surplus: multiset<nat>)
    requires MidInv(s, i, multiset{}, surplus) && k < |s.queues[i].tree|
    ensures s.queues[i].queued.At(s.queues[i].tree[k].sync) > 0 && s.queues[i].onRr && s.busy > 0
  {
    QueuedPositive(s.queues[i], i, k);
    BaseDelRr(s, i);
  }

  /** One turn of the alias loop is all it does. */
  lemma AliasStep(s: State, i: nat, c: Crq, surplus: multiset<nat>)
    requires MidInv(s, i, multiset{}, surplus) && HasAlias(s.queues[i].tree, c.sector)
    ensures var s1 := Counted(s, i, c.sync); var k := Place(s.queues[i].tree, c.sector);
      && s1.queues[i].queued.At(s1.queues[i].tree[k].sync) > 0 && s1.busy > 0
      && DispatchInsert(s1, i, k) == Counted(SendAlias(s, i, c.sector), i, c.sync)
    ensures !HasAlias(SendAlias(s, i, c.sector).queues[i].tree, c.sector)
  {
    var k := Place(s.queues[i].tree, c.sector);
    MemberFacts(s, i, k, surplus);
    SendAliasKeeps(s, i, c.sector, surplus);
    CountedDispatch(s, i, c.sync, k);
  }

  /** With all lists empty nothing is queued. */
  lemma Drained(s: State)
    requires Inv(s) && forall l | 0 <= l < LISTS :: s.lists[l] == []
    ensures s.busy == 0 && Total(s) == multiset(s.out)
    ensures forall i | 0 <= i < |s.queues| :: s.queues[i].tree == [] && s.queues[i].fifo == []
  {
    EmptyListsHaveNoMembers(s.lists);
    BusyOf(s);
    forall i | 0 <= i < |s.queues| ensures s.queues[i].fifo == [] {
      EmptyFifo(s.queues[i], i);
    }
    NothingQueued(s.queues);
  }

  lemma AddCrqLength(s: State, i: nat, c: Crq)
    requires Shape(s) && i < |s.queues|
    ensures |AddCrq(s, i, c).queues| == |s.queues|
  {
    SendAliasShape(s, i, c.sector);
  }

  lemma DetachShape(s: State, i: nat, k: nat)
    requires i < |s.queues| && k < |s.queues[i].tree| && Shape(Put(s, i, Detach(s.head, s.queues[i], k)))
    ensures Shape(s)
  {
    var q, r := s.queues[i], Put(s, i, Detach(s.head, s.queues[i], k));
    assert r.queues[i].ioprio == q.ioprio;
    forall j | 0 <= j < |s.queues| ensures s.queues[j].ioprio < BUSY_RR {
      assert r.queues[j].ioprio < BUSY_RR;
    }
  }

  lemma EmptyFifo(q: Queue, i: nat)
    requires Sound(q, i) && q.tree == []
    ensures q.fifo == []
  {
    assert multiset(q.fifo) + multiset{} == multiset(Ids(q.tree)) + multiset{};
    assert Ids(q.tree) == [];
    assert multiset(q.fifo) == multiset(q.fifo) + multiset{} == multiset{};
    assert |q.fifo| == |multiset(q.fifo)|;
  }
}
