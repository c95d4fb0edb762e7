/** block/cfq-iosched.c: the lists of queues with pending requests.

lists[0..8] are rr_list[], followed by busy_rr, cur_rr and idle_rr.  They hold the numbers of the
queues.  A queue that is on none of them is on empty_list.
*/
module CfqLists {
  import opened Sequences
  import opened CfqQueue

  const BUSY_RR: nat := 8
  const CUR_RR: nat := 9
  const IDLE_RR: nat := 10
  const LISTS: nat := 11

  function Members(lists: seq<seq<nat>>): multiset<nat> {
    if lists == [] then multiset{} else multiset(lists[0]) + Members(lists[1..])
  }

  /** list_del: a queue leaves the list it is on. */
  function TakeOut(lists: seq<seq<nat>>, id: nat): (r: seq<seq<nat>>)
    ensures |r| == |lists|
    ensures forall k | 0 <= k < |lists| :: r[k] == RemoveFirst(lists[k], id)
  {
    if lists == [] then [] else [RemoveFirst(lists[0], id)] + TakeOut(lists[1..], id)
  }

  function PutAt(lists: seq<seq<nat>>, l: nat, pos: nat, id: nat): seq<seq<nat>>
    requires l < |lists| && pos <= |lists[l]|
  {
    lists[l := lists[l][..pos] + [id] + lists[l][pos..]]
  }

  /** list_splice_init of rr_list[l] in front of cur_rr. */
  function Splice(lists: seq<seq<nat>>, l: nat): seq<seq<nat>>
    requires |lists| == LISTS && l < BUSY_RR
  {
    lists[l := []][CUR_RR := lists[l] + lists[CUR_RR]]
  }

  lemma {:induction false} MembersUpdate(lists: seq<seq<nat>>, l: nat, x: seq<nat>, y: nat)
    requires l < |lists|
    ensures Members(lists[l := x])[y] + multiset(lists[l])[y] == Members(lists)[y] + multiset(x)[y]
  {
    var r := lists[l := x];
    if l == 0 {
      assert r[1..] == lists[1..];
    } else {
      MembersUpdate(lists[1..], l - 1, x, y);
      assert r[1..] == lists[1..][l - 1 := x];
    }
  }

  lemma PutAtMembers(lists: seq<seq<nat>>, l: nat, pos: nat, id: nat)
    requires l < |lists| && pos <= |lists[l]|
    ensures Members(PutAt(lists, l, pos, id)) == Members(lists) + multiset{id}
  {
    var x := lists[l][..pos] + [id] + lists[l][pos..];
    InsertCounts(lists[l], pos, id);
    forall y: nat ensures Members(PutAt(lists, l, pos, id))[y] == (Members(lists) + multiset{id})[y] {
      MembersUpdate(lists, l, x, y);
    }
  }

  lemma SpliceMembers(lists: seq<seq<nat>>, l: nat)
    requires |lists| == LISTS && l < BUSY_RR
    ensures Members(Splice(lists, l)) == Members(lists)
  {
    var mid := lists[l := []];
    var x := lists[l] + lists[CUR_RR];
    forall y: nat ensures Members(Splice(lists, l))[y] == Members(lists)[y] {
      MembersUpdate(lists, l, [], y);
      MembersUpdate(mid, CUR_RR, x, y);
      assert multiset(x)[y] == multiset(lists[l])[y] + multiset(lists[CUR_RR])[y];
    }
  }

  lemma {:induction false} MembersHas(lists: seq<seq<nat>>, k: nat, id: nat)
    requires k < |lists| && id in lists[k]
    ensures id in Members(lists)
  {
    if k > 0 {
      MembersHas(lists[1..], k - 1, id);
    }
  }

  lemma {:induction false} TakeOutAbsent(lists: seq<seq<nat>>, id: nat)
    requires id !in Members(lists)
    ensures TakeOut(lists, id) == lists
  {
    if lists != [] {
      RemoveFirstCounts(lists[0], id);
      TakeOutAbsent(lists[1..], id);
    }
  }

  lemma {:induction false} TakeOutMembers(lists: seq<seq<nat>>, id: nat)
    requires Members(lists)[id] == 1
    ensures Members(lists) == Members(TakeOut(lists, id)) + multiset{id}
  {
    RemoveFirstCounts(lists[0], id);
    var r := TakeOut(lists, id);
    assert r[0] == RemoveFirst(lists[0], id) && r[1..] == TakeOut(lists[1..], id);
    if id in lists[0] {
      assert multiset(lists[0])[id] >= 1;
      TakeOutAbsent(lists[1..], id);
    } else {
      TakeOutMembers(lists[1..], id);
    }
  }

  // ---- the invariant -----------------------------------------------------------------------------

  predicate OnRr(queues: seq<Queue>, id: nat) {
    id < |queues| && queues[id].onRr
  }

  /** Every queue marked on_rr is on exactly one list, and busy_queues counts them. */
  ghost predicate RrOk(queues: seq<Queue>, lists: seq<seq<nat>>, busy: int) {
    && |lists| == LISTS
    && busy == |Members(lists)|
    && forall id: nat :: Members(lists)[id] == if OnRr(queues, id) then 1 else 0
  }

  /** The lists do not care about anything but on_rr. */
  lemma RrSame(queues: seq<Queue>, lists: seq<seq<nat>>, busy: int, i: nat, q: Queue)
    requires RrOk(queues, lists, busy) && i < |queues| && q.onRr == queues[i].onRr
    ensures RrOk(queues[i := q], lists, busy)
  {
    forall id: nat ensures OnRr(queues[i := q], id) == OnRr(queues, id) {
    }
  }

  lemma RrSplice(queues: seq<Queue>, lists: seq<seq<nat>>, busy: int, l: nat)
    requires RrOk(queues, lists, busy) && l < BUSY_RR
    ensures RrOk(queues, Splice(lists, l), busy)
  {
    SpliceMembers(lists, l);
  }

  /** cfq_del_cfqq_rr; busy_queues is not zero before. */
  lemma RrDel(queues: seq<Queue>, lists: seq<seq<nat>>, busy: int, i: nat, q: Queue)
    requires RrOk(queues, lists, busy) && i < |queues| && queues[i].onRr && !q.onRr
    ensures busy > 0
    ensures RrOk(queues[i := q], TakeOut(lists, i), busy - 1)
  {
    assert OnRr(queues, i);
    TakeOutMembers(lists, i);
    var m, m' := Members(lists), Members(TakeOut(lists, i));
    forall id: nat ensures m'[id] == if OnRr(queues[i := q], id) then 1 else 0 {
      assert m[id] == if OnRr(queues, id) then 1 else 0;
    }
  }

  // ---- cfq_resort_rr_list ------------------------------------------------------------------------

  function ServiceLast(queues: seq<Queue>, id: nat): nat {
    if id < |queues| then queues[id].serviceLast else 0
  }

  /** The list a queue belongs on. */
  function ListOf(q: Queue): (l: nat) {
    if q.class_ == Rt then CUR_RR
    else if q.class_ == Idle then IDLE_RR
    else if q.Dispatched() != 0 then BUSY_RR
    else q.ioprio
  }

  predicate ServedBefore(queues: seq<Queue>, id: nat, t: nat) {
    ServiceLast(queues, id) == 0 || ServiceLast(queues, id) < t
  }

  /** Behind the last queue of the list that was served before time t. */
  function SortPos(queues: seq<Queue>, list: seq<nat>, t: nat): (k: nat)
    ensures k <= |list|
    ensures k > 0 ==> ServedBefore(queues, list[k - 1], t)
    ensures forall j | k <= j < |list| :: !ServedBefore(queues, list[j], t)
  {
    if list == [] then 0
    else if ServedBefore(queues, list[|list| - 1], t) then |list|
    else SortPos(queues, list[..|list| - 1], t)
  }

  function Resorted(queues: seq<Queue>, lists: seq<seq<nat>>, i: nat, preempted: bool): seq<seq<nat>>
    requires |lists| == LISTS && i < |queues| && queues[i].ioprio < BUSY_RR
  {
    var l := ListOf(queues[i]);
    var rest := TakeOut(lists, i);
    PutAt(rest, l, if preempted || l == BUSY_RR then 0 else SortPos(queues, rest[l], queues[i].serviceLast), i)
  }

  /** A queue that is on a list goes to another place. */
  lemma RrResort(queues: seq<Queue>, lists: seq<seq<nat>>, busy: int, i: nat, preempted: bool)
    requires RrOk(queues, lists, busy) && i < |queues| && queues[i].onRr && queues[i].ioprio < BUSY_RR
    ensures RrOk(queues, Resorted(queues, lists, i, preempted), busy)
  {
    assert OnRr(queues, i);
    TakeOutMembers(lists, i);
    ResortedMembers(queues, lists, i, preempted);
  }

  /** cfq_add_cfqq_rr. */
  lemma RrAdd(queues: seq<Queue>, lists: seq<seq<nat>>, busy: int, i: nat, q: Queue)
    requires RrOk(queues, lists, busy) && i < |queues| && !queues[i].onRr && q.onRr && q.ioprio < BUSY_RR
    ensures RrOk(queues[i := q], Resorted(queues[i := q], lists, i, false), busy + 1)
  {
    var queues' := queues[i := q];
    assert !OnRr(queues, i);
    TakeOutAbsent(lists, i);
    ResortedMembers(queues', lists, i, false);
    var m, m' := Members(lists), Members(Resorted(queues', lists, i, false));
    forall id: nat ensures m'[id] == if OnRr(queues', id) then 1 else 0 {
      assert m[id] == if OnRr(queues, id) then 1 else 0;
    }
  }

  lemma ResortedMembers(queues: seq<Queue>, lists: seq<seq<nat>>, i: nat, preempted: bool)
    requires |lists| == LISTS && i < |queues| && queues[i].ioprio < BUSY_RR
    ensures Members(Resorted(queues, lists, i, preempted)) == Members(TakeOut(lists, i)) + multiset{i}
  {
    var l := ListOf(queues[i]);
    var rest := TakeOut(lists, i);
    PutAtMembers(rest, l, if preempted || l == BUSY_RR then 0 else SortPos(queues, rest[l], queues[i].serviceLast), i);
  }
}
