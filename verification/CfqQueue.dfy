/** block/cfq-iosched.c: one cfq_queue.

A queue holds its pending requests in a tree sorted by start sector (a sequence here) and in a fifo,
caches the request to serve next and counts its requests by kind.
*/
module CfqQueue {
  import opened Sequences

  /** A pending request; rb_key is its start sector. */
  datatype Crq = Crq(id: nat, queue: nat, sector: nat, sync: bool)

  /** A counter indexed by SYNC and ASYNC. */
  datatype Two = Two(sync: int, async: int) {
    function At(b: bool): int { if b then sync else async }
    function Add(b: bool, n: int): Two { if b then Two(sync + n, async) else Two(sync, async + n) }
  }

  datatype Class = Rt | Be | Idle

  datatype Queue = Queue(
    tree: seq<Crq>,
    fifo: seq<nat>,
    next: Option<Crq>,
    queued: Two,
    onDispatch: Two,
    onRr: bool,
    class_: Class,
    ioprio: nat,
    serviceLast: nat)
  {
    function Dispatched(): int { onDispatch.sync + onDispatch.async }
  }

  /** What cfq_choose_req reads of cfq_data. */
  datatype Head = Head(last: nat, backMax: nat, backPenalty: nat)

  // ---- the choice of the next request ----------------------------------------------------------

  function Behind(h: Head, s: nat): bool {
    s < h.last && s + h.backMax * 2 < h.last
  }

  function Seek(h: Head, s: nat): int {
    if s >= h.last then s - h.last else (h.last - s) * h.backPenalty
  }

  /** cfq_choose_req. */
  function Choose(h: Head, r1: Option<Crq>, r2: Option<Crq>): (r: Option<Crq>)
    ensures r == r1 || r == r2
    ensures r == None <==> r1 == None && r2 == None
  {
    if r1 == None || r1 == r2 then r2
    else if r2 == None then r1
    else if r1.value.sync && !r2.value.sync then r1
    else if r2.value.sync && !r1.value.sync then r2
    else
      var s1, s2 := r1.value.sector, r2.value.sector;
      if !Behind(h, s1) && Behind(h, s2) then r1
      else if !Behind(h, s2) && Behind(h, s1) then r2
      else if Behind(h, s1) && Behind(h, s2) then (if s1 <= s2 then r1 else r2)
      else if Seek(h, s1) < Seek(h, s2) then r1
      else if Seek(h, s2) < Seek(h, s1) then r2
      else if s1 >= s2 then r1 else r2
  }

  /** cfq_find_next_crq: looks at both neighbours, and at the first request behind the last one. */
  function FindNext(h: Head, tree: seq<Crq>, i: nat): (r: Option<Crq>)
    requires i < |tree|
    ensures r == None <==> |tree| == 1
    ensures r.Some? ==> exists k | 0 <= k < |tree| && k != i :: tree[k] == r.value
  {
    var next := if i + 1 < |tree| then Some(tree[i + 1]) else if i != 0 then Some(tree[0]) else None;
    var prev := if i > 0 then Some(tree[i - 1]) else None;
    Choose(h, next, prev)
  }

  // ---- counting ---------------------------------------------------------------------------------

  function Ids(t: seq<Crq>): seq<nat> {
    seq(|t|, k requires 0 <= k < |t| => t[k].id)
  }

  function CountKind(t: seq<Crq>, sync: bool): nat {
    if t == [] then 0 else (if t[0].sync == sync then 1 else 0) + CountKind(t[1..], sync)
  }

  lemma {:induction false} CountKindConcat(a: seq<Crq>, b: seq<Crq>, sync: bool)
    ensures CountKind(a + b, sync) == CountKind(a, sync) + CountKind(b, sync)
  {
    if a == [] {
      assert a + b == b;
    } else {
      assert (a + b)[1..] == a[1..] + b;
      CountKindConcat(a[1..], b, sync);
    }
  }

  lemma CountKindInsert(t: seq<Crq>, i: nat, c: Crq, sync: bool)
    requires i <= |t|
    ensures CountKind(t[..i] + [c] + t[i..], sync) == CountKind(t, sync) + if c.sync == sync then 1 else 0
  {
    CountKindConcat(t[..i] + [c], t[i..], sync);
    CountKindConcat(t[..i], [c], sync);
    CountKindConcat(t[..i], t[i..], sync);
    assert t[..i] + t[i..] == t;
  }

  lemma CountKindRemove(t: seq<Crq>, i: nat, sync: bool)
    requires i < |t|
    ensures CountKind(t, sync) == CountKind(RemoveAt(t, i), sync) + if t[i].sync == sync then 1 else 0
  {
    var r := RemoveAt(t, i);
    CountKindInsert(r, i, t[i], sync);
    assert r[..i] + [t[i]] + r[i..] == t;
  }

  // ---- the invariant of one queue --------------------------------------------------------------

  predicate Sorted(t: seq<Crq>) {
    forall i, j | 0 <= i < j < |t| :: t[i].sector < t[j].sector
  }

  predicate Owned(t: seq<Crq>, self: nat) {
    forall c | c in t :: c.queue == self
  }

  /** next_crq is one of the tree, NULL only if the tree is empty. */
  predicate NextOk(next: Option<Crq>, t: seq<Crq>) {
    if next == None then t == [] else next.value in t
  }

  /** The tree, next_crq and queued[] agree; `self` is the number of the queue. */
  predicate Core(q: Queue, self: nat) {
    && Sorted(q.tree)
    && Owned(q.tree, self)
    && NextOk(q.next, q.tree)
    && q.queued == Two(CountKind(q.tree, true), CountKind(q.tree, false))
  }

  /** The fifo holds the requests of the tree, up to those that are being moved. */
  predicate FifoOk(q: Queue, lacking: multiset<nat>, surplus: multiset<nat>) {
    multiset(q.fifo) + lacking == multiset(Ids(q.tree)) + surplus
  }

  /** What holds of a queue between operations. */
  predicate Sound(q: Queue, self: nat) {
    && Core(q, self)
    && FifoOk(q, multiset{}, multiset{})
    && (q.onRr <==> q.tree != [])
  }

  // ---- operations on one queue -----------------------------------------------------------------

  /** cfq_update_next_crq. */
  function NextWithout(h: Head, next: Option<Crq>, t: seq<Crq>, i: nat): Option<Crq>
    requires i < |t|
  {
    if next == Some(t[i]) then FindNext(h, t, i) else next
  }

  /** cfq_update_next_crq, rb_erase and queued[]--: the request at i leaves the tree. */
  function Detach(h: Head, q: Queue, i: nat): Queue
    requires i < |q.tree|
  {
    q.(queued := q.queued.Add(q.tree[i].sync, -1),
       next := NextWithout(h, q.next, q.tree, i),
       tree := RemoveAt(q.tree, i))
  }

  /** cfq_remove_request: the request at i leaves the queue. */
  function Remove(h: Head, q: Queue, i: nat): Queue
    requires i < |q.tree|
  {
    Detach(h, q.(fifo := RemoveFirst(q.fifo, q.tree[i].id)), i)
  }

  /** cfq_dispatch_insert, as far as the queue is concerned. */
  function Send(h: Head, q: Queue, i: nat): Queue
    requires i < |q.tree|
  {
    var r := Remove(h, q.(next := FindNext(h, q.tree, i)), i);
    r.(onDispatch := q.onDispatch.Add(q.tree[i].sync, 1))
  }

  /** Where a sector goes in the tree. */
  function Place(t: seq<Crq>, sector: nat): (k: nat)
    ensures k <= |t|
    ensures forall i | 0 <= i < k :: t[i].sector < sector
    ensures k < |t| ==> t[k].sector >= sector
  {
    if t == [] || t[0].sector >= sector then 0 else 1 + Place(t[1..], sector)
  }

  /** The request of the tree with the same start sector. */
  predicate HasAlias(t: seq<Crq>, sector: nat) {
    var k := Place(t, sector); k < |t| && t[k].sector == sector
  }

  /** The new node is linked in and counted. */
  function Link(q: Queue, c: Crq): Queue {
    var k := Place(q.tree, c.sector);
    q.(tree := q.tree[..k] + [c] + q.tree[k..], queued := q.queued.Add(c.sync, 1))
  }

  // ---- what the operations keep ----------------------------------------------------------------

  lemma RemoveSorted(t: seq<Crq>, i: nat)
    requires Sorted(t) && i < |t|
    ensures Sorted(RemoveAt(t, i)) && t[i] !in RemoveAt(t, i)
    ensures forall c | c in RemoveAt(t, i) :: c in t
    ensures forall k | 0 <= k < |t| && k != i :: t[k] in RemoveAt(t, i)
  {
    var r := RemoveAt(t, i);
    forall k | 0 <= k < |t| && k != i ensures t[k] in r {
      assert r[if k < i then k else k - 1] == t[k];
    }
  }

  lemma NextWithoutOk(h: Head, next: Option<Crq>, t: seq<Crq>, i: nat)
    requires Sorted(t) && i < |t| && NextOk(next, t)
    ensures NextOk(NextWithout(h, next, t, i), RemoveAt(t, i))
  {
    RemoveSorted(t, i);
  }

  lemma CountedWithout(t: seq<Crq>, i: nat)
    requires i < |t|
    ensures Two(CountKind(t, true), CountKind(t, false)).Add(t[i].sync, -1)
         == Two(CountKind(RemoveAt(t, i), true), CountKind(RemoveAt(t, i), false))
  {
    CountKindRemove(t, i, true);
    CountKindRemove(t, i, false);
  }

  lemma DetachCore(h: Head, q: Queue, self: nat, i: nat)
    requires Core(q, self) && i < |q.tree|
    ensures Core(Detach(h, q, i), self)
  {
    RemoveSorted(q.tree, i);
    CountedWithout(q.tree, i);
    NextWithoutOk(h, q.next, q.tree, i);
  }

  /** A request that leaves takes its id out of the tree and of the fifo. */
  lemma RemoveFifo(h: Head, q: Queue, i: nat, lacking: multiset<nat>, surplus: multiset<nat>)
    requires i < |q.tree| && FifoOk(q, lacking, surplus) && q.tree[i].id in q.fifo
    ensures FifoOk(Remove(h, q, i), lacking, surplus)
  {
    RemoveFirstCounts(q.fifo, q.tree[i].id);
    var ids := Ids(q.tree);
    RemoveAtCounts(ids, i);
    var r := Remove(h, q, i);
    assert Ids(r.tree) == RemoveAt(ids, i);
    CancelOne(multiset(q.fifo), multiset(r.fifo), multiset(ids), multiset(Ids(r.tree)), lacking, surplus, ids[i]);
  }

  lemma FifoHas(q: Queue, i: nat, surplus: multiset<nat>)
    requires i < |q.tree| && FifoOk(q, multiset{}, surplus)
    ensures q.tree[i].id in q.fifo
  {
    var ids := Ids(q.tree);
    assert ids[i] in multiset(ids) + surplus;
    assert ids[i] in multiset(q.fifo) + multiset{};
  }

  lemma SendCore(h: Head, q: Queue, self: nat, i: nat)
    requires Core(q, self) && i < |q.tree|
    ensures Core(Send(h, q, i), self)
  {
    var next := FindNext(h, q.tree, i);
    RemoveSorted(q.tree, i);
    CountedWithout(q.tree, i);
    assert NextOk(next, RemoveAt(q.tree, i));
    assert next != Some(q.tree[i]);
  }

  lemma SendFifo(h: Head, q: Queue, i: nat, surplus: multiset<nat>)
    requires i < |q.tree| && FifoOk(q, multiset{}, surplus)
    ensures FifoOk(Send(h, q, i), multiset{}, surplus)
  {
    FifoHas(q, i, surplus);
    RemoveFifo(h, q.(next := FindNext(h, q.tree, i)), i, multiset{}, surplus);
  }

  /** Without an alias the new node keeps the tree strictly sorted. */
  lemma LinkSorted(t: seq<Crq>, c: Crq, self: nat)
    requires Sorted(t) && Owned(t, self) && c.queue == self && !HasAlias(t, c.sector)
    ensures var k := Place(t, c.sector); Sorted(t[..k] + [c] + t[k..]) && Owned(t[..k] + [c] + t[k..], self)
  {
  }

  lemma SendClearsAlias(h: Head, q: Queue, sector: nat)
    requires Sorted(q.tree) && HasAlias(q.tree, sector)
    ensures !HasAlias(Send(h, q, Place(q.tree, sector)).tree, sector)
  {
    var k := Place(q.tree, sector);
    RemoveSorted(q.tree, k);
    var r := RemoveAt(q.tree, k);
    var m := Place(r, sector);
    if m < |r| {
      assert r[m] in q.tree;
    }
  }

  lemma LinkCore(h: Head, q: Queue, self: nat, c: Crq)
    requires Core(q, self) && c.queue == self && !HasAlias(q.tree, c.sector)
    ensures var r := Link(q, c); Core(r.(next := Choose(h, r.next, Some(c))), self)
  {
    var k := Place(q.tree, c.sector);
    var t := q.tree[..k] + [c] + q.tree[k..];
    LinkSorted(q.tree, c, self);
    CountKindInsert(q.tree, k, c, true);
    CountKindInsert(q.tree, k, c, false);
    assert t[k] == c;
    LinkNext(q.tree, k, c, q.next);
  }

  lemma LinkNext(t: seq<Crq>, k: nat, c: Crq, next: Option<Crq>)
    requires k <= |t| && NextOk(next, t)
    ensures next == None || NextOk(next, t[..k] + [c] + t[k..])
  {
    if next.Some? {
      var i :| 0 <= i < |t| && t[i] == next.value;
      assert (t[..k] + [c] + t[k..])[if i < k then i else i + 1] == next.value;
    }
  }

  lemma InsertIds(t: seq<Crq>, k: nat, c: Crq)
    requires k <= |t|
    ensures Ids(t[..k] + [c] + t[k..]) == Ids(t)[..k] + [c.id] + Ids(t)[k..]
  {
  }

  lemma LinkFifo(q: Queue, c: Crq, surplus: multiset<nat>)
    requires FifoOk(q, multiset{}, surplus)
    ensures FifoOk(Link(q, c), multiset{c.id}, surplus)
  {
    var k := Place(q.tree, c.sector);
    var ids := Ids(q.tree);
    InsertCounts(ids, k, c.id);
    var r := Link(q, c);
    InsertIds(q.tree, k, c);
    AddOne(multiset(q.fifo), multiset(ids), multiset(Ids(r.tree)), surplus, c.id);
  }
}
