/** block/as-iosched.c: the requests of one direction, and which of them is to be served next.

A request is identified by its start sector, which no other request of its sort_list has and which
does not change while it is queued (front merges are not part of this model).
*/
module AsSort {
  import opened Sequences

  const MAXBACK: nat := 1024 * 1024
  const BACK_PENALTY: nat := 2

  /** struct as_rq with the extent of its request; `ioc` is the submitting task's io_context. */
  datatype Arq = Arq(sector: nat, nr: nat, ioc: Option<nat>, expires: nat) {
    function End(): nat { sector + nr }
  }

  /** sort_list[d], fifo_list[d], next_arq[d] and last_sector[d] of one direction. */
  datatype Side = Side(tree: seq<Arq>, fifo: seq<nat>, next: Option<nat>, last: nat)

  // ---- as_choose_req --------------------------------------------------------------------------------

  function Wraps(last: nat, s: nat): bool {
    s < last && s + MAXBACK < last
  }

  function Seek(last: nat, s: nat): nat
    requires !Wraps(last, s)
  {
    if s >= last then s - last else (last - s) * BACK_PENALTY
  }

  function Choose(last: nat, r1: Option<nat>, r2: Option<nat>): (r: Option<nat>)
    ensures r == r1 || r == r2
    ensures r == None <==> r1 == None && r2 == None
  {
    if r1 == None || r1 == r2 then r2
    else if r2 == None then r1
    else
      var s1, s2 := r1.value, r2.value;
      if !Wraps(last, s1) && Wraps(last, s2) then r1
      else if !Wraps(last, s2) && Wraps(last, s1) then r2
      else if Wraps(last, s1) && Wraps(last, s2) then (if s1 <= s2 then r1 else r2)
      else if Seek(last, s1) < Seek(last, s2) then r1
      else if Seek(last, s2) < Seek(last, s1) then r2
      else if s1 >= s2 then r1 else r2
  }

  /** as_find_next_arq: looks at both neighbours, and at the first request behind the last one. */
  function FindNext(last: nat, tree: seq<Arq>, i: nat): (r: Option<nat>)
    requires i < |tree|
    ensures r == None <==> |tree| == 1
  {
    var next := if i + 1 < |tree| then Some(tree[i + 1].sector) else if i != 0 then Some(tree[0].sector) else None;
    var prev := if i > 0 then Some(tree[i - 1].sector) else None;
    Choose(last, next, prev)
  }

  // ---- the order behind the choice ------------------------------------------------------------------

  /** Serving a is at least as good as serving b with the head at `last`: requests far behind the head
  come last, lowest first; the others by the cost of the seek, forward before backward. */
  predicate NoWorse(last: nat, a: nat, b: nat) {
    if Wraps(last, a) then Wraps(last, b) && a <= b
    else
      || Wraps(last, b)
      || Seek(last, a) < Seek(last, b)
      || (Seek(last, a) == Seek(last, b) && a >= b)
  }

  lemma NoWorseIsTotalOrder(last: nat, a: nat, b: nat, c: nat)
    ensures NoWorse(last, a, b) || NoWorse(last, b, a)
    ensures NoWorse(last, a, b) && NoWorse(last, b, a) ==> a == b
    ensures NoWorse(last, a, b) && NoWorse(last, b, c) ==> NoWorse(last, a, c)
  {
  }

  /** as_choose_req chooses the better one. */
  lemma ChooseBetter(last: nat, a: nat, b: nat)
    ensures Choose(last, Some(a), Some(b)) == Some(if NoWorse(last, a, b) then a else b)
  {
  }

  /** No request of the tree is better than that at sector x. */
  predicate BestOf(last: nat, x: nat, tree: seq<Arq>) {
    forall j | 0 <= j < |tree| :: NoWorse(last, x, tree[j].sector)
  }

  predicate IsNext(last: nat, next: Option<nat>, tree: seq<Arq>) {
    match next
    case None => tree == []
    case Some(x) => (exists j | 0 <= j < |tree| :: tree[j].sector == x) && BestOf(last, x, tree)
  }

  // ---- the invariant of one direction ----------------------------------------------------------------

  /** Sorted and pairwise disjoint. */
  predicate Disjoint(tree: seq<Arq>) {
    forall i, j | 0 <= i < j < |tree| :: tree[i].sector < tree[j].sector && tree[i].End() <= tree[j].sector
  }

  function Keys(tree: seq<Arq>): seq<nat> {
    seq(|tree|, k requires 0 <= k < |tree| => tree[k].sector)
  }

  predicate SideOk(d: Side) {
    && Disjoint(d.tree)
    && IsNext(d.last, d.next, d.tree)
    && multiset(d.fifo) == multiset(Keys(d.tree))
  }

  // ---- operations --------------------------------------------------------------------------------------

  function Place(tree: seq<Arq>, sector: nat): (k: nat)
    ensures k <= |tree|
    ensures forall i | 0 <= i < k :: tree[i].sector < sector
    ensures k < |tree| ==> tree[k].sector >= sector
  {
    if tree == [] || tree[0].sector >= sector then 0 else 1 + Place(tree[1..], sector)
  }

  /** The request fits between the queued ones. */
  predicate Fits(tree: seq<Arq>, a: Arq) {
    forall i | 0 <= i < |tree| ::
      if tree[i].sector < a.sector then tree[i].End() <= a.sector
      else a.sector < tree[i].sector && a.End() <= tree[i].sector
  }

  function Linked(tree: seq<Arq>, a: Arq): seq<Arq> {
    var k := Place(tree, a.sector); tree[..k] + [a] + tree[k..]
  }

  /** as_add_arq_rb without an alias, list_add_tail and as_update_arq. */
  function Insert(d: Side, a: Arq): Side {
    d.(tree := Linked(d.tree, a), fifo := d.fifo + [a.sector], next := Choose(d.last, Some(a.sector), d.next))
  }

  /** as_remove_queued_request. */
  function Remove(d: Side, i: nat): Side
    requires i < |d.tree|
  {
    var x := d.tree[i].sector;
    d.(next := if d.next == Some(x) then FindNext(d.last, d.tree, i) else d.next,
       fifo := RemoveFirst(d.fifo, x),
       tree := RemoveAt(d.tree, i))
  }

  /** What as_move_to_dispatch does to the direction. */
  function Send(d: Side, i: nat): Side
    requires i < |d.tree|
  {
    var last := d.tree[i].End();
    Remove(d.(last := last, next := FindNext(last, d.tree, i)), i)
  }

  /** A back merge: the request at i grows. */
  function Grow(d: Side, i: nat, nr: nat): Side
    requires i < |d.tree|
  {
    d.(tree := d.tree[i := d.tree[i].(nr := nr)])
  }

  /** The request a after b was appended to it. */
  function Joined(a: Arq, b: Arq): Arq {
    var whole := a.(nr := a.nr + b.nr);
    if b.expires < a.expires then whole.(expires := b.expires, ioc := b.ioc) else whole
  }

  /** as_merged_requests up to the removal: the request behind that at i was appended to it, and the one
  that expires first gives its place in the fifo. */
  function Join(d: Side, i: nat): Side
    requires i + 1 < |d.tree|
  {
    var a, b := d.tree[i], d.tree[i + 1];
    d.(tree := d.tree[i := Joined(a, b)],
       fifo := if b.expires < a.expires then MoveBehind(RemoveFirst(d.fifo, a.sector), a.sector, b.sector) else d.fifo)
  }

  /** as_merged_requests. */
  function Merge(d: Side, i: nat): Side
    requires i + 1 < |d.tree|
  {
    Remove(Join(d, i), i + 1)
  }

  // ---- looking at the neighbours is enough ------------------------------------------------------------

  /** The head is between what is before i and what is behind i, or everything is far behind it. */
  predicate HeadAt(last: nat, tree: seq<Arq>, i: nat)
    requires i < |tree|
  {
    || ((forall j | 0 <= j < i :: tree[j].sector < last) && (forall j | i < j < |tree| :: tree[j].sector >= last))
    || (i == 0 && forall j | 0 <= j < |tree| :: Wraps(last, tree[j].sector))
  }

  lemma SplitSeek(last: nat, a: nat, b: nat)
    requires a <= b
    ensures a >= last ==> NoWorse(last, a, b)
    ensures b < last && !Wraps(last, b) ==> NoWorse(last, b, a)
    ensures Wraps(last, b) ==> NoWorse(last, a, b)
  {
  }

  /** With the head at i, the best of the others is found among the two neighbours and the first. */
  lemma NeighboursAreEnough(last: nat, tree: seq<Arq>, i: nat)
    requires Disjoint(tree) && i < |tree| && HeadAt(last, tree, i)
    ensures IsNext(last, FindNext(last, tree, i), RemoveAt(tree, i))
  {
    var rest := RemoveAt(tree, i);
    var r := FindNext(last, tree, i);
    if |tree| > 1 {
      var x := r.value;
      forall j | 0 <= j < |tree| && j != i ensures NoWorse(last, x, tree[j].sector) {
        NeighbourBeats(last, tree, i, j);
      }
      forall j | 0 <= j < |rest| ensures NoWorse(last, x, rest[j].sector) {
        assert rest[j] == tree[if j < i then j else j + 1];
      }
      var k := if i > 0 && x == tree[i - 1].sector then i - 1 else if i + 1 < |tree| then i else 0;
      assert rest[k].sector == x;
    }
  }

  lemma NeighbourBeats(last: nat, tree: seq<Arq>, i: nat, j: nat)
    requires Disjoint(tree) && i < |tree| && HeadAt(last, tree, i) && j < |tree| && j != i
    ensures NoWorse(last, FindNext(last, tree, i).value, tree[j].sector)
  {
    var x := FindNext(last, tree, i).value;
    var next := if i + 1 < |tree| then tree[i + 1].sector else tree[0].sector;
    if i > 0 {
      var prev := tree[i - 1].sector;
      ChooseBetter(last, next, prev);
      NoWorseIsTotalOrder(last, next, prev, tree[j].sector);
      NoWorseIsTotalOrder(last, prev, next, tree[j].sector);
      assert NoWorse(last, x, next) && NoWorse(last, x, prev);
    }
    if j > i {
      SplitSeek(last, next, tree[j].sector);
    } else {
      SplitSeek(last, tree[j].sector, tree[i - 1].sector);
      SplitSeek(last, tree[0].sector, tree[j].sector);
    }
  }

  /** After a dispatch the head is at the dispatched request. */
  lemma DispatchedIsHead(tree: seq<Arq>, i: nat)
    requires Disjoint(tree) && i < |tree|
    ensures HeadAt(tree[i].End(), tree, i)
  {
  }

  /** The best request is where the head is. */
  lemma BestIsHead(last: nat, tree: seq<Arq>, i: nat)
    requires Disjoint(tree) && i < |tree| && BestOf(last, tree[i].sector, tree)
    ensures HeadAt(last, tree, i)
  {
    assert NoWorse(last, tree[i].sector, tree[0].sector);
    if !Wraps(last, tree[i].sector) {
      forall j | 0 <= j < |tree| && j != i ensures j < i <==> tree[j].sector < last {
        assert NoWorse(last, tree[i].sector, tree[j].sector);
      }
    }
  }

  // ---- every operation keeps the invariant --------------------------------------------------------------

  lemma RemoveTree(tree: seq<Arq>, i: nat)
    requires Disjoint(tree) && i < |tree|
    ensures Disjoint(RemoveAt(tree, i))
    ensures forall j | 0 <= j < |tree| - 1 :: RemoveAt(tree, i)[j] == tree[if j < i then j else j + 1]
  {
  }

  lemma RemoveFifo(d: Side, i: nat)
    requires i < |d.tree| && multiset(d.fifo) == multiset(Keys(d.tree))
    ensures multiset(Remove(d, i).fifo) == multiset(Keys(Remove(d, i).tree))
  {
    var keys := Keys(d.tree);
    var r := Remove(d, i);
    RemoveAtCounts(keys, i);
    assert keys[i] in multiset(d.fifo);
    RemoveFirstCounts(d.fifo, keys[i]);
    assert Keys(r.tree) == RemoveAt(keys, i);
    CancelOne(multiset(d.fifo), multiset(r.fifo), multiset(keys), multiset(Keys(r.tree)), multiset{}, multiset{}, keys[i]);
    assert multiset(r.fifo) == multiset(r.fifo) + multiset{};
    assert multiset(Keys(r.tree)) == multiset(Keys(r.tree)) + multiset{};
  }

  lemma RemoveNext(last: nat, next: Option<nat>, tree: seq<Arq>, i: nat)
    requires Disjoint(tree) && i < |tree| && IsNext(last, next, tree)
    ensures IsNext(last, if next == Some(tree[i].sector) then FindNext(last, tree, i) else next, RemoveAt(tree, i))
  {
    RemoveTree(tree, i);
    if next == Some(tree[i].sector) {
      BestIsHead(last, tree, i);
      NeighboursAreEnough(last, tree, i);
    } else {
      var j :| 0 <= j < |tree| && tree[j].sector == next.value;
      assert RemoveAt(tree, i)[if j < i then j else j - 1].sector == next.value;
    }
  }

  lemma RemoveOk(d: Side, i: nat)
    requires SideOk(d) && i < |d.tree|
    ensures SideOk(Remove(d, i))
  {
    RemoveTree(d.tree, i);
    RemoveNext(d.last, d.next, d.tree, i);
    RemoveFifo(d, i);
  }

  lemma SendOk(d: Side, i: nat)
    requires SideOk(d) && i < |d.tree|
    ensures SideOk(Send(d, i)) && Send(d, i).last == d.tree[i].End()
  {
    var last := d.tree[i].End();
    var next := FindNext(last, d.tree, i);
    DispatchedIsHead(d.tree, i);
    NeighboursAreEnough(last, d.tree, i);
    RemoveTree(d.tree, i);
    assert next != Some(d.tree[i].sector) by {
      if next.Some? {
        var j :| 0 <= j < |d.tree| - 1 && RemoveAt(d.tree, i)[j].sector == next.value;
      }
    }
    RemoveFifo(d.(last := last, next := next), i);
  }

  lemma LinkedDisjoint(tree: seq<Arq>, a: Arq)
    requires Disjoint(tree) && Fits(tree, a)
    ensures Disjoint(Linked(tree, a))
  {
    var k := Place(tree, a.sector);
    var r := Linked(tree, a);
    forall i, j | 0 <= i < j < |r| ensures r[i].sector < r[j].sector && r[i].End() <= r[j].sector {
      assert r[i] == if i < k then tree[i] else if i == k then a else tree[i - 1];
      assert r[j] == if j < k then tree[j] else if j == k then a else tree[j - 1];
      if i == k {
        assert tree[k].sector <= tree[j - 1].sector;
      }
    }
  }

  lemma LinkedNext(last: nat, next: Option<nat>, tree: seq<Arq>, a: Arq)
    requires IsNext(last, next, tree)
    ensures IsNext(last, Choose(last, Some(a.sector), next), Linked(tree, a))
  {
    var k := Place(tree, a.sector);
    var r := Linked(tree, a);
    assert r[k] == a;
    if next.Some? {
      ChooseBetter(last, a.sector, next.value);
      var j :| 0 <= j < |tree| && tree[j].sector == next.value;
      assert r[if j < k then j else j + 1] == tree[j];
    }
    var x := Choose(last, Some(a.sector), next).value;
    forall j | 0 <= j < |r| ensures NoWorse(last, x, r[j].sector) {
      if j != k {
        var m := if j < k then j else j - 1;
        assert r[j] == tree[m];
        NoWorseIsTotalOrder(last, a.sector, next.value, tree[m].sector);
      }
      if next.Some? {
        NoWorseIsTotalOrder(last, a.sector, next.value, r[j].sector);
      }
    }
  }

  lemma LinkedKeys(tree: seq<Arq>, a: Arq)
    ensures multiset(Keys(Linked(tree, a))) == multiset(Keys(tree)) + multiset{a.sector}
  {
    var k := Place(tree, a.sector);
    InsertCounts(Keys(tree), k, a.sector);
    assert Keys(Linked(tree, a)) == Keys(tree)[..k] + [a.sector] + Keys(tree)[k..];
  }

  lemma InsertOk(d: Side, a: Arq)
    requires SideOk(d) && Fits(d.tree, a)
    ensures SideOk(Insert(d, a))
  {
    LinkedDisjoint(d.tree, a);
    LinkedNext(d.last, d.next, d.tree, a);
    LinkedKeys(d.tree, a);
    assert multiset(d.fifo + [a.sector]) == multiset(d.fifo) + multiset{a.sector};
  }

  lemma SameSectors(last: nat, next: Option<nat>, tree: seq<Arq>, tree': seq<Arq>)
    requires |tree| == |tree'| && forall i | 0 <= i < |tree| :: tree'[i].sector == tree[i].sector
    ensures IsNext(last, next, tree) ==> IsNext(last, next, tree')
    ensures Keys(tree') == Keys(tree)
  {
    if IsNext(last, next, tree) && next.Some? {
      var j :| 0 <= j < |tree| && tree[j].sector == next.value;
      assert tree'[j].sector == next.value;
    }
  }

  lemma GrowOk(d: Side, i: nat, nr: nat)
    requires SideOk(d) && i < |d.tree|
    requires i + 1 < |d.tree| ==> d.tree[i].sector + nr <= d.tree[i + 1].sector
    ensures SideOk(Grow(d, i, nr))
  {
    SameSectors(d.last, d.next, d.tree, Grow(d, i, nr).tree);
  }

  /** The requests of the fifo stay the same when one takes the place of a later one. */
  lemma TakeOverFifo(d: Side, i: nat)
    requires i + 1 < |d.tree| && Disjoint(d.tree) && multiset(d.fifo) == multiset(Keys(d.tree))
    ensures var a, b := d.tree[i].sector, d.tree[i + 1].sector;
      multiset(MoveBehind(RemoveFirst(d.fifo, a), a, b)) == multiset(d.fifo)
  {
    var keys := Keys(d.tree);
    var a, b := keys[i], keys[i + 1];
    assert a in multiset(d.fifo) && b in multiset(d.fifo);
    RemoveFirstCounts(d.fifo, a);
    assert multiset(RemoveFirst(d.fifo, a))[b] == multiset(d.fifo)[b];
    assert b in multiset(RemoveFirst(d.fifo, a));
    TakeOverCounts(d.fifo, a, b);
  }

  lemma JoinFifo(d: Side, i: nat)
    requires i + 1 < |d.tree| && Disjoint(d.tree) && multiset(d.fifo) == multiset(Keys(d.tree))
    ensures multiset(Join(d, i).fifo) == multiset(Keys(Join(d, i).tree))
  {
    SameSectors(d.last, d.next, d.tree, Join(d, i).tree);
    if d.tree[i + 1].expires < d.tree[i].expires {
      TakeOverFifo(d, i);
    }
  }

  lemma SameFound(last: nat, tree: seq<Arq>, tree': seq<Arq>, i: nat)
    requires i < |tree| == |tree'| && forall k | 0 <= k < |tree| :: tree'[k].sector == tree[k].sector
    ensures FindNext(last, tree', i) == FindNext(last, tree, i)
  {
  }

  lemma RemoveSameSectors(tree: seq<Arq>, tree': seq<Arq>, i: nat)
    requires i < |tree| == |tree'| && forall k | 0 <= k < |tree| :: tree'[k].sector == tree[k].sector
    ensures var r, r' := RemoveAt(tree, i), RemoveAt(tree', i);
      |r| == |r'| && forall k | 0 <= k < |r| :: r'[k].sector == r[k].sector
  {
  }

  lemma JoinNext(d: Side, i: nat)
    requires i + 1 < |d.tree| && Disjoint(d.tree) && IsNext(d.last, d.next, d.tree)
    ensures IsNext(d.last, Merge(d, i).next, Merge(d, i).tree)
  {
    var tree := Join(d, i).tree;
    RemoveNext(d.last, d.next, d.tree, i + 1);
    SameFound(d.last, d.tree, tree, i + 1);
    RemoveSameSectors(d.tree, tree, i + 1);
    SameSectors(d.last, Merge(d, i).next, RemoveAt(d.tree, i + 1), RemoveAt(tree, i + 1));
  }

  lemma MergeOk(d: Side, i: nat)
    requires SideOk(d) && i + 1 < |d.tree| && d.tree[i].End() == d.tree[i + 1].sector
    ensures SideOk(Merge(d, i))
  {
    MergedDisjoint(d.tree, i, Joined(d.tree[i], d.tree[i + 1]));
    JoinNext(d, i);
    JoinFifo(d, i);
    RemoveFifo(Join(d, i), i + 1);
  }

  /** The grown request covers the one that goes away. */
  lemma MergedDisjoint(tree: seq<Arq>, i: nat, a: Arq)
    requires Disjoint(tree) && i + 1 < |tree|
    requires a.sector == tree[i].sector && a.End() == tree[i + 1].End() && tree[i].End() == tree[i + 1].sector
    ensures Disjoint(RemoveAt(tree[i := a], i + 1))
  {
    var r := RemoveAt(tree[i := a], i + 1);
    forall j, k | 0 <= j < k < |r| ensures r[j].sector < r[k].sector && r[j].End() <= r[k].sector {
      assert r[k] == if k == i then a else if k < i then tree[k] else tree[k + 1];
      assert r[j] == if j == i then a else if j < i then tree[j] else tree[j + 1];
    }
  }
}
