/** block/deadline-iosched.c: the requests of one direction: sort_list, fifo_list and next_drq. */
module DeadlineSort {
  import opened Sequences
  import opened DeadlineHash

  /** struct deadline_rq with the extent of its request; rb_key is the start sector. */
  datatype Drq = Drq(id: nat, sector: nat, nr: nat) {
    function End(): nat { sector + nr }
    function Key(): Entry { Entry(id, End()) }
  }

  /** A request on the fifo and the time it expires. */
  datatype Timed = Timed(id: nat, expires: nat)

  datatype Dir = Dir(tree: seq<Drq>, fifo: seq<Timed>, next: Option<nat>)

  // ---- the fifo --------------------------------------------------------------------------------------------

  function FifoIds(f: seq<Timed>): seq<nat> {
    seq(|f|, k requires 0 <= k < |f| => f[k].id)
  }

  predicate FifoSorted(f: seq<Timed>) {
    forall i, j | 0 <= i < j < |f| :: f[i].expires <= f[j].expires
  }

  predicate Before(f: seq<Timed>, limit: nat) {
    forall i | 0 <= i < |f| :: f[i].expires <= limit
  }

  predicate After(f: seq<Timed>, limit: nat) {
    forall i | 0 <= i < |f| :: f[i].expires >= limit
  }

  function Drop(f: seq<Timed>, id: nat): seq<Timed> {
    if f == [] then [] else if f[0].id == id then f[1..] else [f[0]] + Drop(f[1..], id)
  }

  /** list_move behind the entry of `mark`. */
  function PutBehind(f: seq<Timed>, x: Timed, mark: nat): seq<Timed> {
    if f == [] then [] else if f[0].id == mark then [f[0], x] + f[1..] else [f[0]] + PutBehind(f[1..], x, mark)
  }

  function ExpiresOf(f: seq<Timed>, id: nat): nat {
    if f == [] then 0 else if f[0].id == id then f[0].expires else ExpiresOf(f[1..], id)
  }

  lemma {:induction false} DropCounts(f: seq<Timed>, id: nat)
    requires id in FifoIds(f)
    ensures multiset(FifoIds(f)) == multiset(FifoIds(Drop(f, id))) + multiset{id}
  {
    var ids := FifoIds(f);
    assert ids == [ids[0]] + ids[1..];
    assert ids[1..] == FifoIds(f[1..]);
    if f[0].id != id {
      DropCounts(f[1..], id);
      assert FifoIds(Drop(f, id)) == [ids[0]] + FifoIds(Drop(f[1..], id));
    }
  }

  lemma {:induction false} DropOrder(f: seq<Timed>, id: nat, low: nat, high: nat)
    requires FifoSorted(f) && Before(f, high) && After(f, low)
    ensures FifoSorted(Drop(f, id)) && Before(Drop(f, id), high) && After(Drop(f, id), low)
  {
    if f != [] && f[0].id != id {
      DropOrder(f[1..], id, f[0].expires, high);
    }
  }

  lemma {:induction false} PutBehindCounts(f: seq<Timed>, x: Timed, mark: nat)
    requires mark in FifoIds(f)
    ensures multiset(FifoIds(PutBehind(f, x, mark))) == multiset(FifoIds(f)) + multiset{x.id}
  {
    var ids := FifoIds(f);
    assert ids == [ids[0]] + ids[1..];
    assert ids[1..] == FifoIds(f[1..]);
    if f[0].id == mark {
      assert FifoIds(PutBehind(f, x, mark)) == [ids[0], x.id] + ids[1..];
    } else {
      PutBehindCounts(f[1..], x, mark);
      assert FifoIds(PutBehind(f, x, mark)) == [ids[0]] + FifoIds(PutBehind(f[1..], x, mark));
    }
  }

  /** Taking over the expiry time of the entry in front keeps the order. */
  lemma {:induction false} PutBehindOrder(f: seq<Timed>, x: Timed, mark: nat, low: nat, high: nat)
    requires FifoSorted(f) && Before(f, high) && After(f, low) && mark in FifoIds(f) && x.expires == ExpiresOf(f, mark)
    ensures var r := PutBehind(f, x, mark); FifoSorted(r) && Before(r, high) && After(r, low)
  {
    assert FifoIds(f)[1..] == FifoIds(f[1..]);
    assert FifoIds(f)[0] == f[0].id;
    if f[0].id != mark {
      PutBehindOrder(f[1..], x, mark, f[0].expires, high);
    }
  }

  /** The head of a sorted fifo decides whether anything has expired. */
  lemma HeadDecides(f: seq<Timed>, now: nat)
    requires FifoSorted(f) && f != []
    ensures now > f[0].expires <==> exists i | 0 <= i < |f| :: now > f[i].expires
  {
    if i :| 0 <= i < |f| && now > f[i].expires {
      assert f[0].expires <= f[i].expires;
    }
  }

  // ---- the tree --------------------------------------------------------------------------------------------

  predicate Sorted(t: seq<Drq>) {
    forall i, j | 0 <= i < j < |t| :: t[i].sector < t[j].sector
  }

  function Ids(t: seq<Drq>): seq<nat> {
    seq(|t|, k requires 0 <= k < |t| => t[k].id)
  }

  /** The entries the hash may have for these requests. */
  function Ends(t: seq<Drq>): set<Entry> {
    set i | 0 <= i < |t| :: t[i].Key()
  }

  predicate HasId(t: seq<Drq>, id: nat) {
    exists i | 0 <= i < |t| :: t[i].id == id
  }

  function Place(t: seq<Drq>, sector: nat): (k: nat)
    ensures k <= |t|
    ensures forall i | 0 <= i < k :: t[i].sector < sector
    ensures k < |t| ==> t[k].sector >= sector
  {
    if t == [] || t[0].sector >= sector then 0 else 1 + Place(t[1..], sector)
  }

  predicate HasAlias(t: seq<Drq>, sector: nat) {
    var k := Place(t, sector); k < |t| && t[k].sector == sector
  }

  function Linked(t: seq<Drq>, x: Drq): seq<Drq> {
    var k := Place(t, x.sector); t[..k] + [x] + t[k..]
  }

  /** rb_next. */
  function SuccId(t: seq<Drq>, i: nat): Option<nat>
    requires i < |t|
  {
    if i + 1 < |t| then Some(t[i + 1].id) else None
  }

  ghost predicate Unique(ids: multiset<nat>) {
    forall id: nat :: ids[id] <= 1
  }

  lemma {:induction false} IdsAt(t: seq<Drq>, i: nat, j: nat)
    requires i < j < |t| && t[i].id == t[j].id
    ensures multiset(Ids(t))[t[i].id] >= 2
  {
    var ids := Ids(t);
    assert ids == ids[..j] + ids[j..];
    assert ids[..j][i] == t[i].id && ids[j..][0] == t[i].id;
    assert t[i].id in multiset(ids[..j]) && t[i].id in multiset(ids[j..]);
  }

  lemma DifferentIds(t: seq<Drq>, i: nat, j: nat)
    requires Unique(multiset(Ids(t))) && i < |t| && j < |t| && i != j
    ensures t[i].id != t[j].id
  {
    if t[i].id == t[j].id {
      IdsAt(t, if i < j then i else j, if i < j then j else i);
    }
  }

  lemma RemoveTree(t: seq<Drq>, i: nat)
    requires Sorted(t) && i < |t|
    ensures Sorted(RemoveAt(t, i))
    ensures multiset(Ids(t)) == multiset(Ids(RemoveAt(t, i))) + multiset{t[i].id}
  {
    RemoveAtCounts(Ids(t), i);
    assert Ids(RemoveAt(t, i)) == RemoveAt(Ids(t), i);
  }

  lemma RemoveEnds(t: seq<Drq>, i: nat)
    requires i < |t| && Unique(multiset(Ids(t)))
    ensures Ends(RemoveAt(t, i)) == Ends(t) - {t[i].Key()}
  {
    var r := RemoveAt(t, i);
    forall j | 0 <= j < |t| && j != i ensures t[j].Key() != t[i].Key() && t[j].Key() in Ends(r) {
      DifferentIds(t, i, j);
      assert r[if j < i then j else j - 1] == t[j];
    }
    forall j | 0 <= j < |r| ensures r[j].Key() in Ends(t) && r[j].Key() != t[i].Key() {
      assert r[j] == t[if j < i then j else j + 1];
      DifferentIds(t, i, if j < i then j else j + 1);
    }
  }

  lemma LinkSorted(t: seq<Drq>, x: Drq)
    requires Sorted(t) && !HasAlias(t, x.sector)
    ensures Sorted(Linked(t, x))
  {
  }

  lemma LinkTree(t: seq<Drq>, x: Drq)
    requires Sorted(t) && !HasAlias(t, x.sector)
    ensures Sorted(Linked(t, x))
    ensures multiset(Ids(Linked(t, x))) == multiset(Ids(t)) + multiset{x.id}
  {
    LinkSorted(t, x);
    LinkIds(t, x);
  }

  lemma LinkIds(t: seq<Drq>, x: Drq)
    ensures multiset(Ids(Linked(t, x))) == multiset(Ids(t)) + multiset{x.id}
  {
    var k := Place(t, x.sector);
    InsertCounts(Ids(t), k, x.id);
    assert Ids(Linked(t, x)) == Ids(t)[..k] + [x.id] + Ids(t)[k..];
  }

  lemma LinkEnds(t: seq<Drq>, x: Drq)
    ensures Ends(Linked(t, x)) == Ends(t) + {x.Key()}
  {
    var k := Place(t, x.sector);
    var r := Linked(t, x);
    assert r[k] == x;
    forall j | 0 <= j < |t| ensures t[j].Key() in Ends(r) {
      assert r[if j < k then j else j + 1] == t[j];
    }
    forall j | 0 <= j < |r| ensures r[j].Key() in Ends(t) + {x.Key()} {
      assert r[j] == if j < k then t[j] else if j == k then x else t[j - 1];
    }
  }

  lemma RemoveHasId(t: seq<Drq>, i: nat, id: nat)
    requires i < |t| && HasId(t, id) && t[i].id != id
    ensures HasId(RemoveAt(t, i), id)
  {
    var j :| 0 <= j < |t| && t[j].id == id;
    assert RemoveAt(t, i)[if j < i then j else j - 1].id == id;
  }

  lemma LinkHasId(t: seq<Drq>, x: Drq, id: nat)
    requires HasId(t, id)
    ensures HasId(Linked(t, x), id)
  {
    var j :| 0 <= j < |t| && t[j].id == id;
    var k := Place(t, x.sector);
    assert Linked(t, x)[if j < k then j else j + 1].id == id;
  }

  // ---- one direction ---------------------------------------------------------------------------------------

  /** `extra` are requests on the fifo that are just being repositioned in the tree. */
  predicate FifoOk(d: Dir, extra: multiset<nat>) {
    multiset(FifoIds(d.fifo)) == multiset(Ids(d.tree)) + extra
  }

  predicate NextOk(d: Dir) {
    d.next.Some? ==> HasId(d.tree, d.next.value)
  }

  predicate DirOk(d: Dir, extra: multiset<nat>, limit: nat) {
    Sorted(d.tree) && FifoOk(d, extra) && FifoSorted(d.fifo) && Before(d.fifo, limit) && NextOk(d)
  }

  /** deadline_del_drq_rb. */
  function Detach(d: Dir, i: nat): Dir
    requires i < |d.tree|
  {
    d.(next := if d.next == Some(d.tree[i].id) then SuccId(d.tree, i) else d.next, tree := RemoveAt(d.tree, i))
  }

  /** deadline_remove_request, without the hash. */
  function Take(d: Dir, i: nat): Dir
    requires i < |d.tree|
  {
    Detach(d.(fifo := Drop(d.fifo, d.tree[i].id)), i)
  }

  lemma DetachNext(d: Dir, i: nat)
    requires i < |d.tree| && NextOk(d)
    ensures NextOk(Detach(d, i))
  {
    var r := Detach(d, i);
    if d.next == Some(d.tree[i].id) {
      if i + 1 < |d.tree| {
        assert r.tree[i].id == d.tree[i + 1].id;
      }
    } else if d.next.Some? {
      RemoveHasId(d.tree, i, d.next.value);
    }
  }

  lemma TakeFifo(d: Dir, i: nat, extra: multiset<nat>)
    requires i < |d.tree| && Sorted(d.tree) && FifoOk(d, extra)
    ensures FifoOk(Take(d, i), extra)
  {
    var ids, fids, r := Ids(d.tree), FifoIds(d.fifo), Take(d, i);
    assert ids[i] in multiset(ids) + extra;
    assert ids[i] in multiset(fids);
    DropCounts(d.fifo, ids[i]);
    RemoveTree(d.tree, i);
    CancelOne(multiset(fids), multiset(FifoIds(r.fifo)), multiset(ids), multiset(Ids(r.tree)), multiset{}, extra, ids[i]);
    assert multiset(FifoIds(r.fifo)) == multiset(FifoIds(r.fifo)) + multiset{};
  }

  lemma TakeOk(d: Dir, i: nat, extra: multiset<nat>, limit: nat)
    requires DirOk(d, extra, limit) && i < |d.tree|
    ensures DirOk(Take(d, i), extra, limit)
  {
    RemoveTree(d.tree, i);
    TakeFifo(d, i, extra);
    DropOrder(d.fifo, d.tree[i].id, 0, limit);
    DetachNext(d.(fifo := Drop(d.fifo, d.tree[i].id)), i);
  }

  /** A request is taken out of the tree, to be put back elsewhere. */
  lemma DetachOk(d: Dir, i: nat, limit: nat)
    requires DirOk(d, multiset{}, limit) && i < |d.tree|
    ensures DirOk(Detach(d, i), multiset{d.tree[i].id}, limit)
  {
    RemoveTree(d.tree, i);
    DetachNext(d, i);
    assert multiset(Ids(d.tree)) + multiset{} == multiset(Ids(RemoveAt(d.tree, i))) + multiset{d.tree[i].id};
  }

  /** A request that is on the fifo is put into the tree. */
  lemma RelinkOk(d: Dir, x: Drq, limit: nat)
    requires DirOk(d, multiset{x.id}, limit) && !HasAlias(d.tree, x.sector)
    ensures DirOk(d.(tree := Linked(d.tree, x)), multiset{}, limit)
  {
    LinkTree(d.tree, x);
    if d.next.Some? {
      LinkHasId(d.tree, x, d.next.value);
    }
  }

  /** A new request goes to the end of the fifo. */
  lemma EnqueueOk(d: Dir, x: Drq, limit: nat, expires: nat)
    requires DirOk(d, multiset{}, limit) && !HasAlias(d.tree, x.sector) && limit <= expires
    ensures DirOk(d.(tree := Linked(d.tree, x), fifo := d.fifo + [Timed(x.id, expires)]), multiset{}, expires)
  {
    LinkTree(d.tree, x);
    if d.next.Some? {
      LinkHasId(d.tree, x, d.next.value);
    }
    assert FifoIds(d.fifo + [Timed(x.id, expires)]) == FifoIds(d.fifo) + [x.id];
  }

  // ---- two requests become one --------------------------------------------------------------------------------

  /** The fifo after the request of id b was appended to that of id a: the earlier expiry time counts. */
  function JoinFifo(f: seq<Timed>, a: nat, b: nat): seq<Timed> {
    if ExpiresOf(f, b) < ExpiresOf(f, a) then PutBehind(Drop(f, a), Timed(a, ExpiresOf(f, b)), b) else f
  }

  /** The request at i has swallowed its successor. */
  function Joined(d: Dir, i: nat): Dir
    requires i + 1 < |d.tree|
  {
    var a, b := d.tree[i], d.tree[i + 1];
    d.(tree := d.tree[i := a.(nr := a.nr + b.nr)], fifo := JoinFifo(d.fifo, a.id, b.id))
  }

  /** deadline_merged_requests for the request at i and its successor, without the hash. */
  function Join(d: Dir, i: nat): Dir
    requires i + 1 < |d.tree|
  {
    Take(Joined(d, i), i + 1)
  }

  lemma {:induction false} ExpiresOfDrop(f: seq<Timed>, a: nat, b: nat)
    requires a != b
    ensures ExpiresOf(Drop(f, a), b) == ExpiresOf(f, b)
  {
    if f != [] && f[0].id != a {
      ExpiresOfDrop(f[1..], a, b);
    }
  }

  lemma JoinFifoOk(f: seq<Timed>, a: nat, b: nat, limit: nat)
    requires FifoSorted(f) && Before(f, limit) && a != b && a in FifoIds(f) && b in FifoIds(f)
    ensures var r := JoinFifo(f, a, b);
      FifoSorted(r) && Before(r, limit) && multiset(FifoIds(r)) == multiset(FifoIds(f))
  {
    var g := Drop(f, a);
    DropOrder(f, a, 0, limit);
    DropCounts(f, a);
    assert multiset(FifoIds(g))[b] == multiset(FifoIds(f))[b];
    assert b in multiset(FifoIds(g));
    ExpiresOfDrop(f, a, b);
    var x := Timed(a, ExpiresOf(f, b));
    PutBehindOrder(g, x, b, 0, limit);
    PutBehindCounts(g, x, b);
  }

  lemma OnFifo(d: Dir, i: nat)
    requires i < |d.tree| && FifoOk(d, multiset{})
    ensures d.tree[i].id in FifoIds(d.fifo)
  {
    var ids := Ids(d.tree);
    assert ids[i] in multiset(ids) + multiset{};
    assert ids[i] in multiset(FifoIds(d.fifo));
  }

  /** The request at i grows, and the fifo is reordered. */
  lemma GrownDirOk(d: Dir, i: nat, nr: nat, f: seq<Timed>, limit: nat)
    requires DirOk(d, multiset{}, limit) && i < |d.tree|
    requires FifoSorted(f) && Before(f, limit) && multiset(FifoIds(f)) == multiset(FifoIds(d.fifo))
    ensures DirOk(d.(tree := d.tree[i := d.tree[i].(nr := nr)], fifo := f), multiset{}, limit)
  {
    GrownOk(d, i, nr);
  }

  lemma JoinedOk(d: Dir, i: nat, limit: nat)
    requires DirOk(d, multiset{}, limit) && i + 1 < |d.tree| && d.tree[i].id != d.tree[i + 1].id
    ensures DirOk(Joined(d, i), multiset{}, limit)
  {
    var a, b := d.tree[i], d.tree[i + 1];
    OnFifo(d, i);
    OnFifo(d, i + 1);
    JoinFifoOk(d.fifo, a.id, b.id, limit);
    GrownDirOk(d, i, a.nr + b.nr, JoinFifo(d.fifo, a.id, b.id), limit);
  }

  lemma JoinOk(d: Dir, i: nat, limit: nat)
    requires DirOk(d, multiset{}, limit) && i + 1 < |d.tree| && Unique(multiset(Ids(d.tree)))
    ensures DirOk(Join(d, i), multiset{}, limit)
  {
    DifferentIds(d.tree, i, i + 1);
    JoinedOk(d, i, limit);
    TakeOk(Joined(d, i), i + 1, multiset{}, limit);
  }

  lemma GrownOk(d: Dir, i: nat, nr: nat)
    requires i < |d.tree|
    ensures var t := d.tree[i := d.tree[i].(nr := nr)];
      && Ids(t) == Ids(d.tree)
      && (Sorted(d.tree) ==> Sorted(t))
      && (forall id: nat | HasId(d.tree, id) :: HasId(t, id))
  {
    var t := d.tree[i := d.tree[i].(nr := nr)];
    forall id: nat | HasId(d.tree, id) ensures HasId(t, id) {
      var j :| 0 <= j < |d.tree| && d.tree[j].id == id;
      assert t[j].id == id;
    }
  }
}
