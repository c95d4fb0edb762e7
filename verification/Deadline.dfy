/** block/deadline-iosched.c: the scheduler as a state machine.

One step is one operation under the queue lock.  Time is a natural number.  Directions are true for
WRITE and false for READ.
*/
module Deadline {
  import opened Sequences
  import opened DeadlineHash
  import opened DeadlineSort

  /** The unsigned ints. */
  const LIMIT: nat := 0x1_0000_0000

  type Unsigned = n: nat | n < LIMIT

  /** The ints from 0 on. */
  type NonNegative = n: nat | n < 0x8000_0000

  function AddUnsigned(a: Unsigned, b: Unsigned): Unsigned {
    if a + b < LIMIT then a + b else a + b - LIMIT
  }

  /** The tunables, and the hash function. fifo_batch is kept between 0 and INT_MAX; writes_starved is here
  what it is compared as, an unsigned number. */
  datatype Config = Config(h: HashFn, expireRead: nat, expireWrite: nat, fifoBatch: NonNegative, writesStarved: Unsigned) {
    function Expire(w: bool): nat { if w then expireWrite else expireRead }
  }

  /** struct deadline_data; `nomerge` are the requests that must not be merged, `out` the dispatch queue. */
  datatype State = State(read: Dir, write: Dir, hash: seq<seq<Entry>>, nomerge: set<nat>, batching: Unsigned, starved: Unsigned,
                         last: nat, clock: nat, out: seq<Drq>)
  {
    function Of(w: bool): Dir { if w then write else read }
    function With(w: bool, d: Dir): State { if w then this.(write := d) else this.(read := d) }
  }

  // ---- moving requests ---------------------------------------------------------------------------------------

  /** deadline_move_request. */
  function Move(s: State, w: bool, i: nat): State
    requires i < |s.Of(w).tree|
  {
    var d := s.Of(w);
    var x := d.tree[i];
    s.With(!w, s.Of(!w).(next := None))
     .With(w, Take(d.(next := SuccId(d.tree, i)), i))
     .(last := x.End(), hash := Del(s.hash, x.id), out := s.out + [x])
  }

  /** The retry loop of deadline_add_drq_rb. */
  function SendAlias(s: State, w: bool, sector: nat): State {
    var t := s.Of(w).tree;
    if HasAlias(t, sector) then Move(s, w, Place(t, sector)) else s
  }

  function LinkIn(s: State, w: bool, x: Drq): State {
    s.With(w, s.Of(w).(tree := Linked(s.Of(w).tree, x)))
  }

  function DelEntry(s: State, id: nat): State {
    s.(hash := Del(s.hash, id))
  }

  /** deadline_del_drq_hash and deadline_add_drq_hash. */
  function Rekey(c: Config, s: State, e: Entry): State
    requires c.h(e.end) < |s.hash|
  {
    s.(hash := DeadlineHash.Put(c.h, Del(s.hash, e.id), e))
  }

  // ---- operations --------------------------------------------------------------------------------------------

  /** deadline_add_request. */
  function Add(c: Config, s: State, w: bool, x: Drq, now: nat, mergeable: bool): State
    requires c.h(x.End()) < |s.hash|
  {
    var s1 := SendAlias(s, w, x.sector);
    var d := s1.Of(w);
    s1.With(w, d.(tree := Linked(d.tree, x), fifo := d.fifo + [Timed(x.id, now + c.Expire(w))]))
      .(clock := now,
        hash := if mergeable then DeadlineHash.Put(c.h, s1.hash, x.Key()) else s1.hash,
        nomerge := if mergeable then s1.nomerge - {x.id} else s1.nomerge + {x.id})
  }

  /** deadline_merged_request after the request at i became x. */
  function Merged(c: Config, s: State, w: bool, i: nat, x: Drq): State
    requires i < |s.Of(w).tree| && c.h(x.End()) < |s.hash|
  {
    var s1 := Rekey(c, s, x.Key());
    if x.sector != s.Of(w).tree[i].sector then
      LinkIn(SendAlias(s1.With(w, Detach(s1.Of(w), i)), w, x.sector), w, x)
    else s1.With(w, s1.Of(w).(tree := s1.Of(w).tree[i := x]))
  }

  /** A request has a new end and swallowed the one called id. */
  function Rejoined(c: Config, s: State, w: bool, e: Entry, d: Dir, id: nat): State
    requires c.h(e.end) < |s.hash|
  {
    DelEntry(Rekey(c, s, e).With(w, d), id)
  }

  /** deadline_merged_requests: the successor of the request at i was appended to it. */
  function MergedRequests(c: Config, s: State, w: bool, i: nat): State
    requires i + 1 < |s.Of(w).tree| && c.h(s.Of(w).tree[i].End() + s.Of(w).tree[i + 1].nr) < |s.hash|
  {
    var a, b := s.Of(w).tree[i], s.Of(w).tree[i + 1];
    Rejoined(c, s, w, Entry(a.id, a.End() + b.nr), Join(s.Of(w), i), b.id)
  }

  /** The search of deadline_merge for a back merge, and deadline_hot_drq_hash. */
  function FindBack(c: Config, s: State, offset: nat): (State, Option<nat>)
    requires Bounded(c.h, |s.hash|)
  {
    var (r, rest) := Search(s.hash[c.h(offset)], s.nomerge, offset);
    (s.(hash := s.hash[c.h(offset) := rest]), r)
  }

  // ---- dispatching -------------------------------------------------------------------------------------------

  function IndexOf(t: seq<Drq>, id: nat): (k: nat)
    ensures k <= |t|
    ensures k < |t| ==> t[k].id == id
  {
    if t == [] || t[0].id == id then 0 else 1 + IndexOf(t[1..], id)
  }

  /** The label dispatch_request. */
  function Go(s: State, w: bool, i: nat): (State, bool) {
    if i < |s.Of(w).tree| then (Move(s.(batching := AddUnsigned(s.batching, 1)), w, i), true) else (s, false)
  }

  /** The label dispatch_find_request. */
  function FindRequest(s: State, w: bool, now: nat): (State, bool) {
    var d := s.Of(w);
    if d.fifo != [] && now > d.fifo[0].expires then Go(s.(batching := 0), w, IndexOf(d.tree, d.fifo[0].id))
    else if d.next.Some? then Go(s, w, IndexOf(d.tree, d.next.value))
    else Go(s.(batching := 0), w, 0)
  }

  /** No batch is running: choose the direction. */
  function ChooseDir(c: Config, s: State, now: nat): (State, bool) {
    if s.read.fifo != [] then
      if s.write.fifo == [] then FindRequest(s, false, now)
      else if s.starved < c.writesStarved then FindRequest(s.(starved := AddUnsigned(s.starved, 1)), false, now)
      else FindRequest(s.(starved := 0), true, now)
    else if s.write.fifo != [] then FindRequest(s.(starved := 0), true, now)
    else (s, false)
  }

  /** deadline_dispatch_requests. */
  function Dispatch(c: Config, s: State, now: nat): (State, bool) {
    var w := s.write.next.Some?;
    if s.Of(w).next == None then ChooseDir(c, s, now)
    else
      var i := IndexOf(s.Of(w).tree, s.Of(w).next.value);
      if i == |s.Of(w).tree| then (s, false)
      else
        var s1 := if s.last != s.Of(w).tree[i].sector then s.(batching := AddUnsigned(s.batching, c.fifoBatch)) else s;
        if s1.batching < c.fifoBatch then Go(s1, w, i) else ChooseDir(c, s1, now)
  }

  // ---- runs ------------------------------------------------------------------------------------------------------

  datatype Event =
    | Arrive(w: bool, x: Drq, now: nat, mergeable: bool)
    | Extend(w: bool, i: nat, x: Drq)
    | JoinNext(w: bool, i: nat)
    | Lookup(offset: nat)
    | Heat(e: Entry)
    | Freeze(id: nat)
    | DispatchOne(now: nat)

  /** The requests that are queued, with one that may be off the tree. */
  function Everything(s: State, x: seq<Drq>): seq<Drq> {
    s.read.tree + s.write.tree + x
  }

  ghost predicate Enabled(c: Config, s: State, e: Event) {
    match e
    case Arrive(w, x, now, _) => now >= s.clock && !HasId(Everything(s, []), x.id)
    case Extend(w, i, x) => i < |s.Of(w).tree| && x.id == s.Of(w).tree[i].id
    case JoinNext(w, i) => i + 1 < |s.Of(w).tree| && s.Of(w).tree[i].End() == s.Of(w).tree[i + 1].sector
    case Lookup(_) => true
    case Heat(_) => true
    case Freeze(_) => true
    case DispatchOne(_) => true
  }

  function Step(c: Config, s: State, e: Event): State
    requires Bounded(c.h, |s.hash|) && Enabled(c, s, e)
  {
    match e
    case Arrive(w, x, now, mergeable) => Add(c, s, w, x, now, mergeable)
    case Extend(w, i, x) => Merged(c, s, w, i, x)
    case JoinNext(w, i) => MergedRequests(c, s, w, i)
    case Lookup(offset) => FindBack(c, s, offset).0
    case Heat(e) => s.(hash := Hot(c.h, s.hash, e))
    case Freeze(id) => s.(nomerge := s.nomerge + {id})
    case DispatchOne(now) => Dispatch(c, s, now).0
  }

  // ---- the invariant ---------------------------------------------------------------------------------------------

  function ExtraIds(w: bool, v: bool, x: seq<Drq>): multiset<nat> {
    if w == v then multiset(Ids(x)) else multiset{}
  }

  /** What holds while the requests x of direction w are off the tree. */
  ghost predicate InvX(c: Config, s: State, w: bool, x: seq<Drq>) {
    && DirOk(s.read, ExtraIds(w, false, x), s.clock + c.expireRead)
    && DirOk(s.write, ExtraIds(w, true, x), s.clock + c.expireWrite)
    && Unique(multiset(Ids(Everything(s, x))))
    && HashInv(c.h, s.hash, Ends(Everything(s, x)), s.nomerge)
    && (s.read.next == None || s.write.next == None)
  }

  ghost predicate Inv(c: Config, s: State) {
    InvX(c, s, false, [])
  }

  /** The invariant spelled out: sort_list, fifo_list and hash describe the same requests. */
  lemma Coherent(c: Config, s: State, w: bool)
    requires Inv(c, s)
    ensures Sorted(s.Of(w).tree)
    ensures multiset(FifoIds(s.Of(w).fifo)) == multiset(Ids(s.Of(w).tree))
    ensures FifoSorted(s.Of(w).fifo)
    ensures s.Of(w).next.Some? ==> HasId(s.Of(w).tree, s.Of(w).next.value)
    ensures s.read.next == None || s.write.next == None
  {
    assert Ids([]) == [];
    assert multiset(Ids(s.Of(w).tree)) + multiset{} == multiset(Ids(s.Of(w).tree));
  }
}
