/** block/elevator.c: the dispatch queue in one-way elevator order.

Requests are sort-inserted relative to a boundary, q->end_sector, that moves on as requests
are started. A soft barrier becomes the boundary of everything queued behind it. Hard barriers, which are
started by way of blk_do_ordered, are not part of these runs.
*/
module Elevator {
  import opened Sequences

  /** struct request: its sectors, REQ_SOFTBARRIER, REQ_STARTED. */
  datatype Rq = Rq(id: nat, sector: nat, nrSectors: nat, barrier: bool, started: bool) {
    /** rq_end_sector */
    function End(): nat { sector + nrSectors }

    predicate Fence() { barrier || started }
  }

  predicate Disjoint(a: Rq, b: Rq) {
    a.End() <= b.sector || b.End() <= a.sector
  }

  /** Two different requests, for different sectors. */
  predicate Apart(a: Rq, b: Rq) {
    a.id != b.id && Disjoint(a, b)
  }

  /** One-way elevator order from boundary b: up from b to the end of the disk, then from sector 0. */
  predicate OneWay(b: nat, s: nat, t: nat) {
    if (s >= b) == (t >= b) then s <= t else s >= b
  }

  /** Place i is in the tail that may still be re-sorted: no barrier or started request stands
      at i or behind it. */
  predicate Open(q: seq<Rq>, i: nat) {
    forall k | i <= k < |q| :: !q[k].Fence()
  }

  /** The part of the queue behind the last barrier or started request is in one-way order. */
  predicate TailOrdered(q: seq<Rq>, b: nat) {
    forall i, j | 0 <= i < j < |q| && Open(q, i) :: OneWay(b, q[i].sector, q[j].sector)
  }

  /** Where elv_dispatch_sort puts r: behind the last request that is a fence or precedes r. */
  function SortPos(q: seq<Rq>, b: nat, r: Rq): (p: nat)
    ensures p <= |q| && Open(q, p)
    ensures forall i | p <= i < |q| :: !OneWay(b, q[i].sector, r.sector)
    ensures p == 0 || q[p - 1].Fence() || OneWay(b, q[p - 1].sector, r.sector)
  {
    if q == [] || q[|q| - 1].Fence() || OneWay(b, q[|q| - 1].sector, r.sector) then |q|
    else SortPos(q[..|q| - 1], b, r)
  }

  lemma OneWayTotal(b: nat, s: nat, t: nat, u: nat)
    ensures OneWay(b, s, t) || OneWay(b, t, s)
    ensures OneWay(b, s, t) && OneWay(b, t, u) ==> OneWay(b, s, u)
  {
  }

  lemma InsertOpen(q: seq<Rq>, p: nat, r: Rq, i: nat)
    requires p <= |q| && !r.Fence() && i <= |q|
    ensures var t := InsertAt(q, p, r); Open(t, if i <= p then i else i + 1) <==> Open(q, i)
  {
    var t := InsertAt(q, p, r);
    assert forall k | 0 <= k < |t| :: t[k] == if k < p then q[k] else if k == p then r else q[k - 1];
    var i' := if i <= p then i else i + 1;
    if Open(t, i') {
      forall k | i <= k < |q| ensures !q[k].Fence() {
        assert q[k] == t[if k < p then k else k + 1];
      }
    }
  }

  /** The sort-insert keeps the tail in order. */
  lemma SortInsertOrdered(q: seq<Rq>, b: nat, r: Rq)
    requires TailOrdered(q, b) && !r.Fence()
    ensures TailOrdered(InsertAt(q, SortPos(q, b, r), r), b)
  {
    var p := SortPos(q, b, r);
    var t := InsertAt(q, p, r);
    forall i, j | 0 <= i < j < |t| && Open(t, i)
      ensures OneWay(b, t[i].sector, t[j].sector)
    {
      InsertOpen(q, p, r, if i <= p then i else i - 1);
      SortedPair(q, b, r, i, j);
    }
  }

  lemma SortedPair(q: seq<Rq>, b: nat, r: Rq, i: nat, j: nat)
    requires TailOrdered(q, b) && i < j <= |q|
    requires Open(q, if i <= SortPos(q, b, r) then i else i - 1)
    ensures var t := InsertAt(q, SortPos(q, b, r), r); OneWay(b, t[i].sector, t[j].sector)
  {
    var p := SortPos(q, b, r);
    InsertAtIndex(q, p, r, i);
    InsertAtIndex(q, p, r, j);
    if j == p {
      assert Open(q, p - 1) && !q[p - 1].Fence();
      OneWayTotal(b, q[i].sector, q[p - 1].sector, r.sector);
    } else if i == p {
      OneWayTotal(b, q[j - 1].sector, r.sector, 0);
    }
  }

  /** When the head is started the boundary moves to its end, and the requests behind it are in
      one-way order from there too. */
  lemma BoundaryMoves(q: seq<Rq>, b: nat)
    requires q != [] && Open(q, 0) && TailOrdered(q, b)
    requires forall i | 0 <= i < |q| :: q[i].nrSectors > 0
    requires forall j | 0 < j < |q| :: Disjoint(q[0], q[j])
    ensures forall i, j | 0 < i < j < |q| :: OneWay(q[0].End(), q[i].sector, q[j].sector)
  {
    forall i, j | 0 < i < j < |q|
      ensures OneWay(q[0].End(), q[i].sector, q[j].sector)
    {
      assert OneWay(b, q[0].sector, q[i].sector) && OneWay(b, q[0].sector, q[j].sector);
      assert Disjoint(q[0], q[i]) && Disjoint(q[0], q[j]);
    }
  }

  /** The queue, what the I/O scheduler holds, and the boundary. */
  datatype State = State(queue: seq<Rq>, sched: seq<Rq>, endSector: nat, boundary: Option<Rq>, nrSorted: int,
                         nextId: nat)

  const INIT := State([], [], 0, None, 0, 0)

  /** elv_dispatch_sort */
  function DispatchSort(s: State, r: Rq): State {
    s.(queue := InsertAt(s.queue, SortPos(s.queue, s.endSector, r), r), nrSorted := s.nrSorted - 1)
  }

  /** The scheduler moves its i-th request to the dispatch queue. */
  function Move(s: State, i: nat): State
    requires i < |s.sched|
  {
    DispatchSort(s.(sched := s.sched[..i] + s.sched[i + 1..]), s.sched[i])
  }

  /** elv_drain_elevator, with the scheduler's choices. */
  predicate CanDrain(s: State, picks: seq<nat>) {
    |picks| == |s.sched| && forall k | 0 <= k < |picks| :: picks[k] < |picks| - k
  }

  function Drain(s: State, picks: seq<nat>): State
    requires CanDrain(s, picks)
    decreases |picks|
  {
    if picks == [] then s else Drain(Move(s, picks[0]), picks[1..])
  }

  datatype Event =
    | Add(sector: nat, nrSectors: nat)                              // a plain request, to the scheduler
    | AddBarrier(sector: nat, nrSectors: nat, picks: seq<nat>)      // a barrier: drain, then to the back
    | Dispatch(i: nat)                                              // the scheduler moves one request
    | Start                                                         // elv_next_request returns the head
    | Dequeue                                                       // the driver takes the started head

  predicate Fresh(s: State, r: Rq) {
    && r.nrSectors > 0
    && (forall i | 0 <= i < |s.queue| :: Disjoint(s.queue[i], r))
    && (forall i | 0 <= i < |s.sched| :: Disjoint(s.sched[i], r))
  }

  function NewRq(s: State, sector: nat, nrSectors: nat, barrier: bool): Rq {
    Rq(s.nextId, sector, nrSectors, barrier, false)
  }

  predicate Enabled(s: State, e: Event) {
    match e
    case Add(sector, n) => Fresh(s, NewRq(s, sector, n, false))
    case AddBarrier(sector, n, picks) => Fresh(s, NewRq(s, sector, n, true)) && CanDrain(s, picks)
    case Dispatch(i) => i < |s.sched|
    case Start => s.queue != []
    case Dequeue => s.queue != [] && s.queue[0].started
  }

  /** __elv_add_request for a barrier: it becomes the boundary before the scheduler is drained. */
  function BarrierStep(s: State, r: Rq, picks: seq<nat>): State
    requires CanDrain(s, picks)
  {
    var t := Drain(s.(endSector := r.End(), boundary := Some(r)), picks);
    t.(queue := t.queue + [r], nextId := s.nextId + 1)
  }

  /** elv_next_request on the head of the queue. */
  function StartStep(s: State): State
    requires s.queue != []
  {
    var r := s.queue[0];
    var t := s.(queue := [r.(started := true)] + s.queue[1..]);
    if s.boundary.None? || s.boundary.value.id == r.id then t.(endSector := r.End(), boundary := None) else t
  }

  function Step(s: State, e: Event): State
    requires Enabled(s, e)
  {
    match e
    case Add(sector, n) =>
      s.(sched := s.sched + [NewRq(s, sector, n, false)], nrSorted := s.nrSorted + 1, nextId := s.nextId + 1)
    case AddBarrier(sector, n, picks) => BarrierStep(s, NewRq(s, sector, n, true), picks)
    case Dispatch(i) => Move(s, i)
    case Start => StartStep(s)
    case Dequeue => s.(queue := s.queue[1..])
  }

  predicate CanRun(s: State, run: seq<Event>)
    decreases |run|
  {
    run == [] || (Enabled(s, run[0]) && CanRun(Step(s, run[0]), run[1..]))
  }

  function Run(s: State, run: seq<Event>): State
    requires CanRun(s, run)
    decreases |run|
  {
    if run == [] then s else Run(Step(s, run[0]), run[1..])
  }

  predicate Parted(q: seq<Rq>) {
    forall i, j | 0 <= i < j < |q| :: Apart(q[i], q[j])
  }

  predicate PartedFrom(q: seq<Rq>, r: Rq) {
    forall i | 0 <= i < |q| :: Apart(q[i], r)
  }

  /** The requests are different ones for different sectors; only the head can have been started. */
  predicate Sound(s: State) {
    && Parted(s.queue) && Parted(s.sched)
    && (forall j | 0 <= j < |s.sched| :: PartedFrom(s.queue, s.sched[j]))
    && (forall i | 0 <= i < |s.queue| :: s.queue[i].nrSectors > 0 && s.queue[i].id < s.nextId && (s.queue[i].started ==> i == 0))
    && (forall j | 0 <= j < |s.sched| :: s.sched[j].nrSectors > 0 && s.sched[j].id < s.nextId && !s.sched[j].Fence())
    && s.nrSorted == |s.sched|
  }

  /** The boundary is the newest barrier, waiting in the queue, or the request started last. */
  predicate BoundaryOk(s: State) {
    match s.boundary
    case Some(b) =>
      && b.barrier && !b.started && s.endSector == b.End()
      && exists k :: 0 <= k < |s.queue| && s.queue[k] == b && Open(s.queue, k + 1)
    case None =>
      && (forall i | 0 < i < |s.queue| :: !s.queue[i].Fence())
      && (s.queue != [] && s.queue[0].Fence() ==> s.queue[0].started && s.endSector == s.queue[0].End())
  }

  predicate Inv(s: State) {
    Sound(s) && BoundaryOk(s) && TailOrdered(s.queue, s.endSector)
  }

  lemma PartedInsert(q: seq<Rq>, p: nat, r: Rq)
    requires Parted(q) && PartedFrom(q, r) && p <= |q|
    ensures Parted(InsertAt(q, p, r))
    ensures forall x: Rq :: PartedFrom(InsertAt(q, p, r), x) <==> PartedFrom(q, x) && Apart(r, x)
  {
    var t := InsertAt(q, p, r);
    assert forall i | 0 <= i < |t| :: t[i] == if i < p then q[i] else if i == p then r else q[i - 1];
    forall x: Rq
      ensures PartedFrom(t, x) <==> PartedFrom(q, x) && Apart(r, x)
    {
      if PartedFrom(t, x) {
        assert t[p] == r;
        forall i | 0 <= i < |q| ensures Apart(q[i], x) {
          assert q[i] == if i < p then t[i] else t[i + 1];
        }
      }
    }
  }

  lemma PartedRemove(q: seq<Rq>, i: nat)
    requires Parted(q) && i < |q|
    ensures var r := q[..i] + q[i + 1..];
      Parted(r) && forall j | 0 <= j < |r| :: r[j] == q[if j < i then j else j + 1] && Apart(q[i], r[j])
  {
    var r := q[..i] + q[i + 1..];
    forall j | 0 <= j < |r| ensures r[j] == q[if j < i then j else j + 1] && Apart(q[i], r[j]) {
      assert r[j] == q[if j < i then j else j + 1];
    }
  }

  lemma MoveQueue(s: State, i: nat)
    requires Sound(s) && i < |s.sched|
    ensures var t := Move(s, i);
      forall j | 0 <= j < |t.queue| :: t.queue[j].nrSectors > 0 && t.queue[j].id < t.nextId && (t.queue[j].started ==> j == 0)
  {
    var r := s.sched[i];
    var p := SortPos(s.queue, s.endSector, r);
    var t := Move(s, i);
    forall j | 0 <= j < |t.queue|
      ensures t.queue[j].nrSectors > 0 && t.queue[j].id < t.nextId && (t.queue[j].started ==> j == 0)
    {
      assert t.queue[j] == if j < p then s.queue[j] else if j == p then r else s.queue[j - 1];
    }
  }

  lemma MoveSound(s: State, i: nat)
    requires Sound(s) && i < |s.sched|
    ensures Sound(Move(s, i))
  {
    var r := s.sched[i];
    var t := Move(s, i);
    PartedInsert(s.queue, SortPos(s.queue, s.endSector, r), r);
    PartedRemove(s.sched, i);
    MoveQueue(s, i);
    forall j | 0 <= j < |t.sched|
      ensures PartedFrom(t.queue, t.sched[j])
    {
      assert PartedFrom(s.queue, t.sched[j]);
    }
  }

  /** What is fixed once a fence stands behind it: the queue up to the k-th request, a fence. */
  predicate Keeps(before: seq<Rq>, after: seq<Rq>) {
    |before| <= |after| && forall k | 0 <= k < |before| && before[k].Fence() :: after[..k + 1] == before[..k + 1]
  }

  lemma MoveKeeps(s: State, i: nat)
    requires i < |s.sched|
    ensures Keeps(s.queue, Move(s, i).queue)
  {
    var p := SortPos(s.queue, s.endSector, s.sched[i]);
    forall k | 0 <= k < |s.queue| && s.queue[k].Fence()
      ensures Move(s, i).queue[..k + 1] == s.queue[..k + 1]
    {
      assert k < p;
    }
  }

  lemma KeepsTrans(a: seq<Rq>, b: seq<Rq>, c: seq<Rq>)
    requires Keeps(a, b) && Keeps(b, c)
    ensures Keeps(a, c)
  {
    forall k | 0 <= k < |a| && a[k].Fence()
      ensures c[..k + 1] == a[..k + 1]
    {
      assert b[..k + 1][k] == a[..k + 1][k];
    }
  }

  /** Draining keeps the requests sound, empties the scheduler and crosses no fence. */
  lemma {:induction false} DrainSound(s: State, picks: seq<nat>)
    requires Sound(s) && CanDrain(s, picks)
    ensures var t := Drain(s, picks);
            && Sound(t) && t.sched == [] && t.nrSorted == 0 && Keeps(s.queue, t.queue)
            && t.endSector == s.endSector && t.boundary == s.boundary && t.nextId == s.nextId
    ensures forall x: Rq :: PartedFrom(s.queue, x) && PartedFrom(s.sched, x) ==> PartedFrom(Drain(s, picks).queue, x)
    decreases |picks|
  {
    if picks != [] {
      var m := Move(s, picks[0]);
      MoveSound(s, picks[0]);
      MoveKeeps(s, picks[0]);
      assert CanDrain(m, picks[1..]) by {
        assert forall k | 0 <= k < |picks[1..]| :: picks[1..][k] == picks[k + 1];
      }
      DrainSound(m, picks[1..]);
      KeepsTrans(s.queue, m.queue, Drain(s, picks).queue);
      forall x: Rq | PartedFrom(s.queue, x) && PartedFrom(s.sched, x)
        ensures PartedFrom(Drain(s, picks).queue, x)
      {
        MoveParted(s, picks[0], x);
      }
    }
  }

  lemma MoveParted(s: State, i: nat, x: Rq)
    requires Sound(s) && i < |s.sched| && PartedFrom(s.queue, x) && PartedFrom(s.sched, x)
    ensures PartedFrom(Move(s, i).queue, x) && PartedFrom(Move(s, i).sched, x)
  {
    PartedInsert(s.queue, SortPos(s.queue, s.endSector, s.sched[i]), s.sched[i]);
    var t := Move(s, i);
    assert forall j | 0 <= j < |t.sched| :: t.sched[j] == if j < i then s.sched[j] else s.sched[j + 1];
  }

  lemma MoveBoundary(s: State, i: nat)
    requires BoundaryOk(s) && i < |s.sched| && !s.sched[i].Fence()
    ensures BoundaryOk(Move(s, i))
  {
    var r := s.sched[i];
    var p := SortPos(s.queue, s.endSector, r);
    var t := Move(s, i);
    assert forall j | 0 <= j < |t.queue| :: t.queue[j] == if j < p then s.queue[j] else if j == p then r else s.queue[j - 1];
    match s.boundary {
      case Some(b) =>
        var k :| 0 <= k < |s.queue| && s.queue[k] == b && Open(s.queue, k + 1);
        var k' := if k < p then k else k + 1;
        InsertOpen(s.queue, p, r, k + 1);
        assert t.queue[k'] == b && Open(t.queue, k' + 1);
      case None =>
        assert p == 0 ==> Open(s.queue, 0);
    }
  }

  lemma DispatchInv(s: State, i: nat)
    requires Inv(s) && i < |s.sched|
    ensures Inv(Move(s, i))
  {
    MoveSound(s, i);
    MoveBoundary(s, i);
    SortInsertOrdered(s.queue, s.endSector, s.sched[i]);
  }

  lemma AddInv(s: State, sector: nat, n: nat)
    requires Inv(s) && Enabled(s, Add(sector, n))
    ensures Inv(Step(s, Add(sector, n)))
  {
    var t := Step(s, Add(sector, n));
    var r := NewRq(s, sector, n, false);
    assert PartedFrom(s.queue, r) && PartedFrom(s.sched, r);
    assert forall j | 0 <= j < |t.sched| :: t.sched[j] == if j < |s.sched| then s.sched[j] else r;
  }

  lemma AppendInv(d: State, r: Rq)
    requires Sound(d) && d.sched == [] && PartedFrom(d.queue, r) && r == NewRq(d, r.sector, r.nrSectors, true)
    requires r.nrSectors > 0 && d.endSector == r.End() && d.boundary == Some(r)
    ensures Inv(d.(queue := d.queue + [r], nextId := d.nextId + 1))
    ensures Keeps(d.queue, d.queue + [r])
  {
    var q := d.queue + [r];
    assert q == InsertAt(d.queue, |d.queue|, r);
    PartedInsert(d.queue, |d.queue|, r);
    assert q[|d.queue|] == r && Open(q, |d.queue| + 1);
    forall k | 0 <= k < |d.queue| && d.queue[k].Fence()
      ensures q[..k + 1] == d.queue[..k + 1]
    {
    }
  }

  lemma BarrierInv(s: State, r: Rq, picks: seq<nat>)
    requires Inv(s) && CanDrain(s, picks) && Fresh(s, r) && r == NewRq(s, r.sector, r.nrSectors, true)
    ensures Inv(BarrierStep(s, r, picks)) && Keeps(s.queue, BarrierStep(s, r, picks).queue)
  {
    var s1 := s.(endSector := r.End(), boundary := Some(r));
    assert PartedFrom(s.queue, r) && PartedFrom(s.sched, r);
    DrainSound(s1, picks);
    var d := Drain(s1, picks);
    AppendInv(d, r);
    KeepsTrans(s.queue, d.queue, d.queue + [r]);
  }

  lemma DequeueInv(s: State)
    requires Inv(s) && Enabled(s, Dequeue)
    ensures Inv(Step(s, Dequeue))
  {
    var t := Step(s, Dequeue);
    assert forall i | 0 <= i < |t.queue| :: t.queue[i] == s.queue[i + 1];
    assert forall i | 0 <= i <= |t.queue| :: Open(t.queue, i) ==> Open(s.queue, i + 1);
    if s.boundary.Some? {
      var k :| 0 <= k < |s.queue| && s.queue[k] == s.boundary.value && Open(s.queue, k + 1);
      assert t.queue[k - 1] == s.boundary.value && Open(t.queue, k);
    }
  }

  lemma StartSound(s: State)
    requires Sound(s) && s.queue != []
    ensures Sound(StartStep(s))
  {
    var t := StartStep(s);
    assert forall i | 0 < i < |t.queue| :: t.queue[i] == s.queue[i];
    forall j | 0 <= j < |t.sched|
      ensures PartedFrom(t.queue, t.sched[j])
    {
      assert PartedFrom(s.queue, s.sched[j]);
    }
  }

  /** The head that is the boundary, by its id, is the boundary request itself. */
  lemma BoundaryIs(s: State, i: nat)
    requires Sound(s) && BoundaryOk(s) && s.boundary.Some? && i < |s.queue|
    ensures s.queue[i].id == s.boundary.value.id <==> s.queue[i] == s.boundary.value
  {
    var k :| 0 <= k < |s.queue| && s.queue[k] == s.boundary.value && Open(s.queue, k + 1);
    assert i < k ==> Apart(s.queue[i], s.queue[k]);
    assert k < i ==> Apart(s.queue[k], s.queue[i]);
  }

  lemma StartOrdered(s: State)
    requires Inv(s) && s.queue != []
    ensures TailOrdered(StartStep(s).queue, StartStep(s).endSector)
  {
    var t := StartStep(s);
    forall i, j | 0 <= i < j < |t.queue| && Open(t.queue, i)
      ensures OneWay(t.endSector, t.queue[i].sector, t.queue[j].sector)
    {
      OpenStart(s, i);
      StartPair(s, i, j);
    }
  }

  lemma OpenStart(s: State, i: nat)
    requires s.queue != [] && i < |s.queue| && Open(StartStep(s).queue, i)
    ensures i > 0 && Open(s.queue, i)
  {
    var t := StartStep(s);
    assert t.queue[0].Fence();
    assert forall k | 0 < k < |s.queue| :: t.queue[k] == s.queue[k];
  }

  lemma StartPair(s: State, i: nat, j: nat)
    requires Inv(s) && 0 < i < j < |s.queue| && Open(s.queue, i)
    ensures OneWay(StartStep(s).endSector, s.queue[i].sector, s.queue[j].sector)
  {
    var q := s.queue;
    if s.boundary.Some? {
      BoundaryIs(s, 0);
    } else if !q[0].Fence() {
      assert Open(q, 0);
      BoundaryMoves(q, s.endSector);
    }
  }

  lemma StartInv(s: State)
    requires Inv(s) && s.queue != []
    ensures Inv(StartStep(s))
  {
    StartSound(s);
    StartOrdered(s);
    StartBoundary(s);
  }

  /** A waiting barrier stays the boundary unless it is the one that starts. */
  lemma StartWaiting(q: seq<Rq>, q': seq<Rq>, b: Rq)
    requires q != [] && |q'| == |q| && Parted(q) && forall i | 0 < i < |q| :: q'[i] == q[i]
    requires exists k :: 0 <= k < |q| && q[k] == b && Open(q, k + 1)
    ensures q[0] == b ==> forall i | 0 < i < |q'| :: !q'[i].Fence()
    ensures q[0] != b ==> exists k :: 0 <= k < |q'| && q'[k] == b && Open(q', k + 1)
  {
    var k :| 0 <= k < |q| && q[k] == b && Open(q, k + 1);
    assert Open(q', k + 1);
    if k > 0 {
      assert Apart(q[0], q[k]);
      assert q'[k] == b;
    }
  }

  lemma StartWithBarrier(s: State)
    requires s.queue != [] && s.boundary.Some? && BoundaryOk(s) && Parted(s.queue)
    requires s.queue[0].id == s.boundary.value.id <==> s.queue[0] == s.boundary.value
    ensures BoundaryOk(StartStep(s))
  {
    var t := StartStep(s);
    assert forall i | 0 < i < |t.queue| :: t.queue[i] == s.queue[i];
    StartWaiting(s.queue, t.queue, s.boundary.value);
  }

  lemma StartWithout(s: State)
    requires s.queue != [] && s.boundary.None? && BoundaryOk(s)
    ensures BoundaryOk(StartStep(s))
  {
    var t := StartStep(s);
    assert forall i | 0 < i < |t.queue| :: t.queue[i] == s.queue[i];
  }

  lemma StartBoundary(s: State)
    requires Inv(s) && s.queue != []
    ensures BoundaryOk(StartStep(s))
  {
    if s.boundary.Some? {
      BoundaryIs(s, 0);
      StartWithBarrier(s);
    } else {
      StartWithout(s);
    }
  }

  lemma StepInv(s: State, e: Event)
    requires Inv(s) && Enabled(s, e)
    ensures Inv(Step(s, e))
  {
    match e
    case Add(sector, n) => AddInv(s, sector, n);
    case AddBarrier(sector, n, picks) => BarrierInv(s, NewRq(s, sector, n, true), picks);
    case Dispatch(i) => DispatchInv(s, i);
    case Start => StartInv(s);
    case Dequeue => DequeueInv(s);
  }

  lemma {:induction false} RunInv(s: State, run: seq<Event>)
    requires Inv(s) && CanRun(s, run)
    ensures Inv(Run(s, run))
    decreases |run|
  {
    if run != [] {
      StepInv(s, run[0]);
      RunInv(Step(s, run[0]), run[1..]);
    }
  }

  /** In every run of plain requests and soft barriers for disjoint sectors, the part of the queue behind the
      last barrier or started request is in one-way elevator order from end_sector, wherever the
      boundary has moved to; and nr_sorted counts what the scheduler holds. */
  lemma AlwaysOneWay(run: seq<Event>, i: nat, j: nat)
    requires CanRun(INIT, run)
    ensures Run(INIT, run).nrSorted == |Run(INIT, run).sched|
    ensures var s := Run(INIT, run);
            i < j < |s.queue| && Open(s.queue, i) ==> OneWay(s.endSector, s.queue[i].sector, s.queue[j].sector)
  {
    RunInv(INIT, run);
  }

  /** No insertion crosses an earlier barrier: up to and including a barrier or started request the
      queue is not changed by submitting or dispatching. */
  lemma NoInsertCrossesFence(run: seq<Event>, e: Event)
    requires CanRun(INIT, run) && Enabled(Run(INIT, run), e) && !e.Start? && !e.Dequeue?
    ensures Keeps(Run(INIT, run).queue, Step(Run(INIT, run), e).queue)
  {
    var s := Run(INIT, run);
    RunInv(INIT, run);
    match e
    case Add(_, _) =>
    case AddBarrier(sector, n, picks) => BarrierInv(s, NewRq(s, sector, n, true), picks);
    case Dispatch(i) => MoveKeeps(s, i);
  }

  /** The dispatch queue of a request queue, updated in place. */
  class DispatchQueue {
    var queueHead: seq<Rq>
    var sched: seq<Rq>
    var endSector: nat
    var boundaryRq: Option<Rq>
    var nrSorted: int
    var nextId: nat

    ghost function Now(): State
      reads this
    {
      State(queueHead, sched, endSector, boundaryRq, nrSorted, nextId)
    }

    constructor ()
      ensures Now() == INIT
    {
      queueHead, sched, endSector, boundaryRq, nrSorted, nextId := [], [], 0, None, 0, 0;
    }

    /** elv_dispatch_sort: walk the queue from its tail. */
    method DispatchSorted(rq: Rq)
      modifies this
      ensures Now() == DispatchSort(old(Now()), rq)
    {
      nrSorted := nrSorted - 1;
      var boundary := endSector;
      var entry := |queueHead|;
      assert queueHead[..entry] == queueHead;
      while entry > 0
        invariant entry <= |queueHead|
        invariant SortPos(queueHead[..entry], boundary, rq) == SortPos(queueHead, boundary, rq)
      {
        var pos := queueHead[entry - 1];
        assert queueHead[..entry][..entry - 1] == queueHead[..entry - 1];
        if pos.Fence() {
          break;
        }
        if rq.sector >= boundary {
          if pos.sector < boundary {
            entry := entry - 1;
            continue;
          }
        } else {
          if pos.sector >= boundary {
            break;
          }
        }
        if rq.sector >= pos.sector {
          break;
        }
        entry := entry - 1;
      }
      queueHead := InsertAt(queueHead, entry, rq);
    }

    /** __elv_add_request */
    method AddRequest(sector: nat, nrSectors: nat, barrier: bool) returns (ghost e: Event)
      requires Fresh(Now(), NewRq(Now(), sector, nrSectors, barrier))
      modifies this
      ensures Enabled(old(Now()), e) && Now() == Step(old(Now()), e)
      ensures if barrier then e.AddBarrier? else e.Add?
    {
      var rq := Rq(nextId, sector, nrSectors, barrier, false);
      if barrier {
        endSector := rq.End();
        boundaryRq := Some(rq);
        ghost var picks := DrainElevator();
        queueHead := queueHead + [rq];
        nextId := rq.id + 1;
        e := AddBarrier(sector, nrSectors, picks);
      } else {
        sched := sched + [rq];
        nrSorted := nrSorted + 1;
        nextId := nextId + 1;
        e := Add(sector, nrSectors);
      }
    }

    /** elv_drain_elevator with a scheduler that forces its requests out in any order. */
    method DrainElevator() returns (ghost picks: seq<nat>)
      modifies this
      ensures sched == [] && CanDrain(old(Now()), picks) && Now() == Drain(old(Now()), picks)
      decreases |sched|
    {
      picks := [];
      if sched != [] {
        var i: nat :| i < |sched|;
        DispatchRequest(i);
        ghost var rest := DrainElevator();
        picks := [i] + rest;
        assert picks[1..] == rest;
      }
    }

    /** elevator_dispatch_fn moving one request. */
    method DispatchRequest(i: nat)
      requires i < |sched|
      modifies this
      ensures Now() == Step(old(Now()), Dispatch(i)) && |sched| == old(|sched|) - 1
    {
      var rq := sched[i];
      sched := sched[..i] + sched[i + 1..];
      DispatchSorted(rq);
    }

    /** elv_next_request on a queue that is not empty. */
    method NextRequest() returns (rq: Rq)
      requires queueHead != []
      modifies this
      ensures Now() == Step(old(Now()), Start) && rq == old(queueHead[0]).(started := true)
    {
      rq := queueHead[0];
      rq := rq.(started := true);
      queueHead := [rq] + queueHead[1..];
      if boundaryRq.None? || boundaryRq.value.id == rq.id {
        endSector := rq.End();
        boundaryRq := None;
      }
    }

    /** blkdev_dequeue_request */
    method DequeueRequest()
      requires queueHead != [] && queueHead[0].started
      modifies this
      ensures Now() == Step(old(Now()), Dequeue)
    {
      queueHead := queueHead[1..];
    }
  }
}
