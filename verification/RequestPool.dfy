/** block/ll_rw_blk.c: accounting for the requests of a queue (get_request, freed_request).

get_request drops the queue lock between reserving a request and allocating it, so reserving,
a failed allocation and freeing are separate steps that interleave freely.
*/
module RequestPool {

  datatype Dir = Read | Write

  function Other(rw: Dir): Dir { if rw.Read? then Write else Read }

  /** The counters and flags of one direction: rl->count, rl->starved, the queue-full flag and the
      congestion flag of the backing device. */
  datatype Side = Side(count: int, starved: bool, full: bool, congested: bool)

  /** A reserved or allocated request, and whether it carries elevator-private data. */
  datatype Held = Held(rw: Dir, priv: bool)

  datatype Pool = Pool(nrRequests: nat, read: Side, write: Side, elvpriv: int, held: seq<Held>) {
    function Get(rw: Dir): Side { if rw.Read? then read else write }

    function Put(rw: Dir, s: Side): Pool {
      if rw.Read? then this.(read := s) else this.(write := s)
    }
  }

  function Init(nr: nat): Pool {
    var s := Side(0, false, false, false);
    Pool(nr, s, s, 0, [])
  }

  /** blk_queue_congestion_threshold */
  function CongestionOn(nr: nat): int {
    var on := nr - nr / 8 + 1;
    if on > nr then nr else on
  }

  function CongestionOff(nr: nat): int {
    var off := nr - nr / 8 - nr / 16 - 1;
    if off < 1 then 1 else off
  }

  /** The answer of elv_may_queue. */
  datatype MayQueue = May | No | Must

  /** The flags get_request sets before it counts the request; `batching` is ioc_batching. None if the
      process has to wait because the queue is full. */
  predicate Refused(p: Pool, rw: Dir, may: MayQueue, batching: bool) {
    var s := p.Get(rw);
    s.count + 1 >= CongestionOn(p.nrRequests) && s.count + 1 >= p.nrRequests && s.full && !may.Must? && !batching
  }

  function Flagged(p: Pool, s: Side): Side {
    if s.count + 1 >= CongestionOn(p.nrRequests) then
      s.(full := s.full || s.count + 1 >= p.nrRequests, congested := true)
    else s
  }

  predicate AtLimit(p: Pool, s: Side) {
    s.count >= 3 * p.nrRequests / 2
  }

  /** get_request up to the point where it drops the lock. */
  function Reserve(p: Pool, rw: Dir, may: MayQueue, batching: bool, priv: bool): Pool {
    var s := p.Get(rw);
    if may.No? then p.Put(rw, s.(starved := s.starved || s.count == 0))
    else if Refused(p, rw, may, batching) then p
    else if AtLimit(p, s) then p.Put(rw, Flagged(p, s))
    else
      p.Put(rw, Flagged(p, s).(count := s.count + 1, starved := false))
       .(elvpriv := p.elvpriv + (if priv then 1 else 0), held := p.held + [Held(rw, priv)])
  }

  predicate Granted(p: Pool, rw: Dir, may: MayQueue, batching: bool) {
    !may.No? && !Refused(p, rw, may, batching) && !AtLimit(p, p.Get(rw))
  }

  /** __freed_request */
  function Relax(p: Pool, s: Side): Side {
    s.(congested := s.congested && s.count >= CongestionOff(p.nrRequests), full := s.full && s.count + 1 > p.nrRequests)
  }

  /** freed_request for the i-th held request. */
  function Freed(p: Pool, i: nat): Pool
    requires i < |p.held|
  {
    var h := p.held[i];
    var s := p.Get(h.rw);
    var q := p.Put(h.rw, Relax(p, s.(count := s.count - 1)))
              .(elvpriv := p.elvpriv - (if h.priv then 1 else 0), held := p.held[..i] + p.held[i + 1..]);
    var o := Other(h.rw);
    if q.Get(o).starved then q.Put(o, Relax(q, q.Get(o))) else q
  }

  /** A reserved request could not be allocated. */
  function AllocFailed(p: Pool, i: nat): Pool
    requires i < |p.held|
  {
    var rw := p.held[i].rw;
    var q := Freed(p, i);
    var s := q.Get(rw);
    q.Put(rw, s.(starved := s.starved || s.count == 0))
  }

  datatype Event =
    | DoReserve(rw: Dir, may: MayQueue, batching: bool, priv: bool)
    | DoFail(i: nat)
    | DoFree(i: nat)

  predicate Enabled(p: Pool, e: Event) {
    match e
    case DoReserve(_, _, _, _) => true
    case DoFail(i) => i < |p.held|
    case DoFree(i) => i < |p.held|
  }

  function Step(p: Pool, e: Event): Pool
    requires Enabled(p, e)
  {
    match e
    case DoReserve(rw, may, batching, priv) => Reserve(p, rw, may, batching, priv)
    case DoFail(i) => AllocFailed(p, i)
    case DoFree(i) => Freed(p, i)
  }

  predicate CanRun(p: Pool, run: seq<Event>)
    decreases |run|
  {
    run == [] || (Enabled(p, run[0]) && CanRun(Step(p, run[0]), run[1..]))
  }

  function Run(p: Pool, run: seq<Event>): Pool
    requires CanRun(p, run)
    decreases |run|
  {
    if run == [] then p else Run(Step(p, run[0]), run[1..])
  }

  function CountDir(held: seq<Held>, rw: Dir): nat {
    if held == [] then 0 else (if held[0].rw == rw then 1 else 0) + CountDir(held[1..], rw)
  }

  function CountPriv(held: seq<Held>): nat {
    if held == [] then 0 else (if held[0].priv then 1 else 0) + CountPriv(held[1..])
  }

  /** What the flags of one direction say about its count. */
  predicate SideOk(nr: nat, s: Side) {
    && 0 <= s.count <= 3 * nr / 2
    && (s.full <==> s.count >= nr)
    && (s.congested ==> s.count >= CongestionOff(nr))
    && (!s.congested ==> s.count < CongestionOn(nr))
    && (s.starved ==> s.count == 0)
  }

  /** The flags are right, and the counters count exactly the requests that are held. */
  predicate Accounted(p: Pool) {
    && SideOk(p.nrRequests, p.read) && SideOk(p.nrRequests, p.write)
    && p.read.count == CountDir(p.held, Read) && p.write.count == CountDir(p.held, Write)
    && p.elvpriv == CountPriv(p.held)
  }

  lemma {:induction false} CountAppend(held: seq<Held>, h: Held)
    ensures forall rw :: CountDir(held + [h], rw) == CountDir(held, rw) + (if h.rw == rw then 1 else 0)
    ensures CountPriv(held + [h]) == CountPriv(held) + (if h.priv then 1 else 0)
  {
    if held == [] {
      assert ([] + [h])[1..] == [];
    } else {
      assert (held + [h])[1..] == held[1..] + [h];
      CountAppend(held[1..], h);
    }
  }

  lemma {:induction false} CountRemove(held: seq<Held>, i: nat)
    requires i < |held|
    ensures forall rw :: CountDir(held[..i] + held[i + 1..], rw) == CountDir(held, rw) - (if held[i].rw == rw then 1 else 0)
    ensures CountPriv(held[..i] + held[i + 1..]) == CountPriv(held) - (if held[i].priv then 1 else 0)
  {
    var t := held[..i] + held[i + 1..];
    if i == 0 {
      assert t == held[1..];
    } else {
      var rest := held[1..];
      assert t[0] == held[0] && t[1..] == rest[..i - 1] + rest[i..];
      CountRemove(rest, i - 1);
    }
  }

  lemma Thresholds(nr: nat)
    requires nr > 0
    ensures 1 <= CongestionOff(nr) <= CongestionOn(nr) <= nr <= 3 * nr / 2
  {
  }

  lemma ReserveSide(nr: nat, p: Pool, rw: Dir, may: MayQueue, batching: bool)
    requires nr > 0 && p.nrRequests == nr && SideOk(nr, p.Get(rw)) && !may.No? && !Refused(p, rw, may, batching)
    ensures var s := p.Get(rw);
            SideOk(nr, if AtLimit(p, s) then Flagged(p, s) else Flagged(p, s).(count := s.count + 1, starved := false))
  {
    Thresholds(nr);
  }

  lemma RelaxSide(p: Pool, s: Side)
    requires p.nrRequests > 0 && SideOk(p.nrRequests, s)
    ensures SideOk(p.nrRequests, Relax(p, s))
    ensures s.count > 0 ==> SideOk(p.nrRequests, Relax(p, s.(count := s.count - 1)))
  {
    Thresholds(p.nrRequests);
  }

  lemma ReserveKeeps(p: Pool, rw: Dir, may: MayQueue, batching: bool, priv: bool)
    requires p.nrRequests > 0 && Accounted(p)
    ensures Accounted(Reserve(p, rw, may, batching, priv))
  {
    var s := p.Get(rw);
    if may.No? {
      PutSide(p, rw, s.(starved := s.starved || s.count == 0));
    } else if !Refused(p, rw, may, batching) {
      AdmitKeeps(p, rw, may, batching, priv);
    }
  }

  lemma AdmitKeeps(p: Pool, rw: Dir, may: MayQueue, batching: bool, priv: bool)
    requires p.nrRequests > 0 && Accounted(p) && !may.No? && !Refused(p, rw, may, batching)
    ensures Accounted(Reserve(p, rw, may, batching, priv))
  {
    var t := FlaggedSide(p, rw, may, batching);
    if AtLimit(p, p.Get(rw)) {
      PutSide(p, rw, t);
    } else {
      GrantSide(p, rw, t, priv);
    }
  }

  /** What becomes of the side when the request is not refused. */
  lemma FlaggedSide(p: Pool, rw: Dir, may: MayQueue, batching: bool) returns (t: Side)
    requires p.nrRequests > 0 && Accounted(p) && !may.No? && !Refused(p, rw, may, batching)
    ensures SideOk(p.nrRequests, t)
    ensures var s := p.Get(rw);
            if AtLimit(p, s) then t == Flagged(p, s) && t.count == s.count
            else t == Flagged(p, s).(count := s.count + 1, starved := false) && t.count == s.count + 1
  {
    var s := p.Get(rw);
    ReserveSide(p.nrRequests, p, rw, may, batching);
    t := if AtLimit(p, s) then Flagged(p, s) else Flagged(p, s).(count := s.count + 1, starved := false);
  }

  /** A side changes, but not its count. */
  lemma PutSide(p: Pool, rw: Dir, s: Side)
    requires Accounted(p) && SideOk(p.nrRequests, s) && s.count == p.Get(rw).count
    ensures Accounted(p.Put(rw, s))
  {
  }

  lemma GrantSide(p: Pool, rw: Dir, s: Side, priv: bool)
    requires Accounted(p) && SideOk(p.nrRequests, s) && s.count == p.Get(rw).count + 1
    ensures Accounted(p.Put(rw, s).(elvpriv := p.elvpriv + (if priv then 1 else 0), held := p.held + [Held(rw, priv)]))
  {
    CountAppend(p.held, Held(rw, priv));
  }

  lemma {:induction false} HeldCounts(held: seq<Held>, i: nat)
    requires i < |held|
    ensures CountDir(held, held[i].rw) > 0
  {
    if i > 0 {
      HeldCounts(held[1..], i - 1);
    }
  }

  lemma FreedSides(p: Pool, i: nat)
    requires p.nrRequests > 0 && i < |p.held| && SideOk(p.nrRequests, p.read) && SideOk(p.nrRequests, p.write)
    requires p.Get(p.held[i].rw).count > 0
    ensures SideOk(p.nrRequests, Freed(p, i).read) && SideOk(p.nrRequests, Freed(p, i).write)
  {
    RelaxSide(p, p.read);
    RelaxSide(p, p.write);
  }

  lemma FreedKeeps(p: Pool, i: nat)
    requires p.nrRequests > 0 && Accounted(p) && i < |p.held|
    ensures Accounted(Freed(p, i))
  {
    CountRemove(p.held, i);
    HeldCounts(p.held, i);
    FreedSides(p, i);
  }

  lemma FailKeeps(p: Pool, i: nat)
    requires p.nrRequests > 0 && Accounted(p) && i < |p.held|
    ensures Accounted(AllocFailed(p, i))
  {
    FreedKeeps(p, i);
  }

  lemma StepKeeps(p: Pool, e: Event)
    requires p.nrRequests > 0 && Accounted(p) && Enabled(p, e)
    ensures Accounted(Step(p, e)) && Step(p, e).nrRequests == p.nrRequests
  {
    match e
    case DoReserve(rw, may, batching, priv) => ReserveKeeps(p, rw, may, batching, priv);
    case DoFail(i) => FailKeeps(p, i);
    case DoFree(i) => FreedKeeps(p, i);
  }

  lemma {:induction false} RunKeeps(p: Pool, run: seq<Event>)
    requires p.nrRequests > 0 && Accounted(p) && CanRun(p, run)
    ensures Accounted(Run(p, run))
    decreases |run|
  {
    if run != [] {
      StepKeeps(p, run[0]);
      RunKeeps(Step(p, run[0]), run[1..]);
    }
  }

  /** Every interleaving of reserving, failing and freeing keeps the accounts, exactly if the queue
      allows at least one request. */
  lemma AccountsIffNonZero(nr: nat)
    ensures (forall run | CanRun(Init(nr), run) :: Accounted(Run(Init(nr), run))) <==> nr > 0
  {
    if nr > 0 {
      Thresholds(nr);
      forall run | CanRun(Init(nr), run)
        ensures Accounted(Run(Init(nr), run))
      {
        RunKeeps(Init(nr), run);
      }
    } else {
      var run: seq<Event> := [];
      assert CanRun(Init(nr), run) && Run(Init(nr), run) == Init(nr);
      ZeroIsUnaccounted();
      assert !Accounted(Run(Init(nr), run));
    }
  }

  lemma ZeroIsUnaccounted()
    ensures !Accounted(Init(0))
  {
  }

  /** struct request_list with the queue flags that go with it. */
  class RequestList {
    const nrRequests: nat
    var read: Side
    var write: Side
    var elvpriv: int
    var held: seq<Held>

    ghost function Now(): Pool
      reads this
    {
      Pool(nrRequests, read, write, elvpriv, held)
    }

    constructor (nr: nat)
      ensures Now() == Init(nr)
    {
      nrRequests := nr;
      read, write := Side(0, false, false, false), Side(0, false, false, false);
      elvpriv, held := 0, [];
    }

    function Get(rw: Dir): (s: Side)
      reads this
      ensures s == Now().Get(rw)
    {
      if rw.Read? then read else write
    }

    method Set(rw: Dir, s: Side)
      modifies this`read, this`write
      ensures Now() == old(Now()).Put(rw, s)
    {
      if rw.Read? {
        read := s;
      } else {
        write := s;
      }
    }

    /** The queue is getting full: set the flags, or turn away a process that is not a batcher. */
    method MarkFlags(rw: Dir, may: MayQueue, batching: bool) returns (refused: bool, s: Side)
      ensures refused == Refused(Now(), rw, may, batching)
      ensures !refused ==> s == Flagged(Now(), Get(rw))
    {
      s := Get(rw);
      if s.count + 1 >= CongestionOn(nrRequests) {
        if s.count + 1 >= nrRequests {
          if !s.full {
            s := s.(full := true);
          } else if !may.Must? && !batching {
            return true, s;
          }
        }
        s := s.(congested := true);
      }
      refused := false;
    }

    /** get_request up to the unlock; false where it returns no request. */
    method GetRequest(rw: Dir, may: MayQueue, batching: bool, priv: bool) returns (granted: bool)
      modifies this
      ensures Now() == Reserve(old(Now()), rw, may, batching, priv)
      ensures granted == Granted(old(Now()), rw, may, batching)
    {
      var s := Get(rw);
      granted := false;
      if may.No? {
        if s.count == 0 {
          s := s.(starved := true);
        }
        Set(rw, s);
        return;
      }
      var refused;
      refused, s := MarkFlags(rw, may, batching);
      if refused {
        return;
      }
      if s.count < 3 * nrRequests / 2 {
        granted := true;
        s := s.(count := s.count + 1, starved := false);
        elvpriv := elvpriv + (if priv then 1 else 0);
        held := held + [Held(rw, priv)];
      }
      Set(rw, s);
    }

    /** __freed_request */
    method FreedSide(rw: Dir)
      modifies this`read, this`write
      ensures Now() == old(Now().Put(rw, Relax(Now(), Get(rw))))
    {
      var s := Get(rw);
      if s.count < CongestionOff(nrRequests) {
        s := s.(congested := false);
      }
      if s.count + 1 <= nrRequests {
        s := s.(full := false);
      }
      Set(rw, s);
    }

    /** freed_request */
    method FreedRequest(i: nat)
      requires i < |held|
      modifies this
      ensures Now() == Freed(old(Now()), i)
    {
      var h := held[i];
      var s := Get(h.rw);
      Set(h.rw, s.(count := s.count - 1));
      elvpriv := elvpriv - (if h.priv then 1 else 0);
      held := held[..i] + held[i + 1..];
      FreedSide(h.rw);
      if Get(Other(h.rw)).starved {
        FreedSide(Other(h.rw));
      }
    }

    /** The error path of get_request. */
    method AllocationFailed(i: nat)
      requires i < |held|
      modifies this
      ensures Now() == AllocFailed(old(Now()), i)
    {
      var rw := held[i].rw;
      FreedRequest(i);
      var s := Get(rw);
      if s.count == 0 {
        Set(rw, s.(starved := true));
      }
    }
  }
}
