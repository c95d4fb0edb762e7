/** block/deadline-iosched.c: runs in which writes wait as long as they can.

The runs keep one or two reads queued. Whether the next one follows on the last one, leaves a gap or is a
new start is decided by what arrives, which steers the batch counter.
*/
module DeadlineWorstCase {
  import opened Sequences
  import opened DeadlineHash
  import opened DeadlineSort
  import opened Deadline
  import opened DeadlineTheorems
  import opened DeadlineStarvation

  /** What the next read is: next_drq where the last one ended, next_drq elsewhere, or no next_drq. */
  datatype Kind = Follows | Gap | Fresh

  const WRITE: Drq := Drq(0, 0, 1)

  /** One read is queued, and a write if `writes`; nothing has expired. */
  ghost predicate Shape(c: Config, s: State, x: Drq, kind: Kind, writes: bool) {
    && Inv(c, s)
    && x.id > 0 && x.nr > 0
    && s.read.tree == [x]
    && (exists at: nat :: at >= s.clock && s.read.fifo == [Timed(x.id, at)])
    && s.read.next == (if kind == Fresh then None else Some(x.id))
    && (kind == Follows ==> s.last == x.sector)
    && (kind == Gap ==> s.last != x.sector)
    && s.write.tree == (if writes then [WRITE] else [])
    && s.write.next == None
  }

  // ---- the counters --------------------------------------------------------------------------------------------

  /** The batch counter when it is compared. */
  function Compared(c: Config, b: Unsigned, kind: Kind): Unsigned {
    if kind == Gap then AddUnsigned(b, c.fifoBatch) else b
  }

  predicate GoesOn(c: Config, b: Unsigned, kind: Kind) {
    kind != Fresh && Compared(c, b, kind) < c.fifoBatch
  }

  function Batching(c: Config, b: Unsigned, kind: Kind): Unsigned {
    if kind == Fresh then 1 else AddUnsigned(Compared(c, b, kind), 1)
  }

  function Starved(c: Config, b: Unsigned, starved: Unsigned, kind: Kind, writes: bool): Unsigned
  {
    if GoesOn(c, b, kind) || !writes then starved else AddUnsigned(starved, 1)
  }

  // ---- one arrival and one dispatch ----------------------------------------------------------------------------

  function ReadAfter(x: Drq, kind: Kind): Drq {
    Drq(x.id + 1, x.End() + (if kind == Gap then 1 else 0), 1)
  }

  /** The two reads while both are queued. */
  ghost predicate Two(c: Config, s: State, x: Drq, y: Drq, kind: Kind, writes: bool) {
    && Inv(c, s)
    && x.id > 0 && y.id > 0 && y.id != x.id && y.nr > 0
    && s.read.tree == [x, y]
    && (exists at: nat, at': nat :: at >= s.clock && at' >= s.clock
                                    && s.read.fifo == [Timed(x.id, at), Timed(y.id, at')])
    && s.read.next == (if kind == Fresh then None else Some(x.id))
    && (kind == Follows ==> s.last == x.sector)
    && (kind == Gap ==> s.last != x.sector)
    && s.write.tree == (if writes then [WRITE] else [])
    && s.write.next == None
  }

  lemma NotQueued(queued: seq<Drq>, writes: bool, id: nat)
    requires id > 0 && forall k | 0 <= k < |queued| :: queued[k].id != id
    ensures !HasId(queued + (if writes then [WRITE] else []), id)
  {
  }

  /** A read with a new id can arrive. */
  lemma ReadFits(c: Config, s: State, y: Drq, writes: bool)
    requires Inv(c, s) && y.id > 0 && s.write.tree == (if writes then [WRITE] else [])
    requires forall k | 0 <= k < |s.read.tree| :: s.read.tree[k].id != y.id
    ensures Bounded(c.h, |s.hash|) && Enabled(c, s, Arrive(false, y, s.clock, false))
    ensures Inv(c, Step(c, s, Arrive(false, y, s.clock, false)))
  {
    assert Everything(s, []) == s.read.tree + s.write.tree;
    NotQueued(s.read.tree, writes, y.id);
    StepKeeps(c, s, Arrive(false, y, s.clock, false));
  }

  lemma AddSecond(c: Config, s: State, x: Drq, y: Drq)
    requires s.read.tree == [x] && y.sector >= x.End() && x.nr > 0 && c.h(y.End()) < |s.hash|
    ensures var r := Add(c, s, false, y, s.clock, false);
      r == s.(read := Dir([x, y], s.read.fifo + [Timed(y.id, s.clock + c.expireRead)], s.read.next),
              nomerge := s.nomerge + {y.id})
  {
    assert [x][1..] == [];
    assert Place([x], y.sector) == 1;
    assert [x][..1] + [y] + [x][1..] == [x, y];
  }

  lemma ArriveSecond(c: Config, s: State, x: Drq, y: Drq, kind: Kind, writes: bool)
    requires Shape(c, s, x, kind, writes) && y.sector >= x.End() && y.id == x.id + 1 && y.nr > 0
    ensures var e := Arrive(false, y, s.clock, false);
      && Bounded(c.h, |s.hash|) && Enabled(c, s, e)
      && var r := Step(c, s, e);
      && Two(c, r, x, y, kind, writes)
      && r.batching == s.batching && r.starved == s.starved && r.clock == s.clock
  {
    var e := Arrive(false, y, s.clock, false);
    ReadFits(c, s, y, writes);
    AddSecond(c, s, x, y);
    var r := Step(c, s, e);
    var at: nat :| at >= s.clock && s.read.fifo == [Timed(x.id, at)];
    assert r.read.fifo == s.read.fifo + [Timed(y.id, s.clock + c.expireRead)];
  }

  /** The index of the first read. */
  lemma FirstIndex(x: Drq, rest: seq<Drq>)
    ensures IndexOf([x] + rest, x.id) == 0
  {
  }

  lemma ReadDispatch(c: Config, s: State, x: Drq, rest: seq<Drq>, kind: Kind, writes: bool)
    requires Inv(c, s) && s.read.tree == [x] + rest && s.read.fifo != [] && s.read.fifo[0].expires >= s.clock
    requires s.read.next == (if kind == Fresh then None else Some(x.id))
    requires (kind == Follows ==> s.last == x.sector) && (kind == Gap ==> s.last != x.sector)
    requires s.write.next == None && (s.write.fifo != [] <==> writes)
    requires GoesOn(c, s.batching, kind) || !writes || s.starved < c.writesStarved
    ensures Dispatch(c, s, s.clock).0
         == Move(s.(batching := Batching(c, s.batching, kind), starved := Starved(c, s.batching, s.starved, kind, writes)),
                 false, 0)
  {
    FirstIndex(x, rest);
  }

  lemma WritePending(c: Config, s: State, writes: bool)
    requires Inv(c, s) && s.write.tree == (if writes then [WRITE] else [])
    ensures s.write.fifo != [] <==> writes
  {
    Parts(c, s, false, []);
    NoExtra(false);
    FifoNonEmpty(s.write, s.clock + c.expireWrite);
  }

  /** The counters after a call for a read of this kind. */
  predicate Counted(c: Config, s: State, r: State, kind: Kind, writes: bool) {
    && r.batching == Batching(c, s.batching, kind)
    && r.starved == Starved(c, s.batching, s.starved, kind, writes)
  }

  /** A read is served although a write may be pending. */
  predicate Allowed(c: Config, s: State, kind: Kind, writes: bool) {
    GoesOn(c, s.batching, kind) || !writes || s.starved < c.writesStarved
  }

  lemma MoveFirst(s: State, x: Drq, y: Drq, at: nat, at': nat)
    requires s.read.tree == [x, y] && x.id != y.id && s.read.fifo == [Timed(x.id, at), Timed(y.id, at')]
    ensures var r := Move(s, false, 0);
      && r.read == Dir([y], [Timed(y.id, at')], Some(y.id)) && r.last == x.End() && r.clock == s.clock
      && r.write == s.write.(next := None) && r.batching == s.batching && r.starved == s.starved
  {
    assert RemoveAt([x, y], 0) == [y];
    assert [Timed(x.id, at), Timed(y.id, at')][1..] == [Timed(y.id, at')];
  }

  lemma MoveOnly(s: State, x: Drq, at: nat)
    requires s.read.tree == [x] && s.read.fifo == [Timed(x.id, at)]
    ensures var r := Move(s, false, 0);
      && r.read == Dir([], [], None) && r.clock == s.clock
      && r.write == s.write.(next := None) && r.batching == s.batching && r.starved == s.starved
  {
    assert RemoveAt([x], 0) == [];
  }

  lemma DispatchFirst(c: Config, s: State, x: Drq, y: Drq, kind: Kind, next: Kind, writes: bool)
    requires Two(c, s, x, y, kind, writes) && Allowed(c, s, kind, writes)
    requires next != Fresh && (next == Follows <==> y.sector == x.End())
    ensures var e := DispatchOne(s.clock);
      && Bounded(c.h, |s.hash|) && Enabled(c, s, e)
      && var r := Step(c, s, e);
      && Shape(c, r, y, next, writes) && Counted(c, s, r, kind, writes) && r.clock == s.clock && r.write.tree == s.write.tree
  {
    var at: nat, at': nat :| at >= s.clock && at' >= s.clock && s.read.fifo == [Timed(x.id, at), Timed(y.id, at')];
    WritePending(c, s, writes);
    assert [x, y] == [x] + [y];
    ReadDispatch(c, s, x, [y], kind, writes);
    MoveFirst(s.(batching := Batching(c, s.batching, kind), starved := Starved(c, s.batching, s.starved, kind, writes)),
              x, y, at, at');
    StepKeeps(c, s, DispatchOne(s.clock));
  }

  lemma DispatchOnly(c: Config, s: State, x: Drq, kind: Kind, writes: bool)
    requires Shape(c, s, x, kind, writes) && Allowed(c, s, kind, writes)
    ensures var e := DispatchOne(s.clock);
      && Bounded(c.h, |s.hash|) && Enabled(c, s, e)
      && var r := Step(c, s, e);
      && Inv(c, r) && r.read == Dir([], [], None) && Counted(c, s, r, kind, writes) && r.clock == s.clock
      && r.write.tree == s.write.tree && r.write.next == None
  {
    var at: nat :| at >= s.clock && s.read.fifo == [Timed(x.id, at)];
    WritePending(c, s, writes);
    assert [x] == [x] + [];
    ReadDispatch(c, s, x, [], kind, writes);
    MoveOnly(s.(batching := Batching(c, s.batching, kind), starved := Starved(c, s.batching, s.starved, kind, writes)), x, at);
    StepKeeps(c, s, DispatchOne(s.clock));
  }

  lemma AddFirst(c: Config, s: State, y: Drq)
    requires s.read == Dir([], [], None) && c.h(y.End()) < |s.hash|
    ensures var r := Add(c, s, false, y, s.clock, false);
      r == s.(read := Dir([y], [Timed(y.id, s.clock + c.expireRead)], None), nomerge := s.nomerge + {y.id})
  {
    assert [][..0] + [y] + [][0..] == [y];
  }

  lemma ArriveFirst(c: Config, s: State, y: Drq, writes: bool)
    requires Inv(c, s) && s.read == Dir([], [], None) && y.id > 0 && y.nr > 0
    requires s.write.tree == (if writes then [WRITE] else []) && s.write.next == None
    ensures var e := Arrive(false, y, s.clock, false);
      && Bounded(c.h, |s.hash|) && Enabled(c, s, e)
      && var r := Step(c, s, e);
      && Shape(c, r, y, Fresh, writes)
      && r.batching == s.batching && r.starved == s.starved && r.clock == s.clock && r.write == s.write
  {
    ReadFits(c, s, y, writes);
    AddFirst(c, s, y);
  }

  // ---- runs ----------------------------------------------------------------------------------------------------

  lemma {:induction false} CanRunConcat(c: Config, s: State, a: seq<Event>, b: seq<Event>)
    requires CanRun(c, s, a) && CanRun(c, Run(c, s, a), b)
    ensures CanRun(c, s, a + b)
    decreases |a|
  {
    if a == [] {
      assert a + b == b;
    } else {
      TailConcat(a, b);
      CanRunConcat(c, Step(c, s, a[0]), a[1..], b);
    }
  }

  lemma {:induction false} SameRun(c: Config, s: State, a: seq<Event>, b: seq<Event>)
    requires CanRun(c, s, a) && CanRun(c, Run(c, s, a), b) && CanRun(c, s, a + b)
    ensures Run(c, s, a + b) == Run(c, Run(c, s, a), b)
    decreases |a|
  {
    if a == [] {
      assert a + b == b;
    } else {
      TailConcat(a, b);
      SameRun(c, Step(c, s, a[0]), a[1..], b);
    }
  }

  lemma RunConcat(c: Config, s: State, a: seq<Event>, b: seq<Event>)
    requires CanRun(c, s, a) && CanRun(c, Run(c, s, a), b)
    ensures CanRun(c, s, a + b) && Run(c, s, a + b) == Run(c, Run(c, s, a), b)
  {
    CanRunConcat(c, s, a, b);
    SameRun(c, s, a, b);
  }

  lemma {:induction false} StarvingConcat(c: Config, s: State, a: seq<Event>, b: seq<Event>)
    requires CanRun(c, s, a) && CanRun(c, Run(c, s, a), b) && CanRun(c, s, a + b)
    requires Starving(c, s, a) && Starving(c, Run(c, s, a), b)
    ensures Starving(c, s, a + b)
    decreases |a|
  {
    if a == [] {
      assert a + b == b;
    } else {
      TailConcat(a, b);
      StarvingConcat(c, Step(c, s, a[0]), a[1..], b);
    }
  }

  lemma {:induction false} DispatchesConcat(a: seq<Event>, b: seq<Event>)
    ensures Dispatches(a + b) == Dispatches(a) + Dispatches(b)
  {
    if a == [] {
      assert a + b == b;
    } else {
      TailConcat(a, b);
      DispatchesConcat(a[1..], b);
    }
  }

  /** One starving run after the other. */
  lemma Joined(c: Config, s: State, a: seq<Event>, b: seq<Event>)
    requires CanRun(c, s, a) && CanRun(c, Run(c, s, a), b)
    requires Starving(c, s, a) && Starving(c, Run(c, s, a), b)
    ensures CanRun(c, s, a + b) && Run(c, s, a + b) == Run(c, Run(c, s, a), b)
    ensures Starving(c, s, a + b) && Dispatches(a + b) == Dispatches(a) + Dispatches(b)
  {
    RunConcat(c, s, a, b);
    StarvingConcat(c, s, a, b);
    DispatchesConcat(a, b);
  }

  lemma OneEvent(c: Config, s: State, e: Event)
    requires Bounded(c.h, |s.hash|) && Enabled(c, s, e)
    requires e.DispatchOne? ==> s.write.fifo != [] ==> Step(c, s, e).write.tree == s.write.tree
    ensures CanRun(c, s, [e]) && Run(c, s, [e]) == Step(c, s, e) && Dispatches([e]) == (if e.DispatchOne? then 1 else 0)
    ensures !e.DispatchOne? || s.write.fifo != [] ==> Starving(c, s, [e])
  {
    assert [e][1..] == [];
  }

  lemma TwoEvents(c: Config, s: State, e: Event, m: State, f: Event)
    requires Bounded(c.h, |s.hash|) && Enabled(c, s, e) && m == Step(c, s, e)
    requires Bounded(c.h, |m.hash|) && Enabled(c, m, f)
    requires e.DispatchOne? ==> s.write.fifo != [] ==> m.write.tree == s.write.tree
    requires f.DispatchOne? ==> m.write.fifo != [] ==> Step(c, m, f).write.tree == m.write.tree
    ensures CanRun(c, s, [e, f]) && Run(c, s, [e, f]) == Step(c, m, f)
    ensures Dispatches([e, f]) == (if e.DispatchOne? then 1 else 0) + (if f.DispatchOne? then 1 else 0)
    ensures (e.DispatchOne? ==> s.write.fifo != []) && (f.DispatchOne? ==> m.write.fifo != []) ==> Starving(c, s, [e, f])
  {
    OneEvent(c, s, e);
    OneEvent(c, m, f);
    assert [e, f] == [e] + [f];
    RunConcat(c, s, [e], [f]);
    DispatchesConcat([e], [f]);
    if (e.DispatchOne? ==> s.write.fifo != []) && (f.DispatchOne? ==> m.write.fifo != []) {
      StarvingConcat(c, s, [e], [f]);
    }
  }

  /** The read x of kind `kind` is served, and one of kind `next` takes its place. */
  lemma Serve(c: Config, s: State, x: Drq, kind: Kind, next: Kind, writes: bool) returns (es: seq<Event>, y: Drq)
    requires Shape(c, s, x, kind, writes) && Allowed(c, s, kind, writes)
    ensures CanRun(c, s, es) && Dispatches(es) == 1 && (writes ==> Starving(c, s, es))
    ensures var r := Run(c, s, es); Shape(c, r, y, next, writes) && Counted(c, s, r, kind, writes)
  {
    y := ReadAfter(x, next);
    var arrive, dispatch := Arrive(false, y, s.clock, false), DispatchOne(s.clock);
    WritePending(c, s, writes);
    if next == Fresh {
      es := [dispatch, arrive];
      DispatchOnly(c, s, x, kind, writes);
      var m := Step(c, s, dispatch);
      ArriveFirst(c, m, y, writes);
      TwoEvents(c, s, dispatch, m, arrive);
    } else {
      es := [arrive, dispatch];
      ArriveSecond(c, s, x, y, kind, writes);
      var m := Step(c, s, arrive);
      WritePending(c, m, writes);
      DispatchFirst(c, m, x, y, kind, next, writes);
      TwoEvents(c, s, arrive, m, dispatch);
    }
  }

  /** Reads alone: the batch counter goes on to any value and wraps around. */
  lemma {:induction false} WarmUp(c: Config, s: State, x: Drq, kind: Kind) returns (es: seq<Event>, y: Drq)
    requires Shape(c, s, x, Follows, false) && s.batching > 0
    ensures CanRun(c, s, es)
    ensures var r := Run(c, s, es); Shape(c, r, y, kind, false) && r.batching == 0 && r.starved == s.starved
    decreases LIMIT - s.batching
  {
    if s.batching + 1 == LIMIT {
      es, y := Serve(c, s, x, Follows, kind, false);
    } else {
      var first, z := Serve(c, s, x, Follows, Follows, false);
      var rest;
      rest, y := WarmUp(c, Run(c, s, first), z, kind);
      RunConcat(c, s, first, rest);
      es := first + rest;
    }
  }

  lemma ArriveWrite(c: Config, s: State, x: Drq, kind: Kind)
    requires Shape(c, s, x, kind, false)
    ensures var e := Arrive(true, WRITE, s.clock, false);
      && Bounded(c.h, |s.hash|) && Enabled(c, s, e)
      && var r := Step(c, s, e);
      && Shape(c, r, x, kind, true) && r.batching == s.batching && r.starved == s.starved
  {
    var e := Arrive(true, WRITE, s.clock, false);
    assert Everything(s, []) == [x];
    StepKeeps(c, s, e);
    assert Linked([], WRITE) == [WRITE];
  }

  /** A reachable state with a write pending, a new read batch and the counter at 0. */
  lemma Prepared(c: Config, n: nat, now: nat, kind: Kind) returns (es: seq<Event>, x: Drq)
    requires Bounded(c.h, n)
    ensures CanRun(c, Start(n, now), es)
    ensures var s := Run(c, Start(n, now), es); Shape(c, s, x, kind, true) && s.batching == 0 && s.starved == 0
  {
    var s0 := Start(n, now);
    StartInv(c, n, now);
    var x0 := Drq(1, 0, 1);
    var e0 := Arrive(false, x0, now, false);
    ArriveFirst(c, s0, x0, false);
    OneEvent(c, s0, e0);
    var s1 := Step(c, s0, e0);
    var a, x1 := Serve(c, s1, x0, Fresh, Follows, false);
    var s2 := Run(c, s1, a);
    var b, x2 := WarmUp(c, s2, x1, kind);
    var s3 := Run(c, s2, b);
    var e3 := Arrive(true, WRITE, s3.clock, false);
    ArriveWrite(c, s3, x2, kind);
    OneEvent(c, s3, e3);
    RunConcat(c, s2, b, [e3]);
    RunConcat(c, s1, a, b + [e3]);
    RunConcat(c, s0, [e0], a + (b + [e3]));
    es, x := [e0] + (a + (b + [e3])), x2;
  }

  // ---- how long writes can wait --------------------------------------------------------------------------------

  /** Sequential reads to the end of the batch, then a new batch from the lowest sector. */
  function PlainKind(c: Config, b: Unsigned): Kind {
    if b < c.fifoBatch then Follows else Fresh
  }

  function PlainWait(c: Config, b: Unsigned, starved: Unsigned): nat {
    Left(c.fifoBatch, b) + Left(c.writesStarved, starved) * AtLeastOne(c.fifoBatch)
  }

  lemma PlainCounts(c: Config, b: Unsigned, starved: Unsigned)
    requires !(b >= c.fifoBatch && starved >= c.writesStarved)
    ensures var kind := PlainKind(c, b);
      && (GoesOn(c, b, kind) || starved < c.writesStarved)
      && var b', starved' := Batching(c, b, kind), Starved(c, b, starved, kind, true);
      && PlainWait(c, b, starved) == 1 + PlainWait(c, b', starved')
      && ((starved' == starved && Left(c.fifoBatch, b') < Left(c.fifoBatch, b))
          || Left(c.writesStarved, starved') < Left(c.writesStarved, starved))
  {
    if b >= c.fifoBatch {
      OneLess(Left(c.writesStarved, starved), AtLeastOne(c.fifoBatch));
    }
  }

  lemma {:induction false} PlainRun(c: Config, s: State, x: Drq) returns (es: seq<Event>)
    requires Shape(c, s, x, PlainKind(c, s.batching), true)
    ensures CanRun(c, s, es) && Starving(c, s, es)
    ensures Dispatches(es) == PlainWait(c, s.batching, s.starved)
    decreases Left(c.writesStarved, s.starved), Left(c.fifoBatch, s.batching)
  {
    if s.batching >= c.fifoBatch && s.starved >= c.writesStarved {
      es := [];
    } else {
      PlainCounts(c, s.batching, s.starved);
      var kind := PlainKind(c, s.batching);
      var first, y := Serve(c, s, x, kind, PlainKind(c, Batching(c, s.batching, kind)), true);
      var rest := PlainRun(c, Run(c, s, first), y);
      Joined(c, s, first, rest);
      es := first + rest;
    }
  }

  function ThirdKind(c: Config, b: Unsigned): Kind {
    if b < c.fifoBatch then Follows else Gap
  }

  predicate ThirdAt(c: Config, b: Unsigned) {
    3 * c.fifoBatch + 1 == LIMIT && (b <= c.fifoBatch || b == 2 * c.fifoBatch + 1)
  }

  lemma ThirdCounts(c: Config, b: Unsigned, starved: Unsigned)
    requires ThirdAt(c, b) && !(b == c.fifoBatch && starved >= c.writesStarved)
    ensures var kind := ThirdKind(c, b);
      && (GoesOn(c, b, kind) || starved < c.writesStarved)
      && var b', starved' := Batching(c, b, kind), Starved(c, b, starved, kind, true);
      && ThirdAt(c, b')
      && Patience(c, b, starved) == 1 + Patience(c, b', starved')
      && ((starved' == starved && Free(c, b') < Free(c, b))
          || Left(c.writesStarved, starved') < Left(c.writesStarved, starved))
  {
    if b == c.fifoBatch {
      OneLess(Left(c.writesStarved, starved), c.fifoBatch + 1);
    }
  }

  /** 3 * fifo_batch + 1 == 2^32: a gap at the end of the batch takes the counter to 2 * fifo_batch + 1, and
  the next one wraps it to the start of a batch. */
  lemma {:induction false} ThirdRun(c: Config, s: State, x: Drq) returns (es: seq<Event>)
    requires ThirdAt(c, s.batching) && Shape(c, s, x, ThirdKind(c, s.batching), true)
    ensures CanRun(c, s, es) && Starving(c, s, es) && Dispatches(es) == Patience(c, s.batching, s.starved)
    decreases Left(c.writesStarved, s.starved), Free(c, s.batching)
  {
    if s.batching == c.fifoBatch && s.starved >= c.writesStarved {
      es := [];
    } else {
      ThirdCounts(c, s.batching, s.starved);
      var kind := ThirdKind(c, s.batching);
      var first, y := Serve(c, s, x, kind, ThirdKind(c, Batching(c, s.batching, kind)), true);
      var rest := ThirdRun(c, Run(c, s, first), y);
      Joined(c, s, first, rest);
      es := first + rest;
    }
  }

  function StepwiseKind(b: Unsigned): Kind {
    if b == 0 then Follows else Gap
  }

  /** The counter will wrap before writes have waited long enough. */
  predicate WillWrap(c: Config, b: Unsigned, starved: Unsigned) {
    b < LIMIT - 1 && WrapsInTime(AtLeastOne(b), Left(c.writesStarved, starved))
  }

  predicate StepwiseAt(c: Config, b: Unsigned) {
    c.fifoBatch == 1 && (b == 0 || b % 2 == 1)
  }

  lemma StepwiseCounts(c: Config, b: Unsigned, starved: Unsigned, wraps: bool)
    requires StepwiseAt(c, b) && !(Free(c, b) == 0 && starved >= c.writesStarved) && (wraps ==> WillWrap(c, b, starved))
    ensures var kind := StepwiseKind(b);
      && (GoesOn(c, b, kind) || starved < c.writesStarved)
      && var b', starved' := Batching(c, b, kind), Starved(c, b, starved, kind, true);
      && StepwiseAt(c, b') && b' != 0
      && (wraps && b' < LIMIT - 1 ==> WillWrap(c, b', starved'))
      && Left(c.writesStarved, starved) + Free(c, b) + (if wraps then 1 else 0)
         <= 1 + Left(c.writesStarved, starved') + Free(c, b') + (if wraps && b' < LIMIT - 1 then 1 else 0)
      && ((starved' == starved && Free(c, b') < Free(c, b))
          || Left(c.writesStarved, starved') < Left(c.writesStarved, starved))
  {
  }

  /** fifo_batch == 1: gaps take the counter up by two a call; at the end it wraps, and one more read goes on
  with a batch. */
  lemma {:induction false} StepwiseRun(c: Config, s: State, x: Drq, wraps: bool) returns (es: seq<Event>)
    requires StepwiseAt(c, s.batching) && (wraps ==> WillWrap(c, s.batching, s.starved))
    requires Shape(c, s, x, StepwiseKind(s.batching), true)
    ensures CanRun(c, s, es) && Starving(c, s, es)
    ensures Dispatches(es) >= Left(c.writesStarved, s.starved) + Free(c, s.batching) + if wraps then 1 else 0
    decreases Left(c.writesStarved, s.starved), Free(c, s.batching)
  {
    if Free(c, s.batching) == 0 && s.starved >= c.writesStarved {
      es := [];
    } else {
      StepwiseCounts(c, s.batching, s.starved, wraps);
      var first, y := Serve(c, s, x, StepwiseKind(s.batching), Gap, true);
      var r := Run(c, s, first);
      var rest := StepwiseRun(c, r, y, wraps && r.batching < LIMIT - 1);
      Joined(c, s, first, rest);
      es := first + rest;
    }
  }

  lemma BoundsDiffer(c: Config)
    requires 3 * c.fifoBatch + 1 == LIMIT && c.writesStarved >= 1
    ensures Patience(c, 0, 0) == LooseBound(c) > Bound(c)
  {
    assert c.writesStarved * (c.fifoBatch + 1) == c.writesStarved * c.fifoBatch + c.writesStarved;
  }

  /** `es` is a starving run from the state that `before` leads to. */
  ghost predicate Waits(c: Config, n: nat, now: nat, before: seq<Event>, es: seq<Event>) {
    && CanRun(c, Start(n, now), before)
    && CanRun(c, Run(c, Start(n, now), before), es)
    && Starving(c, Run(c, Start(n, now), before), es)
  }

  /** Whatever the tunables, some run makes a write wait for as many calls as the bound says. */
  lemma BoundIsReached(c: Config, n: nat, now: nat) returns (before: seq<Event>, es: seq<Event>)
    requires Bounded(c.h, n)
    ensures Waits(c, n, now, before, es) && Dispatches(es) == Bound(c)
  {
    var x;
    before, x := Prepared(c, n, now, PlainKind(c, 0));
    es := PlainRun(c, Run(c, Start(n, now), before), x);
  }

  lemma ThirdExceeds(c: Config, n: nat, now: nat) returns (before: seq<Event>, es: seq<Event>)
    requires Bounded(c.h, n) && 3 * c.fifoBatch + 1 == LIMIT
    ensures Waits(c, n, now, before, es) && Dispatches(es) == Patience(c, 0, 0)
  {
    var x;
    before, x := Prepared(c, n, now, Follows);
    es := ThirdRun(c, Run(c, Start(n, now), before), x);
  }

  lemma StepwiseExceeds(c: Config, n: nat, now: nat) returns (before: seq<Event>, es: seq<Event>)
    requires Bounded(c.h, n) && c.fifoBatch == 1 && c.writesStarved >= 0x7FFF_FFFF
    ensures Waits(c, n, now, before, es) && Dispatches(es) >= c.writesStarved + 2
  {
    var x;
    before, x := Prepared(c, n, now, Follows);
    es := StepwiseRun(c, Run(c, Start(n, now), before), x, true);
  }

  /** With exceptional tunables some run makes it wait longer; where three batches are one short of 2^32, as
  long as any run can. */
  lemma BoundIsExceeded(c: Config, n: nat, now: nat) returns (before: seq<Event>, es: seq<Event>)
    requires Bounded(c.h, n) && Exceptional(c)
    ensures Waits(c, n, now, before, es) && Dispatches(es) > Bound(c)
    ensures c.fifoBatch != 1 ==> Dispatches(es) == LooseBound(c)
  {
    if c.fifoBatch == 1 {
      before, es := StepwiseExceeds(c, n, now);
    } else {
      BoundsDiffer(c);
      before, es := ThirdExceeds(c, n, now);
    }
  }

  /** The bound holds of all runs exactly if the tunables are not exceptional. */
  lemma BoundHoldsIff(c: Config, n: nat, now: nat)
    requires Bounded(c.h, n)
    ensures (forall before, es | Waits(c, n, now, before, es) :: Dispatches(es) <= Bound(c)) <==> !Exceptional(c)
  {
    if Exceptional(c) {
      var before, es := BoundIsExceeded(c, n, now);
      assert Waits(c, n, now, before, es);
    } else {
      forall before, es | Waits(c, n, now, before, es) ensures Dispatches(es) <= Bound(c) {
        StartInv(c, n, now);
        RunKeeps(c, Start(n, now), before);
        StarvationBound(c, Run(c, Start(n, now), before), es);
      }
    }
  }
}
