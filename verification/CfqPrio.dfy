/** block/cfq-iosched.c: the walk over the priority levels (cfq_get_next_prio_level).

The levels are served in the rounds 0; 0,1; 0,1,2; ... 0,1,...,7, so that a level is served the more
often the higher its priority is.
*/
module CfqPrio {

  const CFQ_PRIO_LISTS: nat := 8

  /** cur_prio and cur_end_prio: the next level to look at and the last level of this round. */
  datatype Pos = Pos(prio: nat, end: nat) {
    predicate Valid() { prio <= end < CFQ_PRIO_LISTS }
  }

  /** The order of the walk. */
  function Succ(p: Pos): (r: Pos)
    requires p.Valid()
    ensures r.Valid()
  {
    if p.prio < p.end then Pos(p.prio + 1, p.end)
    else if p.end + 1 < CFQ_PRIO_LISTS then Pos(0, p.end + 1)
    else Pos(0, 0)
  }

  /** Number of places before round e. */
  function RoundStart(e: nat): nat {
    if e == 0 then 0 else RoundStart(e - 1) + e
  }

  /** The place of a position in the cycle of 36. */
  function Place(p: Pos): nat {
    RoundStart(p.end) + p.prio
  }

  const PLACES: nat := 36

  lemma RoundStarts()
    ensures RoundStart(0) == 0 && RoundStart(1) == 1 && RoundStart(2) == 3 && RoundStart(3) == 6
    ensures RoundStart(4) == 10 && RoundStart(5) == 15 && RoundStart(6) == 21 && RoundStart(7) == 28
  {
    assert RoundStart(2) == 3;
    assert RoundStart(4) == 10;
    assert RoundStart(6) == 21;
  }

  lemma {:induction false} RoundStartMonotone(d: nat, e: nat)
    requires d <= e
    ensures RoundStart(d) <= RoundStart(e)
  {
    if d < e {
      RoundStartMonotone(d, e - 1);
    }
  }

  lemma PlaceBound(p: Pos)
    requires p.Valid()
    ensures Place(p) < PLACES && (p.end < 7 ==> Place(p) < 28) && (p.end == 7 ==> Place(p) == 28 + p.prio)
  {
    RoundStarts();
    if p.end < 7 {
      RoundStartMonotone(p.end + 1, 7);
    }
  }

  /** The walk goes through all places one after the other; the last round starts at place 28. */
  lemma SuccPlace(p: Pos)
    requires p.Valid()
    ensures p == Pos(7, 7) ==> Place(Succ(p)) == 0
    ensures p != Pos(7, 7) ==> Place(Succ(p)) == Place(p) + 1
  {
  }

  /** Steps from place x to the place of level l in the last round. */
  function Gap(x: nat, l: nat): nat
    requires x < PLACES && l < CFQ_PRIO_LISTS
  {
    if x <= 28 + l then 28 + l - x else PLACES + 28 + l - x
  }

  function Distance(p: Pos, l: nat): (d: nat)
    requires p.Valid() && l < CFQ_PRIO_LISTS
    ensures d < PLACES
  {
    PlaceBound(p);
    Gap(Place(p), l)
  }

  lemma DistanceZero(p: Pos, l: nat)
    requires p.Valid() && l < CFQ_PRIO_LISTS
    ensures Distance(p, l) == 0 <==> p == Pos(l, 7)
  {
    PlaceBound(p);
    assert Gap(Place(p), l) == 0 <==> Place(p) == 28 + l;
  }

  lemma DistanceDrops(p: Pos, l: nat)
    requires p.Valid() && l < CFQ_PRIO_LISTS && Distance(p, l) > 0
    ensures Distance(Succ(p), l) == Distance(p, l) - 1
  {
    var x, y := Place(p), Place(Succ(p));
    assert x < PLACES && y < PLACES && (y == x + 1 || (x == 35 && y == 0)) by {
      PlaceBound(p);
      PlaceBound(Succ(p));
      SuccPlace(p);
    }
    GapStep(x, y, l);
  }

  lemma GapStep(x: nat, y: nat, l: nat)
    requires x < PLACES && y < PLACES && l < CFQ_PRIO_LISTS && Gap(x, l) > 0
    requires y == x + 1 || (x == 35 && y == 0)
    ensures Gap(y, l) == Gap(x, l) - 1
  {
  }

  /** How many places are passed before level l comes up. */
  function Wait(p: Pos, l: nat): (w: nat)
    requires p.Valid() && l < CFQ_PRIO_LISTS
    ensures w <= Distance(p, l)
    decreases Distance(p, l)
  {
    if p.prio == l then 0 else
      DistanceZero(p, l);
      DistanceDrops(p, l);
      1 + Wait(Succ(p), l)
  }

  /** The first position from p on whose level is among `busy`, which contains l. */
  function First(p: Pos, busy: set<nat>, l: nat): (r: Pos)
    requires p.Valid() && l < CFQ_PRIO_LISTS && l in busy
    ensures r.Valid() && r.prio in busy
    decreases Distance(p, l)
  {
    if p.prio in busy then p else
      DistanceZero(p, l);
      DistanceDrops(p, l);
      First(Succ(p), busy, l)
  }

  /** It does not matter which busy level is named. */
  lemma {:induction false} FirstUnique(p: Pos, busy: set<nat>, l: nat, m: nat)
    requires p.Valid() && l < CFQ_PRIO_LISTS && m < CFQ_PRIO_LISTS && l in busy && m in busy
    ensures First(p, busy, l) == First(p, busy, m)
    decreases Distance(p, l)
  {
    if p.prio !in busy {
      DistanceZero(p, l);
      DistanceDrops(p, l);
      FirstUnique(Succ(p), busy, l, m);
    }
  }

  /** A call serves level l or brings it nearer. */
  lemma {:induction false} CallBringsNearer(p: Pos, busy: set<nat>, l: nat)
    requires p.Valid() && l < CFQ_PRIO_LISTS && l in busy
    ensures var f := First(p, busy, l); f.prio == l || Wait(Succ(f), l) < Wait(p, l)
    decreases Distance(p, l)
  {
    if p.prio !in busy {
      DistanceZero(p, l);
      DistanceDrops(p, l);
      CallBringsNearer(Succ(p), busy, l);
    }
  }

  /** The levels served by a series of calls; busy[i] are the non-empty levels at the i-th call. */
  function Served(p: Pos, busy: seq<set<nat>>, l: nat): seq<nat>
    requires p.Valid() && l < CFQ_PRIO_LISTS && forall i | 0 <= i < |busy| :: l in busy[i]
    decreases |busy|
  {
    if busy == [] then []
    else
      var f := First(p, busy[0], l);
      [f.prio] + Served(Succ(f), busy[1..], l)
  }

  lemma {:induction false} ServedWithinWait(p: Pos, busy: seq<set<nat>>, l: nat)
    requires p.Valid() && l < CFQ_PRIO_LISTS && forall i | 0 <= i < |busy| :: l in busy[i]
    requires |busy| > Wait(p, l)
    ensures l in Served(p, busy, l)
    decreases |busy|
  {
    var f := First(p, busy[0], l);
    CallBringsNearer(p, busy[0], l);
    if f.prio != l {
      ServedWithinWait(Succ(f), busy[1..], l);
      assert l in Served(p, busy, l)[1..];
    }
  }

  /** Whatever becomes busy or idle in between, a level that stays busy is served within 36 calls. */
  lemma ServedWithin36(p: Pos, busy: seq<set<nat>>, l: nat)
    requires p.Valid() && l < CFQ_PRIO_LISTS && |busy| >= PLACES && forall i | 0 <= i < |busy| :: l in busy[i]
    ensures l in Served(p, busy, l)
  {
    ServedWithinWait(p, busy, l);
  }

  predicate AllBusy(busy: set<nat>) {
    forall l: nat | l < CFQ_PRIO_LISTS :: l in busy
  }

  lemma {:induction false} NotServedBefore(p: Pos, busy: seq<set<nat>>)
    requires p.Valid() && |busy| <= Distance(p, 7)
    requires forall i | 0 <= i < |busy| :: AllBusy(busy[i]) && 7 in busy[i]
    ensures 7 !in Served(p, busy, 7)
    decreases |busy|
  {
    if busy != [] {
      DistanceZero(p, 7);
      DistanceDrops(p, 7);
      NotServedBefore(Succ(p), busy[1..]);
    }
  }

  /** 36 is the best bound: with all levels busy, 35 calls from the start of the cycle miss level 7. */
  lemma BoundIsTight(busy: seq<set<nat>>)
    requires |busy| == PLACES - 1 && forall i | 0 <= i < |busy| :: AllBusy(busy[i]) && 7 in busy[i]
    ensures 7 !in Served(Pos(0, 0), busy, 7)
  {
    RoundStarts();
    NotServedBefore(Pos(0, 0), busy);
  }

  /** The levels whose list is not empty. */
  function Busy(lists: seq<seq<nat>>): set<nat> {
    set l | 0 <= l < |lists| && lists[l] != []
  }

  function RoundAfter(end: nat): Pos {
    if end + 1 == CFQ_PRIO_LISTS then Pos(0, 0) else Pos(0, end + 1)
  }

  /** A round without a busy level is left without effect on the choice. */
  lemma {:induction false} SkipRound(p: Pos, busy: set<nat>, l: nat)
    requires p.Valid() && l < CFQ_PRIO_LISTS && l in busy
    requires forall x | p.prio <= x <= p.end :: x !in busy
    ensures First(p, busy, l) == First(RoundAfter(p.end), busy, l)
    decreases p.end - p.prio
  {
    DistanceZero(p, l);
    if p.prio < p.end {
      SkipRound(Pos(p.prio + 1, p.end), busy, l);
    }
  }

  lemma {:induction false} SkipLevels(p: Pos, busy: set<nat>, l: nat, x: nat)
    requires p.Valid() && l < CFQ_PRIO_LISTS && l in busy && p.prio <= x <= p.end && x in busy
    requires forall y | p.prio <= y < x :: y !in busy
    ensures First(p, busy, l) == Pos(x, p.end)
    decreases x - p.prio
  {
    if p.prio < x {
      SkipLevels(Pos(p.prio + 1, p.end), busy, l, x);
    }
  }

  /** From both positions the same level is chosen. */
  ghost predicate SameFirst(p: Pos, q: Pos, busy: set<nat>) {
    && p.Valid() && q.Valid()
    && forall l | l in busy && l < CFQ_PRIO_LISTS :: First(p, busy, l) == First(q, busy, l)
  }

  lemma SkipEmpty(start: Pos, p: Pos, busy: set<nat>)
    requires SameFirst(start, p, busy) && forall x | p.prio <= x <= p.end :: x !in busy
    ensures SameFirst(start, RoundAfter(p.end), busy)
  {
    forall l | l in busy && l < CFQ_PRIO_LISTS
      ensures First(start, busy, l) == First(RoundAfter(p.end), busy, l)
    {
      SkipRound(p, busy, l);
    }
  }

  /** The round robin lists of queues with requests and the walk over them. */
  class RoundRobin {
    var curPrio: nat
    var curEndPrio: nat
    var rrList: seq<seq<nat>>
    var curRr: seq<nat>

    ghost predicate Valid() reads this {
      |rrList| == CFQ_PRIO_LISTS && Now().Valid()
    }

    function Now(): Pos reads this {
      Pos(curPrio, curEndPrio)
    }

    constructor ()
      ensures Valid() && Now() == Pos(0, 0) && Busy(rrList) == {} && curRr == []
    {
      curPrio, curEndPrio := 0, 0;
      rrList, curRr := [[], [], [], [], [], [], [], []], [];
    }

    /** The inner loop: the first busy level of the round, if any. */
    method ScanRound() returns (p: nat)
      requires Valid()
      ensures curPrio <= p <= curEndPrio + 1
      ensures forall x | curPrio <= x < p :: x !in Busy(rrList)
      ensures p <= curEndPrio ==> p in Busy(rrList)
    {
      p := curPrio;
      while p <= curEndPrio && rrList[p] == []
        invariant curPrio <= p <= curEndPrio + 1
        invariant forall x | curPrio <= x < p :: x !in Busy(rrList)
      {
        p := p + 1;
      }
    }

    /** The outer loop: goes to the first round from here on that has a busy level. */
    method FindLevel() returns (prio: int)
      requires Valid()
      modifies `curPrio, `curEndPrio
      ensures Valid()
      ensures prio == -1 ==> Busy(rrList) == {} && Now() == Pos(0, 0)
      ensures prio != -1 ==> 0 <= prio <= curEndPrio && prio in Busy(rrList)
      ensures prio != -1 ==> First(old(Now()), Busy(rrList), prio) == Pos(prio, curEndPrio)
    {
      prio := -1;
      var wrap := false;
      ghost var busy := Busy(rrList);
      while true
        invariant Valid() && prio == -1 && (wrap ==> curPrio == 0)
        invariant SameFirst(old(Now()), Now(), busy)
        decreases if wrap then 0 else 1, CFQ_PRIO_LISTS - curEndPrio
      {
        var p := ScanRound();
        if p <= curEndPrio {
          SkipLevels(Now(), busy, p, p);
          return p;
        }
        SkipEmpty(old(Now()), Now(), busy);
        var over := NextRound();
        if over {
          if wrap {
            break;
          }
          wrap := true;
        }
      }
    }

    /** On to the next round; after the last one the first comes again. */
    method NextRound() returns (over: bool)
      requires curEndPrio < CFQ_PRIO_LISTS
      modifies `curPrio, `curEndPrio
      ensures Now() == RoundAfter(old(curEndPrio)) && over == (old(curEndPrio) + 1 == CFQ_PRIO_LISTS)
    {
      curPrio, curEndPrio := 0, curEndPrio + 1;
      over := curEndPrio == CFQ_PRIO_LISTS;
      if over {
        curEndPrio := 0;
      }
    }

    /** cfq_get_next_prio_level: -1 exactly if no level is busy, otherwise the next busy level of the
    walk, whose queues move to the front of cur_rr. */
    method GetNextPrioLevel() returns (prio: int)
      requires Valid()
      modifies this
      ensures Valid()
      ensures prio == -1 <==> Busy(old(rrList)) == {}
      ensures prio == -1 ==> Now() == Pos(0, 0) && rrList == old(rrList) && curRr == old(curRr)
      ensures prio != -1 ==> 0 <= prio < CFQ_PRIO_LISTS && prio in Busy(old(rrList))
      ensures prio != -1 ==> var f := First(old(Now()), Busy(old(rrList)), prio); f.prio == prio && Now() == Succ(f)
      ensures prio != -1 ==> rrList == old(rrList)[prio := []] && curRr == old(rrList)[prio] + old(curRr)
    {
      prio := FindLevel();
      if prio == -1 {
        return;
      }
      curRr, rrList := rrList[prio] + curRr, rrList[prio := []];
      curPrio := prio + 1;
      if curPrio > curEndPrio {
        curEndPrio, curPrio := curPrio, 0;
      }
      if curEndPrio == CFQ_PRIO_LISTS {
        curPrio, curEndPrio := 0, 0;
      }
    }
  }
}
