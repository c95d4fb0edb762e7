/** block/deadline-iosched.c: how long reads can keep writes waiting. */
module DeadlineStarvation {
  import opened Sequences
  import opened DeadlineHash
  import opened DeadlineSort
  import opened Deadline
  import opened DeadlineTheorems

  function Left(limit: nat, used: nat): nat {
    if used < limit then limit - used else 0
  }

  function AtLeastOne(n: nat): nat {
    if n == 0 then 1 else n
  }

  /** A request that does not follow on the last one ends the batch exactly if the counter does not wrap. */
  lemma NonSequentialEndsBatch(c: Config, batching: Unsigned)
    ensures AddUnsigned(batching, c.fifoBatch) >= c.fifoBatch <==> batching + c.fifoBatch < LIMIT
  {
  }

  // ---- the counters --------------------------------------------------------------------------------------------

  /** What a call that serves a read while writes are pending can do to the counters: go on with the batch,
  sequentially or because the counter wraps; or prefer reads once more, with a new batch or, if the sweep
  goes on, without. */
  predicate Passes(c: Config, b: Unsigned, starved: Unsigned, b': Unsigned, starved': Unsigned) {
    || (b < c.fifoBatch && b' == b + 1 && starved' == starved)
    || (b + c.fifoBatch >= LIMIT && b' == b + c.fifoBatch - LIMIT + 1 && starved' == starved)
    || (starved < c.writesStarved && starved' == starved + 1 && PreferredAt(c, b, b'))
  }

  predicate PreferredAt(c: Config, b: Unsigned, b': Unsigned) {
    || b' == 1
    || (b >= c.fifoBatch && b' == AddUnsigned(b, 1))
    || (b + c.fifoBatch < LIMIT && b' == AddUnsigned(b + c.fifoBatch, 1))
  }

  /** How many calls can go on with the batch. Shortly before the counter wraps, a request that is not
  sequential takes it back to the start of a batch. */
  function Free(c: Config, b: Unsigned): (n: nat)
    ensures n <= c.fifoBatch
  {
    if b < c.fifoBatch then c.fifoBatch - b else if b + c.fifoBatch >= LIMIT then LIMIT - b else 0
  }

  /** How many more calls can pass without a write: what is left of the batch, and for each time reads may
  still be preferred that call and a batch. */
  function Patience(c: Config, b: Unsigned, starved: Unsigned): nat {
    Free(c, b) + Left(c.writesStarved, starved) * (c.fifoBatch + 1)
  }

  /** The tunables with which a preferred read can start a batch that is one request too long. */
  predicate Exceptional(c: Config) {
    || (3 * c.fifoBatch + 1 == LIMIT && c.writesStarved >= 1)
    || (c.fifoBatch == 1 && c.writesStarved >= 0x7FFF_FFFF)
  }

  /** With fifo_batch 1: the counter reaches its end by preferred reads alone, at two a call. */
  predicate WrapsInTime(b: Unsigned, left: nat) {
    b + 2 * left >= LIMIT - 1
  }

  /** What is left of a batch, or one if a preferred read may start a batch that is too long. */
  function Credit(c: Config, b: Unsigned, left: nat): (n: nat)
    ensures n <= c.fifoBatch
  {
    if c.fifoBatch == 0 then 0
    else if c.fifoBatch == 1 then (if b == 0 || WrapsInTime(b, left) then 1 else 0)
    else if b < c.fifoBatch then c.fifoBatch - b
    else if b + c.fifoBatch >= LIMIT then LIMIT - b
    else if left > 0 && (b + c.fifoBatch == LIMIT - 1 || b + 2 * c.fifoBatch == LIMIT - 1) then 1
    else 0
  }

  function TightPatience(c: Config, b: Unsigned, starved: Unsigned): nat {
    Credit(c, b, Left(c.writesStarved, starved)) + Left(c.writesStarved, starved) * AtLeastOne(c.fifoBatch)
  }

  function LooseBound(c: Config): nat {
    c.fifoBatch + c.writesStarved * (c.fifoBatch + 1)
  }

  function Bound(c: Config): nat {
    c.fifoBatch + c.writesStarved * AtLeastOne(c.fifoBatch)
  }

  lemma OneLess(k: nat, m: nat)
    requires k > 0
    ensures k * m == (k - 1) * m + m
  {
  }

  lemma PassesLowers(c: Config, b: Unsigned, starved: Unsigned, b': Unsigned, starved': Unsigned)
    requires Passes(c, b, starved, b', starved')
    ensures Patience(c, b', starved') < Patience(c, b, starved)
  {
    if starved' != starved {
      OneLess(Left(c.writesStarved, starved), c.fifoBatch + 1);
    }
  }

  /** Preferring reads once more: the credit grows by less than a batch. */
  lemma PreferCosts(c: Config, b: Unsigned, left: nat, b': Unsigned)
    requires !Exceptional(c) && 0 < left <= c.writesStarved && PreferredAt(c, b, b')
    ensures Credit(c, b', left - 1) < Credit(c, b, left) + AtLeastOne(c.fifoBatch)
  {
  }

  lemma FreeCosts(c: Config, b: Unsigned, left: nat, b': Unsigned)
    requires !Exceptional(c) && left <= c.writesStarved
    requires (b < c.fifoBatch && b' == b + 1) || (b + c.fifoBatch >= LIMIT && b' == b + c.fifoBatch - LIMIT + 1)
    ensures Credit(c, b', left) < Credit(c, b, left)
  {
  }

  lemma PassesLowersTight(c: Config, b: Unsigned, starved: Unsigned, b': Unsigned, starved': Unsigned)
    requires Passes(c, b, starved, b', starved') && !Exceptional(c)
    ensures TightPatience(c, b', starved') < TightPatience(c, b, starved)
  {
    var left := Left(c.writesStarved, starved);
    if starved' == starved {
      FreeCosts(c, b, left, b');
    } else {
      PreferCosts(c, b, left, b');
      OneLess(left, AtLeastOne(c.fifoBatch));
    }
  }

  // ---- one call ------------------------------------------------------------------------------------------------

  /** A write left the scheduler. */
  predicate Wrote(s: State, r: State) {
    |r.write.tree| < |s.write.tree|
  }

  lemma {:induction false} IndexFinds(t: seq<Drq>, id: nat)
    requires HasId(t, id)
    ensures IndexOf(t, id) < |t|
  {
    if t[0].id != id {
      var j :| 0 <= j < |t| && t[j].id == id;
      assert t[1..][j - 1].id == id;
      IndexFinds(t[1..], id);
    }
  }

  lemma FifoNonEmpty(d: Dir, limit: nat)
    requires DirOk(d, multiset{}, limit)
    ensures d.fifo != [] <==> d.tree != []
    ensures d.fifo != [] ==> HasId(d.tree, d.fifo[0].id)
  {
    var ids, fids := Ids(d.tree), FifoIds(d.fifo);
    assert multiset(ids) + multiset{} == multiset(ids);
    if d.tree != [] {
      assert ids[0] in multiset(fids);
    }
    if d.fifo != [] {
      assert fids[0] in multiset(ids);
      var j :| 0 <= j < |ids| && ids[j] == fids[0];
      assert d.tree[j].id == fids[0];
    }
  }

  lemma GoFields(s: State, w: bool, i: nat)
    requires i < |s.Of(w).tree|
    ensures var r := Go(s, w, i);
      && r.1 && r.0.batching == AddUnsigned(s.batching, 1) && r.0.starved == s.starved && (w ==> Wrote(s, r.0))
  {
  }

  /** A search in a direction that has requests finds one; the batch is a new one or goes on. */
  lemma FindRequestFields(c: Config, s: State, w: bool, now: nat)
    requires Inv(c, s) && s.Of(w).fifo != []
    ensures var r := FindRequest(s, w, now);
      && r.1 && r.0.starved == s.starved && (w ==> Wrote(s, r.0))
      && (r.0.batching == 1 || (s.Of(w).next.Some? && r.0.batching == AddUnsigned(s.batching, 1)))
  {
    var d := s.Of(w);
    Parts(c, s, false, []);
    NoExtra(false);
    FifoNonEmpty(d, s.clock + c.Expire(w));
    if now > d.fifo[0].expires {
      IndexFinds(d.tree, d.fifo[0].id);
      GoFields(s.(batching := 0), w, IndexOf(d.tree, d.fifo[0].id));
    } else if d.next.Some? {
      IndexFinds(d.tree, d.next.value);
      GoFields(s, w, IndexOf(d.tree, d.next.value));
    } else {
      GoFields(s.(batching := 0), w, 0);
    }
  }

  lemma ChooseDirPasses(c: Config, s: State, now: nat)
    requires Inv(c, s) && s.write.fifo != []
    ensures var r := ChooseDir(c, s, now);
      && r.1
      && (Wrote(s, r.0) || (s.starved < c.writesStarved && r.0.starved == s.starved + 1
                            && (r.0.batching == 1 || (s.read.next.Some? && r.0.batching == AddUnsigned(s.batching, 1)))))
  {
    if s.read.fifo != [] && s.starved < c.writesStarved {
      var s1 := s.(starved := AddUnsigned(s.starved, 1));
      SameIndices(c, s, s1);
      FindRequestFields(c, s1, false, now);
    } else {
      var s1 := s.(starved := 0);
      SameIndices(c, s, s1);
      FindRequestFields(c, s1, true, now);
    }
  }

  /** Every call of deadline_dispatch_requests with writes pending dispatches something; if that is not a
  write, the counters change as Passes says. */
  lemma DispatchPasses(c: Config, s: State, now: nat)
    requires Inv(c, s) && s.write.fifo != []
    ensures var r := Dispatch(c, s, now);
      r.1 && (Wrote(s, r.0) || Passes(c, s.batching, s.starved, r.0.batching, r.0.starved))
  {
    var w := s.write.next.Some?;
    Parts(c, s, false, []);
    if s.Of(w).next == None {
      ChooseDirPasses(c, s, now);
    } else {
      IndexFinds(s.Of(w).tree, s.Of(w).next.value);
      var i := IndexOf(s.Of(w).tree, s.Of(w).next.value);
      var s1 := if s.last != s.Of(w).tree[i].sector then s.(batching := AddUnsigned(s.batching, c.fifoBatch)) else s;
      NonSequentialEndsBatch(c, s.batching);
      if s1.batching < c.fifoBatch {
        GoFields(s1, w, i);
      } else {
        SameIndices(c, s, s1);
        ChooseDirPasses(c, s1, now);
      }
    }
  }

  /** Every call with writes pending dispatches a write, or the patience gets less. */
  lemma DispatchLowers(c: Config, s: State, now: nat)
    requires Inv(c, s) && s.write.fifo != []
    ensures var r := Dispatch(c, s, now);
      && r.1
      && (|| Wrote(s, r.0)
          || (&& Patience(c, r.0.batching, r.0.starved) < Patience(c, s.batching, s.starved)
              && (Exceptional(c)
                  || TightPatience(c, r.0.batching, r.0.starved) < TightPatience(c, s.batching, s.starved))))
  {
    DispatchPasses(c, s, now);
    var r := Dispatch(c, s, now).0;
    if !Wrote(s, r) {
      PassesLowers(c, s.batching, s.starved, r.batching, r.starved);
      if !Exceptional(c) {
        PassesLowersTight(c, s.batching, s.starved, r.batching, r.starved);
      }
    }
  }

  /** The other operations do not touch the counters. */
  lemma OthersKeepPatience(c: Config, s: State, e: Event)
    requires Bounded(c.h, |s.hash|) && Enabled(c, s, e) && !e.DispatchOne?
    ensures Step(c, s, e).batching == s.batching && Step(c, s, e).starved == s.starved
  {
  }

  // ---- runs ------------------------------------------------------------------------------------------------------

  /** A run in which every dispatch call finds writes pending and dispatches none. */
  ghost predicate Starving(c: Config, s: State, es: seq<Event>)
    requires CanRun(c, s, es)
    decreases |es|
  {
    es != [] ==>
      && (es[0].DispatchOne? ==> s.write.fifo != [] && !Wrote(s, Step(c, s, es[0])))
      && Starving(c, Step(c, s, es[0]), es[1..])
  }

  function Dispatches(es: seq<Event>): nat {
    if es == [] then 0 else (if es[0].DispatchOne? then 1 else 0) + Dispatches(es[1..])
  }

  lemma {:induction false} PatienceRunsOut(c: Config, s: State, es: seq<Event>)
    requires Inv(c, s) && CanRun(c, s, es) && Starving(c, s, es)
    ensures Dispatches(es) <= Patience(c, s.batching, s.starved)
    ensures Exceptional(c) || Dispatches(es) <= TightPatience(c, s.batching, s.starved)
    decreases |es|
  {
    if es != [] {
      StepKeeps(c, s, es[0]);
      PatienceRunsOut(c, Step(c, s, es[0]), es[1..]);
      if es[0].DispatchOne? {
        DispatchLowers(c, s, es[0].now);
      } else {
        OthersKeepPatience(c, s, es[0]);
      }
    }
  }

  lemma LeftTimes(limit: nat, used: nat, m: nat)
    ensures Left(limit, used) * m <= limit * m
  {
    var a := Left(limit, used);
    assert a * m + (limit - a) * m == limit * m;
    assert (limit - a) * m >= 0;
  }

  lemma PatienceBounded(c: Config, b: Unsigned, starved: Unsigned)
    ensures Patience(c, b, starved) <= LooseBound(c) && TightPatience(c, b, starved) <= Bound(c)
  {
    LeftTimes(c.writesStarved, starved, c.fifoBatch + 1);
    LeftTimes(c.writesStarved, starved, AtLeastOne(c.fifoBatch));
  }

  /** While writes stay pending, at most fifo_batch + writes_starved * (fifo_batch + 1) calls pass without one
  in every run, whatever is added, merged and moved in between; and only fifo_batch + writes_starved *
  max(1, fifo_batch) unless the tunables are exceptional. */
  lemma StarvationBound(c: Config, s: State, es: seq<Event>)
    requires Inv(c, s) && CanRun(c, s, es) && Starving(c, s, es)
    ensures Dispatches(es) <= LooseBound(c)
    ensures !Exceptional(c) ==> Dispatches(es) <= Bound(c)
  {
    PatienceRunsOut(c, s, es);
    PatienceBounded(c, s.batching, s.starved);
  }
}
