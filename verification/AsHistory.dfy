/** block/as-iosched.c: the statistics about processes, and what they say about breaking anticipation.

AsBatch leaves the outcome of the statistics open (`breaks`). Here they are computed, so that runs can be
told apart whose outcomes are those of the code. Merges and process exits are not part of these runs.
*/
module AsHistory {
  import opened Sequences
  import opened AsSort
  import opened AsBatch
  import opened AsTheorems

  /** Timer ticks a second. */
  type Hz = n: nat | n >= 50 witness 100

  /** A decaying mean; 1.0 is 256. */
  datatype Average = Average(samples: nat, total: nat, mean: nat)

  const NONE: Average := Average(0, 0, 0)

  /** struct as_io_context. */
  datatype Process = Process(running: bool, ioStarted: bool, ioRunning: bool, queued: int, dispatched: int,
                             lastEnd: nat, lastPos: nat, think: Average, seek: Average)

  /** alloc_as_io_context. */
  const NEW: Process := Process(true, false, false, 0, 0, 0, 0, NONE, NONE)

  /** The processes by their io_context, and what as_data keeps about new and exiting ones. */
  datatype History = History(processes: map<nat, Process>, newThinkTotal: nat, newThinkMean: nat, newSeekTotal: nat,
                             newSeekMean: nat, exitProb: nat, exitNoCoop: nat)
  {
    function Of(ioc: nat): Process { if ioc in processes then processes[ioc] else NEW }
    function With(ioc: nat, p: Process): History { this.(processes := processes[ioc := p]) }
  }

  /** as_init_queue. */
  const NO_HISTORY: History := History(map[], 0, 0, 0, 0, 0, 0)

  function Since(now: nat, t: nat): nat { if now >= t then now - t else 0 }

  function Distance(a: nat, b: nat): nat { if a < b then b - a else a - b }

  function Shift(n: nat, k: nat): nat { if k == 0 then n else 2 * Shift(n, k - 1) }

  // ---- the statistics --------------------------------------------------------------------------------------

  function Decayed(before: nat, v: nat): nat { (7 * before + 256 * v) / 8 }

  function MoreSamples(n: nat): (r: nat)
    ensures r > 0
  {
    (7 * n + 256) / 8
  }

  function Mean(total: nat, samples: nat): nat
    requires samples > 0
  {
    total / samples
  }

  /** as_update_thinktime. */
  function UpdateThink(h: History, ioc: nat, ttime: nat): History {
    var p := h.Of(ioc);
    var h1 := if p.think.samples != 0 then h
              else
                var total := Decayed(h.newThinkTotal, ttime);
                h.(newThinkTotal := total, newThinkMean := total / 256, exitProb := 7 * h.exitProb / 8);
    var samples, total := MoreSamples(p.think.samples), Decayed(p.think.total, ttime);
    h1.With(ioc, p.(think := Average(samples, total, Mean(total + 128, samples))))
  }

  /** as_update_seekdist. */
  function UpdateSeek(h: History, ioc: nat, dist: nat): History {
    var p := h.Of(ioc);
    var h1 := if p.seek.samples != 0 then h
              else
                var total := Decayed(h.newSeekTotal, dist);
                h.(newSeekTotal := total, newSeekMean := total / 256);
    var d := Min(dist, p.seek.mean * 4 + if p.seek.samples <= 60 then 2 * 1024 * 1024 else 2 * 1024 * 64);
    var samples, total := MoreSamples(p.seek.samples), Decayed(p.seek.total, d);
    h1.With(ioc, p.(seek := Average(samples, total, Mean(total + samples / 2, samples))))
  }

  /** as_update_iohist for a request of direction d. */
  function UpdateIohist(hz: Hz, h: History, ioc: nat, d: bool, a: Arq, now: nat): History {
    if !d then h
    else
      var p := h.Of(ioc);
      var h1 := if !p.ioRunning && !p.ioStarted then h
                else
                  var think := if p.ioRunning && p.queued + p.dispatched == 0 then Min(Since(now, p.lastEnd), hz / 50 - 1) else 0;
                  UpdateSeek(UpdateThink(h, ioc, think), ioc, Distance(p.lastPos, a.sector));
      h1.With(ioc, h1.Of(ioc).(lastPos := a.End(), ioStarted := true))
  }

  // ---- breaking anticipation -------------------------------------------------------------------------------

  /** The distance test of as_close_req. */
  predicate WithinReach(last: nat, next: nat, delta: nat) {
    last <= next + delta / 2 && next <= last + delta
  }

  /** as_close_req. */
  predicate CloseReq(hz: Hz, c: Config, s: State, h: History, p: Process, next: nat, now: nat) {
    var delay := if s.status == Off || !s.iocFinished then 0 else Since(now, s.anticStart) * 1000 / hz;
    var last := s.Dir(s.batchSync).last;
    || (delay != 0 && !(delay <= 20 && delay <= c.anticExpire))
    || WithinReach(last, next, Shift(8192, delay))
    || (if p.seek.samples == 0 then h.newSeekMean else p.seek.mean) > Distance(last, next)
  }

  function MoreExits(h: History): nat { (7 * h.exitProb + 256) / 8 }

  /** as_can_break_anticipation behind its first two tests, for a request of direction d, and what becomes of
  the statistics. */
  function Decide(hz: Hz, c: Config, s: State, h: History, arq: Option<Arq>, d: bool, now: nat): (bool, History)
    requires s.ioc.Some?
  {
    var p := h.Of(s.ioc.value);
    var exited := !p.running && p.think.samples == 0;
    if p.queued > 0 || p.dispatched > 0 then (true, h)
    else if arq.Some? && d && CloseReq(hz, c, s, h, p, arq.value.sector, now) then
      var h1 := h.(exitProb := if exited then MoreExits(h) else h.exitProb,
                   exitNoCoop := if p.running then h.exitNoCoop else 7 * h.exitNoCoop / 8);
      (true, UpdateIohist(hz, h1, s.ioc.value, d, arq.value, now))
    else
      var h1 := h.(exitProb := if exited then MoreExits(h) else h.exitProb);
      var b := if !p.running && h1.exitNoCoop > 128 then true
               else if p.think.samples == 0 then
                 h1.newThinkMean > c.anticExpire || h1.exitProb * h1.exitNoCoop > 128 * 256
               else p.think.mean > c.anticExpire;
      (b, h1)
  }

  /** The first two tests do not decide. */
  predicate Undecided(c: Config, s: State, arq: Option<Arq>, now: nat) {
    !CanBreak(c, s, arq, now, false)
  }

  /** as_dispatch_request comes to the statistics. */
  predicate DispatchAsks(c: Config, s: State, now: nat) {
    && (s.Pending(true) || s.Pending(false)) && !s.Waiting() && !s.changedBatch
    && !(s.Pending(true) && s.Pending(false) && BatchExpired(s, now))
    && s.batchSync && c.anticExpire != 0 && !FifoExpired(c, s, true, now)
    && s.ioc.Some? && s.status != Finished && Undecided(c, s, ArqAt(s.sync, s.sync.next), now)
  }

  /** So does as_update_arq, after the request has been counted and inserted. */
  predicate ArriveAsks(c: Config, s: State, a: Arq, now: nat) {
    s.Waiting() && s.ioc.Some? && Undecided(c, s, Some(a), now)
  }

  // ---- what the operations do to the statistics ----------------------------------------------------------

  /** as_add_request up to as_update_arq. */
  function Counted(hz: Hz, h: History, d: bool, a: Arq, now: nat): History {
    if a.ioc == None then h
    else
      var h1 := UpdateIohist(hz, h, a.ioc.value, d, a, now);
      h1.With(a.ioc.value, h1.Of(a.ioc.value).(queued := h1.Of(a.ioc.value).queued + 1))
  }

  /** A request goes to the dispatch queue. */
  function Sent(h: History, ioc: Option<nat>): History {
    if ioc == None then h
    else
      var p := h.Of(ioc.value);
      h.With(ioc.value, p.(queued := p.queued - 1, dispatched := p.dispatched + 1))
  }

  /** as_activate_request and as_put_io_context. */
  function Back(h: History, o: Out, now: nat): History {
    if o.ioc == None then h
    else
      var p := h.Of(o.ioc.value).(dispatched := h.Of(o.ioc.value).dispatched - 1);
      h.With(o.ioc.value, if o.sync then p.(ioRunning := true, lastEnd := now) else p)
  }

  /** as_antic_timeout. */
  function TimedOut(s: State, h: History): History {
    if !s.Waiting() || s.ioc == None then h
    else
      var p := h.Of(s.ioc.value);
      h.(exitProb := if p.think.samples == 0 then MoreExits(h) else h.exitProb,
         exitNoCoop := if p.running then h.exitNoCoop else (7 * h.exitNoCoop + 256) / 8)
  }

  function Track(hz: Hz, c: Config, s: State, h: History, e: Event): History
    requires Enabled(s, e)
  {
    match e
    case Arrive(d, a, now, _) =>
      var h1 := Counted(hz, h, d, a, now);
      if ArriveAsks(c, s, a, now) then Decide(hz, c, s, h1, Some(a), d, now).1 else h1
    case DispatchOne(now, breaks) =>
      var h1 := if DispatchAsks(c, s, now) then Decide(hz, c, s, h, ArqAt(s.sync, s.sync.next), true, now).1 else h;
      var r := Dispatch(c, s, now, breaks);
      if r.1 && r.0.out != [] then Sent(h1, r.0.out[|r.0.out| - 1].ioc) else h1
    case Done(k, now) => Back(h, s.out[k], now)
    case Timeout => TimedOut(s, h)
    case Extend(_, _, _) => h
    case MergeNext(_, _) => h
  }

  /** The event happens as in the code: a request expires when it should, and where the statistics are asked
  the event says what they say. */
  predicate Truthful(hz: Hz, c: Config, s: State, h: History, e: Event) {
    match e
    case Arrive(d, a, now, breaks) =>
      && a.expires == now + c.FifoExpire(d)
      && (ArriveAsks(c, s, a, now) ==> breaks == Decide(hz, c, s, Counted(hz, h, d, a, now), Some(a), d, now).0)
    case DispatchOne(now, breaks) =>
      DispatchAsks(c, s, now) ==> breaks == Decide(hz, c, s, h, ArqAt(s.sync, s.sync.next), true, now).0
    case Done(_, _) => true
    case Timeout => true
    case Extend(_, _, _) => true
    case MergeNext(_, _) => false
  }

  /** These events are a run of the code from s and h to t and g. */
  ghost predicate IsReal(hz: Hz, c: Config, s: State, h: History, es: seq<Event>, t: State, g: History)
    decreases |es|
  {
    if es == [] then s == t && h == g
    else
      && Enabled(s, es[0]) && Truthful(hz, c, s, h, es[0])
      && IsReal(hz, c, Step(c, s, es[0]), Track(hz, c, s, h, es[0]), es[1..], t, g)
  }

  lemma {:induction false} RealCanRun(hz: Hz, c: Config, s: State, h: History, es: seq<Event>, t: State, g: History)
    requires IsReal(hz, c, s, h, es, t, g)
    ensures CanRun(c, s, es) && Run(c, s, es) == t
    decreases |es|
  {
    if es != [] {
      RealCanRun(hz, c, Step(c, s, es[0]), Track(hz, c, s, h, es[0]), es[1..], t, g);
    }
  }

  lemma {:induction false} RealConcat(hz: Hz, c: Config, s: State, h: History, a: seq<Event>, t: State, g: History,
                                      b: seq<Event>, u: State, k: History)
    requires IsReal(hz, c, s, h, a, t, g) && IsReal(hz, c, t, g, b, u, k)
    ensures IsReal(hz, c, s, h, a + b, u, k)
    decreases |a|
  {
    if a == [] {
      assert a + b == b;
    } else {
      TailConcat(a, b);
      RealConcat(hz, c, Step(c, s, a[0]), Track(hz, c, s, h, a[0]), a[1..], t, g, b, u, k);
    }
  }

  /** Where the statistics are not asked it does not matter what an event says about them. */
  lemma UnaskedDoesNotMatter(c: Config, s: State, d: bool, a: Arq, now: nat)
    ensures !DispatchAsks(c, s, now) ==> Dispatch(c, s, now, true) == Dispatch(c, s, now, false)
    ensures AnticOk(s) && !ArriveAsks(c, s, a, now) ==> Add(c, s, d, a, now, true) == Add(c, s, d, a, now, false)
  {
  }
}
