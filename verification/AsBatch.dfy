/** block/as-iosched.c: batches and anticipation, as a state machine.

One step is one operation under the queue lock.  Time is a natural number.  What the think-time and
seek statistics of a process say is a parameter of the steps that ask for it (`breaks`).  Requests
with the sector of a queued one (aliases), front merges and forced dispatch are not part of this model.
*/
module AsBatch {
  import opened Sequences
  import opened AsSort

  datatype Status = Off | WaitReq | WaitNext | Finished

  /** A dispatched request that has not completed. */
  datatype Out = Out(sync: bool, ioc: Option<nat>)

  /** The tunables. */
  datatype Config = Config(fifoExpireSync: nat, fifoExpireAsync: nat, batchExpireSync: nat, batchExpireAsync: nat,
                           anticExpire: nat)
  {
    function FifoExpire(d: bool): nat { if d then fifoExpireSync else fifoExpireAsync }
  }

  /** struct as_data; directions are true for REQ_SYNC and false for REQ_ASYNC. */
  datatype State = State(
    sync: Side, async: Side,
    status: Status, anticStart: nat, ioc: Option<nat>, iocFinished: bool,
    batchSync: bool, changedBatch: bool, newBatch: bool, batchExpires: nat,
    writeBatchCount: int, currentWriteCount: int, writeBatchIdled: bool,
    lastCheckSync: nat, lastCheckAsync: nat,
    out: seq<Out>, nrDispatched: int)
  {
    function Dir(d: bool): Side { if d then sync else async }
    function With(d: bool, x: Side): State { if d then this.(sync := x) else this.(async := x) }
    function LastCheck(d: bool): nat { if d then lastCheckSync else lastCheckAsync }
    function Pending(d: bool): bool { Dir(d).fifo != [] }
    predicate Waiting() { status == WaitReq || status == WaitNext }
  }

  function Elapsed(now: nat, t: nat): nat { if now >= t then now - t else t - now }

  // ---- expiry ---------------------------------------------------------------------------------------

  function ExpiresOf(tree: seq<Arq>, sector: nat): nat {
    var k := Place(tree, sector); if k < |tree| then tree[k].expires else 0
  }

  predicate CheckDue(c: Config, s: State, d: bool, now: nat) {
    Elapsed(now, s.LastCheck(d)) >= c.FifoExpire(d)
  }

  /** as_fifo_expired: the answer... */
  predicate FifoExpired(c: Config, s: State, d: bool, now: nat) {
    CheckDue(c, s, d, now) && s.Pending(d) && now > ExpiresOf(s.Dir(d).tree, s.Dir(d).fifo[0])
  }

  /** ... and the note that it was asked for. */
  function Checked(c: Config, s: State, d: bool, now: nat): State {
    if !CheckDue(c, s, d, now) then s
    else if d then s.(lastCheckSync := now)
    else s.(lastCheckAsync := now)
  }

  /** as_batch_expired. */
  predicate BatchExpired(s: State, now: nat) {
    !s.changedBatch && !s.newBatch && (now > s.batchExpires || (!s.batchSync && s.currentWriteCount == 0))
  }

  // ---- anticipation -----------------------------------------------------------------------------------

  /** as_can_break_anticipation; `arq` is None for NULL. */
  predicate CanBreak(c: Config, s: State, arq: Option<Arq>, now: nat, breaks: bool) {
    || (arq.Some? && arq.value.ioc == s.ioc)
    || (s.iocFinished && Elapsed(now, s.anticStart) >= c.anticExpire)
    || breaks
  }

  /** as_can_anticipate. */
  predicate CanAnticipate(c: Config, s: State, arq: Option<Arq>, now: nat, breaks: bool) {
    s.ioc.Some? && s.status != Finished && !CanBreak(c, s, arq, now, breaks)
  }

  /** as_antic_waitreq. */
  function StartWaiting(s: State): State {
    if s.status != Off then s
    else if s.ioc == None || s.iocFinished then s.(status := WaitNext)
    else s.(status := WaitReq)
  }

  /** as_antic_stop. */
  function StopWaiting(s: State): State {
    if s.Waiting() then s.(status := Finished) else s
  }

  function ArqAt(d: Side, key: Option<nat>): Option<Arq> {
    if key == None then None
    else var k := Place(d.tree, key.value); if k < |d.tree| then Some(d.tree[k]) else None
  }

  // ---- requests come -----------------------------------------------------------------------------------

  /** as_add_request and as_update_arq. */
  function Add(c: Config, s: State, d: bool, a: Arq, now: nat, breaks: bool): State {
    var s1 := s.With(d, Insert(s.Dir(d), a));
    if s1.Waiting() && CanBreak(c, s1, Some(a), now, breaks) then StopWaiting(s1) else s1
  }

  // ---- requests go to the driver ------------------------------------------------------------------------

  /** Who is to be anticipated after a has been dispatched. */
  function Noted(s: State, d: bool, a: Arq): State {
    if d then s.(status := Off, iocFinished := false, ioc := if a.ioc.Some? then a.ioc else s.ioc)
    else s.(status := Off, iocFinished := false, ioc := None,
            currentWriteCount := if s.currentWriteCount != 0 then s.currentWriteCount - 1 else 0)
  }

  /** as_move_to_dispatch. */
  function MoveToDispatch(s: State, d: bool, i: nat): State
    requires i < |s.Dir(d).tree|
  {
    var a := s.Dir(d).tree[i];
    var s1 := Noted(s, d, a).With(d, Send(s.Dir(d), i));
    s1.(out := s1.out + [Out(d, a.ioc)], nrDispatched := s1.nrDispatched + 1)
  }

  /** A batch of the other direction begins. */
  function BeginBatch(c: Config, s: State, now: nat): State {
    if !s.changedBatch then s
    else if s.batchSync then s.(newBatch := true, changedBatch := false)
    else s.(batchExpires := now + c.batchExpireAsync, changedBatch := false)
  }

  /** The end of as_dispatch_request: the request at sector `key` is selected. */
  function Launch(c: Config, s: State, key: nat, now: nat): (State, bool) {
    if s.changedBatch && s.nrDispatched != 0 then (s, false)
    else
      var s1 := BeginBatch(c, s, now);
      var i := Place(s1.Dir(s1.batchSync).tree, key);
      if i < |s1.Dir(s1.batchSync).tree| then (MoveToDispatch(s1, s1.batchSync, i), true) else (s1, false)
  }

  /** The label dispatch_request. */
  function DispatchKey(c: Config, s: State, key: nat, now: nat): (State, bool) {
    var d := s.batchSync;
    Launch(c, Checked(c, s, d, now), if FifoExpired(c, s, d, now) then s.Dir(d).fifo[0] else key, now)
  }

  /** No batch is running: choose the direction. */
  function ToReads(s: State, now: nat): State {
    s.(changedBatch := s.changedBatch || !s.batchSync, batchSync := true, lastCheckSync := now)
  }

  function ToWrites(s: State): State {
    s.(changedBatch := s.changedBatch || s.batchSync, newBatch := s.newBatch && !s.batchSync, batchSync := false,
       currentWriteCount := s.writeBatchCount, writeBatchIdled := false)
  }

  function Switch(c: Config, s: State, now: nat): (State, bool) {
    if s.Pending(true) && !(s.Pending(false) && s.batchSync) then
      DispatchKey(c, ToReads(s, now), s.sync.fifo[0], now)
    else if s.Pending(false) && s.async.next.Some? then
      DispatchKey(c, ToWrites(s), s.async.next.value, now)
    else (s, false)
  }

  /** With nothing but reads pending the batch does not run out. */
  function Renewed(c: Config, s: State, now: nat): State {
    if s.Pending(true) && !s.Pending(false) then s.(batchExpires := now + c.batchExpireSync) else s
  }

  /** The batch goes on with next_arq of its direction. */
  function Continue(c: Config, s: State, now: nat): (State, bool) {
    var key := s.Dir(s.batchSync).next;
    if key == None then Switch(c, s, now) else DispatchKey(c, Renewed(c, s, now), key.value, now)
  }

  /** A running batch, with the anticipation of reads. */
  function RunBatch(c: Config, s: State, now: nat, breaks: bool): (State, bool) {
    if s.batchSync && c.anticExpire != 0 then
      var s1 := Checked(c, s, true, now);
      if FifoExpired(c, s, true, now) then Launch(c, s1, s.sync.fifo[0], now)
      else if CanAnticipate(c, s1, ArqAt(s.sync, s.sync.next), now, breaks) then (StartWaiting(s1), false)
      else Continue(c, s1, now)
    else Continue(c, s, now)
  }

  function Idled(s: State): State {
    if !s.batchSync && !s.Pending(true) && (s.currentWriteCount == 0 || !s.Pending(false))
    then s.(writeBatchIdled := true) else s
  }

  /** as_dispatch_request without force. */
  function Dispatch(c: Config, s: State, now: nat, breaks: bool): (State, bool) {
    var s1 := Idled(s);
    if !(s1.Pending(true) || s1.Pending(false)) || s1.Waiting() || s1.changedBatch then (s1, false)
    else if s1.Pending(true) && s1.Pending(false) && BatchExpired(s1, now) then Switch(c, s1, now)
    else RunBatch(c, s1, now, breaks)
  }

  // ---- requests complete ----------------------------------------------------------------------------------

  /** update_write_batch. */
  function WriteBatch(c: Config, s: State, now: nat): int {
    var batch := c.batchExpireAsync;
    var time := if now + batch < s.batchExpires then 0 else now + batch - s.batchExpires;
    var n :=
      if time > batch && !s.writeBatchIdled then
        (if time > batch * 3 then s.writeBatchCount / 2 else s.writeBatchCount - 1)
      else if time < batch && s.currentWriteCount == 0 then
        (if batch > time * 3 then s.writeBatchCount * 2 else s.writeBatchCount + 1)
      else s.writeBatchCount;
    if n < 1 then 1 else n
  }

  /** The batch has at least one request; it grows exactly after a batch that was used up before its time,
      shrinks exactly after one that was late although the drive had work, and never by more than a factor
      of two. */
  lemma WriteBatchTuned(c: Config, s: State, now: nat)
    requires s.writeBatchCount >= 1
    ensures var took, n := now + c.batchExpireAsync - s.batchExpires, WriteBatch(c, s, now);
            && n >= 1 && s.writeBatchCount / 2 <= n <= 2 * s.writeBatchCount
            && (n > s.writeBatchCount <==> took < c.batchExpireAsync && 0 < c.batchExpireAsync && s.currentWriteCount == 0)
            && (n < s.writeBatchCount <==> took > c.batchExpireAsync && !s.writeBatchIdled && s.writeBatchCount > 1)
  {
  }

  /** The last request of the old batch is back. */
  function EndOldBatch(s: State): State {
    if s.changedBatch && s.nrDispatched == 1 then s.(changedBatch := false, newBatch := s.newBatch || s.batchSync) else s
  }

  function CountBatch(c: Config, s: State, sync: bool, now: nat): State {
    if s.newBatch && s.batchSync == sync then
      s.(writeBatchCount := WriteBatch(c, s, now), batchExpires := now + c.batchExpireSync, newBatch := false)
    else s
  }

  function EndWaitReq(s: State, ioc: Option<nat>, now: nat): State {
    if s.ioc.Some? && s.ioc == ioc then
      s.(anticStart := now, iocFinished := true, status := if s.status == WaitReq then WaitNext else s.status)
    else s
  }

  /** as_completed_request for the k-th dispatched request. */
  function Complete(c: Config, s: State, k: nat, now: nat): State
    requires k < |s.out|
  {
    var o := s.out[k];
    var s1 := EndOldBatch(s);
    var s2 := s1.(nrDispatched := s1.nrDispatched - 1, out := RemoveAt(s1.out, k));
    EndWaitReq(CountBatch(c, s2, o.sync, now), o.ioc, now)
  }

  // ---- runs ---------------------------------------------------------------------------------------------

  datatype Event =
    | Arrive(d: bool, a: Arq, now: nat, breaks: bool)
    | Extend(d: bool, i: nat, nr: nat)
    | MergeNext(d: bool, i: nat)
    | DispatchOne(now: nat, breaks: bool)
    | Done(k: nat, now: nat)
    | Timeout

  predicate Enabled(s: State, e: Event) {
    match e
    case Arrive(d, a, _, _) => Fits(s.Dir(d).tree, a)
    case Extend(d, i, nr) =>
      var t := s.Dir(d).tree; i < |t| && (i + 1 < |t| ==> t[i].sector + nr <= t[i + 1].sector)
    case MergeNext(d, i) => var t := s.Dir(d).tree; i + 1 < |t| && t[i].End() == t[i + 1].sector
    case DispatchOne(_, _) => true
    case Done(k, _) => k < |s.out|
    case Timeout => true
  }

  function Step(c: Config, s: State, e: Event): State
    requires Enabled(s, e)
  {
    match e
    case Arrive(d, a, now, breaks) => Add(c, s, d, a, now, breaks)
    case Extend(d, i, nr) => s.With(d, Grow(s.Dir(d), i, nr))
    case MergeNext(d, i) => s.With(d, Merge(s.Dir(d), i))
    case DispatchOne(now, breaks) => Dispatch(c, s, now, breaks).0
    case Done(k, now) => Complete(c, s, k, now)
    case Timeout => StopWaiting(s)
  }

  // ---- the invariant -------------------------------------------------------------------------------------

  /** All requests at the driver have one direction: that of the batch, or the other one while the switch
  is being waited for. */
  predicate OneDirection(s: State) {
    forall o | o in s.out :: o.sync == (s.batchSync != s.changedBatch)
  }

  predicate BatchOk(s: State) {
    && s.nrDispatched == |s.out|
    && (s.changedBatch ==> s.nrDispatched > 0)
    && OneDirection(s)
    && (s.newBatch ==> s.batchSync && !s.changedBatch)
    && s.writeBatchCount >= 1
  }

  predicate AnticOk(s: State) {
    && (s.Waiting() ==> s.ioc.Some?)
    && (s.status == WaitReq ==> !s.iocFinished)
  }

  predicate Inv(s: State) {
    SideOk(s.sync) && SideOk(s.async) && BatchOk(s) && AnticOk(s)
  }

  // ---- every step keeps it -----------------------------------------------------------------------------

  lemma PendingMeansNext(d: Side)
    requires SideOk(d)
    ensures d.fifo != [] <==> d.tree != []
    ensures d.next == None <==> d.tree == []
    ensures d.next.Some? ==> KeyIn(d.tree, d.next.value)
    ensures d.fifo != [] ==> KeyIn(d.tree, d.fifo[0])
  {
    var keys := Keys(d.tree);
    if d.tree != [] {
      assert keys[0] in multiset(d.fifo);
    }
    if d.fifo != [] {
      assert d.fifo[0] in multiset(keys);
      var j :| 0 <= j < |keys| && keys[j] == d.fifo[0];
      PlaceFinds(d.tree, j);
    }
    if d.next.Some? {
      var j :| 0 <= j < |d.tree| && d.tree[j].sector == d.next.value;
      PlaceFinds(d.tree, j);
    }
  }

  predicate KeyIn(tree: seq<Arq>, key: nat) {
    var k := Place(tree, key); k < |tree| && tree[k].sector == key
  }

  lemma PlaceFinds(tree: seq<Arq>, j: nat)
    requires Disjoint(tree) && j < |tree|
    ensures Place(tree, tree[j].sector) == j
  {
    assert Place(tree, tree[j].sector) <= j;
  }

  /** BatchOk while as_dispatch_request is at work. */
  predicate MidBatch(s: State) {
    && s.nrDispatched == |s.out|
    && OneDirection(s)
    && (s.newBatch ==> s.batchSync && !s.changedBatch)
    && s.writeBatchCount >= 1
  }

  predicate SidesOk(s: State) {
    SideOk(s.sync) && SideOk(s.async)
  }

  predicate Mid(s: State) {
    SidesOk(s) && MidBatch(s) && AnticOk(s)
  }

  lemma InvParts(s: State)
    requires Inv(s)
    ensures Mid(s) && BatchOk(s)
  {
  }

  lemma InvFromParts(s: State)
    requires SidesOk(s) && BatchOk(s) && AnticOk(s)
    ensures Inv(s)
  {
  }

  lemma SidesSame(s: State, s1: State)
    requires SidesOk(s) && s1.sync == s.sync && s1.async == s.async
    ensures SidesOk(s1)
  {
  }

  lemma MidSame(s: State, s1: State)
    requires Mid(s) && s1.sync == s.sync && s1.async == s.async && s1.out == s.out && s1.nrDispatched == s.nrDispatched
    requires s1.batchSync == s.batchSync && s1.changedBatch == s.changedBatch && s1.newBatch == s.newBatch
    requires s1.writeBatchCount == s.writeBatchCount && s1.status == s.status && s1.ioc == s.ioc
    requires s1.iocFinished == s.iocFinished
    ensures Mid(s1)
  {
    SidesSame(s, s1);
  }

  lemma KeysIn(s: State, d: bool)
    requires SidesOk(s)
    ensures s.Pending(d) ==> KeyIn(s.Dir(d).tree, s.Dir(d).fifo[0])
    ensures s.Pending(d) <==> s.Dir(d).next.Some?
    ensures s.Dir(d).next.Some? ==> KeyIn(s.Dir(d).tree, s.Dir(d).next.value)
  {
    PendingMeansNext(s.Dir(d));
  }

  lemma SidesWith(s: State, d: bool, x: Side)
    requires SidesOk(s) && SideOk(x)
    ensures SidesOk(s.With(d, x))
  {
  }

  predicate OneMore(before: seq<Out>, after: seq<Out>, d: bool) {
    |after| == |before| + 1 && after[..|before|] == before && after[|before|].sync == d
  }

  lemma MoveKeeps(s: State, i: nat)
    requires SidesOk(s) && MidBatch(s) && !s.changedBatch && i < |s.Dir(s.batchSync).tree|
    ensures Inv(MoveToDispatch(s, s.batchSync, i)) && !MoveToDispatch(s, s.batchSync, i).changedBatch
    ensures OneMore(s.out, MoveToDispatch(s, s.batchSync, i).out, s.batchSync)
  {
    SendOk(s.Dir(s.batchSync), i);
    var r := MoveToDispatch(s, s.batchSync, i);
    forall o | o in r.out ensures o.sync == s.batchSync {
      assert o in s.out || o == r.out[|s.out|];
    }
  }

  /** The selected request is dispatched unless requests of the other direction are still out. */
  lemma LaunchKeeps(c: Config, s: State, key: nat, now: nat)
    requires Mid(s) && KeyIn(s.Dir(s.batchSync).tree, key)
    ensures var r := Launch(c, s, key, now);
      && Inv(r.0)
      && (r.1 <==> !(s.changedBatch && s.nrDispatched != 0)) && (r.1 ==> !r.0.changedBatch)
      && (if r.1 then OneMore(s.out, r.0.out, s.batchSync) else r.0 == s)
  {
    var r := Launch(c, s, key, now);
    if !(s.changedBatch && s.nrDispatched != 0) {
      var s1 := BeginBatch(c, s, now);
      var i := Place(s1.Dir(s1.batchSync).tree, key);
      assert s.changedBatch ==> s.out == [];
      MoveKeeps(s1, i);
    }
  }

  lemma DispatchKeyKeeps(c: Config, s: State, key: nat, now: nat)
    requires Mid(s) && KeyIn(s.Dir(s.batchSync).tree, key)
    ensures var r := DispatchKey(c, s, key, now);
      && Inv(r.0)
      && (r.1 <==> !(s.changedBatch && s.nrDispatched != 0)) && (r.1 ==> !r.0.changedBatch)
      && (if r.1 then OneMore(s.out, r.0.out, s.batchSync) else r.0.out == s.out)
  {
    var d := s.batchSync;
    KeysIn(s, d);
    MidSame(s, Checked(c, s, d, now));
    LaunchKeeps(c, Checked(c, s, d, now), if FifoExpired(c, s, d, now) then s.Dir(d).fifo[0] else key, now);
  }

  /** What as_dispatch_request guarantees: a request is dispatched only among others of its direction, and
  a device that has nothing to do gets something, or a read is being anticipated. */
  predicate Dispatched(s: State, r: (State, bool)) {
    && Inv(r.0)
    && (if r.1 then OneMore(s.out, r.0.out, r.0.batchSync) && (forall p | p in s.out :: p.sync == r.0.batchSync)
        else r.0.out == s.out)
    && (s.nrDispatched == 0 && (s.Pending(true) || s.Pending(false)) ==> r.1 || r.0.Waiting())
  }

  lemma FromDispatchKey(s: State, s1: State, r: (State, bool))
    requires Inv(s) && MidBatch(s1) && s1.out == s.out && Inv(r.0) && (r.1 ==> !r.0.changedBatch)
    requires r.1 <==> !(s1.changedBatch && s1.nrDispatched != 0)
    requires if r.1 then OneMore(s1.out, r.0.out, s1.batchSync) else r.0.out == s1.out
    ensures Dispatched(s, r)
  {
    if r.1 {
      assert r.0.out[|s.out|] in r.0.out;
      forall p | p in s.out ensures p.sync == r.0.batchSync {
        assert s1.nrDispatched != 0;
      }
    }
  }

  lemma SwitchKeeps(c: Config, s: State, now: nat)
    requires Inv(s) && !s.changedBatch && (s.Pending(true) || s.Pending(false))
    ensures Dispatched(s, Switch(c, s, now))
  {
    InvParts(s);
    KeysIn(s, true);
    KeysIn(s, false);
    if s.Pending(true) && !(s.Pending(false) && s.batchSync) {
      var s1 := ToReads(s, now);
      SidesSame(s, s1);
      DispatchKeyKeeps(c, s1, s.sync.fifo[0], now);
      FromDispatchKey(s, s1, DispatchKey(c, s1, s.sync.fifo[0], now));
    } else {
      var s1 := ToWrites(s);
      SidesSame(s, s1);
      DispatchKeyKeeps(c, s1, s.async.next.value, now);
      FromDispatchKey(s, s1, DispatchKey(c, s1, s.async.next.value, now));
    }
  }

  lemma GoOnKeeps(c: Config, s: State, key: nat, now: nat)
    requires Inv(s) && Mid(s) && KeyIn(s.Dir(s.batchSync).tree, key)
    ensures Dispatched(s, DispatchKey(c, Renewed(c, s, now), key, now))
  {
    var s1 := Renewed(c, s, now);
    MidSame(s, s1);
    DispatchKeyKeeps(c, s1, key, now);
    FromDispatchKey(s, s1, DispatchKey(c, s1, key, now));
  }

  lemma ContinueKeeps(c: Config, s: State, now: nat)
    requires Inv(s) && !s.changedBatch && (s.Pending(true) || s.Pending(false))
    ensures Dispatched(s, Continue(c, s, now))
  {
    var key := s.Dir(s.batchSync).next;
    if key == None {
      SwitchKeeps(c, s, now);
    } else {
      InvParts(s);
      KeysIn(s, s.batchSync);
      GoOnKeeps(c, s, key.value, now);
    }
  }

  lemma CheckedKeeps(c: Config, s: State, d: bool, now: nat)
    requires Inv(s)
    ensures Inv(Checked(c, s, d, now)) && Mid(Checked(c, s, d, now))
  {
    var s1 := Checked(c, s, d, now);
    InvParts(s);
    MidSame(s, s1);
    InvFromParts(s1);
  }

  lemma AnticipateKeeps(c: Config, s: State, arq: Option<Arq>, now: nat, breaks: bool)
    requires Inv(s) && !s.Waiting() && CanAnticipate(c, s, arq, now, breaks)
    ensures Dispatched(s, (StartWaiting(s), false))
  {
    InvParts(s);
    SidesSame(s, StartWaiting(s));
    StartWaitingKeeps(s);
    InvFromParts(StartWaiting(s));
  }

  lemma StartWaitingKeeps(s: State)
    requires BatchOk(s) && AnticOk(s) && s.ioc.Some?
    ensures BatchOk(StartWaiting(s)) && AnticOk(StartWaiting(s))
  {
  }

  lemma ExpiredReadKeeps(c: Config, s: State, now: nat)
    requires Inv(s) && Mid(s) && s.batchSync && s.Pending(true)
    ensures Dispatched(s, Launch(c, s, s.sync.fifo[0], now))
  {
    KeysIn(s, true);
    LaunchKeeps(c, s, s.sync.fifo[0], now);
    FromDispatchKey(s, s, Launch(c, s, s.sync.fifo[0], now));
  }

  lemma RunBatchKeeps(c: Config, s: State, now: nat, breaks: bool)
    requires Inv(s) && !s.changedBatch && !s.Waiting() && (s.Pending(true) || s.Pending(false))
    ensures Dispatched(s, RunBatch(c, s, now, breaks))
  {
    if s.batchSync && c.anticExpire != 0 {
      var s1 := Checked(c, s, true, now);
      CheckedKeeps(c, s, true, now);
      assert s1.out == s.out && s1.sync == s.sync && s1.async == s.async && s1.nrDispatched == s.nrDispatched;
      if FifoExpired(c, s, true, now) {
        ExpiredReadKeeps(c, s1, now);
      } else if CanAnticipate(c, s1, ArqAt(s.sync, s.sync.next), now, breaks) {
        AnticipateKeeps(c, s1, ArqAt(s.sync, s.sync.next), now, breaks);
      } else {
        ContinueKeeps(c, s1, now);
      }
    } else {
      ContinueKeeps(c, s, now);
    }
  }

  lemma DispatchKeeps(c: Config, s: State, now: nat, breaks: bool)
    requires Inv(s)
    ensures Dispatched(s, Dispatch(c, s, now, breaks))
  {
    var s1 := Idled(s);
    if !(s1.Pending(true) || s1.Pending(false)) || s1.Waiting() || s1.changedBatch {
      assert Dispatch(c, s, now, breaks) == (s1, false);
    } else if s1.Pending(true) && s1.Pending(false) && BatchExpired(s1, now) {
      SwitchKeeps(c, s1, now);
    } else {
      RunBatchKeeps(c, s1, now, breaks);
    }
  }

  lemma EndOldBatchKeeps(s: State, k: nat)
    requires BatchOk(s) && k < |s.out|
    ensures var s1 := EndOldBatch(s);
      BatchOk(s1.(nrDispatched := s1.nrDispatched - 1, out := RemoveAt(s1.out, k)))
  {
    var s1 := EndOldBatch(s);
    var s2 := s1.(nrDispatched := s1.nrDispatched - 1, out := RemoveAt(s1.out, k));
    assert s.changedBatch && s.nrDispatched == 1 ==> s2.out == [];
    forall o | o in s2.out ensures o in s.out {
    }
  }

  lemma CompleteKeeps(c: Config, s: State, k: nat, now: nat)
    requires Inv(s) && k < |s.out|
    ensures Inv(Complete(c, s, k, now))
  {
    InvParts(s);
    EndOldBatchKeeps(s, k);
    var s1 := EndOldBatch(s);
    var s2 := s1.(nrDispatched := s1.nrDispatched - 1, out := RemoveAt(s1.out, k));
    var r := Complete(c, s, k, now);
    SidesSame(s, r);
    CountBatchKeeps(c, s2, s.out[k], now);
    InvFromParts(r);
  }

  lemma CountBatchKeeps(c: Config, s: State, o: Out, now: nat)
    requires BatchOk(s) && AnticOk(s)
    ensures var r := EndWaitReq(CountBatch(c, s, o.sync, now), o.ioc, now); BatchOk(r) && AnticOk(r)
  {
  }

  lemma AddKeeps(c: Config, s: State, d: bool, a: Arq, now: nat, breaks: bool)
    requires Inv(s) && Fits(s.Dir(d).tree, a)
    ensures Inv(Add(c, s, d, a, now, breaks))
  {
    InvParts(s);
    InsertOk(s.Dir(d), a);
    SidesWith(s, d, Insert(s.Dir(d), a));
    var r := Add(c, s, d, a, now, breaks);
    SidesSame(s.With(d, Insert(s.Dir(d), a)), r);
    InvFromParts(r);
  }

  lemma SideKeeps(s: State, d: bool, x: Side)
    requires Inv(s) && SideOk(x)
    ensures Inv(s.With(d, x))
  {
    InvParts(s);
    SidesWith(s, d, x);
    InvFromParts(s.With(d, x));
  }

  lemma StepKeeps(c: Config, s: State, e: Event)
    requires Inv(s) && Enabled(s, e)
    ensures Inv(Step(c, s, e))
  {
    match e
    case Arrive(d, a, now, breaks) => AddKeeps(c, s, d, a, now, breaks);
    case Extend(d, i, nr) => ExtendKeeps(s, d, i, nr);
    case MergeNext(d, i) => MergeKeeps(s, d, i);
    case DispatchOne(now, breaks) => DispatchKeeps(c, s, now, breaks);
    case Done(k, now) => CompleteKeeps(c, s, k, now);
    case Timeout => TimeoutKeeps(s);
  }

  lemma ExtendKeeps(s: State, d: bool, i: nat, nr: nat)
    requires Inv(s) && Enabled(s, Extend(d, i, nr))
    ensures Inv(s.With(d, Grow(s.Dir(d), i, nr)))
  {
    InvParts(s);
    GrowOk(s.Dir(d), i, nr);
    SideKeeps(s, d, Grow(s.Dir(d), i, nr));
  }

  lemma MergeKeeps(s: State, d: bool, i: nat)
    requires Inv(s) && Enabled(s, MergeNext(d, i))
    ensures Inv(s.With(d, Merge(s.Dir(d), i)))
  {
    InvParts(s);
    MergeOk(s.Dir(d), i);
    SideKeeps(s, d, Merge(s.Dir(d), i));
  }

  lemma TimeoutKeeps(s: State)
    requires Inv(s)
    ensures Inv(StopWaiting(s))
  {
    InvParts(s);
    SidesSame(s, StopWaiting(s));
    InvFromParts(StopWaiting(s));
  }
}
