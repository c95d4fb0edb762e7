/** block/as-iosched.c: the operations as they update as_data in place.

The BUG_ON and WARN_ON conditions of the source are assertions or preconditions here, so they are
proved not to fire.
*/
module AsScheduler {
  import opened Sequences
  import opened AsSort
  import opened AsBatch
  import opened AsTheorems

  class Scheduler {
    const c: Config
    var sync: Side
    var async: Side
    var status: Status
    var anticStart: nat
    var ioc: Option<nat>
    var iocFinished: bool
    var batchSync: bool
    var changedBatch: bool
    var newBatch: bool
    var batchExpires: nat
    var writeBatchCount: int
    var currentWriteCount: int
    var writeBatchIdled: bool
    var lastCheckSync: nat
    var lastCheckAsync: nat
    var out: seq<Out>
    var nrDispatched: int

    ghost function Now(): State reads this {
      State(sync, async, status, anticStart, ioc, iocFinished, batchSync, changedBatch, newBatch, batchExpires,
            writeBatchCount, currentWriteCount, writeBatchIdled, lastCheckSync, lastCheckAsync, out, nrDispatched)
    }

    function Dir(d: bool): Side reads this { if d then sync else async }

    constructor (config: Config, now: nat)
      ensures c == config && Now() == Start(config, now) && Inv(Now())
    {
      c := config;
      sync, async := Side([], [], None, 0), Side([], [], None, 0);
      status, anticStart, ioc, iocFinished := Off, 0, None, false;
      batchSync, changedBatch, newBatch, batchExpires := false, false, false, now + config.batchExpireSync;
      writeBatchCount := if config.batchExpireAsync / 10 < 2 then 2 else config.batchExpireAsync / 10;
      currentWriteCount, writeBatchIdled, lastCheckSync, lastCheckAsync, out, nrDispatched := 0, false, 0, 0, [], 0;
    }

    method SetDir(d: bool, x: Side)
      modifies `sync, `async
      ensures Now() == old(Now()).With(d, x)
    {
      if d {
        sync := x;
      } else {
        async := x;
      }
    }

    // ---- anticipation ---------------------------------------------------------------------------------

    /** as_antic_waitnext. */
    method AnticWaitnext()
      requires status == Off || status == WaitReq
      modifies `status
      ensures status == WaitNext
    {
      status := WaitNext;
    }

    /** as_antic_waitreq. */
    method AnticWaitreq()
      requires status != Finished
      modifies `status
      ensures Now() == StartWaiting(old(Now()))
    {
      if status == Off {
        if ioc == None || iocFinished {
          AnticWaitnext();
        } else {
          status := WaitReq;
        }
      }
    }

    /** as_can_anticipate and as_can_break_anticipation. */
    method MayAnticipate(arq: Option<Arq>, now: nat, breaks: bool) returns (b: bool)
      ensures b == CanAnticipate(c, Now(), arq, now, breaks)
    {
      if ioc == None || status == Finished {
        return false;
      }
      if arq.Some? && ioc == arq.value.ioc {
        return false;
      }
      if iocFinished && Elapsed(now, anticStart) >= c.anticExpire {
        return false;
      }
      b := !breaks;
    }

    /** as_antic_stop; as_antic_timeout does the same. */
    method AnticStop()
      modifies `status
      ensures Now() == StopWaiting(old(Now()))
    {
      if status == WaitReq || status == WaitNext {
        status := Finished;
      }
    }

    // ---- requests come --------------------------------------------------------------------------------

    /** The search of __as_add_arq_rb. */
    method FindPlace(tree: seq<Arq>, sector: nat) returns (k: nat)
      ensures k == Place(tree, sector)
    {
      k := 0;
      while k < |tree| && tree[k].sector < sector
        invariant k <= |tree| && k + Place(tree[k..], sector) == Place(tree, sector)
      {
        assert tree[k..][1..] == tree[k + 1..];
        k := k + 1;
      }
    }

    /** as_add_request. */
    method AddRequest(d: bool, a: Arq, now: nat, breaks: bool)
      requires Inv(Now()) && Fits(Dir(d).tree, a)
      modifies this
      ensures Now() == Add(c, old(Now()), d, a, now, breaks) && Inv(Now())
    {
      AddKeeps(c, Now(), d, a, now, breaks);
      ghost var s := Now();
      var x := Dir(d);
      var k := FindPlace(x.tree, a.sector);
      x := x.(tree := x.tree[..k] + [a] + x.tree[k..]);
      x := x.(fifo := x.fifo + [a.sector]);
      x := x.(next := Choose(x.last, Some(a.sector), x.next));
      SetDir(d, x);
      assert Now() == s.With(d, Insert(s.Dir(d), a));
      if status == WaitReq || status == WaitNext {
        assert ioc.Some?;
        if a.ioc == ioc || (iocFinished && Elapsed(now, anticStart) >= c.anticExpire) || breaks {
          AnticStop();
        }
      }
    }

    /** as_merged_requests. */
    method MergedRequests(d: bool, i: nat)
      requires Inv(Now()) && i + 1 < |Dir(d).tree| && Dir(d).tree[i].End() == Dir(d).tree[i + 1].sector
      modifies this
      ensures Now() == old(Now()).With(d, Merge(old(Dir(d)), i)) && Inv(Now())
    {
      MergeOk(Dir(d), i);
      SideKeeps(Now(), d, Merge(Dir(d), i));
      var x := Joint(Dir(d), i);
      x := Removed(x, i + 1);
      SetDir(d, x);
    }

    /** as_merged_requests up to the removal. */
    static method Joint(d: Side, i: nat) returns (r: Side)
      requires i + 1 < |d.tree|
      ensures r == Join(d, i)
    {
      r := d;
      var a, b := d.tree[i], d.tree[i + 1];
      var whole := a.(nr := a.nr + b.nr);
      if b.expires < a.expires {
        r := r.(fifo := MoveBehind(RemoveFirst(r.fifo, a.sector), a.sector, b.sector));
        whole := whole.(expires := b.expires, ioc := b.ioc);
      }
      r := r.(tree := r.tree[i := whole]);
    }

    /** as_remove_queued_request. */
    static method Removed(d: Side, i: nat) returns (r: Side)
      requires i < |d.tree|
      ensures r == Remove(d, i)
    {
      r := d;
      var x := d.tree[i].sector;
      if r.next == Some(x) {
        r := r.(next := FindNext(r.last, r.tree, i));
      }
      r := r.(fifo := RemoveFirst(r.fifo, x));
      r := r.(tree := RemoveAt(r.tree, i));
    }

    // ---- requests go to the driver ----------------------------------------------------------------------

    /** as_fifo_expired. */
    method FifoExpired(d: bool, now: nat) returns (b: bool)
      modifies `lastCheckSync, `lastCheckAsync
      ensures b == AsBatch.FifoExpired(c, old(Now()), d, now)
      ensures Now() == Checked(c, old(Now()), d, now)
    {
      if Elapsed(now, if d then lastCheckSync else lastCheckAsync) < c.FifoExpire(d) {
        return false;
      }
      if d {
        lastCheckSync := now;
      } else {
        lastCheckAsync := now;
      }
      if Dir(d).fifo == [] {
        return false;
      }
      var k := FindPlace(Dir(d).tree, Dir(d).fifo[0]);
      b := now > if k < |Dir(d).tree| then Dir(d).tree[k].expires else 0;
    }

    /** as_move_to_dispatch: who is to be anticipated after this request. */
    method NoteContext(d: bool, a: Arq)
      modifies `status, `ioc, `currentWriteCount, `iocFinished
      ensures Now() == Noted(old(Now()), d, a)
    {
      AnticStop();
      status := Off;
      if d {
        if a.ioc.Some? {
          ioc := a.ioc;
        }
      } else {
        ioc := None;
        if currentWriteCount != 0 {
          currentWriteCount := currentWriteCount - 1;
        }
      }
      iocFinished := false;
    }

    /** as_move_to_dispatch. */
    method MoveToDispatch(d: bool, i: nat)
      requires i < |Dir(d).tree|
      modifies this
      ensures Now() == AsBatch.MoveToDispatch(old(Now()), d, i)
    {
      var a := Dir(d).tree[i];
      NoteContext(d, a);
      SendFrom(d, i);
      out := out + [Out(d, a.ioc)];
      nrDispatched := nrDispatched + 1;
    }

    /** as_move_to_dispatch: last_sector, next_arq and the lists. */
    method SendFrom(d: bool, i: nat)
      requires i < |Dir(d).tree|
      modifies `sync, `async
      ensures Now() == old(Now()).With(d, Send(old(Dir(d)), i))
    {
      var x := Dir(d);
      x := x.(last := x.tree[i].End());
      x := x.(next := FindNext(x.last, x.tree, i));
      x := Removed(x, i);
      SetDir(d, x);
    }

    /** The requests of the other direction are all back. */
    method BeginBatch(now: nat)
      requires changedBatch ==> !newBatch
      modifies `batchExpires, `newBatch, `changedBatch
      ensures Now() == AsBatch.BeginBatch(c, old(Now()), now)
    {
      if changedBatch {
        assert !newBatch;
        if !batchSync {
          batchExpires := now + c.batchExpireAsync;
        } else {
          newBatch := true;
        }
        changedBatch := false;
      }
    }

    /** The end of as_dispatch_request. */
    method Launch(key: nat, now: nat) returns (sent: bool)
      requires KeyIn(Dir(batchSync).tree, key) && (changedBatch ==> !newBatch)
      modifies this
      ensures (Now(), sent) == AsBatch.Launch(c, old(Now()), key, now)
    {
      if changedBatch && nrDispatched != 0 {
        return false;
      }
      BeginBatch(now);
      ghost var s := Now();
      assert s == AsBatch.BeginBatch(c, old(Now()), now);
      var i := FindPlace(Dir(batchSync).tree, key);
      MoveToDispatch(batchSync, i);
      assert Now() == AsBatch.MoveToDispatch(s, s.batchSync, i);
      sent := true;
    }

    /** From the label dispatch_request on. */
    method DispatchKey(key: nat, now: nat) returns (sent: bool)
      requires Mid(Now()) && KeyIn(Dir(batchSync).tree, key)
      modifies this
      ensures (Now(), sent) == AsBatch.DispatchKey(c, old(Now()), key, now)
    {
      KeysIn(Now(), batchSync);
      var expired := FifoExpired(batchSync, now);
      sent := Launch(if expired then Dir(batchSync).fifo[0] else key, now);
    }

    method TurnToReads(now: nat)
      requires !batchSync ==> !newBatch
      modifies `changedBatch, `batchSync, `lastCheckSync
      ensures Now() == ToReads(old(Now()), now)
    {
      if !batchSync {
        assert !newBatch;
        changedBatch := true;
      }
      batchSync := true;
      lastCheckSync := now;
    }

    method TurnToWrites()
      modifies `changedBatch, `newBatch, `batchSync, `currentWriteCount, `writeBatchIdled
      ensures Now() == ToWrites(old(Now()))
    {
      if batchSync {
        changedBatch := true;
        newBatch := false;
      }
      batchSync := false;
      currentWriteCount := writeBatchCount;
      writeBatchIdled := false;
    }

    /** No batch is running. */
    method Switch(now: nat) returns (sent: bool)
      requires Inv(Now()) && !changedBatch && (Now().Pending(true) || Now().Pending(false))
      modifies this
      ensures (Now(), sent) == AsBatch.Switch(c, old(Now()), now)
    {
      InvParts(Now());
      KeysIn(Now(), true);
      KeysIn(Now(), false);
      TurnKeeps(Now(), now);
      if sync.fifo != [] && !(async.fifo != [] && batchSync) {
        assert sync.tree != [];
        TurnToReads(now);
        sent := DispatchKey(sync.fifo[0], now);
      } else {
        assert async.tree != [];
        TurnToWrites();
        sent := DispatchKey(async.next.value, now);
      }
    }

    /** The batch goes on. */
    method Continue(now: nat) returns (sent: bool)
      requires Inv(Now()) && !changedBatch && (Now().Pending(true) || Now().Pending(false))
      modifies this
      ensures (Now(), sent) == AsBatch.Continue(c, old(Now()), now)
    {
      var key := Dir(batchSync).next;
      if key == None {
        sent := Switch(now);
      } else {
        RenewedKeeps(c, Now(), now);
        Renew(now);
        sent := DispatchKey(key.value, now);
      }
    }

    method Renew(now: nat)
      modifies `batchExpires
      ensures Now() == Renewed(c, old(Now()), now)
    {
      if sync.fifo != [] && async.fifo == [] {
        batchExpires := now + c.batchExpireSync;
      }
    }

    /** A running batch, with the anticipation of reads. */
    method RunBatch(now: nat, breaks: bool) returns (sent: bool)
      requires Inv(Now()) && !changedBatch && !Now().Waiting() && (Now().Pending(true) || Now().Pending(false))
      modifies this
      ensures (Now(), sent) == AsBatch.RunBatch(c, old(Now()), now, breaks)
    {
      ghost var s := Now();
      if batchSync && c.anticExpire != 0 {
        CheckedKeeps(c, s, true, now);
        var arq := ArqAt(sync, sync.next);
        var expired := FifoExpired(true, now);
        if expired {
          KeysIn(Now(), true);
          sent := Launch(sync.fifo[0], now);
          return;
        }
        var wait := MayAnticipate(arq, now, breaks);
        if wait {
          AnticWaitreq();
          return false;
        }
      }
      sent := Continue(now);
    }

    method Select(now: nat, breaks: bool) returns (sent: bool)
      requires Inv(Now())
      modifies this
      ensures (Now(), sent) == Dispatch(c, old(Now()), now, breaks)
    {
      var syncs, asyncs := sync.fifo != [], async.fifo != [];
      NoteIdle(syncs, asyncs);
      if !(syncs || asyncs) || status == WaitReq || status == WaitNext || changedBatch {
        return false;
      }
      IdledKeeps(old(Now()));
      if syncs && asyncs && !changedBatch && !newBatch && (now > batchExpires || (!batchSync && currentWriteCount == 0)) {
        sent := Switch(now);
      } else {
        sent := RunBatch(now, breaks);
      }
    }

    method NoteIdle(syncs: bool, asyncs: bool)
      requires syncs == Now().Pending(true) && asyncs == Now().Pending(false)
      modifies `writeBatchIdled
      ensures Now() == Idled(old(Now()))
    {
      if !batchSync && !syncs && (currentWriteCount == 0 || !asyncs) {
        writeBatchIdled := true;
      }
    }

    /** as_dispatch_request without force: a request goes to the driver only among others of its direction,
    and a device without work gets some unless a read is being anticipated. */
    method DispatchRequest(now: nat, breaks: bool) returns (sent: bool)
      requires Inv(Now())
      modifies this
      ensures (Now(), sent) == Dispatch(c, old(Now()), now, breaks)
      ensures Dispatched(old(Now()), (Now(), sent))
    {
      DispatchKeeps(c, Now(), now, breaks);
      sent := Select(now, breaks);
    }

    // ---- requests complete --------------------------------------------------------------------------------

    /** as_completed_request. */
    method CompletedRequest(k: nat, now: nat)
      requires Inv(Now()) && k < |out|
      modifies this
      ensures Now() == Complete(c, old(Now()), k, now) && Inv(Now())
    {
      CompleteKeeps(c, Now(), k, now);
      Finish(k, now);
    }

    method Finish(k: nat, now: nat)
      requires k < |out| && nrDispatched != 0
      modifies this
      ensures Now() == Complete(c, old(Now()), k, now)
    {
      var o := out[k];
      LastOfBatch();
      assert nrDispatched != 0;
      nrDispatched := nrDispatched - 1;
      out := RemoveAt(out, k);
      BackFromDriver(o, now);
    }

    method LastOfBatch()
      modifies `changedBatch, `newBatch
      ensures Now() == EndOldBatch(old(Now()))
    {
      if changedBatch && nrDispatched == 1 {
        changedBatch := false;
        if batchSync {
          newBatch := true;
        }
      }
    }

    method BackFromDriver(o: Out, now: nat)
      modifies this
      ensures Now() == EndWaitReq(CountBatch(c, old(Now()), o.sync, now), o.ioc, now)
    {
      if newBatch && batchSync == o.sync {
        UpdateWriteBatch(now);
        batchExpires := now + c.batchExpireSync;
        newBatch := false;
      }
      assert Now() == CountBatch(c, old(Now()), o.sync, now);
      if ioc == o.ioc && ioc.Some? {
        anticStart := now;
        iocFinished := true;
        if status == WaitReq {
          AnticWaitnext();
        }
      }
    }

    /** update_write_batch. */
    method UpdateWriteBatch(now: nat)
      modifies `writeBatchCount
      ensures writeBatchCount == WriteBatch(c, old(Now()), now)
    {
      var batch := c.batchExpireAsync;
      var time := now - batchExpires + batch;
      if time < 0 {
        time := 0;
      }
      if time > batch && !writeBatchIdled {
        if time > batch * 3 {
          writeBatchCount := writeBatchCount / 2;
        } else {
          writeBatchCount := writeBatchCount - 1;
        }
      } else if time < batch && currentWriteCount == 0 {
        if batch > time * 3 {
          writeBatchCount := writeBatchCount * 2;
        } else {
          writeBatchCount := writeBatchCount + 1;
        }
      }
      if writeBatchCount < 1 {
        writeBatchCount := 1;
      }
    }
  }

  lemma TurnKeeps(s: State, now: nat)
    requires Inv(s) && !s.changedBatch
    ensures Mid(ToReads(s, now)) && Mid(ToWrites(s))
  {
    InvParts(s);
    SidesSame(s, ToReads(s, now));
    SidesSame(s, ToWrites(s));
  }

  lemma RenewedKeeps(c: Config, s: State, now: nat)
    requires Inv(s) && s.Dir(s.batchSync).next.Some?
    ensures var r := Renewed(c, s, now); Mid(r) && KeyIn(r.Dir(r.batchSync).tree, s.Dir(s.batchSync).next.value)
  {
    InvParts(s);
    MidSame(s, Renewed(c, s, now));
    KeysIn(s, s.batchSync);
  }

  lemma IdledKeeps(s: State)
    requires Inv(s)
    ensures Inv(Idled(s))
  {
    InvParts(s);
    SidesSame(s, Idled(s));
    InvFromParts(Idled(s));
  }
}
