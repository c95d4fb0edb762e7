/** block/deadline-iosched.c: the operations as they update deadline_data in place.

The BUG_ON conditions of the source are assertions or preconditions here.
*/
module DeadlineScheduler {
  import opened Sequences
  import opened DeadlineHash
  import opened DeadlineSort
  import opened Deadline
  import opened DeadlineTheorems
  import opened DeadlineStarvation

  predicate OnHash(hash: seq<seq<Entry>>, id: nat) {
    exists b, e | 0 <= b < |hash| && e in hash[b] :: e.id == id
  }

  class Scheduler {
    const c: Config
    var read: Dir
    var write: Dir
    var hash: seq<seq<Entry>>
    var nomerge: set<nat>
    var batching: Unsigned
    var starved: Unsigned
    var last: nat
    var clock: nat
    var out: seq<Drq>

    ghost function Now(): State reads this {
      State(read, write, hash, nomerge, batching, starved, last, clock, out)
    }

    function Of(w: bool): Dir reads this { if w then write else read }

    constructor (config: Config, n: nat, now: nat)
      requires Bounded(config.h, n)
      ensures c == config && Now() == Start(n, now) && Inv(c, Now())
    {
      c := config;
      read, write := Dir([], [], None), Dir([], [], None);
      hash, nomerge := seq(n, b => []), {};
      batching, starved, last, clock, out := 0, 0, 0, now, [];
      new;
      StartInv(c, n, now);
    }

    method SetDir(w: bool, d: Dir)
      modifies `read, `write
      ensures Now() == old(Now()).With(w, d)
    {
      if w {
        write := d;
      } else {
        read := d;
      }
    }

    // ---- the hash ---------------------------------------------------------------------------------------

    /** deadline_del_drq_hash. */
    method DelDrqHash(id: nat)
      modifies `hash
      ensures hash == Del(old(hash), id) && !OnHash(hash, id)
    {
      hash := Del(hash, id);
    }

    /** deadline_add_drq_hash. */
    method AddDrqHash(e: Entry)
      requires c.h(e.end) < |hash| && !OnHash(hash, e.id)
      modifies `hash
      ensures hash == DeadlineHash.Put(c.h, old(hash), e)
    {
      var b := c.h(e.end);
      hash := hash[b := [e] + hash[b]];
    }

    method Unhash(id: nat)
      modifies `hash
      ensures Now() == DelEntry(old(Now()), id)
    {
      DelDrqHash(id);
    }

    /** The hash entry of a request that has grown is put where it belongs. */
    method Rehash(e: Entry)
      requires c.h(e.end) < |hash|
      modifies `hash
      ensures Now() == Rekey(c, old(Now()), e)
    {
      DelDrqHash(e.id);
      AddDrqHash(e);
    }

    /** The loop of deadline_find_drq_hash: unmergeable entries met on the way leave the chain. */
    method ScanChain(chain: seq<Entry>, offset: nat) returns (r: Option<nat>, rest: seq<Entry>)
      ensures (r, rest) == Search(chain, nomerge, offset)
    {
      r := None;
      rest := [];
      var k := 0;
      assert chain[k..] == chain && rest + Search(chain, nomerge, offset).1 == Search(chain, nomerge, offset).1;
      while k < |chain|
        invariant k <= |chain|
        invariant Search(chain, nomerge, offset).0 == Search(chain[k..], nomerge, offset).0
        invariant Search(chain, nomerge, offset).1 == rest + Search(chain[k..], nomerge, offset).1
      {
        assert chain[k..][1..] == chain[k + 1..];
        ghost var t := Search(chain[k + 1..], nomerge, offset);
        if chain[k].id !in nomerge {
          if chain[k].end == offset {
            return Some(chain[k].id), rest + chain[k..];
          }
          assert rest + ([chain[k]] + t.1) == rest + [chain[k]] + t.1;
          rest := rest + [chain[k]];
        }
        k := k + 1;
      }
      assert chain[k..] == [] && rest + [] == rest;
    }

    /** deadline_find_drq_hash: a request is found exactly if a mergeable one ends at the sector. */
    method FindDrqHash(offset: nat) returns (r: Option<nat>)
      requires Inv(c, Now())
      modifies `hash
      ensures (Now(), r) == FindBack(c, old(Now()), offset) && Inv(c, Now())
      ensures r.Some? <==> exists e :: e in Ends(Everything(Now(), [])) && e.end == offset && e.id !in nomerge
    {
      LookupKeeps(c, Now(), offset);
      SearchKeeps(c.h, hash, Ends(Everything(Now(), [])), nomerge, offset);
      var b := c.h(offset);
      var rest;
      r, rest := ScanChain(hash[b], offset);
      hash := hash[b := rest];
    }

    // ---- the tree ---------------------------------------------------------------------------------------

    method FindPlace(t: seq<Drq>, sector: nat) returns (k: nat)
      ensures k == Place(t, sector)
    {
      k := 0;
      while k < |t| && t[k].sector < sector
        invariant k <= |t| && k + Place(t[k..], sector) == Place(t, sector)
      {
        assert t[k..][1..] == t[k + 1..];
        k := k + 1;
      }
    }

    /** deadline_del_drq_rb. */
    static method DelDrqRb(d: Dir, i: nat) returns (r: Dir)
      requires i < |d.tree|
      ensures r == Detach(d, i)
    {
      r := d;
      if r.next == Some(r.tree[i].id) {
        r := r.(next := None);
        if i + 1 < |r.tree| {
          r := r.(next := Some(r.tree[i + 1].id));
        }
      }
      r := r.(tree := RemoveAt(r.tree, i));
    }

    /** deadline_move_request, which does what deadline_move_to_dispatch and deadline_remove_request do. */
    method MoveRequest(w: bool, i: nat)
      requires i < |Of(w).tree|
      modifies this
      ensures Now() == Move(old(Now()), w, i)
    {
      var d := Of(w);
      var x := d.tree[i];
      read, write := read.(next := None), write.(next := None);
      var d1 := d.(next := if i + 1 < |d.tree| then Some(d.tree[i + 1].id) else None);
      last := x.End();
      d1 := d1.(fifo := Drop(d1.fifo, x.id));
      d1 := DelDrqRb(d1, i);
      SetDir(w, d1);
      DelDrqHash(x.id);
      out := out + [x];
    }

    /** deadline_add_drq_rb, with its retry. */
    method AddDrqRb(w: bool, x: Drq)
      requires Sorted(Of(w).tree)
      modifies this
      ensures Now() == LinkIn(SendAlias(old(Now()), w, x.sector), w, x)
    {
      ghost var s := Now();
      if HasAlias(s.Of(w).tree, x.sector) {
        MoveClearsAlias(s, w, x.sector);
      }
      var k := FindPlace(Of(w).tree, x.sector);
      while k < |Of(w).tree| && Of(w).tree[k].sector == x.sector
        invariant k == Place(Of(w).tree, x.sector)
        invariant Now() == s || (Now() == SendAlias(s, w, x.sector) && !HasAlias(Of(w).tree, x.sector))
        decreases |Of(w).tree|
      {
        MoveRequest(w, k);
        k := FindPlace(Of(w).tree, x.sector);
      }
      SetDir(w, Of(w).(tree := Of(w).tree[..k] + [x] + Of(w).tree[k..]));
    }

    // ---- requests come ----------------------------------------------------------------------------------

    /** The rest of deadline_add_request. */
    method Enqueue(w: bool, x: Drq, now: nat, mergeable: bool)
      requires c.h(x.End()) < |hash| && !OnHash(hash, x.id)
      modifies this
      ensures var d := old(Of(w));
        Now() == old(Now()).With(w, d.(fifo := d.fifo + [Timed(x.id, now + c.Expire(w))]))
          .(clock := now,
            hash := if mergeable then DeadlineHash.Put(c.h, old(hash), x.Key()) else old(hash),
            nomerge := if mergeable then old(nomerge) - {x.id} else old(nomerge) + {x.id})
    {
      var d := Of(w);
      SetDir(w, d.(fifo := d.fifo + [Timed(x.id, now + c.Expire(w))]));
      clock := now;
      if mergeable {
        AddDrqHash(Entry(x.id, x.End()));
        nomerge := nomerge - {x.id};
      } else {
        nomerge := nomerge + {x.id};
      }
    }

    method Link(w: bool, x: Drq, now: nat, mergeable: bool)
      requires Sorted(Of(w).tree) && c.h(x.End()) < |hash| && !OnHash(SendAlias(Now(), w, x.sector).hash, x.id)
      modifies this
      ensures Now() == Add(c, old(Now()), w, x, now, mergeable)
    {
      AddDrqRb(w, x);
      Enqueue(w, x, now, mergeable);
    }

    /** deadline_add_request. */
    method AddRequest(w: bool, x: Drq, now: nat, mergeable: bool)
      requires Inv(c, Now()) && now >= clock && !HasId(Everything(Now(), []), x.id)
      modifies this
      ensures Now() == Add(c, old(Now()), w, x, now, mergeable) && Inv(c, Now())
    {
      AddKeeps(c, Now(), w, x, now, mergeable);
      NewIsNotOnHash(c, Now(), w, x);
      Coherent(c, Now(), w);
      Link(w, x, now, mergeable);
    }

    /** deadline_merged_request. */
    method MergedRequest(w: bool, i: nat, x: Drq)
      requires Inv(c, Now()) && i < |Of(w).tree| && x.id == Of(w).tree[i].id
      modifies this
      ensures Now() == Merged(c, old(Now()), w, i, x) && Inv(c, Now())
    {
      MergedKeeps(c, Now(), w, i, x);
      Coherent(c, Now(), w);
      Reposition(w, i, x);
    }

    method Reposition(w: bool, i: nat, x: Drq)
      requires i < |Of(w).tree| && Bounded(c.h, |hash|) && Sorted(Of(w).tree)
      modifies this
      ensures Now() == Merged(c, old(Now()), w, i, x)
    {
      ghost var s := Now();
      Rehash(Entry(x.id, x.End()));
      if x.sector != Of(w).tree[i].sector {
        var d := DelDrqRb(Of(w), i);
        SetDir(w, d);
        assert Now() == Lifted(c, s, w, i, x);
        RemoveTree(s.Of(w).tree, i);
        AddDrqRb(w, x);
      } else {
        SetDir(w, Of(w).(tree := Of(w).tree[i := x]));
      }
    }

    /** deadline_merged_requests, without the hash. */
    static method JoinPair(d: Dir, i: nat) returns (r: Dir)
      requires i + 1 < |d.tree|
      ensures r == Join(d, i)
    {
      var a, b := d.tree[i], d.tree[i + 1];
      r := d.(tree := d.tree[i := a.(nr := a.nr + b.nr)]);
      if ExpiresOf(d.fifo, b.id) < ExpiresOf(d.fifo, a.id) {
        r := r.(fifo := PutBehind(Drop(d.fifo, a.id), Timed(a.id, ExpiresOf(d.fifo, b.id)), b.id));
      }
      assert r == Joined(d, i);
      r := r.(fifo := Drop(r.fifo, b.id));
      r := DelDrqRb(r, i + 1);
    }

    method Install(w: bool, e: Entry, d: Dir, id: nat)
      requires c.h(e.end) < |hash|
      modifies this
      ensures Now() == Rejoined(c, old(Now()), w, e, d, id)
    {
      Rehash(e);
      SetDir(w, d);
      Unhash(id);
    }

    method JoinNext(w: bool, i: nat)
      requires i + 1 < |Of(w).tree| && Bounded(c.h, |hash|)
      modifies this
      ensures Now() == Deadline.MergedRequests(c, old(Now()), w, i)
    {
      ghost var s := Now();
      var d := Of(w);
      assert d == s.Of(w);
      var a, b := d.tree[i], d.tree[i + 1];
      var r := JoinPair(d, i);
      Install(w, Entry(a.id, a.End() + b.nr), r, b.id);
      assert Now() == Rejoined(c, s, w, Entry(a.id, a.End() + b.nr), Join(d, i), b.id);
    }

    /** deadline_merged_requests. */
    method MergedRequests(w: bool, i: nat)
      requires Inv(c, Now()) && i + 1 < |Of(w).tree| && Of(w).tree[i].End() == Of(w).tree[i + 1].sector
      modifies this
      ensures Now() == Deadline.MergedRequests(c, old(Now()), w, i) && Inv(c, Now())
    {
      JoinKeeps(c, Now(), w, i);
      JoinNext(w, i);
    }

    // ---- requests go to the driver ------------------------------------------------------------------------

    method FindIndex(t: seq<Drq>, id: nat) returns (k: nat)
      ensures k == IndexOf(t, id)
    {
      k := 0;
      while k < |t| && t[k].id != id
        invariant k <= |t| && k + IndexOf(t[k..], id) == IndexOf(t, id)
      {
        assert t[k..][1..] == t[k + 1..];
        k := k + 1;
      }
    }

    /** From the label dispatch_request on. */
    method DispatchAt(w: bool, i: nat)
      requires i < |Of(w).tree|
      modifies this
      ensures (Now(), true) == Go(old(Now()), w, i)
    {
      batching := AddUnsigned(batching, 1);
      MoveRequest(w, i);
    }

    /** From the label dispatch_find_request on. */
    method DispatchFind(w: bool, now: nat)
      requires Inv(c, Now()) && Of(w).fifo != []
      modifies this
      ensures (Now(), true) == FindRequest(old(Now()), w, now)
    {
      var d := Of(w);
      KeysThere(c, Now(), w);
      var i := 0;
      if now > d.fifo[0].expires {
        batching := 0;
        i := FindIndex(d.tree, d.fifo[0].id);
      } else if d.next.Some? {
        i := FindIndex(d.tree, d.next.value);
      } else {
        batching := 0;
      }
      DispatchAt(w, i);
    }

    /** No batch is running: reads are preferred until writes have waited long enough. */
    method DispatchChoose(now: nat) returns (sent: bool)
      requires Inv(c, Now())
      modifies this
      ensures (Now(), sent) == ChooseDir(c, old(Now()), now)
    {
      ghost var s := Now();
      var w := read.fifo == [];
      if read.fifo != [] && write.fifo != [] {
        var waited := starved;
        starved := AddUnsigned(starved, 1);
        w := waited >= c.writesStarved;
      }
      if w {
        if write.fifo == [] {
          return false;
        }
        starved := 0;
      }
      SameIndices(c, s, Now());
      KeysThere(c, Now(), w);
      assert Of(w).tree != [];
      DispatchFind(w, now);
      sent := true;
    }

    /** deadline_dispatch_requests. */
    method DispatchRequests(now: nat) returns (sent: bool)
      requires Inv(c, Now())
      modifies this
      ensures (Now(), sent) == Dispatch(c, old(Now()), now) && Inv(c, Now())
      ensures old(write.fifo) != [] ==>
        sent && (Wrote(old(Now()), Now()) || Patience(c, batching, starved) < Patience(c, old(batching), old(starved)))
    {
      ghost var s := Now();
      DispatchKeeps(c, s, now);
      if s.write.fifo != [] {
        DispatchLowers(c, s, now);
      }
      sent := DispatchNext(now);
    }

    method DispatchNext(now: nat) returns (sent: bool)
      requires Inv(c, Now())
      modifies this
      ensures (Now(), sent) == Dispatch(c, old(Now()), now)
    {
      ghost var s := Now();
      var w := write.next.Some?;
      if Of(w).next.Some? {
        KeysThere(c, s, w);
        var i := FindIndex(Of(w).tree, Of(w).next.value);
        if last != Of(w).tree[i].sector {
          batching := AddUnsigned(batching, c.fifoBatch);
        }
        if batching < c.fifoBatch {
          DispatchAt(w, i);
          return true;
        }
        SameIndices(c, s, Now());
      }
      sent := DispatchChoose(now);
    }
  }

  // ---- facts the methods use ------------------------------------------------------------------------------------

  lemma KeysThere(c: Config, s: State, w: bool)
    requires Inv(c, s)
    ensures s.Of(w).fifo != [] <==> s.Of(w).tree != []
    ensures s.Of(w).fifo != [] ==> IndexOf(s.Of(w).tree, s.Of(w).fifo[0].id) < |s.Of(w).tree|
    ensures s.Of(w).next.Some? ==> IndexOf(s.Of(w).tree, s.Of(w).next.value) < |s.Of(w).tree|
  {
    Parts(c, s, false, []);
    NoExtra(false);
    FifoNonEmpty(s.Of(w), s.clock + c.Expire(w));
    if s.Of(w).fifo != [] {
      IndexFinds(s.Of(w).tree, s.Of(w).fifo[0].id);
    }
    if s.Of(w).next.Some? {
      IndexFinds(s.Of(w).tree, s.Of(w).next.value);
    }
  }

  /** A request that is not queued has no hash entry. */
  lemma NewIsNotOnHash(c: Config, s: State, w: bool, x: Drq)
    requires Inv(c, s) && !HasId(Everything(s, []), x.id)
    ensures !OnHash(SendAlias(s, w, x.sector).hash, x.id)
  {
    SendAliasKeeps(c, s, false, [], w, x.sector);
    var s1 := SendAlias(s, w, x.sector);
    var all := Everything(s1, []);
    Parts(c, s1, false, []);
    forall b: int, e: Entry | 0 <= b < |s1.hash| && e in s1.hash[b] ensures e.id != x.id {
      assert e in Ends(all);
      var i :| 0 <= i < |all| && all[i].Key() == e;
      assert all[i] in Everything(s, []);
    }
  }
}
