/** block/deadline-iosched.c: the indices stay coherent in every run. */
module DeadlineTheorems {
  import opened Sequences
  import opened DeadlineHash
  import opened DeadlineSort
  import opened Deadline

  // ---- the queued requests as one sequence ---------------------------------------------------------------------

  function Pos(s: State, w: bool, i: nat): nat {
    if w then |s.read.tree| + i else i
  }

  lemma EverythingAt(s: State, x: seq<Drq>, w: bool, i: nat)
    requires i < |s.Of(w).tree|
    ensures Pos(s, w, i) < |Everything(s, x)| && Everything(s, x)[Pos(s, w, i)] == s.Of(w).tree[i]
  {
  }

  lemma UniqueEnds(t: seq<Drq>)
    requires Unique(multiset(Ids(t)))
    ensures UniqueIds(Ends(t))
  {
    forall e, f | e in Ends(t) && f in Ends(t) && e.id == f.id ensures e == f {
      var i :| 0 <= i < |t| && t[i].Key() == e;
      var j :| 0 <= j < |t| && t[j].Key() == f;
      if i != j {
        DifferentIds(t, i, j);
      }
    }
  }

  lemma FewerUnique(a: multiset<nat>, b: multiset<nat>, id: nat)
    requires Unique(a) && a == b + multiset{id}
    ensures Unique(b)
  {
    forall y: nat ensures b[y] <= 1 {
      assert a[y] <= 1;
    }
  }

  /** What happens to the ids and the hash entries when one request goes. */
  lemma RemoveOne(t: seq<Drq>, p: nat)
    requires p < |t| && Unique(multiset(Ids(t)))
    ensures Unique(multiset(Ids(RemoveAt(t, p)))) && Ends(RemoveAt(t, p)) == Ends(t) - {t[p].Key()}
  {
    RemoveEnds(t, p);
    RemoveAtCounts(Ids(t), p);
    assert Ids(RemoveAt(t, p)) == RemoveAt(Ids(t), p);
    FewerUnique(multiset(Ids(t)), multiset(Ids(RemoveAt(t, p))), t[p].id);
  }

  lemma ReplaceOne(t: seq<Drq>, p: nat, y: Drq)
    requires p < |t| && Unique(multiset(Ids(t))) && y.id == t[p].id
    ensures Ids(t[p := y]) == Ids(t)
    ensures Ends(t[p := y]) == Ends(t) - {t[p].Key()} + {y.Key()}
  {
    var r := t[p := y];
    assert Ids(r) == Ids(t);
    forall j | 0 <= j < |t| && j != p ensures t[j].Key() != t[p].Key() && t[j].Key() in Ends(r) {
      DifferentIds(t, p, j);
      assert r[j] == t[j];
    }
    assert r[p] == y;
    forall j | 0 <= j < |r| ensures r[j].Key() in Ends(t) - {t[p].Key()} + {y.Key()} {
    }
  }

  // ---- the parts of the invariant -----------------------------------------------------------------------------

  predicate DirsOk(c: Config, s: State, v: bool, x: seq<Drq>) {
    && DirOk(s.read, ExtraIds(v, false, x), s.clock + c.expireRead)
    && DirOk(s.write, ExtraIds(v, true, x), s.clock + c.expireWrite)
    && (s.read.next == None || s.write.next == None)
  }

  ghost predicate PoolOk(c: Config, hash: seq<seq<Entry>>, nomerge: set<nat>, all: seq<Drq>) {
    Unique(multiset(Ids(all))) && HashInv(c.h, hash, Ends(all), nomerge)
  }

  lemma FromParts(c: Config, s: State, v: bool, x: seq<Drq>)
    requires DirsOk(c, s, v, x) && PoolOk(c, s.hash, s.nomerge, Everything(s, x))
    ensures InvX(c, s, v, x)
  {
  }

  lemma Parts(c: Config, s: State, v: bool, x: seq<Drq>)
    requires InvX(c, s, v, x)
    ensures DirsOk(c, s, v, x) && PoolOk(c, s.hash, s.nomerge, Everything(s, x))
  {
  }

  lemma PoolRemove(c: Config, hash: seq<seq<Entry>>, nomerge: set<nat>, all: seq<Drq>, p: nat)
    requires PoolOk(c, hash, nomerge, all) && p < |all|
    ensures PoolOk(c, Del(hash, all[p].id), nomerge, RemoveAt(all, p))
  {
    UniqueEnds(all);
    DelKeeps(c.h, hash, Ends(all), nomerge, all[p].Key());
    RemoveOne(all, p);
  }

  lemma PoolReplace(c: Config, hash: seq<seq<Entry>>, nomerge: set<nat>, all: seq<Drq>, p: nat, y: Drq)
    requires PoolOk(c, hash, nomerge, all) && p < |all| && y.id == all[p].id
    ensures PoolOk(c, DeadlineHash.Put(c.h, Del(hash, y.id), y.Key()), nomerge, all[p := y])
  {
    UniqueEnds(all);
    DelKeeps(c.h, hash, Ends(all), nomerge, all[p].Key());
    PutKeeps(c.h, Del(hash, y.id), Ends(all) - {all[p].Key()}, nomerge, y.Key());
    ReplaceOne(all, p, y);
  }

  /** The pool does not care about the order of the requests. */
  lemma PoolPermuted(c: Config, hash: seq<seq<Entry>>, nomerge: set<nat>, all: seq<Drq>, all': seq<Drq>)
    requires PoolOk(c, hash, nomerge, all)
    requires multiset(Ids(all')) == multiset(Ids(all)) && Ends(all') == Ends(all)
    ensures PoolOk(c, hash, nomerge, all')
  {
  }

  // ---- deadline_move_request ----------------------------------------------------------------------------------

  lemma MoveDirs(c: Config, s: State, v: bool, x: seq<Drq>, w: bool, i: nat)
    requires DirsOk(c, s, v, x) && i < |s.Of(w).tree|
    ensures DirsOk(c, Move(s, w, i), v, x)
  {
    var d := s.Of(w);
    var d' := d.(next := SuccId(d.tree, i));
    assert NextOk(d') by {
      if i + 1 < |d.tree| {
        assert d.tree[i + 1].id == d'.next.value;
      }
    }
    TakeOk(d', i, ExtraIds(v, w, x), s.clock + c.Expire(w));
  }

  lemma MoveEverything(s: State, x: seq<Drq>, w: bool, i: nat)
    requires i < |s.Of(w).tree|
    ensures Pos(s, w, i) < |Everything(s, x)|
    ensures Everything(Move(s, w, i), x) == RemoveAt(Everything(s, x), Pos(s, w, i))
  {
  }

  lemma MoveKeeps(c: Config, s: State, v: bool, x: seq<Drq>, w: bool, i: nat)
    requires InvX(c, s, v, x) && i < |s.Of(w).tree|
    ensures InvX(c, Move(s, w, i), v, x)
  {
    Parts(c, s, v, x);
    MoveDirs(c, s, v, x, w, i);
    MoveEverything(s, x, w, i);
    EverythingAt(s, x, w, i);
    PoolRemove(c, s.hash, s.nomerge, Everything(s, x), Pos(s, w, i));
    FromParts(c, Move(s, w, i), v, x);
  }

  lemma MoveClearsAlias(s: State, w: bool, sector: nat)
    requires Sorted(s.Of(w).tree) && HasAlias(s.Of(w).tree, sector)
    ensures !HasAlias(Move(s, w, Place(s.Of(w).tree, sector)).Of(w).tree, sector)
  {
    var t := s.Of(w).tree;
    var k := Place(t, sector);
    var r := RemoveAt(t, k);
    var m := Place(r, sector);
    if m < |r| {
      assert r[m] == t[if m < k then m else m + 1];
    }
  }

  lemma SendAliasKeeps(c: Config, s: State, v: bool, x: seq<Drq>, w: bool, sector: nat)
    requires InvX(c, s, v, x)
    ensures InvX(c, SendAlias(s, w, sector), v, x)
    ensures !HasAlias(SendAlias(s, w, sector).Of(w).tree, sector)
    ensures |SendAlias(s, w, sector).hash| == |s.hash| && SendAlias(s, w, sector).clock == s.clock
    ensures forall y | y in Everything(SendAlias(s, w, sector), x) :: y in Everything(s, x)
  {
    var t := s.Of(w).tree;
    if HasAlias(t, sector) {
      var i := Place(t, sector);
      MoveKeeps(c, s, v, x, w, i);
      MoveClearsAlias(s, w, sector);
      MoveEverything(s, x, w, i);
    }
  }

  // ---- deadline_add_request --------------------------------------------------------------------------------------

  lemma ConcatParts(a: seq<Drq>, b: seq<Drq>)
    ensures Ids(a + b) == Ids(a) + Ids(b) && Ends(a + b) == Ends(a) + Ends(b)
  {
    var r := a + b;
    forall j | 0 <= j < |a| ensures a[j].Key() in Ends(r) {
      assert r[j] == a[j];
    }
    forall j | 0 <= j < |b| ensures b[j].Key() in Ends(r) {
      assert r[|a| + j] == b[j];
    }
  }

  lemma EverythingParts(s: State, x: seq<Drq>)
    ensures multiset(Ids(Everything(s, x)))
         == multiset(Ids(s.read.tree)) + multiset(Ids(s.write.tree)) + multiset(Ids(x))
    ensures Ends(Everything(s, x)) == Ends(s.read.tree) + Ends(s.write.tree) + Ends(x)
  {
    ConcatParts(s.read.tree, s.write.tree);
    ConcatParts(s.read.tree + s.write.tree, x);
  }

  lemma LinkEverything(s: State, w: bool, x: Drq, d: Dir)
    requires d.tree == Linked(s.Of(w).tree, x)
    ensures multiset(Ids(Everything(s.With(w, d), []))) == multiset(Ids(Everything(s, []))) + multiset{x.id}
    ensures Ends(Everything(s.With(w, d), [])) == Ends(Everything(s, [])) + {x.Key()}
  {
    EverythingParts(s, []);
    EverythingParts(s.With(w, d), []);
    LinkIds(s.Of(w).tree, x);
    LinkEnds(s.Of(w).tree, x);
  }

  lemma ThawKeeps(h: HashFn, hash: seq<seq<Entry>>, live: set<Entry>, nomerge: set<nat>, id: nat)
    requires HashInv(h, hash, live, nomerge) && forall e | e in live :: e.id != id
    ensures HashInv(h, hash, live, nomerge - {id})
  {
  }

  lemma OneMoreUnique(a: multiset<nat>, id: nat)
    requires Unique(a) && id !in a
    ensures Unique(a + multiset{id})
  {
  }

  lemma PoolAdd(c: Config, hash: seq<seq<Entry>>, nomerge: set<nat>, all: seq<Drq>, all': seq<Drq>, x: Drq, mergeable: bool)
    requires PoolOk(c, hash, nomerge, all) && !HasId(all, x.id)
    requires multiset(Ids(all')) == multiset(Ids(all)) + multiset{x.id} && Ends(all') == Ends(all) + {x.Key()}
    ensures PoolOk(c, if mergeable then DeadlineHash.Put(c.h, hash, x.Key()) else hash,
                   if mergeable then nomerge - {x.id} else nomerge + {x.id}, all')
  {
    assert x.id !in Ids(all);
    OneMoreUnique(multiset(Ids(all)), x.id);
    if mergeable {
      forall e | e in Ends(all) ensures e.id != x.id {
        var i :| 0 <= i < |all| && all[i].Key() == e;
        assert all[i].id == e.id;
      }
      ThawKeeps(c.h, hash, Ends(all), nomerge, x.id);
      PutKeeps(c.h, hash, Ends(all), nomerge - {x.id}, x.Key());
    } else {
      FreezeKeeps(c.h, hash, Ends(all), nomerge, x.id);
      UnhashedKeeps(c.h, hash, Ends(all), nomerge + {x.id}, x.Key());
    }
  }

  lemma NoExtra(v: bool)
    ensures ExtraIds(v, false, []) == multiset{} && ExtraIds(v, true, []) == multiset{}
  {
    assert Ids([]) == [];
  }

  lemma LaterLimit(d: Dir, limit: nat, later: nat)
    requires DirOk(d, multiset{}, limit) && limit <= later
    ensures DirOk(d, multiset{}, later)
  {
  }

  lemma AddKeeps(c: Config, s: State, w: bool, x: Drq, now: nat, mergeable: bool)
    requires Inv(c, s) && now >= s.clock && !HasId(Everything(s, []), x.id)
    ensures Inv(c, Add(c, s, w, x, now, mergeable))
  {
    SendAliasKeeps(c, s, false, [], w, x.sector);
    var s1 := SendAlias(s, w, x.sector);
    forall i | 0 <= i < |Everything(s1, [])| ensures Everything(s1, [])[i].id != x.id {
      var y := Everything(s1, [])[i];
      assert y in Everything(s, []);
      var j :| 0 <= j < |Everything(s, [])| && Everything(s, [])[j] == y;
    }
    LinkNewKeeps(c, s1, w, x, now, mergeable);
  }

  /** The new request in its direction. */
  function Enqueued(c: Config, s: State, w: bool, x: Drq, now: nat): Dir {
    var d := s.Of(w);
    d.(tree := Linked(d.tree, x), fifo := d.fifo + [Timed(x.id, now + c.Expire(w))])
  }

  lemma AddDirs(c: Config, s: State, w: bool, x: Drq, now: nat)
    requires DirsOk(c, s, false, []) && now >= s.clock && !HasAlias(s.Of(w).tree, x.sector)
    ensures DirsOk(c, s.With(w, Enqueued(c, s, w, x, now)).(clock := now), false, [])
  {
    NoExtra(false);
    EnqueueOk(s.Of(w), x, s.clock + c.Expire(w), now + c.Expire(w));
    LaterLimit(s.Of(!w), s.clock + c.Expire(!w), now + c.Expire(!w));
  }

  lemma DirsSame(c: Config, s: State, s1: State, v: bool, x: seq<Drq>)
    requires DirsOk(c, s, v, x) && s1.read == s.read && s1.write == s.write && s1.clock == s.clock
    ensures DirsOk(c, s1, v, x)
  {
  }

  lemma LinkNewKeeps(c: Config, s: State, w: bool, x: Drq, now: nat, mergeable: bool)
    requires Inv(c, s) && now >= s.clock && !HasId(Everything(s, []), x.id) && !HasAlias(s.Of(w).tree, x.sector)
    ensures Inv(c, Add(c, s, w, x, now, mergeable))
  {
    Parts(c, s, false, []);
    var r := Add(c, s, w, x, now, mergeable);
    var s1 := s.With(w, Enqueued(c, s, w, x, now)).(clock := now);
    AddDirs(c, s, w, x, now);
    DirsSame(c, s1, r, false, []);
    LinkEverything(s, w, x, Enqueued(c, s, w, x, now));
    PoolAdd(c, s.hash, s.nomerge, Everything(s, []), Everything(r, []), x, mergeable);
    FromParts(c, r, false, []);
  }

  // ---- deadline_merged_request -----------------------------------------------------------------------------------

  lemma SwapOut(t: seq<Drq>, p: nat, y: Drq)
    requires p < |t|
    ensures multiset(Ids(RemoveAt(t, p) + [y])) == multiset(Ids(t[p := y]))
    ensures Ends(RemoveAt(t, p) + [y]) == Ends(t[p := y])
  {
    var a, b := t[..p], t[p + 1..];
    assert t[p := y] == a + ([y] + b);
    assert RemoveAt(t, p) + [y] == a + (b + [y]);
    ConcatParts(a, [y] + b);
    ConcatParts(a, b + [y]);
    ConcatParts([y], b);
    ConcatParts(b, [y]);
  }

  /** The request at i leaves the tree to come back as x. */
  function Lifted(c: Config, s: State, w: bool, i: nat, x: Drq): State
    requires i < |s.Of(w).tree| && c.h(x.End()) < |s.hash|
  {
    var s1 := Rekey(c, s, x.Key());
    s1.With(w, Detach(s1.Of(w), i))
  }

  lemma LiftDirs(c: Config, s: State, w: bool, i: nat, x: Drq)
    requires DirsOk(c, s, false, []) && i < |s.Of(w).tree| && c.h(x.End()) < |s.hash| && x.id == s.Of(w).tree[i].id
    ensures DirsOk(c, Lifted(c, s, w, i, x), w, [x])
  {
    NoExtra(false);
    DetachOk(s.Of(w), i, s.clock + c.Expire(w));
    assert Ids([x]) == [x.id];
  }

  lemma LiftEverything(c: Config, s: State, w: bool, i: nat, x: Drq)
    requires i < |s.Of(w).tree| && c.h(x.End()) < |s.hash|
    ensures Pos(s, w, i) < |Everything(s, [])|
    ensures Everything(Lifted(c, s, w, i, x), [x]) == RemoveAt(Everything(s, []), Pos(s, w, i)) + [x]
  {
  }

  lemma LiftKeeps(c: Config, s: State, w: bool, i: nat, x: Drq)
    requires Inv(c, s) && i < |s.Of(w).tree| && x.id == s.Of(w).tree[i].id
    ensures InvX(c, Lifted(c, s, w, i, x), w, [x])
  {
    Parts(c, s, false, []);
    var r, all, p := Lifted(c, s, w, i, x), Everything(s, []), Pos(s, w, i);
    LiftDirs(c, s, w, i, x);
    LiftEverything(c, s, w, i, x);
    EverythingAt(s, [], w, i);
    PoolReplace(c, s.hash, s.nomerge, all, p, x);
    SwapOut(all, p, x);
    PoolPermuted(c, r.hash, r.nomerge, all[p := x], Everything(r, [x]));
    FromParts(c, r, w, [x]);
  }

  lemma RelinkDirs(c: Config, s: State, w: bool, x: Drq)
    requires DirsOk(c, s, w, [x]) && !HasAlias(s.Of(w).tree, x.sector)
    ensures DirsOk(c, LinkIn(s, w, x), false, [])
  {
    NoExtra(false);
    assert Ids([x]) == [x.id];
    RelinkOk(s.Of(w), x, s.clock + c.Expire(w));
  }

  lemma RelinkEverything(s: State, w: bool, x: Drq)
    ensures multiset(Ids(Everything(LinkIn(s, w, x), []))) == multiset(Ids(Everything(s, [x])))
    ensures Ends(Everything(LinkIn(s, w, x), [])) == Ends(Everything(s, [x]))
  {
    LinkEverything(s, w, x, LinkIn(s, w, x).Of(w));
    ConcatParts(Everything(s, []), [x]);
    assert Everything(s, [x]) == Everything(s, []) + [x];
    assert Ids([x]) == [x.id];
    assert [x][0].Key() in Ends([x]);
  }

  lemma RelinkKeeps(c: Config, s: State, w: bool, x: Drq)
    requires InvX(c, s, w, [x]) && !HasAlias(s.Of(w).tree, x.sector)
    ensures Inv(c, LinkIn(s, w, x))
  {
    Parts(c, s, w, [x]);
    var r := LinkIn(s, w, x);
    RelinkDirs(c, s, w, x);
    RelinkEverything(s, w, x);
    PoolPermuted(c, s.hash, s.nomerge, Everything(s, [x]), Everything(r, []));
    FromParts(c, r, false, []);
  }

  lemma ExtendDirs(c: Config, s: State, w: bool, i: nat, x: Drq)
    requires DirsOk(c, s, false, []) && i < |s.Of(w).tree|
    requires x.id == s.Of(w).tree[i].id && x.sector == s.Of(w).tree[i].sector
    ensures DirsOk(c, s.With(w, s.Of(w).(tree := s.Of(w).tree[i := x])), false, [])
  {
    NoExtra(false);
    var d := s.Of(w);
    assert x == d.tree[i].(nr := x.nr);
    GrownDirOk(d, i, x.nr, d.fifo, s.clock + c.Expire(w));
  }

  lemma ExtendEverything(s: State, w: bool, i: nat, x: Drq)
    requires i < |s.Of(w).tree|
    ensures Pos(s, w, i) < |Everything(s, [])|
    ensures Everything(s.With(w, s.Of(w).(tree := s.Of(w).tree[i := x])), []) == Everything(s, [])[Pos(s, w, i) := x]
  {
  }

  lemma ExtendKeeps(c: Config, s: State, w: bool, i: nat, x: Drq)
    requires Inv(c, s) && i < |s.Of(w).tree|
    requires x.id == s.Of(w).tree[i].id && x.sector == s.Of(w).tree[i].sector
    ensures Inv(c, Merged(c, s, w, i, x))
  {
    Parts(c, s, false, []);
    var r := Merged(c, s, w, i, x);
    ExtendDirs(c, s, w, i, x);
    DirsSame(c, s.With(w, s.Of(w).(tree := s.Of(w).tree[i := x])), r, false, []);
    EverythingAt(s, [], w, i);
    PoolReplace(c, s.hash, s.nomerge, Everything(s, []), Pos(s, w, i), x);
    ExtendEverything(s, w, i, x);
    FromParts(c, r, false, []);
  }

  lemma MergedKeeps(c: Config, s: State, w: bool, i: nat, x: Drq)
    requires Inv(c, s) && i < |s.Of(w).tree| && x.id == s.Of(w).tree[i].id
    ensures Inv(c, Merged(c, s, w, i, x))
  {
    if x.sector != s.Of(w).tree[i].sector {
      var s1 := Lifted(c, s, w, i, x);
      LiftKeeps(c, s, w, i, x);
      SendAliasKeeps(c, s1, w, [x], w, x.sector);
      RelinkKeeps(c, SendAlias(s1, w, x.sector), w, x);
    } else {
      ExtendKeeps(c, s, w, i, x);
    }
  }

  // ---- deadline_merged_requests ----------------------------------------------------------------------------------

  lemma PartUnique(s: State, w: bool)
    requires Unique(multiset(Ids(Everything(s, []))))
    ensures Unique(multiset(Ids(s.Of(w).tree)))
  {
    EverythingParts(s, []);
    var all, part := multiset(Ids(Everything(s, []))), multiset(Ids(s.Of(w).tree));
    forall id: nat ensures part[id] <= 1 {
      assert part[id] <= all[id];
    }
  }

  lemma RemoveEverything(s: State, w: bool, j: nat, d: Dir)
    requires j < |s.Of(w).tree| && d.tree == RemoveAt(s.Of(w).tree, j)
    ensures Pos(s, w, j) < |Everything(s, [])|
    ensures Everything(s.With(w, d), []) == RemoveAt(Everything(s, []), Pos(s, w, j))
  {
  }

  lemma JoinEverything(s: State, w: bool, i: nat)
    requires i + 1 < |s.Of(w).tree|
    ensures var t := s.Of(w).tree; var p := Pos(s, w, i); var a := t[i].(nr := t[i].nr + t[i + 1].nr);
      && p + 1 < |Everything(s, [])|
      && Everything(s, [])[p := a][p + 1] == t[i + 1]
      && Everything(s.With(w, Join(s.Of(w), i)), []) == RemoveAt(Everything(s, [])[p := a], p + 1)
  {
    var d := s.Of(w);
    var a := d.tree[i].(nr := d.tree[i].nr + d.tree[i + 1].nr);
    var s1 := s.With(w, d.(tree := d.tree[i := a]));
    ExtendEverything(s, w, i, a);
    EverythingAt(s, [], w, i + 1);
    RemoveEverything(s1, w, i + 1, Join(d, i));
  }

  lemma JoinDirs(c: Config, s: State, w: bool, i: nat)
    requires DirsOk(c, s, false, []) && i + 1 < |s.Of(w).tree| && Unique(multiset(Ids(s.Of(w).tree)))
    ensures DirsOk(c, s.With(w, Join(s.Of(w), i)), false, [])
  {
    NoExtra(false);
    JoinOk(s.Of(w), i, s.clock + c.Expire(w));
  }

  lemma PoolJoin(c: Config, hash: seq<seq<Entry>>, nomerge: set<nat>, all: seq<Drq>, p: nat, y: Drq)
    requires PoolOk(c, hash, nomerge, all) && p + 1 < |all| && y.id == all[p].id
    ensures PoolOk(c, Del(DeadlineHash.Put(c.h, Del(hash, y.id), y.Key()), all[p + 1].id), nomerge,
                   RemoveAt(all[p := y], p + 1))
  {
    PoolReplace(c, hash, nomerge, all, p, y);
    PoolRemove(c, DeadlineHash.Put(c.h, Del(hash, y.id), y.Key()), nomerge, all[p := y], p + 1);
  }

  /** The request at i together with its successor. */
  function Whole(t: seq<Drq>, i: nat): Drq
    requires i + 1 < |t|
  {
    t[i].(nr := t[i].nr + t[i + 1].nr)
  }

  lemma MergedIsRejoined(c: Config, s: State, w: bool, i: nat)
    requires Bounded(c.h, |s.hash|) && i + 1 < |s.Of(w).tree|
    ensures var t := s.Of(w).tree;
      MergedRequests(c, s, w, i) == Rejoined(c, s, w, Whole(t, i).Key(), Join(s.Of(w), i), t[i + 1].id)
  {
    var t := s.Of(w).tree;
    assert Whole(t, i).Key() == Entry(t[i].id, t[i].End() + t[i + 1].nr);
  }

  lemma JoinFields(c: Config, s: State, w: bool, i: nat)
    requires Bounded(c.h, |s.hash|) && i + 1 < |s.Of(w).tree|
    ensures var t := s.Of(w).tree; var y, r := Whole(t, i), MergedRequests(c, s, w, i);
      && r == s.With(w, Join(s.Of(w), i)).(hash := r.hash)
      && r.hash == Del(DeadlineHash.Put(c.h, Del(s.hash, y.id), y.Key()), t[i + 1].id)
  {
    var t := s.Of(w).tree;
    MergedIsRejoined(c, s, w, i);
    RejoinedFields(c, s, w, Whole(t, i).Key(), Join(s.Of(w), i), t[i + 1].id);
  }

  lemma RejoinedFields(c: Config, s: State, w: bool, e: Entry, d: Dir, id: nat)
    requires c.h(e.end) < |s.hash|
    ensures var r := Rejoined(c, s, w, e, d, id);
      r == s.With(w, d).(hash := r.hash) && r.hash == Del(DeadlineHash.Put(c.h, Del(s.hash, e.id), e), id)
  {
  }

  /** y, the request at p with its successor appended, replaces both. */
  ghost predicate JoinedAt(c: Config, s: State, r: State, p: nat, y: Drq) {
    var all := Everything(s, []);
    && p + 1 < |all| && y.id == all[p].id && c.h(y.End()) < |s.hash|
    && r.nomerge == s.nomerge
    && r.hash == Del(DeadlineHash.Put(c.h, Del(s.hash, y.id), y.Key()), all[p + 1].id)
    && Everything(r, []) == RemoveAt(all[p := y], p + 1)
  }

  lemma JoinFinish(c: Config, s: State, r: State, p: nat, y: Drq)
    requires Inv(c, s) && DirsOk(c, r, false, []) && JoinedAt(c, s, r, p, y)
    ensures Inv(c, r)
  {
    Parts(c, s, false, []);
    PoolJoin(c, s.hash, s.nomerge, Everything(s, []), p, y);
    FromParts(c, r, false, []);
  }

  lemma JoinedDirs(c: Config, s: State, w: bool, i: nat)
    requires Inv(c, s) && i + 1 < |s.Of(w).tree|
    ensures DirsOk(c, MergedRequests(c, s, w, i), false, [])
  {
    Parts(c, s, false, []);
    PartUnique(s, w);
    JoinDirs(c, s, w, i);
    JoinFields(c, s, w, i);
    DirsSame(c, s.With(w, Join(s.Of(w), i)), MergedRequests(c, s, w, i), false, []);
  }

  lemma JoinPositions(s: State, w: bool, i: nat, r: State)
    requires i + 1 < |s.Of(w).tree| && r == s.With(w, Join(s.Of(w), i)).(hash := r.hash)
    ensures var t, all, p := s.Of(w).tree, Everything(s, []), Pos(s, w, i);
      && p + 1 < |all| && all[p] == t[i] && all[p + 1] == t[i + 1]
      && Everything(r, []) == RemoveAt(all[p := Whole(t, i)], p + 1)
  {
    EverythingAt(s, [], w, i);
    EverythingAt(s, [], w, i + 1);
    JoinEverything(s, w, i);
  }

  lemma AtFromParts(c: Config, s: State, r: State, p: nat, y: Drq, b: nat)
    requires p + 1 < |Everything(s, [])| && y.id == Everything(s, [])[p].id && b == Everything(s, [])[p + 1].id
    requires Bounded(c.h, |s.hash|) && r.nomerge == s.nomerge
    requires r.hash == Del(DeadlineHash.Put(c.h, Del(s.hash, y.id), y.Key()), b)
    requires Everything(r, []) == RemoveAt(Everything(s, [])[p := y], p + 1)
    ensures JoinedAt(c, s, r, p, y)
  {
  }

  lemma JoinIsAt(c: Config, s: State, w: bool, i: nat, r: State)
    requires Bounded(c.h, |s.hash|) && i + 1 < |s.Of(w).tree| && r == MergedRequests(c, s, w, i)
    ensures JoinedAt(c, s, r, Pos(s, w, i), Whole(s.Of(w).tree, i))
  {
    JoinFields(c, s, w, i);
    JoinPositions(s, w, i, r);
    AtFromParts(c, s, r, Pos(s, w, i), Whole(s.Of(w).tree, i), s.Of(w).tree[i + 1].id);
  }

  lemma JoinReady(c: Config, s: State, w: bool, i: nat, r: State)
    requires Inv(c, s) && i + 1 < |s.Of(w).tree| && r == MergedRequests(c, s, w, i)
    ensures DirsOk(c, r, false, []) && JoinedAt(c, s, r, Pos(s, w, i), Whole(s.Of(w).tree, i))
  {
    JoinedDirs(c, s, w, i);
    JoinIsAt(c, s, w, i, r);
  }

  lemma JoinKeeps(c: Config, s: State, w: bool, i: nat)
    requires Inv(c, s) && i + 1 < |s.Of(w).tree|
    ensures Inv(c, MergedRequests(c, s, w, i))
  {
    var r := MergedRequests(c, s, w, i);
    JoinReady(c, s, w, i, r);
    JoinFinish(c, s, r, Pos(s, w, i), Whole(s.Of(w).tree, i));
  }

  // ---- dispatch --------------------------------------------------------------------------------------------------

  /** The counters do not matter for the indices. */
  lemma SameIndices(c: Config, s: State, s1: State)
    requires Inv(c, s) && s1.read == s.read && s1.write == s.write && s1.clock == s.clock
    requires s1.hash == s.hash && s1.nomerge == s.nomerge
    ensures Inv(c, s1)
  {
    Parts(c, s, false, []);
    DirsSame(c, s, s1, false, []);
    FromParts(c, s1, false, []);
  }

  lemma GoKeeps(c: Config, s: State, w: bool, i: nat)
    requires Inv(c, s)
    ensures Inv(c, Go(s, w, i).0)
  {
    if i < |s.Of(w).tree| {
      var s1 := s.(batching := AddUnsigned(s.batching, 1));
      SameIndices(c, s, s1);
      MoveKeeps(c, s1, false, [], w, i);
    }
  }

  lemma FindRequestKeeps(c: Config, s: State, w: bool, now: nat)
    requires Inv(c, s)
    ensures Inv(c, FindRequest(s, w, now).0)
  {
    var d := s.Of(w);
    SameIndices(c, s, s.(batching := 0));
    if d.fifo != [] && now > d.fifo[0].expires {
      GoKeeps(c, s.(batching := 0), w, IndexOf(d.tree, d.fifo[0].id));
    } else if d.next.Some? {
      GoKeeps(c, s, w, IndexOf(d.tree, d.next.value));
    } else {
      GoKeeps(c, s.(batching := 0), w, 0);
    }
  }

  lemma StarvedKeeps(c: Config, s: State, starved: Unsigned, w: bool, now: nat)
    requires Inv(c, s)
    ensures Inv(c, FindRequest(s.(starved := starved), w, now).0)
  {
    SameIndices(c, s, s.(starved := starved));
    FindRequestKeeps(c, s.(starved := starved), w, now);
  }

  lemma ChooseDirKeeps(c: Config, s: State, now: nat)
    requires Inv(c, s)
    ensures Inv(c, ChooseDir(c, s, now).0)
  {
    FindRequestKeeps(c, s, false, now);
    StarvedKeeps(c, s, AddUnsigned(s.starved, 1), false, now);
    StarvedKeeps(c, s, 0, true, now);
  }

  lemma DispatchKeeps(c: Config, s: State, now: nat)
    requires Inv(c, s)
    ensures Inv(c, Dispatch(c, s, now).0)
  {
    var w := s.write.next.Some?;
    if s.Of(w).next == None {
      ChooseDirKeeps(c, s, now);
    } else {
      var i := IndexOf(s.Of(w).tree, s.Of(w).next.value);
      if i < |s.Of(w).tree| {
        var s1 := if s.last != s.Of(w).tree[i].sector then s.(batching := AddUnsigned(s.batching, c.fifoBatch)) else s;
        SameIndices(c, s, s1);
        BatchKeeps(c, s1, w, i, now);
      }
    }
  }

  /** The batch goes on or is over. */
  lemma BatchKeeps(c: Config, s: State, w: bool, i: nat, now: nat)
    requires Inv(c, s)
    ensures Inv(c, if s.batching < c.fifoBatch then Go(s, w, i).0 else ChooseDir(c, s, now).0)
  {
    if s.batching < c.fifoBatch {
      GoKeeps(c, s, w, i);
    } else {
      ChooseDirKeeps(c, s, now);
    }
  }

  lemma LookupKeeps(c: Config, s: State, offset: nat)
    requires Inv(c, s)
    ensures Inv(c, FindBack(c, s, offset).0)
  {
    Parts(c, s, false, []);
    SearchKeeps(c.h, s.hash, Ends(Everything(s, [])), s.nomerge, offset);
    var r := FindBack(c, s, offset).0;
    DirsSame(c, s, r, false, []);
    FromParts(c, r, false, []);
  }

  lemma HashKeeps(c: Config, s: State, s1: State)
    requires Inv(c, s) && s1.read == s.read && s1.write == s.write && s1.clock == s.clock
    requires HashInv(c.h, s1.hash, Ends(Everything(s, [])), s1.nomerge)
    ensures Inv(c, s1)
  {
    Parts(c, s, false, []);
    DirsSame(c, s, s1, false, []);
    FromParts(c, s1, false, []);
  }

  // ---- runs ------------------------------------------------------------------------------------------------------

  lemma StepKeeps(c: Config, s: State, e: Event)
    requires Inv(c, s) && Enabled(c, s, e)
    ensures Inv(c, Step(c, s, e))
  {
    match e
    case Arrive(w, x, now, mergeable) => AddKeeps(c, s, w, x, now, mergeable);
    case Extend(w, i, x) => MergedKeeps(c, s, w, i, x);
    case JoinNext(w, i) => JoinKeeps(c, s, w, i);
    case Lookup(offset) => LookupKeeps(c, s, offset);
    case Heat(e) =>
      UniqueEnds(Everything(s, []));
      HotKeeps(c.h, s.hash, Ends(Everything(s, [])), s.nomerge, e);
      HashKeeps(c, s, s.(hash := Hot(c.h, s.hash, e)));
    case Freeze(id) =>
      FreezeKeeps(c.h, s.hash, Ends(Everything(s, [])), s.nomerge, id);
      HashKeeps(c, s, s.(nomerge := s.nomerge + {id}));
    case DispatchOne(now) => DispatchKeeps(c, s, now);
  }

  ghost predicate CanRun(c: Config, s: State, es: seq<Event>)
    decreases |es|
  {
    es == [] || (Bounded(c.h, |s.hash|) && Enabled(c, s, es[0]) && CanRun(c, Step(c, s, es[0]), es[1..]))
  }

  ghost function Run(c: Config, s: State, es: seq<Event>): State
    requires CanRun(c, s, es)
    decreases |es|
  {
    if es == [] then s else Run(c, Step(c, s, es[0]), es[1..])
  }

  lemma {:induction false} RunKeeps(c: Config, s: State, es: seq<Event>)
    requires Inv(c, s) && CanRun(c, s, es)
    ensures Inv(c, Run(c, s, es))
    decreases |es|
  {
    if es != [] {
      StepKeeps(c, s, es[0]);
      RunKeeps(c, Step(c, s, es[0]), es[1..]);
    }
  }

  /** deadline_init_queue with n hash chains. */
  function Start(n: nat, now: nat): State {
    State(Dir([], [], None), Dir([], [], None), seq(n, b => []), {}, 0, 0, 0, now, [])
  }

  lemma StartInv(c: Config, n: nat, now: nat)
    requires Bounded(c.h, n)
    ensures Inv(c, Start(n, now))
  {
    NoExtra(false);
    assert Ids([]) == [] && Ends([]) == {};
    assert Everything(Start(n, now), []) == [];
  }

  /** In every reachable state a back merge candidate is found for a sector exactly if some queued request
  that may be merged ends there. */
  lemma LookupFindsIffThere(c: Config, n: nat, now: nat, es: seq<Event>, offset: nat)
    requires Bounded(c.h, n) && CanRun(c, Start(n, now), es)
    ensures var s := Run(c, Start(n, now), es);
      && Bounded(c.h, |s.hash|)
      && var r := FindBack(c, s, offset).1; var all := Everything(s, []);
      && (r.Some? <==> exists i | 0 <= i < |all| :: all[i].End() == offset && all[i].id !in s.nomerge)
      && (r.Some? ==> r.value !in s.nomerge && exists i | 0 <= i < |all| :: all[i].End() == offset && all[i].id == r.value)
  {
    StartInv(c, n, now);
    RunKeeps(c, Start(n, now), es);
    var s := Run(c, Start(n, now), es);
    var all := Everything(s, []);
    SearchKeeps(c.h, s.hash, Ends(all), s.nomerge, offset);
    EndsHere(all, s.nomerge, offset);
    var r := FindBack(c, s, offset).1;
    if r.Some? {
      KeyHere(all, r.value, offset);
    }
  }

  lemma KeyHere(all: seq<Drq>, id: nat, offset: nat)
    requires Entry(id, offset) in Ends(all)
    ensures exists i | 0 <= i < |all| :: all[i].End() == offset && all[i].id == id
  {
    var i :| 0 <= i < |all| && all[i].Key() == Entry(id, offset);
    assert all[i].End() == offset && all[i].id == id;
  }

  lemma EndsHere(all: seq<Drq>, nomerge: set<nat>, offset: nat)
    ensures (exists e | e in Ends(all) :: e.end == offset && e.id !in nomerge)
       <==> (exists i | 0 <= i < |all| :: all[i].End() == offset && all[i].id !in nomerge)
  {
    if i :| 0 <= i < |all| && all[i].End() == offset && all[i].id !in nomerge {
      assert all[i].Key() in Ends(all);
    }
    if e :| e in Ends(all) && e.end == offset && e.id !in nomerge {
      KeyHere(all, e.id, e.end);
    }
  }

  /** In every reachable state the trees, the fifos and next_drq agree, and the head of a fifo decides
  whether anything has expired. */
  lemma IndicesAgree(c: Config, n: nat, start: nat, es: seq<Event>, w: bool, now: nat)
    requires Bounded(c.h, n) && CanRun(c, Start(n, start), es)
    ensures var s := Run(c, Start(n, start), es); var d := s.Of(w);
      && Sorted(d.tree)
      && multiset(FifoIds(d.fifo)) == multiset(Ids(d.tree))
      && (d.next.Some? ==> HasId(d.tree, d.next.value))
      && (s.read.next == None || s.write.next == None)
      && (d.fifo != [] ==> (now > d.fifo[0].expires <==> exists i | 0 <= i < |d.fifo| :: now > d.fifo[i].expires))
  {
    StartInv(c, n, start);
    RunKeeps(c, Start(n, start), es);
    var s := Run(c, Start(n, start), es);
    Coherent(c, s, w);
    if s.Of(w).fifo != [] {
      HeadDecides(s.Of(w).fifo, now);
    }
  }
}
