/** block/deadline-iosched.c: the hash of requests by end sector, used to find back merge candidates.

The hash function is a parameter.  An entry is put on the chain of the end sector its request has at
that time.  Requests that have become unmergeable stay on their chain until a search meets them.
*/
module DeadlineHash {
  import opened Sequences

  datatype Entry = Entry(id: nat, end: nat)

  type HashFn = nat -> nat

  ghost predicate Bounded(h: HashFn, n: nat) {
    forall x: nat :: h(x) < n
  }

  // ---- operations --------------------------------------------------------------------------------------

  function Without(chain: seq<Entry>, id: nat): (r: seq<Entry>)
    ensures forall e :: e in r <==> e in chain && e.id != id
  {
    if chain == [] then []
    else if chain[0].id == id then Without(chain[1..], id)
    else [chain[0]] + Without(chain[1..], id)
  }

  /** deadline_del_drq_hash. */
  function Del(hash: seq<seq<Entry>>, id: nat): (r: seq<seq<Entry>>)
    ensures |r| == |hash|
    ensures forall b | 0 <= b < |hash| :: r[b] == Without(hash[b], id)
  {
    if hash == [] then [] else [Without(hash[0], id)] + Del(hash[1..], id)
  }

  /** deadline_add_drq_hash. */
  function Put(h: HashFn, hash: seq<seq<Entry>>, e: Entry): seq<seq<Entry>>
    requires h(e.end) < |hash|
  {
    hash[h(e.end) := [e] + hash[h(e.end)]]
  }

  /** deadline_hot_drq_hash: the entry goes to the front of its chain. */
  function Hot(h: HashFn, hash: seq<seq<Entry>>, e: Entry): seq<seq<Entry>>
    requires h(e.end) < |hash|
  {
    if e in hash[h(e.end)] then Put(h, Del(hash, e.id), e) else hash
  }

  /** deadline_find_drq_hash on one chain: the request found, and the chain without the unmergeable
  entries before it. */
  function Search(chain: seq<Entry>, nomerge: set<nat>, offset: nat): (Option<nat>, seq<Entry>) {
    if chain == [] then (None, [])
    else if chain[0].id in nomerge then Search(chain[1..], nomerge, offset)
    else if chain[0].end == offset then (Some(chain[0].id), chain)
    else var r := Search(chain[1..], nomerge, offset); (r.0, [chain[0]] + r.1)
  }

  // ---- the invariant ------------------------------------------------------------------------------------

  /** `live` are the queued requests with their current end sectors.  Every entry is a queued request on the
  chain of its end sector, and every mergeable queued request has its entry. */
  ghost predicate HashInv(h: HashFn, hash: seq<seq<Entry>>, live: set<Entry>, nomerge: set<nat>) {
    && Bounded(h, |hash|)
    && (forall b, e | 0 <= b < |hash| && e in hash[b] :: h(e.end) == b && e in live)
    && (forall e | e in live && e.id !in nomerge :: e in hash[h(e.end)])
  }

  ghost predicate UniqueIds(live: set<Entry>) {
    forall e, f | e in live && f in live && e.id == f.id :: e == f
  }

  lemma DelKeeps(h: HashFn, hash: seq<seq<Entry>>, live: set<Entry>, nomerge: set<nat>, e: Entry)
    requires HashInv(h, hash, live, nomerge) && UniqueIds(live) && e in live
    ensures HashInv(h, Del(hash, e.id), live - {e}, nomerge)
  {
    var r := Del(hash, e.id);
    forall f | f in live - {e} && f.id !in nomerge ensures f in r[h(f.end)] {
      assert f.id != e.id;
    }
    forall b: int, f: Entry | 0 <= b < |r| && f in r[b] ensures h(f.end) == b && f in live - {e} {
      assert f in hash[b];
    }
  }

  lemma PutKeeps(h: HashFn, hash: seq<seq<Entry>>, live: set<Entry>, nomerge: set<nat>, e: Entry)
    requires HashInv(h, hash, live, nomerge)
    ensures HashInv(h, Put(h, hash, e), live + {e}, nomerge)
  {
    var r := Put(h, hash, e);
    forall f | f in live + {e} && f.id !in nomerge ensures f in r[h(f.end)] {
    }
    forall b: int, f: Entry | 0 <= b < |r| && f in r[b] ensures h(f.end) == b && f in live + {e} {
      assert f == e || f in hash[b];
    }
  }

  /** An unmergeable request needs no entry. */
  lemma FreezeKeeps(h: HashFn, hash: seq<seq<Entry>>, live: set<Entry>, nomerge: set<nat>, id: nat)
    requires HashInv(h, hash, live, nomerge)
    ensures HashInv(h, hash, live, nomerge + {id})
  {
  }

  lemma UnhashedKeeps(h: HashFn, hash: seq<seq<Entry>>, live: set<Entry>, nomerge: set<nat>, e: Entry)
    requires HashInv(h, hash, live, nomerge) && e.id in nomerge
    ensures HashInv(h, hash, live + {e}, nomerge)
  {
    forall f | f in live + {e} && f.id !in nomerge ensures f in hash[h(f.end)] {
      assert f in live;
    }
  }

  lemma HotKeeps(h: HashFn, hash: seq<seq<Entry>>, live: set<Entry>, nomerge: set<nat>, e: Entry)
    requires HashInv(h, hash, live, nomerge) && UniqueIds(live)
    ensures HashInv(h, Hot(h, hash, e), live, nomerge)
  {
    if e in hash[h(e.end)] {
      DelKeeps(h, hash, live, nomerge, e);
      PutKeeps(h, Del(hash, e.id), live - {e}, nomerge, e);
      assert live - {e} + {e} == live;
    }
  }

  // ---- searching --------------------------------------------------------------------------------------------

  /** What the search of a chain finds and drops. */
  lemma {:induction false} SearchSpec(chain: seq<Entry>, nomerge: set<nat>, offset: nat)
    ensures var (r, rest) := Search(chain, nomerge, offset);
      && (r.Some? ==> Entry(r.value, offset) in chain && r.value !in nomerge)
      && (r == None ==> forall e | e in chain :: e.id in nomerge || e.end != offset)
      && (forall e | e in rest :: e in chain)
      && (forall e | e in chain && e.id !in nomerge :: e in rest)
  {
    if chain != [] {
      SearchSpec(chain[1..], nomerge, offset);
      forall e ensures e in chain <==> e == chain[0] || e in chain[1..] {
      }
      if chain[0].end == offset {
        assert chain[0] == Entry(chain[0].id, offset);
      }
    }
  }

  /** A back merge candidate is found exactly if there is one, and the search keeps the invariant. */
  lemma SearchKeeps(h: HashFn, hash: seq<seq<Entry>>, live: set<Entry>, nomerge: set<nat>, offset: nat)
    requires HashInv(h, hash, live, nomerge)
    ensures var (r, rest) := Search(hash[h(offset)], nomerge, offset);
      && (r.Some? ==> Entry(r.value, offset) in live && r.value !in nomerge)
      && (r.Some? <==> exists e :: e in live && e.end == offset && e.id !in nomerge)
      && HashInv(h, hash[h(offset) := rest], live, nomerge)
  {
    var b := h(offset);
    var (r, rest) := Search(hash[b], nomerge, offset);
    SearchSpec(hash[b], nomerge, offset);
    if r.Some? {
      assert Entry(r.value, offset) in live;
    }
    var hash' := hash[b := rest];
    forall e | e in live && e.id !in nomerge ensures e in hash'[h(e.end)] {
      assert e in hash[h(e.end)];
    }
    forall c: int, e: Entry | 0 <= c < |hash'| && e in hash'[c] ensures h(e.end) == c && e in live {
      assert e in hash[c];
    }
  }
}
