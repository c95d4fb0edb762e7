/** block/cfq-iosched.c: how good the cached choice next_crq is.

cfq_choose_req compares two requests. It stands for an order, so next_crq could be the best request of the
whole queue; adding a request keeps it so. Serving one looks at the neighbours of the request in the tree
only, which finds the best of the rest if the head is where that request was. But last_sector is read and
never written: it stays 0, and the neighbours are the wrong place to look.
*/
module CfqChoice {
  import opened Sequences
  import opened CfqQueue

  /** The order that cfq_choose_req stands for: a is served before b, or they start at the same sector.
      Synchronous requests first; then those that a seek may reach; of those the cheaper seek and, at the
      same cost, the higher sector; of the others the lower sector. */
  predicate NoWorse(h: Head, a: Crq, b: Crq) {
    if a.sync != b.sync then a.sync
    else if Behind(h, a.sector) != Behind(h, b.sector) then Behind(h, b.sector)
    else if Behind(h, a.sector) then a.sector <= b.sector
    else
      || Seek(h, a.sector) < Seek(h, b.sector)
      || (Seek(h, a.sector) == Seek(h, b.sector) && a.sector >= b.sector)
  }

  lemma Total(h: Head, a: Crq, b: Crq)
    ensures NoWorse(h, a, b) || NoWorse(h, b, a)
    ensures NoWorse(h, a, b) && NoWorse(h, b, a) ==> a.sector == b.sector && a.sync == b.sync
  {
  }

  lemma Transitive(h: Head, a: Crq, b: Crq, c: Crq)
    requires NoWorse(h, a, b) && NoWorse(h, b, c)
    ensures NoWorse(h, a, c)
  {
  }

  lemma ChooseBetter(h: Head, a: Crq, b: Crq)
    ensures var r := Choose(h, Some(a), Some(b));
            r.Some? && NoWorse(h, r.value, a) && NoWorse(h, r.value, b)
  {
  }

  /** r is the request of t to serve first. */
  predicate Best(h: Head, t: seq<Crq>, r: Option<Crq>) {
    if r == None then t == [] else r.value in t && forall c | c in t :: NoWorse(h, r.value, c)
  }

  /** A new request is compared with next_crq only; that keeps the best of the whole tree. */
  lemma AddKeepsBest(h: Head, t: seq<Crq>, next: Option<Crq>, k: nat, c: Crq)
    requires k <= |t| && Best(h, t, next)
    ensures Best(h, t[..k] + [c] + t[k..], Choose(h, next, Some(c)))
  {
    var u, r := t[..k] + [c] + t[k..], Choose(h, next, Some(c));
    assert u[k] == c && t[..k] + t[k..] == t;
    if next.Some? {
      ChooseBetter(h, next.value, c);
      forall x | x in u ensures NoWorse(h, r.value, x) {
        if x in t {
          Transitive(h, r.value, next.value, x);
        }
      }
    }
  }

  /** A request other than next_crq leaves the tree without being served. */
  lemma RemoveKeepsBest(h: Head, t: seq<Crq>, next: Option<Crq>, i: nat)
    requires Sorted(t) && i < |t| && Best(h, t, next) && next != Some(t[i])
    ensures Best(h, RemoveAt(t, i), NextWithout(h, next, t, i))
  {
    RemoveSorted(t, i);
  }

  /** The requests that cfq_find_next_crq compares. */
  predicate LookedAt(t: seq<Crq>, i: nat, p: nat) {
    p != i && (p + 1 == i || p == i + 1 || (p == 0 && i + 1 == |t|))
  }

  lemma FindNextBeatsLookedAt(h: Head, t: seq<Crq>, i: nat, p: nat)
    requires i < |t| && p < |t| && LookedAt(t, i, p)
    ensures var r := FindNext(h, t, i); r.Some? && NoWorse(h, r.value, t[p])
  {
    var next := if i + 1 < |t| then t[i + 1] else t[0];
    if i > 0 {
      ChooseBetter(h, next, t[i - 1]);
    }
  }

  lemma FindNextLookedAt(h: Head, t: seq<Crq>, i: nat) returns (p: nat)
    requires i < |t| && |t| > 1
    ensures p < |t| && LookedAt(t, i, p) && FindNext(h, t, i) == Some(t[p])
  {
    var next := if i + 1 < |t| then i + 1 else 0;
    p := if FindNext(h, t, i) == Some(t[next]) then next else i - 1;
  }

  /** A request p that beats all others is found exactly if it is looked at. */
  lemma FoundIffLookedAt(h: Head, t: seq<Crq>, i: nat, p: nat)
    requires Sorted(t) && i < |t| && p < |t| && p != i
    requires forall k | 0 <= k < |t| && k != i :: NoWorse(h, t[p], t[k])
    ensures Best(h, RemoveAt(t, i), FindNext(h, t, i)) <==> LookedAt(t, i, p)
    ensures LookedAt(t, i, p) ==> FindNext(h, t, i) == Some(t[p])
  {
    RemoveSorted(t, i);
    var q := FindNextLookedAt(h, t, i);
    if LookedAt(t, i, p) {
      FindNextBeatsLookedAt(h, t, i, p);
      Total(h, t[p], t[q]);
      assert p == q;
      AllOthers(h, t, i, p);
    } else if Best(h, RemoveAt(t, i), FindNext(h, t, i)) {
      Total(h, t[p], t[q]);
      assert false;
    }
  }

  lemma AllOthers(h: Head, t: seq<Crq>, i: nat, p: nat)
    requires i < |t| && p < |t|
    requires forall k | 0 <= k < |t| && k != i :: NoWorse(h, t[p], t[k])
    ensures forall c | c in RemoveAt(t, i) :: NoWorse(h, t[p], c)
  {
    var r := RemoveAt(t, i);
    forall c | c in r ensures NoWorse(h, t[p], c) {
      var k :| 0 <= k < |r| && r[k] == c;
      assert c == t[if k < i then k else k + 1];
    }
  }

  // ---- with the head at the request that is served ---------------------------------------------

  /** The requests other than the one at i are all synchronous or all asynchronous. */
  predicate OneKind(t: seq<Crq>, i: nat, sync: bool) {
    forall k | 0 <= k < |t| && k != i :: t[k].sync == sync
  }

  /** The head is behind the start of the request at i and has not reached the next one. */
  predicate HeadAt(h: Head, t: seq<Crq>, i: nat)
    requires i < |t|
  {
    t[i].sector <= h.last && (i + 1 < |t| ==> h.last <= t[i + 1].sector)
  }

  lemma BackwardSeek(h: Head, far: nat, near: nat)
    requires far <= near < h.last
    ensures Seek(h, near) <= Seek(h, far)
  {
    assert (h.last - far) * h.backPenalty == (h.last - near) * h.backPenalty + (near - far) * h.backPenalty;
    assert (near - far) * h.backPenalty >= 0;
  }

  /** Some request that is looked at is no worse than the one at k. */
  lemma NeighbourSuffices(h: Head, t: seq<Crq>, i: nat, k: nat, sync: bool) returns (q: nat)
    requires Sorted(t) && i < |t| && k < |t| && k != i && OneKind(t, i, sync) && HeadAt(h, t, i)
    ensures q < |t| && LookedAt(t, i, q) && NoWorse(h, t[q], t[k])
  {
    if k > i || (i + 1 < |t| && Behind(h, t[k].sector)) {
      q := i + 1;
    } else if Behind(h, t[i - 1].sector) {
      q := 0;
    } else {
      q := i - 1;
      if k < q {
        BackwardSeek(h, t[k].sector, t[q].sector);
      }
    }
  }

  /** With the head at the request that is served, its neighbours are the only ones worth a look: the best
      of all the rest is found. */
  lemma NearHeadFindsBest(h: Head, t: seq<Crq>, i: nat, sync: bool)
    requires Sorted(t) && i < |t| && OneKind(t, i, sync) && HeadAt(h, t, i)
    ensures Best(h, RemoveAt(t, i), FindNext(h, t, i))
  {
    if |t| > 1 {
      var p := FindNextLookedAt(h, t, i);
      forall k | 0 <= k < |t| && k != i ensures NoWorse(h, t[p], t[k]) {
        var q := NeighbourSuffices(h, t, i, k, sync);
        FindNextBeatsLookedAt(h, t, i, q);
        Transitive(h, t[p], t[q], t[k]);
      }
      FoundIffLookedAt(h, t, i, p);
    }
  }

  // ---- with the head where the code leaves it --------------------------------------------------

  /** The lowest synchronous request other than the one at i or, if there is none, the lowest other one. */
  predicate Lowest(t: seq<Crq>, i: nat, p: nat)
    requires p < |t|
  {
    && p != i
    && (forall k | 0 <= k < |t| && k != i :: t[k].sync ==> t[p].sync)
    && (forall k | 0 <= k < p && k != i :: t[k].sync != t[p].sync)
  }

  lemma LowestExists(t: seq<Crq>, i: nat) returns (p: nat)
    requires i < |t| && |t| > 1
    ensures p < |t| && Lowest(t, i, p)
  {
    p := if i == 0 then 1 else 0;
    var k := 0;
    while k < |t| && !t[p].sync
      invariant 0 <= k <= |t| && p < |t| && p != i
      invariant forall j | 0 <= j < p && j != i :: t[j].sync != t[p].sync
      invariant !t[p].sync ==> forall j | 0 <= j < k && j != i :: !t[j].sync
    {
      if k != i && t[k].sync {
        p := k;
      }
      k := k + 1;
    }
  }

  /** last_sector is 0. Serving the request at i leaves the best of the rest in next_crq exactly if the
      lowest request is a neighbour of i, or i is the last one and the lowest is the first. */
  lemma ServingFindsBestIff(h: Head, t: seq<Crq>, i: nat, p: nat)
    requires h.last == 0 && Sorted(t) && i < |t| && p < |t| && Lowest(t, i, p)
    ensures Best(h, RemoveAt(t, i), FindNext(h, t, i)) <==> LookedAt(t, i, p)
  {
    forall k | 0 <= k < |t| && k != i ensures NoWorse(h, t[p], t[k]) {
      assert t[k].sync == t[p].sync ==> p <= k;
    }
    FoundIffLookedAt(h, t, i, p);
  }

  /** In a queue of one kind: exactly if i is one of the first two or the last. */
  lemma OneKindIff(h: Head, t: seq<Crq>, i: nat, sync: bool)
    requires h.last == 0 && Sorted(t) && i < |t| && OneKind(t, i, sync)
    ensures Best(h, RemoveAt(t, i), FindNext(h, t, i)) <==> i <= 1 || i + 1 == |t|
  {
    if |t| > 1 {
      ServingFindsBestIff(h, t, i, if i == 0 then 1 else 0);
    }
  }

  /** cfq_dispatch_insert as a whole. */
  lemma SendChooses(h: Head, q: Queue, i: nat)
    requires Sorted(q.tree) && i < |q.tree|
    ensures Send(h, q, i).tree == RemoveAt(q.tree, i) && Send(h, q, i).next == FindNext(h, q.tree, i)
  {
    if |q.tree| > 1 {
      var p := FindNextLookedAt(h, q.tree, i);
    }
  }

  /** As long as a queue of one kind serves next_crq itself, it serves its requests from the lowest sector
      up, and next_crq stays the best. */
  lemma ServingBestKeepsBest(h: Head, q: Queue, i: nat, sync: bool)
    requires h.last == 0 && Sorted(q.tree) && i < |q.tree| && OneKind(q.tree, |q.tree|, sync)
    requires q.next == Some(q.tree[i]) && Best(h, q.tree, q.next)
    ensures i == 0
    ensures Best(h, Send(h, q, i).tree, Send(h, q, i).next)
  {
    assert NoWorse(h, q.tree[i], q.tree[0]);
    SendChooses(h, q, i);
    OneKindIff(h, q.tree, i, sync);
  }

  /** A request from the middle, as served when its fifo time is over: the lower neighbour is cached
      although the lowest request should be next. */
  lemma FifoServiceMisses(h: Head)
    requires h.last == 0
    ensures var t := [Crq(0, 0, 10, true), Crq(1, 0, 20, true), Crq(2, 0, 30, true), Crq(3, 0, 40, true)];
            FindNext(h, t, 2) == Some(t[1]) && !Best(h, RemoveAt(t, 2), FindNext(h, t, 2))
  {
    var t := [Crq(0, 0, 10, true), Crq(1, 0, 20, true), Crq(2, 0, 30, true), Crq(3, 0, 40, true)];
    OneKindIff(h, t, 2, true);
  }
}
