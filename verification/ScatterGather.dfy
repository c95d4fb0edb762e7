/** block/ll_rw_blk.c: counting the segments of a bio (blk_recount_segments) and coalescing the
segments of a request into a scatterlist (blk_rq_map_sg). */
module ScatterGather {
  import opened Sequences

  const PAGE_SIZE: nat := 4096

  /** struct bio_vec: a piece of a page. */
  datatype Bvec = Bvec(page: nat, offset: nat, len: nat) {
    /** bvec_to_phys */
    function Phys(): nat { page * PAGE_SIZE + offset }
  }

  /** The queue limits. `window` is seg_boundary_mask + 1; vmergeMax is BIO_VMERGE_MAX_SIZE where the
      architecture defines it, and vmergeWindow BIO_VMERGE_BOUNDARY. */
  datatype Limits = Limits(cluster: bool, maxSegment: nat, window: nat, bouncePfn: nat, vmergeMax: Option<nat>,
                           vmergeWindow: nat)
  {
    predicate Valid() { window > 0 }
  }

  /** BIOVEC_PHYS_MERGEABLE */
  predicate PhysMergeable(a: Bvec, b: Bvec) {
    a.Phys() + a.len == b.Phys()
  }

  /** The window of w bytes that address a lies in: a / w. The kernel compares addr | mask for a
      mask of low bits, which names the same windows. */
  function Window(w: nat, a: int): int
    requires w > 0
    decreases a
  {
    if a < w then (if a < 0 then -1 else 0) else 1 + Window(w, a - w)
  }

  lemma {:induction false} WindowMonotone(w: nat, x: int, y: int)
    requires w > 0 && x <= y
    ensures Window(w, x) <= Window(w, y) && Window(w, x) >= -1 && (x >= 0 ==> Window(w, x) >= 0)
    decreases y
  {
    if x >= w {
      WindowMonotone(w, x - w, y - w);
    } else if y >= w {
      WindowMonotone(w, 0, y - w);
    }
  }

  /** BIOVEC_SEG_BOUNDARY: from the start of a to the last byte of b without leaving a window. */
  predicate SameWindow(q: Limits, a: Bvec, b: Bvec)
    requires q.Valid()
  {
    Window(q.window, a.Phys()) == Window(q.window, b.Phys() + b.len - 1)
  }

  /** BIOVEC_VIRT_MERGEABLE */
  predicate VirtMergeable(q: Limits, a: Bvec, b: Bvec) {
    if q.vmergeWindow == 0 then a.Phys() + a.len == 0 && b.Phys() == 0
    else (a.Phys() + a.len) % q.vmergeWindow == 0 && b.Phys() % q.vmergeWindow == 0
  }

  /** BIOVEC_VIRT_OVERSIZE */
  predicate VirtOversize(q: Limits, size: nat) {
    q.vmergeMax.Some? && size > q.vmergeMax.value
  }

  /** BIOVEC_VIRT_START_SIZE */
  function VirtStart(q: Limits, b: Bvec): nat {
    if q.vmergeMax.Some? && q.vmergeWindow > 0 then b.Phys() % q.vmergeWindow else 0
  }

  /** b may be put behind a, in a segment that then has `size` bytes. */
  predicate Joins(q: Limits, a: Bvec, b: Bvec, size: nat)
    requires q.Valid()
  {
    q.cluster && size <= q.maxSegment && PhysMergeable(a, b) && SameWindow(q, a, b)
  }

  /** The running variables of blk_recount_segments. */
  datatype Count = Count(prev: Option<Bvec>, highPrev: bool, segSize: nat, hwSegSize: nat, phys: nat, hw: nat, front: nat)

  function CountStart(front: nat): Count {
    Count(None, true, 0, 0, 0, 0, front)
  }

  function Max(a: nat, b: nat): nat { if a < b then b else a }

  function CountStep(q: Limits, c: Count, b: Bvec): Count
    requires q.Valid()
  {
    var high := b.page >= q.bouncePfn;
    if !high && !c.highPrev && c.prev.Some? && Joins(q, c.prev.value, b, c.segSize + b.len)
       && !VirtOversize(q, c.hwSegSize + b.len)
    then
      c.(segSize := c.segSize + b.len, hwSegSize := c.hwSegSize + b.len, prev := Some(b))
    else
      var newHw := high || c.highPrev || c.prev.None? || Joins(q, c.prev.value, b, c.segSize + b.len)
                   || !VirtMergeable(q, c.prev.value, b) || VirtOversize(q, c.hwSegSize + b.len);
      Count(Some(b), high, b.len,
            if newHw then VirtStart(q, b) + b.len else c.hwSegSize + b.len,
            c.phys + 1, if newHw then c.hw + 1 else c.hw, if newHw then Max(c.front, c.hwSegSize) else c.front)
  }

  function CountAll(q: Limits, c: Count, bvs: seq<Bvec>): Count
    requires q.Valid()
  {
    if bvs == [] then c else CountStep(q, CountAll(q, c, bvs[..|bvs| - 1]), bvs[|bvs| - 1])
  }

  /** bio->bi_phys_segments after blk_recount_segments. */
  function PhysSegments(q: Limits, bvs: seq<Bvec>): nat
    requires q.Valid()
  {
    CountAll(q, CountStart(0), bvs).phys
  }

  /** The sum of the counts of a request's bios. */
  function PhysTotal(q: Limits, bios: seq<seq<Bvec>>): nat
    requires q.Valid()
  {
    if bios == [] then 0 else PhysTotal(q, bios[..|bios| - 1]) + PhysSegments(q, bios[|bios| - 1])
  }

  function Flatten(bios: seq<seq<Bvec>>): seq<Bvec> {
    if bios == [] then [] else Flatten(bios[..|bios| - 1]) + bios[|bios| - 1]
  }

  /** struct scatterlist */
  datatype Sg = Sg(page: nat, offset: nat, length: nat)

  /** The entries blk_rq_map_sg has filled in, and the previous bvec. */
  datatype Mapped = Mapped(sg: seq<Sg>, prev: Option<Bvec>)

  function MapStep(q: Limits, m: Mapped, b: Bvec): (r: Mapped)
    requires q.Valid() && (m.prev.Some? ==> m.sg != [])
    ensures r.prev == Some(b) && r.sg != [] && |m.sg| <= |r.sg| <= |m.sg| + 1
  {
    if m.prev.Some? && Joins(q, m.prev.value, b, m.sg[|m.sg| - 1].length + b.len) then
      var last := m.sg[|m.sg| - 1];
      Mapped(m.sg[..|m.sg| - 1] + [last.(length := last.length + b.len)], Some(b))
    else
      Mapped(m.sg + [Sg(b.page, b.offset, b.len)], Some(b))
  }

  /** The scatterlist of a chain of bvecs. */
  function MapAll(q: Limits, bvs: seq<Bvec>): (m: Mapped)
    requires q.Valid()
    ensures (bvs == [] ==> m == Mapped([], None)) && (bvs != [] ==> m.sg != [] && m.prev == Some(bvs[|bvs| - 1]))
    ensures m.prev.Some? ==> m.sg != []
  {
    if bvs == [] then Mapped([], None) else MapStep(q, MapAll(q, bvs[..|bvs| - 1]), bvs[|bvs| - 1])
  }

  lemma CountAppend(q: Limits, c: Count, bvs: seq<Bvec>, b: Bvec)
    requires q.Valid()
    ensures CountAll(q, c, bvs + [b]) == CountStep(q, CountAll(q, c, bvs), b)
  {
    assert (bvs + [b])[..|bvs|] == bvs;
  }

  lemma MapAppend(q: Limits, bvs: seq<Bvec>, b: Bvec)
    requires q.Valid()
    ensures MapAll(q, bvs + [b]) == MapStep(q, MapAll(q, bvs), b)
  {
    assert (bvs + [b])[..|bvs|] == bvs;
  }

  /** The global coalescing is not behind the per-bio one: fewer entries, or as many and the last one
      no longer. `total` counts the segments of the earlier bios. */
  predicate NotBehind(m: Mapped, total: nat, c: Count) {
    || |m.sg| < total + c.phys
    || (|m.sg| == total + c.phys && (c.phys > 0 ==> m.sg != [] && c.prev == m.prev && m.sg[|m.sg| - 1].length <= c.segSize))
  }

  /** NotBehind, and both remember the same bvec. */
  predicate Level(m: Mapped, total: nat, c: Count) {
    NotBehind(m, total, c) && (c.prev.Some? ==> c.phys > 0 && c.prev == m.prev)
  }

  lemma StepLevel(q: Limits, m: Mapped, total: nat, c: Count, b: Bvec)
    requires q.Valid() && (m.prev.Some? ==> m.sg != []) && Level(m, total, c)
    ensures Level(MapStep(q, m, b), total, CountStep(q, c, b))
  {
  }

  /** Within one bio, whatever came before it. */
  lemma {:induction false} BioNotBehind(q: Limits, before: seq<Bvec>, total: nat, bvs: seq<Bvec>)
    requires q.Valid() && |MapAll(q, before).sg| <= total
    ensures Level(MapAll(q, before + bvs), total, CountAll(q, CountStart(0), bvs))
    decreases |bvs|
  {
    if bvs == [] {
      assert before + bvs == before;
      FirstLevel(MapAll(q, before), total);
    } else {
      var rest, b := SplitLast(bvs);
      BioNotBehind(q, before, total, rest);
      NextLevel(q, before, total, rest, b);
    }
  }

  lemma FirstLevel(m: Mapped, total: nat)
    requires |m.sg| <= total
    ensures Level(m, total, CountStart(0))
  {
  }

  lemma NextLevel(q: Limits, before: seq<Bvec>, total: nat, rest: seq<Bvec>, b: Bvec)
    requires q.Valid() && Level(MapAll(q, before + rest), total, CountAll(q, CountStart(0), rest))
    ensures Level(MapAll(q, before + (rest + [b])), total, CountAll(q, CountStart(0), rest + [b]))
  {
    var m, c := MapAll(q, before + rest), CountAll(q, CountStart(0), rest);
    StepLevel(q, m, total, c, b);
    Assoc(before, rest, [b]);
    MapAppend(q, before + rest, b);
    CountAppend(q, CountStart(0), rest, b);
  }

  /** Coalescing across the bios of a request never needs more entries than the sum of the segment
      counts of the single bios, which is what the request promised. */
  lemma {:induction false} GlobalNotWorse(q: Limits, bios: seq<seq<Bvec>>)
    requires q.Valid()
    ensures |MapAll(q, Flatten(bios)).sg| <= PhysTotal(q, bios)
  {
    if bios != [] {
      var rest, bvs := bios[..|bios| - 1], bios[|bios| - 1];
      GlobalNotWorse(q, rest);
      BioNotBehind(q, Flatten(rest), PhysTotal(q, rest), bvs);
    }
  }

  /** The physical addresses of the bytes of a chain of bvecs, in order. */
  ghost function BvecBytes(bvs: seq<Bvec>): seq<nat> {
    if bvs == [] then [] else BvecBytes(bvs[..|bvs| - 1]) + Range(bvs[|bvs| - 1].Phys(), bvs[|bvs| - 1].len)
  }

  function SgPhys(e: Sg): nat { e.page * PAGE_SIZE + e.offset }

  ghost function SgBytes(sg: seq<Sg>): seq<nat> {
    if sg == [] then [] else SgBytes(sg[..|sg| - 1]) + Range(SgPhys(sg[|sg| - 1]), sg[|sg| - 1].length)
  }

  /** The last entry ends where the previous bvec ends. */
  predicate EndsWithPrev(m: Mapped) {
    m.prev.Some? ==>
      m.sg != [] && var e := m.sg[|m.sg| - 1]; SgPhys(e) + e.length == m.prev.value.Phys() + m.prev.value.len
  }

  lemma SgAppend(sg: seq<Sg>, e: Sg)
    ensures SgBytes(sg + [e]) == SgBytes(sg) + Range(SgPhys(e), e.length)
  {
    assert (sg + [e])[..|sg|] == sg;
  }

  lemma StepEnds(q: Limits, m: Mapped, b: Bvec)
    requires q.Valid() && EndsWithPrev(m)
    ensures EndsWithPrev(MapStep(q, m, b))
  {
  }

  lemma JoinCovers(init: seq<Sg>, last: Sg, n: nat)
    ensures SgBytes(init + [last.(length := last.length + n)])
            == SgBytes(init + [last]) + Range(SgPhys(last) + last.length, n)
  {
    SgAppend(init, last);
    SgAppend(init, last.(length := last.length + n));
    RangeSplit(SgPhys(last), last.length, n);
    Assoc(SgBytes(init), Range(SgPhys(last), last.length), Range(SgPhys(last) + last.length, n));
  }

  lemma MapStepCovers(q: Limits, m: Mapped, b: Bvec)
    requires q.Valid() && EndsWithPrev(m)
    ensures SgBytes(MapStep(q, m, b).sg) == SgBytes(m.sg) + Range(b.Phys(), b.len)
  {
    if m.prev.Some? && Joins(q, m.prev.value, b, m.sg[|m.sg| - 1].length + b.len) {
      JoinCovers(m.sg[..|m.sg| - 1], m.sg[|m.sg| - 1], b.len);
      assert m.sg[..|m.sg| - 1] + [m.sg[|m.sg| - 1]] == m.sg;
    } else {
      SgAppend(m.sg, Sg(b.page, b.offset, b.len));
    }
  }

  /** The scatterlist names exactly the bytes of the request, in order. */
  lemma {:induction false} MapCovers(q: Limits, bvs: seq<Bvec>)
    requires q.Valid()
    ensures EndsWithPrev(MapAll(q, bvs)) && SgBytes(MapAll(q, bvs).sg) == BvecBytes(bvs)
  {
    if bvs != [] {
      MapCovers(q, bvs[..|bvs| - 1]);
      StepEnds(q, MapAll(q, bvs[..|bvs| - 1]), bvs[|bvs| - 1]);
      MapStepCovers(q, MapAll(q, bvs[..|bvs| - 1]), bvs[|bvs| - 1]);
    }
  }

  predicate SgWithin(sg: seq<Sg>, max: nat) {
    forall i | 0 <= i < |sg| :: sg[i].length <= max
  }

  predicate BvecsWithin(bvs: seq<Bvec>, max: nat) {
    forall i | 0 <= i < |bvs| :: bvs[i].len <= max
  }

  /** Every entry respects max_segment_size exactly if every bvec does. */
  lemma {:induction false} MapWithin(q: Limits, bvs: seq<Bvec>)
    requires q.Valid()
    ensures SgWithin(MapAll(q, bvs).sg, q.maxSegment) <==> BvecsWithin(bvs, q.maxSegment)
  {
    if bvs != [] {
      var rest, b := bvs[..|bvs| - 1], bvs[|bvs| - 1];
      MapWithin(q, rest);
      StepWithin(q, MapAll(q, rest), b);
      assert bvs == rest + [b];
    }
  }

  lemma StepWithin(q: Limits, m: Mapped, b: Bvec)
    requires q.Valid() && (m.prev.Some? ==> m.sg != [])
    ensures SgWithin(MapStep(q, m, b).sg, q.maxSegment) <==> SgWithin(m.sg, q.maxSegment) && b.len <= q.maxSegment
  {
    var t := MapStep(q, m, b);
    if |t.sg| == |m.sg| {
      assert t.sg[|t.sg| - 1].length == m.sg[|m.sg| - 1].length + b.len <= q.maxSegment;
      assert forall i | 0 <= i < |m.sg| - 1 :: t.sg[i] == m.sg[i];
    } else {
      assert t.sg[|m.sg|].length == b.len;
      assert forall i | 0 <= i < |m.sg| :: t.sg[i] == m.sg[i];
    }
  }

  /** From the first to the last byte without leaving a window of the queue's boundary mask. */
  predicate InWindow(q: Limits, start: nat, len: nat)
    requires q.Valid()
  {
    len > 0 && Window(q.window, start) == Window(q.window, start + len - 1)
  }

  predicate SgInWindow(q: Limits, m: Mapped)
    requires q.Valid()
  {
    forall i | 0 <= i < |m.sg| :: InWindow(q, SgPhys(m.sg[i]), m.sg[i].length)
  }

  lemma StepInWindow(q: Limits, m: Mapped, b: Bvec)
    requires q.Valid() && EndsWithPrev(m) && SgInWindow(q, m) && InWindow(q, b.Phys(), b.len)
    requires m.prev.Some? ==> m.prev.value.len > 0 && m.sg != [] && SgPhys(m.sg[|m.sg| - 1]) <= m.prev.value.Phys()
    ensures SgInWindow(q, MapStep(q, m, b)) && EndsWithPrev(MapStep(q, m, b))
    ensures var t := MapStep(q, m, b); SgPhys(t.sg[|t.sg| - 1]) <= b.Phys()
  {
    StepEnds(q, m, b);
    var t := MapStep(q, m, b);
    if m.prev.Some? && Joins(q, m.prev.value, b, m.sg[|m.sg| - 1].length + b.len) {
      JoinInWindow(q, SgPhys(m.sg[|m.sg| - 1]), m.sg[|m.sg| - 1].length, m.prev.value, b);
      assert forall i | 0 <= i < |m.sg| - 1 :: t.sg[i] == m.sg[i];
    }
  }

  lemma JoinInWindow(q: Limits, start: nat, len: nat, p: Bvec, b: Bvec)
    requires q.Valid() && InWindow(q, start, len) && p.len > 0 && b.len > 0
    requires start <= p.Phys() && start + len == p.Phys() + p.len
    requires PhysMergeable(p, b) && SameWindow(q, p, b)
    ensures InWindow(q, start, len + b.len)
  {
    WindowMonotone(q.window, start, p.Phys());
    WindowMonotone(q.window, p.Phys(), p.Phys() + p.len - 1);
  }

  /** If every bvec stays within a window of the boundary mask, so does every entry, although only
      neighbours are compared. */
  lemma {:induction false} MapInWindow(q: Limits, bvs: seq<Bvec>)
    requires q.Valid() && forall i | 0 <= i < |bvs| :: InWindow(q, bvs[i].Phys(), bvs[i].len)
    ensures SgInWindow(q, MapAll(q, bvs)) && EndsWithPrev(MapAll(q, bvs))
    ensures var m := MapAll(q, bvs);
            bvs != [] ==> SgPhys(m.sg[|m.sg| - 1]) <= bvs[|bvs| - 1].Phys()
  {
    if bvs != [] {
      var rest := bvs[..|bvs| - 1];
      MapInWindow(q, rest);
      StepInWindow(q, MapAll(q, rest), bvs[|bvs| - 1]);
    }
  }

  lemma {:induction false} MapGrows(q: Limits, a: seq<Bvec>, b: seq<Bvec>)
    requires q.Valid()
    ensures |MapAll(q, a).sg| <= |MapAll(q, a + b).sg|
  {
    if b == [] {
      assert a + b == a;
    } else {
      MapGrows(q, a, b[..|b| - 1]);
      assert a + b == (a + b[..|b| - 1]) + [b[|b| - 1]];
      MapAppend(q, a + b[..|b| - 1], b[|b| - 1]);
    }
  }

  /** A prefix of the chain needs no more entries than were promised for the whole request. */
  lemma PrefixFits(q: Limits, bios: seq<seq<Bvec>>, done: seq<Bvec>)
    requires q.Valid() && StartsWith(Flatten(bios), done)
    ensures |MapAll(q, done).sg| <= PhysTotal(q, bios)
  {
    var rest := Flatten(bios)[|done|..];
    assert done + rest == Flatten(bios);
    MapGrows(q, done, rest);
    GlobalNotWorse(q, bios);
  }

  predicate StartsWith(all: seq<Bvec>, p: seq<Bvec>) {
    |p| <= |all| && all[..|p|] == p
  }

  lemma {:induction false} FlattenSplit(bios: seq<seq<Bvec>>, i: nat)
    requires i < |bios|
    ensures Flatten(bios[..i + 1]) == Flatten(bios[..i]) + bios[i]
    ensures StartsWith(Flatten(bios), Flatten(bios[..i + 1]))
    decreases |bios|
  {
    assert bios[..i + 1][..i] == bios[..i];
    if i + 1 == |bios| {
      assert bios[..i + 1] == bios;
    } else {
      var init := bios[..|bios| - 1];
      FlattenSplit(init, i);
      assert init[..i + 1] == bios[..i + 1];
    }
  }

  /** The loop body of blk_recount_segments: newSegment and newHw say which of its labels are reached. */
  method CountBvec(q: Limits, c: Count, bv: Bvec) returns (r: Count)
    requires q.Valid() && (c.prev.None? ==> c.highPrev)
    ensures r == CountStep(q, c, bv)
  {
    r := c;
    var high := bv.page >= q.bouncePfn;
    var newSegment, newHw := true, false;
    if high || c.highPrev {
      newHw := true;
    } else if q.cluster {
      if c.segSize + bv.len > q.maxSegment || !PhysMergeable(c.prev.value, bv) || !SameWindow(q, c.prev.value, bv) {
        newHw := !VirtMergeable(q, c.prev.value, bv) || VirtOversize(q, c.hwSegSize + bv.len);
      } else if VirtOversize(q, c.hwSegSize + bv.len) {
        newHw := true;
      } else {
        newSegment := false;
      }
    } else {
      newHw := !VirtMergeable(q, c.prev.value, bv) || VirtOversize(q, c.hwSegSize + bv.len);
    }
    if newHw {
      if c.hwSegSize > c.front {
        r := r.(front := c.hwSegSize);
      }
      r := r.(hwSegSize := VirtStart(q, bv) + bv.len, hw := c.hw + 1);
    } else {
      r := r.(hwSegSize := c.hwSegSize + bv.len);
    }
    if newSegment {
      r := r.(phys := c.phys + 1, prev := Some(bv), segSize := bv.len, highPrev := high);
    } else {
      r := r.(prev := Some(bv), segSize := c.segSize + bv.len);
    }
  }

  /** What holds of the running variables after i bvecs. */
  predicate Sensible(c: Count, frontSize: nat, i: nat) {
    && c.hw <= c.phys && c.front >= frontSize && (c.phys == 0 <==> i == 0) && (c.hw == 0 <==> i == 0)
    && (c.prev.None? || i == 0 ==> c.highPrev)
  }

  lemma SensibleStep(q: Limits, c: Count, b: Bvec, frontSize: nat, i: nat)
    requires q.Valid() && Sensible(c, frontSize, i)
    ensures Sensible(CountStep(q, c, b), frontSize, i + 1)
  {
  }

  /** blk_recount_segments */
  method RecountSegments(q: Limits, bvs: seq<Bvec>, frontSize: nat, backSize: nat)
      returns (phys: nat, hw: nat, front: nat, back: nat)
    requires q.Valid()
    ensures phys == PhysSegments(q, bvs) && hw <= phys
    ensures (phys == 0 <==> bvs == []) && (hw == 0 <==> bvs == [])
    ensures var c := CountAll(q, CountStart(frontSize), bvs);
            && hw == c.hw
            && back == Max(backSize, c.hwSegSize)
            && front == (if c.hw == 1 then Max(c.front, c.hwSegSize) else c.front) >= frontSize
  {
    var c := CountStart(frontSize);
    var i := 0;
    while i < |bvs|
      invariant 0 <= i <= |bvs| && c == CountAll(q, CountStart(frontSize), bvs[..i])
      invariant Sensible(c, frontSize, i)
    {
      SensibleStep(q, c, bvs[i], frontSize, i);
      CountAppend(q, CountStart(frontSize), bvs[..i], bvs[i]);
      assert bvs[..i] + [bvs[i]] == bvs[..i + 1];
      c := CountBvec(q, c, bvs[i]);
      i := i + 1;
    }
    assert bvs[..i] == bvs;
    FrontIrrelevant(q, bvs, frontSize);
    phys, hw, front, back := c.phys, c.hw, c.front, backSize;
    if c.hwSegSize > back {
      back := c.hwSegSize;
    }
    if c.hw == 1 && c.hwSegSize > front {
      front := c.hwSegSize;
    }
  }

  /** The counts do not depend on the front size recorded earlier. */
  lemma {:induction false} FrontIrrelevant(q: Limits, bvs: seq<Bvec>, front: nat)
    requires q.Valid()
    ensures CountAll(q, CountStart(front), bvs).(front := 0) == CountAll(q, CountStart(0), bvs).(front := 0)
  {
    if bvs != [] {
      FrontIrrelevant(q, bvs[..|bvs| - 1], front);
    }
  }

  /** blk_rq_map_sg. The caller provides room for the promised number of segments, no more; that is
      enough, whatever the chain. */
  method MapSg(q: Limits, bios: seq<seq<Bvec>>, sg: array<Sg>) returns (nsegs: nat)
    requires q.Valid() && sg.Length >= PhysTotal(q, bios)
    modifies sg
    ensures nsegs <= PhysTotal(q, bios)
    ensures sg[..nsegs] == MapAll(q, Flatten(bios)).sg
    ensures forall k | nsegs <= k < sg.Length :: sg[k] == old(sg[k])
  {
    nsegs := 0;
    var prev: Option<Bvec> := None;
    var i := 0;
    while i < |bios|
      invariant 0 <= i <= |bios| && nsegs <= sg.Length
      invariant Mapped(sg[..nsegs], prev) == MapAll(q, Flatten(bios[..i]))
      invariant forall k | nsegs <= k < sg.Length :: sg[k] == old(sg[k])
    {
      FlattenSplit(bios, i);
      nsegs, prev := MapBio(q, bios, sg, Flatten(bios[..i]), bios[i], nsegs, prev);
      i := i + 1;
    }
    assert bios[..i] == bios;
    GlobalNotWorse(q, bios);
  }

  /** The inner loop over the segments of one bio. */
  method MapBio(q: Limits, ghost bios: seq<seq<Bvec>>, sg: array<Sg>, ghost before: seq<Bvec>, bvs: seq<Bvec>,
                n0: nat, prev0: Option<Bvec>) returns (nsegs: nat, prev: Option<Bvec>)
    requires q.Valid() && sg.Length >= PhysTotal(q, bios) && n0 <= sg.Length
    requires StartsWith(Flatten(bios), before + bvs)
    requires Mapped(sg[..n0], prev0) == MapAll(q, before)
    modifies sg
    ensures n0 <= nsegs <= sg.Length && Mapped(sg[..nsegs], prev) == MapAll(q, before + bvs)
    ensures forall k | nsegs <= k < sg.Length :: sg[k] == old(sg[k])
  {
    nsegs, prev := n0, prev0;
    assert before + bvs[..0] == before;
    var j := 0;
    while j < |bvs|
      invariant 0 <= j <= |bvs| && n0 <= nsegs <= sg.Length
      invariant Mapped(sg[..nsegs], prev) == MapAll(q, before + bvs[..j])
      invariant forall k | nsegs <= k < sg.Length :: sg[k] == old(sg[k])
    {
      NextBvec(q, bios, before, bvs, j);
      nsegs := AddBvec(q, sg, nsegs, prev, bvs[j]);
      prev := Some(bvs[j]);
      j := j + 1;
    }
    assert bvs[..j] == bvs;
  }

  lemma NextBvec(q: Limits, bios: seq<seq<Bvec>>, before: seq<Bvec>, bvs: seq<Bvec>, j: nat)
    requires q.Valid() && StartsWith(Flatten(bios), before + bvs) && j < |bvs|
    ensures MapAll(q, before + bvs[..j + 1]) == MapStep(q, MapAll(q, before + bvs[..j]), bvs[j])
    ensures |MapAll(q, before + bvs[..j + 1]).sg| <= PhysTotal(q, bios)
  {
    assert before + bvs[..j + 1] == (before + bvs[..j]) + [bvs[j]];
    MapAppend(q, before + bvs[..j], bvs[j]);
    assert (before + bvs)[..|before| + j + 1] == before + bvs[..j + 1];
    PrefixFits(q, bios, before + bvs[..j + 1]);
  }

  /** The loop body: extend the last entry or start a new one. */
  method AddBvec(q: Limits, sg: array<Sg>, n: nat, prev: Option<Bvec>, bvec: Bvec) returns (nsegs: nat)
    requires q.Valid() && n <= sg.Length && (prev.Some? ==> n > 0)
    requires |MapStep(q, Mapped(sg[..n], prev), bvec).sg| <= sg.Length
    modifies sg
    ensures n <= nsegs <= sg.Length && sg[..nsegs] == MapStep(q, Mapped(old(sg[..n]), prev), bvec).sg
    ensures forall k | nsegs <= k < sg.Length :: sg[k] == old(sg[k])
  {
    nsegs := n;
    if prev.Some? && q.cluster && sg[nsegs - 1].length + bvec.len <= q.maxSegment
       && PhysMergeable(prev.value, bvec) && SameWindow(q, prev.value, bvec) {
      sg[nsegs - 1] := sg[nsegs - 1].(length := sg[nsegs - 1].length + bvec.len);
    } else {
      sg[nsegs] := Sg(bvec.page, bvec.offset, bvec.len);
      nsegs := nsegs + 1;
    }
  }
}
