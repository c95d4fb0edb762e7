/** block/ll_rw_blk.c: ending part of a request (__end_that_request_first). */
module Completion {
  import opened Sequences

  /** struct bio_vec */
  datatype Bvec = Bvec(page: nat, offset: nat, len: nat)

  /** What is left of a bio: its identity and the bvecs from bi_idx on. */
  datatype View = View(id: nat, vecs: seq<Bvec>)

  /** A call of bio_endio: so many bytes of this bio have been transferred. */
  datatype Report = Report(id: nat, bytes: nat)

  datatype Done = Done(rest: seq<View>, reports: seq<Report>)

  function Sum(vecs: seq<Bvec>): nat {
    if vecs == [] then 0 else vecs[0].len + Sum(vecs[1..])
  }

  function Total(bios: seq<View>): nat {
    if bios == [] then 0 else Sum(bios[0].vecs) + Total(bios[1..])
  }

  /** bvecs without their first n bytes; a bvec that is used up disappears. */
  function Advance(vecs: seq<Bvec>, n: nat): seq<Bvec>
    requires n <= Sum(vecs)
  {
    if n == 0 then vecs
    else if vecs[0].len <= n then Advance(vecs[1..], n - vecs[0].len)
    else [Bvec(vecs[0].page, vecs[0].offset + n, vecs[0].len - n)] + vecs[1..]
  }

  /** Ending the first n bytes of a chain of bios. */
  function Consume(bios: seq<View>, n: nat): Done {
    if bios == [] then Done([], [])
    else if n >= Sum(bios[0].vecs) then
      var d := Consume(bios[1..], n - Sum(bios[0].vecs));
      Done(d.rest, [Report(bios[0].id, Sum(bios[0].vecs))] + d.reports)
    else
      Done([View(bios[0].id, Advance(bios[0].vecs, n))] + bios[1..], if n == 0 then [] else [Report(bios[0].id, n)])
  }

  predicate Positive(vecs: seq<Bvec>) {
    forall i | 0 <= i < |vecs| :: vecs[i].len > 0
  }

  /** A chain of bios that all have something left, in bvecs that are not empty. */
  predicate WellFormed(bios: seq<View>) {
    forall i | 0 <= i < |bios| :: bios[i].vecs != [] && Positive(bios[i].vecs)
  }

  lemma {:induction false} AdvanceTwice(vecs: seq<Bvec>, m: nat, n: nat)
    requires m + n <= Sum(vecs) && Positive(vecs)
    ensures Positive(Advance(vecs, m)) && Sum(Advance(vecs, m)) == Sum(vecs) - m
    ensures Advance(Advance(vecs, m), n) == Advance(vecs, m + n)
    decreases vecs
  {
    if m > 0 {
      if vecs[0].len <= m {
        AdvanceTwice(vecs[1..], m - vecs[0].len, n);
      } else {
        var cut := Bvec(vecs[0].page, vecs[0].offset + m, vecs[0].len - m);
        var a := [cut] + vecs[1..];
        assert a[1..] == vecs[1..];
      }
    }
  }

  lemma ConsumeWellFormed(bios: seq<View>, n: nat)
    requires WellFormed(bios)
    ensures WellFormed(Consume(bios, n).rest)
    decreases bios
  {
    if bios != [] {
      if n >= Sum(bios[0].vecs) {
        ConsumeWellFormed(bios[1..], n - Sum(bios[0].vecs));
      } else {
        AdvanceTwice(bios[0].vecs, n, 0);
      }
    }
  }

  /** Ending m bytes and then n more leaves the same bios and bvecs as ending m + n at once. */
  lemma {:induction false} SplitRest(bios: seq<View>, m: nat, n: nat)
    requires WellFormed(bios)
    ensures Consume(Consume(bios, m).rest, n).rest == Consume(bios, m + n).rest
    decreases bios
  {
    if bios != [] {
      var size := Sum(bios[0].vecs);
      if m >= size {
        SplitRest(bios[1..], m - size, n);
      } else {
        var mid := Consume(bios, m).rest;
        AdvanceTwice(bios[0].vecs, m, if n <= size - m then n else size - m);
        assert mid[1..] == bios[1..];
      }
    }
  }

  /** Bytes reported to one bio. */
  function Reported(reports: seq<Report>, id: nat): nat {
    if reports == [] then 0
    else (if reports[0].id == id then reports[0].bytes else 0) + Reported(reports[1..], id)
  }

  lemma ReportedCons(bio: nat, bytes: nat, reports: seq<Report>, id: nat)
    ensures Reported([Report(bio, bytes)] + reports, id) == (if bio == id then bytes else 0) + Reported(reports, id)
  {
    assert ([Report(bio, bytes)] + reports)[1..] == reports;
  }

  /** Nothing is left exactly if all bytes have been ended. */
  lemma {:induction false} DoneIffAllBytes(bios: seq<View>, n: nat)
    requires WellFormed(bios)
    ensures Consume(bios, n).rest == [] <==> n >= Total(bios)
    ensures Total(Consume(bios, n).rest) == if n >= Total(bios) then 0 else Total(bios) - n
    decreases bios
  {
    if bios != [] {
      var size := Sum(bios[0].vecs);
      if n >= size {
        DoneIffAllBytes(bios[1..], n - size);
      } else {
        AdvanceTwice(bios[0].vecs, n, 0);
        var rest := Consume(bios, n).rest;
        assert rest[1..] == bios[1..];
      }
    }
  }

  /** One byte to be transferred: of which bio, in which page, at which offset. */
  datatype Byte = Byte(id: nat, page: nat, offset: nat)

  ghost function VecBytes(id: nat, v: Bvec): (r: seq<Byte>)
    ensures |r| == v.len && forall k | 0 <= k < v.len :: r[k] == Byte(id, v.page, v.offset + k)
  {
    seq(v.len, k requires 0 <= k => Byte(id, v.page, v.offset + k))
  }

  ghost function VecsBytes(id: nat, vecs: seq<Bvec>): (r: seq<Byte>)
    ensures |r| == Sum(vecs)
  {
    if vecs == [] then [] else VecBytes(id, vecs[0]) + VecsBytes(id, vecs[1..])
  }

  ghost function Bytes(bios: seq<View>): (r: seq<Byte>)
    ensures |r| == Total(bios)
  {
    if bios == [] then [] else VecsBytes(bios[0].id, bios[0].vecs) + Bytes(bios[1..])
  }

  lemma {:induction false} AdvanceDrops(id: nat, vecs: seq<Bvec>, n: nat)
    requires n <= Sum(vecs) && Positive(vecs)
    ensures Sum(Advance(vecs, n)) == Sum(vecs) - n
    ensures VecsBytes(id, Advance(vecs, n)) == VecsBytes(id, vecs)[n..]
    decreases vecs
  {
    if n > 0 {
      var head, tail := VecBytes(id, vecs[0]), VecsBytes(id, vecs[1..]);
      if vecs[0].len <= n {
        AdvanceDrops(id, vecs[1..], n - vecs[0].len);
        assert (head + tail)[n..] == tail[n - |head|..];
      } else {
        var cut := Bvec(vecs[0].page, vecs[0].offset + n, vecs[0].len - n);
        assert ([cut] + vecs[1..])[1..] == vecs[1..];
        assert VecBytes(id, cut) == head[n..];
        assert (head + tail)[n..] == head[n..] + tail;
      }
    }
  }

  lemma DropWithin(bios: seq<View>, n: nat)
    requires WellFormed(bios) && bios != [] && n < Sum(bios[0].vecs)
    ensures Bytes(Consume(bios, n).rest) == Bytes(bios)[n..]
  {
    var first, head, tail := bios[0], VecsBytes(bios[0].id, bios[0].vecs), Bytes(bios[1..]);
    AdvanceDrops(first.id, first.vecs, n);
    BytesCons(View(first.id, Advance(first.vecs, n)), bios[1..]);
    DropConcat(head, tail, n);
  }

  lemma BytesCons(v: View, bios: seq<View>)
    ensures Bytes([v] + bios) == VecsBytes(v.id, v.vecs) + Bytes(bios)
  {
    assert ([v] + bios)[1..] == bios;
  }

  /** What is left to transfer is the old list of bytes without its first n. */
  lemma {:induction false} ConsumeDrops(bios: seq<View>, n: nat)
    requires WellFormed(bios)
    ensures Bytes(Consume(bios, n).rest) == if n >= Total(bios) then [] else Bytes(bios)[n..]
    decreases bios
  {
    if bios != [] {
      var size := Sum(bios[0].vecs);
      if n < size {
        DropWithin(bios, n);
      } else {
        ConsumeDrops(bios[1..], n - size);
        if n < Total(bios) {
          DropConcat(VecsBytes(bios[0].id, bios[0].vecs), Bytes(bios[1..]), n);
        }
      }
    }
  }

  lemma DropConcat(a: seq<Byte>, b: seq<Byte>, n: nat)
    requires n <= |a| + |b|
    ensures (a + b)[n..] == if n >= |a| then b[n - |a|..] else a[n..] + b
  {
  }

  /** How many of the bytes belong to one bio. */
  ghost function BytesOf(bs: seq<Byte>, id: nat): nat {
    if bs == [] then 0 else (if bs[0].id == id then 1 else 0) + BytesOf(bs[1..], id)
  }

  lemma {:induction false} BytesOfConcat(a: seq<Byte>, b: seq<Byte>, id: nat)
    ensures BytesOf(a + b, id) == BytesOf(a, id) + BytesOf(b, id)
  {
    if a == [] {
      assert a + b == b;
    } else {
      assert (a + b)[1..] == a[1..] + b;
      BytesOfConcat(a[1..], b, id);
    }
  }

  lemma {:induction false} BytesOfOne(bs: seq<Byte>, bio: nat, id: nat)
    requires forall k | 0 <= k < |bs| :: bs[k].id == bio
    ensures BytesOf(bs, id) == if bio == id then |bs| else 0
  {
    if bs != [] {
      BytesOfOne(bs[1..], bio, id);
    }
  }

  lemma {:induction false} VecsBytesId(id: nat, vecs: seq<Bvec>)
    ensures forall k | 0 <= k < Sum(vecs) :: VecsBytes(id, vecs)[k].id == id
  {
    if vecs != [] {
      VecsBytesId(id, vecs[1..]);
    }
  }

  lemma BytesOfTake(head: seq<Byte>, tail: seq<Byte>, m: nat, bio: nat, id: nat)
    requires m <= |tail| && forall k | 0 <= k < |head| :: head[k].id == bio
    ensures BytesOf((head + tail)[..|head| + m], id) == (if bio == id then |head| else 0) + BytesOf(tail[..m], id)
  {
    assert (head + tail)[..|head| + m] == head + tail[..m];
    BytesOfConcat(head, tail[..m], id);
    BytesOfOne(head, bio, id);
  }

  lemma BytesOfPart(head: seq<Byte>, tail: seq<Byte>, n: nat, bio: nat, id: nat)
    requires n <= |head| && forall k | 0 <= k < |head| :: head[k].id == bio
    ensures BytesOf((head + tail)[..n], id) == if bio == id then n else 0
  {
    assert (head + tail)[..n] == head[..n];
    BytesOfOne(head[..n], bio, id);
  }

  lemma ReportsWithin(bios: seq<View>, n: nat, id: nat)
    requires bios != [] && n < Sum(bios[0].vecs)
    ensures Reported(Consume(bios, n).reports, id) == BytesOf(Bytes(bios)[..n], id)
  {
    VecsBytesId(bios[0].id, bios[0].vecs);
    BytesOfPart(VecsBytes(bios[0].id, bios[0].vecs), Bytes(bios[1..]), n, bios[0].id, id);
  }

  lemma ReportsBeyond(bios: seq<View>, n: nat, id: nat)
    requires bios != [] && n >= Sum(bios[0].vecs)
    requires var rest, m := bios[1..], n - Sum(bios[0].vecs);
             Reported(Consume(rest, m).reports, id) == BytesOf(Bytes(rest)[..Min(m, Total(rest))], id)
    ensures Reported(Consume(bios, n).reports, id) == BytesOf(Bytes(bios)[..Min(n, Total(bios))], id)
  {
    var bio, size, rest := bios[0].id, Sum(bios[0].vecs), bios[1..];
    VecsBytesId(bio, bios[0].vecs);
    ReportedCons(bio, size, Consume(rest, n - size).reports, id);
    BytesOfTake(VecsBytes(bio, bios[0].vecs), Bytes(rest), Min(n - size, Total(rest)), bio, id);
  }

  /** The bytes reported to a bio are the bytes of that bio among the first n of the request. */
  lemma {:induction false} ReportsAreBytes(bios: seq<View>, n: nat, id: nat)
    requires WellFormed(bios)
    ensures Reported(Consume(bios, n).reports, id) == BytesOf(Bytes(bios)[..Min(n, Total(bios))], id)
    decreases bios
  {
    if bios != [] {
      if n < Sum(bios[0].vecs) {
        ReportsWithin(bios, n, id);
      } else {
        ReportsAreBytes(bios[1..], n - Sum(bios[0].vecs), id);
        ReportsBeyond(bios, n, id);
      }
    }
  }

  /** ... and the two calls report the same number of bytes to every bio as the one. */
  lemma SplitReports(bios: seq<View>, m: nat, n: nat, id: nat)
    requires WellFormed(bios)
    ensures Reported(Consume(bios, m).reports, id) + Reported(Consume(Consume(bios, m).rest, n).reports, id)
            == Reported(Consume(bios, m + n).reports, id)
  {
    var rest, all := Consume(bios, m).rest, Bytes(bios);
    ConsumeWellFormed(bios, m);
    ReportsAreBytes(bios, m, id);
    ReportsAreBytes(rest, n, id);
    ReportsAreBytes(bios, m + n, id);
    ConsumeDrops(bios, m);
    TakeTwice(all, Bytes(rest), m, n);
    BytesOfConcat(all[..Min(m, |all|)], Bytes(rest)[..Min(n, |Bytes(rest)|)], id);
  }

  lemma TakeTwice(all: seq<Byte>, rest: seq<Byte>, m: nat, n: nat)
    requires rest == if m >= |all| then [] else all[m..]
    ensures all[..Min(m, |all|)] + rest[..Min(n, |rest|)] == all[..Min(m + n, |all|)]
  {
  }

  /** struct bio: bi_size, bi_idx and the io vector. */
  datatype Bio = Bio(id: nat, size: nat, idx: nat, vecs: seq<Bvec>) {
    predicate Valid() {
      idx < |vecs| && size == Sum(vecs[idx..]) && Positive(vecs[idx..])
    }

    function Left(): View
      requires idx <= |vecs|
    {
      View(id, vecs[idx..])
    }
  }

  predicate AllValid(bios: seq<Bio>) {
    forall i | 0 <= i < |bios| :: bios[i].Valid()
  }

  function Views(bios: seq<Bio>): (v: seq<View>)
    requires AllValid(bios)
    ensures |v| == |bios| && WellFormed(v)
    ensures forall i | 0 <= i < |bios| :: v[i] == bios[i].Left()
  {
    seq(|bios|, i requires 0 <= i < |bios| => bios[i].Left())
  }

  /** Advancing past j whole bvecs and r bytes into the next one. */
  lemma {:induction false} AdvanceAt(vecs: seq<Bvec>, j: nat, r: nat)
    requires Positive(vecs) && j < |vecs| && r < vecs[j].len
    ensures Sum(vecs[..j]) + r < Sum(vecs)
    ensures Advance(vecs, Sum(vecs[..j]) + r) == [Bvec(vecs[j].page, vecs[j].offset + r, vecs[j].len - r)] + vecs[j + 1..]
    decreases j
  {
    if j == 0 {
      assert vecs[..0] == [];
      assert vecs == [vecs[0]] + vecs[1..];
    } else {
      assert vecs[..j][1..] == vecs[1..][..j - 1];
      AdvanceAt(vecs[1..], j - 1, r);
      assert vecs[1..][j - 1] == vecs[j] && vecs[1..][j..] == vecs[j + 1..];
    }
  }

  lemma {:induction false} SumAppend(vecs: seq<Bvec>, j: nat)
    requires j < |vecs|
    ensures Sum(vecs[..j + 1]) == Sum(vecs[..j]) + vecs[j].len
    ensures Sum(vecs[..j + 1]) < Sum(vecs) ==> j + 1 < |vecs|
    decreases j
  {
    if j + 1 == |vecs| {
      assert vecs[..j + 1] == vecs;
    }
    if j == 0 {
      assert vecs[..1][1..] == [] && vecs[..0] == [];
    } else {
      assert vecs[..j + 1][1..] == vecs[1..][..j] && vecs[..j][1..] == vecs[1..][..j - 1];
      SumAppend(vecs[1..], j - 1);
    }
  }

  /** The bio after `bytes` more of its bytes, ending r bytes into bvec idx + next, have been ended. */
  function Cut(bio: Bio, next: nat, bytes: nat, r: nat): Bio
    requires bio.idx + next < |bio.vecs| && bytes <= bio.size && r <= bio.vecs[bio.idx + next].len
  {
    var at := bio.idx + next;
    var v := bio.vecs[at];
    Bio(bio.id, bio.size - bytes, at, bio.vecs[at := Bvec(v.page, v.offset + r, v.len - r)])
  }

  lemma CutIsAdvance(bio: Bio, next: nat, r: nat)
    requires bio.Valid() && bio.idx + next < |bio.vecs| && r < bio.vecs[bio.idx + next].len
    ensures var bytes := Sum(bio.vecs[bio.idx..][..next]) + r;
            && bytes < bio.size && Cut(bio, next, bytes, r).Valid()
            && Cut(bio, next, bytes, r).Left() == View(bio.id, Advance(bio.vecs[bio.idx..], bytes))
  {
    var left := bio.vecs[bio.idx..];
    AdvanceAt(left, next, r);
    var bytes := Sum(left[..next]) + r;
    var cut := Cut(bio, next, bytes, r);
    assert cut.vecs[cut.idx..] == [Bvec(left[next].page, left[next].offset + r, left[next].len - r)] + left[next + 1..];
    AdvanceTwice(left, bytes, 0);
  }

  /** The sector counters of a file-system request. */
  datatype Sectors = Sectors(hardSector: int, hardNr: int, sector: int, nr: int, current: int)

  /** blk_recalc_rq_sectors; `cur` is the length in sectors of the first bvec left. */
  function Recalc(s: Sectors, nsect: int, cur: int): Sectors {
    var hs, hn := s.hardSector + nsect, s.hardNr - nsect;
    var t := if s.nr >= hn && s.sector <= hs then Sectors(hs, hn, hs, hn, cur) else Sectors(hs, hn, s.sector, s.nr, s.current);
    if t.nr < t.current then t.(nr := t.current) else t
  }

  /** A request as far as completion is concerned. */
  datatype Req = Req(bios: seq<View>, sectors: Sectors)

  /** __end_that_request_first on n bytes: what is left of the request. Its result is 0 if no bio is. */
  function EndFirst(r: Req, n: nat): Req {
    var rest := Consume(r.bios, n).rest;
    Req(rest, if rest == [] then r.sectors else Recalc(r.sectors, n / 512, FirstSectors(rest)))
  }

  /** bio_cur_sectors of the first bio. */
  function FirstSectors(bios: seq<View>): nat {
    if bios == [] || bios[0].vecs == [] then 0 else bios[0].vecs[0].len / 512
  }

  /** The sector counters of a request ended in two parts agree with those of one ended in one part
      exactly if the two parts do not make up another whole sector between them: the hard ones always,
      all of them if the request is not botched before. */
  lemma SplitSectors(r: Req, m: nat, n: nat)
    requires WellFormed(r.bios) && m + n < Total(r.bios)
    ensures EndFirst(EndFirst(r, m), n).bios == EndFirst(r, m + n).bios != []
    ensures var two, one := EndFirst(EndFirst(r, m), n).sectors, EndFirst(r, m + n).sectors;
            && (two.hardSector == one.hardSector <==> m % 512 + n % 512 < 512)
            && (two.hardNr == one.hardNr <==> m % 512 + n % 512 < 512)
            && (r.sectors.nr >= r.sectors.current ==> (two == one <==> m % 512 + n % 512 < 512))
  {
    SplitRest(r.bios, m, n);
    DoneIffAllBytes(r.bios, m);
    DoneIffAllBytes(r.bios, m + n);
    var mid, end := EndFirst(r, m), EndFirst(r, m + n);
    assert EndFirst(mid, n).bios == end.bios;
    RecalcTwice(r.sectors, m, n, FirstSectors(mid.bios), FirstSectors(end.bios));
  }

  lemma RecalcTwice(s: Sectors, m: nat, n: nat, cur: int, cur': int)
    ensures var two, one := Recalc(Recalc(s, m / 512, cur), n / 512, cur'), Recalc(s, (m + n) / 512, cur');
            && (two.hardSector == one.hardSector <==> m % 512 + n % 512 < 512)
            && (two.hardNr == one.hardNr <==> m % 512 + n % 512 < 512)
            && (s.nr >= s.current ==> (two == one <==> m % 512 + n % 512 < 512))
  {
    Carry(m, n);
    RecalcAdds(s, m / 512, n / 512, cur, cur');
    RecalcHard(Recalc(s, m / 512, cur), n / 512, cur');
    RecalcHard(s, m / 512, cur);
    RecalcHard(s, (m + n) / 512, cur');
  }

  lemma RecalcHard(s: Sectors, n: int, cur: int)
    ensures Recalc(s, n, cur).hardSector == s.hardSector + n && Recalc(s, n, cur).hardNr == s.hardNr - n
  {
  }

  /** Recalculating for m and then for n more sectors is recalculating once. */
  lemma RecalcAdds(s: Sectors, m: nat, n: nat, cur: int, cur': int)
    ensures s.nr >= s.current ==> Recalc(Recalc(s, m, cur), n, cur') == Recalc(s, m + n, cur')
  {
  }

  lemma Carry(m: nat, n: nat)
    ensures m / 512 + n / 512 == (m + n) / 512 <==> m % 512 + n % 512 < 512
  {
  }

  /** The part of a request that has been looked at: nr bytes are still to be ended, of the first bio
      `next` bvecs with `bytes` bytes are done but not reported yet. */
  predicate Scanned(bios: seq<Bio>, next: nat, bytes: nat, nr: nat) {
    && AllValid(bios)
    && (bios == [] ==> next == 0 && bytes == 0)
    && (bios != [] ==>
          && bios[0].idx + next < |bios[0].vecs| && bytes == Sum(bios[0].vecs[bios[0].idx..][..next])
          && (next > 0 ==> bytes + nr < bios[0].size))
  }

  /** Ending n bytes of `all` is: reporting `said`, then ending `left` bytes of bios. */
  ghost predicate Amounts(all: seq<View>, n: nat, said: seq<Report>, bios: seq<Bio>, left: nat)
    requires AllValid(bios)
  {
    var d := Consume(Views(bios), left);
    Consume(all, n) == Done(d.rest, said + d.reports)
  }

  lemma NextBio(all: seq<View>, n: nat, said: seq<Report>, bios: seq<Bio>, next: nat, bytes: nat, nr: nat)
    requires Scanned(bios, next, bytes, nr) && bios != [] && nr >= bios[0].size
    requires Amounts(all, n, said, bios, nr + bytes)
    ensures next == 0 && bytes == 0
    ensures AllValid(bios[1..]) && Scanned(bios[1..], 0, 0, nr - bios[0].size)
    ensures Amounts(all, n, said + [Report(bios[0].id, bios[0].size)], bios[1..], nr - bios[0].size)
  {
    var v := Views(bios);
    assert v[1..] == Views(bios[1..]);
    var d := Consume(v[1..], nr - bios[0].size);
    assert said + ([Report(bios[0].id, bios[0].size)] + d.reports) == said + [Report(bios[0].id, bios[0].size)] + d.reports;
    if bios[1..] != [] {
      assert bios[1].vecs[bios[1].idx..][..0] == [];
    }
  }

  lemma NextVec(bios: seq<Bio>, next: nat, bytes: nat, nr: nat)
    requires Scanned(bios, next, bytes, nr) && bios != [] && nr < bios[0].size
    requires bios[0].vecs[bios[0].idx + next].len <= nr
    ensures var len := bios[0].vecs[bios[0].idx + next].len;
            len > 0 && Scanned(bios, next + 1, bytes + len, nr - len)
  {
    var left := bios[0].vecs[bios[0].idx..];
    assert left[next] == bios[0].vecs[bios[0].idx + next];
    assert next == 0 ==> left[..next] == [];
    SumAppend(left, next);
  }

  lemma CutViews(bios: seq<Bio>, b: Bio)
    requires AllValid(bios) && bios != [] && b.Valid()
    ensures AllValid([b] + bios[1..]) && Views([b] + bios[1..]) == [b.Left()] + Views(bios)[1..]
  {
  }

  lemma CutBio(all: seq<View>, n: nat, said: seq<Report>, bios: seq<Bio>, next: nat, bytes: nat, r: nat)
    requires Scanned(bios, next, bytes, r) && bios != [] && r < bios[0].vecs[bios[0].idx + next].len
    requires Amounts(all, n, said, bios, bytes + r)
    ensures bytes + r < bios[0].size
    ensures var cut := [Cut(bios[0], next, bytes + r, r)] + bios[1..];
            && AllValid(cut) && Consume(all, n).rest == Views(cut)
            && Consume(all, n).reports == said + (if bytes + r == 0 then [] else [Report(bios[0].id, bytes + r)])
  {
    CutIsAdvance(bios[0], next, r);
    CutViews(bios, Cut(bios[0], next, bytes + r, r));
    AmountsWithin(all, n, said, bios, bytes + r);
  }

  lemma AmountsWithin(all: seq<View>, n: nat, said: seq<Report>, bios: seq<Bio>, k: nat)
    requires AllValid(bios) && bios != [] && k < bios[0].size && Amounts(all, n, said, bios, k)
    ensures Consume(all, n).rest == [View(bios[0].id, Advance(bios[0].vecs[bios[0].idx..], k))] + Views(bios)[1..]
    ensures Consume(all, n).reports == said + (if k == 0 then [] else [Report(bios[0].id, k)])
  {
    ConsumeWithin(Views(bios), k);
  }

  lemma ConsumeWithin(bios: seq<View>, n: nat)
    requires bios != [] && n < Sum(bios[0].vecs)
    ensures Consume(bios, n)
         == Done([View(bios[0].id, Advance(bios[0].vecs, n))] + bios[1..], if n == 0 then [] else [Report(bios[0].id, n)])
  {
  }

  class Request {
    var bios: seq<Bio>
    var sectors: Sectors
    ghost var reports: seq<Report>

    ghost function Now(): Req
      reads this
      requires AllValid(bios)
    {
      Req(Views(bios), sectors)
    }

    /** One turn of the loop; `stop` is its break. Afterwards nr bytes are left over, and of the first
        bio `next` bvecs with bioBytes bytes are done. */
    method Scan(nr0: nat, bioBytes0: nat, next0: nat, ghost all: seq<View>, ghost n: nat, ghost r0: seq<Report>,
                ghost said0: seq<Report>) returns (stop: bool, nr: nat, bioBytes: nat, next: nat, ghost said: seq<Report>)
      requires bios != [] && Scanned(bios, next0, bioBytes0, nr0) && Amounts(all, n, said0, bios, nr0 + bioBytes0)
      requires reports == r0 + said0
      modifies this`bios, this`reports
      ensures Scanned(bios, next, bioBytes, nr) && Amounts(all, n, said, bios, nr + bioBytes) && reports == r0 + said
      ensures |bios| < old(|bios|) || (bios == old(bios) && (nr < nr0 || (stop && nr == nr0)))
      ensures stop ==> bios != [] && nr < bios[0].vecs[bios[0].idx + next].len
    {
      var bio := bios[0];
      stop, nr, bioBytes, next, said := false, nr0, bioBytes0, next0, said0;
      if nr >= bio.size {
        NextBio(all, n, said, bios, next, bioBytes, nr);
        bios := bios[1..];
        said := said + [Report(bio.id, bio.size)];
        reports := reports + [Report(bio.id, bio.size)];
        nr, next, bioBytes := nr - bio.size, 0, 0;
      } else {
        var nbytes := bio.vecs[bio.idx + next].len;
        if nbytes > nr {
          stop := true;
          return;
        }
        NextVec(bios, next, bioBytes, nr);
        nr, next, bioBytes := nr - nbytes, next + 1, bioBytes + nbytes;
      }
      stop := bios != [] && nr == 0;
      assert stop ==> bios[0].vecs[bios[0].idx..][next].len > 0;
    }

    /** __end_that_request_first: bios and bvecs are updated in place, bio_endio is told about every
        byte; the result is 0 when the request is done. */
    method EndThatRequestFirst(nrBytes: nat) returns (more: bool)
      requires AllValid(bios)
      modifies this
      ensures AllValid(bios) && Now() == EndFirst(old(Now()), nrBytes)
      ensures more <==> bios != []
      ensures reports == old(reports) + Consume(old(Now()).bios, nrBytes).reports
    {
      ghost var all, r0 := Views(bios), reports;
      var nr: nat, bioBytes: nat, next: nat := nrBytes, 0, 0;
      ghost var said: seq<Report> := [];
      assert bios != [] ==> bios[0].vecs[bios[0].idx..][..0] == [];
      assert [] + Consume(all, nrBytes).reports == Consume(all, nrBytes).reports;
      assert reports == r0 + said;
      var stop := false;
      while bios != [] && !stop
        invariant Scanned(bios, next, bioBytes, nr) && Amounts(all, nrBytes, said, bios, nr + bioBytes)
        invariant reports == r0 + said && sectors == old(sectors)
        invariant stop ==> bios != [] && nr < bios[0].vecs[bios[0].idx + next].len
        decreases |bios|, nr, !stop
      {
        stop, nr, bioBytes, next, said := Scan(nr, bioBytes, next, all, nrBytes, r0, said);
      }
      more := bios != [];
      if more {
        Finish(nrBytes, nr, bioBytes, next, all, r0, said);
      }
    }

    /** The update after the loop, when something is left. */
    method Finish(nrBytes: nat, nr: nat, bioBytes: nat, next: nat, ghost all: seq<View>, ghost r0: seq<Report>,
                  ghost said: seq<Report>)
      requires bios != [] && Scanned(bios, next, bioBytes, nr) && Amounts(all, nrBytes, said, bios, nr + bioBytes)
      requires nr < bios[0].vecs[bios[0].idx + next].len && reports == r0 + said
      modifies this
      ensures bios != [] && AllValid(bios) && Views(bios) == Consume(all, nrBytes).rest
      ensures sectors == EndFirst(Req(all, old(sectors)), nrBytes).sectors
      ensures reports == r0 + Consume(all, nrBytes).reports
    {
      CutBio(all, nrBytes, said, bios, next, bioBytes, nr);
      if bioBytes + nr != 0 {
        reports := reports + [Report(bios[0].id, bioBytes + nr)];
      }
      bios := [Cut(bios[0], next, bioBytes + nr, nr)] + bios[1..];
      sectors := Recalc(sectors, nrBytes / 512, bios[0].vecs[bios[0].idx].len / 512);
    }
  }
}
