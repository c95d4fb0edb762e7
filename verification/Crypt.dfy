/** crypto/cipher.c: crypt(), crypt_fast() and crypt_slow() over two scatterlists. */
module Crypt {
  import opened Sequences
  import opened CipherModes
  import opened CipherProcess
  import opened ScatterWalk

  ghost predicate InRange(a: seq<nat>, n: nat) {
    forall k | 0 <= k < |a| :: a[k] < n
  }

  ghost predicate Distinct(a: seq<nat>) {
    forall i, j | 0 <= i < j < |a| :: a[i] != a[j]
  }

  ghost predicate Apart(a: seq<nat>, b: seq<nat>) {
    forall i, j | 0 <= i < |a| && 0 <= j < |b| :: a[i] != b[j]
  }

  /** The bytes a list of addresses spells out. */
  ghost function Gather(m: seq<byte>, a: seq<nat>): (r: seq<byte>)
    requires InRange(a, |m|)
    ensures |r| == |a| && forall k | 0 <= k < |a| :: r[k] == m[a[k]]
  {
    seq(|a|, k requires 0 <= k < |a| => m[a[k]])
  }

  /** m1 is m0 with v written to the addresses a, byte by byte, and nothing else changed. */
  ghost predicate Wrote(m0: seq<byte>, m1: seq<byte>, a: seq<nat>, v: seq<byte>) {
    && |m1| == |m0| && |a| == |v| && InRange(a, |m0|)
    && (forall k | 0 <= k < |a| :: m1[a[k]] == v[k])
    && (forall i | 0 <= i < |m0| && i !in a :: m1[i] == m0[i])
  }

  lemma WroteThen(m0: seq<byte>, m1: seq<byte>, m2: seq<byte>, a: seq<nat>, v: seq<byte>, b: seq<nat>, w: seq<byte>)
    requires Wrote(m0, m1, a, v) && Wrote(m1, m2, b, w) && Apart(a, b)
    ensures Wrote(m0, m2, a + b, v + w)
  {
    forall k | 0 <= k < |a + b|
      ensures m2[(a + b)[k]] == (v + w)[k]
    {
      if k < |a| {
        assert a[k] !in b;
      }
    }
    forall i | 0 <= i < |m0| && i !in a + b
      ensures m2[i] == m0[i]
    {
      assert forall k | 0 <= k < |a| :: (a + b)[k] == a[k];
      assert forall k | 0 <= k < |b| :: (a + b)[|a| + k] == b[k];
      assert i !in a && i !in b;
    }
  }

  lemma WroteSplice(m0: seq<byte>, d: nat, v: seq<byte>)
    requires d + |v| <= |m0|
    ensures Wrote(m0, Splice(m0, d, v), Range(d, |v|), v)
  {
    var a := Range(d, |v|);
    var m1 := Splice(m0, d, v);
    forall i | 0 <= i < |m0|
      ensures i in a || m1[i] == m0[i]
    {
      if d <= i < d + |v| {
        assert a[i - d] == i;
      }
    }
  }

  /** The next n bytes of a walk that stays within its page are consecutive in memory. */
  lemma ChunkIsRange(rem: seq<nat>, a: seq<nat>, o: nat, next: nat, d: nat, size: nat)
    requires o < next <= |a| && |a| - o <= |rem| && rem[..|a| - o] == a[o..]
    requires forall k | 0 <= k < next - o :: rem[k] == d + k
    requires InRange(a, size)
    ensures a[o..next] == Range(d, next - o) && d + (next - o) <= size
    ensures forall k | o <= k < next :: a[k] == d + (k - o)
  {
    assert forall k | 0 <= k < next - o :: a[o..][k] == rem[..|a| - o][k] == rem[k];
    assert a[next - 1] == a[o..][next - 1 - o];
  }

  lemma DropTake(rem: seq<nat>, a: seq<nat>, o: nat, next: nat)
    requires o <= next <= |a| && |a| - o <= |rem| && rem[..|a| - o] == a[o..]
    ensures rem[next - o..][..|a| - next] == a[next..]
  {
    assert a[o..][next - o..] == a[next..];
    assert rem[..|a| - o][next - o..] == rem[next - o..][..|a| - next];
  }

  /** The walk stands at byte o of the addresses a. */
  ghost predicate At(walk: Walk, a: seq<nat>, o: nat)
    reads walk
  {
    && walk.Valid() && o <= |a| && |a| - o <= |walk.Remaining()|
    && walk.Remaining()[..|a| - o] == a[o..]
  }

  /** scatterwalk_advance and the page turn, in terms of the position in the list. */
  method Move(walk: Walk, ghost a: seq<nat>, ghost o: nat, n: nat)
    requires At(walk, a, o) && n <= walk.lenThisPage && o + n <= |a|
    modifies walk
    ensures At(walk, a, o + n) && walk.lenThisPage == old(walk.lenThisPage) - n
  {
    DropTake(walk.Remaining(), a, o, o + n);
    walk.Advance(n);
  }

  method Turn(walk: Walk, ghost a: seq<nat>, ghost o: nat)
    requires At(walk, a, o) && o + walk.lenThisPage < |a|
    modifies walk
    ensures At(walk, a, o + old(walk.lenThisPage)) && walk.lenThisPage > 0
  {
    DropTake(walk.Remaining(), a, o, o + walk.lenThisPage);
    walk.PageDone(true);
  }

  /** scatterwalk_copychunks with out = 0: the bytes at the addresses a[at..at + nbytes] into buf.
      The walk is left in the last page, `left` bytes before the end. */
  method CopyIn(mem: array<byte>, buf: array<byte>, walk: Walk, ghost a: seq<nat>, ghost at: nat, nbytes: nat)
      returns (left: nat)
    requires At(walk, a, at) && walk.lenThisPage > 0 && 0 < nbytes <= |a| - at && InRange(a, mem.Length)
    requires buf != mem && buf.Length == nbytes
    modifies walk, buf
    ensures left <= nbytes && left <= walk.lenThisPage && At(walk, a, at + nbytes - left)
    ensures buf[..] == Gather(mem[..], a[at..at + nbytes])
  {
    var o := 0;
    while nbytes - o > walk.lenThisPage
      invariant o < nbytes && At(walk, a, at + o) && walk.lenThisPage > 0
      invariant forall k | 0 <= k < o :: buf[k] == mem[a[at + k]]
      decreases nbytes - o
    {
      var next := o + walk.lenThisPage;
      CopyFrom(mem, buf, walk, a, at, o, next);
      Turn(walk, a, at + o);
      o := next;
    }
    CopyFrom(mem, buf, walk, a, at, o, nbytes);
    left := nbytes - o;
  }

  /** memcpy_dir into buf + o from the mapped page. */
  method CopyFrom(mem: array<byte>, buf: array<byte>, walk: Walk, ghost a: seq<nat>, ghost at: nat, o: nat, next: nat)
    requires At(walk, a, at + o) && o < next <= buf.Length && next - o <= walk.lenThisPage
    requires at + buf.Length <= |a| && InRange(a, mem.Length) && buf != mem
    requires forall k | 0 <= k < o :: buf[k] == mem[a[at + k]]
    modifies buf
    ensures forall k | 0 <= k < next :: buf[k] == mem[a[at + k]]
  {
    var d := walk.Data();
    ChunkIsRange(walk.Remaining(), a, at + o, at + next, d, mem.Length);
    ghost var b0 := buf[..];
    forall k | o <= k < next {
      buf[k] := mem[d + (k - o)];
    }
    forall k | 0 <= k < next
      ensures buf[k] == mem[a[at + k]]
    {
      if k < o {
        assert buf[k] == b0[k];
      } else {
        assert a[at + k] == d + (k - o);
      }
    }
  }

  /** scatterwalk_copychunks with out = 1: buf to the addresses a[at..at + nbytes]. */
  method CopyOut(mem: array<byte>, buf: array<byte>, walk: Walk, ghost a: seq<nat>, ghost at: nat, nbytes: nat)
      returns (left: nat)
    requires At(walk, a, at) && walk.lenThisPage > 0 && 0 < nbytes <= |a| - at && InRange(a, mem.Length)
    requires Distinct(a) && buf != mem && buf.Length == nbytes
    modifies walk, mem
    ensures left <= nbytes && left <= walk.lenThisPage && At(walk, a, at + nbytes - left)
    ensures Wrote(old(mem[..]), mem[..], a[at..at + nbytes], buf[..])
  {
    ghost var m0, u := mem[..], buf[..];
    var o := 0;
    while nbytes - o > walk.lenThisPage
      invariant o < nbytes && At(walk, a, at + o) && walk.lenThisPage > 0
      invariant mem.Length == |m0| && Wrote(m0, mem[..], a[at..at + o], u[..o])
      decreases nbytes - o
    {
      o := CopyPage(mem, buf, walk, a, m0, u, at, o);
    }
    CopyTo(mem, buf, walk, a, m0, u, at, o, nbytes);
    assert u[..nbytes] == u;
    left := nbytes - o;
  }

  /** memcpy_dir from buf + o to the mapped page. */
  method CopyTo(mem: array<byte>, buf: array<byte>, walk: Walk, ghost a: seq<nat>, ghost m0: seq<byte>, ghost u: seq<byte>,
                ghost at: nat, o: nat, next: nat)
    requires At(walk, a, at + o) && o < next <= buf.Length && next - o <= walk.lenThisPage
    requires at + buf.Length <= |a| && InRange(a, mem.Length) && Distinct(a) && buf != mem && u == buf[..]
    requires Wrote(m0, mem[..], a[at..at + o], u[..o])
    modifies mem
    ensures Wrote(m0, mem[..], a[at..at + next], u[..next])
  {
    var d := walk.Data();
    ghost var m1 := mem[..];
    ChunkIsRange(walk.Remaining(), a, at + o, at + next, d, mem.Length);
    assert buf[o..next] == u[o..next];
    StoreAt(mem, d, buf[o..next]);
    WroteMore(m0, m1, mem[..], a, at, o, next, u);
  }

  /** The rest of the page, and on to the next one. */
  method CopyPage(mem: array<byte>, buf: array<byte>, walk: Walk, ghost a: seq<nat>, ghost m0: seq<byte>,
                  ghost u: seq<byte>, ghost at: nat, o: nat) returns (next: nat)
    requires At(walk, a, at + o) && 0 < walk.lenThisPage < buf.Length - o
    requires at + buf.Length <= |a| && InRange(a, mem.Length) && Distinct(a) && buf != mem && u == buf[..]
    requires Wrote(m0, mem[..], a[at..at + o], u[..o])
    modifies walk, mem
    ensures o < next < buf.Length && At(walk, a, at + next) && walk.lenThisPage > 0
    ensures Wrote(m0, mem[..], a[at..at + next], u[..next])
  {
    next := o + walk.lenThisPage;
    CopyTo(mem, buf, walk, a, m0, u, at, o, next);
    ghost var m1 := mem[..];
    Turn(walk, a, at + o);
    assert mem[..] == m1;
  }

  method StoreAt(mem: array<byte>, d: nat, v: seq<byte>)
    requires d + |v| <= mem.Length
    modifies mem
    ensures Wrote(old(mem[..]), mem[..], Range(d, |v|), v)
  {
    Store(mem, d, v);
    WroteSplice(old(mem[..]), d, v);
  }

  lemma WroteMore(m0: seq<byte>, m1: seq<byte>, m2: seq<byte>, a: seq<nat>, at: nat, o: nat, next: nat, u: seq<byte>)
    requires o <= next <= |u| && at + next <= |a| && Distinct(a)
    requires Wrote(m0, m1, a[at..at + o], u[..o]) && Wrote(m1, m2, a[at + o..at + next], u[o..next])
    ensures Wrote(m0, m2, a[at..at + next], u[..next])
  {
    assert a[at..at + o] + a[at + o..at + next] == a[at..at + next];
    assert u[..o] + u[o..next] == u[..next];
    WroteThen(m0, m1, m2, a[at..at + o], u[..o], a[at + o..at + next], u[o..next]);
  }

  /** Source and destination name the same bytes, or have none in common. */
  ghost predicate SameOrDisjoint(ain: seq<nat>, aout: seq<nat>) {
    ain == aout || Apart(ain, aout)
  }

  /** What one call of crypt() is about: the transformation, the memory and IV it starts from, the
      addresses of the source and destination bytes, and the message. */
  datatype Task = Task(desc: Desc, m0: seq<byte>, iv0: seq<byte>, ain: seq<nat>, aout: seq<nat>, x: seq<byte>) {
    ghost predicate Valid() {
      && desc.Valid() && |iv0| == desc.bsize
      && |ain| == |aout| && InRange(ain, |m0|) && InRange(aout, |m0|)
      && Distinct(aout) && SameOrDisjoint(ain, aout)
      && x == Gather(m0, ain)
    }

    ghost function CodedTo(k: nat): (c: Coded)
      requires Valid() && k <= |x| && Whole(k, desc.bsize)
      ensures |c.out| == k && |c.iv| == desc.bsize
    {
      Code(desc, iv0, x[..k])
    }

    /** The first k bytes of the message are coded and in place; the rest of memory is untouched. */
    ghost predicate Progress(m: seq<byte>, iv: seq<byte>, k: nat)
      requires Valid()
    {
      && k <= |x| && Whole(k, desc.bsize)
      && iv == CodedTo(k).iv
      && Wrote(m0, m, aout[..k], CodedTo(k).out)
    }

    /** What has not been coded yet is still readable, even in place. */
    lemma Unread(m: seq<byte>, iv: seq<byte>, k: nat, next: nat)
      requires Valid() && Progress(m, iv, k) && k <= next <= |x|
      ensures InRange(ain[k..next], |m|) && Gather(m, ain[k..next]) == x[k..next]
    {
      var a := ain[k..next];
      forall i | 0 <= i < next - k
        ensures a[i] < |m| && m[a[i]] == x[k + i]
      {
        assert a[i] == ain[k + i];
        NotWritten(ain, aout, k, k + i);
      }
    }

    lemma ProgressNext(m1: seq<byte>, iv1: seq<byte>, m2: seq<byte>, iv2: seq<byte>, k: nat, next: nat)
      requires Valid() && Progress(m1, iv1, k)
      requires k <= next <= |x| && Whole(next - k, desc.bsize)
      requires iv2 == Code(desc, iv1, x[k..next]).iv
      requires Wrote(m1, m2, aout[k..next], Code(desc, iv1, x[k..next]).out)
      ensures Progress(m2, iv2, next)
    {
      assert x[..k] + x[k..next] == x[..next];
      CodeSplit(desc, iv0, x[..k], x[k..next]);
      WroteThen(m0, m1, m2, aout[..k], CodedTo(k).out, aout[k..next], Code(desc, iv1, x[k..next]).out);
      assert aout[..k] + aout[k..next] == aout[..next];
    }
  }

  lemma NotWritten(ain: seq<nat>, aout: seq<nat>, k: nat, i: nat)
    requires |ain| == |aout| && Distinct(aout) && SameOrDisjoint(ain, aout) && k <= i < |ain|
    ensures ain[i] !in aout[..k]
  {
  }

  /** crypt_slow: one block through stack buffers. */
  method CryptSlow(desc: Desc, iv: array<byte>, mem: array<byte>, win: Walk, wout: Walk, ghost t: Task, ghost k: nat)
      returns (n: nat, ghost k': nat)
    requires t.Valid() && desc == t.desc && mem.Length == |t.m0| && iv.Length == desc.bsize && iv != mem
    requires t.Progress(mem[..], iv[..], k) && k + desc.bsize <= |t.x|
    requires win != wout && At(win, t.ain, k) && At(wout, t.aout, k) && win.lenThisPage > 0 && wout.lenThisPage > 0
    modifies iv, mem, win, wout
    ensures n == desc.bsize && k' == k + n && t.Progress(mem[..], iv[..], k')
    ensures At(win, t.ain, k') && At(wout, t.aout, k')
  {
    n := desc.bsize;
    k' := k + n;
    ghost var m1, iv1 := mem[..], iv[..];
    t.Unread(m1, iv1, k, k');
    var src := ReadBlock(mem, win, t.ain, k, n, k');
    var dst := CodeBuffer(desc, iv, src, t.x[k..k']);
    WriteBlock(mem, dst, wout, t.aout, k, n, k');
    t.ProgressNext(m1, iv1, mem[..], iv[..], k, k');
  }

  method ReadBlock(mem: array<byte>, walk: Walk, ghost a: seq<nat>, ghost k: nat, n: nat, ghost next: nat)
      returns (src: array<byte>)
    requires At(walk, a, k) && walk.lenThisPage > 0 && 0 < n && next == k + n <= |a| && InRange(a, mem.Length)
    modifies walk
    ensures fresh(src) && src.Length == n && src[..] == Gather(mem[..], a[k..next])
    ensures At(walk, a, next)
  {
    src := new byte[n];
    var left := CopyIn(mem, src, walk, a, k, n);
    Move(walk, a, k + n - left, left);
  }

  method WriteBlock(mem: array<byte>, dst: array<byte>, walk: Walk, ghost a: seq<nat>, ghost k: nat, n: nat,
                    ghost next: nat)
    requires At(walk, a, k) && walk.lenThisPage > 0 && 0 < n && next == k + n <= |a| && InRange(a, mem.Length)
    requires Distinct(a) && dst != mem && dst.Length == n
    modifies walk, mem
    ensures Wrote(old(mem[..]), mem[..], a[k..next], dst[..])
    ensures At(walk, a, next)
  {
    var left := CopyOut(mem, dst, walk, a, k, n);
    ghost var m1 := mem[..];
    Move(walk, a, next - left, left);
    assert mem[..] == m1;
  }

  /** prfn over one block in buffers of its own. */
  method CodeBuffer(desc: Desc, iv: array<byte>, src: array<byte>, ghost x: seq<byte>) returns (dst: array<byte>)
    requires desc.Valid() && iv.Length == src.Length == desc.bsize && iv != src && x == src[..]
    modifies iv
    ensures fresh(dst) && dst.Length == desc.bsize && Whole(desc.bsize, desc.bsize)
    ensures iv[..] == Code(desc, old(iv[..]), x).iv && dst[..] == Code(desc, old(iv[..]), x).out
  {
    dst := new byte[desc.bsize];
    ghost var m0 := dst[..];
    assert src[0..0 + desc.bsize] == x;
    var done := Process(desc, iv, dst, 0, src, 0, desc.bsize);
    WholeSmall(done, desc.bsize);
    assert x[..done] == x;
    SpliceAll(m0, Code(desc, old(iv[..]), x).out);
  }

  lemma WholeSmall(n: nat, b: nat)
    requires b > 0 && 0 < n <= b && Whole(n, b)
    ensures n == b
  {
  }

  /** crypt_fast: as many whole blocks as fit in what is left of both pages, directly or through the
      bounce page tmp. */
  method CryptFast(desc: Desc, iv: array<byte>, mem: array<byte>, win: Walk, wout: Walk, nbytes: nat, tmp: array?<byte>,
                   ghost t: Task, ghost k: nat) returns (n: nat, ghost k': nat)
    requires t.Valid() && desc == t.desc && mem.Length == |t.m0| && iv.Length == desc.bsize && iv != mem
    requires t.Progress(mem[..], iv[..], k) && desc.bsize <= nbytes && k + nbytes <= |t.x|
    requires win != wout && At(win, t.ain, k) && At(wout, t.aout, k)
    requires nbytes <= win.lenThisPage && nbytes <= wout.lenThisPage
    requires tmp != null ==> tmp != mem && tmp != iv && tmp.Length == PAGE_CACHE_SIZE
    modifies iv, mem, win, wout, tmp
    ensures 0 < n <= nbytes && k' == k + n <= |t.x| && t.Progress(mem[..], iv[..], k')
    ensures At(win, t.ain, k') && At(wout, t.aout, k')
  {
    var s, d := Locate(win, wout, nbytes, t, k, mem.Length);
    n := FastChunk(desc, iv, mem, d, s, nbytes, tmp, t, k);
    k' := k + n;
    ghost var m2, iv2 := mem[..], iv[..];
    MoveBoth(win, wout, t, k, n);
    assert mem[..] == m2 && iv[..] == iv2;
  }

  /** Where the next nbytes are, in the mapped pages. */
  method Locate(win: Walk, wout: Walk, nbytes: nat, ghost t: Task, ghost k: nat, ghost size: nat) returns (s: nat, d: nat)
    requires At(win, t.ain, k) && At(wout, t.aout, k) && InRange(t.ain, size) && InRange(t.aout, size)
    requires 0 < nbytes <= win.lenThisPage && nbytes <= wout.lenThisPage && k + nbytes <= |t.ain| && k + nbytes <= |t.aout|
    ensures t.ain[k..k + nbytes] == Range(s, nbytes) && s + nbytes <= size
    ensures t.aout[k..k + nbytes] == Range(d, nbytes) && d + nbytes <= size
  {
    s := win.Data();
    d := if win.page == wout.page && win.offset == wout.offset then s else wout.Data();
    ChunkIsRange(win.Remaining(), t.ain, k, k + nbytes, s, size);
    ChunkIsRange(wout.Remaining(), t.aout, k, k + nbytes, d, size);
  }

  method FastChunk(desc: Desc, iv: array<byte>, mem: array<byte>, d: nat, s: nat, nbytes: nat, tmp: array?<byte>,
                   ghost t: Task, ghost k: nat) returns (n: nat)
    requires t.Valid() && desc == t.desc && mem.Length == |t.m0| && iv.Length == desc.bsize && iv != mem
    requires t.Progress(mem[..], iv[..], k) && desc.bsize <= nbytes && k + nbytes <= |t.x|
    requires t.ain[k..k + nbytes] == Range(s, nbytes) && s + nbytes <= mem.Length
    requires t.aout[k..k + nbytes] == Range(d, nbytes) && d + nbytes <= mem.Length
    requires tmp != null ==> tmp != mem && tmp != iv && nbytes <= tmp.Length
    modifies iv, mem, tmp
    ensures 0 < n <= nbytes && k + n <= |t.x| && t.Progress(mem[..], iv[..], k + n)
  {
    if tmp != null {
      n := FastBounced(desc, iv, mem, d, s, nbytes, tmp, t, k);
    } else {
      n := FastDirect(desc, iv, mem, d, s, nbytes, t, k);
    }
  }

  method MoveBoth(win: Walk, wout: Walk, ghost t: Task, ghost k: nat, n: nat)
    requires win != wout && At(win, t.ain, k) && At(wout, t.aout, k)
    requires n <= win.lenThisPage && n <= wout.lenThisPage && k + n <= |t.ain| && k + n <= |t.aout|
    modifies win, wout
    ensures At(win, t.ain, k + n) && At(wout, t.aout, k + n)
  {
    Move(win, t.ain, k, n);
    Move(wout, t.aout, k, n);
  }

  /** prfn straight from page to page. */
  method FastDirect(desc: Desc, iv: array<byte>, mem: array<byte>, d: nat, s: nat, nbytes: nat, ghost t: Task, ghost k: nat)
      returns (n: nat)
    requires t.Valid() && desc == t.desc && mem.Length == |t.m0| && iv.Length == desc.bsize && iv != mem
    requires t.Progress(mem[..], iv[..], k) && desc.bsize <= nbytes && k + nbytes <= |t.x|
    requires t.ain[k..k + nbytes] == Range(s, nbytes) && s + nbytes <= mem.Length
    requires t.aout[k..k + nbytes] == Range(d, nbytes) && d + nbytes <= mem.Length
    modifies iv, mem
    ensures 0 < n <= nbytes && k + n <= |t.x| && t.Progress(mem[..], iv[..], k + n)
  {
    ghost var m1, iv1, x := mem[..], iv[..], mem[s..s + nbytes];
    RangesApart(t, k, nbytes, s, d);
    n := Process(desc, iv, mem, d, mem, s, nbytes);
    WroteSplice(m1, d, Code(desc, iv1, x[..n]).out);
    ChunkDone(t, m1, iv1, mem[..], iv[..], k, nbytes, n, s, d);
  }

  /** prfn in the bounce page, with a copy before and after. */
  method FastBounced(desc: Desc, iv: array<byte>, mem: array<byte>, d: nat, s: nat, nbytes: nat, tmp: array<byte>,
                     ghost t: Task, ghost k: nat) returns (n: nat)
    requires t.Valid() && desc == t.desc && mem.Length == |t.m0| && iv.Length == desc.bsize && iv != mem
    requires t.Progress(mem[..], iv[..], k) && desc.bsize <= nbytes && k + nbytes <= |t.x|
    requires t.ain[k..k + nbytes] == Range(s, nbytes) && s + nbytes <= mem.Length
    requires t.aout[k..k + nbytes] == Range(d, nbytes) && d + nbytes <= mem.Length
    requires tmp != mem && tmp != iv && nbytes <= tmp.Length
    modifies iv, mem, tmp
    ensures 0 < n <= nbytes && k + n <= |t.x| && t.Progress(mem[..], iv[..], k + n)
  {
    ghost var m1, iv1, x := mem[..], iv[..], mem[s..s + nbytes];
    Store(tmp, 0, mem[s..s + nbytes]);
    assert tmp[..nbytes] == x;
    n := ProcessIn(desc, iv, tmp, nbytes, x);
    ghost var iv2 := iv[..];
    StoreAt(mem, d, tmp[..n]);
    assert iv[..] == iv2;
    ChunkDone(t, m1, iv1, mem[..], iv2, k, nbytes, n, s, d);
  }

  /** prfn in place at the start of a page. */
  method ProcessIn(desc: Desc, iv: array<byte>, tmp: array<byte>, nbytes: nat, ghost x: seq<byte>) returns (n: nat)
    requires desc.Valid() && iv.Length == desc.bsize <= nbytes <= tmp.Length && iv != tmp && x == tmp[..nbytes]
    modifies iv, tmp
    ensures 0 < n <= nbytes && Whole(n, desc.bsize)
    ensures iv[..] == Code(desc, old(iv[..]), x[..n]).iv && tmp[..n] == Code(desc, old(iv[..]), x[..n]).out
  {
    ghost var m0, iv0 := tmp[..], iv[..];
    assert tmp[0..0 + nbytes] == x;
    n := Process(desc, iv, tmp, 0, tmp, 0, nbytes);
    SpliceFront(m0, Code(desc, iv0, x[..n]).out);
    assert tmp[..n] == tmp[..][..n];
  }

  lemma RangeTake(a: seq<nat>, k: nat, nbytes: nat, n: nat, d: nat)
    requires k + nbytes <= |a| && n <= nbytes && a[k..k + nbytes] == Range(d, nbytes)
    ensures a[k..k + n] == Range(d, n)
  {
    assert a[k..k + n] == a[k..k + nbytes][..n];
  }

  /** n bytes from s on have been coded and are at d. */
  lemma ChunkDone(t: Task, m1: seq<byte>, iv1: seq<byte>, m2: seq<byte>, iv2: seq<byte>, k: nat, nbytes: nat, n: nat,
                  s: nat, d: nat)
    requires t.Valid() && t.Progress(m1, iv1, k) && k + nbytes <= |t.x| && n <= nbytes && Whole(n, t.desc.bsize)
    requires t.ain[k..k + nbytes] == Range(s, nbytes) && s + nbytes <= |m1|
    requires t.aout[k..k + nbytes] == Range(d, nbytes)
    requires iv2 == Code(t.desc, iv1, m1[s..s + nbytes][..n]).iv
    requires Wrote(m1, m2, Range(d, n), Code(t.desc, iv1, m1[s..s + nbytes][..n]).out)
    ensures t.Progress(m2, iv2, k + n)
  {
    Fetched(t, m1, iv1, k, nbytes, n, s);
    RangeTake(t.aout, k, nbytes, n, d);
    t.ProgressNext(m1, iv1, m2, iv2, k, k + n);
  }

  /** The chunk that prfn reads is the corresponding part of the message. */
  lemma Fetched(t: Task, m: seq<byte>, iv: seq<byte>, k: nat, nbytes: nat, n: nat, s: nat)
    requires t.Valid() && t.Progress(m, iv, k) && k + nbytes <= |t.x| && n <= nbytes && s + nbytes <= |m|
    requires t.ain[k..k + nbytes] == Range(s, nbytes)
    ensures m[s..s + nbytes][..n] == t.x[k..k + n]
  {
    t.Unread(m, iv, k, k + nbytes);
    assert m[s..s + nbytes] == Gather(m, Range(s, nbytes));
    assert t.x[k..k + nbytes][..n] == t.x[k..k + n];
  }

  lemma RangesApart(t: Task, k: nat, n: nat, s: nat, d: nat)
    requires t.Valid() && 0 < n && k + n <= |t.x|
    requires t.ain[k..k + n] == Range(s, n) && t.aout[k..k + n] == Range(d, n)
    ensures s == d || s + n <= d || d + n <= s
  {
    var ci, co := t.ain[k..k + n], t.aout[k..k + n];
    if t.ain == t.aout {
      assert ci[0] == co[0];
    } else {
      assert forall i | 0 <= i < n :: ci[i] == t.ain[k + i] != t.aout[k] == co[0];
      assert forall i | 0 <= i < n :: co[i] == t.aout[k + i] != t.ain[k] == ci[0];
      RangeHits(s, n, d);
      RangeHits(d, n, s);
    }
  }

  lemma RangeHits(a: nat, n: nat, v: nat)
    ensures v in Range(a, n) <==> a <= v < a + n
  {
    if a <= v < a + n {
      assert Range(a, n)[v - a] == v;
    }
  }

  const EINVAL: int := 22

  /** One turn of crypt()'s loop. `align` is alignmask + 1, `page` the bounce page if one has been
      allocated; whether an allocation succeeds is left open. */
  method CryptRound(desc: Desc, iv: array<byte>, mem: array<byte>, win: Walk, wout: Walk, align: nat, left: nat,
                    page: array?<byte>, ghost t: Task, ghost k: nat)
      returns (n: nat, page': array?<byte>, ghost k': nat)
    requires t.Valid() && desc == t.desc && mem.Length == |t.m0| && iv.Length == desc.bsize && iv != mem && align > 0
    requires t.Progress(mem[..], iv[..], k) && k + left == |t.x| && desc.bsize <= left
    requires win != wout && At(win, t.ain, k) && At(wout, t.aout, k) && win.lenThisPage > 0 && wout.lenThisPage > 0
    requires page != null ==> page != mem && page != iv && page.Length == PAGE_CACHE_SIZE
    modifies iv, mem, win, wout, page
    ensures page' == page || (page == null && fresh(page'))
    ensures page' != null ==> page'.Length == PAGE_CACHE_SIZE
    ensures 0 < n <= left && k' == k + n && t.Progress(mem[..], iv[..], k')
    ensures At(win, t.ain, k') && At(wout, t.aout, k')
  {
    n := left;
    page' := page;
    var tmp: array?<byte> := null;
    if win.offset % align != 0 || wout.offset % align != 0 {
      if page' == null {
        var gotPage: bool := *;
        if gotPage {
          page' := new byte[PAGE_CACHE_SIZE];
        } else {
          n := 0;
        }
      }
      tmp := page';
    }
    n := win.Clamp(n);
    n := wout.Clamp(n);
    assert mem[..] == old(mem[..]) && iv[..] == old(iv[..]);
    if n >= desc.bsize {
      n, k' := CryptFast(desc, iv, mem, win, wout, n, tmp, t, k);
    } else {
      n, k' := CryptSlow(desc, iv, mem, win, wout, t, k);
    }
  }

  /** scatterwalk_done on both walks. */
  method DoneBoth(win: Walk, wout: Walk, more: nat, ghost t: Task, ghost k: nat)
    requires win != wout && At(win, t.ain, k) && At(wout, t.aout, k)
    requires k + more == |t.ain| == |t.aout|
    modifies win, wout
    ensures At(win, t.ain, k) && At(wout, t.aout, k)
    ensures more > 0 ==> win.lenThisPage > 0 && wout.lenThisPage > 0
  {
    win.Done(more);
    wout.Done(more);
  }

  method CryptTurn(desc: Desc, iv: array<byte>, mem: array<byte>, win: Walk, wout: Walk, align: nat, left: nat,
                   page: array?<byte>, ghost t: Task, ghost k: nat) returns (left': nat, page': array?<byte>, ghost k': nat)
    requires t.Valid() && desc == t.desc && mem.Length == |t.m0| && iv.Length == desc.bsize && iv != mem && align > 0
    requires t.Progress(mem[..], iv[..], k) && k + left == |t.x| && desc.bsize <= left
    requires win != wout && At(win, t.ain, k) && At(wout, t.aout, k) && win.lenThisPage > 0 && wout.lenThisPage > 0
    requires page != null ==> page != mem && page != iv && page.Length == PAGE_CACHE_SIZE
    modifies iv, mem, win, wout, page
    ensures page' == page || (page == null && fresh(page'))
    ensures page' != null ==> page'.Length == PAGE_CACHE_SIZE
    ensures left' < left && k' + left' == |t.x| && t.Progress(mem[..], iv[..], k')
    ensures At(win, t.ain, k') && At(wout, t.aout, k')
    ensures left' > 0 ==> win.lenThisPage > 0 && wout.lenThisPage > 0
  {
    var n;
    n, page', k' := CryptRound(desc, iv, mem, win, wout, align, left, page, t, k);
    ghost var m2, iv2 := mem[..], iv[..];
    left' := left - n;
    DoneBoth(win, wout, left', t, k');
    assert mem[..] == m2 && iv[..] == iv2;
  }

  /** crypt(): whatever the fragmentation, the alignment and the luck with the bounce page, the
      destination bytes become the mode of sections 6.1 and 6.2 of NIST SP 800-38A applied to the
      source bytes, read as one string. */
  method Crypt(desc: Desc, iv: array<byte>, mem: array<byte>, dst: seq<Entry>, src: seq<Entry>, nbytes: nat, align: nat)
      returns (err: int)
    requires desc.Valid() && iv.Length == desc.bsize && iv != mem && align > 0
    requires WellFormed(src) && WellFormed(dst) && nbytes <= |Addrs(src)| && nbytes <= |Addrs(dst)|
    requires InRange(Addrs(src)[..nbytes], mem.Length) && InRange(Addrs(dst)[..nbytes], mem.Length)
    requires Distinct(Addrs(dst)[..nbytes]) && SameOrDisjoint(Addrs(src)[..nbytes], Addrs(dst)[..nbytes])
    modifies iv, mem
    ensures nbytes % desc.bsize != 0 ==> err == -EINVAL && mem[..] == old(mem[..]) && iv[..] == old(iv[..])
    ensures nbytes % desc.bsize == 0 ==>
              && err == 0 && Whole(nbytes, desc.bsize)
              && var c := Code(desc, old(iv[..]), Gather(old(mem[..]), Addrs(src)[..nbytes]));
                 iv[..] == c.iv && Wrote(old(mem[..]), mem[..], Addrs(dst)[..nbytes], c.out)
  {
    WholeMod(nbytes, desc.bsize);
    if nbytes == 0 {
      return 0;
    }
    if nbytes % desc.bsize != 0 {
      return -EINVAL;
    }
    ghost var t := Task(desc, mem[..], iv[..], Addrs(src)[..nbytes], Addrs(dst)[..nbytes],
                        Gather(mem[..], Addrs(src)[..nbytes]));
    var win, wout := StartBoth(src, dst, t, nbytes);
    CryptLoop(desc, iv, mem, win, wout, nbytes, align, t);
    assert t.x[..nbytes] == t.x && t.aout[..nbytes] == t.aout;
    err := 0;
  }

  method StartBoth(src: seq<Entry>, dst: seq<Entry>, ghost t: Task, ghost nbytes: nat) returns (win: Walk, wout: Walk)
    requires WellFormed(src) && WellFormed(dst) && 0 < nbytes <= |Addrs(src)| && nbytes <= |Addrs(dst)|
    requires t.ain == Addrs(src)[..nbytes] && t.aout == Addrs(dst)[..nbytes]
    ensures fresh(win) && fresh(wout) && win != wout && At(win, t.ain, 0) && At(wout, t.aout, 0)
    ensures win.lenThisPage > 0 && wout.lenThisPage > 0
  {
    WalkedIff(src);
    WalkedIff(dst);
    win := new Walk(src);
    wout := new Walk(dst);
  }

  method CryptLoop(desc: Desc, iv: array<byte>, mem: array<byte>, win: Walk, wout: Walk, nbytes: nat, align: nat,
                   ghost t: Task)
    requires t.Valid() && desc == t.desc && mem.Length == |t.m0| && iv.Length == desc.bsize && iv != mem && align > 0
    requires mem[..] == t.m0 && iv[..] == t.iv0 && |t.x| == nbytes && Whole(nbytes, desc.bsize)
    requires win != wout && At(win, t.ain, 0) && At(wout, t.aout, 0) && win.lenThisPage > 0 && wout.lenThisPage > 0
    modifies iv, mem, win, wout
    ensures t.Progress(mem[..], iv[..], nbytes)
  {
    var left := nbytes;
    var page: array?<byte> := null;
    ghost var k := 0;
    while left > 0
      invariant k + left == |t.x| && t.Progress(mem[..], iv[..], k) && Whole(left, desc.bsize)
      invariant At(win, t.ain, k) && At(wout, t.aout, k)
      invariant left > 0 ==> win.lenThisPage > 0 && wout.lenThisPage > 0
      invariant page != null ==> fresh(page) && page.Length == PAGE_CACHE_SIZE
      decreases left
    {
      left, page, k := CryptTurn(desc, iv, mem, win, wout, align, left, page, t, k);
      WholeRest(t, mem[..], iv[..], k, left);
    }
  }

  lemma WholeRest(t: Task, m: seq<byte>, iv: seq<byte>, k: nat, left: nat)
    requires t.Valid() && Whole(|t.x|, t.desc.bsize) && k + left == |t.x| && t.Progress(m, iv, k)
    ensures Whole(left, t.desc.bsize)
  {
    WholeAdd(k, left, t.desc.bsize);
  }

  lemma GatherWrote(m0: seq<byte>, m1: seq<byte>, a: seq<nat>, v: seq<byte>)
    requires Wrote(m0, m1, a, v)
    ensures InRange(a, |m1|) && Gather(m1, a) == v
  {
  }

  /** Encrypting from src to mid and decrypting from mid2, any other fragmentation of the same bytes,
      to dst gives the message back; in place or not. Both calls leave the same IV. */
  method RoundTrip(e: Desc, d: Desc, iv: array<byte>, iv2: array<byte>, mem: array<byte>, align: nat, nbytes: nat,
                   src: seq<Entry>, mid: seq<Entry>, mid2: seq<Entry>, dst: seq<Entry>)
    requires e.Valid() && d.Valid() && e.bsize == d.bsize == iv.Length == iv2.Length && Inverse(e.bsize, e.fn, d.fn)
    requires (e.mode.CbcEncrypt? && d.mode.CbcDecrypt?) || (e.mode.Ecb? && d.mode.Ecb?)
    requires iv != iv2 && iv != mem && iv2 != mem && iv[..] == iv2[..] && align > 0 && nbytes % e.bsize == 0
    requires WellFormed(src) && WellFormed(mid) && WellFormed(mid2) && WellFormed(dst)
    requires nbytes <= |Addrs(src)| && nbytes <= |Addrs(mid)| && nbytes <= |Addrs(mid2)| && nbytes <= |Addrs(dst)|
    requires Addrs(mid2)[..nbytes] == Addrs(mid)[..nbytes]
    requires InRange(Addrs(src)[..nbytes], mem.Length) && InRange(Addrs(mid)[..nbytes], mem.Length)
    requires InRange(Addrs(dst)[..nbytes], mem.Length)
    requires Distinct(Addrs(mid)[..nbytes]) && Distinct(Addrs(dst)[..nbytes])
    requires SameOrDisjoint(Addrs(src)[..nbytes], Addrs(mid)[..nbytes])
    requires SameOrDisjoint(Addrs(mid)[..nbytes], Addrs(dst)[..nbytes])
    modifies iv, iv2, mem
    ensures Gather(mem[..], Addrs(dst)[..nbytes]) == old(Gather(mem[..], Addrs(src)[..nbytes]))
    ensures iv[..] == iv2[..]
  {
    ghost var m0, iv0 := mem[..], iv[..];
    ghost var x := Gather(m0, Addrs(src)[..nbytes]);
    WholeMod(nbytes, e.bsize);
    CodeRoundTrip(e, d, iv0, x);
    var err := Crypt(e, iv, mem, mid, src, nbytes, align);
    ghost var m1 := mem[..];
    GatherWrote(m0, m1, Addrs(mid)[..nbytes], Code(e, iv0, x).out);
    err := Crypt(d, iv2, mem, dst, mid2, nbytes, align);
    GatherWrote(m1, mem[..], Addrs(dst)[..nbytes], x);
  }
}
