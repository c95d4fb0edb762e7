/** The block loops of crypto/cipher.c: ecb_process, cbc_process_encrypt, cbc_process_decrypt.

A `u8 *` is an array together with an offset. Source and destination are either the same
place or do not overlap, which is what crypt() hands to these loops.
*/
module CipherProcess {
  import opened CipherModes

  /** m with v written at offset d. */
  ghost function Splice(m: seq<byte>, d: nat, v: seq<byte>): (r: seq<byte>)
    requires d + |v| <= |m|
    ensures |r| == |m|
  {
    m[..d] + v + m[d + |v|..]
  }

  lemma SpliceTwice(m: seq<byte>, d: nat, v: seq<byte>, w: seq<byte>)
    requires d + |v| + |w| <= |m|
    ensures Splice(Splice(m, d, v), d + |v|, w) == Splice(m, d, v + w)
  {
  }

  lemma SpliceAll(m: seq<byte>, v: seq<byte>)
    requires |v| == |m|
    ensures Splice(m, 0, v) == v
  {
  }

  lemma SpliceMiddle(m: seq<byte>, d: nat, v: seq<byte>)
    requires d + |v| <= |m|
    ensures Splice(m, d, v)[d..d + |v|] == v
  {
  }

  lemma SpliceFront(m: seq<byte>, v: seq<byte>)
    requires |v| <= |m|
    ensures Splice(m, 0, v)[..|v|] == v
  {
  }

  lemma SpliceSame(m: seq<byte>, d: nat, v: seq<byte>, w: seq<byte>)
    requires |v| == |w| && d + |v| <= |m|
    ensures Splice(Splice(m, d, v), d, w) == Splice(m, d, w)
  {
  }

  lemma SpliceRead(m: seq<byte>, d: nat, v: seq<byte>, s: nat, n: nat)
    requires d + |v| <= |m| && s + n <= |m|
    requires s + n <= d || d + |v| <= s
    ensures Splice(m, d, v)[s..s + n] == m[s..s + n]
  {
    var r := Splice(m, d, v);
    assert forall k | s <= k < s + n :: r[k] == m[k];
  }

  /** Two n-byte places that coincide or do not touch. */
  ghost predicate SameOrApart(dst: array<byte>, d: nat, src: array<byte>, s: nat, n: nat) {
    dst != src || d == s || d + n <= s || s + n <= d
  }

  /** memcpy of v to dst + d. */
  method Store(dst: array<byte>, d: nat, v: seq<byte>)
    requires d + |v| <= dst.Length
    modifies dst
    ensures dst[..] == Splice(old(dst[..]), d, v)
    ensures dst[d..d + |v|] == v
    ensures |v| == dst.Length ==> dst[..] == v
  {
    forall k | 0 <= k < |v| {
      dst[d + k] := v[k];
    }
    assert dst[..] == Splice(old(dst[..]), d, v);
  }

  /** The source block at offset `done` is still what it was before the loop, although the
      image of the first `done` bytes has been written. */
  lemma SourceIntact(m0: seq<byte>, d: nat, v: seq<byte>, s: nat, n: nat, b: nat)
    requires d + n <= |m0| && s + n <= |m0| && |v| + b <= n
    requires d == s || d + n <= s || s + n <= d
    ensures Splice(m0, d, v)[s + |v|..s + |v| + b] == m0[s..s + n][|v|..|v| + b]
  {
    SpliceRead(m0, d, v, s + |v|, b);
    SliceSlice(m0, s, n, |v|, b);
  }

  lemma ArraySlice(a: array<byte>, s: nat, n: nat)
    requires s + n <= a.Length
    ensures a[s..s + n] == a[..][s..s + n]
  {
  }

  lemma SliceSlice(x: seq<byte>, s: nat, n: nat, o: nat, b: nat)
    requires s + n <= |x| && o + b <= n
    ensures x[s..s + n][o..o + b] == x[s + o..s + o + b]
  {
    var l, r := x[s..s + n][o..o + b], x[s + o..s + o + b];
    assert forall k | 0 <= k < b :: l[k] == r[k];
  }

  /** One more block of the loop, on values. */
  lemma CodeNext(desc: Desc, iv: seq<byte>, x: seq<byte>, o: nat)
    requires desc.Valid() && |iv| == desc.bsize && Whole(o, desc.bsize) && o + desc.bsize <= |x|
    ensures Whole(o + desc.bsize, desc.bsize)
    ensures var c := Code(desc, iv, x[..o]);
            var e := CodeBlock(desc, c.iv, x[o..o + desc.bsize]);
            Code(desc, iv, x[..o + desc.bsize]) == Coded(c.out + e.out, e.iv)
  {
    var b := desc.bsize;
    var c := Code(desc, iv, x[..o]);
    CodeOneBlock(desc, c.iv, x[o..o + b]);
    CodeSplit(desc, iv, x[..o], x[o..o + b]);
    assert x[..o] + x[o..o + b] == x[..o + b];
  }

  /** What every block loop promises: the whole blocks among the first n source bytes are coded
      to the destination, the chaining value moves on, nothing else changes. */
  ghost predicate Processed(desc: Desc, x: seq<byte>, iv0: seq<byte>, dst0: seq<byte>, d: nat,
                            done: nat, iv1: seq<byte>, dst1: seq<byte>)
    requires desc.Valid() && |iv0| == desc.bsize && d + |x| <= |dst0|
  {
    && Whole(done, desc.bsize) && done <= |x|
    && var c := Code(desc, iv0, x[..done]);
       iv1 == c.iv && dst1 == Splice(dst0, d, c.out)
  }

  lemma ProcessedNext(desc: Desc, x: seq<byte>, iv0: seq<byte>, dst0: seq<byte>, d: nat,
                      done: nat, next: nat, iv1: seq<byte>, dst1: seq<byte>, iv2: seq<byte>, dst2: seq<byte>)
    requires desc.Valid() && |iv0| == desc.bsize && d + |x| <= |dst0| && next == done + desc.bsize <= |x|
    requires Processed(desc, x, iv0, dst0, d, done, iv1, dst1)
    requires iv2 == CodeBlock(desc, iv1, x[done..next]).iv
    requires dst2 == Splice(dst1, d + done, CodeBlock(desc, iv1, x[done..next]).out)
    ensures Processed(desc, x, iv0, dst0, d, next, iv2, dst2)
  {
    CodeNext(desc, iv0, x, done);
    var c := Code(desc, iv0, x[..done]);
    var e := CodeBlock(desc, iv1, x[done..done + desc.bsize]);
    SpliceTwice(dst0, d, c.out, e.out);
  }

  /** The block the loop reads next is the corresponding block of the original source. */
  lemma BlockAt(desc: Desc, m0: seq<byte>, d: nat, src: array<byte>, s: nat, n: nat, done: nat,
                dst: array<byte>, x: seq<byte>, iv0: seq<byte>, iv1: seq<byte>)
    requires desc.Valid() && |iv0| == desc.bsize && |x| == n && d + n <= dst.Length == |m0|
    requires s + n <= src.Length && done + desc.bsize <= n
    requires SameOrApart(dst, d, src, s, n)
    requires Processed(desc, x, iv0, m0, d, done, iv1, dst[..])
    requires if src == dst then x == m0[s..s + n] else x == src[s..s + n]
    ensures src[s + done..s + done + desc.bsize] == x[done..done + desc.bsize]
  {
    var b := desc.bsize;
    if src == dst {
      SourceIntact(m0, d, Code(desc, iv0, x[..done]).out, s, n, b);
      ArraySlice(dst, s + done, b);
    } else {
      SliceSlice(src[..], s, n, done, b);
      ArraySlice(src, s, n);
      ArraySlice(src, s + done, b);
    }
  }

  /** cit_xor_block: xor b bytes of src + s into dst + d. */
  method XorInto(dst: array<byte>, d: nat, src: array<byte>, s: nat, b: nat)
    requires dst != src && d + b <= dst.Length && s + b <= src.Length
    modifies dst
    ensures dst[..] == Splice(old(dst[..]), d, Xor(old(dst[d..d + b]), src[s..s + b]))
    ensures d == 0 && s == 0 && b == dst.Length == src.Length ==> dst[..] == Xor(old(dst[..]), src[..])
  {
    forall k | 0 <= k < b {
      dst[d + k] := dst[d + k] ^ src[s + k];
    }
    assert dst[..] == Splice(old(dst[..]), d, Xor(old(dst[d..d + b]), src[s..s + b]));
  }

  /** Loop body of ecb_process. */
  method EcbStep(desc: Desc, iv: array<byte>, dst: array<byte>, d: nat, src: array<byte>, s: nat,
         ghost x: seq<byte>)
    requires desc.Valid() && desc.mode.Ecb? && iv.Length == desc.bsize
    requires iv != dst && iv != src && d + desc.bsize <= dst.Length && s + desc.bsize <= src.Length
    requires SameOrApart(dst, d, src, s, desc.bsize)
    requires x == src[s..s + desc.bsize]
    modifies dst, iv
    ensures iv[..] == CodeBlock(desc, old(iv[..]), x).iv
    ensures dst[..] == Splice(old(dst[..]), d, CodeBlock(desc, old(iv[..]), x).out)
  {
    Store(dst, d, desc.fn(src[s..s + desc.bsize]));
  }

  /** Loop body of cbc_process_encrypt: xor into the IV, encrypt it to dst, copy dst back to the IV. */
  method CbcEncryptStep(desc: Desc, iv: array<byte>, dst: array<byte>, d: nat, src: array<byte>, s: nat,
         ghost x: seq<byte>)
    requires desc.Valid() && desc.mode.CbcEncrypt? && iv.Length == desc.bsize
    requires iv != dst && iv != src && d + desc.bsize <= dst.Length && s + desc.bsize <= src.Length
    requires SameOrApart(dst, d, src, s, desc.bsize)
    requires x == src[s..s + desc.bsize]
    modifies dst, iv
    ensures iv[..] == CodeBlock(desc, old(iv[..]), x).iv
    ensures dst[..] == Splice(old(dst[..]), d, CodeBlock(desc, old(iv[..]), x).out)
  {
    XorInto(iv, 0, src, s, desc.bsize);
    SpliceAll(old(iv[..]), Xor(old(iv[..]), x));
    assert iv[..] == Xor(old(iv[..]), x);
    Store(dst, d, desc.fn(iv[..]));
    Store(iv, 0, dst[d..d + desc.bsize]);
  }

  /** Loop body of cbc_process_decrypt when it works in place: through a stack buffer. */
  method CbcDecryptInPlace(desc: Desc, iv: array<byte>, dst: array<byte>, d: nat, ghost x: seq<byte>)
    requires desc.Valid() && desc.mode.CbcDecrypt? && iv.Length == desc.bsize
    requires iv != dst && d + desc.bsize <= dst.Length
    requires x == dst[d..d + desc.bsize]
    modifies dst, iv
    ensures iv[..] == CodeBlock(desc, old(iv[..]), x).iv
    ensures dst[..] == Splice(old(dst[..]), d, CodeBlock(desc, old(iv[..]), x).out)
  {
    var b := desc.bsize;
    ghost var y := Xor(desc.fn(x), iv[..]);
    var buf := new byte[b];
    Store(buf, 0, desc.fn(dst[d..d + b]));
    XorInto(buf, 0, iv, 0, b);
    Store(iv, 0, dst[d..d + b]);
    Store(dst, d, buf[..]);
  }

  /** Loop body of cbc_process_decrypt when source and destination are apart. */
  method CbcDecryptApart(desc: Desc, iv: array<byte>, dst: array<byte>, d: nat, src: array<byte>, s: nat,
                         ghost x: seq<byte>)
    requires desc.Valid() && desc.mode.CbcDecrypt? && iv.Length == desc.bsize
    requires iv != dst && iv != src && d + desc.bsize <= dst.Length && s + desc.bsize <= src.Length
    requires dst != src || d + desc.bsize <= s || s + desc.bsize <= d
    requires x == src[s..s + desc.bsize]
    modifies dst, iv
    ensures iv[..] == CodeBlock(desc, old(iv[..]), x).iv
    ensures dst[..] == Splice(old(dst[..]), d, CodeBlock(desc, old(iv[..]), x).out)
  {
    var b := desc.bsize;
    ghost var m0, v := dst[..], iv[..];
    DecryptTo(desc, iv, dst, d, src, s);
    ghost var y := Xor(desc.fn(x), v);
    assert src[s..s + b] == x by {
      if src == dst {
        SpliceRead(m0, d, y, s, b);
        assert src[s..s + b] == dst[..][s..s + b] && x == m0[s..s + b];
      }
    }
    Store(iv, 0, src[s..s + b]);
  }

  /** The block cipher and the exclusive or with the IV. */
  method DecryptTo(desc: Desc, iv: array<byte>, dst: array<byte>, d: nat, src: array<byte>, s: nat)
    requires desc.Valid() && iv.Length == desc.bsize
    requires iv != dst && d + desc.bsize <= dst.Length && s + desc.bsize <= src.Length
    modifies dst
    ensures dst[..] == Splice(old(dst[..]), d, Xor(desc.fn(old(src[s..s + desc.bsize])), iv[..]))
  {
    var b := desc.bsize;
    ghost var m0 := dst[..];
    var e := desc.fn(src[s..s + b]);
    Store(dst, d, e);
    XorOver(dst, d, iv, m0, e);
  }

  method XorOver(dst: array<byte>, d: nat, iv: array<byte>, ghost m0: seq<byte>, ghost e: seq<byte>)
    requires dst != iv && d + |e| <= |m0| == dst.Length && iv.Length == |e| && dst[..] == Splice(m0, d, e)
    modifies dst
    ensures dst[..] == Splice(m0, d, Xor(e, iv[..]))
  {
    SpliceMiddle(m0, d, e);
    assert dst[d..d + iv.Length] == dst[..][d..d + iv.Length] == e;
    assert iv[0..0 + iv.Length] == iv[..];
    XorInto(dst, d, iv, 0, iv.Length);
    SpliceSame(m0, d, e, Xor(e, iv[..]));
  }

  /** One block of whichever loop desc->prfn is. */
  method Step(desc: Desc, iv: array<byte>, dst: array<byte>, d: nat, src: array<byte>, s: nat,
              ghost x: seq<byte>)
    requires desc.Valid() && iv.Length == desc.bsize
    requires iv != dst && iv != src && d + desc.bsize <= dst.Length && s + desc.bsize <= src.Length
    requires SameOrApart(dst, d, src, s, desc.bsize)
    requires x == src[s..s + desc.bsize]
    modifies dst, iv
    ensures iv[..] == CodeBlock(desc, old(iv[..]), x).iv
    ensures dst[..] == Splice(old(dst[..]), d, CodeBlock(desc, old(iv[..]), x).out)
  {
    match desc.mode
    case Ecb => EcbStep(desc, iv, dst, d, src, s, x);
    case CbcEncrypt => CbcEncryptStep(desc, iv, dst, d, src, s, x);
    case CbcDecrypt =>
      if dst == src && d == s {
        CbcDecryptInPlace(desc, iv, dst, d, x);
      } else {
        CbcDecryptApart(desc, iv, dst, d, src, s, x);
      }
  }

  /** One round of whichever block loop desc->prfn is. */
  method Round(desc: Desc, iv: array<byte>, dst: array<byte>, d: nat, src: array<byte>, s: nat, n: nat,
               done: nat, ghost x: seq<byte>, ghost m0: seq<byte>, ghost iv0: seq<byte>)
      returns (next: nat)
    requires desc.Valid() && iv.Length == |iv0| == desc.bsize && iv != dst && iv != src
    requires d + n <= dst.Length == |m0| && s + n <= src.Length && |x| == n && done + desc.bsize <= n
    requires SameOrApart(dst, d, src, s, n)
    requires if src == dst then x == m0[s..s + n] else x == src[s..s + n]
    requires Processed(desc, x, iv0, m0, d, done, iv[..], dst[..])
    modifies dst, iv
    ensures next == done + desc.bsize
    ensures Processed(desc, x, iv0, m0, d, next, iv[..], dst[..])
  {
    ghost var iv1, dst1 := iv[..], dst[..];
    next := done + desc.bsize;
    BlockAt(desc, m0, d, src, s, n, done, dst, x, iv0, iv1);
    Step(desc, iv, dst, d + done, src, s + done, x[done..next]);
    ProcessedNext(desc, x, iv0, m0, d, done, next, iv1, dst1, iv[..], dst[..]);
  }

  /** desc->prfn: ecb_process, cbc_process_encrypt and cbc_process_decrypt, which differ only in
      the loop body. */
  method Process(desc: Desc, iv: array<byte>, dst: array<byte>, d: nat, src: array<byte>, s: nat, n: nat)
      returns (done: nat)
    requires desc.Valid() && iv.Length == desc.bsize <= n
    requires iv != dst && iv != src && d + n <= dst.Length && s + n <= src.Length
    requires SameOrApart(dst, d, src, s, n)
    modifies dst, iv
    ensures n - desc.bsize < done <= n
    ensures Processed(desc, old(src[s..s + n]), old(iv[..]), old(dst[..]), d, done, iv[..], dst[..])
  {
    ghost var x, m0, iv0 := src[s..s + n], dst[..], iv[..];
    var limit := n - desc.bsize;
    done := 0;
    assert Splice(m0, d, []) == m0;
    while done <= limit
      invariant done <= n && Processed(desc, x, iv0, m0, d, done, iv[..], dst[..])
      invariant src != dst ==> x == src[s..s + n]
      decreases n - done
    {
      done := Round(desc, iv, dst, d, src, s, n, done, x, m0, iv0);
    }
  }
}
