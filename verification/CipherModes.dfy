/** Block-cipher modes as functions on whole byte strings.

The reference that the scatterlist code of crypto/cipher.c has to meet: the ECB and
CBC modes of sections 6.1 and 6.2 of NIST SP 800-38A, for an arbitrary block
transformation `fn` on blocks of `bsize` bytes.
*/
module CipherModes {
  import opened Sequences

  type byte = bv8

  /** What `desc->prfn` does with each block: ecb_process, cbc_process_encrypt or cbc_process_decrypt. */
  datatype Mode = Ecb | CbcEncrypt | CbcDecrypt

  /** struct cipher_desc: the mode, the block size and the block transformation `crfn`. */
  datatype Desc = Desc(mode: Mode, bsize: nat, fn: seq<byte> -> seq<byte>) {
    ghost predicate Valid() {
      bsize > 0 && forall x: seq<byte> :: |x| == bsize ==> |fn(x)| == bsize
    }
  }

  /** Output bytes and the chaining value left behind. */
  datatype Coded = Coded(out: seq<byte>, iv: seq<byte>)

  function Xor(a: seq<byte>, b: seq<byte>): (c: seq<byte>)
    requires |a| == |b|
    ensures |c| == |a|
  {
    seq(|a|, i requires 0 <= i < |a| => a[i] ^ b[i])
  }

  lemma XorTwice(a: seq<byte>, b: seq<byte>)
    requires |a| == |b|
    ensures Xor(Xor(a, b), b) == a
    ensures Xor(a, b) == Xor(b, a)
  {
    assert forall i | 0 <= i < |a| :: Xor(Xor(a, b), b)[i] == a[i];
    assert forall i | 0 <= i < |a| :: Xor(a, b)[i] == Xor(b, a)[i];
  }

  /** One block of the mode. */
  ghost function CodeBlock(d: Desc, iv: seq<byte>, x: seq<byte>): (c: Coded)
    requires d.Valid() && |iv| == |x| == d.bsize
    ensures |c.out| == |c.iv| == d.bsize
  {
    match d.mode
    case Ecb => Coded(d.fn(x), iv)
    case CbcEncrypt => var y := d.fn(Xor(iv, x)); Coded(y, y)
    case CbcDecrypt => Coded(Xor(d.fn(x), iv), x)
  }

  /** n is a whole number of blocks of b bytes: n % b == 0, unrolled (see WholeMod). */
  predicate Whole(n: nat, b: nat)
    requires b > 0
  {
    n == 0 || (n >= b && Whole(n - b, b))
  }

  lemma {:induction false} WholeAdd(m: nat, n: nat, b: nat)
    requires b > 0 && Whole(m, b)
    ensures Whole(m + n, b) <==> Whole(n, b)
  {
    if m > 0 {
      WholeAdd(m - b, n, b);
    }
  }

  lemma {:induction false} WholeMod(n: nat, b: nat)
    requires b > 0
    ensures Whole(n, b) <==> n % b == 0
  {
    if n >= b {
      WholeMod(n - b, b);
      ModDrop(n, b);
    }
  }

  lemma MulNonNegative(j: int, b: int)
    requires j >= 0 && b >= 0
    ensures j * b >= 0
  {
  }

  lemma BigMultiple(k: int, b: int)
    requires k != 0 && b > 0
    ensures k * b >= b || k * b <= -b
  {
    if k >= 1 {
      MulNonNegative(k - 1, b);
      assert (k - 1) * b == k * b - b;
    } else {
      MulNonNegative(-k - 1, b);
      assert (-k - 1) * b == -(k * b) - b;
    }
  }

  lemma ModDrop(n: nat, b: nat)
    requires b > 0 && n >= b
    ensures n % b == (n - b) % b
  {
    var k := n / b - (n - b) / b - 1;
    assert k * b == (n - b) % b - n % b by {
      assert k * b == n / b * b - (n - b) / b * b - b;
    }
    if k != 0 {
      BigMultiple(k, b);
    }
  }

  /** The mode over a message of whole blocks. */
  ghost function Code(d: Desc, iv: seq<byte>, x: seq<byte>): (c: Coded)
    requires d.Valid() && |iv| == d.bsize && Whole(|x|, d.bsize)
    ensures |c.out| == |x| && |c.iv| == d.bsize
    decreases |x|
  {
    if x == [] then Coded([], iv)
    else
      var head := CodeBlock(d, iv, x[..d.bsize]);
      var tail := Code(d, head.iv, x[d.bsize..]);
      Coded(head.out + tail.out, tail.iv)
  }

  lemma CodeUnroll(d: Desc, iv: seq<byte>, p: seq<byte>, x: seq<byte>)
    requires d.Valid() && |iv| == |p| == d.bsize && Whole(|x|, d.bsize)
    ensures Whole(|p + x|, d.bsize)
    ensures var head := CodeBlock(d, iv, p);
            var tail := Code(d, head.iv, x);
            Code(d, iv, p + x) == Coded(head.out + tail.out, tail.iv)
  {
    assert (p + x)[..d.bsize] == p && (p + x)[d.bsize..] == x;
  }

  /** Cutting a message at a block boundary and carrying the chaining value over changes nothing. */
  lemma {:induction false} CodeSplit(d: Desc, iv: seq<byte>, x: seq<byte>, y: seq<byte>)
    requires d.Valid() && |iv| == d.bsize && Whole(|x|, d.bsize) && Whole(|y|, d.bsize)
    ensures Whole(|x + y|, d.bsize)
    ensures var cx := Code(d, iv, x);
            var cy := Code(d, cx.iv, y);
            Code(d, iv, x + y) == Coded(cx.out + cy.out, cy.iv)
    decreases |x|
  {
    WholeAdd(|x|, |y|, d.bsize);
    if x == [] {
      assert x + y == y;
    } else {
      var p, t := x[..d.bsize], x[d.bsize..];
      var head := CodeBlock(d, iv, p);
      assert x == p + t;
      CodeSplit(d, head.iv, t, y);
      CodeUnroll(d, iv, p, t);
      CodeUnroll(d, iv, p, t + y);
      var ct := Code(d, head.iv, t);
      var cy := Code(d, ct.iv, y);
      Assoc(p, t, y);
      Assoc(head.out, ct.out, cy.out);
    }
  }

  lemma CodeOneBlock(d: Desc, iv: seq<byte>, x: seq<byte>)
    requires d.Valid() && |iv| == |x| == d.bsize
    ensures Whole(|x|, d.bsize) && Code(d, iv, x) == CodeBlock(d, iv, x)
  {
    var c := CodeBlock(d, iv, x);
    assert x[..d.bsize] == x && x[d.bsize..] == [];
    assert Code(d, c.iv, x[d.bsize..]) == Coded([], c.iv);
    assert c.out + [] == c.out;
  }

  /** Sections 6.1 and 6.2 of NIST SP 800-38A at the block that starts at offset o of the
      message x and its image y; the block before the first one is the starting IV:
      ECB          C_j = CIPH(P_j);
      CBC encrypt  C_j = CIPH(P_j xor C_{j-1});
      CBC decrypt  P_j = CIPH^-1(C_j) xor C_{j-1}. */
  ghost predicate MeetsStandard(d: Desc, iv: seq<byte>, x: seq<byte>, y: seq<byte>, o: nat)
    requires d.Valid() && |iv| == d.bsize && |x| == |y| && o + d.bsize <= |x|
    requires o == 0 || o >= d.bsize
  {
    var p, c := x[o..o + d.bsize], y[o..o + d.bsize];
    match d.mode
    case Ecb => c == d.fn(p)
    case CbcEncrypt => c == d.fn(Xor(Before(d, iv, y, o), p))
    case CbcDecrypt => c == Xor(d.fn(p), Before(d, iv, x, o))
  }

  ghost function Before(d: Desc, iv: seq<byte>, x: seq<byte>, o: nat): (p: seq<byte>)
    requires |iv| == d.bsize && o <= |x| && (o == 0 || o >= d.bsize)
    ensures |p| == d.bsize
  {
    if o == 0 then iv else x[o - d.bsize..o]
  }

  lemma BeforeTail(d: Desc, iv: seq<byte>, p: seq<byte>, x: seq<byte>, o: nat)
    requires |iv| == |p| == d.bsize && o <= |x| && (o == 0 || o >= d.bsize)
    ensures Before(d, iv, p + x, o + d.bsize) == Before(d, p, x, o)
  {
    var b := d.bsize;
    if o == 0 {
      assert (p + x)[..b] == p;
    } else {
      assert (p + x)[o..o + b] == x[o - b..o];
    }
  }

  lemma StandardTail(d: Desc, iv: seq<byte>, p: seq<byte>, x: seq<byte>, y: seq<byte>, o: nat)
    requires d.Valid() && |iv| == |p| == d.bsize && |x| == |y| && o + d.bsize <= |x|
    requires o == 0 || o >= d.bsize
    requires MeetsStandard(d, CodeBlock(d, iv, p).iv, x, y, o)
    ensures MeetsStandard(d, iv, p + x, CodeBlock(d, iv, p).out + y, o + d.bsize)
  {
    var b := d.bsize;
    var c := CodeBlock(d, iv, p).out;
    assert (p + x)[o + b..o + b + b] == x[o..o + b];
    assert (c + y)[o + b..o + b + b] == y[o..o + b];
    BeforeTail(d, iv, p, x, o);
    BeforeTail(d, iv, c, y, o);
  }

  lemma StandardFirst(d: Desc, iv: seq<byte>, p: seq<byte>, x: seq<byte>, y: seq<byte>)
    requires d.Valid() && |iv| == |p| == d.bsize && |x| == |y|
    ensures MeetsStandard(d, iv, p + x, CodeBlock(d, iv, p).out + y, 0)
  {
    var b := d.bsize;
    var c := CodeBlock(d, iv, p).out;
    assert (p + x)[0..b] == p && (c + y)[0..b] == c;
  }

  lemma StandardJoined(d: Desc, iv: seq<byte>, p: seq<byte>, x: seq<byte>, y: seq<byte>, o: nat,
                       all: seq<byte>, out: seq<byte>)
    requires d.Valid() && |iv| == |p| == d.bsize && |x| == |y| && o <= |x|
    requires o == 0 || o == d.bsize || o >= 2 * d.bsize
    requires o > 0 ==> MeetsStandard(d, CodeBlock(d, iv, p).iv, x, y, o - d.bsize)
    requires all == p + x && out == CodeBlock(d, iv, p).out + y
    ensures |all| == |out| && MeetsStandard(d, iv, all, out, o)
  {
    if o == 0 {
      StandardFirst(d, iv, p, x, y);
    } else {
      StandardTail(d, iv, p, x, y, o - d.bsize);
    }
  }

  /** The recursive definition meets the standard at every block. */
  lemma {:induction false} CodeMeetsStandard(d: Desc, iv: seq<byte>, x: seq<byte>, o: nat)
    requires d.Valid() && |iv| == d.bsize && Whole(|x|, d.bsize)
    requires Whole(o, d.bsize) && o + d.bsize <= |x|
    ensures MeetsStandard(d, iv, x, Code(d, iv, x).out, o)
    decreases |x|
  {
    var b := d.bsize;
    var p, rest := x[..b], x[b..];
    var next := CodeBlock(d, iv, p).iv;
    var y, out := Code(d, next, rest).out, Code(d, iv, x).out;
    if o > 0 {
      CodeMeetsStandard(d, next, rest, o - b);
    }
    StandardJoined(d, iv, p, rest, y, o, x, out);
  }

  /** CBC leaves the last ciphertext block behind as the chaining value. */
  lemma {:induction false} CbcLeavesLastBlock(d: Desc, iv: seq<byte>, x: seq<byte>)
    requires d.Valid() && |iv| == d.bsize && Whole(|x|, d.bsize) && x != []
    ensures d.mode.CbcEncrypt? ==> Code(d, iv, x).iv == Code(d, iv, x).out[|x| - d.bsize..]
    ensures d.mode.CbcDecrypt? ==> Code(d, iv, x).iv == x[|x| - d.bsize..]
    decreases |x|
  {
    var b := d.bsize;
    var p, rest := x[..b], x[b..];
    var head := CodeBlock(d, iv, p);
    var tail := Code(d, head.iv, rest);
    if rest != [] {
      CbcLeavesLastBlock(d, head.iv, rest);
      assert x[|x| - b..] == rest[|rest| - b..];
      assert (head.out + tail.out)[|x| - b..] == tail.out[|rest| - b..];
    } else {
      assert x[|x| - b..] == p && head.out + tail.out == head.out;
    }
  }

  /** `dec` undoes `enc` on blocks of b bytes. */
  ghost predicate Inverse(b: nat, enc: seq<byte> -> seq<byte>, dec: seq<byte> -> seq<byte>) {
    forall x: seq<byte> :: |x| == b ==> dec(enc(x)) == x
  }

  /** Decrypting a CBC or ECB image with the starting IV gives the message back, and the
      chaining values left behind by the two directions agree. */
  lemma {:induction false} CodeRoundTrip(e: Desc, d: Desc, iv: seq<byte>, x: seq<byte>)
    requires e.Valid() && d.Valid() && e.bsize == d.bsize == |iv| && Whole(|x|, e.bsize)
    requires Inverse(e.bsize, e.fn, d.fn)
    requires (e.mode.CbcEncrypt? && d.mode.CbcDecrypt?) || (e.mode.Ecb? && d.mode.Ecb?)
    ensures var c := Code(e, iv, x); Code(d, iv, c.out) == Coded(x, c.iv)
    decreases |x|
  {
    if x != [] {
      var b := e.bsize;
      var p, rest := x[..b], x[b..];
      var head := CodeBlock(e, iv, p);
      BlockRoundTrip(e, d, iv, p);
      CodeRoundTrip(e, d, head.iv, rest);
      assert p + rest == x;
      var tail := Code(e, head.iv, rest);
      CodeUnroll(e, iv, p, rest);
      assert Code(e, iv, x) == Coded(head.out + tail.out, tail.iv);
      CodeUnroll(d, iv, head.out, tail.out);
    }
  }

  lemma BlockRoundTrip(e: Desc, d: Desc, iv: seq<byte>, p: seq<byte>)
    requires e.Valid() && d.Valid() && e.bsize == d.bsize == |iv| == |p|
    requires Inverse(e.bsize, e.fn, d.fn)
    requires (e.mode.CbcEncrypt? && d.mode.CbcDecrypt?) || (e.mode.Ecb? && d.mode.Ecb?)
    ensures var c := CodeBlock(e, iv, p); CodeBlock(d, iv, c.out) == Coded(p, c.iv)
  {
    if e.mode.CbcEncrypt? {
      assert d.fn(e.fn(Xor(iv, p))) == Xor(iv, p);
      XorTwice(p, iv);
    }
  }
}
