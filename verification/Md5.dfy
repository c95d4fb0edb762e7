/** crypto/md5.c: hashing a message that comes in pieces; the padding is written into the block in place. */
module Md5 {
  import opened HashSpec

  /** The range of the byte counter. */
  const U64: nat := 0x1_0000_0000_0000_0000

  /** Bytes as little-endian words. */
  function Words(b: seq<nat>): seq<nat> {
    if |b| < 4 then [] else [b[0] + 0x100 * b[1] + 0x1_0000 * b[2] + 0x100_0000 * b[3]] + Words(b[4..])
  }

  /** md5_transform works on words; as a function of bytes it reads them least significant byte first. */
  function Compress<S>(g: (S, seq<nat>) -> S): (S, seq<nat>) -> S {
    (s, b) => g(s, Words(b))
  }

  /** The hash of section 3 of RFC 1321. */
  function Md5<S>(g: (S, seq<nat>) -> S, iv: S, m: seq<nat>): S {
    Digest(Compress(g), iv, Pad(m, LittleEndian(8 * |m|, 8)))
  }

  lemma {:induction false} WordsConcat(a: seq<nat>, b: seq<nat>)
    requires |a| % 4 == 0
    ensures Words(a + b) == Words(a) + Words(b)
    decreases |a|
  {
    if |a| < 4 {
      assert a + b == b;
    } else {
      assert (a + b)[4..] == a[4..] + b;
      WordsConcat(a[4..], b);
    }
  }

  lemma FirstByte(n: nat, r: nat, q: nat, k: nat)
    requires k > 0 && n == 256 * q + r && r < 256
    ensures LittleEndian(n, k) == [r] + LittleEndian(q, k - 1)
  {
    assert n / 256 == q && n % 256 == r;
  }

  lemma FourDigits(n: nat) returns (a: nat, b: nat, c: nat, d: nat)
    requires n < U32
    ensures n == a + 256 * (b + 256 * (c + 256 * d)) && a < 256 && b < 256 && c < 256 && d < 256
  {
    var x := n / 256;
    var y := x / 256;
    a, b, c, d := n % 256, x % 256, y % 256, y / 256;
  }

  lemma FourBytes(n: nat, a: nat, b: nat, c: nat, d: nat, rest: nat, k: nat)
    requires a < 256 && b < 256 && c < 256 && d < 256
    requires n == a + 256 * (b + 256 * (c + 256 * (d + 256 * rest)))
    ensures LittleEndian(n, k + 4) == [a, b, c, d] + LittleEndian(rest, k)
  {
    var n3 := d + 256 * rest;
    var n2 := c + 256 * n3;
    var n1 := b + 256 * n2;
    FirstByte(n, a, n1, k + 4);
    FirstByte(n1, b, n2, k + 3);
    FirstByte(n2, c, n3, k + 2);
    FirstByte(n3, d, rest, k + 1);
  }

  lemma WordOfFour(a: nat, b: nat, c: nat, d: nat)
    ensures Words([a, b, c, d]) == [a + 256 * (b + 256 * (c + 256 * d))]
  {
    var e := [a, b, c, d];
    assert Words(e[4..]) == [];
  }

  /** The bytes of two words, least significant first. */
  lemma EightBytes(lo: nat, hi: nat) returns (x: seq<nat>, y: seq<nat>)
    requires lo < U32 && hi < U32
    ensures LittleEndian(U32 * hi + lo, 8) == x + y
    ensures |x| == 4 && |y| == 4 && Words(x) == [lo] && Words(y) == [hi]
  {
    var a, b, c, d := FourDigits(lo);
    var e, f, g, h := FourDigits(hi);
    x, y := [a, b, c, d], [e, f, g, h];
    WordOfFour(a, b, c, d);
    WordOfFour(e, f, g, h);
    FourBytes(hi, e, f, g, h, 0, 0);
    FourBytes(U32 * hi + lo, a, b, c, d, hi, 4);
  }

  /** The two last words of the padding. */
  lemma LengthWords(lo: nat, hi: nat)
    requires lo < U32 && hi < U32
    ensures Words(LittleEndian(U32 * hi + lo, 8)) == [lo, hi]
  {
    var x, y := EightBytes(lo, hi);
    WordsConcat(x, y);
  }

  lemma LengthOfCount(n: nat)
    requires n < MAX_BYTES
    ensures var lo, hi := 8 * n % U32, n / MAX_UPDATE % U32;
      8 * n == U32 * hi + lo && lo < U32 && hi < U32
  {
    assert n == MAX_UPDATE * (n / MAX_UPDATE) + n % MAX_UPDATE;
  }

  /** Where the padding goes, with one block or two. */
  lemma PadShape(t: seq<nat>, n: nat, length: seq<nat>)
    requires |t| == n % BLOCK && |length| == 8
    ensures var x := t + ([0x80] + Zeros(ZerosFor(n)) + length);
      if |t| < 56 then x == t + [0x80] + Zeros(55 - |t|) + length
      else x[..BLOCK] == t + [0x80] + Zeros(63 - |t|) && x[BLOCK..] == Zeros(56) + length
  {
  }

  /** memset to zero. */
  method Clear(block: array<nat>, at: nat, n: nat)
    requires at + n <= block.Length
    modifies block
    ensures block[at..at + n] == Zeros(n)
    ensures block[..at] == old(block[..at]) && block[at + n..] == old(block[at + n..])
  {
    forall k | 0 <= k < n {
      block[at + k] := 0;
    }
  }

  /** struct md5_ctx; g is md5_transform. */
  class Context<S> {
    const g: (S, seq<nat>) -> S
    const iv: S
    var hash: S
    var block: array<nat>
    var byteCount: nat

    /** The context has seen the message m. */
    ghost predicate Valid(m: seq<nat>) reads this, block {
      && block.Length == BLOCK
      && byteCount == |m| < U64
      && hash == Digest(Compress(g), iv, m)
      && block[..|Tail(m)|] == Tail(m)
    }

    /** md5_init. */
    constructor (transform: (S, seq<nat>) -> S, initial: S)
      ensures g == transform && iv == initial && Valid([]) && fresh(block)
    {
      g, iv, hash, byteCount := transform, initial, initial, 0;
      block := new nat[BLOCK];
    }

    /** md5_transform_helper. */
    method TransformBlock()
      requires block.Length == BLOCK
      modifies `hash
      ensures hash == Compress(g)(old(hash), block[..])
    {
      hash := g(hash, Words(block[..]));
    }

    /** The rest of md5_update once the block has been filled up. */
    method Blocks(input: seq<nat>)
      requires block.Length == BLOCK
      modifies `hash, block
      ensures hash == Digest(Compress(g), old(hash), input) && block[..|Tail(input)|] == Tail(input)
    {
      var data := input;
      while |data| >= BLOCK
        invariant Digest(Compress(g), hash, data) == Digest(Compress(g), old(hash), input)
        invariant Tail(data) == Tail(input)
      {
        CopyTo(block, 0, data[..BLOCK]);
        assert block[..] == data[..BLOCK];
        TransformBlock();
        data := data[BLOCK..];
      }
      CopyTo(block, 0, data);
    }

    /** md5_update. */
    method Update(data: seq<nat>, ghost m: seq<nat>)
      requires Valid(m) && |data| < U32 && |m| + |data| < U64
      modifies this, block
      ensures Valid(m + data) && block == old(block)
    {
      Continue(Compress(g), iv, m, data);
      ghost var x := Tail(m) + data;
      var avail := BLOCK - byteCount % BLOCK;
      byteCount := byteCount + |data|;
      if avail > |data| {
        CopyTo(block, BLOCK - avail, data);
        return;
      }
      CopyTo(block, BLOCK - avail, data[..avail]);
      assert block[..] == x[..BLOCK] && x[BLOCK..] == data[avail..];
      TransformBlock();
      Blocks(data[avail..]);
    }

    /** md5_final: the hash of the padded message. */
    method Final(ghost m: seq<nat>) returns (digest: S)
      requires Valid(m) && |m| < MAX_BYTES
      modifies this, block
      ensures digest == Md5(g, iv, m)
    {
      ghost var length := LittleEndian(8 * |m|, 8);
      ghost var rest := [0x80] + Zeros(ZerosFor(|m|)) + length;
      Continue(Compress(g), iv, m, rest);
      assert m + rest == Pad(m, length);
      PadBlock(Tail(m), Tail(m) + rest);
      digest := hash;
    }

    /** The padding of the tail t, which may need a second block. */
    method PadBlock(ghost t: seq<nat>, ghost x: seq<nat>)
      requires block.Length == BLOCK && byteCount < MAX_BYTES && |t| == byteCount % BLOCK && block[..|t|] == t
      requires x == t + ([0x80] + Zeros(ZerosFor(byteCount)) + LittleEndian(8 * byteCount, 8))
      modifies `hash, block
      ensures hash == Digest(Compress(g), old(hash), x)
    {
      ghost var length := LittleEndian(8 * byteCount, 8);
      PadShape(t, byteCount, length);
      var offset := byteCount % BLOCK;
      block[offset] := 0x80;
      assert block[..offset + 1] == t + [0x80];
      if offset + 1 > 56 {
        Clear(block, offset + 1, BLOCK - offset - 1);
        assert block[..] == block[..offset + 1] + block[offset + 1..BLOCK] == x[..BLOCK];
        TransformBlock();
        Clear(block, 0, 56);
        LastBlock(x[BLOCK..]);
      } else {
        Clear(block, offset + 1, 55 - offset);
        assert block[..56] == block[..offset + 1] + block[offset + 1..56];
        LastBlock(x);
      }
    }

    /** The end of md5_final: the length is put in as two words. */
    method LastBlock(ghost x: seq<nat>)
      requires block.Length == BLOCK && byteCount < MAX_BYTES && x == block[..56] + LittleEndian(8 * byteCount, 8)
      modifies `hash
      ensures hash == Digest(Compress(g), old(hash), x)
    {
      var lo, hi := 8 * byteCount % U32, byteCount / MAX_UPDATE % U32;
      LengthOfCount(byteCount);
      LengthWords(lo, hi);
      WordsConcat(block[..56], LittleEndian(8 * byteCount, 8));
      assert x[..BLOCK] == x && x[BLOCK..] == [];
      hash := g(hash, Words(block[..56]) + [lo, hi]);
    }
  }

  /** Hashing piece by piece, however the message is cut, is hashing in one go. */
  method HashPieces<S>(transform: (S, seq<nat>) -> S, initial: S, pieces: seq<seq<nat>>) returns (digest: S)
    requires forall i | 0 <= i < |pieces| :: |pieces[i]| < U32
    requires |Flat(pieces)| < MAX_BYTES
    ensures digest == Md5(transform, initial, Flat(pieces))
  {
    var ctx := new Context(transform, initial);
    for i := 0 to |pieces|
      invariant ctx.Valid(Flat(pieces[..i])) && ctx.g == transform && ctx.iv == initial && fresh(ctx) && fresh(ctx.block)
    {
      assert pieces[..i + 1][..i] == pieces[..i];
      FlatGrows(pieces, i + 1);
      ctx.Update(pieces[i], Flat(pieces[..i]));
    }
    assert pieces[..|pieces|] == pieces;
    digest := ctx.Final(Flat(pieces));
  }
}
