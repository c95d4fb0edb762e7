/** crypto/sha256.c: hashing a message that comes in pieces, with a bit counter of two words. */
module Sha256 {
  import opened HashSpec

  // ---- the bit counter --------------------------------------------------------------------------------------

  /** len << 3 and len >> 29 on 32 bits. */
  function ShiftLeft3(len: nat): nat { 8 * (len % MAX_UPDATE) }

  function ShiftRight29(len: nat): nat { len / MAX_UPDATE }

  /** count[] after an update of len bytes. */
  function NewCount(c0: nat, c1: nat, len: nat): (nat, nat) {
    var sum := Add32(c0, ShiftLeft3(len));
    (sum, if sum < ShiftLeft3(len) then Add32(Add32(c1, 1), ShiftRight29(len)) else c1)
  }

  /** The counter is right after an update exactly if it had less than 2^29 bytes or the low word has
  overflowed. */
  lemma CountIsRight(c0: nat, c1: nat, len: nat)
    requires c0 < U32 && len < U32 && c1 + 9 < U32
    ensures var (d0, d1) := NewCount(c0, c1, len);
      d0 + U32 * d1 == c0 + U32 * c1 + 8 * len <==> len < MAX_UPDATE || c0 + ShiftLeft3(len) >= U32
  {
    var q, r := len / MAX_UPDATE, len % MAX_UPDATE;
    assert len == MAX_UPDATE * q + r;
  }

  /** The first update that counts wrong: 2^29 bytes at once leave the counter at zero. */
  lemma CountGoesWrong()
    ensures NewCount(0, 0, MAX_UPDATE) == (0, 0)
  {
  }

  /** Updates of less than 2^29 bytes keep the counter. */
  predicate Counts(c0: nat, c1: nat, n: nat) {
    && c0 == 8 * (n % MAX_UPDATE)
    && c1 < U32
    && (n < MAX_BYTES ==> c1 == n / MAX_UPDATE)
  }

  lemma CountKeeps(c0: nat, c1: nat, n: nat, len: nat)
    requires Counts(c0, c1, n) && len < MAX_UPDATE
    ensures Counts(NewCount(c0, c1, len).0, NewCount(c0, c1, len).1, n + len)
  {
    var q, r := n / MAX_UPDATE, n % MAX_UPDATE;
    assert n == MAX_UPDATE * q + r;
    if r + len < MAX_UPDATE {
      assert (n + len) / MAX_UPDATE == q && (n + len) % MAX_UPDATE == r + len;
    } else {
      assert (n + len) / MAX_UPDATE == q + 1 && (n + len) % MAX_UPDATE == r + len - MAX_UPDATE;
    }
  }

  /** The two words, most significant first, are the length of the padding. */
  lemma WordsAreLength(c0: nat, c1: nat, n: nat)
    requires Counts(c0, c1, n) && n < MAX_BYTES
    ensures BigEndian(c1, 4) + BigEndian(c0, 4) == BigEndian(8 * n, 8)
  {
    WordsAreBits(c0, c1, n);
    BigEndianWords(c1, c0);
  }

  lemma WordsAreBits(c0: nat, c1: nat, n: nat)
    requires Counts(c0, c1, n) && n < MAX_BYTES
    ensures 8 * n == c1 * 0x1_0000_0000 + c0 && c0 < U32
  {
    assert n == MAX_UPDATE * (n / MAX_UPDATE) + n % MAX_UPDATE;
  }

  lemma IndexIsTail(c0: nat, c1: nat, n: nat)
    requires Counts(c0, c1, n)
    ensures (c0 / 8) % BLOCK == n % BLOCK
  {
    var q, r := n / MAX_UPDATE, n % MAX_UPDATE;
    assert n == BLOCK * (0x80_0000 * q) + r;
  }

  lemma BigEndianWords(hi: nat, lo: nat)
    requires lo < U32
    ensures BigEndian(hi * 0x1_0000_0000 + lo, 8) == BigEndian(hi, 4) + BigEndian(lo, 4)
  {
    var a, b, c := lo / 0x100, lo / 0x1_0000, lo / 0x100_0000;
    BigEndianByte(hi, 0x100_0000, lo, 8);
    BigEndianByte(hi, 0x1_0000, a, 7);
    BigEndianByte(hi, 0x100, b, 6);
    BigEndianByte(hi, 1, c, 5);
    assert a / 256 == b && b / 256 == c && c / 256 == 0;
    assert BigEndian(c, 1) == [c % 256] by { assert BigEndian(c / 256, 0) == []; }
    assert BigEndian(b, 2) == [c % 256] + [b % 256];
    assert BigEndian(a, 3) == [c % 256] + [b % 256] + [a % 256];
    assert BigEndian(lo, 4) == [c % 256] + [b % 256] + [a % 256] + [lo % 256];
  }

  lemma BigEndianByte(hi: nat, p: nat, lo: nat, k: nat)
    requires k > 0
    ensures BigEndian(hi * (256 * p) + lo, k) == BigEndian(hi * p + lo / 256, k - 1) + [lo % 256]
  {
    var n := hi * (256 * p) + lo;
    assert n == 256 * (hi * p) + lo;
    assert n / 256 == hi * p + lo / 256 && n % 256 == lo % 256;
  }

  // ---- struct sha256_ctx ------------------------------------------------------------------------------------

  /** f is sha256_transform. */
  class Context<S> {
    const f: (S, seq<nat>) -> S
    const iv: S
    var count0: nat
    var count1: nat
    var state: S
    var buf: array<nat>

    /** The context has seen the message m. */
    ghost predicate Valid(m: seq<nat>) reads this, buf {
      && buf.Length == 2 * BLOCK
      && Counts(count0, count1, |m|)
      && state == Digest(f, iv, m)
      && buf[..|Tail(m)|] == Tail(m)
    }

    /** sha256_init. */
    constructor (transform: (S, seq<nat>) -> S, initial: S)
      ensures f == transform && iv == initial && Valid([]) && fresh(buf)
    {
      f, iv, count0, count1, state := transform, initial, 0, 0, initial;
      buf := new nat[2 * BLOCK](_ => 0);
    }

    /** The bit counter of sha256_update. */
    method Count(len: nat)
      modifies `count0, `count1
      ensures (count0, count1) == NewCount(old(count0), old(count1), len)
    {
      var bits := ShiftLeft3(len);
      count0 := Add32(count0, bits);
      if count0 < bits {
        count1 := Add32(count1, 1);
        count1 := Add32(count1, ShiftRight29(len));
      }
    }

    /** The whole blocks of sha256_update; i is where the rest begins. */
    method Blocks(data: seq<nat>, partLen: nat) returns (i: nat)
      requires buf.Length == 2 * BLOCK && 0 < partLen <= BLOCK && partLen <= |data| < MAX_UPDATE
      modifies this`state, buf
      ensures i <= |data| && |data| - i < BLOCK
      ensures var x := old(buf[..BLOCK - partLen]) + data;
        state == Digest(f, old(state), x) && data[i..] == Tail(x)
    {
      ghost var s, x := state, buf[..BLOCK - partLen] + data;
      CopyTo(buf, BLOCK - partLen, data[..partLen]);
      assert x[..BLOCK] == buf[..BLOCK] && x[BLOCK..] == data[partLen..];
      state := f(state, buf[..BLOCK]);
      i := partLen;
      while i + 63 < |data|
        invariant i <= |data|
        invariant Digest(f, state, data[i..]) == Digest(f, s, x) && Tail(data[i..]) == Tail(x)
      {
        assert data[i..][..BLOCK] == data[i..i + BLOCK] && data[i..][BLOCK..] == data[i + BLOCK..];
        state := f(state, data[i..i + BLOCK]);
        i := i + BLOCK;
      }
    }

    /** sha256_update. */
    method Update(data: seq<nat>, ghost m: seq<nat>)
      requires Valid(m) && |data| < MAX_UPDATE
      modifies this, buf
      ensures Valid(m + data) && buf == old(buf)
    {
      Continue(f, iv, m, data);
      IndexIsTail(count0, count1, |m|);
      CountKeeps(count0, count1, |m|, |data|);
      var index := (count0 / 8) % BLOCK;
      Count(|data|);
      Take(data, index, Tail(m));
    }

    /** The part of sha256_update behind the counter: `index` bytes t are in the buffer. */
    method Take(data: seq<nat>, index: nat, ghost t: seq<nat>)
      requires buf.Length == 2 * BLOCK && |t| == index < BLOCK && buf[..index] == t && |data| < MAX_UPDATE
      modifies this`state, buf
      ensures state == Digest(f, old(state), t + data) && buf[..|Tail(t + data)|] == Tail(t + data)
    {
      var partLen := BLOCK - index;
      if |data| >= partLen {
        var i := Blocks(data, partLen);
        CopyTo(buf, 0, data[i..]);
      } else {
        CopyTo(buf, index, data);
        assert buf[..index + |data|] == t + data;
      }
    }

    /** sha256_final: the hash of the padded message. */
    method Final(ghost m: seq<nat>) returns (digest: S)
      requires Valid(m) && |m| < MAX_BYTES
      modifies this, buf
      ensures digest == Digest(f, iv, Pad(m, BigEndian(8 * |m|, 8)))
    {
      WordsAreLength(count0, count1, |m|);
      var bits := BigEndian(count1, 4) + BigEndian(count0, 4);
      var padding := Padding(|m|);
      Update(padding, m);
      Update(bits, m + padding);
      assert m + padding + bits == Pad(m, bits);
      digest := state;
    }

    /** The padding for a message of n bytes. */
    method Padding(ghost n: nat) returns (padding: seq<nat>)
      requires Counts(count0, count1, n)
      ensures padding == [0x80] + Zeros(ZerosFor(n))
    {
      IndexIsTail(count0, count1, n);
      var index := (count0 / 8) % BLOCK;
      var padLen := if index < 56 then 56 - index else 120 - index;
      padding := ([0x80] + Zeros(63))[..padLen];
    }
  }

  /** Hashing piece by piece, however the message is cut, is hashing in one go. */
  method HashPieces<S>(transform: (S, seq<nat>) -> S, initial: S, pieces: seq<seq<nat>>) returns (digest: S)
    requires forall i | 0 <= i < |pieces| :: |pieces[i]| < MAX_UPDATE
    requires |Flat(pieces)| < MAX_BYTES
    ensures digest == Digest(transform, initial, Pad(Flat(pieces), BigEndian(8 * |Flat(pieces)|, 8)))
  {
    var ctx := new Context(transform, initial);
    for i := 0 to |pieces|
      invariant ctx.Valid(Flat(pieces[..i])) && ctx.f == transform && ctx.iv == initial && fresh(ctx) && fresh(ctx.buf)
    {
      assert pieces[..i + 1][..i] == pieces[..i];
      ctx.Update(pieces[i], Flat(pieces[..i]));
    }
    assert pieces[..|pieces|] == pieces;
    digest := ctx.Final(Flat(pieces));
  }
}
