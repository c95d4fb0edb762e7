/** crypto/sha1.c: hashing a message that comes in pieces. */
module Sha1 {
  import opened HashSpec

  /** The range of the byte counter. */
  const U64: nat := 0x1_0000_0000_0000_0000

  /** The test whether a block is complete is right exactly if the sum does not wrap around. Where it does,
  nothing is hashed although a block is complete, and what is to be buffered is longer than the buffer. */
  lemma TestIsRight(partial: nat, len: nat)
    requires partial < BLOCK && len < U32
    ensures (Add32(partial, len) > 63 <==> partial + len > 63) <==> partial + len < U32
    ensures partial + len >= U32 ==> Add32(partial, len) < 63 && partial + len > BLOCK
  {
  }

  /** struct sha1_ctx; f is sha_transform. */
  class Context<S> {
    const f: (S, seq<nat>) -> S
    const iv: S
    var count: nat
    var state: S
    var buffer: array<nat>

    /** The context has seen the message m. */
    ghost predicate Valid(m: seq<nat>) reads this, buffer {
      && buffer.Length == BLOCK
      && count == |m| < U64
      && state == Digest(f, iv, m)
      && buffer[..|Tail(m)|] == Tail(m)
    }

    /** sha1_init. */
    constructor (transform: (S, seq<nat>) -> S, initial: S)
      ensures f == transform && iv == initial && Valid([]) && fresh(buffer)
    {
      f, iv, count, state := transform, initial, 0, initial;
      buffer := new nat[BLOCK](_ => 0);
    }

    /** The first block of sha1_update, which may begin in the buffer; `done` counts from -partial on. */
    method FirstBlock(data: seq<nat>, partial: nat) returns (done: nat)
      requires buffer.Length == BLOCK && partial < BLOCK <= partial + |data| < U32
      modifies this`state, buffer
      ensures done <= |data| && done == BLOCK - partial
      ensures state == f(old(state), old(buffer[..partial]) + data[..done])
    {
      done := 0;
      var src := data;
      if partial != 0 {
        done := U32 - partial;
        CopyTo(buffer, partial, data[..Add32(done, BLOCK)]);
        src := buffer[..];
      }
      state := f(state, src[..BLOCK]);
      done := Add32(done, BLOCK);
      assert src[..BLOCK] == old(buffer[..partial]) + data[..done];
    }

    /** The further blocks of sha1_update. */
    method Blocks(data: seq<nat>, from: nat, ghost partial: nat) returns (done: nat)
      requires from <= |data| && partial + |data| < U32 && (partial + from) % BLOCK == 0
      modifies this`state
      ensures done <= |data| && |data| - done < BLOCK
      ensures state == Digest(f, old(state), data[from..]) && data[done..] == Tail(data[from..])
    {
      done := from;
      while Add32(done, 63) < |data|
        invariant done <= |data| && (partial + done) % BLOCK == 0
        invariant Digest(f, state, data[done..]) == Digest(f, old(state), data[from..])
        invariant Tail(data[done..]) == Tail(data[from..])
      {
        assert data[done..][..BLOCK] == data[done..done + BLOCK] && data[done..][BLOCK..] == data[done + BLOCK..];
        state := f(state, data[done..done + BLOCK]);
        done := Add32(done, BLOCK);
      }
    }

    /** sha1_update; the sum of what is buffered and the length fits in an unsigned int. */
    method Update(data: seq<nat>, ghost m: seq<nat>)
      requires Valid(m) && |m| % BLOCK + |data| < U32 && |m| + |data| < U64
      modifies this, buffer
      ensures Valid(m + data) && buffer == old(buffer)
    {
      Continue(f, iv, m, data);
      ghost var x := Tail(m) + data;
      var partial := count % BLOCK;
      count := count + |data|;
      var done := 0;
      if Add32(partial, |data|) > 63 {
        var first := FirstBlock(data, partial);
        assert x[..BLOCK] == Tail(m) + data[..first] && x[BLOCK..] == data[first..];
        done := Blocks(data, first, |m| % BLOCK);
        partial := 0;
      }
      CopyTo(buffer, partial, data[done..]);
    }

    /** sha1_final: the hash of the padded message. */
    method Final(ghost m: seq<nat>) returns (digest: S)
      requires Valid(m) && |m| < MAX_BYTES
      modifies this, buffer
      ensures digest == Digest(f, iv, Pad(m, BigEndian(8 * |m|, 8)))
    {
      var bits := BigEndian(8 * count, 8);
      var index := count % BLOCK;
      var padlen := if index < 56 then 56 - index else 120 - index;
      var padding := [0x80] + Zeros(63);
      Update(padding[..padlen], m);
      assert padding[..padlen] == [0x80] + Zeros(ZerosFor(|m|));
      Update(bits, m + padding[..padlen]);
      assert m + padding[..padlen] + bits == Pad(m, bits);
      digest := state;
    }
  }

  /** Hashing piece by piece, however the message is cut, is hashing in one go. */
  method HashPieces<S>(transform: (S, seq<nat>) -> S, initial: S, pieces: seq<seq<nat>>) returns (digest: S)
    requires forall i | 0 <= i < |pieces| :: |Flat(pieces[..i])| % BLOCK + |pieces[i]| < U32
    requires |Flat(pieces)| < MAX_BYTES
    ensures digest == Digest(transform, initial, Pad(Flat(pieces), BigEndian(8 * |Flat(pieces)|, 8)))
  {
    var ctx := new Context(transform, initial);
    for i := 0 to |pieces|
      invariant ctx.Valid(Flat(pieces[..i])) && ctx.f == transform && ctx.iv == initial && fresh(ctx) && fresh(ctx.buffer)
    {
      assert pieces[..i + 1][..i] == pieces[..i];
      FlatGrows(pieces, i + 1);
      ctx.Update(pieces[i], Flat(pieces[..i]));
    }
    assert pieces[..|pieces|] == pieces;
    digest := ctx.Final(Flat(pieces));
  }
}
