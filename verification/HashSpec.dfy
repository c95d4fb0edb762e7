/** Hashing of a message in one go, section 5.1.1 of FIPS 180-2 and sections 3.1, 3.2 and 3.4 of RFC 1321.

The compression function f is a parameter; it maps a chaining value and a block of 64 bytes to the next
chaining value.  Bytes are natural numbers.
*/
module HashSpec {

  const BLOCK: nat := 64

  /** The messages the padding is defined for have less than 2^64 bits. */
  const MAX_BYTES: nat := 0x2000_0000_0000_0000

  /** From 2^29 bytes on an update has more bits than an unsigned int can count. */
  const MAX_UPDATE: nat := 0x2000_0000

  /** unsigned int arithmetic. */
  const U32: nat := 0x1_0000_0000

  function Add32(a: nat, b: nat): nat {
    if a + b < U32 then a + b else a + b - U32
  }

  /** The chaining value after all whole blocks of m. */
  function Digest<S>(f: (S, seq<nat>) -> S, s: S, m: seq<nat>): S
    decreases |m|
  {
    if |m| < BLOCK then s else Digest(f, f(s, m[..BLOCK]), m[BLOCK..])
  }

  /** The bytes behind the last whole block. */
  function Tail(m: seq<nat>): (t: seq<nat>)
    ensures |t| == |m| % BLOCK
    decreases |m|
  {
    if |m| < BLOCK then m else Tail(m[BLOCK..])
  }

  function Zeros(n: nat): seq<nat> {
    seq(n, i => 0)
  }

  /** How many zero bytes follow the 0x80. */
  function ZerosFor(n: nat): (k: nat)
    ensures k < BLOCK && (n + 1 + k) % BLOCK == 56
  {
    if n % BLOCK < 56 then 55 - n % BLOCK else 119 - n % BLOCK
  }

  /** A one bit, zeros up to 56 modulo 64, and the eight bytes of the length. */
  function Pad(m: seq<nat>, length: seq<nat>): (r: seq<nat>)
    requires |length| == 8
    ensures |r| % BLOCK == 0 && m <= r
  {
    m + [0x80] + Zeros(ZerosFor(|m|)) + length
  }

  /** n as k bytes, most significant first. */
  function BigEndian(n: nat, k: nat): (r: seq<nat>)
    ensures |r| == k
  {
    if k == 0 then [] else BigEndian(n / 256, k - 1) + [n % 256]
  }

  /** n as k bytes, least significant first. */
  function LittleEndian(n: nat, k: nat): (r: seq<nat>)
    ensures |r| == k
  {
    if k == 0 then [] else [n % 256] + LittleEndian(n / 256, k - 1)
  }

  // ---- streaming ----------------------------------------------------------------------------------------------

  /** A message that goes on: only the chaining value and the tail of what was there matter. */
  lemma {:induction false} Continue<S>(f: (S, seq<nat>) -> S, s: S, m: seq<nat>, data: seq<nat>)
    ensures Digest(f, s, m + data) == Digest(f, Digest(f, s, m), Tail(m) + data)
    ensures Tail(m + data) == Tail(Tail(m) + data)
    decreases |m|
  {
    if |m| >= BLOCK {
      assert (m + data)[..BLOCK] == m[..BLOCK] && (m + data)[BLOCK..] == m[BLOCK..] + data;
      Continue(f, f(s, m[..BLOCK]), m[BLOCK..], data);
    }
  }

  // ---- chunks -------------------------------------------------------------------------------------------------

  function Flat(chunks: seq<seq<nat>>): seq<nat> {
    if chunks == [] then [] else Flat(chunks[..|chunks| - 1]) + chunks[|chunks| - 1]
  }

  lemma {:induction false} FlatGrows(pieces: seq<seq<nat>>, i: nat)
    requires i <= |pieces|
    ensures |Flat(pieces[..i])| <= |Flat(pieces)|
    decreases |pieces| - i
  {
    if i < |pieces| {
      assert pieces[..i + 1][..i] == pieces[..i];
      FlatGrows(pieces, i + 1);
    } else {
      assert pieces[..i] == pieces;
    }
  }

  /** memcpy into a buffer. */
  method CopyTo(buffer: array<nat>, at: nat, data: seq<nat>)
    requires at + |data| <= buffer.Length
    modifies buffer
    ensures buffer[at..at + |data|] == data
    ensures buffer[..at] == old(buffer[..at]) && buffer[at + |data|..] == old(buffer[at + |data|..])
  {
    forall k | 0 <= k < |data| {
      buffer[at + k] := data[k];
    }
  }
}
