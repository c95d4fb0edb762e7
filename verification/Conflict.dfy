/** scripts/sync_char_post.py: conflicts between the address sets of two critical sections.

An address set maps the start of a range to bitmaps of 16 bytes each, with a read bit and a write bit
for every byte; the last byte has the lowest bits.
*/
module Conflict {
  import opened Bits

  const READ_MASK: nat := 0x5555_5555
  const WRITE_MASK: nat := 0xAAAA_AAAA
  const CHUNK: nat := 16

  datatype WorkSet = WorkSet(io: bool, ranges: map<nat, seq<nat>>)

  /** An entry of the intersection list. */
  datatype Key = Io | Word(addr: nat)

  /** la, rounded down to a word as the script does it. */
  function WordOf(la: nat): nat {
    if la % 4 != 0 then (la - la % 4) % 0x1_0000_0000 else la
  }

  // ---- what a conflict is ---------------------------------------------------------------------------------------

  predicate Reads(x: nat, j: nat) { EvenBit(x, j) }

  predicate Writes(x: nat, j: nat) { EvenBit(x / 2, j) }

  /** Both touch byte j of the chunk, and one of them writes. */
  predicate Conflicts(x1: nat, x2: nat, j: nat) {
    (Reads(x1, j) && Writes(x2, j)) || (Reads(x2, j) && Writes(x1, j)) || (Writes(x1, j) && Writes(x2, j))
  }

  /** Word w has a conflict in the n last bytes of the chunk at `base`. */
  predicate ChunkHit(x1: nat, x2: nat, base: nat, n: nat, w: nat)
    requires n <= CHUNK
  {
    exists j | 0 <= j < n :: Conflicts(x1, x2, j) && w == WordOf(base + 15 - j)
  }

  /** Word w has a conflict in the n first chunks of the range at `addr`. */
  predicate RangeHit(r1: seq<nat>, r2: seq<nat>, addr: nat, n: nat, w: nat)
    requires n <= |r1| <= |r2|
  {
    exists i | 0 <= i < n :: ChunkHit(r1[i], r2[i], addr + CHUNK * i, CHUNK, w)
  }

  /** Of the ranges that both sets have, those of b are long enough to be compared with those of a. */
  predicate Covers(b: WorkSet, a: WorkSet) {
    forall addr | addr in a.ranges && addr in b.ranges :: |a.ranges[addr]| <= |b.ranges[addr]|
  }

  function Shared(a: WorkSet, b: WorkSet): set<nat> {
    a.ranges.Keys * b.ranges.Keys
  }

  /** Word w has a conflict in one of the ranges `addrs`. */
  predicate Hit(a: WorkSet, b: WorkSet, addrs: set<nat>, w: nat)
    requires Covers(b, a) && addrs <= Shared(a, b)
  {
    exists addr | addr in addrs :: RangeHit(a.ranges[addr], b.ranges[addr], addr, |a.ranges[addr]|, w)
  }

  /** The words with a conflict. */
  ghost function ConflictWords(a: WorkSet, b: WorkSet): (r: set<nat>)
    requires Covers(b, a)
    ensures forall w :: w in r <==> Hit(a, b, Shared(a, b), w)
  {
    var r := set addr, i, j
      | addr in Shared(a, b) && 0 <= i < |a.ranges[addr]| && 0 <= j < CHUNK &&
        Conflicts(a.ranges[addr][i], b.ranges[addr][i], j) :: WordOf(addr + CHUNK * i + 15 - j);
    assert forall w | w in r :: Hit(a, b, Shared(a, b), w) by {
      forall w | w in r ensures Hit(a, b, Shared(a, b), w) {
        var addr: nat, i: nat, j: nat :| addr in Shared(a, b) && 0 <= i < |a.ranges[addr]| && 0 <= j < CHUNK &&
          Conflicts(a.ranges[addr][i], b.ranges[addr][i], j) && w == WordOf(addr + CHUNK * i + 15 - j);
        assert ChunkHit(a.ranges[addr][i], b.ranges[addr][i], addr + CHUNK * i, CHUNK, w);
        assert RangeHit(a.ranges[addr], b.ranges[addr], addr, |a.ranges[addr]|, w);
      }
    }
    r
  }

  ghost function IoTerm(a: WorkSet, b: WorkSet, io: bool): nat {
    if io && (a.io || b.io) then 1 else 0
  }

  /** What compare returns for an empty list. */
  ghost function Dependences(a: WorkSet, b: WorkSet, io: bool): nat
    requires Covers(b, a)
  {
    |ConflictWords(a, b)| + IoTerm(a, b, io)
  }

  // ---- the relation is symmetric -----------------------------------------------------------------------------------

  lemma HitSymmetric(a: WorkSet, b: WorkSet, w: nat)
    requires Covers(b, a) && Covers(a, b) && Hit(a, b, Shared(a, b), w)
    ensures Hit(b, a, Shared(b, a), w)
  {
    var addr :| addr in Shared(a, b) && RangeHit(a.ranges[addr], b.ranges[addr], addr, |a.ranges[addr]|, w);
    var r1, r2 := a.ranges[addr], b.ranges[addr];
    var i :| 0 <= i < |r1| && ChunkHit(r1[i], r2[i], addr + CHUNK * i, CHUNK, w);
    var j :| 0 <= j < CHUNK && Conflicts(r1[i], r2[i], j) && w == WordOf(addr + CHUNK * i + 15 - j);
    assert Conflicts(r2[i], r1[i], j);
    assert ChunkHit(r2[i], r1[i], addr + CHUNK * i, CHUNK, w);
    assert RangeHit(r2, r1, addr, |r2|, w);
    assert addr in Shared(b, a);
  }

  lemma DependencesSymmetric(a: WorkSet, b: WorkSet, io: bool)
    requires Covers(b, a) && Covers(a, b)
    ensures Dependences(a, b, io) == Dependences(b, a, io)
  {
    forall w ensures w in ConflictWords(a, b) <==> w in ConflictWords(b, a) {
      if w in ConflictWords(a, b) {
        HitSymmetric(a, b, w);
      }
      if w in ConflictWords(b, a) {
        HitSymmetric(b, a, w);
      }
    }
    assert ConflictWords(a, b) == ConflictWords(b, a);
  }

  // ---- the bitmaps --------------------------------------------------------------------------------------------------

  function ReadBits(x: nat): nat { And(x, READ_MASK) }

  function WriteBits(x: nat): nat { And(x, WRITE_MASK) / 2 }

  function DependBits(x1: nat, x2: nat): nat {
    Or(Or(And(ReadBits(x1), WriteBits(x2)), And(ReadBits(x2), WriteBits(x1))), And(WriteBits(x1), WriteBits(x2)))
  }

  lemma ReadBit(x: nat, j: nat)
    requires j < CHUNK
    ensures EvenBit(ReadBits(x), j) <==> Reads(x, j)
  {
    Ones16();
    OnesBits(16, j);
    AndBit(x, READ_MASK, j);
  }

  lemma WriteBit(x: nat, j: nat)
    requires j < CHUNK
    ensures EvenBit(WriteBits(x), j) <==> Writes(x, j)
  {
    Ones16();
    OnesBits(16, j);
    AndTwice(x, WRITE_MASK);
    assert WRITE_MASK / 2 == READ_MASK;
    AndBit(x / 2, READ_MASK, j);
  }

  lemma MaskedSparse(x: nat)
    ensures Sparse(ReadBits(x), CHUNK) && Sparse(WriteBits(x), CHUNK)
  {
    Ones16();
    OnesSparse(x, 16);
    AndTwice(x, WRITE_MASK);
    assert WRITE_MASK / 2 == READ_MASK;
    OnesSparse(x / 2, 16);
  }

  /** The bit trick finds the conflicts. */
  lemma DependBit(x1: nat, x2: nat, j: nat)
    requires j < CHUNK
    ensures EvenBit(DependBits(x1, x2), j) <==> Conflicts(x1, x2, j)
  {
    var r1, w1, r2, w2 := ReadBits(x1), WriteBits(x1), ReadBits(x2), WriteBits(x2);
    ReadBit(x1, j);
    ReadBit(x2, j);
    WriteBit(x1, j);
    WriteBit(x2, j);
    AndBit(r1, w2, j);
    AndBit(r2, w1, j);
    AndBit(w1, w2, j);
    OrBit(And(r1, w2), And(r2, w1), j);
    OrBit(Or(And(r1, w2), And(r2, w1)), And(w1, w2), j);
  }

  lemma DependSparse(x1: nat, x2: nat)
    ensures Sparse(DependBits(x1, x2), CHUNK)
  {
    var r1, w1, r2, w2 := ReadBits(x1), WriteBits(x1), ReadBits(x2), WriteBits(x2);
    MaskedSparse(x1);
    MaskedSparse(x2);
    AndSparse(r1, w2, CHUNK);
    AndSparse(r2, w1, CHUNK);
    AndSparse(w1, w2, CHUNK);
    OrSparse(And(r1, w2), And(r2, w1), CHUNK);
    OrSparse(Or(And(r1, w2), And(r2, w1)), And(w1, w2), CHUNK);
  }

  /** x >> 2 * j. */
  function Shifted(x: nat, j: nat): nat {
    if j == 0 then x else Shifted(x, j - 1) / 4
  }

  lemma {:induction false} ShiftedFirst(x: nat, j: nat)
    requires j > 0
    ensures Shifted(x, j) == Shifted(x / 4, j - 1)
  {
    if j > 1 {
      ShiftedFirst(x, j - 1);
    }
  }

  lemma {:induction false} ShiftedBit(x: nat, j: nat)
    ensures Shifted(x, j) % 2 == 1 <==> EvenBit(x, j)
    decreases j
  {
    if j > 0 {
      ShiftedFirst(x, j);
      ShiftedBit(x / 4, j - 1);
    }
  }

  // ---- WorkSet.compare ------------------------------------------------------------------------------------------------

  predicate NoDup(s: seq<Key>) {
    forall i, j | 0 <= i < j < |s| :: s[i] != s[j]
  }

  /** One address of the inner loop. */
  method Record(la: nat, list: seq<Key>, count: int) returns (r: seq<Key>, c: int)
    ensures (NoDup(list) ==> NoDup(r)) && |r| - c == |list| - (count - 1)
    ensures forall k :: k in r <==> k in list || k == Word(WordOf(la))
  {
    r, c := list, count;
    var myLa := la;
    if la % 4 != 0 {
      myLa := (la - la % 4) % 0x1_0000_0000;
    }
    if Word(myLa) !in r {
      r := r + [Word(myLa)];
    } else {
      c := c - 1;
    }
  }

  /** The body of the inner loop, for byte j. */
  method CompareByte(x1: nat, x2: nat, base: nat, j: nat, depends: nat, ghost list: seq<Key>, s: seq<Key>, count: int)
      returns (r: seq<Key>, c: int)
    requires j < CHUNK && depends == Shifted(DependBits(x1, x2), j)
    requires forall k :: k in s <==> k in list || (k.Word? && ChunkHit(x1, x2, base, j, k.addr))
    ensures (NoDup(s) ==> NoDup(r)) && |r| - c == |s| - (count - depends % 2)
    ensures forall k :: k in r <==> k in list || (k.Word? && ChunkHit(x1, x2, base, j + 1, k.addr))
  {
    DependBit(x1, x2, j);
    ShiftedBit(DependBits(x1, x2), j);
    ChunkHitNext(x1, x2, base, j);
    r, c := s, count;
    if depends % 2 == 1 {
      r, c := Record(base + 15 - j, s, count);
    }
  }

  /** One pair of bitmaps. */
  method CompareChunk(x1: nat, x2: nat, base: nat, list: seq<Key>, count: int) returns (r: seq<Key>, c: int)
    ensures (NoDup(list) ==> NoDup(r)) && |r| - c == |list| - count
    ensures forall k :: k in r <==> k in list || (k.Word? && ChunkHit(x1, x2, base, CHUNK, k.addr))
  {
    var reads1, writes1 := And(x1, READ_MASK), And(x1, WRITE_MASK) / 2;
    var reads2, writes2 := And(x2, READ_MASK), And(x2, WRITE_MASK) / 2;
    var depends := Or(Or(And(reads1, writes2), And(reads2, writes1)), And(writes1, writes2));
    ghost var bits := DependBits(x1, x2);
    DependSparse(x1, x2);
    var pop := Population(depends);
    r, c := list, count + pop;
    if pop != 0 {
      r, c := CompareBytes(x1, x2, base, depends, r, c);
    } else {
      NoBits(bits, CHUNK);
      NoHits(x1, x2, base);
    }
  }

  /** The inner loop, for the conflicts of one pair of bitmaps. */
  method CompareBytes(x1: nat, x2: nat, base: nat, all: nat, list: seq<Key>, count: int) returns (r: seq<Key>, c: int)
    requires all == DependBits(x1, x2) && Sparse(all, CHUNK)
    ensures (NoDup(list) ==> NoDup(r)) && |r| - c == |list| - (count - Pop(all))
    ensures forall k :: k in r <==> k in list || (k.Word? && ChunkHit(x1, x2, base, CHUNK, k.addr))
  {
    r, c := list, count;
    var depends, j := all, 0;
    while j < CHUNK
      invariant j <= CHUNK && depends == Shifted(all, j) && Sparse(depends, CHUNK - j)
      invariant (NoDup(list) ==> NoDup(r)) && |r| - (c - Pop(depends)) == |list| - (count - Pop(all))
      invariant forall k :: k in r <==> k in list || (k.Word? && ChunkHit(x1, x2, base, j, k.addr))
    {
      r, c := CompareByte(x1, x2, base, j, depends, list, r, c);
      NextBits(all, depends, j);
      depends := depends / 4;
      j := j + 1;
    }
    assert Pop(depends) == 0;
  }

  lemma NextBits(all: nat, depends: nat, j: nat)
    requires j < CHUNK && depends == Shifted(all, j) && Sparse(depends, CHUNK - j)
    ensures depends / 4 == Shifted(all, j + 1) && Sparse(depends / 4, CHUNK - (j + 1))
    ensures Pop(depends) == depends % 2 + Pop(depends / 4)
  {
    PopSparse(depends, CHUNK - j);
  }

  lemma ChunkHitNext(x1: nat, x2: nat, base: nat, j: nat)
    requires j < CHUNK
    ensures forall w ::
      ChunkHit(x1, x2, base, j + 1, w) <==>
      ChunkHit(x1, x2, base, j, w) || (Conflicts(x1, x2, j) && w == WordOf(base + 15 - j))
  {
  }

  lemma NoHits(x1: nat, x2: nat, base: nat)
    requires DependBits(x1, x2) == 0
    ensures forall w :: !ChunkHit(x1, x2, base, CHUNK, w)
  {
    forall j: nat | j < CHUNK ensures !Conflicts(x1, x2, j) {
      DependBit(x1, x2, j);
      ZeroBit(j);
    }
  }

  /** The ranges of one shared key. */
  method CompareRange(r1: seq<nat>, r2: seq<nat>, addr: nat, list: seq<Key>, count: int) returns (r: seq<Key>, c: int)
    requires |r1| <= |r2|
    ensures (NoDup(list) ==> NoDup(r)) && |r| - c == |list| - count
    ensures forall k :: k in r <==> k in list || (k.Word? && RangeHit(r1, r2, addr, |r1|, k.addr))
  {
    r, c := list, count;
    for i := 0 to |r1|
      invariant (NoDup(list) ==> NoDup(r)) && |r| - c == |list| - count
      invariant forall k :: k in r <==> k in list || (k.Word? && RangeHit(r1, r2, addr, i, k.addr))
    {
      r, c := CompareChunk(r1[i], r2[i], addr + CHUNK * i, r, c);
    }
  }

  /** compare, for any list that is passed in: its final assertion holds exactly if that was empty. */
  method CompareInto(a: WorkSet, b: WorkSet, list: seq<Key>, io: bool) returns (r: seq<Key>, c: int)
    requires Covers(b, a)
    ensures |r| == c + |list| && (NoDup(list) && Io !in list ==> NoDup(r))
    ensures |r| == c <==> list == []
    ensures forall k :: k in r <==> k in list || (k.Word? && Hit(a, b, Shared(a, b), k.addr)) || (k == Io && io && (a.io || b.io))
  {
    r, c := list, 0;
    if io && (a.io || b.io) {
      c := 1;
      r := r + [Io];
    }
    r, c := CompareShared(a, b, r, c);
  }

  /** The loop over the keys that both sets have. */
  method CompareShared(a: WorkSet, b: WorkSet, list: seq<Key>, count: int) returns (r: seq<Key>, c: int)
    requires Covers(b, a)
    ensures (NoDup(list) ==> NoDup(r)) && |r| - c == |list| - count
    ensures forall k :: k in r <==> k in list || (k.Word? && Hit(a, b, Shared(a, b), k.addr))
  {
    r, c := list, count;
    var todo := a.ranges.Keys * b.ranges.Keys;
    ghost var done: set<nat> := {};
    while todo != {}
      invariant done + todo == Shared(a, b)
      invariant (NoDup(list) ==> NoDup(r)) && |r| - c == |list| - count
      invariant forall k :: k in r <==> k in list || (k.Word? && Hit(a, b, done, k.addr))
      decreases |todo|
    {
      var addr :| addr in todo;
      r, c := CompareRange(a.ranges[addr], b.ranges[addr], addr, r, c);
      HitGrows(a, b, done, addr);
      MovedOn(done, todo, addr);
      todo, done := todo - {addr}, done + {addr};
    }
    assert done == Shared(a, b);
  }

  lemma MovedOn(done: set<nat>, todo: set<nat>, addr: nat)
    requires addr in todo
    ensures (done + {addr}) + (todo - {addr}) == done + todo && |todo - {addr}| < |todo|
  {
  }

  lemma HitGrows(a: WorkSet, b: WorkSet, done: set<nat>, addr: nat)
    requires Covers(b, a) && done <= Shared(a, b) && addr in Shared(a, b)
    ensures forall w ::
      Hit(a, b, done + {addr}, w) <==>
      Hit(a, b, done, w) || RangeHit(a.ranges[addr], b.ranges[addr], addr, |a.ranges[addr]|, w)
  {
  }

  /** compare with an empty list: the number of distinct words with a conflict, and one for input and
  output. */
  method Compare(a: WorkSet, b: WorkSet, io: bool) returns (c: nat, list: seq<Key>)
    requires Covers(b, a)
    ensures c == Dependences(a, b, io) == |list| && NoDup(list)
    ensures forall k :: k in list <==> (k.Word? && k.addr in ConflictWords(a, b)) || (k == Io && IoTerm(a, b, io) == 1)
  {
    list, c := CompareInto(a, b, [], io);
    CountKeys(list, ConflictWords(a, b), IoTerm(a, b, io) == 1);
  }

  /** A list without repetition is as long as the set it lists. */
  lemma {:induction false} CountKeys(list: seq<Key>, words: set<nat>, io: bool)
    requires NoDup(list) && forall k :: k in list <==> (k.Word? && k.addr in words) || (k == Io && io)
    ensures |list| == |words| + if io then 1 else 0
    decreases |list|
  {
    if list == [] {
      assert forall w | w in words :: Word(w) in list;
      assert words == {};
      assert io ==> Io in list;
    } else {
      var k, rest := list[0], list[1..];
      assert forall x :: x in list <==> x == k || x in rest;
      assert k !in rest;
      if k == Io {
        CountKeys(rest, words, false);
      } else {
        assert k.addr in words;
        CountKeys(rest, words - {k.addr}, io);
      }
    }
  }
}
