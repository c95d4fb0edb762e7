/** crypto/scatterwalk.c and scatterwalk.h: walking the pages of a scatterlist.

Memory is one array of bytes; page p starts at p * PAGE_CACHE_SIZE, so that `page++` is
the physically next page. A mapped `walk->data` is the address of the walk's current byte.
*/
module ScatterWalk {
  import opened Sequences
  import opened CipherModes

  const PAGE_CACHE_SIZE: nat := 4096

  /** struct scatterlist */
  datatype Entry = Entry(page: nat, offset: nat, length: nat) {
    function Start(): nat { page * PAGE_CACHE_SIZE + offset }

    /** What len_this_page starts with. */
    function FirstPart(): (n: nat)
      ensures n <= length && n <= PAGE_CACHE_SIZE && (length > 0 ==> n > 0)
    {
      Min(length, PAGE_CACHE_SIZE - offset % PAGE_CACHE_SIZE)
    }

    /** The entry starts inside its page or does not go beyond the page that it starts in. */
    predicate Continues() { offset < PAGE_CACHE_SIZE || offset % PAGE_CACHE_SIZE + length <= PAGE_CACHE_SIZE }
  }

  /** scatterwalk_start insists on non-empty entries. */
  ghost predicate NonEmpty(sg: seq<Entry>) {
    forall e | e in sg :: e.length > 0
  }

  ghost predicate WellFormed(sg: seq<Entry>) {
    NonEmpty(sg) && forall e | e in sg :: e.Continues()
  }

  /** The addresses of a scatterlist's bytes, in order: what the fragments spell out together. */
  ghost function Addrs(sg: seq<Entry>): (r: seq<nat>) {
    if sg == [] then []
    else Range(sg[0].Start(), sg[0].length) + Addrs(sg[1..])
  }

  /** The addresses a walk comes to: an entry that is not used up goes on at the start of the next page. */
  ghost function EntryWalked(e: Entry): (r: seq<nat>)
    ensures |r| == e.length
  {
    Range(e.Start(), e.FirstPart()) + Range((e.page + 1) * PAGE_CACHE_SIZE, e.length - e.FirstPart())
  }

  ghost function Walked(sg: seq<Entry>): (r: seq<nat>) {
    if sg == [] then [] else EntryWalked(sg[0]) + Walked(sg[1..])
  }

  /** A walk comes to the bytes of an entry, in order, exactly if it continues. */
  lemma EntryWalkedIff(e: Entry)
    ensures EntryWalked(e) == Range(e.Start(), e.length) <==> e.Continues()
  {
    var n, next := e.FirstPart(), (e.page + 1) * PAGE_CACHE_SIZE;
    if n < e.length {
      assert EntryWalked(e)[n] == next && Range(e.Start(), e.length)[n] == e.Start() + n;
      assert e.Start() + n == next <==> e.offset + n == PAGE_CACHE_SIZE;
      RangeSplit(e.Start(), n, e.length - n);
    } else {
      assert EntryWalked(e) == Range(e.Start(), n);
    }
  }

  lemma ConcatEqual(a: seq<nat>, b: seq<nat>, c: seq<nat>, d: seq<nat>)
    requires |a| == |c|
    ensures a + b == c + d <==> a == c && b == d
  {
    if a + b == c + d {
      assert (a + b)[..|a|] == a && (a + b)[|a|..] == b && (c + d)[..|c|] == c && (c + d)[|c|..] == d;
    }
  }

  /** A walk comes to the bytes of a scatterlist, in order, exactly if all its entries continue. */
  lemma {:induction false} WalkedIff(sg: seq<Entry>)
    ensures |Walked(sg)| == |Addrs(sg)|
    ensures Walked(sg) == Addrs(sg) <==> forall e | e in sg :: e.Continues()
  {
    if sg != [] {
      EntryWalkedIff(sg[0]);
      WalkedIff(sg[1..]);
      ConcatEqual(EntryWalked(sg[0]), Walked(sg[1..]), Range(sg[0].Start(), sg[0].length), Addrs(sg[1..]));
      assert forall e | e in sg :: e == sg[0] || e in sg[1..];
    }
  }

  /** An entry that starts behind its page and crosses the end of another one: behind 3192 bytes the walk goes
      back to the start of the page after the one named. */
  lemma GoesAstray(page: nat)
    ensures var e := Entry(page, 5000, 4000);
      e.FirstPart() == 3192 && EntryWalked(e)[3192] == (page + 1) * PAGE_CACHE_SIZE != e.Start() + 3192
  {
  }

  lemma RangeDrop(a: nat, n: nat, k: nat, rest: seq<nat>)
    requires k <= n
    ensures (Range(a, n) + rest)[k..] == Range(a + k, n - k) + rest
  {
    var l, r := (Range(a, n) + rest)[k..], Range(a + k, n - k) + rest;
    assert forall i | 0 <= i < |l| :: l[i] == r[i];
  }

  /** A segment goes on over the next page and those behind it. */
  lemma NextPage(page: nat, segment: nat, part: nat, rest: seq<nat>)
    requires part == Min(segment, PAGE_CACHE_SIZE)
    ensures Range(page * PAGE_CACHE_SIZE, part) + (Range((page + 1) * PAGE_CACHE_SIZE, segment - part) + rest)
         == Range(page * PAGE_CACHE_SIZE, segment) + rest
  {
    var a, b := Range(page * PAGE_CACHE_SIZE, part), Range((page + 1) * PAGE_CACHE_SIZE, segment - part);
    Assoc(a, b, rest);
    if part < segment {
      RangeSplit(page * PAGE_CACHE_SIZE, part, segment - part);
    } else {
      assert a + b == a;
    }
  }

  lemma BehindRange(a: nat, n: nat, rest: seq<nat>)
    ensures (Range(a, n) + rest)[n..] == rest
  {
  }

  /** struct scatter_walk */
  class Walk {
    var sg: seq<Entry>        // the current entry and those after it
    var page: nat
    var offset: nat
    var lenThisPage: nat
    var lenThisSegment: nat

    function Data(): (a: nat)
      reads this
    {
      page * PAGE_CACHE_SIZE + offset
    }

    /** The bytes left in the page belong to the segment. */
    ghost predicate Valid()
      reads this
    {
      sg != [] && NonEmpty(sg) && lenThisPage <= lenThisSegment && lenThisPage <= PAGE_CACHE_SIZE
    }

    /** Addresses of the bytes not yet walked over. */
    ghost function Remaining(): (r: seq<nat>)
      reads this
      requires sg != [] && lenThisPage <= lenThisSegment
      ensures |r| >= lenThisSegment
      ensures forall k | 0 <= k < lenThisPage :: r[k] == Data() + k
    {
      Range(Data(), lenThisPage) + Behind()
    }

    /** What comes after this page. */
    ghost function Behind(): (r: seq<nat>)
      reads this
      requires sg != [] && lenThisPage <= lenThisSegment
      ensures |r| >= lenThisSegment - lenThisPage
    {
      Range((page + 1) * PAGE_CACHE_SIZE, lenThisSegment - lenThisPage) + Walked(sg[1..])
    }

    /** scatterwalk_start */
    constructor (list: seq<Entry>)
      requires list != [] && NonEmpty(list)
      ensures Valid() && lenThisPage > 0
      ensures Remaining() == Walked(list)
    {
      new;
      Start(list);
    }

    method Start(list: seq<Entry>)
      requires list != [] && NonEmpty(list)
      modifies this
      ensures Valid() && lenThisPage > 0
      ensures Remaining() == Walked(list)
    {
      sg := list;
      page := list[0].page;
      lenThisSegment := list[0].length;
      assert list[0] in list;
      var restOfPage := PAGE_CACHE_SIZE - list[0].offset % PAGE_CACHE_SIZE;
      lenThisPage := Min(list[0].length, restOfPage);
      offset := list[0].offset;
      Assoc(Range(Data(), lenThisPage), Range((page + 1) * PAGE_CACHE_SIZE, lenThisSegment - lenThisPage), Walked(list[1..]));
    }

    /** scatterwalk_clamp */
    function Clamp(n: nat): (r: nat)
      reads this
      ensures r <= n && r <= lenThisPage && (r == n || r == lenThisPage)
    {
      if n > lenThisPage then lenThisPage else n
    }

    /** scatterwalk_advance; its unsigned subtractions do not wrap. */
    method Advance(n: nat)
      requires Valid() && n <= lenThisPage
      modifies this
      ensures Valid() && sg == old(sg)
      ensures lenThisPage == old(lenThisPage) - n
      ensures Remaining() == old(Remaining())[n..]
    {
      RangeDrop(Data(), lenThisPage, n, Behind());
      offset := offset + n;
      lenThisPage := lenThisPage - n;
      lenThisSegment := lenThisSegment - n;
    }

    /** scatterwalk_pagedone: skip what is left of this page. */
    method PageDone(more: bool)
      requires Valid()
      requires more ==> |Remaining()| > lenThisPage
      modifies this
      ensures Valid()
      ensures !more ==> unchanged(this)
      ensures more ==> lenThisPage > 0 && Remaining() == old(Remaining())[old(lenThisPage)..]
    {
      if more {
        BehindRange(Data(), lenThisPage, Behind());
        Turn();
      }
    }

    method Turn()
      requires Valid() && |Behind()| > 0
      modifies this
      ensures Valid() && lenThisPage > 0 && Remaining() == old(Behind())
    {
      ghost var rest := Walked(sg[1..]);
      lenThisSegment := lenThisSegment - lenThisPage;
      if lenThisSegment != 0 {
        page := page + 1;
        lenThisPage := Min(lenThisSegment, PAGE_CACHE_SIZE);
        offset := 0;
        NextPage(page, lenThisSegment, lenThisPage, rest);
      } else {
        assert Range((page + 1) * PAGE_CACHE_SIZE, 0) + rest == rest;
        Start(sg[1..]);
      }
    }

    /** scatterwalk_done */
    method Done(more: nat)
      requires Valid()
      requires more > 0 ==> |Remaining()| > 0
      modifies this
      ensures Valid() && Remaining() == old(Remaining())
      ensures more > 0 ==> lenThisPage > 0
    {
      if lenThisPage == 0 || more == 0 {
        PageDone(more > 0);
      }
    }
  }
}
