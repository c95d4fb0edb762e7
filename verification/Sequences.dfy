/** Lists as sequences, and how operations on them change what they hold. */
module Sequences {

  datatype Option<T> = None | Some(value: T)

  function RemoveAt<T>(s: seq<T>, i: nat): seq<T>
    requires i < |s|
  {
    s[..i] + s[i + 1..]
  }

  function InsertAt<T>(s: seq<T>, i: nat, x: T): seq<T>
    requires i <= |s|
  {
    s[..i] + [x] + s[i..]
  }

  lemma InsertAtIndex<T>(s: seq<T>, i: nat, x: T, k: nat)
    requires i <= |s| && k <= |s|
    ensures InsertAt(s, i, x)[k] == if k < i then s[k] else if k == i then x else s[k - 1]
  {
  }

  /** The n numbers from a on. */
  ghost function Range(a: nat, n: nat): (r: seq<nat>)
    ensures |r| == n && forall k | 0 <= k < n :: r[k] == a + k
  {
    seq(n, k requires 0 <= k => a + k)
  }

  lemma RangeSplit(a: nat, m: nat, n: nat)
    ensures Range(a, m) + Range(a + m, n) == Range(a, m + n)
  {
  }

  function Min(a: nat, b: nat): nat {
    if a <= b then a else b
  }

  lemma Assoc<T>(a: seq<T>, b: seq<T>, c: seq<T>)
    ensures a + (b + c) == a + b + c
  {
  }

  lemma SplitLast<T>(s: seq<T>) returns (rest: seq<T>, last: T)
    requires s != []
    ensures s == rest + [last] && |rest| < |s|
  {
    rest, last := s[..|s| - 1], s[|s| - 1];
  }

  lemma TailConcat<T>(a: seq<T>, b: seq<T>)
    requires a != []
    ensures (a + b)[0] == a[0] && (a + b)[1..] == a[1..] + b
  {
  }

  function RemoveFirst(s: seq<nat>, x: nat): seq<nat> {
    if s == [] then [] else if s[0] == x then s[1..] else [s[0]] + RemoveFirst(s[1..], x)
  }

  lemma {:induction false} RemoveFirstCounts(s: seq<nat>, x: nat)
    ensures x in s ==> multiset(s) == multiset(RemoveFirst(s, x)) + multiset{x}
    ensures x !in s ==> RemoveFirst(s, x) == s
  {
    if s != [] {
      assert s == [s[0]] + s[1..];
      if s[0] != x {
        RemoveFirstCounts(s[1..], x);
      }
    }
  }

  lemma RemoveAtCounts<T>(s: seq<T>, i: nat)
    requires i < |s|
    ensures multiset(s) == multiset(RemoveAt(s, i)) + multiset{s[i]}
  {
    assert s == s[..i] + [s[i]] + s[i + 1..];
  }

  lemma InsertCounts<T>(s: seq<T>, i: nat, x: T)
    requires i <= |s|
    ensures multiset(s[..i] + [x] + s[i..]) == multiset(s) + multiset{x}
  {
    assert s == s[..i] + s[i..];
  }

  lemma CancelOne(a: multiset<nat>, a': multiset<nat>, b: multiset<nat>, b': multiset<nat>, l: multiset<nat>,
                  s: multiset<nat>, x: nat)
    requires a == a' + multiset{x} && b == b' + multiset{x} && a + l == b + s
    ensures a' + l == b' + s
  {
    forall y: nat ensures (a' + l)[y] == (b' + s)[y] {
      assert (a + l)[y] == (b + s)[y];
    }
  }

  lemma AddOne(a: multiset<nat>, b: multiset<nat>, b': multiset<nat>, s: multiset<nat>, x: nat)
    requires a + multiset{} == b + s && b' == b + multiset{x}
    ensures a + multiset{x} == b' + s
  {
    forall y: nat ensures (a + multiset{x})[y] == (b' + s)[y] {
      assert (a + multiset{})[y] == (b + s)[y];
    }
  }

  /** list_move behind another entry that is known to be there. */
  function MoveBehind(f: seq<nat>, id: nat, mark: nat): seq<nat> {
    if f == [] then [] else if f[0] == mark then [mark, id] + f[1..] else [f[0]] + MoveBehind(f[1..], id, mark)
  }

  lemma {:induction false} MoveBehindCounts(f: seq<nat>, id: nat, mark: nat)
    requires mark in f
    ensures multiset(MoveBehind(f, id, mark)) == multiset(f) + multiset{id}
  {
    assert f == [f[0]] + f[1..];
    if f[0] != mark {
      MoveBehindCounts(f[1..], id, mark);
    }
  }

  lemma TakeOverCounts(f: seq<nat>, a: nat, b: nat)
    requires a in f && b in RemoveFirst(f, a)
    ensures multiset(MoveBehind(RemoveFirst(f, a), a, b)) == multiset(f)
  {
    RemoveFirstCounts(f, a);
    MoveBehindCounts(RemoveFirst(f, a), a, b);
  }
}
