/** scripts/sync_char_post.py: how many of the sampled critical sections conflict, how densely, and on which
words.

The samples are of different processes and hence different objects; they are identified by their
positions.  Floating point numbers are real numbers here.
*/
module ConflictStats {
  import opened Conflict

  predicate Comparable(ws: seq<WorkSet>) {
    forall i, j | 0 <= i < |ws| && 0 <= j < |ws| :: Covers(ws[j], ws[i])
  }

  ghost predicate Conflicting(ws: seq<WorkSet>, j: nat, k: nat)
    requires Comparable(ws) && j < |ws| && k < |ws|
  {
    j != k && Dependences(ws[j], ws[k], true) > 0
  }

  ghost predicate HasConflict(ws: seq<WorkSet>, j: nat, n: nat)
    requires Comparable(ws) && j < |ws| && n <= |ws|
  {
    exists k: nat | k < n :: Conflicting(ws, j, k)
  }

  lemma ConflictingSymmetric(ws: seq<WorkSet>, j: nat, k: nat)
    requires Comparable(ws) && j < |ws| && k < |ws| && Conflicting(ws, j, k)
    ensures Conflicting(ws, k, j)
  {
    DependencesSymmetric(ws[j], ws[k], true);
  }

  // ---- how many conflict --------------------------------------------------------------------------------------------

  predicate Increasing(s: seq<nat>) {
    forall i, j | 0 <= i < j < |s| :: s[i] < s[j]
  }

  /** c are the positions of the samples that conflict with some other sample. */
  ghost predicate Listed(ws: seq<WorkSet>, c: seq<nat>, n: nat)
    requires Comparable(ws) && n <= |ws|
  {
    && Increasing(c)
    && (forall i | 0 <= i < |c| :: c[i] < n && HasConflict(ws, c[i], |ws|))
    && (forall j: nat | j < n && HasConflict(ws, j, |ws|) :: j in c)
  }

  /** Conflicts come in pairs: whoever conflicts has a partner that is listed too. */
  lemma PartnerListed(ws: seq<WorkSet>, c: seq<nat>, i: nat) returns (p: nat)
    requires Comparable(ws) && Listed(ws, c, |ws|) && i < |c|
    ensures p < |c| && p != i && Conflicting(ws, c[i], c[p])
  {
    var k: nat :| k < |ws| && Conflicting(ws, c[i], k);
    ConflictingSymmetric(ws, c[i], k);
    assert HasConflict(ws, k, |ws|);
    p :| 0 <= p < |c| && c[p] == k;
  }

  /** The number of conflicting samples is never one, so it can be divided by one less. */
  lemma NeverOne(ws: seq<WorkSet>, c: seq<nat>)
    requires Comparable(ws) && Listed(ws, c, |ws|)
    ensures |c| != 1
  {
    if |c| > 0 {
      var p := PartnerListed(ws, c, 0);
    }
  }

  /** The first loop of a sample. */
  method CountConflicts(ws: seq<WorkSet>) returns (conflicting: nat, nonconflicting: nat, list: seq<nat>)
    requires Comparable(ws)
    ensures conflicting == |list| != 1 && conflicting + nonconflicting == |ws|
    ensures Listed(ws, list, |ws|)
  {
    conflicting, nonconflicting, list := 0, 0, [];
    for j := 0 to |ws|
      invariant conflicting == |list| && conflicting + nonconflicting == j
      invariant Listed(ws, list, j)
    {
      var found := Meets(ws, j);
      if found {
        conflicting := conflicting + 1;
        list := list + [j];
      } else {
        nonconflicting := nonconflicting + 1;
      }
    }
    NeverOne(ws, list);
  }

  /** The inner loop: is there another sample that j conflicts with? */
  method Meets(ws: seq<WorkSet>, j: nat) returns (found: bool)
    requires Comparable(ws) && j < |ws|
    ensures found <==> HasConflict(ws, j, |ws|)
  {
    for k := 0 to |ws|
      invariant !HasConflict(ws, j, k)
    {
      if j != k {
        var c, list := Compare(ws[j], ws[k], true);
        if c != 0 {
          assert Conflicting(ws, j, k);
          return true;
        }
      }
    }
    return false;
  }

  // ---- the histogram -----------------------------------------------------------------------------------------------

  ghost function Sum(m: map<Key, nat>): nat {
    if m == map[] then 0 else var k :| k in m; m[k] + Sum(m - {k})
  }

  lemma {:induction false} SumAny(m: map<Key, nat>, k: Key)
    requires k in m
    ensures Sum(m) == m[k] + Sum(m - {k})
    decreases |m|
  {
    var p :| p in m && Sum(m) == m[p] + Sum(m - {p});
    if p != k {
      SumAny(m - {p}, k);
      SumAny(m - {k}, p);
      assert m - {p} - {k} == m - {k} - {p};
    }
  }

  lemma SumStep(m: map<Key, nat>, done: set<Key>, k: Key)
    requires k in m && k !in done
    ensures Sum(m - done) == m[k] + Sum(m - (done + {k}))
  {
    SumAny(m - done, k);
    assert m - done - {k} == m - (done + {k});
  }

  lemma SumUpdate(m: map<Key, nat>, k: Key, v: nat)
    ensures Sum(m[k := v]) == Sum(m) - (if k in m then m[k] else 0) + v
  {
    var m' := m[k := v];
    SumAny(m', k);
    assert m' - {k} == m - {k};
    if k in m {
      SumAny(m, k);
    } else {
      assert m - {k} == m;
    }
  }

  /** No word and no input/output has more entries than there were conflicts, and each conflict has one. */
  ghost predicate Consistent(entries: map<Key, nat>, total: nat) {
    && (forall k | k in entries :: 0 < entries[k] <= total)
    && Sum(entries) >= total
  }

  function At(m: map<Key, nat>, k: Key): nat {
    if k in m then m[k] else 0
  }

  function BumpAll(m: map<Key, nat>, list: seq<Key>): map<Key, nat> {
    if list == [] then m
    else
      var r, k := BumpAll(m, list[..|list| - 1]), list[|list| - 1];
      r[k := At(r, k) + 1]
  }

  /** Each key of a list without repetition gets one more. */
  lemma {:induction false} BumpAllAt(m: map<Key, nat>, list: seq<Key>, k: Key)
    requires NoDup(list)
    ensures At(BumpAll(m, list), k) == At(m, k) + if k in list then 1 else 0
    ensures k in BumpAll(m, list) <==> k in m || k in list
  {
    if list != [] {
      var rest, last := list[..|list| - 1], list[|list| - 1];
      BumpAllAt(m, rest, k);
      assert list == rest + [last];
      assert last !in rest;
    }
  }

  lemma {:induction false} BumpAllSum(m: map<Key, nat>, list: seq<Key>)
    ensures Sum(BumpAll(m, list)) == Sum(m) + |list|
  {
    if list != [] {
      var rest, last := list[..|list| - 1], list[|list| - 1];
      BumpAllSum(m, rest);
      SumUpdate(BumpAll(m, rest), last, At(BumpAll(m, rest), last) + 1);
    }
  }

  lemma BumpKeeps(m: map<Key, nat>, total: nat, list: seq<Key>)
    requires Consistent(m, total) && NoDup(list) && list != []
    ensures Consistent(BumpAll(m, list), total + 1)
  {
    BumpAllSum(m, list);
    forall k | k in BumpAll(m, list) ensures 0 < BumpAll(m, list)[k] <= total + 1 {
      BumpAllAt(m, list, k);
    }
  }

  class Histogram {
    var entries: map<Key, nat>
    var total: nat

    ghost predicate Valid() reads this {
      Consistent(entries, total)
    }

    constructor ()
      ensures entries == map[] && total == 0 && Valid()
    {
      entries, total := map[], 0;
    }

    /** One more conflict, on the keys of the list. */
    method Record(list: seq<Key>)
      requires Valid() && NoDup(list) && list != []
      modifies this
      ensures Valid() && total == old(total) + 1 && entries == BumpAll(old(entries), list)
    {
      BumpKeeps(entries, total, list);
      for n := 0 to |list|
        invariant total == old(total) && entries == BumpAll(old(entries), list[..n])
      {
        assert list[..n + 1][..n] == list[..n];
        var k := list[n];
        entries := entries[k := At(entries, k) + 1];
      }
      assert list[..|list|] == list;
      total := total + 1;
    }
  }

  // ---- the density ----------------------------------------------------------------------------------------------------

  lemma Share(p: nat, m: nat)
    requires 1 <= p <= m
    ensures 1.0 / m as real <= p as real / m as real <= 1.0
  {
    var d := m as real;
    DivMonotone(1.0, p as real, d);
    DivMonotone(p as real, d, d);
  }

  lemma DivMonotone(a: real, b: real, d: real)
    requires d > 0.0 && a <= b
    ensures a / d <= b / d
  {
    Scaled(a / d, b / d, d);
  }

  lemma Scaled(x: real, y: real, d: real)
    requires d > 0.0
    ensures x > y ==> x * d > y * d
  {
    assert x > y ==> (x - y) * d > 0.0;
  }

  lemma OneMore(n: nat, m: nat)
    requires m > 0
    ensures (n + 1) as real / m as real == n as real / m as real + 1.0 / m as real
  {
  }

  /** The partners of one conflicting sample among the others. */
  method LocalConflicts(ws: seq<WorkSet>, list: seq<nat>, x: nat, h: Histogram) returns (local: nat)
    requires Comparable(ws) && Listed(ws, list, |ws|) && x < |list| && h.Valid()
    modifies h
    ensures 1 <= local <= |list| - 1 && h.Valid() && h.total == old(h.total) + local
  {
    ghost var p := PartnerListed(ws, list, x);
    local := 0;
    for y := 0 to |list|
      invariant h.Valid() && h.total == old(h.total) + local
      invariant local <= (if y > x then y - 1 else y) && (y > p ==> local >= 1)
    {
      if x != y {
        var dep, intersection := Compare(ws[list[x]], ws[list[y]], true);
        if dep > 0 {
          local := local + 1;
          assert |intersection| > 0;
          h.Record(intersection);
        }
      }
    }
  }

  /** The density of the conflicts of a sample: with c conflicting samples it is between c / (c - 1) and c. */
  method Density(ws: seq<WorkSet>, list: seq<nat>, h: Histogram) returns (density: real)
    requires Comparable(ws) && Listed(ws, list, |ws|) && h.Valid()
    modifies h
    ensures h.Valid()
    ensures list == [] ==> density == 0.0 && h.total == old(h.total)
    ensures list != [] ==> |list| > 1 && |list| as real / (|list| - 1) as real <= density <= |list| as real
  {
    NeverOne(ws, list);
    density := 0.0;
    for x := 0 to |list|
      invariant h.Valid()
      invariant x == 0 ==> density == 0.0 && h.total == old(h.total)
      invariant list != [] ==> x as real / (|list| - 1) as real <= density <= x as real
    {
      var local := LocalConflicts(ws, list, x, h);
      Share(local, |list| - 1);
      OneMore(x, |list| - 1);
      density := density + local as real / (|list| - 1) as real;
    }
  }

  /** One sample of calculate_new_data_independence. */
  method Sample(ws: seq<WorkSet>, h: Histogram) returns (conflicting: nat, nonconflicting: nat, density: real)
    requires Comparable(ws) && h.Valid()
    modifies h
    ensures h.Valid() && conflicting + nonconflicting == |ws| && conflicting != 1
    ensures conflicting == 0 ==> density == 0.0
    ensures conflicting > 0 ==> conflicting as real / (conflicting - 1) as real <= density <= conflicting as real
  {
    var list;
    conflicting, nonconflicting, list := CountConflicts(ws);
    density := Density(ws, list, h);
  }

  // ---- print_conflict_histogram --------------------------------------------------------------------------------------

  const SPLITS: nat := 5

  /** The column of an address with n of total conflicts. */
  function Column(n: nat, total: nat): int
    requires total > 0
  {
    (n as real / total as real * 5.0).Floor
  }

  lemma ColumnInRange(n: nat, total: nat)
    requires 0 < n <= total
    ensures 0 <= Column(n, total) <= SPLITS
  {
    Share(n, total);
  }

  /** The words of `keys` that belong in column i. */
  ghost function InColumn(entries: map<Key, nat>, total: nat, keys: set<Key>, i: nat): set<Key>
    requires total > 0 && keys <= entries.Keys
  {
    set k | k in keys && k.Word? && Column(entries[k], total) == i
  }

  ghost predicate Binned(categories: seq<nat>, entries: map<Key, nat>, total: nat, keys: set<Key>) {
    && total > 0 && keys <= entries.Keys && |categories| == SPLITS + 1
    && forall i: nat | i <= SPLITS :: categories[i] == |InColumn(entries, total, keys, i)|
  }

  /** One entry of the histogram. */
  method Bin(categories: array<nat>, entries: map<Key, nat>, total: nat, ghost done: set<Key>, k: Key)
    requires Binned(categories[..], entries, total, done) && k in entries && k !in done && 0 < entries[k] <= total
    modifies categories
    ensures Binned(categories[..], entries, total, done + {k})
  {
    NextColumn(entries, total, done, k);
    ColumnInRange(entries[k], total);
    if k != Io {
      var idx := Column(entries[k], total);
      categories[idx] := categories[idx] + 1;
    }
  }

  /** The columns of the report: every address is counted in the column of its share, which exists, and the
  entries are at least as many as the conflicts. */
  method Categories(entries: map<Key, nat>, total: nat) returns (categories: array<nat>, sanity: nat)
    requires Consistent(entries, total) && total > 0
    ensures fresh(categories) && Binned(categories[..], entries, total, entries.Keys)
    ensures sanity == Sum(entries) >= total
  {
    categories := new nat[SPLITS + 1](_ => 0);
    sanity := 0;
    var todo := entries.Keys;
    ghost var done: set<Key> := {};
    assert entries - {} == entries;
    while todo != {}
      invariant Part(entries, done, todo) && sanity + Sum(entries - done) == Sum(entries)
      invariant Binned(categories[..], entries, total, done)
      decreases |todo|
    {
      var k :| k in todo;
      PartStep(entries, done, todo, k);
      SumStep(entries, done, k);
      sanity := sanity + entries[k];
      Bin(categories, entries, total, done, k);
      todo, done := todo - {k}, done + {k};
    }
    AllDone(entries, done);
  }

  ghost predicate Part(entries: map<Key, nat>, done: set<Key>, todo: set<Key>) {
    done + todo == entries.Keys && done !! todo
  }

  lemma PartStep(entries: map<Key, nat>, done: set<Key>, todo: set<Key>, k: Key)
    requires Part(entries, done, todo) && k in todo
    ensures Part(entries, done + {k}, todo - {k}) && k in entries && k !in done
  {
  }

  lemma AllDone(entries: map<Key, nat>, done: set<Key>)
    requires Part(entries, done, {})
    ensures done == entries.Keys && Sum(entries - done) == 0
  {
    assert done == entries.Keys;
    assert entries - done == map[];
  }

  lemma NextColumn(entries: map<Key, nat>, total: nat, done: set<Key>, k: Key)
    requires total > 0 && done <= entries.Keys && k in entries && k !in done
    ensures forall i: nat ::
      |InColumn(entries, total, done + {k}, i)| ==
      |InColumn(entries, total, done, i)| + if k.Word? && Column(entries[k], total) == i then 1 else 0
  {
    forall i: nat
      ensures |InColumn(entries, total, done + {k}, i)| ==
        |InColumn(entries, total, done, i)| + if k.Word? && Column(entries[k], total) == i then 1 else 0
    {
      var a, b := InColumn(entries, total, done, i), InColumn(entries, total, done + {k}, i);
      assert b == if k.Word? && Column(entries[k], total) == i then a + {k} else a;
    }
  }
}
