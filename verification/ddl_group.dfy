/**
 * Ordering and grouping of composite foreign-key columns by the table they reference:
 * Python's stable `list.sort` by `ref_tab`, followed by `itertools.groupby` on the same
 * key.
 */
module DdlGroup {
  import opened DdlText
  import opened DdlSchema

  /** The sort and grouping key: the referenced table (callers check that it is present). */
  function Key(c: Column): string {
    if c.refTab.Some? then c.refTab.value else ""
  }

  ghost predicate SortedByKey(cs: seq<Column>) {
    forall i, j :: 0 <= i < j < |cs| ==> StrLe(Key(cs[i]), Key(cs[j]))
  }

  /** The columns with key `k`, in their order in `cs`. */
  function FilterKey(cs: seq<Column>, k: string): seq<Column>
    decreases |cs|
  {
    if |cs| == 0 then []
    else (if Key(cs[0]) == k then [cs[0]] else []) + FilterKey(cs[1..], k)
  }

  /** What the filter lists comes from the input and has the key. */
  lemma {:induction false} FilterKeyMember(cs: seq<Column>, k: string, x: Column)
    requires x in FilterKey(cs, k)
    ensures x in cs && Key(x) == k
    decreases |cs|
  {
    if x != cs[0] || Key(cs[0]) != k {
      FilterKeyMember(cs[1..], k, x);
    }
  }

  /** Every input column with the key is listed. */
  lemma {:induction false} FilterKeyHas(cs: seq<Column>, k: string, i: nat)
    requires i < |cs| && Key(cs[i]) == k
    ensures cs[i] in FilterKey(cs, k)
    decreases i
  {
    if i > 0 {
      FilterKeyHas(cs[1..], k, i - 1);
    }
  }

  lemma {:induction false} FilterKeyAppend(a: seq<Column>, b: seq<Column>, k: string)
    ensures FilterKey(a + b, k) == FilterKey(a, k) + FilterKey(b, k)
    decreases |a|
  {
    if |a| > 0 {
      assert (a + b)[1..] == a[1..] + b;
      FilterKeyAppend(a[1..], b, k);
    } else {
      assert a + b == b;
    }
  }

  lemma {:induction false} FilterKeyNone(cs: seq<Column>, k: string)
    requires forall i :: 0 <= i < |cs| ==> Key(cs[i]) != k
    ensures FilterKey(cs, k) == []
    decreases |cs|
  {
    if |cs| > 0 {
      FilterKeyNone(cs[1..], k);
    }
  }

  lemma {:induction false} FilterKeyAll(cs: seq<Column>, k: string)
    requires forall i :: 0 <= i < |cs| ==> Key(cs[i]) == k
    ensures FilterKey(cs, k) == cs
    decreases |cs|
  {
    if |cs| > 0 {
      FilterKeyAll(cs[1..], k);
      assert cs == [cs[0]] + cs[1..];
    }
  }

  /* ---------- stable sort ---------- */

  /** Puts `c` before the first column whose key is not smaller. */
  function Insert(c: Column, xs: seq<Column>): seq<Column>
    decreases |xs|
  {
    if |xs| == 0 || StrLe(Key(c), Key(xs[0])) then [c] + xs
    else [xs[0]] + Insert(c, xs[1..])
  }

  /** Insertion sort by key; an earlier column is inserted in front of later columns with
      the same key, so columns with equal keys keep their order. */
  function SortByKey(cs: seq<Column>): seq<Column>
    decreases |cs|
  {
    if |cs| == 0 then [] else Insert(cs[0], SortByKey(cs[1..]))
  }

  lemma {:induction false} InsertMultiset(c: Column, xs: seq<Column>)
    ensures multiset(Insert(c, xs)) == multiset(xs) + multiset{c}
    decreases |xs|
  {
    if |xs| > 0 && !StrLe(Key(c), Key(xs[0])) {
      InsertMultiset(c, xs[1..]);
      assert xs == [xs[0]] + xs[1..];
    }
  }

  lemma {:induction false} InsertSorted(c: Column, xs: seq<Column>)
    requires SortedByKey(xs)
    ensures SortedByKey(Insert(c, xs))
    decreases |xs|
  {
    if |xs| == 0 || StrLe(Key(c), Key(xs[0])) {
      var r := [c] + xs;
      forall i, j | 0 <= i < j < |r|
        ensures StrLe(Key(r[i]), Key(r[j]))
      {
        if i == 0 && j > 1 {
          StrLeTransitive(Key(c), Key(xs[0]), Key(xs[j - 1]));
        }
      }
    } else {
      StrLeTotal(Key(c), Key(xs[0]));
      var rest := Insert(c, xs[1..]);
      InsertSorted(c, xs[1..]);
      InsertMultiset(c, xs[1..]);
      var r := [xs[0]] + rest;
      forall i, j | 0 <= i < j < |r|
        ensures StrLe(Key(r[i]), Key(r[j]))
      {
        if i == 0 {
          var y := rest[j - 1];
          assert y in multiset(rest);
          assert y == c || y in xs[1..];
        }
      }
    }
  }

  /** Inserting `c` puts it first among its key's columns and changes no other key's. */
  lemma {:induction false} InsertFilter(c: Column, xs: seq<Column>, k: string)
    ensures FilterKey(Insert(c, xs), k) == (if Key(c) == k then [c] else []) + FilterKey(xs, k)
    decreases |xs|
  {
    if |xs| == 0 || StrLe(Key(c), Key(xs[0])) {
      assert ([c] + xs)[1..] == xs;
    } else {
      StrLeReflexive(Key(c));
      InsertFilter(c, xs[1..], k);
      assert ([xs[0]] + Insert(c, xs[1..]))[1..] == Insert(c, xs[1..]);
    }
  }

  /** The sort puts keys in order. */
  lemma {:induction false} SortByKeySorted(cs: seq<Column>)
    ensures SortedByKey(SortByKey(cs))
    decreases |cs|
  {
    if |cs| > 0 {
      SortByKeySorted(cs[1..]);
      InsertSorted(cs[0], SortByKey(cs[1..]));
    }
  }

  /** The sort keeps the same columns. */
  lemma {:induction false} SortByKeyPermutes(cs: seq<Column>)
    ensures multiset(SortByKey(cs)) == multiset(cs)
    decreases |cs|
  {
    if |cs| > 0 {
      SortByKeyPermutes(cs[1..]);
      InsertMultiset(cs[0], SortByKey(cs[1..]));
      assert cs == [cs[0]] + cs[1..];
    }
  }

  /** The sort keeps the order of the columns of each key: it is stable. */
  lemma {:induction false} SortByKeyStable(cs: seq<Column>, k: string)
    ensures FilterKey(SortByKey(cs), k) == FilterKey(cs, k)
    decreases |cs|
  {
    if |cs| > 0 {
      SortByKeyStable(cs[1..], k);
      InsertFilter(cs[0], SortByKey(cs[1..]), k);
    }
  }

  /** Python's `sort` is a stable sort: keys in order, the same columns, and the columns
      of each key in their original order. */
  lemma SortByKeyCorrect(cs: seq<Column>)
    ensures SortedByKey(SortByKey(cs))
    ensures multiset(SortByKey(cs)) == multiset(cs)
    ensures forall k :: FilterKey(SortByKey(cs), k) == FilterKey(cs, k)
  {
    SortByKeySorted(cs);
    SortByKeyPermutes(cs);
    forall k {
      SortByKeyStable(cs, k);
    }
  }

  /** Dropping the first column drops it from its key's list only. */
  lemma FilterKeyTail(cs: seq<Column>, k: string)
    requires |cs| > 0
    ensures Key(cs[0]) == k ==> FilterKey(cs, k) == [cs[0]] + FilterKey(cs[1..], k)
    ensures Key(cs[0]) != k ==> FilterKey(cs, k) == FilterKey(cs[1..], k)
  {
    assert FilterKey(cs, k) == (if Key(cs[0]) == k then [cs[0]] else []) + FilterKey(cs[1..], k);
    if Key(cs[0]) != k {
      assert [] + FilterKey(cs[1..], k) == FilterKey(cs[1..], k);
    }
  }

  /** In a sorted sequence the first key is the least. */
  lemma FirstKeyLeast(cs: seq<Column>, x: Column)
    requires SortedByKey(cs) && x in cs
    ensures StrLe(Key(cs[0]), Key(x))
  {
    var i :| 0 <= i < |cs| && cs[i] == x;
    if i == 0 {
      StrLeReflexive(Key(x));
    } else {
      assert StrLe(Key(cs[0]), Key(cs[i]));
    }
  }

  /** The first columns of two sorted sequences listing every key's columns alike agree. */
  lemma SameFirst(a: seq<Column>, b: seq<Column>)
    requires |a| > 0 && |b| > 0
    requires SortedByKey(a) && SortedByKey(b)
    requires forall k :: FilterKey(a, k) == FilterKey(b, k)
    ensures a[0] == b[0]
  {
    var m, m' := Key(a[0]), Key(b[0]);
    FilterKeyTail(a, m);
    FilterKeyTail(b, m');
    assert b[0] in FilterKey(a, m') by {
      assert FilterKey(a, m') == FilterKey(b, m');
    }
    assert a[0] in FilterKey(b, m) by {
      assert FilterKey(a, m) == FilterKey(b, m);
    }
    FilterKeyMember(a, m', b[0]);
    FirstKeyLeast(a, b[0]);
    FilterKeyMember(b, m, a[0]);
    FirstKeyLeast(b, a[0]);
    StrLeAntisymmetric(m, m');
    assert FilterKey(a, m)[0] == FilterKey(b, m)[0];
  }

  /** Two sequences sorted by key that list the columns of every key in the same order are
      equal: a stable sort by key has exactly one result, so any stable sort, Python's
      included, agrees with SortByKey. */
  lemma {:induction false} StableSortUnique(a: seq<Column>, b: seq<Column>)
    requires SortedByKey(a) && SortedByKey(b)
    requires forall k :: FilterKey(a, k) == FilterKey(b, k)
    ensures a == b
    decreases |a|
  {
    if |a| == 0 || |b| == 0 {
      if |a| > 0 {
        FilterKeyTail(a, Key(a[0]));
        assert false;
      } else if |b| > 0 {
        FilterKeyTail(b, Key(b[0]));
        assert false;
      }
    } else {
      SameFirst(a, b);
      forall k
        ensures FilterKey(a[1..], k) == FilterKey(b[1..], k)
      {
        FilterKeyTail(a, k);
        FilterKeyTail(b, k);
        if Key(a[0]) == k {
          assert FilterKey(a[1..], k) == FilterKey(a, k)[1..];
          assert FilterKey(b[1..], k) == FilterKey(b, k)[1..];
        }
      }
      assert SortedByKey(a[1..]) && SortedByKey(b[1..]) by {
        SortedSuffix(a, 1);
        SortedSuffix(b, 1);
      }
      StableSortUnique(a[1..], b[1..]);
      assert a == [a[0]] + a[1..] && b == [b[0]] + b[1..];
    }
  }

  lemma SortedSuffix(cs: seq<Column>, n: nat)
    requires SortedByKey(cs) && n <= |cs|
    ensures SortedByKey(cs[n..])
  {
    var t := cs[n..];
    forall i, j | 0 <= i < j < |t|
      ensures StrLe(Key(t[i]), Key(t[j]))
    {
      assert t[i] == cs[n + i] && t[j] == cs[n + j];
    }
  }

  /* ---------- grouping ---------- */

  /** The length of the leading run of columns sharing the first column's key. */
  function RunLength(cs: seq<Column>): (r: nat)
    requires |cs| > 0
    ensures 1 <= r <= |cs|
    ensures forall i :: 0 <= i < r ==> Key(cs[i]) == Key(cs[0])
    ensures r < |cs| ==> Key(cs[r]) != Key(cs[0])
    decreases |cs|
  {
    if |cs| == 1 || Key(cs[1]) != Key(cs[0]) then 1
    else 1 + RunLength(cs[1..])
  }

  /** `groupby`: the maximal runs of neighbouring columns with equal keys. */
  function Runs(cs: seq<Column>): seq<seq<Column>>
    decreases |cs|
  {
    if |cs| == 0 then []
    else
      var n := RunLength(cs);
      [cs[..n]] + Runs(cs[n..])
  }

  /** The key shared by a run. */
  function GroupKey(g: seq<Column>): string {
    if |g| == 0 then "" else Key(g[0])
  }

  function Flatten(gs: seq<seq<Column>>): seq<Column>
    decreases |gs|
  {
    if |gs| == 0 then [] else gs[0] + Flatten(gs[1..])
  }

  /** Together, in order, the runs are the input. */
  lemma {:induction false} RunsFlatten(cs: seq<Column>)
    ensures Flatten(Runs(cs)) == cs
    decreases |cs|
  {
    if |cs| > 0 {
      var n := RunLength(cs);
      RunsFlatten(cs[n..]);
      assert Runs(cs)[1..] == Runs(cs[n..]);
      assert cs == cs[..n] + cs[n..];
    }
  }

  /** Every run is non-empty, has a single key, and starts with an input column. */
  lemma {:induction false} RunsUniform(cs: seq<Column>, g: seq<Column>)
    requires g in Runs(cs)
    ensures |g| > 0 && g[0] in cs
    ensures forall i :: 0 <= i < |g| ==> Key(g[i]) == GroupKey(g)
    decreases |cs|
  {
    var n := RunLength(cs);
    if g != cs[..n] {
      RunsUniform(cs[n..], g);
    }
  }

  /** The keys after a sorted leading run all differ from the run's key. */
  lemma SortedTailAbove(cs: seq<Column>, n: nat)
    requires SortedByKey(cs) && 0 < n < |cs|
    requires Key(cs[n]) != Key(cs[0])
    ensures forall i :: n <= i < |cs| ==> Key(cs[i]) != Key(cs[0])
  {
    forall i | n < i < |cs|
      ensures Key(cs[i]) != Key(cs[0])
    {
      assert StrLe(Key(cs[0]), Key(cs[n])) && StrLe(Key(cs[n]), Key(cs[i]));
      if Key(cs[i]) == Key(cs[0]) {
        StrLeAntisymmetric(Key(cs[0]), Key(cs[n]));
      }
    }
  }

  /** After the leading run of a sorted sequence no column has the run's key. */
  lemma TailAvoidsHeadKey(cs: seq<Column>)
    requires SortedByKey(cs) && |cs| > 0
    ensures forall x :: x in cs[RunLength(cs)..] ==> Key(x) != Key(cs[0])
  {
    var n := RunLength(cs);
    if n < |cs| {
      SortedTailAbove(cs, n);
    }
    forall x | x in cs[n..]
      ensures Key(x) != Key(cs[0])
    {
      var i :| 0 <= i < |cs[n..]| && cs[n..][i] == x;
      assert x == cs[n + i];
    }
  }

  /** On sorted input every run is all the columns of its key, in their order. */
  lemma {:induction false} RunsAreFilters(cs: seq<Column>, g: seq<Column>)
    requires SortedByKey(cs) && g in Runs(cs)
    ensures g == FilterKey(cs, GroupKey(g))
    decreases |cs|
  {
    var n := RunLength(cs);
    var head, tail := cs[..n], cs[n..];
    var m := Key(cs[0]);
    assert cs == head + tail;
    RunsUniform(cs, g);
    FilterKeyAppend(head, tail, GroupKey(g));
    TailAvoidsHeadKey(cs);
    if g == head {
      FilterKeyAll(head, m);
      FilterKeyNone(tail, m);
    } else {
      assert g in Runs(tail);
      SortedSuffix(cs, n);
      RunsUniform(tail, g);
      RunsAreFilters(tail, g);
      assert GroupKey(g) != m;
      FilterKeyNone(head, GroupKey(g));
    }
  }

  /** On sorted input no two runs share a key: one group per referenced table. */
  lemma {:induction false} RunKeysDistinct(cs: seq<Column>, p: nat, q: nat)
    requires SortedByKey(cs) && p < q < |Runs(cs)|
    ensures GroupKey(Runs(cs)[p]) != GroupKey(Runs(cs)[q])
    decreases |cs|
  {
    var n := RunLength(cs);
    var tail := cs[n..];
    var rs := Runs(cs);
    assert rs == [cs[..n]] + Runs(tail);
    if p == 0 {
      RunsUniform(tail, rs[q]);
      TailAvoidsHeadKey(cs);
    } else {
      SortedSuffix(cs, n);
      RunKeysDistinct(tail, p - 1, q - 1);
    }
  }

  /** The composite foreign-key groups of a list: sorted stably by referenced table, then
      split into runs. Each group is exactly the list's columns referencing one table, in
      declaration order; no two groups reference the same table; every column is in one. */
  lemma GroupsOfColumns(cs: seq<Column>)
    ensures forall g :: g in Runs(SortByKey(cs)) ==> |g| > 0 && g == FilterKey(cs, GroupKey(g))
    ensures forall p, q :: 0 <= p < q < |Runs(SortByKey(cs))| ==>
              GroupKey(Runs(SortByKey(cs))[p]) != GroupKey(Runs(SortByKey(cs))[q])
    ensures multiset(Flatten(Runs(SortByKey(cs)))) == multiset(cs)
  {
    var sorted := SortByKey(cs);
    SortByKeyCorrect(cs);
    forall g | g in Runs(sorted)
      ensures |g| > 0 && g == FilterKey(cs, GroupKey(g))
    {
      RunsUniform(sorted, g);
      RunsAreFilters(sorted, g);
    }
    forall p, q | 0 <= p < q < |Runs(sorted)|
      ensures GroupKey(Runs(sorted)[p]) != GroupKey(Runs(sorted)[q])
    {
      RunKeysDistinct(sorted, p, q);
    }
    RunsFlatten(sorted);
  }
}
