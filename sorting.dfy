/**
 * Rust's `slice::sort_by` is a stable sort. It is modelled here by insertion sort, which is
 * stable as well: under a total preorder a stable sort has exactly one possible output.
 * `le(a, b)` means "a may come before b".
 */
module Sorting {

  ghost predicate Total<T(!new)>(le: (T, T) -> bool) {
    forall a, b :: le(a, b) || le(b, a)
  }

  ghost predicate Transitive<T(!new)>(le: (T, T) -> bool) {
    forall a, b, c :: le(a, b) && le(b, c) ==> le(a, c)
  }

  ghost predicate SortedBy<T>(xs: seq<T>, le: (T, T) -> bool) {
    forall i, j :: 0 <= i < j < |xs| ==> le(xs[i], xs[j])
  }

  /** Puts `x` in front of the first element it may precede. */
  function Insert<T>(x: T, s: seq<T>, le: (T, T) -> bool): (r: seq<T>)
    ensures multiset(r) == multiset(s) + multiset{x}
    ensures |r| == |s| + 1
  {
    if s == [] then [x]
    else if le(x, s[0]) then [x] + s
    else
      assert s == [s[0]] + s[1..];
      [s[0]] + Insert(x, s[1..], le)
  }

  function SortBy<T>(xs: seq<T>, le: (T, T) -> bool): (r: seq<T>)
    ensures multiset(r) == multiset(xs)
    ensures |r| == |xs|
  {
    if xs == [] then []
    else
      assert xs == [xs[0]] + xs[1..];
      Insert(xs[0], SortBy(xs[1..], le), le)
  }

  lemma {:induction false} InsertSorted<T(!new)>(x: T, s: seq<T>, le: (T, T) -> bool)
    requires Total(le) && Transitive(le)
    requires SortedBy(s, le)
    ensures SortedBy(Insert(x, s, le), le)
  {
    if s != [] && !le(x, s[0]) {
      InsertSorted(x, s[1..], le);
      var r := Insert(x, s, le);
      forall j | 0 < j < |r| ensures le(r[0], r[j]) {
        assert r[j] in multiset(Insert(x, s[1..], le));
      }
    }
  }

  /** The sort puts its input in order. */
  lemma {:induction false} SortBySorted<T(!new)>(xs: seq<T>, le: (T, T) -> bool)
    requires Total(le) && Transitive(le)
    ensures SortedBy(SortBy(xs, le), le)
  {
    if xs != [] {
      SortBySorted(xs[1..], le);
      InsertSorted(xs[0], SortBy(xs[1..], le), le);
    }
  }

  // ---------------------------------------------------------------------------
  // Sorting (key, score) pairs by descending score, as `sort_by(|x, y| y.1.cmp(&x.1))` does.

  function ScoreAtLeast<K>(a: (K, nat), b: (K, nat)): bool {
    a.1 >= b.1
  }

  lemma ScoreAtLeastIsPreorder<K(!new)>()
    ensures Total<(K, nat)>(ScoreAtLeast) && Transitive<(K, nat)>(ScoreAtLeast)
  {
  }

  /** Number of entries scoring more than `s`. */
  function CountAbove<K>(xs: seq<(K, nat)>, s: nat): (n: nat)
    ensures n <= |xs|
  {
    if xs == [] then 0 else (if xs[0].1 > s then 1 else 0) + CountAbove(xs[1..], s)
  }

  /** Number of entries before position `i` that score the same as entry `i`. */
  function CountTiedBefore<K>(xs: seq<(K, nat)>, i: nat): nat
    requires i < |xs|
  {
    if i == 0 then 0 else (if xs[0].1 == xs[i].1 then 1 else 0) + CountTiedBefore(xs[1..], i - 1)
  }

  /** The position of the first entry with key `k`, or `|xs|` when there is none. */
  function IndexOfKey<K(==)>(xs: seq<(K, nat)>, k: K): (r: nat)
    ensures r <= |xs|
    ensures r < |xs| ==> xs[r].0 == k
    ensures forall j :: 0 <= j < r ==> xs[j].0 != k
  {
    if xs == [] then 0 else if xs[0].0 == k then 0 else 1 + IndexOfKey(xs[1..], k)
  }

  /** A position with the key and none before it is the one `IndexOfKey` finds. */
  lemma IndexOfKeyUnique<K>(xs: seq<(K, nat)>, k: K, j: nat)
    requires j <= |xs| && (j < |xs| ==> xs[j].0 == k)
    requires forall i :: 0 <= i < j ==> xs[i].0 != k
    ensures IndexOfKey(xs, k) == j
  {
  }

  /** Score-descending sort yields a score-descending sequence. */
  lemma SortedByScore<K(!new)>(xs: seq<(K, nat)>)
    ensures SortedBy(SortBy(xs, ScoreAtLeast), ScoreAtLeast)
  {
    ScoreAtLeastIsPreorder<K>();
    SortBySorted(xs, ScoreAtLeast);
  }

  ghost predicate DistinctKeys<K>(xs: seq<(K, nat)>) {
    forall i, j :: 0 <= i < j < |xs| ==> xs[i].0 != xs[j].0
  }

  lemma {:induction false} CountAboveNone<K>(xs: seq<(K, nat)>, s: nat)
    requires forall j :: 0 <= j < |xs| ==> xs[j].1 <= s
    ensures CountAbove(xs, s) == 0
  {
    if xs != [] {
      CountAboveNone(xs[1..], s);
    }
  }

  lemma {:induction false} CountAboveInsert<K>(x: (K, nat), s: seq<(K, nat)>, t: nat)
    ensures CountAbove(Insert(x, s, ScoreAtLeast), t) == CountAbove(s, t) + (if x.1 > t then 1 else 0)
  {
    if s != [] && !ScoreAtLeast(x, s[0]) {
      CountAboveInsert(x, s[1..], t);
    }
  }

  /** Sorting does not change how many entries score above a threshold. */
  lemma {:induction false} CountAboveSort<K>(xs: seq<(K, nat)>, t: nat)
    ensures CountAbove(SortBy(xs, ScoreAtLeast), t) == CountAbove(xs, t)
  {
    if xs != [] {
      CountAboveSort(xs[1..], t);
      CountAboveInsert(xs[0], SortBy(xs[1..], ScoreAtLeast), t);
    }
  }

  /** Inserting an entry whose key is new: it lands after exactly the entries that score more. */
  lemma {:induction false} InsertPositionOfNew<K(!new)>(x: (K, nat), s: seq<(K, nat)>)
    requires SortedBy(s, ScoreAtLeast)
    requires IndexOfKey(s, x.0) == |s|
    ensures IndexOfKey(Insert(x, s, ScoreAtLeast), x.0) == CountAbove(s, x.1)
    ensures Insert(x, s, ScoreAtLeast)[CountAbove(s, x.1)] == x
  {
    if s == [] {
    } else if ScoreAtLeast(x, s[0]) {
      CountAboveNone(s, x.1);
    } else {
      assert s[0].0 != x.0;
      assert IndexOfKey(s[1..], x.0) == |s[1..]|;
      InsertPositionOfNew(x, s[1..]);
    }
  }

  /** Inserting an entry with another key moves that key back by one exactly when the new entry scores at least as much. */
  lemma {:induction false} InsertPositionOfOther<K(!new)>(x: (K, nat), s: seq<(K, nat)>, k: K)
    requires SortedBy(s, ScoreAtLeast)
    requires k != x.0 && IndexOfKey(s, k) < |s|
    ensures var p := IndexOfKey(s, k);
      var q := p + (if x.1 >= s[p].1 then 1 else 0);
      IndexOfKey(Insert(x, s, ScoreAtLeast), k) == q && q < |s| + 1 && Insert(x, s, ScoreAtLeast)[q] == s[p]
  {
    var p := IndexOfKey(s, k);
    if ScoreAtLeast(x, s[0]) {
      assert Insert(x, s, ScoreAtLeast) == [x] + s;
      assert s[p].1 <= s[0].1;
      IndexOfKeyUnique([x] + s, k, p + 1);
    } else {
      var tail := Insert(x, s[1..], ScoreAtLeast);
      assert Insert(x, s, ScoreAtLeast) == [s[0]] + tail;
      if p > 0 {
        assert IndexOfKey(s[1..], k) == p - 1;
        assert SortedBy(s[1..], ScoreAtLeast);
        InsertPositionOfOther(x, s[1..], k);
      }
    }
  }

  /**
   * The rank formula of a stable descending sort: the entry at position `i` of `xs` ends up
   * behind every entry that scores more and behind the equal-scoring entries that came before it,
   * and no earlier position of the result carries its key.
   */
  lemma {:induction false} PositionAfterSort<K(!new)>(xs: seq<(K, nat)>, i: nat)
    requires DistinctKeys(xs) && i < |xs|
    ensures var p := CountAbove(xs, xs[i].1) + CountTiedBefore(xs, i);
      IndexOfKey(SortBy(xs, ScoreAtLeast), xs[i].0) == p && p < |xs| && SortBy(xs, ScoreAtLeast)[p] == xs[i]
  {
    if i == 0 {
      PositionOfHead(xs);
    } else {
      var rest := xs[1..];
      assert rest[i - 1] == xs[i];
      assert DistinctKeys(rest) by {
        forall a, b | 0 <= a < b < |rest| ensures rest[a].0 != rest[b].0 {
          assert rest[a] == xs[a + 1] && rest[b] == xs[b + 1];
        }
      }
      PositionAfterSort(rest, i - 1);
      PositionOfLater(xs, i);
    }
  }

  /** The first entry: its key is nowhere else, so it lands behind exactly the higher scores. */
  lemma PositionOfHead<K(!new)>(xs: seq<(K, nat)>)
    requires DistinctKeys(xs) && 0 < |xs|
    ensures var p := CountAbove(xs, xs[0].1);
      IndexOfKey(SortBy(xs, ScoreAtLeast), xs[0].0) == p && p < |xs| && SortBy(xs, ScoreAtLeast)[p] == xs[0]
  {
    var rest := xs[1..];
    var s := SortBy(rest, ScoreAtLeast);
    SortedByScore(rest);
    forall j | 0 <= j < |rest| ensures rest[j].0 != xs[0].0 {
      assert rest[j] == xs[j + 1];
    }
    AbsentAfterSort(rest, xs[0].0);
    CountAboveSort(rest, xs[0].1);
    InsertPositionOfNew(xs[0], s);
  }

  /** A later entry: its place in the sorted tail, moved back by one when the head scores at least as much. */
  lemma PositionOfLater<K(!new)>(xs: seq<(K, nat)>, i: nat)
    requires DistinctKeys(xs) && 0 < i < |xs|
    requires var rest := xs[1..];
      var p := CountAbove(rest, xs[i].1) + CountTiedBefore(rest, i - 1);
      IndexOfKey(SortBy(rest, ScoreAtLeast), xs[i].0) == p && p < |rest| && SortBy(rest, ScoreAtLeast)[p] == xs[i]
    ensures var p := CountAbove(xs, xs[i].1) + CountTiedBefore(xs, i);
      IndexOfKey(SortBy(xs, ScoreAtLeast), xs[i].0) == p && p < |xs| && SortBy(xs, ScoreAtLeast)[p] == xs[i]
  {
    var rest := xs[1..];
    var s := SortBy(rest, ScoreAtLeast);
    SortedByScore(rest);
    CountAboveSort(rest, xs[i].1);
    assert xs[0].0 != xs[i].0;
    InsertPositionOfOther(xs[0], s, xs[i].0);
  }

  lemma {:induction false} InsertAbsent<K(!new)>(x: (K, nat), s: seq<(K, nat)>, k: K)
    requires x.0 != k && IndexOfKey(s, k) == |s|
    ensures IndexOfKey(Insert(x, s, ScoreAtLeast), k) == |s| + 1
  {
    if s != [] && !ScoreAtLeast(x, s[0]) {
      assert IndexOfKey(s[1..], k) == |s[1..]|;
      InsertAbsent(x, s[1..], k);
    }
  }

  /** A key that is in none of the entries is in none of the sorted entries either. */
  lemma {:induction false} AbsentAfterSort<K(!new)>(xs: seq<(K, nat)>, k: K)
    requires forall j :: 0 <= j < |xs| ==> xs[j].0 != k
    ensures IndexOfKey(SortBy(xs, ScoreAtLeast), k) == |xs|
  {
    if xs != [] {
      assert forall j :: 0 <= j < |xs[1..]| ==> xs[1..][j] == xs[j + 1];
      AbsentAfterSort(xs[1..], k);
      InsertAbsent(xs[0], SortBy(xs[1..], ScoreAtLeast), k);
    }
  }
}
