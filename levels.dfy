/**
 * The quality-level table built when the engine reports a parsed manifest:
 * one entry per engine level, keeping the engine's index, and the table
 * sorted by height descending with bitrate descending as the tie-break.
 */
module Levels {
  import opened Wrappers
  import opened Format

  /** One entry of the quality menu; `index` is the level's position in the engine's own list. */
  datatype QualityLevel = QualityLevel(index: nat, height: Option<nat>, bitrateKbps: nat, caption: string)

  /** `hls.levels.map((level, index) => ...)`: the table in the engine's order. */
  function BuildLevels(engine: seq<EngineLevel>): (r: seq<QualityLevel>)
    ensures |r| == |engine|
    ensures forall i :: 0 <= i < |r| ==> r[i].index == i
    ensures forall i :: 0 <= i < |r| ==>
              && r[i].height == engine[i].height
              && r[i].bitrateKbps == RoundKbps(engine[i].bitrate)
              && r[i].caption == CreateQualityLabel(engine[i], i)
  {
    seq(|engine|, i requires 0 <= i < |engine| =>
      QualityLevel(i, engine[i].height, RoundKbps(engine[i].bitrate), CreateQualityLabel(engine[i], i)))
  }

  /** The comparator handed to `Array.prototype.sort`: positive when `a` belongs after `b`. */
  function Compare(a: QualityLevel, b: QualityLevel): (c: int)
    ensures Truthy(a.height) && Truthy(b.height) ==>
              (c > 0 <==> b.height.value > a.height.value
                          || (b.height.value == a.height.value && b.bitrateKbps > a.bitrateKbps))
    ensures !(Truthy(a.height) && Truthy(b.height)) ==> (c > 0 <==> b.bitrateKbps > a.bitrateKbps)
    ensures Truthy(a.height) && Truthy(b.height) ==>
              (c == 0 <==> a.height == b.height && a.bitrateKbps == b.bitrateKbps)
  {
    if Truthy(a.height) && Truthy(b.height) then
      if a.height.value != b.height.value then b.height.value - a.height.value
      else b.bitrateKbps - a.bitrateKbps
    else b.bitrateKbps - a.bitrateKbps
  }

  predicate After(a: QualityLevel, b: QualityLevel) {
    Compare(a, b) > 0
  }

  /**
   * `Array.prototype.sort` is stable: an element moves in front of an earlier
   * one only when the comparator says it must. Insertion of `x` keeps it in
   * front of every element it does not belong after.
   */
  function Insert(x: QualityLevel, s: seq<QualityLevel>): (r: seq<QualityLevel>)
    ensures |r| == |s| + 1 && x in r
    ensures forall y :: y in s ==> y in r
  {
    if s == [] then [x]
    else if After(x, s[0]) then [s[0]] + Insert(x, s[1..])
    else [x] + s
  }

  function SortLevels(s: seq<QualityLevel>): (r: seq<QualityLevel>)
    ensures |r| == |s|
    ensures forall y :: y in s ==> y in r
  {
    if s == [] then [] else Insert(s[0], SortLevels(s[1..]))
  }

  predicate AllHaveHeight(s: seq<QualityLevel>) {
    forall i :: 0 <= i < |s| ==> Truthy(s[i].height)
  }

  /** Non-increasing height, and non-increasing bitrate among equal heights. */
  predicate SortedByHeightThenBitrate(s: seq<QualityLevel>)
    requires AllHaveHeight(s)
  {
    forall i, j :: 0 <= i < j < |s| ==>
      s[i].height.value > s[j].height.value
      || (s[i].height.value == s[j].height.value && s[i].bitrateKbps >= s[j].bitrateKbps)
  }

  /** Pairwise agreement with the comparator. */
  predicate Sorted(s: seq<QualityLevel>) {
    forall i, j :: 0 <= i < j < |s| ==> !After(s[i], s[j])
  }

  // ---------------------------------------------------------------- permutation

  lemma {:induction false} InsertPermutes(x: QualityLevel, s: seq<QualityLevel>)
    ensures multiset(Insert(x, s)) == multiset(s) + multiset{x}
    ensures |Insert(x, s)| == |s| + 1
  {
    if s != [] && After(x, s[0]) {
      InsertPermutes(x, s[1..]);
      assert s == [s[0]] + s[1..];
    }
  }

  /** Sorting rearranges the table and nothing else: each entry, with its engine index, is kept exactly once. */
  lemma {:induction false} SortPermutes(s: seq<QualityLevel>)
    ensures multiset(SortLevels(s)) == multiset(s)
    ensures |SortLevels(s)| == |s|
  {
    if s != [] {
      SortPermutes(s[1..]);
      InsertPermutes(s[0], SortLevels(s[1..]));
      assert s == [s[0]] + s[1..];
    }
  }

  // ---------------------------------------------------------------- ordering on all-height tables

  /** On two levels with heights the comparator is a strict lexicographic order. */
  lemma AfterOnHeights(a: QualityLevel, b: QualityLevel)
    requires Truthy(a.height) && Truthy(b.height)
    ensures After(a, b) <==>
              b.height.value > a.height.value
              || (b.height.value == a.height.value && b.bitrateKbps > a.bitrateKbps)
  {
  }

  lemma InMultiset(x: QualityLevel, s: seq<QualityLevel>, t: seq<QualityLevel>)
    requires multiset(t) == multiset(s) + multiset{x}
    ensures forall k :: 0 <= k < |t| ==> t[k] == x || t[k] in s
  {
    forall k | 0 <= k < |t| ensures t[k] == x || t[k] in s {
      assert t[k] in multiset(t);
    }
  }

  /** An entry the comparator puts after none of a sorted table's entries can head it. */
  lemma ConsSorted(a: QualityLevel, t: seq<QualityLevel>)
    requires Truthy(a.height) && AllHaveHeight(t) && Sorted(t)
    requires forall j :: 0 <= j < |t| ==> !After(a, t[j])
    ensures AllHaveHeight([a] + t) && Sorted([a] + t)
  {
    var r := [a] + t;
    forall i, j | 0 <= i < j < |r| ensures !After(r[i], r[j]) {
      assert r[j] == t[j - 1];
      if i > 0 {
        assert r[i] == t[i - 1];
      }
    }
  }

  lemma {:induction false} InsertSorted(x: QualityLevel, s: seq<QualityLevel>)
    requires Truthy(x.height) && AllHaveHeight(s) && Sorted(s)
    ensures Sorted(Insert(x, s)) && AllHaveHeight(Insert(x, s))
  {
    if s == [] {
    } else if After(x, s[0]) {
      AfterOnHeights(x, s[0]);
      AfterOnHeights(s[0], x);
      assert Sorted(s[1..]);
      InsertSorted(x, s[1..]);
      var t := Insert(x, s[1..]);
      InsertPermutes(x, s[1..]);
      InMultiset(x, s[1..], t);
      forall j | 0 <= j < |t| ensures !After(s[0], t[j]) {
        if t[j] != x {
          var k :| 0 <= k < |s[1..]| && s[1..][k] == t[j];
          assert s[k + 1] == t[j];
        }
      }
      ConsSorted(s[0], t);
    } else {
      forall j | 0 <= j < |s| ensures !After(x, s[j]) {
        AfterOnHeights(x, s[0]);
        if j > 0 {
          assert !After(s[0], s[j]);
          AfterOnHeights(s[0], s[j]);
          AfterOnHeights(x, s[j]);
        }
      }
      ConsSorted(x, s);
    }
  }

  lemma {:induction false} SortSortedOnHeights(s: seq<QualityLevel>)
    requires AllHaveHeight(s)
    ensures Sorted(SortLevels(s)) && AllHaveHeight(SortLevels(s))
  {
    if s != [] {
      SortSortedOnHeights(s[1..]);
      InsertSorted(s[0], SortLevels(s[1..]));
    }
  }

  /** A table in which every level has a height comes out by height descending, then bitrate descending. */
  lemma SortOrdersByHeightThenBitrate(s: seq<QualityLevel>)
    requires AllHaveHeight(s)
    ensures AllHaveHeight(SortLevels(s))
    ensures SortedByHeightThenBitrate(SortLevels(s))
  {
    SortSortedOnHeights(s);
    var r := SortLevels(s);
    forall i, j | 0 <= i < j < |r|
      ensures r[i].height.value > r[j].height.value
              || (r[i].height.value == r[j].height.value && r[i].bitrateKbps >= r[j].bitrateKbps)
    {
      AfterOnHeights(r[i], r[j]);
    }
  }

  // ---------------------------------------------------------------- idempotence

  /** A table that already agrees with the comparator is left as it is. */
  lemma {:induction false} SortKeepsSorted(s: seq<QualityLevel>)
    requires Sorted(s)
    ensures SortLevels(s) == s
  {
    if s != [] {
      assert Sorted(s[1..]);
      SortKeepsSorted(s[1..]);
      assert s == [s[0]] + s[1..];
    }
  }

  /** Sorting an all-height table twice gives the same table as sorting it once. */
  lemma SortIdempotent(s: seq<QualityLevel>)
    requires AllHaveHeight(s)
    ensures SortLevels(SortLevels(s)) == SortLevels(s)
  {
    SortSortedOnHeights(s);
    SortKeepsSorted(SortLevels(s));
  }

  // ---------------------------------------------------------------- stability

  /** Strictly increasing engine indices: the order `BuildLevels` produces. */
  predicate IncreasingIndices(s: seq<QualityLevel>) {
    forall i, j :: 0 <= i < j < |s| ==> s[i].index < s[j].index
  }

  /** The total order the stable sort realises: height desc, then bitrate desc, then engine index asc. */
  predicate StrictlyBefore(a: QualityLevel, b: QualityLevel)
    requires Truthy(a.height) && Truthy(b.height)
  {
    a.height.value > b.height.value
    || (a.height.value == b.height.value && a.bitrateKbps > b.bitrateKbps)
    || (a.height.value == b.height.value && a.bitrateKbps == b.bitrateKbps && a.index < b.index)
  }

  predicate StrictlySorted(s: seq<QualityLevel>)
    requires AllHaveHeight(s)
  {
    forall i, j :: 0 <= i < j < |s| ==> StrictlyBefore(s[i], s[j])
  }

  /** An entry before every entry of a strictly sorted table can head it. */
  lemma ConsStrictlySorted(a: QualityLevel, t: seq<QualityLevel>)
    requires Truthy(a.height) && AllHaveHeight(t) && StrictlySorted(t)
    requires forall j :: 0 <= j < |t| ==> StrictlyBefore(a, t[j])
    ensures AllHaveHeight([a] + t) && StrictlySorted([a] + t)
  {
    var r := [a] + t;
    forall i, j | 0 <= i < j < |r| ensures StrictlyBefore(r[i], r[j]) {
      assert r[j] == t[j - 1];
      if i > 0 {
        assert r[i] == t[i - 1];
      }
    }
  }

  /** The head of a strictly sorted table precedes every entry of its tail with `x` inserted, when it precedes `x`. */
  lemma HeadBeforeInserted(x: QualityLevel, s: seq<QualityLevel>, t: seq<QualityLevel>)
    requires s != [] && AllHaveHeight(s) && StrictlySorted(s) && AllHaveHeight(t)
    requires Truthy(x.height) && StrictlyBefore(s[0], x)
    requires multiset(t) == multiset(s[1..]) + multiset{x}
    ensures forall j :: 0 <= j < |t| ==> StrictlyBefore(s[0], t[j])
  {
    InMultiset(x, s[1..], t);
    forall j | 0 <= j < |t| ensures StrictlyBefore(s[0], t[j]) {
      if t[j] != x {
        var k :| 0 <= k < |s[1..]| && s[1..][k] == t[j];
        assert s[k + 1] == t[j];
      }
    }
  }

  lemma {:induction false} InsertStable(x: QualityLevel, s: seq<QualityLevel>)
    requires Truthy(x.height) && AllHaveHeight(s) && StrictlySorted(s)
    requires forall k :: 0 <= k < |s| ==> x.index < s[k].index
    ensures AllHaveHeight(Insert(x, s)) && StrictlySorted(Insert(x, s))
  {
    if s == [] {
    } else if After(x, s[0]) {
      AfterOnHeights(x, s[0]);
      assert StrictlyBefore(s[0], x);
      assert forall k :: 0 <= k < |s[1..]| ==> x.index < s[1..][k].index;
      assert StrictlySorted(s[1..]);
      InsertStable(x, s[1..]);
      var t := Insert(x, s[1..]);
      InsertPermutes(x, s[1..]);
      HeadBeforeInserted(x, s, t);
      ConsStrictlySorted(s[0], t);
    } else {
      AfterOnHeights(x, s[0]);
      forall j | 0 <= j < |s| ensures StrictlyBefore(x, s[j]) {
        if j > 0 {
          assert StrictlyBefore(s[0], s[j]);
        }
      }
      ConsStrictlySorted(x, s);
    }
  }

  lemma {:induction false} SortStable(s: seq<QualityLevel>)
    requires AllHaveHeight(s) && IncreasingIndices(s)
    ensures AllHaveHeight(SortLevels(s)) && StrictlySorted(SortLevels(s))
  {
    if s != [] {
      assert IncreasingIndices(s[1..]);
      SortStable(s[1..]);
      var t := SortLevels(s[1..]);
      SortPermutes(s[1..]);
      forall k | 0 <= k < |t| ensures s[0].index < t[k].index {
        assert t[k] in multiset(s[1..]);
        var m :| 0 <= m < |s[1..]| && s[1..][m] == t[k];
        assert s[m + 1] == t[k];
      }
      InsertStable(s[0], t);
    }
  }

  /**
   * The menu the player builds from engine levels that all have heights:
   * a permutation of the engine's list, ordered by height desc and bitrate
   * desc, with levels equal on both kept in the engine's order.
   */
  lemma MenuOrder(engine: seq<EngineLevel>)
    requires forall i :: 0 <= i < |engine| ==> Truthy(engine[i].height)
    ensures var menu := SortLevels(BuildLevels(engine));
            && multiset(menu) == multiset(BuildLevels(engine))
            && AllHaveHeight(menu)
            && StrictlySorted(menu)
  {
    var built := BuildLevels(engine);
    SortPermutes(built);
    SortStable(built);
  }

  /**
   * On tables that mix levels with and without a height the comparator is
   * not a consistent order: these three levels each belong after the next.
   */
  lemma ComparatorCycleOnMixedHeights()
    ensures var a := QualityLevel(0, Some(1080), 100, "");
            var b := QualityLevel(1, None, 500, "");
            var c := QualityLevel(2, Some(720), 1000, "");
            After(a, b) && After(b, c) && After(c, a)
  {
  }
}
