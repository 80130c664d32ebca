/**
 * The two quality resolvers of the player. The initial-preference resolver
 * runs once the manifest is parsed and falls back to the nearest height; the
 * runtime `setQualityLevel` accepts only `auto`, an in-range index or an exact
 * height.
 */
module Quality {
  import opened Wrappers
  import opened Format
  import opened Levels

  datatype QualityPreference = Auto | ByIndex(levelIndex: int) | ByHeight(height: int)

  /** What a resolver does to the engine's `currentLevel`. `Throws` is the `reduce` of an empty table. */
  datatype LevelChoice = Keep | Assign(level: int) | Throws

  /** `l.height === height`: a level without a height matches nothing. */
  predicate HeightIs(l: QualityLevel, height: int) {
    l.height.Some? && l.height.value == height
  }

  /** `levels.find((l) => l.height === height)`, as a position in the table. */
  function FindByHeight(levels: seq<QualityLevel>, height: int): (r: Option<nat>)
    ensures r.Some? ==> r.value < |levels| && HeightIs(levels[r.value], height)
    ensures r.Some? ==> forall j :: 0 <= j < r.value ==> !HeightIs(levels[j], height)
    ensures r.None? ==> forall j :: 0 <= j < |levels| ==> !HeightIs(levels[j], height)
  {
    if levels == [] then None
    else if HeightIs(levels[0], height) then Some(0)
    else match FindByHeight(levels[1..], height)
      case None => None
      case Some(k) => Some(k + 1)
  }

  function Abs(x: int): nat {
    if x < 0 then -x else x
  }

  /** `Math.abs(l.height - height)`, for a level with a height. */
  function Distance(l: QualityLevel, height: int): nat
    requires l.height.Some?
  {
    Abs(l.height.value - height)
  }

  /**
   * The step of the `reduce`: the candidate replaces the accumulator only
   * when both have a height and the candidate is strictly closer.
   */
  predicate Replaces(prev: QualityLevel, curr: QualityLevel, height: int) {
    Truthy(prev.height) && Truthy(curr.height) && Distance(curr, height) < Distance(prev, height)
  }

  /** `levels.reduce(step)` without an initial value, folded from position `k` with the accumulator at position `acc`. */
  function ReduceNearest(levels: seq<QualityLevel>, height: int, acc: nat, k: nat): (r: nat)
    requires acc < |levels| && k <= |levels|
    ensures r < |levels|
    decreases |levels| - k
  {
    if k == |levels| then acc
    else ReduceNearest(levels, height, if Replaces(levels[acc], levels[k], height) then k else acc, k + 1)
  }

  function Nearest(levels: seq<QualityLevel>, height: int): (r: nat)
    requires |levels| > 0
    ensures r < |levels|
  {
    ReduceNearest(levels, height, 0, 1)
  }

  /**
   * `acc` holds a height and is the first position of least distance among
   * the positions below `k` that hold a height.
   */
  ghost predicate FirstClosest(levels: seq<QualityLevel>, height: int, acc: nat, k: nat)
    requires acc < k <= |levels|
  {
    && Truthy(levels[acc].height)
    && (forall j :: 0 <= j < k && Truthy(levels[j].height) ==>
          Distance(levels[acc], height) <= Distance(levels[j], height))
    && (forall j :: 0 <= j < acc && Truthy(levels[j].height) ==>
          Distance(levels[acc], height) < Distance(levels[j], height))
  }

  lemma {:induction false} ReduceNearestFindsFirstClosest(levels: seq<QualityLevel>, height: int, acc: nat, k: nat)
    requires acc < k <= |levels|
    requires FirstClosest(levels, height, acc, k)
    ensures FirstClosest(levels, height, ReduceNearest(levels, height, acc, k), |levels|)
    decreases |levels| - k
  {
    if k < |levels| {
      var next := if Replaces(levels[acc], levels[k], height) then k else acc;
      assert FirstClosest(levels, height, next, k + 1);
      ReduceNearestFindsFirstClosest(levels, height, next, k + 1);
    }
  }

  /**
   * When the first menu entry has a height, the fallback is the first entry
   * at least distance from the request among the entries that have a height;
   * entries without a height are skipped.
   */
  lemma NearestIsFirstClosestAmongHeights(levels: seq<QualityLevel>, height: int)
    requires |levels| > 0 && Truthy(levels[0].height)
    ensures var r := Nearest(levels, height);
            && Truthy(levels[r].height)
            && (forall j :: 0 <= j < |levels| && Truthy(levels[j].height) ==>
                  Distance(levels[r], height) <= Distance(levels[j], height))
            && (forall j :: 0 <= j < r && Truthy(levels[j].height) ==>
                  Distance(levels[r], height) < Distance(levels[j], height))
  {
    ReduceNearestFindsFirstClosest(levels, height, 0, 1);
  }

  /**
   * On a table in which every level has a height, the fallback picks the
   * level closest to the requested height, and on ties the earliest one.
   */
  lemma NearestIsFirstClosest(levels: seq<QualityLevel>, height: int)
    requires |levels| > 0 && AllHaveHeight(levels)
    ensures var r := Nearest(levels, height);
            && (forall j :: 0 <= j < |levels| ==> Distance(levels[r], height) <= Distance(levels[j], height))
            && (forall j :: 0 <= j < r ==> Distance(levels[r], height) < Distance(levels[j], height))
  {
    NearestIsFirstClosestAmongHeights(levels, height);
  }

  lemma {:induction false} ReduceKeepsHeightless(levels: seq<QualityLevel>, height: int, acc: nat, k: nat)
    requires acc < |levels| && k <= |levels| && !Truthy(levels[acc].height)
    ensures ReduceNearest(levels, height, acc, k) == acc
    decreases |levels| - k
  {
    if k < |levels| {
      ReduceKeepsHeightless(levels, height, acc, k + 1);
    }
  }

  /** A first level without a height is never replaced: the fallback returns it. */
  lemma NearestKeepsHeightlessFirst(levels: seq<QualityLevel>, height: int)
    requires |levels| > 0 && !Truthy(levels[0].height)
    ensures Nearest(levels, height) == 0
  {
    ReduceKeepsHeightless(levels, height, 0, 1);
  }

  /**
   * The preference applied once the manifest is parsed: `auto` leaves the
   * engine alone; an index is range-checked against the engine's level
   * count; a height takes the first exact match, else the `reduce` fallback,
   * whose chosen level's engine index is assigned.
   */
  function ResolveInitial(pref: QualityPreference, levels: seq<QualityLevel>, engineCount: nat): (r: LevelChoice)
    ensures pref.Auto? ==> r == Keep
    ensures pref.ByIndex? ==>
              r == if 0 <= pref.levelIndex < engineCount then Assign(pref.levelIndex) else Keep
    ensures pref.ByHeight? ==> (r.Throws? <==> FindByHeight(levels, pref.height).None? && levels == [])
    ensures pref.ByHeight? && FindByHeight(levels, pref.height).Some? ==>
              r == Assign(levels[FindByHeight(levels, pref.height).value].index)
    ensures pref.ByHeight? && FindByHeight(levels, pref.height).None? && levels != [] ==>
              r == Assign(levels[Nearest(levels, pref.height)].index)
    ensures r.Throws? ==> pref.ByHeight? && levels == []
  {
    match pref
    case Auto => Keep
    case ByIndex(i) => if 0 <= i < engineCount then Assign(i) else Keep
    case ByHeight(h) =>
      match FindByHeight(levels, h)
      case Some(k) => Assign(levels[k].index)
      case None => if levels == [] then Throws else Assign(levels[Nearest(levels, h)].index)
  }

  /** `setQualityLevel`'s decision: `auto` is -1, an index must be in range, a height must match exactly. */
  function ResolveRuntime(pref: QualityPreference, levels: seq<QualityLevel>, engineCount: nat): (r: LevelChoice)
    ensures !r.Throws?
    ensures pref.Auto? ==> r == Assign(-1)
    ensures pref.ByIndex? ==>
              r == if 0 <= pref.levelIndex < engineCount then Assign(pref.levelIndex) else Keep
    ensures pref.ByHeight? ==>
              (r.Assign? <==> exists j :: 0 <= j < |levels| && HeightIs(levels[j], pref.height))
    ensures pref.ByHeight? && r.Assign? ==>
              exists j :: 0 <= j < |levels| && HeightIs(levels[j], pref.height) && r.level == levels[j].index
  {
    match pref
    case Auto => Assign(-1)
    case ByIndex(i) => if 0 <= i < engineCount then Assign(i) else Keep
    case ByHeight(h) =>
      match FindByHeight(levels, h)
      case Some(k) => Assign(levels[k].index)
      case None => Keep
  }

  /** When some level has exactly the requested height, both resolvers pick the same level. */
  lemma ResolversAgreeOnExactHeight(levels: seq<QualityLevel>, height: int, engineCount: nat, j: nat)
    requires j < |levels| && HeightIs(levels[j], height)
    ensures ResolveInitial(ByHeight(height), levels, engineCount)
            == ResolveRuntime(ByHeight(height), levels, engineCount)
    ensures ResolveRuntime(ByHeight(height), levels, engineCount).Assign?
  {
    assert FindByHeight(levels, height).Some?;
  }

  /**
   * Without an exact match the runtime resolver leaves the level alone while
   * the initial resolver falls back to the nearest height: on the menu
   * 1080p, 720p, 360p a request for 480 differs.
   */
  lemma ResolversDifferWithoutExactHeight()
    ensures var menu := [QualityLevel(2, Some(1080), 5000, ""), QualityLevel(1, Some(720), 2800, ""),
                         QualityLevel(0, Some(360), 800, "")];
            && ResolveInitial(ByHeight(480), menu, 3) == Assign(0)
            && ResolveRuntime(ByHeight(480), menu, 3) == Keep
  {
    var menu := [QualityLevel(2, Some(1080), 5000, ""), QualityLevel(1, Some(720), 2800, ""),
                 QualityLevel(0, Some(360), 800, "")];
    assert FindByHeight(menu, 480).None? by {
      assert forall j :: 0 <= j < |menu| ==> !HeightIs(menu[j], 480);
    }
    assert Nearest(menu, 480) == 2;
  }

  /** On the same menu a request for 700 falls back to 720p (distance 20 against 380 and 340). */
  lemma InitialPrefersNearestHeight()
    ensures var menu := [QualityLevel(2, Some(1080), 5000, ""), QualityLevel(1, Some(720), 2800, ""),
                         QualityLevel(0, Some(360), 800, "")];
            ResolveInitial(ByHeight(700), menu, 3) == Assign(1)
  {
    var menu := [QualityLevel(2, Some(1080), 5000, ""), QualityLevel(1, Some(720), 2800, ""),
                 QualityLevel(0, Some(360), 800, "")];
    assert FindByHeight(menu, 700).None? by {
      assert forall j :: 0 <= j < |menu| ==> !HeightIs(menu[j], 700);
    }
    assert Nearest(menu, 700) == 1;
  }
}
