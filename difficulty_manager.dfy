/** Tier selection by score (src/classes/difficulty-manager/DifficultyManager.ts). */
module DifficultyManager {
  import opened Wrappers
  import opened SpawnerConfig
  import opened DifficultyRubrics

  predicate StrictlyIncreasing(s: seq<int>)
  {
    forall i, j :: 0 <= i < j < |s| ==> s[i] < s[j]
  }

  /** Every non-empty finite set of integers has a least element. */
  lemma {:induction false} MinExists(keys: set<int>)
    requires keys != {}
    ensures exists m :: m in keys && forall k :: k in keys ==> m <= k
  {
    assert exists x :: x in keys by {
      if forall x :: x !in keys {
        assert false;
      }
    }
    var x :| x in keys;
    if keys != {x} {
      var rest := keys - {x};
      MinExists(rest);
      var m :| m in rest && forall k :: k in rest ==> m <= k;
      var least := if x < m then x else m;
      forall k | k in keys
        ensures least <= k
      {
        if k != x {
          assert k in rest;
        }
      }
    } else {
      assert forall k :: k in keys ==> x <= k;
    }
  }

  /**
   * The numeric keys of the rubrics in ascending order, as the constructor
   * obtains them by parsing and sorting the object's keys.
   */
  function SortedKeys(keys: set<int>): (s: seq<int>)
    ensures |s| == |keys|
    decreases |keys|
  {
    if keys == {} then []
    else
      MinExists(keys);
      var m :| m in keys && forall k :: k in keys ==> m <= k;
      [m] + SortedKeys(keys - {m})
  }

  /** SortedKeys lists exactly the keys, in ascending order. */
  lemma {:induction false} SortedKeysSorted(keys: set<int>)
    ensures StrictlyIncreasing(SortedKeys(keys))
    ensures forall k :: k in keys <==> k in SortedKeys(keys)
    decreases |keys|
  {
    if keys != {} {
      MinExists(keys);
      var m :| m in keys && forall k :: k in keys ==> m <= k;
      assert SortedKeys(keys) == [m] + SortedKeys(keys - {m});
      SortedKeysSorted(keys - {m});
      SortedCons(keys, m, SortedKeys(keys - {m}));
    }
  }

  /** Putting the least key in front of the ascending rest keeps the order and the elements. */
  lemma SortedCons(keys: set<int>, m: int, rest: seq<int>)
    requires m in keys && forall k :: k in keys ==> m <= k
    requires StrictlyIncreasing(rest) && |rest| == |keys - {m}|
    requires forall k :: k in keys - {m} <==> k in rest
    ensures StrictlyIncreasing([m] + rest)
    ensures forall k :: k in keys <==> k in [m] + rest
    ensures |[m] + rest| == |keys|
  {
    forall i, j | 0 <= i < j < |[m] + rest|
      ensures ([m] + rest)[i] < ([m] + rest)[j]
    {
      if i == 0 {
        assert rest[j - 1] in keys - {m};
      } else {
        assert ([m] + rest)[i] == rest[i - 1] && ([m] + rest)[j] == rest[j - 1];
      }
    }
  }

  /** Two ascending sequences with the same elements are equal. */
  lemma {:induction false} SortedUnique(s: seq<int>, t: seq<int>)
    requires StrictlyIncreasing(s) && StrictlyIncreasing(t)
    requires forall k :: k in s <==> k in t
    ensures s == t
    decreases |s|
  {
    if s != [] {
      assert s[0] in s;
    }
    if t != [] {
      assert t[0] in t;
    }
    if s != [] && t != [] {
      assert s[0] in t && t[0] in s;
      assert s[0] == t[0];
      forall k
        ensures k in s[1..] <==> k in t[1..]
      {
        if k in s[1..] {
          assert k in s && k != s[0];
        }
        if k in t[1..] {
          assert k in t && k != t[0];
        }
      }
      SortedUnique(s[1..], t[1..]);
      assert s == [s[0]] + s[1..];
      assert t == [t[0]] + t[1..];
    }
  }

  /** The endless table's thresholds in the order the manager walks them. */
  lemma EndlessThresholds(keys: set<int>)
    requires keys == {0, 50, 75, 200, 300}
    ensures SortedKeys(keys) == [0, 50, 75, 200, 300]
  {
    var s, t := SortedKeys(keys), [0, 50, 75, 200, 300];
    SortedKeysSorted(keys);
    assert StrictlyIncreasing(t);
    forall k
      ensures k in s <==> k in t
    {
      assert k in s <==> k in keys;
    }
    SortedUnique(s, t);
  }

  /** The base tier (key 0) must give every field but the condiment probabilities. */
  predicate Complete(t: PartialSpawnerConfig)
  {
    && t.minGap.Some? && t.maxGap.Some?
    && t.minHeight.Some? && t.maxHeight.Some?
    && t.minPlatformHeight.Some? && t.maxPlatformHeight.Some?
    && t.minPlatformWidth.Some? && t.maxPlatformWidth.Some?
    && t.requiredAcc.Some? && t.platformColor.Some?
  }

  /** A complete tier read as a full configuration. */
  function ToConfig(t: PartialSpawnerConfig): PlatformSpawnerConfig
    requires Complete(t)
  {
    PlatformSpawnerConfig(
      t.minGap.value, t.maxGap.value, t.minHeight.value, t.maxHeight.value,
      t.minPlatformHeight.value, t.maxPlatformHeight.value,
      t.minPlatformWidth.value, t.maxPlatformWidth.value,
      t.requiredAcc.value, t.platformColor.value, t.condimentPropability)
  }

  /** The spread `{ ...cur, ...tier }`: every field the tier gives replaces the current one. */
  function Merge(cur: PlatformSpawnerConfig, tier: PartialSpawnerConfig): PlatformSpawnerConfig
  {
    PlatformSpawnerConfig(
      OptionOr(tier.minGap, cur.minGap), OptionOr(tier.maxGap, cur.maxGap),
      OptionOr(tier.minHeight, cur.minHeight), OptionOr(tier.maxHeight, cur.maxHeight),
      OptionOr(tier.minPlatformHeight, cur.minPlatformHeight),
      OptionOr(tier.maxPlatformHeight, cur.maxPlatformHeight),
      OptionOr(tier.minPlatformWidth, cur.minPlatformWidth),
      OptionOr(tier.maxPlatformWidth, cur.maxPlatformWidth),
      OptionOr(tier.requiredAcc, cur.requiredAcc),
      OptionOr(tier.platformColor, cur.platformColor),
      match tier.condimentPropability
      case Some(p) => Some(p)
      case None => cur.condimentPropability)
  }

  /** Merging the same tier twice is merging it once. */
  lemma MergeIdempotent(cur: PlatformSpawnerConfig, tier: PartialSpawnerConfig)
    ensures Merge(Merge(cur, tier), tier) == Merge(cur, tier)
  {
  }

  /**
   * A complete tier decides every field it gives: merged onto its own
   * configuration it changes nothing, and with a probability table it
   * overrides whatever the current configuration was.
   */
  lemma MergeComplete(cur: PlatformSpawnerConfig, other: PlatformSpawnerConfig, tier: PartialSpawnerConfig)
    requires Complete(tier)
    ensures Merge(ToConfig(tier), tier) == ToConfig(tier)
    ensures tier.condimentPropability.Some? ==> Merge(cur, tier) == Merge(other, tier)
  {
  }

  /** One call's tier step: at most one tier forward, and only once the next threshold is reached. */
  function NextIndex(scoreArray: seq<int>, index: nat, score: int): (next: nat)
    requires index < |scoreArray|
    ensures index <= next <= index + 1 && next < |scoreArray|
    ensures next == index + 1 <==> index + 1 < |scoreArray| && score >= scoreArray[index + 1]
  {
    if index + 1 < |scoreArray| && score >= scoreArray[index + 1] then index + 1 else index
  }

  /** The tier index after `n` calls at the same score. */
  function Iterate(scoreArray: seq<int>, index: nat, score: int, n: nat): (r: nat)
    requires index < |scoreArray|
    ensures index <= r < |scoreArray|
    decreases n
  {
    if n == 0 then index else Iterate(scoreArray, NextIndex(scoreArray, index, score), score, n - 1)
  }

  lemma {:induction false} IterateFixedPoint(scoreArray: seq<int>, index: nat, score: int, n: nat)
    requires index < |scoreArray| && NextIndex(scoreArray, index, score) == index
    ensures Iterate(scoreArray, index, score, n) == index
  {
    if n > 0 {
      IterateFixedPoint(scoreArray, index, score, n - 1);
    }
  }

  /**
   * Tiers are entered one call at a time: after at least as many calls at a
   * fixed score as there are tiers left, the index rests on the last tier
   * whose threshold the score has reached, and never on a later one.
   */
  lemma {:induction false} IterateConverges(scoreArray: seq<int>, index: nat, score: int, n: nat)
    requires StrictlyIncreasing(scoreArray) && index < |scoreArray|
    requires n >= |scoreArray| - 1 - index
    ensures var r := Iterate(scoreArray, index, score, n);
      && (forall j :: r < j < |scoreArray| ==> score < scoreArray[j])
      && (r > index ==> scoreArray[r] <= score)
    decreases n
  {
    var next := NextIndex(scoreArray, index, score);
    if next == index {
      IterateFixedPoint(scoreArray, index, score, n);
      if index + 1 < |scoreArray| {
        assert score < scoreArray[index + 1];
      }
    } else {
      IterateConverges(scoreArray, next, score, n - 1);
    }
  }

  /** Every threshold in `keys` has a tier. */
  ghost predicate Indexes(rubrics: Rubrics, keys: seq<int>)
  {
    forall j :: 0 <= j < |keys| ==> keys[j] in rubrics
  }

  /** The configuration on tier `i`: the base tier merged with every tier up to `i`, in the order of `keys`. */
  ghost function Cumulative(rubrics: Rubrics, keys: seq<int>, i: nat): PlatformSpawnerConfig
    requires 0 in rubrics && Complete(rubrics[0])
    requires Indexes(rubrics, keys) && i < |keys|
  {
    var tier := rubrics[keys[i]];
    if i == 0 then Merge(ToConfig(rubrics[0]), tier) else Merge(Cumulative(rubrics, keys, i - 1), tier)
  }

  class DifficultyManager {
    const rubrics: Rubrics
    const scoreArray: seq<int>
    var rubricsIndex: nat
    var currentPlatformConfig: PlatformSpawnerConfig

    /**
     * The sorted thresholds, an index within them, and, when no threshold is
     * negative, the current configuration is the merge of every tier passed.
     */
    ghost predicate Valid()
      reads this
    {
      && 0 in rubrics && Complete(rubrics[0])
      && scoreArray == SortedKeys(rubrics.Keys) && Indexes(rubrics, scoreArray)
      && rubricsIndex < |scoreArray|
      && (scoreArray[0] == 0 ==> currentPlatformConfig == Cumulative(rubrics, scoreArray, rubricsIndex))
    }

    constructor(rubrics: Rubrics)
      requires 0 in rubrics && Complete(rubrics[0])
      ensures Valid()
      ensures this.rubrics == rubrics && rubricsIndex == 0
      ensures currentPlatformConfig == ToConfig(rubrics[0])
      ensures StrictlyIncreasing(scoreArray) && forall k :: k in rubrics <==> k in scoreArray
    {
      this.rubrics := rubrics;
      scoreArray := SortedKeys(rubrics.Keys);
      rubricsIndex := 0;
      currentPlatformConfig := ToConfig(rubrics[0]);
      new;
      SortedKeysSorted(rubrics.Keys);
      assert forall j :: 0 <= j < |scoreArray| ==> scoreArray[j] in scoreArray;
      MergeComplete(currentPlatformConfig, currentPlatformConfig, rubrics[0]);
    }

    method UpdatePlatformConfig(score: int) returns (config: PlatformSpawnerConfig)
      requires Valid()
      modifies this`rubricsIndex, this`currentPlatformConfig
      ensures Valid()
      ensures rubricsIndex == NextIndex(scoreArray, old(rubricsIndex), score)
      ensures currentPlatformConfig == Merge(old(currentPlatformConfig), rubrics[scoreArray[rubricsIndex]])
      ensures config == currentPlatformConfig
    {
      var nextIndex := rubricsIndex + 1;
      if nextIndex < |scoreArray| {
        if score >= scoreArray[nextIndex] {
          rubricsIndex := nextIndex;
        }
      }
      CumulativeStep(rubrics, scoreArray, old(rubricsIndex), rubricsIndex, currentPlatformConfig);
      currentPlatformConfig := Merge(currentPlatformConfig, rubrics[scoreArray[rubricsIndex]]);
      config := currentPlatformConfig;
    }
  }

  /**
   * Merging the tier the index lands on keeps the configuration cumulative:
   * a new tier is merged once, and re-merging the current one changes nothing.
   */
  lemma CumulativeStep(rubrics: Rubrics, keys: seq<int>, index: nat, next: nat, cur: PlatformSpawnerConfig)
    requires 0 in rubrics && Complete(rubrics[0]) && Indexes(rubrics, keys)
    requires index <= next <= index + 1 && next < |keys|
    requires keys[0] == 0 ==> cur == Cumulative(rubrics, keys, index)
    ensures keys[0] == 0 ==> Merge(cur, rubrics[keys[next]]) == Cumulative(rubrics, keys, next)
  {
    var tier := rubrics[keys[next]];
    if keys[0] == 0 && next == index {
      if next == 0 {
        MergeIdempotent(ToConfig(rubrics[0]), tier);
      } else {
        MergeIdempotent(Cumulative(rubrics, keys, next - 1), tier);
      }
    }
  }
}
