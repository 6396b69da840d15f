/** The endless-mode difficulty table (src/constants/difficultyRubrics.ts). */
module DifficultyRubrics {
  import opened Wrappers
  import opened SpawnerConfig

  /** Score threshold -> the tier's overrides. */
  type Rubrics = map<int, PartialSpawnerConfig>

  /** Every range field is present and ordered, and the accuracy is a fraction in (0, 1]. */
  ghost predicate TierRangesOrdered(t: PartialSpawnerConfig)
  {
    && t.minGap.Some? && t.maxGap.Some? && t.minGap.value <= t.maxGap.value
    && t.minHeight.Some? && t.maxHeight.Some? && t.minHeight.value <= t.maxHeight.value
    && t.minPlatformWidth.Some? && t.maxPlatformWidth.Some? && t.minPlatformWidth.value <= t.maxPlatformWidth.value
    && t.minPlatformHeight.Some? && t.maxPlatformHeight.Some? && t.minPlatformHeight.value <= t.maxPlatformHeight.value
    && t.requiredAcc.Some? && 0.0 < t.requiredAcc.value <= 1.0
    && t.platformColor.Some?
  }

  const COLORS: PlatformColorConfig := PlatformColorConfig(0x666666, 0x88ff88, 0xffff00)

  function Tier(minGap: real, maxGap: real, minHeight: real, maxHeight: real,
                minPlatformWidth: real, maxPlatformWidth: real, requiredAcc: real): PartialSpawnerConfig
  {
    PartialSpawnerConfig(Some(minGap), Some(maxGap), Some(minHeight), Some(maxHeight),
      Some(20.0), Some(20.0), Some(minPlatformWidth), Some(maxPlatformWidth),
      Some(requiredAcc), Some(COLORS), None)
  }

  /**
   * DIFFICULTY_RUBRICS. Facts about the data: the thresholds, well-ordered
   * ranges in every tier, accuracy never rising and minimum width always
   * falling from one tier to the next, a zero-width spawn band in tier 0, and
   * no tier giving condiment probabilities.
   */
  function EndlessRubrics(): (r: Rubrics)
    ensures r.Keys == {0, 50, 75, 200, 300}
    ensures forall k :: k in r ==> TierRangesOrdered(r[k])
    ensures forall k :: k in r ==> r[k].condimentPropability.None?
    ensures forall k1, k2 :: k1 in r && k2 in r && k1 < k2 && TierRangesOrdered(r[k1]) && TierRangesOrdered(r[k2]) ==>
      r[k2].requiredAcc.value <= r[k1].requiredAcc.value &&
      r[k2].minPlatformWidth.value < r[k1].minPlatformWidth.value
    ensures r[0].minGap == r[0].maxGap == Some(400.0)
    ensures r[0].requiredAcc == Some(0.8) && r[50].requiredAcc == Some(0.6) && r[75].requiredAcc == Some(0.5)
    ensures r[200].requiredAcc == Some(0.4) && r[300].requiredAcc == Some(0.4)
  {
    map[
      0 := Tier(400.0, 400.0, 900.0, 1000.0, 200.0, 200.0, 0.8),
      50 := Tier(200.0, 500.0, 800.0, 1000.0, 180.0, 200.0, 0.6),
      75 := Tier(200.0, 500.0, 900.0, 1100.0, 100.0, 180.0, 0.5),
      200 := Tier(300.0, 600.0, 600.0, 800.0, 80.0, 100.0, 0.4),
      300 := Tier(600.0, 800.0, 600.0, 800.0, 70.0, 80.0, 0.4)
    ]
  }
}
