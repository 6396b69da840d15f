/** The streak-length to score-multiplier table (src/constants/multiplier.ts). */
module Multiplier {

  /** The table's keys in ascending order. */
  function ThresholdKeys(): (ks: seq<int>)
    ensures |ks| == 10 && ks[0] == 0
    ensures forall i, j :: 0 <= i < j < |ks| ==> ks[i] < ks[j]
  {
    [0, 5, 10, 15, 25, 35, 45, 55, 70, 85]
  }

  /** Streak length reached -> multiplier from then on. */
  function MultiplierThreshold(): (t: map<int, int>)
    ensures t.Keys == {0, 5, 10, 15, 25, 35, 45, 55, 70, 85}
    ensures forall i :: 0 <= i < |ThresholdKeys()| ==> ThresholdKeys()[i] in t && t[ThresholdKeys()[i]] == i + 1
    ensures 0 in t && t[0] == 1
    ensures forall k :: k in t ==> 1 <= t[k] <= 10
  {
    map[0 := 1, 5 := 2, 10 := 3, 15 := 4, 25 := 5, 35 := 6, 45 := 7, 55 := 8, 70 := 9, 85 := 10]
  }
}
