/** The spawner and platform configuration records (src/types/platform.d.ts, src/types/condiment.d.ts). */
module SpawnerConfig {
  import opened Wrappers

  datatype PlatformColorConfig = PlatformColorConfig(baseColor: int, accurateColor: int, inaccurateColor: int)

  /** The condiment types: 'coin' | 'left-spike' | 'right-spike'. */
  datatype CondimentKind = Coin | LeftSpike | RightSpike

  /** The condiment types in the order the probability object lists its keys. */
  const CONDIMENT_KINDS: seq<CondimentKind> := [Coin, LeftSpike, RightSpike]

  /** Per-type spawn probability. */
  datatype CondimentProbability = CondimentProbability(coin: real, leftSpike: real, rightSpike: real)
  {
    function Of(kind: CondimentKind): real
    {
      match kind
      case Coin => coin
      case LeftSpike => leftSpike
      case RightSpike => rightSpike
    }
  }

  /**
   * PlatformSpawnerConfig. The probability object is optional here because the
   * difficulty tables never provide it, and reading it then yields `undefined`.
   */
  datatype PlatformSpawnerConfig = PlatformSpawnerConfig(
    minGap: real, maxGap: real,
    minHeight: real, maxHeight: real,
    minPlatformHeight: real, maxPlatformHeight: real,
    minPlatformWidth: real, maxPlatformWidth: real,
    requiredAcc: real,
    platformColor: PlatformColorConfig,
    condimentPropability: Option<CondimentProbability>)

  /** Partial<PlatformSpawnerConfig>: a difficulty tier's overrides. */
  datatype PartialSpawnerConfig = PartialSpawnerConfig(
    minGap: Option<real>, maxGap: Option<real>,
    minHeight: Option<real>, maxHeight: Option<real>,
    minPlatformHeight: Option<real>, maxPlatformHeight: Option<real>,
    minPlatformWidth: Option<real>, maxPlatformWidth: Option<real>,
    requiredAcc: Option<real>,
    platformColor: Option<PlatformColorConfig>,
    condimentPropability: Option<CondimentProbability>)

  /** The configuration a platform is reset with. */
  datatype PlatformConfig = PlatformConfig(
    width: real, height: real, extraWidth: real, platformColor: PlatformColorConfig)
}
