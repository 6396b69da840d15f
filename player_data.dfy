/** The persisted player record and its defaults (src/constants/playerData.ts). */
module PlayerData {
  import opened Wrappers
  import SkinConstants

  /** A key of the settings object: a named property, or the index key an array spread adds. */
  datatype SettingKey = Named(name: string) | Index(i: nat)

  type Settings = map<SettingKey, real>

  const VOLUME: SettingKey := Named("volume")

  /** A complete player record. */
  datatype PlayerData = PlayerData(
    highScore: int,
    coins: int,
    ownedSkins: seq<int>,
    equippedSkin: int,
    settings: Settings)

  /** A player record as parsed from storage: any property may be absent. */
  datatype PlayerFields = PlayerFields(
    highScore: Option<int>,
    coins: Option<int>,
    ownedSkins: Option<seq<int>>,
    equippedSkin: Option<int>,
    settings: Option<Settings>)

  /** The record of a new player. */
  function DefaultPlayerData(): (d: PlayerData)
    ensures d.highScore == 0 && d.coins == 0
    ensures d.ownedSkins == [SkinConstants.DefaultSkin().id]
    ensures d.equippedSkin == SkinConstants.DefaultSkin().id && d.equippedSkin in d.ownedSkins
    ensures d.settings == map[VOLUME := 1.0]
  {
    PlayerData(0, 0, [SkinConstants.DefaultSkin().id], SkinConstants.DefaultSkin().id, map[VOLUME := 1.0])
  }

  /** The record with every property present, as it is written to storage. */
  function Fields(d: PlayerData): PlayerFields
  {
    PlayerFields(Some(d.highScore), Some(d.coins), Some(d.ownedSkins), Some(d.equippedSkin), Some(d.settings))
  }

  /** A record with no properties at all. */
  const NO_FIELDS: PlayerFields := PlayerFields(None, None, None, None, None)

  /** The object spread `{ ...base, ...f }`: the properties present in `f` win. */
  function Overlay(base: PlayerData, f: PlayerFields): PlayerData
  {
    PlayerData(
      OptionOr(f.highScore, base.highScore),
      OptionOr(f.coins, base.coins),
      OptionOr(f.ownedSkins, base.ownedSkins),
      OptionOr(f.equippedSkin, base.equippedSkin),
      OptionOr(f.settings, base.settings))
  }

  /** Spreading a complete record reproduces it; spreading an empty one keeps the base. */
  lemma OverlayFields(base: PlayerData, d: PlayerData)
    ensures Overlay(base, Fields(d)) == d
    ensures Overlay(base, NO_FIELDS) == base
  {
  }
}
