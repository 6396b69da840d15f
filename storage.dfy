/**
 * Stand-ins for the browser's localStorage and the game-wide data registry.
 * Values are kept parsed: a JSON text written by the game parses back to the
 * record it was made from.
 */
module Storage {
  import opened Wrappers
  import opened PlayerData

  /** A level description handed to BeatmapMode; its tilemap key. */
  datatype Beatmap = Beatmap(key: string)

  /** localStorage, restricted to the two keys the core uses. */
  class LocalStorage {
    /** The item under "player". */
    var player: Option<PlayerFields>
    /** The item under "score", as the number it parses to. */
    var score: Option<int>

    constructor (player: Option<PlayerFields>, score: Option<int>)
      ensures this.player == player && this.score == score
    {
      this.player := player;
      this.score := score;
    }
  }

  /** The Phaser registry entries the core uses. */
  class Registry {
    /** The entry under "player". */
    var player: Option<PlayerFields>
    /** The beatmap entry; `None` is `null` (or never set). */
    var beatmap: Option<Beatmap>

    constructor ()
      ensures player == None && beatmap == None
    {
      player := None;
      beatmap := None;
    }
  }
}
