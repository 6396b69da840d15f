/** Endless and beatmap game modes (src/classes/game-mode/GameModeStateMachine.ts). */
module GameModes {
  import opened Wrappers
  import opened DifficultyRubrics
  import opened Storage

  /** A mode and the difficulty table it plays with. */
  datatype GameMode = EndlessMode | BeatmapMode(parsedBeatmap: Rubrics)
  {
    function GetRubrics(): Rubrics
    {
      match this
      case EndlessMode => EndlessRubrics()
      case BeatmapMode(parsed) => parsed
    }
  }

  /** Entering endless mode clears the registry's beatmap entry. */
  method NewEndlessMode(registry: Registry) returns (mode: GameMode)
    modifies registry`beatmap
    ensures registry.beatmap == None
    ensures mode == EndlessMode
  {
    registry.beatmap := None;
    mode := EndlessMode;
  }

  /**
   * Reading a beatmap's tilemap: without an "objects" layer it fails; the
   * objects are not yet read, so otherwise the endless table is returned.
   */
  function CreateRubrics(hasObjectsLayer: bool): (r: Result<Rubrics>)
    ensures r.Err? <==> !hasObjectsLayer
    ensures r.Err? ==> r.error == NoObjectsLayer
    ensures r.Ok? ==> r.value == EndlessRubrics()
  {
    if !hasObjectsLayer then Err(NoObjectsLayer) else Ok(EndlessRubrics())
  }

  /**
   * The BeatmapMode constructor. The registry entry is written before the
   * tilemap is read, so it is set even when the constructor then fails.
   */
  method NewBeatmapMode(registry: Registry, beatmap: Beatmap, hasObjectsLayer: bool) returns (r: Result<GameMode>)
    modifies registry`beatmap
    ensures registry.beatmap == Some(beatmap)
    ensures r.Err? <==> !hasObjectsLayer
    ensures r.Err? ==> r.error == NoObjectsLayer
    ensures r.Ok? ==> r.value.BeatmapMode? && r.value.GetRubrics() == EndlessRubrics()
  {
    registry.beatmap := Some(beatmap);
    var parsed := CreateRubrics(hasObjectsLayer);
    match parsed
    case Err(e) => r := Err(e);
    case Ok(rubrics) => r := Ok(BeatmapMode(rubrics));
  }

  class GameModeStateMachine {
    var mode: GameMode

    constructor (initialState: GameMode)
      ensures mode == initialState
    {
      mode := initialState;
    }

    function GetMode(): (m: GameMode)
      reads this
      ensures m == mode
    {
      mode
    }

    method ChangeState(state: GameMode) returns (r: GameMode)
      modifies this
      ensures mode == state && r == state
    {
      mode := state;
      r := state;
    }

    /** The rubrics of the current mode. */
    function GetRubrics(): (r: Rubrics)
      reads this
      ensures r == mode.GetRubrics()
    {
      mode.GetRubrics()
    }
  }
}
