/** The ball's input gating and the persisted player record (src/classes/player/Player.ts). */
module Players {
  import opened Wrappers
  import opened PlayerData
  import opened GameplayState
  import Storage

  /**
   * Player.loadPlayer on the stored "player" item: the stored properties
   * spread over the defaults, or the defaults when nothing is stored.
   */
  function LoadPlayer(stored: Option<PlayerFields>): (d: PlayerData)
    ensures stored.None? ==> d == DefaultPlayerData()
    ensures stored.Some? ==>
      var f := stored.value;
      && d.highScore == (if f.highScore.Some? then f.highScore.value else DefaultPlayerData().highScore)
      && d.coins == (if f.coins.Some? then f.coins.value else DefaultPlayerData().coins)
      && d.ownedSkins == (if f.ownedSkins.Some? then f.ownedSkins.value else DefaultPlayerData().ownedSkins)
      && d.equippedSkin == (if f.equippedSkin.Some? then f.equippedSkin.value else DefaultPlayerData().equippedSkin)
      && d.settings == (if f.settings.Some? then f.settings.value else DefaultPlayerData().settings)
  {
    match stored
    case Some(f) => Overlay(DefaultPlayerData(), f)
    case None => DefaultPlayerData()
  }

  /** A complete record written to storage is loaded back unchanged. */
  lemma LoadSaved(d: PlayerData)
    ensures LoadPlayer(Some(Fields(d))) == d
  {
    OverlayFields(DefaultPlayerData(), d);
  }

  /**
   * Player.savePlayer: reload the stored record, replace its coins and high
   * score with the score manager's, and write it back. The two values are
   * parameters because getCoin and getHighScore are not part of the model.
   */
  method SavePlayer(storage: Storage.LocalStorage, coins: int, highScore: int)
    modifies storage`player
    ensures storage.player == Some(Fields(LoadPlayer(old(storage.player)).(coins := coins, highScore := highScore)))
  {
    var saved := LoadPlayer(storage.player);
    storage.player := Some(Fields(saved.(coins := coins, highScore := highScore)));
  }

  /** After savePlayer exactly the coins and the high score differ from what was loaded before. */
  lemma SaveThenLoad(before: Option<PlayerFields>, coins: int, highScore: int)
    ensures var d := LoadPlayer(Some(Fields(LoadPlayer(before).(coins := coins, highScore := highScore))));
      && d.coins == coins && d.highScore == highScore
      && d.ownedSkins == LoadPlayer(before).ownedSkins
      && d.equippedSkin == LoadPlayer(before).equippedSkin
      && d.settings == LoadPlayer(before).settings
  {
    LoadSaved(LoadPlayer(before).(coins := coins, highScore := highScore));
  }

  /**
   * The ball. `acceleration` is the input acceleration the player keeps for
   * itself; the arcade body has its own velocity, acceleration and gravity
   * switch, which are the other fields.
   */
  class Player {
    var pointerDown: bool
    var ignoreInput: bool
    var accelerationX: real
    var accelerationY: real
    var velocityX: real
    var velocityY: real
    var bodyAccelerationX: real
    var bodyAccelerationY: real
    var allowGravity: bool
    /** Cleared by disableBody(false, false) at game over. */
    var bodyEnabled: bool
    const gameState: GameplayStateMachine
    /** The state-change listener this player registered. */
    const listener: Callback

    /**
     * Registers the state-change listener, then prepares the ball: the input
     * acceleration follows the current state and gravity starts switched off.
     */
    constructor (gameState: GameplayStateMachine, listener: Callback)
      modifies gameState
      ensures gameState.state == old(gameState.state)
      ensures gameState.eventListeners == old(gameState.eventListeners) + [listener]
      ensures this.gameState == gameState && this.listener == listener
      ensures !pointerDown && !ignoreInput
      ensures accelerationX == 0.0 && accelerationY == PlayerAcceleration(gameState.state)
      ensures velocityX == 0.0 && velocityY == 0.0
      ensures bodyAccelerationX == 0.0 && bodyAccelerationY == 0.0
      ensures !allowGravity && bodyEnabled
    {
      var handle := gameState.OnStateChange(listener);
      pointerDown, ignoreInput := false, false;
      this.gameState, this.listener := gameState, listener;
      velocityX, velocityY := 0.0, 0.0;
      bodyAccelerationX, bodyAccelerationY := 0.0, 0.0;
      bodyEnabled := true;
      new;
      OnStateChange(gameState.GetState());
      allowGravity := false;
    }

    /** The pointerdown handler. */
    method PointerDown()
      modifies this`pointerDown, this`allowGravity
      ensures pointerDown && allowGravity
    {
      pointerDown := true;
      if !allowGravity {
        allowGravity := true;
      }
    }

    /** The state-change listener: the input acceleration becomes the state's, straight down. */
    method OnStateChange(state: GameplayState)
      modifies this`accelerationX, this`accelerationY
      ensures accelerationX == 0.0 && accelerationY == PlayerAcceleration(state)
    {
      accelerationX, accelerationY := 0.0, PlayerAcceleration(state);
    }

    /** The per-frame update: a held pointer accelerates the ball unless input is ignored. */
    method PreUpdate()
      modifies this`velocityX, this`velocityY
      ensures !ignoreInput && pointerDown ==>
        velocityX == old(velocityX) + accelerationX && velocityY == old(velocityY) + accelerationY
      ensures ignoreInput || !pointerDown ==> velocityX == old(velocityX) && velocityY == old(velocityY)
    {
      if !ignoreInput && pointerDown {
        velocityX, velocityY := velocityX + accelerationX, velocityY + accelerationY;
      }
    }

    /** Ignoring input also releases the pointer; accepting it again leaves the pointer as it is. */
    method SetIgnoreInput(ignore: bool)
      modifies this`ignoreInput, this`pointerDown
      ensures ignoreInput == ignore
      ensures pointerDown == (!ignore && old(pointerDown))
    {
      ignoreInput := ignore;
      if ignore {
        pointerDown := false;
      }
    }

    /** body.setVelocityY. */
    method SetVelocityY(velocity: real)
      modifies this`velocityY
      ensures velocityY == velocity
    {
      velocityY := velocity;
    }

    /**
     * Player.applyGameOver: switch to GameOver, then stop the body. Returns
     * the listeners the state change calls, for the caller to run.
     */
    method ApplyGameOver() returns (invoked: seq<Callback>)
      requires gameState.Valid()
      modifies gameState, this`allowGravity, this`velocityX, this`velocityY
      modifies this`bodyAccelerationX, this`bodyAccelerationY, this`bodyEnabled
      ensures gameState.Valid() && gameState.state == GameOver
      ensures gameState.eventListeners == old(gameState.eventListeners) && invoked == gameState.eventListeners
      ensures !allowGravity && !bodyEnabled
      ensures velocityX == 0.0 && velocityY == 0.0
      ensures bodyAccelerationX == 0.0 && bodyAccelerationY == 0.0
    {
      var state;
      state, invoked := gameState.ChangeState(GameOver);
      allowGravity := false;
      velocityX, velocityY := 0.0, 0.0;
      bodyAccelerationX, bodyAccelerationY := 0.0, 0.0;
      bodyEnabled := false;
    }
  }
}
