/**
 * The platform spawner (src/classes/platform/PlatformSpawner.ts): the spawn,
 * buffer and despawn bands, spawning from the pools, and the collision
 * handler that drives the gameplay state machine.
 */
module PlatformSpawner {
  import opened Wrappers
  import opened SpawnerConfig
  import opened GameplayState
  import opened Platforms
  import opened Players

  /** The upward speed a bounce gives the ball. */
  const BOUNCE_VELOCITY: real := 1000.0

  /** How far left of the camera, beyond minGap, the despawn band ends. */
  const DESPAWN_MARGIN: real := 100.0

  /** A game object's bounds. */
  datatype Rect = Rect(left: real, top: real, width: real, height: real)
  {
    function Right(): real { left + width }
    function Bottom(): real { top + height }
  }

  /** The bounds of a rectangle placed at (x, y) with horizontal origin 0.5 and vertical origin `originY`. */
  function Bounds(x: real, y: real, width: real, height: real, originY: real): Rect
  {
    Rect(x - width / 2.0, y - height * originY, width, height)
  }

  /** createSpawnArea / updateSpawnArea: where a platform may appear. */
  function SpawnArea(config: PlatformSpawnerConfig, cameraWidth: real, cameraHeight: real): (r: Rect)
    ensures r.left == cameraWidth + config.minGap && r.Right() == cameraWidth + config.maxGap
    ensures r.width == config.maxGap - config.minGap
    ensures r.top == 0.0 && r.height == cameraHeight
  {
    var spawnWidth := config.maxGap - config.minGap;
    Bounds(cameraWidth + config.minGap + spawnWidth / 2.0, cameraHeight / 2.0, spawnWidth, cameraHeight, 0.5)
  }

  /** createBufferArea / updateBufferArea: a platform here means no spawn is needed. */
  function BufferArea(config: PlatformSpawnerConfig, cameraWidth: real, cameraHeight: real): (r: Rect)
    ensures r.left == cameraWidth && r.Right() == cameraWidth + config.maxGap
    ensures r.top == 0.0 && r.height == cameraHeight
  {
    var bufferWidth := config.maxGap;
    Bounds(cameraWidth + bufferWidth / 2.0, cameraHeight / 2.0, bufferWidth, cameraHeight, 0.5)
  }

  /** createDespawnArea / updateDespawnArea: top-anchored, left of the camera. */
  function DespawnArea(config: PlatformSpawnerConfig, cameraWidth: real, cameraHeight: real): (r: Rect)
    ensures r.width == config.maxGap && r.Right() == -config.minGap - DESPAWN_MARGIN
    ensures r.top == 0.0 && r.height == cameraHeight * 10.0
  {
    var despawnWidth := config.maxGap;
    Bounds(-despawnWidth / 2.0 - config.minGap - DESPAWN_MARGIN, 0.0, despawnWidth, cameraHeight * 10.0, 0.0)
  }

  /**
   * With 0 <= minGap <= maxGap the spawn band lies inside the buffer band,
   * and the despawn band lies wholly left of the camera's left edge.
   */
  lemma BandsNest(config: PlatformSpawnerConfig, cameraWidth: real, cameraHeight: real)
    requires 0.0 <= config.minGap <= config.maxGap
    ensures var spawn, buffer := SpawnArea(config, cameraWidth, cameraHeight), BufferArea(config, cameraWidth, cameraHeight);
      buffer.left <= spawn.left && spawn.Right() == buffer.Right()
    ensures DespawnArea(config, cameraWidth, cameraHeight).Right() < 0.0
  {
  }

  /** Closed-interval intersection, as the engine's overlap query tests bodies against a rectangle. */
  predicate Overlaps(a: Rect, b: Rect)
  {
    a.left <= b.Right() && b.left <= a.Right() && a.top <= b.Bottom() && b.top <= a.Bottom()
  }

  /** A platform's body, taken as its display rectangle centred on its position. */
  function BodyRect(p: Platform): Rect
    reads p
  {
    Bounds(p.x, p.y, p.displayWidth, p.displayHeight, 0.5)
  }

  /** A `Math.random()` draw. */
  predicate UnitDraw(r: real)
  {
    0.0 <= r < 1.0
  }

  /** A draw scales a non-negative width to at most that width, and strictly less when it is positive. */
  lemma ScaledWidth(r: real, w: real)
    requires UnitDraw(r) && 0.0 <= w
    ensures 0.0 <= r * w <= w
    ensures 0.0 < w ==> r * w < w
  {
    assert (1.0 - r) * w >= 0.0;
    assert 0.0 < w ==> (1.0 - r) * w > 0.0;
  }

  /** `Math.random() * (hi - lo) + lo`. */
  function Scale(r: real, lo: real, hi: real): (v: real)
    ensures UnitDraw(r) && lo <= hi ==> lo <= v <= hi && (lo < hi ==> v < hi)
  {
    var w := hi - lo;
    var scaled := r * w;
    assert UnitDraw(r) && 0.0 <= w ==> 0.0 <= scaled <= w && (0.0 < w ==> scaled < w) by {
      if UnitDraw(r) && 0.0 <= w {
        ScaledWidth(r, w);
      }
    }
    scaled + lo
  }

  /** The random draws one spawn consumes (a draw is not consumed when its argument is given). */
  datatype SpawnDraws = SpawnDraws(x: real, y: real, width: real, height: real)

  /** Where a spawned platform goes and how large it is. */
  datatype Placement = Placement(x: real, y: real, width: real, height: real)

  /**
   * spawnPlatform's position and size: explicit coordinates win, otherwise
   * x is drawn across the spawn band and y between minHeight and maxHeight;
   * width and height are always drawn from their ranges.
   */
  function Place(config: PlatformSpawnerConfig, spawn: Rect, x: Option<real>, y: Option<real>, d: SpawnDraws): (p: Placement)
    ensures x.Some? ==> p.x == x.value
    ensures y.Some? ==> p.y == y.value
    ensures x.None? && UnitDraw(d.x) && 0.0 <= spawn.width ==>
      spawn.left <= p.x <= spawn.Right() && (0.0 < spawn.width ==> p.x < spawn.Right())
    ensures y.None? && UnitDraw(d.y) && config.minHeight <= config.maxHeight ==>
      config.minHeight <= p.y <= config.maxHeight && (config.minHeight < config.maxHeight ==> p.y < config.maxHeight)
    ensures UnitDraw(d.width) && config.minPlatformWidth <= config.maxPlatformWidth ==>
      config.minPlatformWidth <= p.width <= config.maxPlatformWidth
      && (config.minPlatformWidth < config.maxPlatformWidth ==> p.width < config.maxPlatformWidth)
    ensures UnitDraw(d.height) && config.minPlatformHeight <= config.maxPlatformHeight ==>
      config.minPlatformHeight <= p.height <= config.maxPlatformHeight
      && (config.minPlatformHeight < config.maxPlatformHeight ==> p.height < config.maxPlatformHeight)
  {
    Placement(
      OptionOr(x, Scale(d.x, spawn.left, spawn.left + spawn.width)),
      OptionOr(y, Scale(d.y, config.minHeight, config.maxHeight)),
      Scale(d.width, config.minPlatformWidth, config.maxPlatformWidth),
      Scale(d.height, config.minPlatformHeight, config.maxPlatformHeight))
  }

  /** The first inactive platform of a pool (getFirstDead without creation). */
  function FirstDeadPlatform(ps: seq<Platform>): (r: Option<nat>)
    reads ps
    ensures r.None? <==> forall i :: 0 <= i < |ps| ==> ps[i].active
    ensures r.Some? ==> r.value < |ps| && !ps[r.value].active && forall i :: 0 <= i < r.value ==> ps[i].active
  {
    if ps == [] then None
    else if !ps[0].active then Some(0)
    else match FirstDeadPlatform(ps[1..])
      case None => None
      case Some(i) => Some(i + 1)
  }

  /** The first inactive condiment of a pool. */
  function FirstDeadCondiment(cs: seq<Condiment>): (r: Option<nat>)
    reads cs`active
    ensures r.Some? ==> r.value < |cs| && !cs[r.value].active
  {
    if cs == [] then None
    else if !cs[0].active then Some(0)
    else match FirstDeadCondiment(cs[1..])
      case None => None
      case Some(i) => Some(i + 1)
  }

  /** getFirstDead finds nothing only when every member is active, and otherwise the earliest inactive one. */
  lemma {:induction false} FirstDeadIsFirst(cs: seq<Condiment>)
    ensures FirstDeadCondiment(cs).None? <==> forall i :: 0 <= i < |cs| ==> cs[i].active
    ensures FirstDeadCondiment(cs).Some? ==> forall i :: 0 <= i < FirstDeadCondiment(cs).value ==> cs[i].active
  {
    if cs != [] && cs[0].active {
      FirstDeadIsFirst(cs[1..]);
      assert forall i :: 1 <= i < |cs| ==> cs[i] == cs[1..][i - 1];
    }
  }

  /** The state change an accurate or inaccurate hit asks for. */
  datatype Transition = ToPlaying | ToAccelerated | Stay

  /**
   * applyAccurateHit / applyInaccurateHit: Playing speeds up on an accurate
   * hit, PlayingAccelerated slows down on an inaccurate one, and every other
   * pair leaves the state alone.
   */
  function HitTransition(s: GameplayState, isAccurate: bool): (t: Transition)
    ensures t == ToAccelerated <==> isAccurate && s.Playing?
    ensures t == ToPlaying <==> !isAccurate && s.Accelerated?
    ensures t == Stay <==> (isAccurate && !s.Playing?) || (!isAccurate && !s.Accelerated?)
  {
    if isAccurate && s.Playing? then ToAccelerated
    else if !isAccurate && s.Accelerated? then ToPlaying
    else Stay
  }

  /** A call into the score manager whose body is not part of the model. */
  datatype ScoreCall = TryAddScore(isAccurate: bool) | AddCoinCall

  /** `count` calls of addCoin. */
  function CoinCalls(count: nat): (calls: seq<ScoreCall>)
    ensures |calls| == count && forall i :: 0 <= i < count ==> calls[i] == AddCoinCall
  {
    if count == 0 then [] else CoinCalls(count - 1) + [AddCoinCall]
  }

  /** A condiment type's position in CONDIMENT_KINDS. */
  function KindIndex(kind: CondimentKind): (i: nat)
    ensures i < |CONDIMENT_KINDS| && CONDIMENT_KINDS[i] == kind
  {
    match kind
    case Coin => 0
    case LeftSpike => 1
    case RightSpike => 2
  }

  /** The value of an option as a sequence of at most one element. */
  function Opt<T>(o: Option<T>): (s: seq<T>)
    ensures |s| <= 1 && (o.Some? <==> |s| == 1) && (o.Some? ==> s[0] == o.value)
  {
    if o.Some? then [o.value] else []
  }

  /** Present grows by the last option's value, if any. */
  lemma PresentSnoc<T>(opts: seq<Option<T>>, i: nat)
    requires i < |opts|
    ensures Present(opts[..i + 1]) == Present(opts[..i]) + Opt(opts[i])
  {
    assert opts[..i + 1][..i] == opts[..i];
  }

  /** The present values of a sequence of options, in order. */
  function Present<T>(opts: seq<Option<T>>): (vs: seq<T>)
    ensures |vs| <= |opts|
  {
    if opts == [] then []
    else Present(opts[..|opts| - 1]) + Opt(opts[|opts| - 1])
  }

  /** The fields of a condiment that spawning may change. */
  datatype CondimentState = CondimentState(platform: Platform?, subscriptions: nat, x: real, y: real, active: bool)

  ghost function StateOf(c: Condiment): CondimentState
    reads c
  {
    CondimentState(c.platform, c.subscriptions, c.x, c.y, c.active)
  }

  ghost function States(cs: set<Condiment>): map<Condiment, CondimentState>
    reads cs
  {
    map c | c in cs :: StateOf(c)
  }

  /** Whether `c` is among the picks of the first `i` condiment types. */
  ghost predicate Taken(c: Condiment, picks: seq<Option<Condiment>>, i: nat)
  {
    |picks| == |CONDIMENT_KINDS| && KindIndex(c.kind) < i && picks[KindIndex(c.kind)] == Some(c)
  }

  class PlatformSpawner {
    var config: PlatformSpawnerConfig
    /** The group's children: the platform pool. */
    const platforms: seq<Platform>
    /** The three condiment pools, each filled to the groups' maxSize of 20. */
    const coinPool: seq<Condiment>
    const leftSpikePool: seq<Condiment>
    const rightSpikePool: seq<Condiment>
    const player: Player
    const gameState: GameplayStateMachine
    const colorMap: PlatformColors
    var shadowColor: Option<int>
    const cameraWidth: real
    const cameraHeight: real
    var spawnArea: Rect
    var bufferArea: Rect
    var despawnArea: Rect
    /** The calls made into the score manager, in order. */
    var scoreCalls: seq<ScoreCall>
    /** The state-change listener this spawner registered. */
    const listener: Callback
    /** The condiments of the three pools. */
    ghost const pooled: set<Condiment>
    /** How many times updatePlatformStates has run. */
    ghost var refreshes: nat

    /**
     * The spawner and the player are each registered once on the state
     * machine, under different listeners, and platforms are distinct.
     */
    ghost predicate Valid()
      reads this, gameState, Cursors(gameState.state), player
    {
      && gameState.Valid()
      && player.gameState == gameState
      && player.listener != listener
      && player.listener in gameState.eventListeners
      && multiset(gameState.eventListeners)[listener] == 1
      && (forall i, j :: 0 <= i < j < |platforms| ==> platforms[i] != platforms[j])
      && PoolsTyped()
    }

    /** Each pool holds condiments of its own type, all of them pooled. */
    ghost predicate PoolsTyped()
    {
      forall k, c :: c in Pool(k) ==> c.kind == k && c in pooled
    }

    /** condimentGroup[kind]. */
    function Pool(kind: CondimentKind): seq<Condiment>
    {
      match kind
      case Coin => coinPool
      case LeftSpike => leftSpikePool
      case RightSpike => rightSpikePool
    }

    /**
     * The constructor: registers the spawner's listener, lays out the three
     * bands and draws the first shadow colour.
     */
    constructor (player: Player, config: PlatformSpawnerConfig, gameState: GameplayStateMachine,
                 colorMap: PlatformColors, platforms: seq<Platform>,
                 coinPool: seq<Condiment>, leftSpikePool: seq<Condiment>, rightSpikePool: seq<Condiment>,
                 cameraWidth: real, cameraHeight: real, listener: Callback)
      requires gameState.Valid() && player.gameState == gameState
      requires listener != player.listener && listener !in gameState.eventListeners
      requires player.listener in gameState.eventListeners
      requires forall i, j :: 0 <= i < j < |platforms| ==> platforms[i] != platforms[j]
      requires forall c :: c in coinPool ==> c.kind == Coin
      requires forall c :: c in leftSpikePool ==> c.kind == LeftSpike
      requires forall c :: c in rightSpikePool ==> c.kind == RightSpike
      requires gameState.state.Accelerated? ==> gameState.state.cursor.payload != []
      modifies gameState, Cursors(gameState.state)
      ensures Valid()
      ensures gameState.state == old(gameState.state)
      ensures gameState.eventListeners == old(gameState.eventListeners) + [listener]
      ensures this.config == config && this.player == player && this.gameState == gameState
      ensures this.colorMap == colorMap && this.platforms == platforms && this.listener == listener
      ensures this.coinPool == coinPool && this.leftSpikePool == leftSpikePool && this.rightSpikePool == rightSpikePool
      ensures this.cameraWidth == cameraWidth && this.cameraHeight == cameraHeight
      ensures spawnArea == SpawnArea(config, cameraWidth, cameraHeight)
      ensures bufferArea == BufferArea(config, cameraWidth, cameraHeight)
      ensures despawnArea == DespawnArea(config, cameraWidth, cameraHeight)
      ensures !gameState.state.Accelerated? ==> shadowColor == Some(NEUTRAL_SHADOW)
      ensures gameState.state.Accelerated? ==> OneDraw(gameState.state.cursor, old(Position(gameState.state)))
      ensures scoreCalls == [] && refreshes == 0
    {
      var handle := gameState.OnStateChange(listener);
      this.config, this.player, this.gameState := config, player, gameState;
      this.colorMap, this.platforms, this.listener := colorMap, platforms, listener;
      this.coinPool, this.leftSpikePool, this.rightSpikePool := coinPool, leftSpikePool, rightSpikePool;
      this.cameraWidth, this.cameraHeight := cameraWidth, cameraHeight;
      spawnArea := SpawnArea(config, cameraWidth, cameraHeight);
      bufferArea := BufferArea(config, cameraWidth, cameraHeight);
      despawnArea := DespawnArea(config, cameraWidth, cameraHeight);
      var color := gameState.GetNextPlatformShadowColor();
      shadowColor := if color.Ok? then color.value else None;
      pooled := set c | c in coinPool + leftSpikePool + rightSpikePool;
      scoreCalls := [];
      refreshes := 0;
    }

    /**
     * The cursor `c` has taken exactly one draw from position `from`, and the
     * colour drawn is the spawner's shadow colour.
     */
    ghost predicate OneDraw(c: PlayingAcceleratedState, from: (nat, nat))
      reads this, c
    {
      && (c.payload == [] || from.0 < |c.payload|)
      && var d := NextShadow(c.payload, from.0, from.1);
      && d.Ok? && shadowColor == d.value.color && c.currX == d.value.x && c.currY == d.value.y
    }

    /** Every platform moves at `velocity` and casts `color`. */
    ghost predicate AllPlatforms(velocity: real, color: Option<int>)
      reads platforms
    {
      forall p :: p in platforms ==> p.velocityX == velocity && p.shadowColor == color
    }

    /** setAllPlatform. */
    method SetAllPlatform(velocity: real, color: Option<int>)
      modifies platforms`velocityX, platforms`shadowColor
      ensures AllPlatforms(velocity, color)
    {
      for i := 0 to |platforms|
        invariant forall j :: 0 <= j < i ==> platforms[j].velocityX == velocity && platforms[j].shadowColor == color
      {
        platforms[i].SetVelocityX(velocity);
        platforms[i].SetShadowColor(color);
      }
    }

    /**
     * updatePlatformStates: push the state's velocity and one fresh shadow
     * colour to every platform. Drawing the colour fails only in
     * PlayingAccelerated over an empty colour matrix, and then nothing changes.
     */
    method UpdatePlatformStates() returns (r: Outcome)
      requires Valid()
      modifies Cursors(gameState.state), platforms`velocityX, platforms`shadowColor, this`shadowColor, this`refreshes
      ensures Valid()
      ensures refreshes == old(refreshes) + 1
      ensures r.Fail? <==> gameState.state.Accelerated? && gameState.state.cursor.payload == []
      ensures r.Pass? ==> AllPlatforms(PlatformVelocity(gameState.state), shadowColor)
      ensures r.Pass? && !gameState.state.Accelerated? ==> shadowColor == Some(NEUTRAL_SHADOW)
      ensures r.Pass? && gameState.state.Accelerated? ==> OneDraw(gameState.state.cursor, old(Position(gameState.state)))
      ensures r.Fail? ==> shadowColor == old(shadowColor)
    {
      refreshes := refreshes + 1;
      var velocity := gameState.GetPlatformVelocity();
      var color := gameState.GetNextPlatformShadowColor();
      if color.Err? {
        return Fail(color.error);
      }
      shadowColor := color.value;
      SetAllPlatform(velocity, shadowColor);
      r := Pass;
    }

    /**
     * Runs the listeners a state change invoked, in order: the player's sets
     * its acceleration, the spawner's refreshes the platforms, and any other
     * listener lies outside the model. A failing refresh stops the rest.
     */
    method Dispatch(invoked: seq<Callback>) returns (r: Outcome)
      requires Valid()
      modifies player`accelerationX, player`accelerationY, Cursors(gameState.state)
      modifies platforms`velocityX, platforms`shadowColor, this`shadowColor, this`refreshes
      ensures Valid()
      ensures r.Pass? ==> refreshes == old(refreshes) + multiset(invoked)[listener]
      ensures r.Pass? && player.listener in invoked ==>
        player.accelerationX == 0.0 && player.accelerationY == PlayerAcceleration(gameState.state)
      ensures r.Pass? && listener in invoked ==> AllPlatforms(PlatformVelocity(gameState.state), shadowColor)
      ensures r.Pass? && listener in invoked && !gameState.state.Accelerated? ==> shadowColor == Some(NEUTRAL_SHADOW)
      ensures listener !in invoked ==> r == Pass && shadowColor == old(shadowColor) && refreshes == old(refreshes)
      ensures !gameState.state.Accelerated? ==> r == Pass
      ensures listener in invoked ==> (r.Fail? <==> gameState.state.Accelerated? && gameState.state.cursor.payload == [])
      ensures r.Pass? && gameState.state.Accelerated? && multiset(invoked)[listener] == 1 ==>
        OneDraw(gameState.state.cursor, old(Position(gameState.state)))
    {
      r := Pass;
      var i := 0;
      while i < |invoked|
        invariant 0 <= i <= |invoked|
        invariant Valid() && r == Pass
        invariant refreshes == old(refreshes) + multiset(invoked[..i])[listener]
        invariant player.listener in invoked[..i] ==>
          player.accelerationX == 0.0 && player.accelerationY == PlayerAcceleration(gameState.state)
        invariant listener in invoked[..i] ==> AllPlatforms(PlatformVelocity(gameState.state), shadowColor)
        invariant listener in invoked[..i] && !gameState.state.Accelerated? ==> shadowColor == Some(NEUTRAL_SHADOW)
        invariant listener !in invoked[..i] ==> shadowColor == old(shadowColor)
        invariant listener in invoked[..i] ==> !(gameState.state.Accelerated? && gameState.state.cursor.payload == [])
        invariant multiset(invoked[..i])[listener] == 0 ==> Position(gameState.state) == old(Position(gameState.state))
        invariant gameState.state.Accelerated? && multiset(invoked[..i])[listener] == 1 ==>
          OneDraw(gameState.state.cursor, old(Position(gameState.state)))
      {
        assert invoked[..i + 1] == invoked[..i] + [invoked[i]];
        if invoked[i] == player.listener {
          player.OnStateChange(gameState.GetState());
        } else if invoked[i] == listener {
          r := UpdatePlatformStates();
          if r.Fail? {
            return;
          }
        }
        i := i + 1;
      }
      assert invoked[..i] == invoked;
    }

    /** applyAccurateHit: Playing speeds up to PlayingAccelerated over the colour map; other states stay. */
    method ApplyAccurateHit() returns (changed: bool, r: Outcome)
      requires Valid()
      modifies gameState, player`accelerationX, player`accelerationY
      modifies platforms`velocityX, platforms`shadowColor, this`shadowColor, this`refreshes
      ensures Valid() && gameState.eventListeners == old(gameState.eventListeners)
      ensures changed <==> old(gameState.state).Playing?
      ensures changed ==>
        && gameState.state.Accelerated? && fresh(gameState.state.cursor)
        && gameState.state.cursor.payload == colorMap
      ensures changed && r.Pass? ==>
        && refreshes == old(refreshes) + 1
        && AllPlatforms(PlatformVelocity(gameState.state), shadowColor)
        && player.accelerationY == PlayerAcceleration(gameState.state)
      ensures changed ==> (r.Fail? <==> colorMap == [])
      ensures changed && r.Pass? ==> OneDraw(gameState.state.cursor, (0, 0))
      ensures !changed ==>
        && r == Pass && gameState.state == old(gameState.state)
        && refreshes == old(refreshes) && shadowColor == old(shadowColor)
    {
      changed, r := false, Pass;
      if gameState.GetState().Playing? {
        var cursor := new PlayingAcceleratedState(colorMap);
        var state, invoked := gameState.ChangeState(Accelerated(cursor));
        r := Dispatch(invoked);
        changed := true;
      }
    }

    /** applyInaccurateHit: PlayingAccelerated slows down to Playing; other states stay. */
    method ApplyInaccurateHit() returns (changed: bool, r: Outcome)
      requires Valid()
      modifies gameState, player`accelerationX, player`accelerationY
      modifies platforms`velocityX, platforms`shadowColor, this`shadowColor, this`refreshes
      ensures Valid() && gameState.eventListeners == old(gameState.eventListeners)
      ensures changed <==> old(gameState.state).Accelerated?
      ensures changed ==> gameState.state == Playing && r == Pass && shadowColor == Some(NEUTRAL_SHADOW)
      ensures changed && r.Pass? ==>
        && refreshes == old(refreshes) + 1
        && AllPlatforms(PlatformVelocity(gameState.state), shadowColor)
        && player.accelerationY == PlayerAcceleration(gameState.state)
      ensures !changed ==>
        && r == Pass && gameState.state == old(gameState.state)
        && refreshes == old(refreshes) && shadowColor == old(shadowColor)
    {
      changed, r := false, Pass;
      if gameState.GetState().Accelerated? {
        var state, invoked := gameState.ChangeState(Playing);
        r := Dispatch(invoked);
        changed := true;
      }
    }

    /**
     * applyHit: make the transition the hit asks for and refresh the
     * platforms exactly once, through the listener when the state changed
     * and by a direct call when it did not.
     */
    method ApplyHit(isAccurate: bool) returns (r: Outcome)
      requires Valid()
      modifies gameState, Cursors(gameState.state), player`accelerationX, player`accelerationY
      modifies platforms`velocityX, platforms`shadowColor, this`shadowColor, this`refreshes
      ensures Valid() && gameState.eventListeners == old(gameState.eventListeners)
      ensures var t := HitTransition(old(gameState.state), isAccurate);
        && (t == Stay ==> gameState.state == old(gameState.state))
        && (t == ToPlaying ==> gameState.state == Playing)
        && (t == ToAccelerated ==>
              gameState.state.Accelerated? && fresh(gameState.state.cursor) && gameState.state.cursor.payload == colorMap)
      ensures r.Pass? ==>
        && refreshes == old(refreshes) + 1
        && AllPlatforms(PlatformVelocity(gameState.state), shadowColor)
      ensures r.Fail? <==> gameState.state.Accelerated? && gameState.state.cursor.payload == []
      ensures r.Pass? && !gameState.state.Accelerated? ==> shadowColor == Some(NEUTRAL_SHADOW)
      ensures r.Pass? && HitTransition(old(gameState.state), isAccurate) == ToAccelerated ==>
        OneDraw(gameState.state.cursor, (0, 0))
      ensures r.Pass? && HitTransition(old(gameState.state), isAccurate) == Stay && gameState.state.Accelerated? ==>
        OneDraw(gameState.state.cursor, old(Position(gameState.state)))
    {
      var changed;
      if isAccurate {
        changed, r := ApplyAccurateHit();
      } else {
        changed, r := ApplyInaccurateHit();
      }
      if r.Fail? {
        return;
      }
      if !changed {
        r := UpdatePlatformStates();
      }
    }

    /** The ball stops taking input (until a timer gives it back) and flies up. */
    method BouncePlayer()
      modifies player`ignoreInput, player`pointerDown, player`velocityY
      ensures player.ignoreInput && !player.pointerDown && player.velocityY == -BOUNCE_VELOCITY
    {
      player.SetIgnoreInput(true);
      player.SetVelocityY(-BOUNCE_VELOCITY);
    }

    /**
     * Carries out the condiments' effects in order: a coin is an addCoin
     * call, a left spike's game over stops the ball and runs the listeners
     * of the change to GameOver.
     */
    method DispatchEffects(effects: seq<Effect>) returns (r: Outcome)
      requires Valid()
      modifies gameState, player, platforms`velocityX, platforms`shadowColor
      modifies this`shadowColor, this`refreshes, this`scoreCalls
      ensures Valid() && gameState.eventListeners == old(gameState.eventListeners) && r == Pass
      ensures RequestGameOver !in effects ==>
        && gameState.state == old(gameState.state)
        && refreshes == old(refreshes) && shadowColor == old(shadowColor)
      ensures scoreCalls == old(scoreCalls) + CoinCalls(multiset(effects)[AddCoin])
      ensures refreshes == old(refreshes) + multiset(effects)[RequestGameOver]
      ensures RequestGameOver in effects ==>
        && gameState.state == GameOver
        && !player.bodyEnabled && !player.allowGravity
        && player.velocityX == 0.0 && player.velocityY == 0.0
        && player.accelerationY == 0.0
        && AllPlatforms(0.0, Some(NEUTRAL_SHADOW)) && shadowColor == Some(NEUTRAL_SHADOW)
    {
      r := Pass;
      var i := 0;
      while i < |effects|
        invariant 0 <= i <= |effects|
        invariant Valid() && r == Pass && gameState.eventListeners == old(gameState.eventListeners)
        invariant scoreCalls == old(scoreCalls) + CoinCalls(multiset(effects[..i])[AddCoin])
        invariant refreshes == old(refreshes) + multiset(effects[..i])[RequestGameOver]
        invariant RequestGameOver !in effects[..i] ==>
          gameState.state == old(gameState.state) && shadowColor == old(shadowColor)
        invariant RequestGameOver in effects[..i] ==>
          && gameState.state == GameOver
          && !player.bodyEnabled && !player.allowGravity
          && player.velocityX == 0.0 && player.velocityY == 0.0
          && player.accelerationY == 0.0
          && AllPlatforms(0.0, Some(NEUTRAL_SHADOW)) && shadowColor == Some(NEUTRAL_SHADOW)
      {
        assert effects[..i + 1] == effects[..i] + [effects[i]];
        match effects[i] {
          case AddCoin =>
            scoreCalls := scoreCalls + [AddCoinCall];
          case RequestGameOver =>
            var invoked := player.ApplyGameOver();
            r := Dispatch(invoked);
        }
        i := i + 1;
      }
      assert effects[..i] == effects;
    }

    /** The collider callback's first step: a landing in StaticState starts the game. */
    method EnterPlaying() returns (r: Outcome)
      requires Valid()
      modifies gameState, player`accelerationX, player`accelerationY
      modifies platforms`velocityX, platforms`shadowColor, this`shadowColor, this`refreshes
      ensures Valid() && gameState.eventListeners == old(gameState.eventListeners) && r == Pass
      ensures old(gameState.state).Static? ==>
        && gameState.state == Playing && refreshes == old(refreshes) + 1
        && AllPlatforms(PlatformVelocity(Playing), shadowColor)
      ensures !old(gameState.state).Static? ==>
        gameState.state == old(gameState.state) && refreshes == old(refreshes) && shadowColor == old(shadowColor)
    {
      r := Pass;
      if gameState.GetState().Static? {
        var state, invoked := gameState.ChangeState(Playing);
        r := Dispatch(invoked);
      }
    }

    /** The end of a judged landing: score it, bounce the ball and apply the hit. */
    method Land(isAccurate: bool) returns (r: Outcome)
      requires Valid()
      modifies gameState, Cursors(gameState.state), player`accelerationX, player`accelerationY
      modifies player`ignoreInput, player`pointerDown, player`velocityY
      modifies platforms`velocityX, platforms`shadowColor, this`shadowColor, this`refreshes, this`scoreCalls
      ensures Valid() && gameState.eventListeners == old(gameState.eventListeners)
      ensures scoreCalls == old(scoreCalls) + [TryAddScore(isAccurate)]
      ensures player.ignoreInput && !player.pointerDown && player.velocityY == -BOUNCE_VELOCITY
      ensures var t := HitTransition(old(gameState.state), isAccurate);
        && (t == Stay ==> gameState.state == old(gameState.state))
        && (t == ToPlaying ==> gameState.state == Playing)
        && (t == ToAccelerated ==> gameState.state.Accelerated? && gameState.state.cursor.payload == colorMap)
      ensures r.Pass? ==>
        && refreshes == old(refreshes) + 1
        && AllPlatforms(PlatformVelocity(gameState.state), shadowColor)
      ensures r.Fail? <==> gameState.state.Accelerated? && gameState.state.cursor.payload == []
      ensures r.Pass? && !gameState.state.Accelerated? ==> shadowColor == Some(NEUTRAL_SHADOW)
      ensures r.Pass? && HitTransition(old(gameState.state), isAccurate) == ToAccelerated ==>
        OneDraw(gameState.state.cursor, (0, 0))
      ensures r.Pass? && HitTransition(old(gameState.state), isAccurate) == Stay && gameState.state.Accelerated? ==>
        OneDraw(gameState.state.cursor, old(Position(gameState.state)))
    {
      scoreCalls := scoreCalls + [TryAddScore(isAccurate)];
      BouncePlayer();
      r := ApplyHit(isAccurate);
    }

    /**
     * The platform's part of a landing: the platform judges it and its
     * condiments react, their coins and game overs are carried out, and a
     * failed judgement or reaction is the result.
     */
    method JudgeLanding(platform: Platform, playerLeft: Option<real>, playerRight: Option<real>, playerWidth: real)
      returns (hit: Result<Hit>)
      requires Valid() && platform in platforms
      modifies gameState, player, platforms`velocityX, platforms`shadowColor
      modifies platform`requiredAcc, platform`mZone, platform`lZone, platform`rZone, platform`velocityY
      modifies platform.condiments`active
      modifies this`shadowColor, this`refreshes, this`scoreCalls
      ensures Valid() && gameState.eventListeners == old(gameState.eventListeners)
      ensures old(platform.platformConfig).None? ==> hit == Err(MissingPlatformConfig)
      ensures hit.Ok? ==>
        && old(platform.platformConfig).Some?
        && hit == Classify(old(platform.mZone.box), playerLeft, playerRight, playerWidth, config.requiredAcc)
        && RightSpike !in Kinds(platform.condiments)
      ensures hit.Ok? ==>
        var kinds := Kinds(platform.condiments);
        var gameOver := !hit.value.isAccurate && hit.value.isLeft && LeftSpike in kinds;
        && scoreCalls == old(scoreCalls) + CoinCalls(if hit.value.isAccurate then 0 else multiset(kinds)[Coin])
        && refreshes == old(refreshes) + (if gameOver then multiset(kinds)[LeftSpike] else 0)
        && gameState.state == (if gameOver then GameOver else old(gameState.state))
    {
      var effects;
      hit, effects := platform.ApplyCollision(playerLeft, playerRight, playerWidth, config.requiredAcc);
      ghost var kinds := Kinds(platform.condiments);
      var r := DispatchEffects(effects);
      if hit.Ok? {
        assert FirstFailure(kinds) == |kinds|;
        assert forall i :: 0 <= i < |kinds| ==> kinds[i] != RightSpike;
        AllEffects(kinds, hit.value);
      }
    }

    /**
     * The collider callback for the ball landing on `platform`: start the
     * game if it was static, let the platform judge the landing and its
     * condiments react, then score the hit, bounce the ball and apply the
     * hit to the state machine. The ball's edges and width come from the
     * engine; the spin and the particles are not modelled.
     */
    method OnCollision(platform: Platform, playerLeft: Option<real>, playerRight: Option<real>, playerWidth: real)
      returns (r: Outcome)
      requires Valid() && platform in platforms
      modifies gameState, Cursors(gameState.state), player, platforms`velocityX, platforms`shadowColor
      modifies platform`requiredAcc, platform`mZone, platform`lZone, platform`rZone, platform`velocityY
      modifies platform.condiments`active
      modifies this`shadowColor, this`refreshes, this`scoreCalls
      ensures Valid() && gameState.eventListeners == old(gameState.eventListeners)
      ensures old(platform.platformConfig).None? ==> r == Fail(MissingPlatformConfig)
      ensures r.Pass? ==>
        && old(platform.platformConfig).Some?
        && Classify(old(platform.mZone.box), playerLeft, playerRight, playerWidth, config.requiredAcc).Ok?
        && RightSpike !in Kinds(platform.condiments)
      ensures r.Pass? ==>
        var hit := Classify(old(platform.mZone.box), playerLeft, playerRight, playerWidth, config.requiredAcc).value;
        var kinds := Kinds(platform.condiments);
        var gameOver := !hit.isAccurate && hit.isLeft && LeftSpike in kinds;
        var entered := if old(gameState.state).Static? then Playing else old(gameState.state);
        var landed := if gameOver then GameOver else entered;
        var t := HitTransition(landed, hit.isAccurate);
        && scoreCalls == old(scoreCalls)
             + CoinCalls(if hit.isAccurate then 0 else multiset(kinds)[Coin])
             + [TryAddScore(hit.isAccurate)]
        && refreshes == old(refreshes)
             + (if old(gameState.state).Static? then 1 else 0)
             + (if gameOver then multiset(kinds)[LeftSpike] else 0)
             + 1
        && player.ignoreInput && !player.pointerDown && player.velocityY == -BOUNCE_VELOCITY
        && (t == Stay ==> gameState.state == landed)
        && (t == ToPlaying ==> gameState.state == Playing)
        && (t == ToAccelerated ==> gameState.state.Accelerated? && gameState.state.cursor.payload == colorMap)
        && AllPlatforms(PlatformVelocity(gameState.state), shadowColor)
        && (!gameState.state.Accelerated? ==> shadowColor == Some(NEUTRAL_SHADOW))
        && (t == ToAccelerated ==> OneDraw(gameState.state.cursor, (0, 0)))
        && (t == Stay && gameState.state.Accelerated? ==> OneDraw(gameState.state.cursor, old(Position(gameState.state))))
    {
      ghost var box := platform.mZone.box;
      r := EnterPlaying();
      assert platform.mZone.box == box;
      var hit := JudgeLanding(platform, playerLeft, playerRight, playerWidth);
      if hit.Err? {
        return Fail(hit.error);
      }
      r := Land(hit.value.isAccurate);
    }

    /**
     * The condiment addOptionalCondiments takes for `kind`, given the kind's
     * probability `chance` and the draw it is compared with: the pool's first
     * inactive condiment when the draw falls under the probability.
     */
    function Pick(kind: CondimentKind, chance: real, draw: real): (r: Option<Condiment>)
      reads Pool(kind)`active
      ensures r.Some? ==> r.value in Pool(kind) && !r.value.active
    {
      if chance > draw then
        match FirstDeadCondiment(Pool(kind))
        case Some(i) => Some(Pool(kind)[i])
        case None => None
      else None
    }

    /**
     * A type gets a condiment exactly when its draw falls under its
     * probability and its pool holds an inactive member; it is then the
     * pool's earliest inactive member.
     */
    lemma PickIsFirstDead(kind: CondimentKind, chance: real, draw: real)
      ensures Pick(kind, chance, draw).Some? <==> chance > draw && exists c :: c in Pool(kind) && !c.active
      ensures Pick(kind, chance, draw).Some? ==>
        exists i :: 0 <= i < |Pool(kind)| && Pick(kind, chance, draw).value == Pool(kind)[i]
          && forall j :: 0 <= j < i ==> Pool(kind)[j].active
    {
      FirstDeadIsFirst(Pool(kind));
    }

    /** A pool's first inactive member only depends on the pool's active flags. */
    twostate lemma FirstDeadUnchanged(kind: CondimentKind)
      requires forall c :: c in Pool(kind) ==> c.active == old(c.active)
      ensures FirstDeadCondiment(Pool(kind)) == old(FirstDeadCondiment(Pool(kind)))
    {
    }

    /** Pick for each condiment type, in the order of CONDIMENT_KINDS, with that type's draw. */
    function PickAll(prob: CondimentProbability, draws: seq<real>): (picks: seq<Option<Condiment>>)
      requires PoolsTyped() && |draws| == |CONDIMENT_KINDS|
      reads pooled`active
      ensures |picks| == |CONDIMENT_KINDS|
      ensures forall j :: 0 <= j < |CONDIMENT_KINDS| ==>
        picks[j] == Pick(CONDIMENT_KINDS[j], prob.Of(CONDIMENT_KINDS[j]), draws[j])
    {
      [Pick(Coin, prob.coin, draws[0]), Pick(LeftSpike, prob.leftSpike, draws[1]), Pick(RightSpike, prob.rightSpike, draws[2])]
    }

    /** activatePlatform: revive the body at (x, y), moving at the state's velocity with the current shadow. */
    method ActivatePlatform(p: Platform, x: real, y: real)
      modifies p`x, p`y, p`velocityX, p`velocityY, p`active, p`shadowColor
      ensures p.x == x && p.y == y && p.active && p.velocityY == 0.0
      ensures p.velocityX == PlatformVelocity(gameState.state) && p.shadowColor == shadowColor
    {
      p.EnableBody(x, y);
      p.SetVelocityX(gameState.GetPlatformVelocity());
      p.SetShadowColor(shadowColor);
    }

    /** `c` rides on `p` when taken, and otherwise still has the state `was`. */
    ghost predicate Offered(c: Condiment, p: Platform, was: CondimentState, taken: bool)
      reads c, p`x, p`y
    {
      if taken then Riding(c, p) && c.subscriptions == was.subscriptions + 1 else StateOf(c) == was
    }

    /** Condiment `c` rides on `p`: attached to it, alive and centred on its top. */
    ghost predicate Riding(c: Condiment, p: Platform)
      reads c, p`x, p`y
    {
      && c.platform == p && c.active
      && (c.x, c.y) == TopCenterPosition(p.x, p.y, p.frameHeight, c.height)
    }

    /** addOptionalCondiments' use of a taken condiment: attach it, list it on `p` and revive it centred above. */
    method AttachCondiment(p: Platform, c: Condiment)
      modifies p`condiments, c
      ensures p.condiments == old(p.condiments) + [c]
      ensures Riding(c, p) && c.subscriptions == old(c.subscriptions) + 1
    {
      c.AttachToPlatform(p);
      p.AddCondiment(c);
      var at := TopCenterPosition(p.x, p.y, p.frameHeight, c.height);
      c.Activate(at.0, at.1);
    }

    /**
     * One turn of addOptionalCondiments' forEach: when the draw falls below
     * the type's probability, the first dead condiment of its pool, if any,
     * is attached to `p`.
     */
    method OfferCondiment(p: Platform, kind: CondimentKind, chance: real, draw: real) returns (picked: Option<Condiment>)
      requires PoolsTyped()
      modifies p`condiments, pooled
      ensures picked == old(Pick(kind, chance, draw))
      ensures p.condiments == old(p.condiments) + Opt(picked)
      ensures forall c :: c in pooled && Some(c) != picked ==> unchanged(c)
      ensures picked.Some? ==> Riding(picked.value, p) && picked.value.subscriptions == old(picked.value.subscriptions) + 1
    {
      picked := Pick(kind, chance, draw);
      if picked.Some? {
        AttachCondiment(p, picked.value);
      }
    }

    /**
     * The forEach of addOptionalCondiments over the condiment types, with
     * their draws: each type's pick, when there is one, ends on `p` and
     * every other pooled condiment is left as it was.
     */
    method OfferAll(p: Platform, prob: CondimentProbability, draws: seq<real>)
      requires PoolsTyped() && |draws| == |CONDIMENT_KINDS|
      modifies p`condiments, pooled
      ensures p.condiments == old(p.condiments) + Present(old(PickAll(prob, draws)))
      ensures forall c :: c in pooled ==>
        Offered(c, p, old(StateOf(c)), Some(c) == old(PickAll(prob, draws))[KindIndex(c.kind)])
    {
      ghost var expected := PickAll(prob, draws);
      ghost var start := States(pooled);
      var i := 0;
      while i < |CONDIMENT_KINDS|
        invariant 0 <= i <= |CONDIMENT_KINDS|
        invariant p.condiments == old(p.condiments) + Present(expected[..i])
        invariant forall c :: c in pooled ==> c in start && Offered(c, p, start[c], Taken(c, expected, i))
      {
        var kind := CONDIMENT_KINDS[i];
        assert KindIndex(kind) == i;
        forall c | c in Pool(kind)
          ensures c.active == old(c.active)
        {
          assert StateOf(c) == start[c];
        }
        FirstDeadUnchanged(kind);
        assert Pick(kind, prob.Of(kind), draws[i]) == expected[i];
        label before:
        var picked := OfferCondiment(p, kind, prob.Of(kind), draws[i]);
        forall c | c in pooled
          ensures Offered(c, p, start[c], Taken(c, expected, i + 1))
        {
          if Some(c) != picked {
            assert StateOf(c) == old@before(StateOf(c));
          }
        }
        PresentSnoc(expected, i);
        AppendAssociative(old(p.condiments), Present(expected[..i]), Opt(picked));
        i := i + 1;
      }
      assert expected[..i] == expected;
      forall c | c in pooled
        ensures Offered(c, p, old(StateOf(c)), Some(c) == expected[KindIndex(c.kind)])
      {
        assert Taken(c, expected, i) == (Some(c) == expected[KindIndex(c.kind)]);
      }
    }

    /**
     * addOptionalCondiments: one draw per condiment type. Without a
     * probability table, listing its keys throws a TypeError.
     */
    method AddOptionalCondiments(p: Platform, draws: seq<real>) returns (r: Outcome)
      requires PoolsTyped() && |draws| == |CONDIMENT_KINDS|
      modifies p`condiments, pooled
      ensures config.condimentPropability.None? ==>
        r == Fail(TypeError) && p.condiments == old(p.condiments) && forall c :: c in pooled ==> unchanged(c)
      ensures config.condimentPropability.Some? ==>
        var picked := old(PickAll(config.condimentPropability.value, draws));
        && r == Pass
        && p.condiments == old(p.condiments) + Present(picked)
        && forall c :: c in pooled ==> Offered(c, p, old(StateOf(c)), Some(c) == picked[KindIndex(c.kind)])
    {
      if config.condimentPropability.None? {
        return Fail(TypeError);
      }
      OfferAll(p, config.condimentPropability.value, draws);
      r := Pass;
    }

    /**
     * A platform reset and revived for spawning at `at`: sized and
     * configured from the spawner's config, painted in the base colour,
     * alive, moving at the state's speed and casting the current shadow.
     */
    ghost predicate Spawned(p: Platform, at: Placement)
      reads this, gameState, p
    {
      && p.x == at.x && p.y == at.y && p.active
      && p.velocityX == PlatformVelocity(gameState.state) && p.velocityY == 0.0
      && p.shadowColor == shadowColor
      && p.displayWidth == at.width && p.displayHeight == at.height + COLLIDER_SIZE_OFFSET_Y
      && p.platformConfig == Some(PlatformConfig(at.width, at.height, 0.0, config.platformColor))
      && p.requiredAcc == config.requiredAcc
      && p.mZone.color == p.lZone.color == p.rZone.color == config.platformColor.baseColor
    }

    /** spawnPlatform's resetConfig and activatePlatform calls; the zones keep their old geometry. */
    method Revive(p: Platform, at: Placement)
      modifies p`x, p`y, p`velocityX, p`velocityY, p`active, p`shadowColor
      modifies p`displayWidth, p`displayHeight, p`mZone, p`lZone, p`rZone, p`platformConfig, p`requiredAcc
      ensures Spawned(p, at)
      ensures p.mZone.box == old(p.mZone.box) && p.lZone.box == old(p.lZone.box) && p.rZone.box == old(p.rZone.box)
    {
      p.ResetConfig(config.requiredAcc, PlatformConfig(at.width, at.height, 0.0, config.platformColor));
      ActivatePlatform(p, at.x, at.y);
    }

    /**
     * spawnPlatform(x?, y?): take the pool's first dead platform, or report
     * none; reset it to a placement drawn from the config, revive it, and
     * offer it the optional condiments. A failure there is thrown after the
     * platform is already alive.
     */
    method SpawnPlatform(x: Option<real>, y: Option<real>, d: SpawnDraws, condimentDraws: seq<real>)
      returns (r: Result<Option<Platform>>)
      requires PoolsTyped() && |condimentDraws| == |CONDIMENT_KINDS|
      modifies platforms, pooled
      ensures old(FirstDeadPlatform(platforms)).None? ==>
        && r == Ok(None)
        && (forall q :: q in platforms ==> unchanged(q))
        && (forall c :: c in pooled ==> unchanged(c))
      ensures old(FirstDeadPlatform(platforms)).Some? ==>
        var p := platforms[old(FirstDeadPlatform(platforms)).value];
        && Spawned(p, Place(config, spawnArea, x, y, d))
        && p.mZone.box == old(p.mZone.box) && p.lZone.box == old(p.lZone.box) && p.rZone.box == old(p.rZone.box)
        && (forall q :: q in platforms && q != p ==> unchanged(q))
        && (config.condimentPropability.None? ==>
              r == Err(TypeError) && p.condiments == old(p.condiments) && forall c :: c in pooled ==> unchanged(c))
        && (config.condimentPropability.Some? ==>
              var picked := old(PickAll(config.condimentPropability.value, condimentDraws));
              && r == Ok(Some(p))
              && p.condiments == old(p.condiments) + Present(picked)
              && forall c :: c in pooled ==> Offered(c, p, old(StateOf(c)), Some(c) == picked[KindIndex(c.kind)]))
    {
      var found := FirstDeadPlatform(platforms);
      if found.None? {
        return Ok(None);
      }
      var p := platforms[found.value];
      Revive(p, Place(config, spawnArea, x, y, d));
      var added := AddOptionalCondiments(p, condimentDraws);
      if added.Fail? {
        return Err(added.error);
      }
      r := Ok(Some(p));
    }

    /** prespawnPlatform: the first platform, centred horizontally at two thirds of the camera's height. */
    method PrespawnPlatform(d: SpawnDraws, condimentDraws: seq<real>) returns (r: Outcome)
      requires PoolsTyped() && |condimentDraws| == |CONDIMENT_KINDS|
      modifies platforms, pooled
      ensures old(FirstDeadPlatform(platforms)).None? ==> r == Pass && forall q :: q in platforms ==> unchanged(q)
      ensures old(FirstDeadPlatform(platforms)).Some? ==>
        var p := platforms[old(FirstDeadPlatform(platforms)).value];
        && p.active && p.x == cameraWidth / 2.0 && p.y == cameraHeight / 3.0 * 2.0
        && (r.Fail? <==> config.condimentPropability.None?)
    {
      var spawned := SpawnPlatform(Some(cameraWidth / 2.0), Some(cameraHeight / 3.0 * 2.0), d, condimentDraws);
      r := if spawned.Err? then Fail(spawned.error) else Pass;
    }

    /** deactivatePlatform: empty the condiment list and disable the body; the condiments stay alive. */
    method DeactivatePlatform(p: Platform)
      modifies p`condiments, p`active
      ensures p.condiments == [] && !p.active
    {
      p.ClearCondiments();
      p.DisableBody();
    }

    /** Whether some live platform's body overlaps `area` (the engine's overlapRect, filtered to platforms). */
    predicate Occupied(area: Rect)
      reads this, platforms
    {
      exists p :: p in platforms && p.active && Overlaps(BodyRect(p), area)
    }

    /** After the despawn pass: a platform that was alive in the band is dead and bare, any other is as it was. */
    ghost predicate Despawned(p: Platform, wasActive: bool, wasCondiments: seq<Condiment>)
      reads this, p
    {
      if wasActive && Overlaps(BodyRect(p), despawnArea) then !p.active && p.condiments == []
      else p.active == wasActive && p.condiments == wasCondiments
    }

    /** The despawn half of onUpdate: every live platform overlapping the despawn band is deactivated. */
    method Despawn()
      requires forall i, j :: 0 <= i < j < |platforms| ==> platforms[i] != platforms[j]
      modifies platforms`condiments, platforms`active
      ensures forall i :: 0 <= i < |platforms| ==>
        Despawned(platforms[i], old(platforms[i].active), old(platforms[i].condiments))
      ensures forall p :: p in platforms ==> !(p.active && Overlaps(BodyRect(p), despawnArea))
    {
      var i := 0;
      while i < |platforms|
        invariant 0 <= i <= |platforms|
        invariant forall j :: 0 <= j < i ==>
          Despawned(platforms[j], old(platforms[j].active), old(platforms[j].condiments))
        invariant forall j :: i <= j < |platforms| ==>
          platforms[j].active == old(platforms[j].active) && platforms[j].condiments == old(platforms[j].condiments)
      {
        var p := platforms[i];
        if p.active && Overlaps(BodyRect(p), despawnArea) {
          DeactivatePlatform(p);
        }
        i := i + 1;
      }
    }

    /**
     * onUpdate, the 50 ms maintenance step: spawn when no live platform
     * overlaps the buffer band, then despawn. A failed spawn throws before
     * the despawn pass.
     */
    method OnUpdate(d: SpawnDraws, condimentDraws: seq<real>) returns (r: Outcome)
      requires Valid() && |condimentDraws| == |CONDIMENT_KINDS|
      modifies platforms, pooled
      ensures Valid()
      ensures r.Fail? ==>
        && !old(Occupied(bufferArea)) && old(FirstDeadPlatform(platforms)).Some?
        && config.condimentPropability.None? && r == Fail(TypeError)
      ensures r.Pass? ==> forall p :: p in platforms ==> !(p.active && Overlaps(BodyRect(p), despawnArea))
      ensures old(Occupied(bufferArea)) ==>
        && r == Pass
        && (forall c :: c in pooled ==> unchanged(c))
        && forall i :: 0 <= i < |platforms| ==>
             Despawned(platforms[i], old(platforms[i].active), old(platforms[i].condiments))
      ensures !old(Occupied(bufferArea)) && old(FirstDeadPlatform(platforms)).Some? ==>
        var p := platforms[old(FirstDeadPlatform(platforms)).value];
        var at := Place(config, spawnArea, None, None, d);
        && p.x == at.x && p.y == at.y && p.displayWidth == at.width
        && (r.Fail? <==> config.condimentPropability.None?)
    {
      if !Occupied(bufferArea) {
        var spawned := SpawnPlatform(None, None, d, condimentDraws);
        if spawned.Err? {
          return Fail(spawned.error);
        }
      }
      Despawn();
      r := Pass;
    }

    /** setConfig: store the config and lay the three bands out again from it. */
    method SetConfig(config: PlatformSpawnerConfig)
      modifies this`config, this`spawnArea, this`bufferArea, this`despawnArea
      ensures this.config == config
      ensures spawnArea == SpawnArea(config, cameraWidth, cameraHeight)
      ensures bufferArea == BufferArea(config, cameraWidth, cameraHeight)
      ensures despawnArea == DespawnArea(config, cameraWidth, cameraHeight)
    {
      this.config := config;
      spawnArea := SpawnArea(config, cameraWidth, cameraHeight);
      bufferArea := BufferArea(config, cameraWidth, cameraHeight);
      despawnArea := DespawnArea(config, cameraWidth, cameraHeight);
    }
  }
}
