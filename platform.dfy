/**
 * Platforms and the condiments riding on them (src/classes/platform/Platform.ts,
 * Spike.ts, LeftSpike.ts, RightSpike.ts, Coin.ts). They share one module
 * because a platform lists its condiments and a condiment refers back to its
 * platform.
 */
module Platforms {
  import opened Wrappers
  import opened SpawnerConfig

  const DEFAULT_PLATFORM_CONFIG: PlatformConfig :=
    PlatformConfig(20.0, 10.0, 10.0, PlatformColorConfig(0x666666, 0x88ff88, 0xffff00))

  /** resetConfig enlarges the collider by this much vertically. */
  const COLLIDER_SIZE_OFFSET_Y: real := 30.0

  /** The vertical velocity applyCollision gives a platform that was hit. */
  const HIT_VELOCITY_Y: real := 400.0

  /** An axis-aligned rectangle by its centre and size. */
  datatype Box = Box(cx: real, cy: real, w: real, h: real)
  {
    function Left(): real { cx - w / 2.0 }
    function Right(): real { cx + w / 2.0 }
  }

  /** One of the three drawn zones of a platform (PlatformOverlayConfig). */
  datatype Zone = Zone(box: Box, color: int, alpha: real)

  const FRESH_ZONE: Zone := Zone(Box(0.0, 0.0, 0.0, 0.0), 0xffffff, 1.0)

  /** The main zone: centred on the platform, `requiredAcc` of its width. */
  function MainBox(x: real, y: real, requiredAcc: real, cfg: PlatformConfig): Box
  {
    Box(x, y, requiredAcc * cfg.width, cfg.height)
  }

  /** The width of each side zone: half of what the main zone leaves. */
  function SideWidth(requiredAcc: real, cfg: PlatformConfig): real
  {
    (cfg.width - requiredAcc * cfg.width) / 2.0
  }

  function ExtentOffset(requiredAcc: real, cfg: PlatformConfig): real
  {
    requiredAcc * cfg.width / 2.0 + SideWidth(requiredAcc, cfg) / 2.0
  }

  function LeftBox(x: real, y: real, requiredAcc: real, cfg: PlatformConfig): Box
  {
    Box(x - ExtentOffset(requiredAcc, cfg), y, SideWidth(requiredAcc, cfg), cfg.height)
  }

  function RightBox(x: real, y: real, requiredAcc: real, cfg: PlatformConfig): Box
  {
    Box(x + ExtentOffset(requiredAcc, cfg), y, SideWidth(requiredAcc, cfg), cfg.height)
  }

  /**
   * The three zones tile the platform's width: left, main and right abut one
   * another and together span [x - width/2, x + width/2]; for an accuracy in
   * [0, 1] none of them has negative width, so they do not overlap.
   */
  lemma ZonesTile(x: real, y: real, requiredAcc: real, cfg: PlatformConfig)
    ensures LeftBox(x, y, requiredAcc, cfg).Left() == x - cfg.width / 2.0
    ensures LeftBox(x, y, requiredAcc, cfg).Right() == MainBox(x, y, requiredAcc, cfg).Left()
    ensures MainBox(x, y, requiredAcc, cfg).Right() == RightBox(x, y, requiredAcc, cfg).Left()
    ensures RightBox(x, y, requiredAcc, cfg).Right() == x + cfg.width / 2.0
    ensures MainBox(x, y, requiredAcc, cfg).w + 2.0 * SideWidth(requiredAcc, cfg) == cfg.width
    ensures 0.0 <= requiredAcc <= 1.0 && 0.0 <= cfg.width ==>
      0.0 <= MainBox(x, y, requiredAcc, cfg).w && 0.0 <= SideWidth(requiredAcc, cfg)
  {
  }

  /** How the player landed. */
  datatype Hit = Hit(isAccurate: bool, isLeft: bool)

  function Max(a: real, b: real): real { if a < b then b else a }
  function Min(a: real, b: real): real { if a < b then a else b }

  /**
   * Platform.getCollisionType against the main zone `main`. The player's
   * edges are each moved inwards by playerWidth * accuracy; the landing is
   * inaccurate when both moved edges lie at or left of the zone's left end,
   * or both at or right of its right end, and on the left in the first case.
   * Put the other way round: it is accurate exactly when the larger of the
   * two moved edges (they cross over when the accuracy exceeds one half)
   * lies right of the zone's left end and the smaller one left of its right
   * end.
   */
  function Classify(main: Box, playerLeft: Option<real>, playerRight: Option<real>,
                    playerWidth: real, accuracy: real): (r: Result<Hit>)
    ensures r.Err? <==> playerLeft.None? || playerRight.None?
    ensures r.Err? ==> r.error == UndefinedExtents
    ensures r.Ok? ==>
      var l := playerLeft.value + playerWidth * accuracy;
      var rr := playerRight.value - playerWidth * accuracy;
      && (r.value.isAccurate <==> Max(l, rr) > main.Left() && Min(l, rr) < main.Right())
      && (r.value.isLeft <==> Max(l, rr) <= main.Left())
      && (r.value.isLeft ==> !r.value.isAccurate)
  {
    if playerLeft.None? || playerRight.None? then Err(UndefinedExtents)
    else
      var l := playerLeft.value + playerWidth * accuracy;
      var rr := playerRight.value - playerWidth * accuracy;
      var mL, mR := main.Left(), main.Right();
      var isInaccurate := (l <= mL && rr <= mL) || (l >= mR && rr >= mR);
      var isLeft := l <= mL && rr <= mL;
      Ok(Hit(!isInaccurate, isLeft))
  }

  /** Landing dead centre on a main zone of positive width is accurate, whatever the accuracy. */
  lemma CentredLandingIsAccurate(main: Box, left: real, right: real, accuracy: real)
    requires main.w > 0.0 && left <= right
    requires (left + right) / 2.0 == main.cx
    ensures Classify(main, Some(left), Some(right), right - left, accuracy) == Ok(Hit(true, false))
  {
    var w := right - left;
    var l := left + w * accuracy;
    var rr := right - w * accuracy;
    assert l + rr == 2.0 * main.cx;
    assert Max(l, rr) >= main.cx && Min(l, rr) <= main.cx;
  }

  /** What a condiment's reaction asks of the rest of the game. */
  datatype Effect =
    | RequestGameOver   // LeftSpike: player.applyGameOver()
    | AddCoin           // Coin: player.getScoreManager().addCoin()

  /**
   * onCollisionWithPlayer of each condiment type. RightSpike does not
   * implement the abstract method, so calling it fails.
   */
  function Reaction(kind: CondimentKind, hit: Hit): (r: Result<seq<Effect>>)
    ensures r.Err? <==> kind == RightSpike
  {
    match kind
    case Coin => Ok(if !hit.isAccurate then [AddCoin] else [])
    case LeftSpike => Ok(if !hit.isAccurate && hit.isLeft then [RequestGameOver] else [])
    case RightSpike => Err(TypeError)
  }

  /** The position of the first condiment whose reaction fails, or the length. */
  function FirstFailure(kinds: seq<CondimentKind>): (n: nat)
    ensures n <= |kinds|
    ensures forall i :: 0 <= i < n ==> kinds[i] != RightSpike
    ensures n < |kinds| ==> kinds[n] == RightSpike
  {
    if kinds == [] then 0
    else if kinds[0] == RightSpike then 0
    else 1 + FirstFailure(kinds[1..])
  }

  /** The effects one condiment's reaction contributes; a failed reaction contributes none. */
  function ReactionEffects(kind: CondimentKind, hit: Hit): seq<Effect>
  {
    var r := Reaction(kind, hit);
    if r.Ok? then r.value else []
  }

  /** How many game overs and coins one reaction asks for. */
  lemma ReactionCounts(kind: CondimentKind, hit: Hit)
    ensures multiset(ReactionEffects(kind, hit))[RequestGameOver] ==
      if kind == LeftSpike && !hit.isAccurate && hit.isLeft then 1 else 0
    ensures multiset(ReactionEffects(kind, hit))[AddCoin] == if kind == Coin && !hit.isAccurate then 1 else 0
  {
    match kind
    case Coin =>
    case LeftSpike =>
    case RightSpike =>
  }

  /** A coin pays out exactly on an inaccurate landing, whichever side it was on. */
  lemma CoinReaction(hit: Hit)
    ensures Reaction(Coin, hit).Ok?
    ensures AddCoin in Reaction(Coin, hit).value <==> !hit.isAccurate
    ensures RequestGameOver !in Reaction(Coin, hit).value && |Reaction(Coin, hit).value| <= 1
    ensures Reaction(Coin, hit) == Reaction(Coin, hit.(isLeft := !hit.isLeft))
  {
  }

  /** A left spike ends the game exactly on an inaccurate landing on the left, and otherwise does nothing. */
  lemma LeftSpikeReaction(hit: Hit)
    ensures Reaction(LeftSpike, hit).Ok?
    ensures RequestGameOver in Reaction(LeftSpike, hit).value <==> !hit.isAccurate && hit.isLeft
    ensures AddCoin !in Reaction(LeftSpike, hit).value && |Reaction(LeftSpike, hit).value| <= 1
  {
  }

  /** The effects of reacting, in order, to the first `n` condiments of `kinds`. */
  function Effects(kinds: seq<CondimentKind>, n: nat, hit: Hit): seq<Effect>
    requires n <= |kinds|
  {
    if n == 0 then [] else Effects(kinds, n - 1, hit) + ReactionEffects(kinds[n - 1], hit)
  }

  /** A game over is requested exactly when a left spike meets an inaccurate landing on the left. */
  lemma {:induction false} GameOverRequested(kinds: seq<CondimentKind>, n: nat, hit: Hit)
    requires n <= |kinds|
    ensures RequestGameOver in Effects(kinds, n, hit) <==>
      !hit.isAccurate && hit.isLeft && LeftSpike in kinds[..n]
  {
    if n > 0 {
      GameOverRequested(kinds, n - 1, hit);
      ReactionCounts(kinds[n - 1], hit);
      PrefixSnoc(kinds, n);
    }
  }

  /** Each left spike requests a game over of its own when the landing is inaccurate and on the left. */
  lemma {:induction false} GameOversRequested(kinds: seq<CondimentKind>, n: nat, hit: Hit)
    requires n <= |kinds|
    ensures multiset(Effects(kinds, n, hit))[RequestGameOver] ==
      if !hit.isAccurate && hit.isLeft then multiset(kinds[..n])[LeftSpike] else 0
  {
    if n > 0 {
      GameOversRequested(kinds, n - 1, hit);
      ReactionCounts(kinds[n - 1], hit);
      PrefixSnoc(kinds, n);
      CountStep(Effects(kinds, n - 1, hit), ReactionEffects(kinds[n - 1], hit), kinds[..n - 1], kinds[n - 1], RequestGameOver, LeftSpike, !hit.isAccurate && hit.isLeft);
    }
  }

  /**
   * One more condiment: if the effects so far count `x` once per `y` among the
   * kinds so far whenever `on` holds, and the new reaction adds one `x` exactly
   * when `on` holds and the new kind is `y`, the count carries over.
   */
  lemma CountStep(before: seq<Effect>, last: seq<Effect>, kinds: seq<CondimentKind>, kind: CondimentKind,
                  x: Effect, y: CondimentKind, on: bool)
    requires multiset(before)[x] == if on then multiset(kinds)[y] else 0
    requires multiset(last)[x] == if on && kind == y then 1 else 0
    ensures multiset(before + last)[x] == if on then multiset(kinds + [kind])[y] else 0
  {
    CountAppend(before, last, x);
    CountAppend(kinds, [kind], y);
  }

  /** An inaccurate landing adds one coin per coin on the platform; an accurate one adds none. */
  lemma {:induction false} CoinsAdded(kinds: seq<CondimentKind>, n: nat, hit: Hit)
    requires n <= |kinds|
    ensures multiset(Effects(kinds, n, hit))[AddCoin] ==
      if !hit.isAccurate then multiset(kinds[..n])[Coin] else 0
  {
    if n > 0 {
      CoinsAdded(kinds, n - 1, hit);
      ReactionCounts(kinds[n - 1], hit);
      PrefixSnoc(kinds, n);
      CountStep(Effects(kinds, n - 1, hit), ReactionEffects(kinds[n - 1], hit), kinds[..n - 1], kinds[n - 1], AddCoin, Coin, !hit.isAccurate);
    }
  }

  /** What reacting to a whole condiment list amounts to: its coins, its game overs, and when one comes. */
  lemma AllEffects(kinds: seq<CondimentKind>, hit: Hit)
    ensures var e := Effects(kinds, |kinds|, hit);
      && multiset(e)[AddCoin] == (if hit.isAccurate then 0 else multiset(kinds)[Coin])
      && multiset(e)[RequestGameOver] == (if !hit.isAccurate && hit.isLeft then multiset(kinds)[LeftSpike] else 0)
      && (RequestGameOver in e <==> !hit.isAccurate && hit.isLeft && LeftSpike in kinds)
  {
    assert kinds[..|kinds|] == kinds;
    CoinsAdded(kinds, |kinds|, hit);
    GameOverRequested(kinds, |kinds|, hit);
    GameOversRequested(kinds, |kinds|, hit);
  }

  /** The types of the condiments in a list. */
  function Kinds(cs: seq<Condiment>): (ks: seq<CondimentKind>)
    ensures |ks| == |cs| && forall i :: 0 <= i < |cs| ==> ks[i] == cs[i].kind
  {
    seq(|cs|, i requires 0 <= i < |cs| => cs[i].kind)
  }

  function ConfigWidth(cfg: Option<PlatformConfig>): real
  {
    match cfg
    case Some(c) => c.width
    case None => 0.0
  }

  function ConfigHeight(cfg: Option<PlatformConfig>): real
  {
    match cfg
    case Some(c) => c.height
    case None => 0.0
  }

  /** LeftSpike.alignToPlatform; a missing configuration counts as width and height 0. */
  function LeftSpikePosition(px: real, py: real, cfg: Option<PlatformConfig>, width: real): (real, real)
  {
    (px - ConfigWidth(cfg) / 2.0 + width / 2.0, py - ConfigHeight(cfg))
  }

  /** RightSpike.alignToPlatform. */
  function RightSpikePosition(px: real, py: real, cfg: Option<PlatformConfig>, width: real): (real, real)
  {
    (px + ConfigWidth(cfg) / 2.0 - width / 2.0, py - ConfigHeight(cfg))
  }

  /**
   * Phaser.Display.Align.To.TopCenter with both objects at their default
   * origin (0.5, 0.5): the coin is centred on the platform's x and its bottom
   * edge is on the platform's top edge. Phaser's bounds helpers measure both
   * edges with the unscaled (frame) height, so the platform's display size
   * does not enter.
   */
  function TopCenterPosition(px: real, py: real, platformHeight: real, height: real): (real, real)
  {
    (px, py - platformHeight / 2.0 - height / 2.0)
  }

  /**
   * A left spike's position is half its frame width in from the platform's
   * left end, a right spike's half its frame width in from the right end;
   * both sit the configured height above the platform, and for the same
   * frame width the two positions are symmetric about the platform's centre.
   */
  lemma SpikeAlignment(px: real, py: real, cfg: Option<PlatformConfig>, width: real)
    ensures LeftSpikePosition(px, py, cfg, width).0 - width / 2.0 == px - ConfigWidth(cfg) / 2.0
    ensures RightSpikePosition(px, py, cfg, width).0 + width / 2.0 == px + ConfigWidth(cfg) / 2.0
    ensures LeftSpikePosition(px, py, cfg, width).1 == RightSpikePosition(px, py, cfg, width).1 == py - ConfigHeight(cfg)
    ensures LeftSpikePosition(px, py, cfg, width).0 + RightSpikePosition(px, py, cfg, width).0 == 2.0 * px
    ensures cfg.None? ==> LeftSpikePosition(px, py, cfg, width) == (px + width / 2.0, py)
  {
  }

  /** The coins among the first `n` condiments of a list. */
  function CoinsAmong(cs: seq<Condiment>, n: nat): set<Condiment>
    requires n <= |cs|
  {
    if n == 0 then {}
    else CoinsAmong(cs, n - 1) + (if cs[n - 1].kind == Coin then {cs[n - 1]} else {})
  }

  /**
   * The fan-out of applyCollision: each condiment reacts in list order until
   * one fails; the effects are those of the condiments that reacted.
   */
  method NotifyCondiments(cs: seq<Condiment>, hit: Hit) returns (ok: bool, effects: seq<Effect>)
    modifies cs`active
    ensures var n := FirstFailure(Kinds(cs));
      && (ok <==> n == |cs|)
      && effects == Effects(Kinds(cs), n, hit)
      && (forall j :: 0 <= j < n && cs[j].kind == Coin ==> !cs[j].active)
      && (forall c :: c in cs && c.active != old(c.active) ==> c in CoinsAmong(cs, n))
  {
    ghost var kinds := Kinds(cs);
    ghost var n := FirstFailure(kinds);
    effects := [];
    ghost var hitCoins: set<Condiment> := {};
    ok := true;
    var i := 0;
    while ok && i < |cs|
      invariant 0 <= i <= n
      invariant !ok ==> i == n < |cs|
      invariant effects == Effects(kinds, i, hit)
      invariant hitCoins == CoinsAmong(cs, i)
      invariant forall c :: c in cs ==> Struck(c, old(c.active), hitCoins)
      decreases |cs| - i, ok
    {
      var c := cs[i];
      label step:
      var reaction := c.OnCollisionWithPlayer(hit.isAccurate, hit.isLeft);
      if reaction.Err? {
        ok := false;
      } else {
        effects := effects + reaction.value;
        hitCoins := CoinsAmong(cs, i + 1);
        forall d | d in cs
          ensures Struck(d, old(d.active), hitCoins)
        {
          if d != c {
            assert d.active == old@step(d.active);
          }
        }
        i := i + 1;
      }
    }
    assert hitCoins == CoinsAmong(cs, n);
    forall j | 0 <= j < n && cs[j].kind == Coin
      ensures !cs[j].active
    {
      CoinAmong(cs, n, j);
      assert Struck(cs[j], old(cs[j].active), hitCoins);
    }
  }

  /** A condiment the collision struck is inactive; any other keeps its flag. */
  ghost predicate Struck(c: Condiment, was: bool, struck: set<Condiment>)
    reads c
  {
    if c in struck then !c.active else c.active == was
  }

  /** Every coin before position n is among the coins CoinsAmong collects. */
  lemma {:induction false} CoinAmong(cs: seq<Condiment>, n: nat, j: nat)
    requires j < n <= |cs| && cs[j].kind == Coin
    ensures cs[j] in CoinsAmong(cs, n)
  {
    if j < n - 1 {
      CoinAmong(cs, n - 1, j);
    }
  }

  class Platform {
    /** The texture frame's size: the game object's own `width` and `height`. */
    const frameWidth: real
    const frameHeight: real
    var x: real
    var y: real
    var velocityX: real
    var velocityY: real
    /** The sprite's display size; resetConfig sets it. */
    var displayWidth: real
    var displayHeight: real
    /** Whether the pooled game object is alive. */
    var active: bool
    var platformConfig: Option<PlatformConfig>
    var shadowColor: Option<int>
    var requiredAcc: real
    var condiments: seq<Condiment>
    var mZone: Zone
    var lZone: Zone
    var rZone: Zone

    /** The sprite starts at its texture's frame size. */
    constructor (x: real, y: real, frameWidth: real, frameHeight: real)
      ensures this.frameWidth == frameWidth && this.frameHeight == frameHeight
      ensures this.x == x && this.y == y && velocityX == 0.0 && velocityY == 0.0
      ensures displayWidth == frameWidth && displayHeight == frameHeight && active
      ensures platformConfig == Some(DEFAULT_PLATFORM_CONFIG)
      ensures requiredAcc == 1.0 && condiments == [] && shadowColor == Some(0)
      ensures mZone == lZone == rZone == FRESH_ZONE
    {
      this.frameWidth, this.frameHeight := frameWidth, frameHeight;
      this.x, this.y := x, y;
      velocityX, velocityY := 0.0, 0.0;
      displayWidth, displayHeight := frameWidth, frameHeight;
      active := true;
      platformConfig := Some(DEFAULT_PLATFORM_CONFIG);
      requiredAcc := 1.0;
      condiments := [];
      shadowColor := Some(0);
      mZone, lZone, rZone := FRESH_ZONE, FRESH_ZONE, FRESH_ZONE;
    }

    /** Recompute the zones' geometry from the position, the stored accuracy and the configuration. */
    method UpdateOverlayConfig()
      requires platformConfig.Some?
      modifies this`mZone, this`lZone, this`rZone
      ensures mZone == old(mZone).(box := MainBox(x, y, requiredAcc, platformConfig.value))
      ensures lZone == old(lZone).(box := LeftBox(x, y, requiredAcc, platformConfig.value))
      ensures rZone == old(rZone).(box := RightBox(x, y, requiredAcc, platformConfig.value))
    {
      var cfg := platformConfig.value;
      var mainWidth := requiredAcc * cfg.width;
      var extraWidth := (cfg.width - mainWidth) / 2.0;
      var extentOffset := mainWidth / 2.0 + extraWidth / 2.0;
      mZone := mZone.(box := Box(x, y, mainWidth, cfg.height));
      lZone := lZone.(box := Box(x - extentOffset, y, extraWidth, cfg.height));
      rZone := rZone.(box := Box(x + extentOffset, y, extraWidth, cfg.height));
    }

    /** The per-frame update: the zones follow the platform (drawing is not modelled). */
    method PreUpdate()
      modifies this`mZone, this`lZone, this`rZone
      ensures platformConfig.None? ==> mZone == old(mZone) && lZone == old(lZone) && rZone == old(rZone)
      ensures platformConfig.Some? ==>
        && mZone.box == MainBox(x, y, requiredAcc, platformConfig.value)
        && lZone.box == LeftBox(x, y, requiredAcc, platformConfig.value)
        && rZone.box == RightBox(x, y, requiredAcc, platformConfig.value)
      ensures mZone.color == old(mZone.color) && lZone.color == old(lZone.color) && rZone.color == old(rZone.color)
    {
      if platformConfig.Some? {
        UpdateOverlayConfig();
      }
    }

    /** Size the sprite, paint every zone in the base colour, store accuracy and configuration. */
    method ResetConfig(requiredAcc: real, cfg: PlatformConfig)
      modifies this`displayWidth, this`displayHeight, this`mZone, this`lZone, this`rZone
      modifies this`platformConfig, this`requiredAcc
      ensures displayWidth == cfg.width && displayHeight == cfg.height + COLLIDER_SIZE_OFFSET_Y
      ensures mZone == old(mZone).(color := cfg.platformColor.baseColor)
      ensures lZone == old(lZone).(color := cfg.platformColor.baseColor)
      ensures rZone == old(rZone).(color := cfg.platformColor.baseColor)
      ensures platformConfig == Some(cfg) && this.requiredAcc == requiredAcc
    {
      displayWidth, displayHeight := cfg.width, cfg.height + COLLIDER_SIZE_OFFSET_Y;
      var color := cfg.platformColor.baseColor;
      mZone, lZone, rZone := mZone.(color := color), lZone.(color := color), rZone.(color := color);
      platformConfig := Some(cfg);
      this.requiredAcc := requiredAcc;
    }

    function GetConfig(): (c: Option<PlatformConfig>)
      reads this
      ensures c == platformConfig
    {
      platformConfig
    }

    method SetAccurate()
      requires platformConfig.Some?
      modifies this`mZone
      ensures mZone == old(mZone).(color := platformConfig.value.platformColor.accurateColor)
    {
      mZone := mZone.(color := platformConfig.value.platformColor.accurateColor);
    }

    method SetInaccurate(isLeft: bool)
      requires platformConfig.Some?
      modifies this`lZone, this`rZone
      ensures isLeft ==> lZone == old(lZone).(color := platformConfig.value.platformColor.inaccurateColor) && rZone == old(rZone)
      ensures !isLeft ==> rZone == old(rZone).(color := platformConfig.value.platformColor.inaccurateColor) && lZone == old(lZone)
    {
      if isLeft {
        lZone := lZone.(color := platformConfig.value.platformColor.inaccurateColor);
      } else {
        rZone := rZone.(color := platformConfig.value.platformColor.inaccurateColor);
      }
    }

    /**
     * Platform.applyCollision. The accuracy is stored but the zones are not
     * re-laid out, so the landing is judged against the main zone computed
     * at the last update. Then one zone is recoloured, the platform is
     * pushed down, and the condiments react in list order; the first one
     * whose reaction fails stops the others and fails the call, after the
     * effects of those before it.
     */
    method ApplyCollision(playerLeft: Option<real>, playerRight: Option<real>, playerWidth: real, accuracy: real)
      returns (r: Result<Hit>, effects: seq<Effect>)
      modifies this`requiredAcc, this`mZone, this`lZone, this`rZone, this`velocityY
      modifies condiments`active
      ensures old(platformConfig).None? ==>
        r == Err(MissingPlatformConfig) && effects == [] && requiredAcc == old(requiredAcc)
      ensures old(platformConfig).None? || Classify(old(mZone.box), playerLeft, playerRight, playerWidth, accuracy).Err? ==>
        && mZone == old(mZone) && lZone == old(lZone) && rZone == old(rZone)
        && velocityY == old(velocityY)
        && forall c :: c in condiments ==> unchanged(c)
      ensures old(platformConfig).Some? ==> requiredAcc == accuracy
      ensures old(platformConfig).Some? && Classify(old(mZone.box), playerLeft, playerRight, playerWidth, accuracy).Err? ==>
        r == Err(UndefinedExtents) && effects == []
      ensures old(platformConfig).Some? && Classify(old(mZone.box), playerLeft, playerRight, playerWidth, accuracy).Ok? ==>
        var hit := Classify(old(mZone.box), playerLeft, playerRight, playerWidth, accuracy).value;
        var colors := platformConfig.value.platformColor;
        var n := FirstFailure(Kinds(condiments));
        && mZone == old(mZone).(color := if hit.isAccurate then colors.accurateColor else old(mZone.color))
        && lZone == old(lZone).(color := if !hit.isAccurate && hit.isLeft then colors.inaccurateColor else old(lZone.color))
        && rZone == old(rZone).(color := if !hit.isAccurate && !hit.isLeft then colors.inaccurateColor else old(rZone.color))
        && velocityY == HIT_VELOCITY_Y
        && effects == Effects(Kinds(condiments), n, hit)
        && (r == if n < |condiments| then Err(TypeError) else Ok(hit))
        && (forall j :: 0 <= j < n && condiments[j].kind == Coin ==> !condiments[j].active)
        && (forall c :: c in condiments && c.active != old(c.active) ==> c in CoinsAmong(condiments, n))
    {
      if platformConfig.None? {
        r, effects := Err(MissingPlatformConfig), [];
        return;
      }
      requiredAcc := accuracy;
      var collision := Classify(mZone.box, playerLeft, playerRight, playerWidth, accuracy);
      if collision.Err? {
        r, effects := Err(collision.error), [];
        return;
      }
      var hit := collision.value;
      if hit.isAccurate {
        SetAccurate();
      } else {
        SetInaccurate(hit.isLeft);
      }
      velocityY := HIT_VELOCITY_Y;
      var ok;
      ok, effects := NotifyCondiments(condiments, hit);
      r := if ok then Ok(hit) else Err(TypeError);
    }

    method SetShadowColor(color: Option<int>)
      modifies this`shadowColor
      ensures shadowColor == color
    {
      shadowColor := color;
    }

    method SetVelocityX(velocity: real)
      modifies this`velocityX
      ensures velocityX == velocity
    {
      velocityX := velocity;
    }

    method AddCondiment(condiment: Condiment)
      modifies this`condiments
      ensures condiments == old(condiments) + [condiment]
    {
      condiments := condiments + [condiment];
    }

    function GetCondiments(): (cs: seq<Condiment>)
      reads this
      ensures cs == condiments
    {
      condiments
    }

    /** enableBody(true, x, y, true, true): the body is reset (stopped) at (x, y) and the sprite revived. */
    method EnableBody(x: real, y: real)
      modifies this`x, this`y, this`velocityX, this`velocityY, this`active
      ensures this.x == x && this.y == y && velocityX == 0.0 && velocityY == 0.0 && active
    {
      this.x, this.y := x, y;
      velocityX, velocityY := 0.0, 0.0;
      active := true;
    }

    /** disableBody(true, true): the sprite is deactivated and hidden. */
    method DisableBody()
      modifies this`active
      ensures !active
    {
      active := false;
    }

    method ClearCondiments()
      modifies this`condiments
      ensures condiments == []
    {
      condiments := [];
    }
  }

  /**
   * A coin or spike. `subscriptions` counts the registrations of its
   * post-update follow handler: every attach adds one and detaching removes
   * them all, while the platform reference is kept.
   */
  class Condiment {
    const kind: CondimentKind
    /** The texture frame's size. */
    const width: real
    const height: real
    var platform: Platform?
    var subscriptions: nat
    var x: real
    var y: real
    /** Whether its body is enabled and it is shown: disableBody(true, true) clears both at once. */
    var active: bool

    constructor (kind: CondimentKind, width: real, height: real)
      ensures this.kind == kind && this.width == width && this.height == height
      ensures platform == null && subscriptions == 0 && active
    {
      this.kind, this.width, this.height := kind, width, height;
      platform := null;
      subscriptions := 0;
      x, y := 0.0, 0.0;
      active := true;
    }

    method AttachToPlatform(p: Platform)
      modifies this`platform, this`subscriptions
      ensures platform == p && subscriptions == old(subscriptions) + 1
    {
      platform := p;
      subscriptions := subscriptions + 1;
    }

    method DetachFromPlatform()
      modifies this`subscriptions
      ensures subscriptions == 0 && platform == old(platform)
    {
      subscriptions := 0;
    }

    /** The follow handler: align to the platform, or fail when there is none. */
    method FollowPlatform() returns (r: Outcome)
      modifies this`x, this`y
      ensures platform == null ==> r == Fail(NotAttached) && x == old(x) && y == old(y)
      ensures platform != null ==> r == Pass && (x, y) == (match kind
        case LeftSpike => LeftSpikePosition(platform.x, platform.y, platform.platformConfig, width)
        case RightSpike => RightSpikePosition(platform.x, platform.y, platform.platformConfig, width)
        case Coin => TopCenterPosition(platform.x, platform.y, platform.frameHeight, height))
    {
      if platform == null {
        return Fail(NotAttached);
      }
      var pos;
      match kind {
        case LeftSpike => pos := LeftSpikePosition(platform.x, platform.y, platform.GetConfig(), width);
        case RightSpike => pos := RightSpikePosition(platform.x, platform.y, platform.GetConfig(), width);
        case Coin => pos := TopCenterPosition(platform.x, platform.y, platform.frameHeight, height);
      }
      x, y := pos.0, pos.1;
      r := Pass;
    }

    /** The collision reaction; a coin also disables its body whether or not it pays out. */
    method OnCollisionWithPlayer(isAccurate: bool, isLeft: bool) returns (r: Result<seq<Effect>>)
      modifies this`active
      ensures r == Reaction(kind, Hit(isAccurate, isLeft))
      ensures kind == Coin ==> !active
      ensures kind != Coin ==> active == old(active)
    {
      match kind {
        case Coin =>
          r := Ok(if !isAccurate then [AddCoin] else []);
          active := false;
        case LeftSpike =>
          r := Ok(if !isAccurate && isLeft then [RequestGameOver] else []);
        case RightSpike =>
          r := Err(TypeError);
      }
    }

    /** The spawner's activateCondiment: revive the body at a position. */
    method Activate(x: real, y: real)
      modifies this`x, this`y, this`active
      ensures this.x == x && this.y == y && active
    {
      this.x, this.y := x, y;
      active := true;
    }
  }
}
