# Bouncing ball: a verified model of the gameplay rules

This project models the gameplay core of the bouncing-ball Phaser game in
Dafny and proves properties of it. The game engine is abstracted away:
arcade bodies, pools, timers, drawing and the random generator.

- **GameplayState.** The four gameplay states and the state machine that
  holds the current one:
  - **Static** and **GameOver.** At rest.
  - **Playing.** Scrolling at -550.
  - **PlayingAccelerated.** Scrolling at -650, with a shadow-colour cursor
    over a colour matrix.
  - **The machine.** Keeps a list of state-change listeners, installs any
    state it is given and returns the listeners to call.
- **Score.** A hit streak selects the score multiplier from a sparse table.
  The score grows by the multiplier; the high score is a running maximum.
- **Difficulty.** The difficulty manager walks the sorted score thresholds
  of a tier table, at most one tier per call. It merges each tier's
  overrides into the current spawner configuration. The endless table is
  modelled as data, with its facts proved.
- **Game modes.** Each mode supplies the difficulty table.
- **Platforms.** A platform is split into a left, a main and a right zone.
  Landings are classified by comparing the shrunk player interval with the
  main zone. A hit recolours one zone, pushes the platform down and notifies
  the attached condiments (coins and spikes):
  - a coin pays out on an inaccurate landing and is always consumed;
  - a left spike ends the game on an inaccurate landing on the left;
  - a right spike has no collision reaction, so notifying it throws.
- **The spawner.** It lays out the spawn, buffer and despawn bands, spawns
  platforms from the pool at drawn positions and sizes, and offers them
  optional condiments. It despawns platforms that scrolled off. On a landing
  it drives the state machine: a landing in Static starts the game, an
  accurate hit in Playing accelerates, an inaccurate hit in
  PlayingAccelerated slows down. Each hit refreshes the platforms exactly
  once, through the listener when the state changed and by a direct call
  otherwise.
- **Player.** The ball's input gating: pointer, ignore-input flag and the
  state's acceleration. Game over is also modelled, as are the stored player
  record with its defaults, the record reducer used through the registry,
  and the skin shop's purchase and equip rule.

Behaviours of the code that are modelled as written and proved:

- **The shadow cursor never returns the last cell.** At the last cell of the
  last row it wraps to (0, 0) and returns `payload[0][0]`. So one full cycle
  returns `payload[0][0]` twice (`ShadowCycle`).
- **The main zone can be stale.** `applyCollision` stores the new accuracy
  but judges the landing against the main zone laid out at the last frame.
- **Every spawn fails after revival.** No tier of the endless table defines
  condiment probabilities, so `addOptionalCondiments` lists the keys of
  `undefined`. That throws a TypeError after the platform is already
  revived. `EndlessRubrics` proves the table has none. `SpawnPlatform` and
  `OnUpdate` state the failure.
- **Record loaders differ.** `loadPlayerDataFromLocalStorage` returns a
  stored record as it is, while `Player.loadPlayer` spreads it over the
  defaults.
- **Missing score operations.** The collider callback, `Coin` and
  `Player.savePlayer` call `tryAddScore`, `addCoin`, `getCoin` and
  `getHighScore`, which `ScoreManager.ts` does not define. The
  model records those calls in order (`scoreCalls`) or takes their results
  as parameters, without giving them bodies.

Modules follow the source files:

- `GameplayState` is `gameplay_state.dfy`.
- `ScoreManager` is `score_manager.dfy`.
- `Multiplier` is `multiplier.dfy`.
- `DifficultyManager` is `difficulty_manager.dfy`.
- `DifficultyRubrics` is `difficulty_rubrics.dfy`.
- `GameModes` is `game_mode.dfy`.
- `Platforms` is `platform.dfy`. It covers `Platform.ts`, `Spike.ts`, `LeftSpike.ts`, `RightSpike.ts` and `Coin.ts`. They share one module because a platform lists its condiments and a condiment refers back to its platform.
- `PlatformSpawner` is `platform_spawner.dfy`.
- `Players` is `player.dfy`.
- `PlayerContext` is `player_context.dfy`.
- `PlayerData` is `player_data.dfy`.
- `SkinConstants` is `skin_constants.dfy`.
- `SkinsMenu` is `skins_menu.dfy`.

Three modules have no single source file:

- `SpawnerConfig` holds the configuration records of the type declarations.
- `Storage` stands in for localStorage and the registry.
- `Wrappers` holds the result types, the thrown errors and three sequence laws.

## Model

| member | source | states |
|---|---|---|
| GameplayState.NextShadow | src/classes/gameplay-state/GameplayState.ts:34-57 | a draw fails exactly when the matrix has no rows (reading the length of a missing row); otherwise the new cursor row is a row of the matrix |
| GameplayState.NextShadowInBounds | src/classes/gameplay-state/GameplayState.ts:35-56 | if every row is non-empty, a draw from an in-bounds cursor succeeds, returns a colour, and leaves the cursor in bounds |
| GameplayState.StepFlat | src/classes/gameplay-state/GameplayState.ts:38-51 | away from the last cell, a draw returns the cell under the cursor and moves the cursor one place on in row-major order |
| GameplayState.LastDraw | src/classes/gameplay-state/GameplayState.ts:53-56 | the draw from the last cell of the last row returns `payload[0][0]` and puts the cursor back at (0, 0) |
| GameplayState.DrawsToEnd | src/classes/gameplay-state/GameplayState.ts:34-57 | from any in-bounds cursor, the draws up to the wrap return the cells from there to the one before the last, then `payload[0][0]`, and leave the cursor at (0, 0) |
| GameplayState.ShadowCycle | src/classes/gameplay-state/GameplayState.ts:34-57 | one cycle from (0, 0), with as many draws as there are cells, returns every cell in row-major order except the last, then `payload[0][0]` a second time |
| GameplayState.PlayingAcceleratedState.constructor | src/classes/gameplay-state/GameplayState.ts:20-24 | the cursor starts at (0, 0) over the given matrix |
| GameplayState.PlayingAcceleratedState.GetNextPlatformShadowColor | src/classes/gameplay-state/GameplayState.ts:34-57 | returns the draw's colour and moves the cursor as one draw does; when there are no rows it fails and the cursor stays |
| GameplayState.StateReadings | src/classes/gameplay-state/GameplayState.ts:1-86 | Static and GameOver report acceleration 0 and velocity 0; Playing reports 200 and -550; PlayingAccelerated reports 200 and -650 |
| GameplayState.NextPlatformShadowColor | src/classes/gameplay-state/GameplayState.ts:1-86 | every state except PlayingAccelerated returns the neutral colour 0xeeeeee; PlayingAccelerated returns its cursor's draw |
| GameplayState.SpliceStart | src/classes/gameplay-state/GameplayState.ts:127-129 | splice's start index: a non-negative index is capped at the length; a negative one counts from the end and is floored at 0 |
| GameplayState.SpliceOne | src/classes/gameplay-state/GameplayState.ts:127-129 | removing one slot keeps the items before it and shifts every later item down one place; an index past the end removes nothing |
| GameplayState.GameplayStateMachine.constructor | src/classes/gameplay-state/GameplayState.ts:92-95 | starts in the given state with no listeners |
| GameplayState.GameplayStateMachine.ChangeState | src/classes/gameplay-state/GameplayState.ts:101-109 | installs any state with no transition check, GameOver included; returns it, and returns every registered listener once, in registration order, as the calls to make |
| GameplayState.GameplayStateMachine.GetNextPlatformShadowColor | src/classes/gameplay-state/GameplayState.ts:119-121 | delegates to the current state's draw |
| GameplayState.GameplayStateMachine.OnStateChange | src/classes/gameplay-state/GameplayState.ts:123-125 | appends the listener and returns its index as the handle |
| GameplayState.GameplayStateMachine.RemoveEventListener | src/classes/gameplay-state/GameplayState.ts:127-129 | splices out slot `index`, so later listeners shift down and their handles go stale; the state is unchanged |
| ScoreManager.MultiplierThreshold | src/classes/score/ScoreManager.ts:1-14 | the score manager's copy of the table equals the shared multiplier table |
| ScoreManager.StreakMultiplier | src/classes/score/ScoreManager.ts:77-83 | the multiplier a streak reaches is always between 1 and 10 |
| ScoreManager.FreshStreakMultipliers | src/classes/score/ScoreManager.ts:80-83 | from a fresh streak, hits 1-4 score x1, hits 5-9 score x2 and the 10th scores x3 |
| ScoreManager.ScoreManager.constructor | src/classes/score/ScoreManager.ts:67-70 | score 0, streak 0, multiplier 1, and the high score is the stored score or 0 |
| ScoreManager.ScoreManager.AddScore | src/classes/score/ScoreManager.ts:77-92 | the streak grows by exactly one; the multiplier changes only when the new streak is a table key and stays in [1, 10]; the score grows by the new multiplier, so it strictly increases; the high score becomes the maximum of itself and the score |
| ScoreManager.ScoreManager.ResetMultiplier | src/classes/score/ScoreManager.ts:94-98 | streak 0 and multiplier 1, with score and high score unchanged |
| ScoreManager.ScoreManager.ResetScore | src/classes/score/ScoreManager.ts:100-103 | score 0 and nothing else changes |
| ScoreManager.ScoreManager.SaveScore | src/classes/score/ScoreManager.ts:105-107 | stores the current score (not the high score) under the key the constructor loads |
| Multiplier.ThresholdKeys | src/constants/multiplier.ts:4-13 | ten keys, starting at 0, strictly increasing |
| Multiplier.MultiplierThreshold | src/constants/multiplier.ts:1-14 | the keys are exactly 0, 5, 10, 15, 25, 35, 45, 55, 70 and 85; the i-th key in order maps to i + 1, so key 0 maps to 1 and every value lies in [1, 10] |
| DifficultyManager.SortedKeys | src/classes/difficulty-manager/DifficultyManager.ts:10-14 | the sorted threshold list has one entry per rubric key |
| DifficultyManager.SortedKeysSorted | src/classes/difficulty-manager/DifficultyManager.ts:10-14 | the threshold list is strictly increasing and holds exactly the rubric keys |
| DifficultyManager.SortedUnique | src/classes/difficulty-manager/DifficultyManager.ts:10-14 | two strictly increasing lists with the same elements are equal, so the sorted order is unique |
| DifficultyManager.EndlessThresholds | src/classes/difficulty-manager/DifficultyManager.ts:10-14 | the endless table's thresholds are walked in the order 0, 50, 75, 200, 300 |
| DifficultyManager.MergeIdempotent | src/classes/difficulty-manager/DifficultyManager.ts:33-36 | merging the same tier twice equals merging it once, so a repeated call on the same tier returns the same configuration |
| DifficultyManager.MergeComplete | src/classes/difficulty-manager/DifficultyManager.ts:33-36 | a tier that gives every field reproduces itself when merged onto its own configuration, and, when it also gives the probabilities, it overrides any current configuration |
| DifficultyManager.NextIndex | src/classes/difficulty-manager/DifficultyManager.ts:26-31 | one call advances the index by at most one, and exactly when the next threshold exists and the score has reached it; the index stays below the list's length |
| DifficultyManager.Iterate | src/classes/difficulty-manager/DifficultyManager.ts:26-31 | repeated calls never lower the index and keep it in range |
| DifficultyManager.IterateFixedPoint | src/classes/difficulty-manager/DifficultyManager.ts:26-31 | once a call does not advance, no later call at the same score does |
| DifficultyManager.IterateConverges | src/classes/difficulty-manager/DifficultyManager.ts:26-31 | at a fixed score, once there have been as many calls as tiers left, no threshold after the index is reached, and an index that moved is on a threshold the score reached |
| DifficultyManager.DifficultyManager.constructor | src/classes/difficulty-manager/DifficultyManager.ts:7-18 | the thresholds are the rubric keys in ascending order, the index is 0, and the configuration is tier 0 |
| DifficultyManager.DifficultyManager.UpdatePlatformConfig | src/classes/difficulty-manager/DifficultyManager.ts:25-39 | the index takes one NextIndex step; the returned configuration is the previous one with the fields the current tier gives replaced; the configuration stays the cumulative merge of every tier passed |
| DifficultyManager.CumulativeStep | src/classes/difficulty-manager/DifficultyManager.ts:26-38 | whether the index advanced or not, merging the tier it lands on keeps the configuration equal to the merge of tiers 0 to the index |
| DifficultyRubrics.EndlessRubrics | src/constants/difficultyRubrics.ts:1-82 | the thresholds are exactly 0, 50, 75, 200 and 300; every tier has ordered ranges; accuracy never rises and minimum width strictly falls from tier to tier; tier 0 has minGap = maxGap = 400; the accuracies are 0.8, 0.6, 0.5, 0.4 and 0.4; no tier gives condiment probabilities |
| GameModes.NewEndlessMode | src/classes/game-mode/GameModeStateMachine.ts:5-7 | entering endless mode clears the registry's beatmap entry |
| GameModes.CreateRubrics | src/classes/game-mode/GameModeStateMachine.ts:27-43 | fails exactly when the tilemap has no objects layer, and otherwise yields the endless table |
| GameModes.NewBeatmapMode | src/classes/game-mode/GameModeStateMachine.ts:16-21 | stores the beatmap in the registry even when it then fails; fails exactly without an objects layer; otherwise its table is the endless one |
| GameModes.GameModeStateMachine.constructor | src/classes/game-mode/GameModeStateMachine.ts:49-51 | holds the initial mode |
| GameModes.GameModeStateMachine.GetMode | src/classes/game-mode/GameModeStateMachine.ts:53-55 | returns the mode held |
| GameModes.GameModeStateMachine.ChangeState | src/classes/game-mode/GameModeStateMachine.ts:57-60 | replaces the mode unconditionally and returns its argument |
| GameModes.GameModeStateMachine.GetRubrics | src/classes/game-mode/GameModeStateMachine.ts:62-64 | always the current mode's table |
| Platforms.ZonesTile | src/classes/platform/Platform.ts:153-167 | the left, main and right zones abut and together span exactly [x - width/2, x + width/2]; the main zone is requiredAcc of the width and each side half the rest; no zone is negative for an accuracy in [0, 1] |
| Platforms.Classify | src/classes/platform/Platform.ts:189-223 | undefined player extents are an error; otherwise the landing is accurate exactly when the larger shrunk edge lies right of the main zone's left end and the smaller one left of its right end, and on the left exactly when both shrunk edges are at or left of the main zone's left end; a left landing is never accurate |
| Platforms.CentredLandingIsAccurate | src/classes/platform/Platform.ts:209-221 | a player centred on a main zone of positive width lands accurately, whatever the accuracy |
| Platforms.Reaction | src/classes/platform/RightSpike.ts:4-11 | a condiment's reaction fails exactly for a right spike, which never implements the abstract reaction |
| Platforms.CoinReaction | src/classes/platform/Coin.ts:17-23 | a coin asks for a coin payout exactly on an inaccurate landing, never for a game over, and regardless of side |
| Platforms.LeftSpikeReaction | src/classes/platform/LeftSpike.ts:12-20 | a left spike asks for a game over exactly on an inaccurate landing on the left, and for nothing else |
| Platforms.FirstFailure | src/classes/platform/Platform.ts:256-258 | the position of the first right spike in the list (the length when there is none): every condiment before it reacts |
| Platforms.GameOverRequested | src/classes/platform/Platform.ts:256-258 | the reactions request a game over exactly when the landing is inaccurate on the left and a left spike is among the condiments that reacted |
| Platforms.GameOversRequested | src/classes/platform/Platform.ts:256-258 | such a landing requests one game over per left spike that reacted, and any other landing requests none |
| Platforms.CoinsAdded | src/classes/platform/Platform.ts:256-258 | an inaccurate landing pays one coin per coin that reacted; an accurate one pays none |
| Platforms.AllEffects | src/classes/platform/Platform.ts:256-258 | the same three counts for a whole condiment list |
| Platforms.SpikeAlignment | src/classes/platform/LeftSpike.ts:6-10 | a left spike's position is half its frame width in from the platform's left end, and a right spike's half its frame width in from the right end; both sit the configured height above the platform; for equal frame widths the two positions are symmetric about the platform's centre; a missing config counts as width and height 0 |
| Platforms.NotifyCondiments | src/classes/platform/Platform.ts:255-258 | the condiments react in list order until the first failure; succeeds exactly when none fails; the effects are those of the condiments that reacted; every coin that reacted is disabled and no other condiment changes |
| Platforms.Platform.constructor | src/classes/platform/Platform.ts:31-69 | a fresh platform has the default configuration, accuracy 1, no condiments, shadow colour 0 and white zones |
| Platforms.Platform.UpdateOverlayConfig | src/classes/platform/Platform.ts:153-168 | lays the three zones out from the position, the stored accuracy and the configuration, keeping their colours |
| Platforms.Platform.PreUpdate | src/classes/platform/Platform.ts:71-83 | with a configuration, the zones follow the platform; colours are never changed |
| Platforms.Platform.ResetConfig | src/classes/platform/Platform.ts:103-117 | the display size is the configured width and height plus the collider offset 30; all three zones take the base colour; the accuracy and configuration are stored |
| Platforms.Platform.GetConfig | src/classes/platform/Platform.ts:185-187 | returns the stored configuration |
| Platforms.Platform.SetAccurate | src/classes/platform/Platform.ts:170-172 | only the main zone is recoloured, to the accurate colour |
| Platforms.Platform.SetInaccurate | src/classes/platform/Platform.ts:174-180 | only the left zone (on the left) or only the right zone is recoloured, to the inaccurate colour |
| Platforms.Platform.ApplyCollision | src/classes/platform/Platform.ts:231-264 | a missing configuration is an error that changes nothing; otherwise the accuracy is stored and the landing is judged against the previous main zone; an extents error changes nothing else; a judged hit recolours exactly the zone it names, sets the platform's vertical velocity to 400 and notifies the condiments in order; it returns the hit, or a TypeError when a right spike was reached |
| Platforms.Platform.SetShadowColor | src/classes/platform/Platform.ts:270-272 | stores the shadow colour |
| Platforms.Platform.SetVelocityX | src/classes/platform/PlatformSpawner.ts:399-405 | sets the horizontal velocity |
| Platforms.Platform.AddCondiment | src/classes/platform/Platform.ts:274-276 | appends the condiment to the list |
| Platforms.Platform.GetCondiments | src/classes/platform/Platform.ts:278-280 | returns the condiment list |
| Platforms.Platform.EnableBody | src/classes/platform/PlatformSpawner.ts:415 | the body is reset (stopped) at the given position and the sprite is alive |
| Platforms.Platform.DisableBody | src/classes/platform/PlatformSpawner.ts:488 | the sprite is no longer alive |
| Platforms.Platform.ClearCondiments | src/classes/platform/Platform.ts:282-284 | empties the condiment list |
| Platforms.Condiment.constructor | src/classes/platform/Spike.ts:8-13 | a new condiment of its type, attached to nothing, with no follow handler |
| Platforms.Condiment.AttachToPlatform | src/classes/platform/Spike.ts:15-18 | records the platform and registers one more follow handler |
| Platforms.Condiment.DetachFromPlatform | src/classes/platform/Spike.ts:20-22 | unregisters the follow handlers and keeps the platform reference |
| Platforms.Condiment.FollowPlatform | src/classes/platform/Spike.ts:26-32 | without a platform it fails and stays put; otherwise it moves to its type's alignment on exactly that platform; a coin goes to the platform's top centre, the same place `AttachCondiment` puts it |
| Platforms.Condiment.OnCollisionWithPlayer | src/classes/platform/Coin.ts:17-23 | the reaction of its type; a coin disables itself whether or not it pays out, a spike keeps its state |
| Platforms.Condiment.Activate | src/classes/platform/PlatformSpawner.ts:432-455 | revives the condiment at the given position |
| PlatformSpawner.SpawnArea | src/classes/platform/PlatformSpawner.ts:284-297 | the spawn band spans [cameraWidth + minGap, cameraWidth + maxGap] across the camera's height |
| PlatformSpawner.BufferArea | src/classes/platform/PlatformSpawner.ts:307-320 | the buffer band spans [cameraWidth, cameraWidth + maxGap] across the camera's height |
| PlatformSpawner.DespawnArea | src/classes/platform/PlatformSpawner.ts:330-343 | the despawn band is maxGap wide, ends at -minGap - 100, is top-anchored at 0 and ten camera heights tall |
| PlatformSpawner.BandsNest | src/classes/platform/PlatformSpawner.ts:284-343 | with 0 <= minGap <= maxGap, the spawn band lies inside the buffer band, sharing its right edge, and the despawn band lies left of the camera |
| PlatformSpawner.Scale | src/classes/platform/PlatformSpawner.ts:367-377 | a draw in [0, 1) scales into [lo, hi], and strictly below hi when the range is not empty |
| PlatformSpawner.Place | src/classes/platform/PlatformSpawner.ts:365-377 | explicit coordinates override the draws; otherwise x lies in the spawn band and y in [minHeight, maxHeight); width and height lie in their [min, max) ranges |
| PlatformSpawner.FirstDeadPlatform | src/classes/platform/PlatformSpawner.ts:358-363 | finds nothing exactly when every platform is alive, and otherwise the earliest dead one |
| PlatformSpawner.FirstDeadCondiment | src/classes/platform/PlatformSpawner.ts:463 | a condiment found is a dead member of the pool |
| PlatformSpawner.FirstDeadIsFirst | src/classes/platform/PlatformSpawner.ts:463 | the pool lookup finds nothing exactly when every member is alive, and otherwise the earliest dead one |
| PlatformSpawner.HitTransition | src/classes/platform/PlatformSpawner.ts:252-270 | an accurate hit in Playing accelerates, an inaccurate hit in PlayingAccelerated slows down, and every other pair of state and hit stays |
| PlatformSpawner.PlatformSpawner.constructor | src/classes/platform/PlatformSpawner.ts:33-156 | registers the spawner's listener after the existing ones, lays out the three bands from the configuration and draws the first shadow colour: the neutral one outside PlayingAccelerated, and otherwise exactly one step of the cursor, whose colour it keeps; the game state and every other field are as given |
| PlatformSpawner.PlatformSpawner.SetAllPlatform | src/classes/platform/PlatformSpawner.ts:272-282 | every platform of the pool gets the velocity and the shadow colour |
| PlatformSpawner.PlatformSpawner.UpdatePlatformStates | src/classes/platform/PlatformSpawner.ts:245-250 | one refresh: every platform gets the state's velocity and one freshly drawn shadow colour. Outside PlayingAccelerated that colour is the neutral one. In PlayingAccelerated the cursor takes exactly one `NextShadow` step from where it stood, and the platforms get that step's colour. It fails exactly in PlayingAccelerated over an empty matrix, and the colour then stays |
| PlatformSpawner.PlatformSpawner.Dispatch | src/classes/platform/PlatformSpawner.ts:129-131 | running the listeners of a state change refreshes the platforms once per call of the spawner's listener and sets the player's acceleration to the new state's; when the spawner's listener is called, it fails exactly over an empty matrix in PlayingAccelerated, and a single call moves the cursor exactly one step |
| PlatformSpawner.PlatformSpawner.ApplyAccurateHit | src/classes/platform/PlatformSpawner.ts:262-270 | changes state exactly in Playing, to a fresh PlayingAccelerated over the colour map, which refreshes once through the listener: the new cursor takes exactly one step from (0, 0) and its colour goes to the platforms, and the call fails exactly when the colour map is empty; otherwise nothing changes |
| PlatformSpawner.PlatformSpawner.ApplyInaccurateHit | src/classes/platform/PlatformSpawner.ts:252-260 | changes state exactly in PlayingAccelerated, to Playing, which refreshes once through the listener with the neutral colour; otherwise nothing changes |
| PlatformSpawner.PlatformSpawner.ApplyHit | src/classes/platform/PlatformSpawner.ts:229-243 | makes the transition the hit asks for, and the platforms are refreshed exactly once, whether the state changed or not. On entering PlayingAccelerated the fresh cursor takes one step from (0, 0); staying in PlayingAccelerated takes one step from the old cursor; either way the platforms get the drawn colour. Every other resulting state gives the neutral colour. It fails exactly when the resulting state is PlayingAccelerated over an empty matrix |
| PlatformSpawner.PlatformSpawner.BouncePlayer | src/classes/platform/PlatformSpawner.ts:211-227 | the ball ignores input, releases the pointer and gets vertical velocity -1000 |
| PlatformSpawner.PlatformSpawner.DispatchEffects | src/classes/platform/PlatformSpawner.ts:78-81 | one addCoin call per coin payout; a game over puts the machine in GameOver, stops the ball and stops the platforms; without one the state is unchanged |
| PlatformSpawner.PlatformSpawner.EnterPlaying | src/classes/platform/PlatformSpawner.ts:72-75 | a landing in Static switches to Playing and refreshes once; in any other state nothing changes |
| PlatformSpawner.PlatformSpawner.Land | src/classes/platform/PlatformSpawner.ts:83-109 | records the score call, bounces the ball and applies the hit, with exactly one refresh and the same single cursor step and colour as `ApplyHit` |
| PlatformSpawner.PlatformSpawner.JudgeLanding | src/classes/platform/PlatformSpawner.ts:78-81 | the platform judges the landing with the configured accuracy; a success means no right spike is on the platform, one coin per coin is paid on an inaccurate landing, and the game ends exactly when the landing is inaccurate on the left with a left spike on the platform |
| PlatformSpawner.PlatformSpawner.OnCollision | src/classes/platform/PlatformSpawner.ts:53-113 | the whole collider callback: start the game if static, then judge the landing, with its condiment effects, one score call, the bounce and the transition; the platforms are refreshed once per change of state plus once for the hit; the final shadow colour is the neutral one outside PlayingAccelerated, and otherwise the colour of one cursor step, from (0, 0) for a fresh cursor or from the old cursor |
| PlatformSpawner.PlatformSpawner.Pick | src/classes/platform/PlatformSpawner.ts:461-468 | a pick is a dead condiment of the type's pool |
| PlatformSpawner.PlatformSpawner.PickIsFirstDead | src/classes/platform/PlatformSpawner.ts:461-468 | a type gets a condiment exactly when its probability exceeds its draw and its pool has a dead member, and then it gets the earliest one; an exhausted pool skips only that type |
| PlatformSpawner.PlatformSpawner.PickAll | src/classes/platform/PlatformSpawner.ts:458-479 | one pick per condiment type, in the order coin, left spike, right spike, each with its own probability and draw |
| PlatformSpawner.PlatformSpawner.ActivatePlatform | src/classes/platform/PlatformSpawner.ts:407-430 | the platform is alive at the position, stopped vertically, moving at the state's velocity and casting the current shadow |
| PlatformSpawner.PlatformSpawner.AttachCondiment | src/classes/platform/PlatformSpawner.ts:474-477 | the condiment and the platform are linked both ways, and the condiment is alive, centred on the platform's top |
| PlatformSpawner.PlatformSpawner.OfferCondiment | src/classes/platform/PlatformSpawner.ts:461-478 | a type's pick, if any, is attached to the platform and no other pooled condiment changes |
| PlatformSpawner.PlatformSpawner.OfferAll | src/classes/platform/PlatformSpawner.ts:458-479 | the platform's list grows by the picks in type order; each pick rides on the platform; every other pooled condiment keeps its state |
| PlatformSpawner.PlatformSpawner.AddOptionalCondiments | src/classes/platform/PlatformSpawner.ts:457-480 | without a probability table it throws a TypeError and changes nothing; otherwise it is OfferAll with the configured probabilities |
| PlatformSpawner.PlatformSpawner.Revive | src/classes/platform/PlatformSpawner.ts:379-391 | the platform is reset to the placement and the configuration's accuracy and colours, then revived; the zones keep their old layout |
| PlatformSpawner.PlatformSpawner.SpawnPlatform | src/classes/platform/PlatformSpawner.ts:353-397 | with no dead platform, returns nothing and changes nothing; otherwise the earliest dead platform is revived at the drawn placement, no other platform changes, and the condiments are offered, a missing probability table failing after the revival |
| PlatformSpawner.PlatformSpawner.PrespawnPlatform | src/classes/platform/PlatformSpawner.ts:500-503 | the spawned platform is centred horizontally at two thirds of the camera's height |
| PlatformSpawner.PlatformSpawner.DeactivatePlatform | src/classes/platform/PlatformSpawner.ts:482-489 | the condiment list is emptied and the platform is no longer alive |
| PlatformSpawner.PlatformSpawner.Despawn | src/classes/platform/PlatformSpawner.ts:176-193 | every live platform overlapping the despawn band is deactivated with its list cleared, every other platform is as it was, and afterwards no live platform overlaps the band |
| PlatformSpawner.PlatformSpawner.OnUpdate | src/classes/platform/PlatformSpawner.ts:158-194 | when a live platform overlaps the buffer band only the despawn pass runs; otherwise the earliest dead platform, if any, is placed at the drawn position and width, and the call fails exactly when the probability table is missing; a failure happens only on such a spawn; a call that succeeds leaves no live platform in the despawn band |
| PlatformSpawner.PlatformSpawner.SetConfig | src/classes/platform/PlatformSpawner.ts:509-515 | stores the configuration and lays out the three bands from it exactly as the constructor does |
| Players.LoadPlayer | src/classes/player/Player.ts:223-238 | every stored property overrides the default, every missing one keeps it, and with nothing stored the result is the default record |
| Players.LoadSaved | src/classes/player/Player.ts:223-238 | a complete record written to storage loads back unchanged |
| Players.SavePlayer | src/classes/player/Player.ts:211-221 | stores the loaded record with the coins and the high score replaced |
| Players.SaveThenLoad | src/classes/player/Player.ts:211-221 | after saving, only the coins and the high score differ from the record loaded before |
| Players.Player.constructor | src/classes/player/Player.ts:19-80 | registers one listener; the pointer is up and input accepted; the acceleration is the current state's and gravity is off |
| Players.Player.PointerDown | src/classes/player/Player.ts:46-58 | the pointer is down and gravity is on |
| Players.Player.OnStateChange | src/classes/player/Player.ts:156-158 | the acceleration becomes (0, the state's player acceleration) |
| Players.Player.PreUpdate | src/classes/player/Player.ts:160-164 | the acceleration is added to the velocity exactly when the pointer is down and input is not ignored; otherwise the velocity is unchanged |
| Players.Player.SetIgnoreInput | src/classes/player/Player.ts:199-205 | ignoring input also releases the pointer; accepting input leaves the pointer as it was |
| Players.Player.SetVelocityY | src/classes/platform/PlatformSpawner.ts:226 | sets the ball's vertical velocity |
| Players.Player.ApplyGameOver | src/classes/player/Player.ts:166-188 | the machine is in GameOver with its listeners to run; gravity is off, velocity and acceleration are zero and the body is disabled |
| PlayerContext.Props | src/classes/player/PlayerContext.ts:86-89 | an object payload's keys are its properties; an array's are its indices |
| PlayerContext.Spread | src/classes/player/PlayerContext.ts:86-89 | the spread has both objects' keys, the payload's values win, and every other key keeps the old value |
| PlayerContext.Reduce | src/classes/player/PlayerContext.ts:36-97 | the three numeric setters succeed exactly on a number and change only their own field; SET_OWNED_SKINS succeeds exactly on an array; SET_SETTINGS succeeds exactly on a non-null object (arrays included); SAVE and unknown types change nothing; a rejection is an invalid-payload error |
| PlayerContext.Saves | src/classes/player/PlayerContext.ts:34-39 | the record is written exactly for SAVE or when saveImmediately is true, which it is not by default |
| PlayerContext.SettingsMerge | src/classes/player/PlayerContext.ts:81-93 | SET_SETTINGS keeps every settings key the payload does not name and takes the payload's value for every key it names |
| PlayerContext.GetPlayerData | src/classes/player/PlayerContext.ts:18-26 | fails exactly when the registry has no player record, and otherwise returns it |
| PlayerContext.SetPlayerData | src/classes/player/PlayerContext.ts:28-102 | a missing record or rejected payload fails and changes nothing; otherwise the reduced record goes to the registry, and to storage exactly when the action saves |
| PlayerContext.LoadPlayerDataFromLocalStorage | src/classes/player/PlayerContext.ts:130-142 | a stored record is returned as it is, without defaults spread under it; with nothing stored it is the default record |
| PlayerContext.RegisterPlayerData | src/classes/player/PlayerContext.ts:12-16 | the registry holds the loaded record |
| PlayerData.DefaultPlayerData | src/constants/playerData.ts:3-11 | high score 0, coins 0, owning exactly the default skin, with it equipped, and volume 1 |
| PlayerData.OverlayFields | src/classes/player/Player.ts:229-233 | spreading a complete record over any base gives that record, and spreading an empty one keeps the base |
| SkinConstants.Skins | src/constants/skins.ts:1-56 | nine skins; a skin's id is its position and its price is 100 times its id, so ids are distinct and prices strictly increase |
| SkinConstants.DefaultSkin | src/constants/skins.ts:58 | the first skin, with id 0 and price 0 |
| SkinsMenu.LookupById | src/scenes/menu-scenes/Skins.ts:129 | looking a skin up by position finds the one skin with that id |
| SkinsMenu.SkinsMenu.constructor | src/scenes/menu-scenes/Skins.ts:24-117 | the shop shows the coins, owned skins and equipped skin of the loaded record |
| SkinsMenu.SkinsMenu.SavePlayerCoins | src/scenes/menu-scenes/Skins.ts:179-187 | only the stored coins change, and the label shows them |
| SkinsMenu.SkinsMenu.SavePlayerOwnedSkins | src/scenes/menu-scenes/Skins.ts:189-197 | only the stored owned skins change, and the shop keeps the new list |
| SkinsMenu.SkinsMenu.LoadPlayerCoins | src/scenes/menu-scenes/Skins.ts:199-203 | the coins of the loaded record |
| SkinsMenu.SkinsMenu.SavePlayerSkin | src/scenes/menu-scenes/Skins.ts:205-211 | only the stored equipped skin changes |
| SkinsMenu.SkinsMenu.Click | src/scenes/menu-scenes/Skins.ts:121-148 | the equipped skin, or an unowned one costing more than the stored coins, changes nothing; an owned skin is equipped with coins and owned skins unchanged; an affordable unowned skin costs exactly its price, is appended to the owned skins and is equipped; coins never rise, a non-negative balance never goes negative, and coins are spent only on a newly owned skin |

## Left out

- The engine is abstracted as fields and small operations:
  - arcade bodies, `enableBody`/`disableBody`, `setDisplaySize`, `setOffset` and `getBounds`;
  - the collider;
  - drawing (`drawShadow`, `drawPlatform`, `drawOverlay`), particles and tweens.
- `overlapRect` is modelled as a closed-interval intersection between a band and each platform's display rectangle, centred on its position. The engine's body offsets are not modelled.
- The query is taken to return only enabled bodies, so the buffer test (`Occupied`) counts only live platforms. A platform disabled by `disableBody` but still reported by the engine's search would, in the code, suppress a spawn. The model does not capture that. The despawn pass checks `active` as well, as the code does.
- Phaser's `Align.To.TopCenter`, used by a coin to follow its platform, is not part of this model. It is taken to centre the coin on the platform's x and put the coin's bottom edge on the platform's top edge. Both edges are measured with unscaled frame heights, as Phaser's bounds helpers do. That is the same position `addOptionalCondiments` gives a coin when it attaches it.
- The 50 ms maintenance timer and the 200 ms delayed re-enabling of input after a bounce are timers. `OnUpdate` is one callable step, and the re-enable is not modelled.
- `Math.random` draws are parameters. The angular spin added on a landing, which is random and presentational, is not modelled.
- The condiment pools are pre-filled. `getFirstDead(true, ...)` creating a member on demand (up to 20) is not modelled, and neither is the pool's create callback, which deactivates new members.
- `Object.keys` order over the probability object is fixed as coin, left spike, right spike.
- A game object's `active` and `visible` flags are modelled as one flag: `disableBody(true, true)` and `enableBody(..., true, true)` always change both together.
- `tryAddScore`, `addCoin`, `getCoin` and `getHighScore` have no bodies. The spawner records the calls in order; `SavePlayer` takes the coin count and high score as parameters.
- The `!this.config` check in `spawnPlatform` is left out: the configuration is a typed field and is always present.
- The instanceof checks of the collider callback and `setAllPlatform`, and the "body is undefined" errors, are left out. The model's types make them unreachable.
- `activateCondiment`'s body settings (gravity off, immovable, not pushable) are left out.
- A left spike's game over runs synchronously inside `applyCollision`. The model carries it out after the reactions end, still before the score call and the bounce. Only condiment active flags are touched between the two points, and the game over does not read them.
- The despawn pass visits platforms in pool order, not in the engine's overlap-result order. Each platform's outcome is the same.
- `console.warn`/`console.log` output and the tilemap object layer's contents are left out. BeatmapMode reads no objects from the layer.
- The Spike constructor's `setScale(0.6, 1)` and `setOrigin(0.2, 0.5)` (Spike.ts:11-12) are not modelled. The model works with positions only: the spike's drawn edges, which depend on that scale and origin, are not stated, and the left and right spikes' drawn shapes are not mirror images.
- Registry aliasing: the registry record and the local variable in `setPlayerData` are one object, modelled as passing values.
- Shared defaults: with nothing stored, `loadPlayerDataFromLocalStorage` puts the `DEFAULT_PLAYER_DATA` object itself into the registry. `setPlayerData`'s in-place writes then change that shared object, and `Player.loadPlayer` returns it or spreads it under a stored record. The model treats the defaults as an immutable value (`DefaultPlayerData`), so it does not capture that leak. For example, with empty storage, registering the record and sending an unsaved SET_COINS 500 would make the skin shop show 500 coins. The model shows 0.
- PlatformSpawner.PlatformSpawner.constructor: requires a non-empty colour matrix when the machine is already PlayingAccelerated. In that case the source's first shadow-colour draw (PlatformSpawner.ts:146) throws a TypeError, after the listener is registered. A Dafny constructor cannot end in an error, so that failing construction is not modelled.
- `JSON.stringify`/`JSON.parse` are modelled as storing the parsed record. Malformed stored data is not modelled.
- `oncePlayerDataChange`/`offPlayerDataChange` are registry event plumbing.
- `loadScore`'s `parseInt` is modelled as a stored integer.
- The skins scene's layout, textures, selector animation and overlay are left out. `SecondOrderDynamics.ts` and `Spawner.ts` are numeric animation and are not modelled.
- All other scenes and UI widgets are not part of this model, and neither are the legacy prototypes `src/classes/Platform.ts` and `src/classes/Ball.ts`.
- Players.Player.SetVelocityY: stands for the engine's `body.setVelocityY`; only the ball's vertical velocity is modelled.
- PlatformSpawner.PlatformSpawner.OnUpdate: after a successful spawn the contract states the new platform's position and width, not every field `SpawnPlatform` states.
- PlatformSpawner.PlatformSpawner.PrespawnPlatform: states the spawned platform's position and whether the call fails, not every field `SpawnPlatform` states.
