# GGJ2025 game rules in Dafny

A model of the game logic of GGJ2025, a small Phaser underwater game. The
model covers five parts:

- the power-ups: the effect list, the `use` guard, the reactivation after a
  cooldown, the gamble of the "random" kind, and the effect handlers;
- the player's hearts, damage window and death, and the speed and
  acceleration gates;
- the fish patrol programs, the looping chain that plays them, the attack
  that pauses it, and the options read from a Tiled map object;
- the level scene's two overlap handlers, the spawn point and the frames of
  the placeholder power-ups;
- the heads-up display's heart row and stamina bar.

Each source file is one module:

| module | source | form |
|---|---|---|
| `Timers` | the scene clock's `delayedCall` | pending tasks as a queue, with counting lemmas |
| `Tiled` | Tiled map objects | values |
| `PlayerSprite` | src/player.ts | class `Player` |
| `PowerUpSprite` | src/powerup.ts | class `PowerUp`, plus pure tables and handlers |
| `FishSprite` | src/fish.ts | pure segment tables and fold, plus class `Fish` |
| `GameScene` | src/scenes/Game.ts | class `PowerupSprite` and handler methods |
| `UIScene` | src/scenes/UI.ts | class `Hud` over an `array` |

`Wrappers` holds `Option` and `Result`.

The engine's timer is modelled as an explicit queue. An object that calls
`delayedCall` keeps a field `pending: seq<Task<Action>>`. Each task is a due
time and the callback it runs. Every callback is a separate method
`Fire…(k, now, …)`: it may run only for a pending task of its own kind that
is due, and it removes that task.

Four classes carry an invariant predicate:

- `PowerUp.Valid` is about the power-up's queue and flags. Exactly one
  reactivation is pending while the power-up is inactive. Exactly one gamble
  step is pending while it is randomizing. A randomizing power-up is active.
  The constructor establishes it. `Use` and every `Fire…` callback preserve
  it. `Remove` and `ApplyEffect` are steps inside those methods and do not
  state it on their own.
- `Player.DamageSafe` is about the player's hearts and queue. Hearts are
  never negative. At most one window reset is pending, and only for a living
  player in the damage window. A player outside the window is alive. The
  constructor and the three `Fire…` callbacks preserve it. `Use` preserves
  it too. `TakeDamage` alone does not: a hit during the window can drive
  hearts below 0 (`DirectHitsGoNegative`), and the reset left by an earlier
  survived hit still fires after a killing hit and leaves the dead player
  out of the window (`LateResetAfterDeath`). It keeps holding only when
  `TakeDamage` is called outside the window, which is how `OnFishOverlap`
  calls it.
- `Fish.Valid` is about the patrol position, not the queue. The program
  returns home after every pass. The fish stands where the legs played so
  far put it. The constructor establishes it. `CompleteLeg` preserves it.
  `Attack` and `FireResume` leave the pose and the leg unchanged.
- `PowerupSprite.Valid` says one revival is pending exactly while the
  placeholder sprite is inactive. Its constructor, `FireRevive` and
  `OnPowerupOverlap` preserve it.

`Hud` has no invariant: its methods state the new heart row and bar width
directly.

`Math.random()` draws are `real` parameters in [0, 1). The player's scale is
an integer `sizeLevel`: the number of size effects in force, with scale =
base × 1.5^sizeLevel.

player.ts declares only `hearts` and `takingDamage`. The power-up handlers
also write `oxygen`, `MAX_STAMINA`, `stamina`, `hasShield`, `maxSpeed` and
`maxDivingSpeed`. Here they are all fields of one `Player` record, and the
constructor takes their initial values as parameters. The shield handler
also shows and positions a `shield` sprite on the player
(src/powerup.ts:148-149), which player.ts does not declare either; that
sprite is rendering and is not modelled.

Three behaviours of the code are worth pointing out:

- **`attack` has no re-entry guard.** Every call adds a resume, and the
  first resume ends the pause early (`FishSprite.EarlyResume`).
- **A used oxygen bubble does not stay oxygen.** Its reactivation draws a
  new kind like any other power-up
  (`PowerUpSprite.OxygenBubbleComesBackDrawn`).
- **Death is not final.** Hits spaced by the 1000 ms reset leave a player
  at 0 hearts inside the damage window for good, because the killing hit
  schedules no reset (`PlayerSprite.DeadInWindow`). A health power-up then
  gives a heart back: `preUpdate` accelerates the player again, but the
  window never closes, so the fish overlap never hurts it again
  (`GameScene.RevivedPlayerIsNeverHit`). This is latent: Game.ts never
  creates a `PowerUp`, only placeholder sprites.

## Model

| member | source | states |
|---|---|---|
| Timers.CountSchedule | src/powerup.ts:78-86 | scheduling a callback adds one pending task of its own kind and leaves the count of every other kind alone |
| Timers.CountFire | src/powerup.ts:78-86 | firing the k-th task removes exactly one pending task of its own kind and no other |
| PlayerSprite.Player.constructor | src/player.ts:7-18 | a new player has 3 hearts, is not taking damage, swims, has speed cap 128 and nothing pending; the damage invariant holds |
| PlayerSprite.Player.SpaceDown | src/player.ts:56-61 | pressing space raises the speed cap to 256 only when hearts > 0; otherwise the cap is unchanged |
| PlayerSprite.Player.SpaceUp | src/player.ts:62-64 | releasing space restores the cap to 128, dead or alive |
| PlayerSprite.Player.TakeDamage | src/player.ts:67-94 | hearts fall by exactly 1 with no guard and the damage window opens; a 100 ms tint clear is scheduled, then either the death tween (no hearts left, die animation; the death branch schedules no reset) or exactly one reset 1000 ms later |
| PlayerSprite.Player.PreUpdate | src/player.ts:98-118 | acceleration is reset every frame and stays 0 for a dead player; for a living one right beats left and down beats up, each axis being 0 or ±320 |
| PlayerSprite.Player.FireClearTint | src/player.ts:72 | the tint clears; the damage invariant is preserved |
| PlayerSprite.Player.FireSettle | src/player.ts:79-87 | at the end of the death tween the body's gravity becomes -80; the invariant is preserved |
| PlayerSprite.Player.FireEndDamage | src/player.ts:91-93 | the damage window closes exactly once per survived hit and, under the damage invariant, the player is then alive |
| PlayerSprite.DirectHitsGoNegative | src/player.ts:67-69 | four direct hits on a new player leave -1 hearts, still in the damage window |
| PlayerSprite.DeadInWindow | src/player.ts:67-93 | hits at 0, 1000 and 2000 ms, each survived hit's reset fired before the next, leave a new player at 0 hearts still in the damage window |
| PlayerSprite.LateResetAfterDeath | src/player.ts:67-93 | three direct hits on a new player, then the reset left by the first hit fires: 0 hearts and out of the damage window |
| PowerUpSprite.EffectsDistinct | src/powerup.ts:7-16 | the eight effect names are pairwise distinct |
| PowerUpSprite.IndexOf | src/powerup.ts:92 | returns the first position of the name, or -1 exactly when it is not listed |
| PowerUpSprite.EffectIndexRoundTrip | src/powerup.ts:89-93 | for every listed effect, looking up its own name gives back its position |
| PowerUpSprite.RandomFrame | src/powerup.ts:122 | the position of "random" is the Random kind's frame, 1 |
| PowerUpSprite.KindOf | src/powerup.ts:96-174 | an effect has a handler exactly when it is listed, and the handler's position is the name's position |
| PowerUpSprite.KindOfEffect | src/powerup.ts:96-174 | every name in the list has the handler of its own position |
| PowerUpSprite.PickIndex | src/powerup.ts:79 | a draw in [0, 1) picks a valid position: the floor of the draw × 8 |
| PowerUpSprite.Boost | src/powerup.ts:97-171 | each handler changes only the fields it names; stamina refills to the raised maximum, and stamina ≤ maximum is kept |
| PowerUpSprite.Scheduled | src/powerup.ts:101-171 | only the random kind schedules a gamble step; no handler schedules a reactivation or an unlock |
| PowerUpSprite.SizeRoundTrip | src/powerup.ts:157-163 | a size effect followed by its reversal leaves the record as it was |
| PowerUpSprite.SizeEffectWearsOff | src/powerup.ts:157-163 | using an active size power-up and then firing its shrink gives the player back its record; the power-up stays inactive with only its reactivation 30000 ms later added to the queue |
| PowerUpSprite.PowerUp.constructor | src/powerup.ts:26-37 | a new power-up is active and shown with its effect's frame, not randomizing, nothing pending; the invariant holds |
| PowerUpSprite.PowerUp.CreateOxygen | src/powerup.ts:39-45 | a new oxygen power-up, active and shown with its icon visible, not randomizing or spinning, nothing pending, at frame 0 without its icon frame; the invariant holds |
| PowerUpSprite.PowerUp.SetEffect | src/powerup.ts:89-93 | the frame is the name's position for a listed name and -1 otherwise |
| PowerUpSprite.PowerUp.Remove | src/powerup.ts:72-87 | deactivates and hides, and schedules exactly one reactivation 30000 ms later, leaving every other count alone |
| PowerUpSprite.PowerUp.ApplyEffect | src/powerup.ts:95-176 | an unlisted effect changes nothing (the dispatch throws); otherwise the player record becomes its handler's result and exactly the handler's callbacks are scheduled |
| PowerUpSprite.PowerUp.Use | src/powerup.ts:59-70 | nothing changes when inactive or randomizing; the random kind starts its gamble, stays active and schedules no reactivation; other kinds are applied once, then the power-up is inactive and hidden with one more reactivation; the invariants of the power-up and the player are preserved |
| PowerUpSprite.PowerUp.FireReactivate | src/powerup.ts:78-86 | after the cooldown the effect is the drawn listed name, the frame is its position, and the power-up is active and shown |
| PowerUpSprite.PowerUp.FireResolveGamble | src/powerup.ts:105-134 | the spin stops; a wheel below 0.8 draws a new effect, stays active and schedules the unlock 500 ms later; otherwise the power-up is removed, stops randomizing and shows the "random" frame |
| PowerUpSprite.PowerUp.FireEndGamble | src/powerup.ts:114-116 | the won gamble unlocks: randomizing clears and the invariant holds |
| PowerUpSprite.PowerUp.FireShrink | src/powerup.ts:160-162 | 7500 ms after a size effect one size level is taken back; nothing else changes |
| PowerUpSprite.PowerUp.FireRestoreGravity | src/powerup.ts:167-170 | 7500 ms after a pull-down, gravity is set to 0 rather than to its earlier value |
| PowerUpSprite.OxygenBubbleComesBackDrawn | src/powerup.ts:39-86 | an oxygen bubble that is used and then reactivated comes back as a drawn kind ("size" for a draw of 0.75) |
| FishSprite.Segments | src/fish.ts:104-145 | the programs have 1, 2, 6 and 16 legs |
| FishSprite.SegmentShapes | src/fish.ts:66-145 | the 700 ms delay stands exactly on the legs written with one; translations move by ±patrol area over 1000 ms and rotations by ±90° over 400 ms; right legs clear the flip and left legs set it; only the static float is a yoyo |
| FishSprite.NetZero | src/fish.ts:104-145 | every program sums to zero change in x, y and angle |
| FishSprite.PassReturnsHome | src/fish.ts:104-145 | one pass of any program brings the fish back to where it started |
| FishSprite.LoopReturnsHome | src/fish.ts:147-155 | the looping chain is back at its start pose after every number of passes |
| FishSprite.LegStep | src/fish.ts:147-155 | completing leg i puts the fish where the legs before the next leg put it, and the last leg brings it home |
| FishSprite.NextLeg | src/fish.ts:150-152 | the chain moves to the following leg, and wraps to the first exactly after the last |
| FishSprite.CollectKeeps | src/fish.ts:22-26 | a name that no property carries keeps its earlier value in the fold |
| FishSprite.CollectLast | src/fish.ts:22-26 | the fold keeps the value of the last property with a given name |
| FishSprite.ParseMovement | src/fish.ts:3 | a parsed movement tag is one of the four names |
| FishSprite.MovementRoundTrip | src/fish.ts:3 | every movement's name parses back to it |
| FishSprite.PatrolOptions | src/fish.ts:62 | missing options default to patrol area 100 and "static"; present ones are used as given; a non-number area or an unknown tag is an error, and only those |
| FishSprite.Fish.constructor | src/fish.ts:13-20 | a new fish stands at its home pose at the first leg of its program, swimming, unpaused, nothing pending; the patrol invariant holds |
| FishSprite.Fish.FromTileObject | src/fish.ts:22-27 | the fish gets its position from the object and its options from the folded properties, and starts at leg 0 at its spawn point, swimming, unflipped and unpaused with nothing pending; or the options' error |
| FishSprite.Fish.CompleteLeg | src/fish.ts:147-155 | a played leg sets the flip, moves the fish by the leg and advances to the next leg with wrap-around; the fish is home at the start of every pass |
| FishSprite.Fish.Attack | src/fish.ts:158-167 | pauses the chain, plays the attack and schedules one more resume 500 ms later, with no re-entry guard |
| FishSprite.Fish.FireResume | src/fish.ts:163-166 | swimming again, from the same leg and pose where the chain paused |
| FishSprite.EarlyResume | src/fish.ts:158-167 | attacks at 0 and 300 ms: the chain runs again at 500 ms while a resume is still pending |
| GameScene.PowerupFrame | src/scenes/Game.ts:66 | the placeholder frame lies in 0..20 and is 20 × draw rounded to the nearest integer |
| GameScene.FindNamed | src/scenes/Game.ts:82 | the first object with the name, or the length if there is none |
| GameScene.SpawnPoint | src/scenes/Game.ts:82-83 | without a layer or an object named "player" the spawn is (150, 500); otherwise it is that object's position, each missing coordinate defaulted |
| GameScene.PowerupSprite.constructor | src/scenes/Game.ts:64-71 | a placeholder sprite sits 16 pixels above its map object with a frame in 0..20, active and shown |
| GameScene.PowerupSprite.FireRevive | src/scenes/Game.ts:117-122 | the sprite is back, active and shown, with its frame unchanged |
| GameScene.OnFishOverlap | src/scenes/Game.ts:86-103 | nothing happens during a damage window. Otherwise the fish attacks and the player takes exactly one hit: one heart less, tinted, and a 100 ms tint clear queued, then either the death animation and tween or the 1000 ms window reset. Under the damage invariant hearts never fall below 0 and a dead player is never hit again |
| GameScene.OnPowerupOverlap | src/scenes/Game.ts:105-124 | an inactive sprite is ignored; an active one is switched off and hidden with one revival 30000 ms later and its frame kept |
| GameScene.RevivedPlayerIsNeverHit | src/scenes/Game.ts:87-89 | a dead player still in the damage window who uses a health power-up has 1 heart and stays in the window, and a fish overlap then changes nothing |
| UIScene.Hud.constructor | src/scenes/UI.ts:14-17 | no hearts yet, maximum 3 hearts and maximum stamina 100 |
| UIScene.Hud.CreateHearts | src/scenes/UI.ts:66-73 | a new row of exactly maxHearts hearts, heart i at x = 20 + 32·(i+1), y = 50 |
| UIScene.Hud.UpdateLife | src/scenes/UI.ts:75-84 | as written: for 1 ≤ life ≤ the row's length, hearts before life are full and the rest empty; life ≤ 0 empties only hearts past maxHearts; a life past the end fills every heart and fails |
| UIScene.Hud.ShowLife | src/scenes/UI.ts:75-84 | corrected: for every life from 0 to the row's length, hearts before life are full and all others empty |
| UIScene.Hud.CreateStaminaBar | src/scenes/UI.ts:86-91 | the bar starts at twice the maximum stamina |
| UIScene.Hud.UpdateStamina | src/scenes/UI.ts:93-95 | the bar is twice as wide as the stamina it shows |
| UIScene.Hud.Create | src/scenes/UI.ts:58-64 | at scene start, with the fill as written, there are three full hearts and a bar 200 wide |
| UIScene.StaleHeartAtZero | src/scenes/UI.ts:75-84 | after life 1 and then life 0, the first heart is still full |
| UIScene.NoHeartAtZero | src/scenes/UI.ts:75-84 | with the corrected fill, the first heart is empty at life 0 |

## Left out

- Rendering is not modelled: textures, scale and origin calls, the icon frame's position, the shield sprite's visibility and position, the bubble's texture change (`frame` is the index last passed to `setFrame`; the bubble's `setTexture` that resets the displayed frame is not modelled), the text pop-ups of the handlers (including the literal `'${powerupMsg}'` of the size handler) and the "Nope!" animation. Tint, visibility and the playing animation are booleans or tags.
- Engine physics is not modelled: drag, world bounds, body sizes, the `velocity.scale(4)` of the space key, and the flip and rotation from velocity in `preUpdate`. They are engine internals and floating point.
- The death branch's `resetFlip`, the 90° angle and the tween's interpolation back to 0 are not modelled. Only the tween's completion callback is (`FireSettle`).
- Tween interpolation is not modelled. A fish's pose is modelled only at leg boundaries (`CompleteLeg`). The leg delays and durations are data in the segment table, not played time.
- The static program's float is modelled as one yoyo leg that ends where it began; its own endless `loop` inside the chain is not modelled.
- The scene clock's ordering is not modelled: a `Fire…` method may run any due task, and the model does not force tasks to fire in due order.
- `fish-attack` lasts four frames at 8 frames per second, so the attack duration is the constant 500 ms, not read from the animation.
- The level scene's fish handler writes out the same statements as `Fish.attack`. `OnFishOverlap` calls `Fish.Attack` for them.
- Scale ×1.5 and ÷1.5 is floating point. It is the integer `sizeLevel` (scale = base × 1.5^sizeLevel), so the size round trip is exact here.
- PowerUpSprite.Boost: the size handler is stated as `sizeLevel + 1`, not as a floating-point scale change.
- The `uiChange` event that `applyEffect` emits is not modelled. Its name is not defined in src/consts.ts, and no listener in the modelled files uses it.
- The power-up's audio, the camera, the tilemap, `preload`, `createMap`, `createFish`, the bobbing tween on the placeholder power-ups, src/scenes/Loading.ts and src/main.ts are left out. They are I/O and engine wiring.
- The HUD's event listeners, the game-over handler and the restart handler are left out. The model only covers what those handlers call.
- The effect table is a plain record, so names of inherited properties (such as `"constructor"`) would find a function. The model treats every unlisted name as having no handler.
- Tiled property values are numbers or strings.
- Every number is an integer: Tiled numbers (`Num`), object positions, the player's and sprites' coordinates, fish poses and the patrol area. In the source these are JavaScript floating-point numbers. So the model cannot express a fractional patrol area or position. It also does not capture float effects: a pass of `+=a` and `-=a` legs returns home exactly here, but its float sum could drift.
- PowerUpSprite.PowerUp.FireShrink and PowerUpSprite.PowerUp.FireRestoreGravity: take the player as a parameter. A pending task does not record which player the source's callback captured, so the model does not rule out a reversal acting on a different player.
- FishSprite.PatrolOptions: a string patrol area is an error here, while the engine would also accept a string that holds a number. An unknown movement tag is an error too: the table has no such entry.
- FishSprite.Fish.FromTileObject: requires the object's x and y, which the source asserts non-null.
- Stamina drain, oxygen use, diving and shield absorption on damage are not in the modelled files, and are not invented here.

## Findings

| source | as written | input that shows it | evidently intended | confidence | as-written member | corrected member |
|---|---|---|---|---|---|---|
| src/scenes/UI.ts:76-81 | `maxH` starts at `maxHearts` and is lowered only by the filling loop, so with `life` 0 the emptying loop starts after `maxHearts` | three hearts, `updateLife(1)` then `updateLife(0)`: heart 0 stays full | with life 0 every heart is empty, as for every other life | not executed | UIScene.Hud.UpdateLife, UIScene.StaleHeartAtZero | UIScene.Hud.ShowLife, UIScene.NoHeartAtZero |
