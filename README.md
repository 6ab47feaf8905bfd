# Salty Crackers — a verified model of the game simulation

Salty Crackers is a small canvas platformer. A character jumps between six platforms and
collects the level's crackers (3 + level of them). After nine levels the game is complete.
This project models the simulation rules of two versions of the game:

- **v0** (`v0/game.js`): no stamina and no shop. The player jumps only from the ground. A
  cleared level hands over to the next one on its own after a 75-tick transition.
- **v1** (`v1/game.js`):
  - a stamina bar that drains while walking and recovers at rest, with an exhaustion lock
    that clears only at a full bar;
  - a double jump whose second jump costs twice as much stamina;
  - movement that slows as the character's "belly" grows level by level;
  - per-level best times, kept in storage;
  - a coin shop between levels that sells three kinds of pills.

What is identical in both versions is written once, as pure functions over values:

| module | file | what it holds |
|---|---|---|
| `Numbers`, `Wrappers` | `numbers.dfy` | `Math.min`/`Math.max`, once for `int` (targets, timers) and once for `real` (speeds), since Dafny has no numeric type spanning both; an `Option` for nullable entries |
| `Geometry` | `geometry.dfy` | `rectsOverlap` and facts about it |
| `Layout` | `layout.dfy` | `createLevel`'s platform layout and cracker placement |
| `Physics` | `physics.dfy` | `applyPhysics` as one `Step` over a `Body` value |
| `Pickup` | `pickup.dfy` | `collectCrackers`' sweep over the crackers and its counts |
| `Rules` | `rules.dfy` | v1's pure rules: stamina tick, jump, growth scaling, best times, best-times loading |

The two game files model the source's own shape:

- In `game_v1.dfy` and `game_v0.dfy`, the `player` and `game` objects are classes (`Player`,
  `Game`), and their methods update the fields in place, as the source's functions do.
- Each method is proved against the pure functions above. For example, `ApplyPhysics`
  ensures that the new body is `Step` of the old one, and `PickUp`'s loop ensures that the
  crackers become `Sweep` of the old list.
- The lemmas about those functions carry the game's properties.
- One whole frame is also a function. In v1, `SimulateFrame` maps a `SimState` (body,
  stamina, jumps, facing, crackers, count) through updateStamina, handleInput,
  applyPhysics and collectCrackers. `Game.Sim()` reads that state off the objects, and
  `Tick` ensures that the new `Sim()` is `SimulateFrame` of the old one. The frame's
  bookkeeping (countdown, reward debt, best times, coins, shop, keys) is a
  `LedgerState`; `Game.Ledger()` reads it, and `Tick` ensures that it becomes
  `CountdownFrame` of the old one. In v0, `Tick` is tied in the
  same way to `Input`, `Physics.Step` and `Sweep`, and states the facing and, on the
  frame that builds the next level, the grounded flag.

Positions, velocities, stamina and times are `real`.

Some inputs become parameters or fields:

- `performance.now()` becomes the parameter `now`.
- The animation-frame timestamp becomes `time`.
- The canvas size becomes the `width`/`height` constants of `Game`.
- The held arrow keys become the `controls` field.

## Model

| member | source | states |
|---|---|---|
| `Geometry.OverlapsSymmetric` | v1/game.js:126-133 | the overlap test does not depend on argument order |
| `Geometry.TouchingIsNotOverlapping` | v1/game.js:126-133 | rectangles that only share an edge or corner do not overlap (all four comparisons are strict) |
| `Geometry.OverlapsIffCommonPoint` | v1/game.js:126-133 | for rectangles of positive size, the test holds exactly when some point lies strictly inside both (both directions) |
| `Layout.Platforms` | v1/game.js:136-148 | six platforms; the first is the ground: at x 0, as wide as the world, its bottom on the world's bottom edge |
| `Layout.FloatingPlatforms` | v1/game.js:141-148 | every other platform is 20 high, at least 70 wide and entirely above the ground's top |
| `Layout.CrackerPlatform` | v1/game.js:155 | the platform index 1 + (i + level) mod 5 is never the ground and always in range |
| `Layout.Spread` | v1/game.js:156 | the horizontal scatter modulus max(30, w - 40) is at least 30 |
| `Layout.PlaceCracker` | v1/game.js:155-164 | cracker i is 16x16, uncollected, 22 above its platform's top, and between 20 and 20 + spread from the platform's left edge |
| `Layout.LevelCrackers` | v1/game.js:150-165 | a level has exactly 3 + level crackers |
| `Layout.BuildCrackers` | v1/game.js:154-165 | the push loop builds exactly the list `LevelCrackers` specifies, in order |
| `Layout.CrackerClearsItsPlatform` | v1/game.js:155-161 | a cracker never overlaps the platform that carries it |
| `Layout.EveryPlatformStocked` | v1/game.js:154-156 | from level 2 on, every floating platform carries at least one cracker |
| `Physics.ClampSpeed` | v1/game.js:299 | the clamped speed lies in [-7, 7] and equals the input when that is already in range |
| `Physics.Integrate` | v1/game.js:297-312 | friction 0.82 and the clamp to [-7, 7] give the new vx; x moves by it when the player stays within the walls, and otherwise stops at the wall it crossed (x = 0 or x = width - 30) with vx 0; vy increased by gravity, y moved by the new vy, not grounded |
| `Physics.Step` | v1/game.js:296-332 | one tick: speed in [-7, 7]; a fall below height + 120 respawns the player at (90, 90) at rest, otherwise x stays within the walls; without a fall, the result is exactly the platform loop run on the moved body; grounded exactly when the platform loop grounds; a still player stays still horizontally |
| `Physics.LandAllKeepsHorizontal` | v1/game.js:314-324 | landing never changes x or vx |
| `Physics.NoLaterLanding` | v1/game.js:314-324 | platforms that do not pass the landing test leave the result of the loop as it was |
| `Physics.LastLandingWins` | v1/game.js:314-324 | the last platform that passes the landing test decides the result: the player rests on its top, vy 0, grounded |
| `Physics.NoLandingLeavesBody` | v1/game.js:314-324 | with no landing, the loop changes nothing |
| `Physics.GroundedMeansLanded` | v1/game.js:312-324 | a player grounded after the loop was landed by some platform |
| `Physics.RestingStaysPut` | v1/game.js:296-332 | a player at rest on a platform, with nothing else in the way, stays exactly where it is on the next tick |
| `Physics.UntouchedBefore` | v1/game.js:314-324 | platforms that do not overlap the body leave it unchanged |
| `Physics.RestAfter` | v1/game.js:314-324 | after landing on a platform, later platforms that do not overlap leave the body at rest |
| `Pickup.Sweep` | v1/game.js:335-346 | the sweep keeps the number of crackers |
| `Pickup.SweepMarksOverlapping` | v1/game.js:335-346 | the sweep keeps every box, and flags a cracker exactly when it was collected already or overlaps the player |
| `Pickup.CountCollected` | v1/game.js:340-341 | the collected count never exceeds the number of crackers |
| `Pickup.CountFreshSnoc` | v1/game.js:335-346 | one more cracker in the loop adds one to the pickup count exactly when it is fresh and overlapping |
| `Pickup.SweepCounts` | v1/game.js:335-346 | the sweep raises the number of flagged crackers by exactly the number it picks up, so the counter matches the flags |
| `Pickup.SweepIdempotent` | v1/game.js:335-346 | a second sweep from the same place picks up nothing and changes nothing: no cracker is counted twice |
| `Pickup.AllCollectedNothingFresh` | v1/game.js:335-336 | once every cracker is collected, nothing more can be picked up, wherever the player stands |
| `Pickup.FreshLevelUncounted` | v1/game.js:150-165 | a new level starts with no cracker collected |
| `Pickup.NoneCollected` | v1/game.js:162 | a list with no flagged cracker has a collected count of 0 |
| `Rules.StaminaTick` | v1/game.js:270-291 | the bar stays in [0, 100]; the exhausted flag is set at 0 and cleared only at 100 (both directions); an exhausted player only recovers; the bar drops only while walking, rested and without the no-stamina boost; on a frame with a positive delta it does drop then (unless already empty) and otherwise rises (unless already full); one frame moves it by at most 12/s down and 10/s (18/s exhausted) up |
| `Rules.StaminaRunInRange` | v1/game.js:270-291 | over any run of frames with non-negative deltas, the bar stays in [0, 100] |
| `Rules.ExhaustionClearsOnlyAtFull` | v1/game.js:284-289 | an exhausted player who ends up rested passed through a frame that cleared the flag with the bar full |
| `Rules.Refill` | v1/game.js:339-343 | pickups keep the bar in range and never lower it |
| `Rules.RefillCapsOnce` | v1/game.js:339-343 | capping at every pickup is the same as capping once: min(100, stamina + 25k) |
| `Rules.JumpCost` | v1/game.js:243-245 | a jump costs 10 with both jumps available, and 20 once one has been spent |
| `Rules.Jump` | v1/game.js:239-256 | a refused jump (exhausted, no jumps left, or too little stamina without the boost) changes nothing; an accepted one sets vy to -jumpPower, leaves the ground, spends one jump and the cost unless boosted; exhaustion is set exactly when an unboosted jump empties the bar; ranges are kept |
| `Rules.TooTiredToJump` | v1/game.js:239-247 | with 5 stamina and no boost, a jump is refused |
| `Rules.DoubleJumpFromFullBar` | v1/game.js:239-256 | from a full bar, a jump and a double jump leave 70 stamina, no jumps, not exhausted |
| `Rules.AtMostMaxJumps` | v1/game.js:239-256 | without a landing in between, no more jump attempts succeed than jumps remain (at most 2) |
| `Rules.Growth` | v1/game.js:215 | belly growth lies between 1 and 2.28 for every level from 1 |
| `Rules.SpeedScale` | v1/game.js:226-229 | the speed multiplier is 1.1 under a speed boost and otherwise lies in [0.55, 1.1] |
| `Rules.JumpScale` | v1/game.js:230 | the jump multiplier lies in [0.72, 1.0] |
| `Rules.HeavierIsSlower` | v1/game.js:215-230 | a later level never grows less or makes the character faster or springier; a boost never slows it |
| `Rules.RecordBest` | v1/game.js:351-356 | a falsy old entry or one the elapsed time beats is replaced by the elapsed time; otherwise it stays; a positive best never increases |
| `Rules.LoadBestTimes` | v1/game.js:180-196 | always nine entries; all absent when the record is missing, unparseable or not an array; a present entry is exactly the finite number stored at that index, and every finite number stored at an index below 9 is loaded there |
| `Rules.LoadAfterSave` | v1/game.js:180-200 | loading what was saved gives back the same nine best times |
| `GameV1.Price` | v1/game.js:386-419 | exactly the three pill names have a price, each at least 50 |
| `GameV1.Stock` | v1/game.js:386-419 | the count of the pill named rises by one, and the other two counts stay; an unknown name changes nothing |
| `GameV1.FrameDelta` | v1/game.js:811-815 | the first frame (no stamp yet) has delta 0; otherwise the delta is the time since the last stamp, capped at 64 ms |
| `GameV1.Steer` | v1/game.js:258-268 | an exhausted player stands still; otherwise the held right arrow adds the speed, the held left arrow subtracts it, and both or neither leave vx as it was |
| `GameV1.Face` | v1/game.js:258-268 | an exhausted player, or one holding no arrow, keeps the facing; otherwise a held right arrow faces right (even with left held too), a left arrow alone faces left |
| `GameV1.CountdownFrame` | v1/game.js:496-503 | the bookkeeping of one live frame: a clearing frame (checked in collectCrackers, lines 348-356) restarts the countdown at 59, owes the reward and records the best time; otherwise a running countdown drops by one; when it ends on the game screen outside the shop, the shop opens, pays a pending 100 coins, clears the debt and releases the keys; in every other case coins, shop, keys, debt and best times stay |
| `GameV1.SimulateFrameKeeps` | v1/game.js:824-829 | one simulated frame keeps the bar in range and the jumps in 0..2, keeps the count equal to the flagged crackers and never lowers it, keeps the number of crackers and their boxes, and leaves an exhausted player with vx 0 |
| `GameV1.Player.constructor` | v1/game.js:103-121 | the initial player: at (90, 100), at rest, base speed and jump power, two jumps, full bar |
| `GameV1.Game.constructor` | v1/game.js:79-101 | start-up, with the page's start-up calls (v1/game.js lines 872-878: loadBestTimes, createLevel, updateHUD, the menu screen): session invariant, a new run (`NewRun`: level 1, no coins or pills, level 1 built and scaled), menu screen, released keys, best times loaded |
| `GameV1.Game.CrackersTargetSafe` | v1/game.js:206-209 | the target becomes max(1, value) and the count restarts at 0 |
| `GameV1.Game.CreateLevel` | v1/game.js:135-178 | the layout, the level's cracker list, target 3 + level, count 0, the player at (90, 90) at rest with two jumps and a full bar, the level clock at 0 |
| `GameV1.Game.UpdateHUD` | v1/game.js:215-232 | speed and jump power become base times the growth multipliers, so speed lies in [0.4675, 0.935] and jump power in [8.64, 12] |
| `GameV1.Game.TryJump` | v1/game.js:239-256 | the jump state becomes `Rules.Jump` of the old one; an exhausted player or one with no jumps left is untouched |
| `GameV1.Game.HandleInput` | v1/game.js:258-268 | an exhausted player is untouched; otherwise each held arrow adds or subtracts the current speed and sets the facing |
| `GameV1.Game.UpdateStamina` | v1/game.js:270-294 | the stamina and exhausted flag become `Rules.StaminaTick` of the old ones; an exhausted player stops |
| `GameV1.Game.ApplyPhysics` | v1/game.js:296-332 | the body becomes `Physics.Step` of the old body; the jumps refill exactly when the tick ends grounded |
| `GameV1.Game.Move` | v1/game.js:297-312 | the body becomes `Physics.Integrate` of the old body |
| `GameV1.Game.LandOnPlatforms` | v1/game.js:314-324 | the body becomes `Physics.LandAll` over the platforms, in order; a landing refills the jumps |
| `GameV1.Game.CollectCrackers` | v1/game.js:334-358 | the crackers become `Sweep` of the old ones; the count rises by the pickups and the bar by `Refill`; a cleared level starts the 60-tick transition, owes the reward and records the best time; the invariant holds |
| `GameV1.Game.PickUp` | v1/game.js:335-346 | the loop over the crackers equals the sweep; the counter and the flags stay in step |
| `GameV1.Game.OpenShop` | v1/game.js:360-377 | only on the game screen and when not shopping: pay a pending 100-coin reward, open the shop, release the keys; otherwise nothing changes |
| `GameV1.Game.CloseShop` | v1/game.js:379-384 | the shop is closed |
| `GameV1.Game.TryPurchase` | v1/game.js:386-419 | too few coins refuses with nothing changed; otherwise a known pill costs its price and adds one to the inventory, and an unknown name changes nothing; coins never go negative |
| `GameV1.Game.UseStaminaPill` | v1/game.js:421-427 | with a pill: one fewer, full bar, not exhausted; without: nothing changes |
| `GameV1.Game.UseSpeedPill` | v1/game.js:429-434 | with a pill: one fewer, speed boost until now + 5000; without: nothing changes |
| `GameV1.Game.UseNoStaminaPill` | v1/game.js:436-441 | with a pill: one fewer, no-stamina boost until now + 5000; without: nothing changes |
| `GameV1.Game.AdvanceLevel` | v1/game.js:443-452 | after the last level: complete, and nothing else changes (crackers, player, level clock); otherwise the next level is built and scaled |
| `GameV1.Game.ShopNext` | v1/game.js:886-895 | the shop closes, then after the last level the game completes with level, crackers, player and level clock as they were; otherwise it advances |
| `GameV1.Game.ResetGameState` | v1/game.js:454-473 | a new run (`NewRun`): level 1, no coins, no pills, no boosts, the shop closed, level 1 built and scaled; best times kept |
| `GameV1.Game.StartRun` | v1/game.js:471-472 | on a cleared session, createLevel(1) and updateHUD give a new run (`NewRun`) and the invariant |
| `GameV1.Game.ClearProgress` | v1/game.js:455-461 | level 1, not complete, no transition, count and target 0, the level clock at 0 |
| `GameV1.Game.ClearPurse` | v1/game.js:462-469 | no coins, no pending reward, the shop closed, no boosts, an empty inventory |
| `GameV1.Game.NextLevelIfReady` | v1/game.js:496-503 | a running countdown drops by one; when it reaches 0 on the game screen, the shop opens and pays the pending reward |
| `GameV1.Game.Tick` | v1/game.js:810-836 | the frame stamp is recorded; level, completion, screen, pills and boosts are outside its frame and so never change; when the game is complete or on the menu, nothing else changes; otherwise the level clock starts on the first live frame and advances by `FrameDelta` only outside transitions and the shop; outside the shop the simulated state (body, stamina, jumps, facing, crackers, count) becomes `SimulateFrame` of the old one with the clamped delta, and in the shop it stays; the bookkeeping (countdown, debt, best times, coins, shop, keys) becomes `CountdownFrame` of the old one; the speeds are rescaled; an exhausted player does not move sideways; collected crackers and coins never decrease |
| `GameV1.Game.StampFrame` | v1/game.js:811-815 | the frame stamp is recorded and the delta is `FrameDelta` of the old stamp |
| `GameV1.Game.PlayFrame` | v1/game.js:817-832 | a live frame: the stamp and the level clock as in `Tick`; outside the shop the simulated state becomes `SimulateFrame` of the old one, and in the shop it stays; the bookkeeping becomes `CountdownFrame` of the old one; the speeds are rescaled; an exhausted player does not move sideways |
| `GameV1.Game.FrameClocks` | v1/game.js:811-823 | the stamp is recorded with delta `FrameDelta` of the old one; the level clock starts on the first live frame and advances by the delta outside transitions and the shop |
| `GameV1.Game.FrameRest` | v1/game.js:824-831 | after the clocks: outside the shop the simulated state becomes `SimulateFrame` of the old one, and in the shop it stays; the bookkeeping becomes `CountdownFrame` of the old one; the speeds are rescaled |
| `GameV1.Game.Advance` | v1/game.js:824-830 | outside the shop the simulated state becomes `SimulateFrame` of the old one, and in the shop it stays; the bookkeeping (countdown, debt, best times, coins, shop, keys) becomes `CountdownFrame` of the old one |
| `GameV1.Game.Simulate` | v1/game.js:824-829 | stamina, input, physics and pickups take the simulated state to `SimulateFrame` of the old one, keep the invariant and stop an exhausted player; a cleared level restarts the transition at 60, owes the reward and records the best time in `bestTimes`, and otherwise countdown, debt and best times stay |
| `GameV1.Game.SteerPlayer` | v1/game.js:825-826 | the stamina and exhausted flag become `Rules.StaminaTick` of the old ones, then vx becomes `Steer` of the old vx and the facing `Face` of the old facing |
| `GameV0.Player.constructor` | v0/game.js:30-41 | the initial player: at (90, 100), at rest, facing right |
| `GameV0.Game.constructor` | v0/game.js:352-353 | start-up: level 1, not complete, no transition, level 1 built; the player is in the air (not grounded, so the first jump waits for a landing) and faces right |
| `GameV0.Input` | v0/game.js:105-118 | the held right arrow adds 0.85 and the left subtracts it (both or neither leave vx); up jumps with vy -12 and leaves the ground only from the ground; the position is untouched |
| `GameV0.Game.CrackersTargetSafe` | v0/game.js:93-96 | the target becomes max(1, value) and the count restarts at 0 |
| `GameV0.Game.CreateLevel` | v0/game.js:55-91 | the layout, the level's cracker list, target 3 + level, count 0, the player at (90, 90) at rest |
| `GameV0.Game.HandleInput` | v0/game.js:105-118 | the body becomes `Input` of the old body and the controls; each held arrow sets the facing |
| `GameV0.Game.ApplyPhysics` | v0/game.js:120-155 | the body becomes `Physics.Step` of the old body |
| `GameV0.Game.Move` | v0/game.js:121-136 | the body becomes `Physics.Integrate` of the old body |
| `GameV0.Game.LandOnPlatforms` | v0/game.js:138-147 | the body becomes `Physics.LandAll` over the platforms, in order |
| `GameV0.Game.CollectCrackers` | v0/game.js:157-173 | the crackers become `Sweep` of the old ones; the count rises by the pickups; a cleared level starts the 75-tick transition; the invariant holds |
| `GameV0.Game.PickUp` | v0/game.js:158-168 | the loop over the crackers equals the sweep; the counter and the flags stay in step |
| `GameV0.Game.NextLevelIfReady` | v0/game.js:175-189 | a running countdown drops by one; at 0 the game completes after level 9 (level, crackers and player unchanged), and otherwise the next level is built; before 0 the player is untouched |
| `GameV0.Game.Tick` | v0/game.js:325-336 | the game is complete afterwards exactly when it was before or the countdown ends on level 9; a completed game never changes again; otherwise, unless the tick ends the countdown before level 9, the body becomes `Physics.Step` of `Input` of the old body, the crackers `Sweep` of the old ones and the count rises by the pickups; the countdown starts at 74 on the clearing tick and otherwise drops by one down to 0; when it ends before level 9 the next level is built, and the player keeps the grounded flag physics gave it that frame, since createLevel resets only position and speed; the facing follows the last held arrow (right over left), or stays; only position, speed, grounded flag and facing of the player may change; the invariant holds |

## Left out

- Drawing and the DOM are not modelled: canvas rendering, HUD text, the overlays, menu
  panels, `setScreen` (the screen is a field), touch-button wiring, and the `shopOverlay`
  null checks (the shop overlay is taken to exist).
- `localStorage` and JSON are not modelled. `loadBestTimes` is modelled only as its
  normalisation of a parsed record, and `saveBestTimes` as the array it writes.
- `Math.random` (each cracker's bob phase), the bob animation and `lastUseFx` are
  presentation only, and are not modelled.
- IEEE-754 rounding is not modelled: the model uses exact reals.
- `requestAnimationFrame` scheduling is not modelled: each call of `Tick` is one frame.
- The key and blur handlers only set `controls` or call `TryJump` and the pills, which are
  modelled on their own.
- v0's `updateHUD` only writes text, so it is not modelled.
- `GameV0.Game.HandleInput`: v0 never changes `speed` or `jumpPower`, so they are the
  constants 0.85 and 12 rather than player fields.
- `GameV1.Game.CreateLevel` and `GameV0.Game.CreateLevel` require level ≥ 1. Every caller
  passes the game's level, which is at least 1.
- `GameV1.Game.PickUp` and `GameV0.Game.PickUp` loop over a local copy of the cracker list
  and write it back at the end, where the source flags each cracker object in place. No
  other code sees the list during the loop, so the result is the same.
- `GameV1.Game.Tick` requires a frame timestamp no earlier than the last one (or a first
  frame). The animation-frame clock is monotonic.
- `GameV1.Game.UseStaminaPill` requires the stamina bar in range, which every other
  operation keeps.
- `Rules.RecordBest`: best times are meant to only ever decrease. The code's `!previous`
  test treats a stored best of exactly 0 as missing, so any later time replaces it. The model
  follows the code, so its guarantee that a best never increases covers positive bests only.
