# Bicycle traffic: the game controller, modelled in Dafny

The game is a side-scrolling arcade: a bicycle dodges cars, pedestrians and
bad-road patches ("blockers") that spawn on the right and scroll left. All of
its logic lives in one AngularJS controller, `AppCtrl`, in
`www/js/app.controller.js`. A few fixed-rate intervals drive it:

- spawning blockers,
- moving blockers and counting score,
- checking for collisions,
- moving the bike up/down and left/right.

Keyboard handlers start and stop the bike intervals. A watcher on the score
raises the level.

This project models that controller as one Dafny class, `Game.AppCtrl`. It
has one method per callback and handler. The pure pieces are functions with
lemmas in their own modules:

- `geometry.dfy` (`Geometry`): rectangles and the strict overlap test of the
  collision check.
- `blockers.dfy` (`Blockers`): the blocker record, the random spawn choices,
  and `Moved`. `Moved` is the list left after one pass of `moveBlockers`: a
  JavaScript `forEach` that `splice`s the array it walks. A second,
  index-by-index definition of the same pass (`Skipped`, `Outcome`,
  `Reference`) is proved equal to it.
- `difficulty.dfy` (`Difficulty`): the spawn period `1000 - 50 * level` and
  the count of level raises between two scores.
- `bike.dfy` (`BikeMotion`): the bike record and the four clamped movement
  steps. `left` moves on a 0.5 grid between 0 and 90. It is stored in
  half-units (`leftHalves`, 0..180), so no floating point is needed.
- `app_ctrl.dfy` (`Game`): interval handles, keys, screen-derived widths and
  the class `AppCtrl`.

Each interval handle (`addBlockerPromise`, `blockersMovementPromise`,
`collision.promise`, and the two bike handles) is a `Timer` field. A timer is
either `Idle` (never started or cancelled) or `Every(task, period)`.
Cancelling assigns `Idle`, so cancelling twice is the same as cancelling once.
When the controller overwrites or drops a handle whose interval is still
running, nothing can cancel that interval any more. The field `orphans`
counts such intervals. `Valid()` is the class invariant. It says:

- altitude is in 0..90 and `left` in 0..90;
- no axis has both direction flags set;
- every blocker is within left -10..100 and bottom 0..90;
- each handle runs only its own callback, and the spawn interval runs at the
  current level's period;
- the collision check runs exactly while no collision has happened;
- after a collision both bike intervals are stopped;
- while playing, a direction flag means its interval is running.

Points where the code and its own description differ (the model follows the
code):

- The comment on `scoreChanged` says the level goes up at multiples of 200.
  The code uses 100.
- `moveBlockers` does not move every blocker on each tick. After a splice at
  index i, the blocker that slides into i is skipped on that tick (see
  `Blockers.SkipExample`). So a blocker's position does not always drop by
  exactly 1 per tick.
- `collideCheck` does not stop at the first hit. It tests every blocker, and
  later hits repeat the same cancels and the same flag write, which changes
  nothing more.
- `restart` cancels neither the collision-check interval nor the blocker
  movement interval before `init` starts new ones. If it is called while a
  game is still running, those intervals keep running unreachable
  (`orphans`). From a collided state, both are already cancelled, so no
  interval is duplicated.
- `restart` does not touch the two bike interval handles either. If an arrow
  key is held (or its keyup never came) when `restart` runs, the reset bike
  keeps moving under that interval while its direction flags are all false.
  The next arrow keydown on that axis then starts a second interval over the
  handle, and the first one keeps running unreachable (`orphans`).

## Model

| member | source | states |
|---|---|---|
| `Geometry.Overlaps` | www/js/app.controller.js:369-372 | the four strict inequalities as written, with the blocker's box first and the bike's second |
| `Game.BlockerRect` | www/js/app.controller.js:355-360 | `rect1` as written: x = left, y = 90 - bottom, the kind's width, height 10; an in-bounds blocker's box starts within x -10..100 and y 0..90 |
| `Game.BikeRect` | www/js/app.controller.js:362-367 | `rect2` as written: x = left, y = 90 - altitude, the bike's width, height 10; a bike within its ranges has its box start within x 0..90 and y 0..90 |
| `Game.Hits` | www/js/app.controller.js:354-372 | the test the `forEach` callback runs for one blocker, as written: its box overlaps the bike's |
| `Game.AnyHit` | www/js/app.controller.js:354-377 | some blocker of the list passes the callback's test |
| `Difficulty.RaisesLevel` | www/js/app.controller.js:123 | the test of scoreChanged as written: the score is divisible by 100 |
| `Blockers.EveryKindSpawns` | www/js/app.controller.js:33-37 | each of the three entries of the type table (car, pedestrian, bad road) is picked by some roll in [0, 1) |
| `Geometry.OverlapsMeansSharedPoint` | www/js/app.controller.js:369-372 | for boxes of positive size, the four strict inequalities hold exactly when the two open boxes share a point on both axes |
| `Geometry.OverlapExamples` | www/js/app.controller.js:369-372 | with the bike at (10, 80, 5, 10), a blocker at (12, 82, 3, 10) overlaps it and one at x = 30 does not |
| `Game.HitsOnlyNearby` | www/js/app.controller.js:355-372 | a blocker can hit the bike only if their vertical offsets differ by less than 10 |
| `Game.WidthsFor` | www/js/app.controller.js:59-70 | the screen-derived widths are never negative; on a screen of positive height they are positive and ordered pedestrian < bad road < car |
| `Blockers.SpawnKind` | www/js/app.controller.js:137 | the kind taken from the three-entry type table by `floor(roll * 3)`: car exactly for rolls below 1/3, bad road exactly for rolls from 2/3 |
| `Blockers.SpawnBottom` | www/js/app.controller.js:141 | `round(roll * 90)` is always an offset in 0..90 and lies within 0.5 of `roll * 90` |
| `Blockers.Spawned` | www/js/app.controller.js:139-143 | a spawned blocker is in bounds and starts at left = 100 |
| `Blockers.Moved` | www/js/app.controller.js:164-171 | one movement pass never lengthens the list, and keeps every blocker within left -10..100 and bottom 0..90 when they all were |
| `Blockers.MovedFollowsForEach` | www/js/app.controller.js:165-171 | the pass equals the index-by-index outcome, in list order. A blocker right after a spliced one is skipped (kept as is). Any other blocker at -10 is removed, and any other blocker moves one unit left |
| `Blockers.MovedFrom` | www/js/app.controller.js:165-171 | the same equality for every suffix that starts at a visited index (the induction behind the previous row) |
| `Blockers.ReferenceOutcome` | www/js/app.controller.js:165-170 | a blocker disappears exactly when it is visited at -10; survivors keep kind and bottom and move by 0 (skipped) or 1 |
| `Blockers.SkipExample` | www/js/app.controller.js:165-167 | after a removal, the next blocker is not moved, and is not removed even when it is itself at -10 |
| `Blockers.PassStep` | www/js/app.controller.js:165-171 | one visit of the `forEach` (a splice or a decrement) keeps the relation between the array being walked and `Moved` of the original |
| `Difficulty.SpawnPeriod` | www/js/app.controller.js:112 | the spawn period is positive exactly below level 20, zero exactly at level 20, and no larger than 1000 exactly for levels ≥ 0 |
| `Difficulty.SpawnPeriodDecreasing` | www/js/app.controller.js:112 | a higher level gives a strictly shorter period, 50 ms shorter per level |
| `Difficulty.BoundariesCount` | www/js/app.controller.js:122-127 | the number of scores in (first, last] that raise the level is last / 100 - first / 100: one raise per 100-point boundary crossed |
| `Difficulty.BoundariesSplit` | www/js/app.controller.js:122-127 | level raises over consecutive score ranges add up |
| `BikeMotion.StepUp` | www/js/app.controller.js:274-278 | one unit up unless at 90, where it stays; keeps altitude in 0..90 |
| `BikeMotion.StepDown` | www/js/app.controller.js:287-291 | one unit down unless at 0, where it stays; keeps altitude in 0..90 |
| `BikeMotion.StepLeft` | www/js/app.controller.js:300-304 | half a unit left unless at 0; keeps `left` in 0..90 |
| `BikeMotion.StepRight` | www/js/app.controller.js:313-317 | half a unit right unless at 90; keeps `left` in 0..90 |
| `BikeMotion.LeftPosition` | www/js/app.controller.js:302 | `left` is half the stored count, so it lies on the 0.5 grid and in 0..90 |
| `BikeMotion.UpDownInverse` | www/js/app.controller.js:274-291 | away from the clamps, one step up and one step down undo each other |
| `Game.AppCtrl.constructor` | www/js/app.controller.js:16-41 | the controller starts valid with the default bike, no blockers, score 0, level 0, and exactly three intervals running: spawn at 1000 ms, movement and collision check at 50 ms |
| `Game.AppCtrl.Init` | www/js/app.controller.js:50-75 | init zeroes score and level, derives the widths and starts spawn, movement and collision check; a still-running movement interval becomes an orphan |
| `Game.AppCtrl.Restart` | www/js/app.controller.js:83-101 | restart restores every field to its default (score 0, level 0, no blockers, no collision) except the two bike interval handles, which keep running if they were; the state stays valid. Dropped running handles are counted as orphans. A bike that was climbing keeps its up interval with its flag cleared. From a state where every handle is idle, exactly three intervals are added |
| `Game.AppCtrl.SetBlockers` | www/js/app.controller.js:110-113 | the spawn interval is replaced (cancel, then start) by one at the current level's period, and nothing else changes |
| `Game.AppCtrl.ScoreChanged` | www/js/app.controller.js:122-127 | on a score divisible by 100 the level rises by exactly 1 and the spawn interval restarts at the new period; otherwise nothing changes |
| `Game.AppCtrl.AddBlocker` | www/js/app.controller.js:136-144 | exactly one in-bounds blocker is appended at left = 100; existing blockers and all other fields are unchanged |
| `Game.AppCtrl.SetBlockersMovement` | www/js/app.controller.js:153-155 | the movement interval is started without cancelling the previous one, which becomes an orphan if still running |
| `Game.AppCtrl.MoveBlockers` | www/js/app.controller.js:164-174 | the in-place `forEach`/`splice` loop leaves exactly `Moved` of the old list. The score rises by exactly 1. Nothing else changes, and every blocker stays within -10..100 |
| `Game.AppCtrl.MovementTick` | www/js/app.controller.js:164-174 | a movement tick followed by the score watcher moves the blockers and adds 1 to the score. It raises the level once per 100-point boundary crossed and restarts the spawn interval exactly when the level rises |
| `Game.AppCtrl.StopBlockers` | www/js/app.controller.js:183-186 | the movement and spawn intervals are cancelled and nothing else changes |
| `Game.AppCtrl.HandleKeydown` | www/js/app.controller.js:195-226 | the default action is suppressed exactly for arrow keys. After a collision nothing changes. An arrow starts its direction only when neither direction of its axis is moving: it sets that flag, clears the opposite one and starts the axis interval. Both directions of an axis are never set together |
| `Game.AppCtrl.HandleKeyup` | www/js/app.controller.js:235-265 | releasing an arrow clears both flags of its axis, even after a collision. The axis interval is cancelled only while no collision has happened. Other keys change nothing |
| `Game.AppCtrl.MoveBikeUp` | www/js/app.controller.js:274-278 | altitude rises by 1 unless at 90; nothing else changes; the state stays valid |
| `Game.AppCtrl.MoveBikeDown` | www/js/app.controller.js:287-291 | altitude drops by 1 unless at 0; nothing else changes; the state stays valid |
| `Game.AppCtrl.MoveBikeLeft` | www/js/app.controller.js:300-304 | `left` drops by 0.5 unless at 0; nothing else changes; the state stays valid |
| `Game.AppCtrl.MoveBikeRight` | www/js/app.controller.js:313-317 | `left` rises by 0.5 unless at 90; nothing else changes; the state stays valid |
| `Game.AppCtrl.InitCollideCheck` | www/js/app.controller.js:342-344 | the collision-check interval is started |
| `Game.AppCtrl.CollideCheck` | www/js/app.controller.js:353-378 | the collision flag is set exactly when some blocker's box overlaps the bike's. After a hit, every handle is idle: movement, spawn, collision check and both bike intervals. Any number of hits in one pass give the same state. Without a hit nothing changes |
| `Game.AppCtrl.InitCollide` | www/js/app.controller.js:387-392 | the collision check and both bike intervals are cancelled and the collision is marked; nothing else changes |

## Left out

- AngularJS plumbing is not modelled: `$rootScope`, dependency injection and
  module registration. The `$watch` on the score is an explicit call of
  `ScoreChanged` after a score change (`MovementTick`). The watcher also fires
  when it is first registered, and when `restart` changes the score to 0. In
  the page each of these calls `scoreChanged(0)`, which raises the level to 1.
  A caller of the model reproduces it by calling `ScoreChanged(0)`.
- Real-time scheduling is not modelled. An interval is a handle value, and
  each firing is a call of the callback method by the caller. Nothing in the
  model forces callbacks to be called only while their interval runs.
- `MovementTick` and `CollideCheck` after a collision: an orphaned movement
  interval, which exists only if `restart` was called during a running game,
  could still move blockers and raise the score. The model records such
  intervals in `orphans` but does not schedule them.
- Periods of zero or below (level 20 and up) are not given a meaning. The
  model keeps the arithmetic value `1000 - 50 * level`.
- Screen size: `Game.AppCtrl.constructor`, `Game.AppCtrl.Init` and
  `Game.AppCtrl.Restart` take the window's inner width and height as
  parameters. They require a positive width, because the page would divide by
  zero and get infinite or NaN widths. Resizing is not modelled.
- `Math.random` is not modelled. The two random numbers of `addBlocker` are
  parameters in [0, 1).
- Widths are exact reals. The page computes them in floating point.
- Key events are the five values `ArrowUp`, `ArrowDown`, `ArrowLeft`,
  `ArrowRight` and `OtherKey`. The source matches arrow keys by substring and
  calls `preventDefault`; the handlers return whether it was called.
  Substring matches on other key names are not modelled.
- `gravity` (www/js/app.controller.js:326-333) is never scheduled and refers
  to a handle that does not exist. It is not part of this model.
- Rendering and the view template are not part of this model.
