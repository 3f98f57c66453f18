# Starship: the per-tick simulation, verified

Starship is a small Ruby/Gosu space shooter (one file, `Starship.rb`). The
player's ship turns towards the mouse, moves inside a 2560 by 1600 world and
charges a plasma ball while the left button is held, firing it on release. Ten
enemy ships roam. An enemy engages the player when the player is in range and
fewer than three enemies were engaged on the previous tick. Engaged enemies
fly towards a random point near the player and flee when too close. They
charge and fire plasma balls when they face the player. A charging ball rides
on its ship and grows until it is fired, either by its owner or by reaching
full size. A fired ball flies straight and is dropped after 10000 units.

This project models one tick of that simulation in Dafny and proves what each
step does. The modules are:

- `Vectors` (vectors.dfy): the value class `Vector` and Ruby's floored `%` on
  numbers.
- `Geometry` (geometry.dfy): the Gosu helpers the game calls (`offset_x/y`,
  `angle`, `distance`, `angle_diff`). They are a datatype of total functions
  handed to every operation. The module also has Ruby's `Float#round`.
- `Steering` (steering.dfy): the turn step of `angleCalc` and the
  wrap-and-revert step of `move`, shared by both ship classes, plus the
  player's camera. It also proves that repeated turning converges.
- `Plasma` (plasma.dfy): the class `PlasmaBall` and its charge/fire life
  cycle.
- `Weapons` (weapons.dfy): a ship's charging slot and its list of balls in
  flight. Both ship classes of the original carry the same fields and code
  for these; here that code lives once, in the class `Launcher`. The module
  also has the `delete_if` purge.
- `Tactics` (tactics.dfy): the enemy's decision rules, `findNewAngle`,
  `runAway`, `shoot?` and `startCharging?`, over the values they read.
- `Player` (player.dfy): the class `Starship`.
- `Enemy` (enemy.dfy): the class `EnemyShip`, and `Steered`, the steering
  half of an enemy tick as a pure function of the helm state before it.
- `World` (world.dfy): the class `Window`. It holds the constructor with
  `createEnemies`, and `update`, which aims, updates the player, runs the
  enemy loop and recounts the engaged enemies. `Fleet` is the enemy loop as
  a function of the fleet's state.

The state-changing parts keep the source's form:
- classes with `modifies` clauses, and `Repr` sets that give each ship and
  launcher its own objects;
- the charging slot as a nullable field and the balls in flight as a `seq`
  field;
- loops with invariants for `@plasmas.each`, `delete_if`, `createEnemies` and
  the enemy loop of `update`;
- each ship's `Valid()` includes a heading in `[0, 360)`, which every update
  keeps.

Every method is proved against a specification function, for example
`MoveWithin`, `TurnStep`, `Survivors`, `Retarget`, `Steered` or `Fleet`. The
lemmas are about those functions.

Where the original reads from the window or the player's ship, the model
passes in the value read: the engagement count and its cap, the world size,
and the player's position and draw position. Gosu's trigonometry, the random
draws and the input devices are inputs too. The random draws are the
datatype `Dice`, one per enemy per tick. The mouse is a `Vector` and the left
button a `bool`.

## Model

| member | source | states |
|---|---|---|
| Vectors.Add | Starship.rb:11 | vector `+` adds component-wise; `Vectors.AddSubInverse` proves that `-` undoes it |
| Vectors.Sub | Starship.rb:12 | vector `-` subtracts component-wise; `Vectors.AddSubInverse` proves that `+` undoes it |
| Vectors.Mul | Starship.rb:13 | vector `*` multiplies component-wise; `Vectors.MulDivInverse` proves that `/` undoes it |
| Vectors.Div | Starship.rb:14 | vector `/` divides component-wise, by a divisor with no zero component |
| Vectors.VMod | Starship.rb:15 | vector `%` takes Ruby's `%` of each component; `Vectors.VModInBox` proves that it lands in the box |
| Vectors.Mod | Starship.rb:15 | Ruby's `%`: for a positive divisor the result lies in `[0, d)`; for a negative one in `(d, 0]`; and it equals `a` exactly when `a` is already in `[0, d)` |
| Vectors.AddSubInverse | Starship.rb:11-12 | vector `-` undoes `+` and vice versa |
| Vectors.MulDivInverse | Starship.rb:13-14 | component-wise `/` undoes `*` for a divisor with no zero component |
| Vectors.VModInBox | Starship.rb:15 | vector `%` by a positive box lands in the box, and leaves a vector unchanged exactly when it is already inside |
| Geometry.Round | Starship.rb:103 | `Float#round` is within one half of its argument, with the tie rounded away from zero |
| Steering.TurnStep | Starship.rb:101-110 | inside the dead-band the heading is kept; otherwise it moves by `step` in the sign of the difference, modulo 360, into `[0, 360)`; a heading in `[0, 360)` stays there |
| Steering.SignOf | Starship.rb:105 | `dif / dif.abs` is 1 for a positive and -1 for a negative difference |
| Steering.CircDiff | Starship.rb:103 | the shortest signed turn between whole-degree headings lies in `[-180, 180)` and is congruent to their difference modulo 360 |
| Steering.TurnStepApproaches | Starship.rb:101-110 | fed the true shortest difference, one turn step keeps a heading inside the dead-band, brings one at least a step away exactly one step closer, and brings one less than a step away into the dead-band |
| Steering.SteerConverges | Starship.rb:101-110 | after `n` ticks the remaining shortest turn is at most the initial one less `n` steps, or the dead-band, whichever is larger |
| Steering.SteerHolds | Starship.rb:101-110 | a heading inside the dead-band is never turned again |
| Steering.SteerInRange | Starship.rb:101-110 | repeated turning keeps a heading in `[0, 360)` |
| Steering.SteerSettles | Starship.rb:101-110 | enough ticks to cover the initial difference bring the heading into the dead-band |
| Steering.PlayerTurnScenario | Starship.rb:101-110 | the player heading 0 and aiming at 90 is within 2 degrees of 90 after 23 ticks |
| Steering.SteerSnoc | Starship.rb:101-110 | `n + 1` ticks of turning are `n` ticks followed by one more turn step |
| Steering.ScenarioLinear | Starship.rb:101-110 | in that turn, each of the first 22 ticks turns the heading by a full 4 degrees |
| Steering.ScenarioNeverPast94 | Starship.rb:101-110 | in that turn the heading is `4 * k` after `k <= 22` ticks and 88 after 23, so it never exceeds 94 on the way |
| Steering.Leaves | Starship.rb:116-117 | the wrap test `v % size != v` holds exactly when `v` left `[0, size)` |
| Steering.WrapRevert | Starship.rb:115-119 | one axis of `move` takes the tentative coordinate when it stays in the world and keeps the old one otherwise; inside stays inside |
| Steering.Blocked | Starship.rb:183-187 | the enemy's `xbool \|\| ybool` holds exactly when the tentative position is outside the world |
| Steering.MoveWithin | Starship.rb:112-119 | each coordinate is the tentative one when it stays in the world and the old one otherwise; a ship inside stays inside; an unblocked move is taken in full |
| Steering.CameraAxis | Starship.rb:120-124 | the draw position follows the ship at the low edge, is `2 * half - (world - pos)` at the high edge (the high test wins), and is kept otherwise |
| Steering.CameraOnScreen | Starship.rb:120-124 | for a ship in a world at least a screen wide, the draw position stays on screen, and at either edge the view shows the world from its edge on |
| Steering.MoveKeepsOnScreen | Starship.rb:112-124 | a move followed by the camera update keeps the ship in the world and its draw position on the screen |
| Plasma.MountedPos | Starship.rb:289-293 | `posGetFromShip`: the ship's position plus the offset at the ship's heading turned by the mounting angle, taken modulo 360 |
| Plasma.PlasmaBall.Mounted | Starship.rb:289-293 | this ball's mount point on a ship with the given heading and position, from its stored polar offset |
| Plasma.PlasmaBall.IsOld | Starship.rb:274-276 | `old?`: the ball has travelled more than 10000 |
| Plasma.Launched | Starship.rb:280-281 | a fired ball is on its ship's heading at twice the ship's speed |
| Plasma.Flown | Starship.rb:300-301 | one tick of flight: a fired ball keeps heading, speed and radius, moves by the offset of its heading and speed, and adds its speed to its distance travelled |
| Plasma.PlasmaBall.constructor | Starship.rb:263-272 | a new ball is charging with radius 10, has not travelled, keeps the polar form of its mounting offset, and sits at its mount point on the ship |
| Plasma.PlasmaBall.Fire | Starship.rb:278-282 | `fire` sets the stage to fired, the heading to the ship's and the speed to twice the ship's, and leaves radius and position alone |
| Plasma.PlasmaBall.Update | Starship.rb:295-305 | the stage never changes; charging, the ball follows its ship and grows by 0.2 only while below 40; fired, it moves by its speed, adds the speed to the distance travelled and keeps its radius; `full` (the `@ship.fire` condition) holds exactly when it is charging at 40 or more |
| Weapons.Survivors | Starship.rb:142 | `delete_if {old?}`: no old ball survives, every ball that is not old does, and nothing else appears |
| Weapons.KeptPositions | Starship.rb:142 | the survivors are taken from strictly increasing positions of the list, so they keep their relative order |
| Weapons.SurvivorsDistinct | Starship.rb:142 | purging a list without repeated balls leaves a list without repeated balls |
| Weapons.Launcher.constructor | Starship.rb:98 | a ship starts with an empty slot and no ball in flight |
| Weapons.Launcher.Charge | Starship.rb:136-138 | a new charging ball of radius 10 fills the empty slot at the mount point; the list is unchanged |
| Weapons.Launcher.Fire | Starship.rb:127-131 | the slot's ball is fired with the ship's heading and twice its speed and appended to the end of the list; the slot is emptied; the other balls keep their order |
| Weapons.Launcher.Purge | Starship.rb:142 | the list becomes the survivors of the purge, and the slot is unchanged |
| Weapons.Launcher.Update | Starship.rb:140-142 | a ball in flight moves once; a charging ball below the threshold follows the ship and grows; one that reaches full size is fired and then moves once more in the same tick; the list becomes the survivors |
| Weapons.Launcher.ChargeTick | Starship.rb:140 | the charging ball grows and follows the ship, and is fired onto the list exactly when it reaches full size |
| Weapons.Launcher.FlightTick | Starship.rb:141 | every ball in flight moves once along its heading and adds its speed to its distance travelled (`Flown`) |
| Tactics.ShouldShoot | Starship.rb:218-222 | `shoot?` over distance and facing: within 10 degrees of the player and in range, or closer than 100 |
| Tactics.ShouldCharge | Starship.rb:224-229 | `startCharging?` over distance and facing: within 20 degrees and in range, or closer than 200 |
| Tactics.Retarget | Starship.rb:200-208 | in range, a ship engages exactly when below the cap or already engaged, heading for the roaming point; out of range it disengages and patrols on a random heading; in range at the cap and not engaged, nothing changes |
| Tactics.Flee | Starship.rb:211-216 | closer than 100, the wanted heading becomes the bearing to the player turned round, in `[0, 360)`; otherwise it is kept |
| Tactics.Plan | Starship.rb:238-239 | the engagement flag only changes on ticks where the counter is a multiple of 60; fleeing overrides the re-targeting; on a re-targeting tick with the player at 100 or more, the wanted heading is the one `findNewAngle` chose |
| Tactics.GatesAtCloseRange | Starship.rb:218-229 | under 100 `shoot?` always holds and under 200 `startCharging?` always holds, whatever the facing; beyond those, each gate needs facing and range |
| Tactics.ShootImpliesCharge | Starship.rb:218-229 | whenever `shoot?` holds, so does `startCharging?` |
| Tactics.PeriodsAlign | Starship.rb:238-245 | on every re-targeting tick both firing gates are open as far as the counter goes |
| Player.MountPoint | Starship.rb:137 | the mount point is on the ship's axis, at `0.7 * length` rounded |
| Player.MountPointOfShip | Starship.rb:137 | for the 128-long ships the mount point is 90 ahead |
| Player.Starship.constructor | Starship.rb:90-99 | the player starts on the window's aim angle, in the middle of the world, drawn in the middle of the screen, at speed 5, with no ball |
| Player.Starship.AngleCalc | Starship.rb:101-110 | one turn step towards the aim with dead-band 2 and step 4; a heading in `[0, 360)` stays there |
| Player.AngleCalcIsSteerStep | Starship.rb:101-110 | when `angle_diff` returns the shortest whole-degree turn, the player's `angleCalc` is exactly one tick of `Steer`, so the convergence lemmas apply to it |
| Player.Starship.Move | Starship.rb:112-125 | the position is the wrap-and-revert step and the draw position the camera update |
| Player.Starship.Update | Starship.rb:133-143 | turn, move, then the trigger: holding it with an empty slot starts a ball; releasing it fires the ball; a ball that reaches full size fires itself; the balls in flight are then purged. Every ball already in flight moves once (`Flown`); a fired ball takes the ship's heading and twice its speed and moves once on this tick; a held ball grows by 0.2 and sits at its mount point |
| Player.Starship.Trigger | Starship.rb:136-142 | the trigger part of `update`, with the same cases and the same ball states |
| Player.Starship.Press | Starship.rb:136-139 | the button test: holding it with an empty slot puts a fresh charging ball of radius 10 at the mount point; releasing it with a ball fires that ball onto the end of the list with the ship's heading and twice its speed, not yet moved; otherwise slot and list are kept |
| Enemy.SteeredEngagement | Starship.rb:195-209 | in an enemy tick, engagement changes only on re-targeting ticks, and there it follows `findNewAngle`; a ship only becomes engaged below the cap and in range |
| Enemy.SteeredMotion | Starship.rb:169-186 | the heading changes by one step of at most 2 degrees (or wraps round 360) and stays in `[0, 360)`; the ship takes the wrap-and-revert step on the new heading and stays in the world |
| Enemy.SteeredHeading | Starship.rb:237-241 | after an edge stopped the step, the wanted heading is a fresh one in `[0, 360)`; otherwise fleeing overrides it, on a re-targeting tick with the player at 100 or more it is the one `findNewAngle` chose, and off re-targeting ticks it is kept |
| Enemy.Destination | Starship.rb:199 | the roaming point: the player's position plus the offset of the drawn heading and reach |
| Enemy.ReadyToShoot | Starship.rb:218-222 | `shoot?` for an enemy: `ShouldShoot` of its distance to the player and of `angle_diff` from its heading to the bearing of the player |
| Enemy.ReadyToCharge | Starship.rb:224-229 | `startCharging?` for an enemy, likewise with `ShouldCharge` |
| Enemy.Steered | Starship.rb:238-241 | the steering half of an enemy tick as a value: `findNewAngle` on re-targeting ticks, then `runAway`, `angleCalc` and `move`; `Enemy.SteeredEngagement`, `Enemy.SteeredMotion` and `Enemy.SteeredHeading` state its properties |
| Enemy.EnemyShip.constructor | Starship.rb:157-167 | a new enemy has heading 90, is drawn off screen, has counter 0 and no ball, and has made its first `findNewAngle` |
| Enemy.EnemyShip.FindNewAngle | Starship.rb:195-209 | the engagement flag and wanted heading become `Retarget` of the old ones |
| Enemy.EnemyShip.RunAway | Starship.rb:211-216 | the wanted heading becomes `Flee` of the old one |
| Enemy.EnemyShip.AngleCalc | Starship.rb:169-177 | one turn step towards the wanted heading with dead-band 1 and step 2 |
| Enemy.EnemyShip.Move | Starship.rb:179-193 | the wrap-and-revert step; when an axis reverted, the wanted heading becomes the bearing to the world's middle plus the jitter, in `[0, 360)`; otherwise it is kept |
| Enemy.EnemyShip.Update | Starship.rb:237-251 | the helm state becomes `Steered` of the old one; the counter goes up by exactly 1; a ball starts charging exactly when the slot is empty, the counter is a multiple of 30 and `startCharging?` holds; the slot's ball is fired on the `% 20` gate with `shoot?`, or at full size; the balls are purged; the draw position is camera-relative. Every ball already in flight moves once (`Flown`); a ball fired on this tick takes the ship's heading and twice its speed and moves once; a ball kept in the slot grows by 0.2 at its mount point |
| Enemy.EnemyShip.Pilot | Starship.rb:238-241 | the steering part of `update` gives `Steered` of the old helm state |
| Enemy.EnemyShip.Gunnery | Starship.rb:242-248 | the weapons part of `update`, with the same cases and ball states as `Update` |
| Enemy.EnemyShip.Gates | Starship.rb:242-245 | a ball starts exactly when the slot is empty on the `% 30` gate with `startCharging?`; one is fired exactly when there is a ball on the `% 20` gate with `shoot?`, which can be the ball started on the same tick; the fired ball takes the ship's heading and twice its speed, not yet moved, and a new ball sits at its mount point |
| World.CountEngaged | Starship.rb:59-61 | the number of engaged ships is at most the number of ships |
| World.CountExtremes | Starship.rb:59-61 | the count is 0 exactly when no flag holds, and the full length exactly when every flag holds |
| World.CountAlike | Starship.rb:59-61 | when every flag is the same, the count is all or nothing |
| World.CountMono | Starship.rb:59-61 | flags that hold only where other flags hold count no more |
| World.Fleet | Starship.rb:60 | the enemy loop as a value: every ship steers from its own state, and all of them read the same count and player position |
| World.FleetAtCap | Starship.rb:200-202 | at or above the cap no ship of the fleet becomes engaged, so the engaged count cannot grow |
| World.TickAtCap | Starship.rb:53-62 | for the fleet state `Window#update` leaves behind (its helm states are `Fleet` of the old ones): when last tick's count was at the cap, the new count is at most the number of ships engaged before the tick |
| World.FleetBetweenRetargets | Starship.rb:238 | off re-targeting ticks no ship engages or disengages |
| World.FleetPastCap | Starship.rb:59-61 | the cap is checked against last tick's count, so below it a whole fleet in range engages together on a common re-targeting tick, past the cap |
| World.AimRange | Starship.rb:55-57 | the rounded aim angle lies in `[0, 360]`, and is 360 exactly for bearings from 359.5 on |
| World.CountEngagedAlike | Starship.rb:46-51 | when every ship has the same engagement flag, the count is all of them or none |
| World.Window.constructor | Starship.rb:24-36 | half screen size, the 2560 by 1600 world, aim 0, count 0 with cap 3, the player in the middle, and ten enemies in the middle at speed 4, all engaged exactly when the middle counts as in range |
| World.Window.CreateEnemies | Starship.rb:46-51 | a new list of `n` fresh enemies in the middle of the world at speed 4 with counter 0, each engaged exactly when the player is in range |
| World.Window.Enlist | Starship.rb:49 | `<<` appends the new enemy, and its objects join the window's |
| World.Window.Update | Starship.rb:53-62 | the aim follows the mouse unless it is in the middle; the player turns and moves; the fleet's helm states become `Fleet` of the old ones with last tick's count and the player's new position; every counter goes up by 1; the count becomes the number of engaged ships |
| World.Window.Aim | Starship.rb:54-57 | the aim is the rounded bearing from the player's draw position to the mouse when the mouse is not in the middle of the screen, and unchanged otherwise |
| World.Window.Fly | Starship.rb:58 | the player's `update` as the window sees it: the heading takes one turn step towards the aim, the position the wrap-and-revert step, and the draw position the camera update |
| World.Window.UpdateShip | Starship.rb:58 | the player's ship turns, moves and updates its camera; no enemy changes |
| World.Window.UpdateEnemies | Starship.rb:59-61 | the fleet becomes `Fleet` of the old one, the counters tick, and the count is recomputed from the new flags |
| World.Window.RunEnemies | Starship.rb:59-60 | the loop gives every enemy its turn in order, and `count` is the number engaged at the end |
| World.Window.SetEngagedCount | Starship.rb:61 | the count is stored and no ship changes |
| World.Window.Finished | Starship.rb:60 | once every ship has had its turn, the fleet is `Fleet` of the old one and the flags are the ships' engagement flags |
| World.Window.Sortie | Starship.rb:60 | an enemy's `update` as the window sees it: its helm state becomes `Steered` of the old one and its counter goes up by 1 |
| World.Window.StepEnemy | Starship.rb:60 | one turn of the loop: the enemy updates, and the running count becomes the number of engaged flags seen so far, this ship's included |
| World.Window.UpdateEnemy | Starship.rb:60 | one ship takes its tick (`Steered`) and the other ships and the player are unchanged |

## Left out

- Rendering and the window itself are not modelled. This covers the images, `loadImages`, every `draw`, the background tiling, `button_down`, the caption and the main program (Starship.rb:28-30, 38-44, 64-85, 145-151, 253-259, 307-314).
- Gosu's trigonometry (`offset_x/y`, `angle`, `distance`, `angle_diff`) is floating point in a foreign library. It is an input of total functions, and every contract holds for whatever values they return. `Steering.CircDiff` gives the whole-degree meaning of `angle_diff`, which the convergence lemmas assume.
- `Random.rand` is replaced by the datatype `Dice`, one per enemy per tick, and the smartness arguments of the constructor. The contracts hold for any draws, so the ranges of `rand` (headings in `[0, 360)`, reach in `[-2000, 2000]`, jitter in `[-20, 20]`) are not a precondition.
- The mouse position, the left button and the screen size come from Gosu. They are inputs of `Update` and of the constructor.
- Floating point: positions, angles of flight and radii are exact reals. So `radius += 0.2` accumulates exactly, and no claim is made about the tick on which a real float run would reach 40.
- `smartness` is stored but never read by the game.
- Enemy.EnemyShip.constructor: requires that the player is out of range or that the count is below the cap. In the remaining case the original leaves the wanted heading `nil`. The first `update` has counter 0, so it runs `findNewAngle` again (Starship.rb:238), and `runAway` can also set the heading (Starship.rb:212-214). `angle_diff` on the `nil` heading (Starship.rb:170) raises only if both leave it unset: the player still in range, the count still at the cap, and the player not within 100. `createEnemies` never meets the excluded case, because the count is still 0.
- The back-references `@window` and `@ship` are not modelled. The values read through them are passed in. `PlasmaBall#update` calls its owner's `fire` at full size; here it returns `full` and the owner fires it straight after. Nothing reads the ball between those two steps, so the effect is the same.
- `Vector#==` and `dup` are datatype equality and value semantics.
- Steering.SteerHolds: like `Steer`, `SteerConverges` and `SteerSettles`, it is about turning towards a fixed whole-degree target, which is the player's aim while the mouse is still. It does not cover the enemy. The enemy turns towards `@newAngle`, a Float that re-targeting, fleeing and the edge re-aim rewrite between ticks (Starship.rb:188-191, 203, 213-214). For the enemy the model proves only the single step, in `Enemy.SteeredMotion`.
- World.Window.Update: states the steering, counters and engagement count of the enemies, the player's heading, position and camera, and the aim. It does not restate what happens to the plasma balls or to the enemies' draw positions: `World.Window.Fly` and `World.Window.Sortie` pass on only the ships' motion. `Player.Starship.Update` and `Enemy.EnemyShip.Update` state the balls (every ball in flight moves once; a fired ball takes its ship's heading and twice its speed; a held ball grows), and `Enemy.EnemyShip.Update` states the draw position.

## Behaviour of the code worth knowing

The model follows the code, including where it does something a reader of the game might not expect.

- The aim angle is not confined to `[0, 360)`. The code rounds Gosu's bearing, which lies in `[0, 360)`, so the aim is 360 for every bearing from 359.5 on (`World.AimRange`). The turn step treats 360 like 0, so the player's heading still stays in `[0, 360)`.
- The engagement cap of three can be exceeded. The enemies read the count of the previous tick, so every enemy in range can engage on the same re-targeting tick (`World.FleetPastCap`). At construction all ten enemies start at the player's position. When that distance counts as in range, all ten start engaged (`World.CountEngagedAlike`) while the stored count is still 0.
- The camera does not recentre the player away from the edges. The code only pins the draw position near an edge and otherwise keeps the previous value (`Steering.CameraAxis`). After the ship leaves an edge zone, the draw position stays where it was last pinned.
- A ship that would leave the world does not wrap round: the axis that would leave is reverted to its old value (`Steering.MoveWithin`).
- `Window#update` counts the engaged enemies within the loop. The model counts them in the same loop and stores the count after it, as the code does.
