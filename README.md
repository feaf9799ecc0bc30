# Shooter-mode game logic, modelled and proved in Dafny

This project models the game logic of the drone game's shooter mode and proves properties of that model. It is written in Dafny. It covers:

- the run/level state machine of the shooter scene;
- the 260-slot bullet pool with its collision loop;
- the seeded spawners for enemies, ammo crates and coins;
- the collect-once pickup lifecycle;
- both drone rigs' per-frame control step and the boss's pursuit step;
- the three input hooks;
- the two smoothing helpers.

Each core source file becomes one module:

| module | models |
|---|---|
| `ShooterScene` | `ShooterScene.tsx` |
| `BulletRules`, `BulletSystem` | `world/BulletSystem.tsx` |
| `Enemies` | `world/Enemies.tsx` |
| `AmmoPickups` | `world/AmmoPickups.tsx` |
| `Pickups` | `Pickups.tsx` |
| `Collectible` | the `AmmoBox`/`Coin` lifecycle |
| `ShooterDroneRig` | `drone/ShooterDroneRig.tsx` |
| `DroneRig` | `drone/DroneRig.tsx` |
| `BossDrone` | `BossDrone.tsx` |
| `ShooterInput` | `useShooterInput.ts` |
| `PlayerInput` | `usePlayerInput.ts` |
| `KeyboardInput` | `useKeyboardInput.ts` |
| `Smoothing` | `utils/smoothing.ts` |

Shared support modules:

- `Vectors`: value vectors.
- `Prng`: the 32-bit generators.
- `Contact`: the time debounce of every collision handler.
- `Flight`: the physics body both rigs drive.
- `Wrappers`: `Option`.

## How the model is built

Code that mutates state is modelled as classes whose methods change fields:

- React state and refs;
- the bullet array and enemy array, which are updated in place;
- the generator closures;
- the input hooks' refs;
- the physics body.

Each such method states its complete new state. It does so either field by field or against a function that gives the new state, for example `Pool.SpawnBullet` against `BulletRules.Spawn` and `Pool.UpdateBullets` against `BulletRules.UpdateUpTo`.

Properties are then proved about those functions:

- the bullet update loop keeps a kill-accounting invariant;
- a slot scan always finds a free slot when one exists;
- every spawned batch has the right size, ids and value ranges;
- input edges are seen exactly once.

Loops that build lists are proved equal to recursive specification functions. These loops are the enemy, crate and coin generation, the slot scan and the target scan.

How the model differs from the source's runtime:

- **Callbacks.** A call such as `onHitPlayer` or `onCollect` becomes a returned count or an `Option` result.
- **Time and the browser.** Time, `Math.random`, `sin`, the gamepad snapshot and normalised directions are parameters.
- **React updates.** All of the scene's React state updates take effect immediately.
- **Numbers.** Arithmetic is on exact reals, except the generators, which work on 32-bit bit-vectors.
- **Generator counter.** The JavaScript counter stays an integer-valued double that never reaches 2^53, so its 32-bit view is the `bv32` counter.

Three behaviours of the code that a reader might not expect:

- **Hits during the level-up countdown.** `onHit` checks only `status`, not `levelCleared` (`ShooterScene.tsx:181`). So hits during the 1.2 s level-up countdown still land and can lose the run (`ShooterScene.LostDuringCountdown`). When the timeout then fires, it overwrites `lost` with `playing` at the next level, or with `won` at level 8. This is the handler's own behaviour. In the mounted scene nothing sends a hit during the countdown: while `levelCleared` holds, the bullet system and the rig are disabled (`ShooterScene.tsx:609`, `:624`), and the drone is frozen at (0, 2, 0) away from the obstacles (`:626`). No mounted body carries the `danger-ground` tag.
- **Level 8.** It needs 12 kills, but only 10 enemies spawn per run id, and kills come only from the bullet system killing a living enemy (`ShooterScene.KillsRequiredVersusEnemies` with `BulletRules.UpdateUpToSound`). So `won` is not reachable through play. The intended fix is not evident from the code, so the model keeps the table as written.
- **The boss.** It is not mounted by the shooter scene. Its `runId` prop is never used because the respawn hook's body is empty.

## Model

| member | source | states |
|---|---|---|
| `Smoothing.MoveTowardsReachesTarget` | src/utils/smoothing.ts:1-4 | With a non-negative step, `moveTowards` lands on the target exactly when the target is within `maxDelta`. |
| `Smoothing.MoveTowards` | src/utils/smoothing.ts:1-4 | A target within `maxDelta` is returned as is. With a non-negative step the value moves by at most `maxDelta`. |
| `Smoothing.MoveTowardsNoOvershoot` | src/utils/smoothing.ts:1-4 | The result lies between current and target. It moves by at most `maxDelta`, and by exactly `maxDelta` when out of reach. The remaining gap is the old gap minus the step, floored at 0. |
| `Smoothing.Clamp` | src/utils/smoothing.ts:6-8 | The result is inside `[min, max]` when `min <= max`. A value already inside is unchanged. When `min > max` the outer `Math.max` makes `min` win. |
| `Smoothing.ClampIdempotent` | src/utils/smoothing.ts:6-8 | Clamping twice gives the same result as clamping once. |
| `Smoothing.ClampMonotone` | src/utils/smoothing.ts:6-8 | Clamping preserves order. |
| `Prng.Unit` | src/canvas/shooter/world/Enemies.tsx:97 | An unsigned 32-bit output divided by 2^32 lies in [0, 1). |
| `Prng.Mix` | src/canvas/shooter/world/Enemies.tsx:95-97 | The three `Math.imul`/xor-shift mixing rounds on the 32-bit counter, shared by both generators. `Math.imul` is wrap-around multiplication in `bv32`. |
| `Prng.MulberryDraw` | src/canvas/shooter/world/Enemies.tsx:92-99 | Every output of `mulberry32` lies in [0, 1). |
| `Prng.SeededDraw` | src/canvas/shooter/world/AmmoPickups.tsx:22-30 | Every output of `seededRandom` lies in [0, 1). |
| `Prng.MulberryDrawIsAdvance` | src/canvas/shooter/world/Enemies.tsx:92-99 | The k-th output mixes the seed after k+1 increments of 0x6d2b79f5: the counter is bumped before mixing. |
| `Prng.SeededDrawIsAdvance` | src/canvas/shooter/world/AmmoPickups.tsx:22-30 | The k-th output of `seededRandom` mixes the seed after k+2 increments. It runs one increment ahead of `mulberry32` on the same seed. |
| `Prng.Mulberry32.constructor` | src/canvas/shooter/world/Enemies.tsx:92 | The closure starts with its counter at the seed and no draws taken. |
| `Prng.Mulberry32.Next` | src/canvas/shooter/world/Enemies.tsx:93-98 | Each call returns the next value of the stream `MulberryDraw(seed, calls)` and advances the draw count by one. |
| `Prng.SeededRandom.constructor` | src/canvas/shooter/world/AmmoPickups.tsx:23 | The counter starts one increment past the seed, with no draws taken. |
| `Prng.SeededRandom.Next` | src/canvas/shooter/world/AmmoPickups.tsx:24-29 | Each call returns the next value of the stream `SeededDraw(seed, calls)` and advances the draw count by one. |
| `Enemies.EnemyCount` | src/canvas/shooter/world/Enemies.tsx:38 | Levels 1 to 7 spawn `level + 2` enemies and level 8 spawns 10. |
| `Enemies.EnemySeed` | src/canvas/shooter/world/Enemies.tsx:32 | The seed is `2000 + runId*333 + level*17`. Its 32-bit view seeds `mulberry32`. |
| `Enemies.EnemyList` | src/canvas/shooter/world/Enemies.tsx:34-56 | Enemy i is built from draws 4i to 4i+3 of the run's stream, for `EnemyCount(level)` enemies. Its shape is proved by `Enemies.EnemyListShape`. |
| `Enemies.EnemyListShape` | src/canvas/shooter/world/Enemies.tsx:32-55 | Each batch has the level's count, ids equal to indices, every enemy alive with 1 hp, x in [-13, 13), y in [2.2, 6.7), z in (-98, -18] and fire cooldown in [0.7, 1.3). |
| `Enemies.FirstEnemyOfFirstRun` | src/canvas/shooter/world/Enemies.tsx:32-42 | Run 0 at level 1 has seed 2017. The first output of that seed is 0xc5b69175/2^32, and it fixes the first enemy's x. |
| `Enemies.SpawnEnemies` | src/canvas/shooter/world/Enemies.tsx:34-56 | The spawn loop, taking four draws per enemy, builds exactly `EnemyList(runId, level)`. The same run and level always give the same enemies. |
| `AmmoPickups.AmmoCount` | src/canvas/shooter/world/AmmoPickups.tsx:112-124 | Every level has between 3 and 6 crates. |
| `AmmoPickups.AmmoCountMonotone` | src/canvas/shooter/world/AmmoPickups.tsx:112-124 | A later level never has fewer crates. |
| `AmmoPickups.AmmoSeed` | src/canvas/shooter/world/AmmoPickups.tsx:127 | The seed is `5000 + runId*777 + level*91`. |
| `AmmoPickups.Amount` | src/canvas/shooter/world/AmmoPickups.tsx:135 | `12 + floor(r * 10)`. Its range is proved by `AmmoPickups.AmountRange`. |
| `AmmoPickups.AmmoList` | src/canvas/shooter/world/AmmoPickups.tsx:126-145 | Crate i is built from draws 5i to 5i+4 of the run's stream, for `AmmoCount(level)` crates. Its shape is proved by `AmmoPickups.AmmoListShape`. |
| `AmmoPickups.AmountRange` | src/canvas/shooter/world/AmmoPickups.tsx:135 | `12 + floor(r * 10)` for a draw in [0, 1) is an integer from 12 to 21. |
| `AmmoPickups.AmmoListShape` | src/canvas/shooter/world/AmmoPickups.tsx:126-145 | Each batch has `countByLevel[level]` crates with ids 0 to count-1. x is in [-12, 12), y in [1.2, 4.4), z in (-86, -8], phase in [0, 10) and amount from 12 to 21. |
| `AmmoPickups.SpawnAmmo` | src/canvas/shooter/world/AmmoPickups.tsx:126-145 | The memoised loop builds exactly `AmmoList(runId, level)` from seed `5000 + runId*777 + level*91`. |
| `AmmoPickups.NextCrate` | src/canvas/shooter/world/AmmoPickups.tsx:131-143 | One loop pass takes five draws in the order x, z, y, amount, phase, and yields crate i. |
| `Pickups.HeightBands` | src/canvas/Pickups.tsx:121-125 | A band draw below 0.35 gives a height in [1.1, 1.9). Below 0.75 it gives [2.4, 4.4). Otherwise it gives [5, 9). |
| `Pickups.Height` | src/canvas/Pickups.tsx:121-125 | A height in the band picked by the first draw, placed within the band by the second. Its bands are proved by `Pickups.HeightBands`. |
| `Pickups.CoinList` | src/canvas/Pickups.tsx:111-134 | Coin i is built from its draws of the seed `9001 + runId*999 + level*77`, for `max(0, count)` coins. Its shape is proved by `Pickups.CoinListShape`. |
| `Pickups.CoinListShape` | src/canvas/Pickups.tsx:111-134 | A batch has `max(0, count)` coins with ids equal to indices, x in [-13, 13), z in (-86, -6], height in [1.1, 9) and phase in [0, 10). |
| `Pickups.SpawnCoins` | src/canvas/Pickups.tsx:112-134 | The memoised loop, which draws the height inside the chosen band's branch, builds exactly `CoinList(runId, level, count)`. |
| `Pickups.SpawnDefaultCoins` | src/canvas/Pickups.tsx:111 | The default props (level 1, count 10, run 0) give ten coins. |
| `Collectible.Pickup.constructor` | src/canvas/shooter/world/AmmoPickups.tsx:54-62 | A new pickup sits at its base, alive, with no collection queued and its last-collect time at 0. |
| `Collectible.Pickup.OnCollisionEnter` | src/canvas/shooter/world/AmmoPickups.tsx:95-104 | Only a live pickup touched by `drone` reacts, and only 0.25 s or more after the last accepted contact. It then queues a collection and records the time. Anything else leaves it unchanged. |
| `Collectible.Pickup.Frame` | src/canvas/shooter/world/AmmoPickups.tsx:64-84 | A queued collection hands the payload over once and kills the pickup. A live pickup keeps x and z, stops, and bobs within 0.15 of its base height. A dead one is untouched. |
| `Collectible.CollectOnce` | src/canvas/shooter/world/AmmoPickups.tsx:64-104 | Two quick contacts and later frames yield the payload exactly once, after which the pickup is gone. `Coin` in src/canvas/Pickups.tsx:63-104 runs the same code with no payload. |
| `Contact.Cooldown.constructor` | src/canvas/shooter/drone/ShooterDroneRig.tsx:47-48 | The last accepted contact starts at time 0, and the cooldown period is fixed. |
| `Contact.Cooldown.Try` | src/canvas/shooter/drone/ShooterDroneRig.tsx:274-276 | A contact is accepted if and only if it is not less than the cooldown after the last accepted one. Only an accepted contact moves the timestamp. |
| `Contact.HazardScenario` | src/canvas/shooter/drone/ShooterDroneRig.tsx:271-280 | Contacts at 1.0, 1.5 and 1.7 s against the 0.6 s cooldown are accepted, rejected and accepted. |
| `Contact.EarlyContactIgnored` | src/canvas/BossDrone.tsx:66-75 | Because the timestamp starts at 0, a boss contact at 0.5 s is ignored. |
| `KeyboardInput.KeyDown` | src/input/useKeyboardInput.ts:25-40 | A repeat changes nothing. A mapped key (R, F, W, S, A or D) sets exactly its flag, and every other flag is kept. |
| `KeyboardInput.KeyUp` | src/input/useKeyboardInput.ts:42-56 | A mapped key clears exactly its flag, and every other flag is kept. |
| `KeyboardInput.PressThenRelease` | src/input/useKeyboardInput.ts:25-56 | A keydown followed by a keyup of the same key leaves the same state as the keyup alone. |
| `KeyboardInput.KeyboardInput.constructor` | src/input/useKeyboardInput.ts:12-22 | All six flags start released. |
| `KeyboardInput.KeyboardInput.OnKeyDown` | src/input/useKeyboardInput.ts:25-40 | The ref is updated in place to `KeyDown` of its old value. |
| `KeyboardInput.KeyboardInput.OnKeyUp` | src/input/useKeyboardInput.ts:42-56 | The ref is updated in place to `KeyUp` of its old value. |
| `PlayerInput.KeyDown` | src/input/usePlayerInput.ts:36-50 | A repeat changes nothing. A mapped key sets exactly its flag, and both Shift keys map to boost. |
| `PlayerInput.KeyUp` | src/input/usePlayerInput.ts:52-65 | A mapped key clears exactly its flag. |
| `PlayerInput.ShiftKeysShareOneFlag` | src/input/usePlayerInput.ts:45-62 | Left and right Shift press the same flag, and releasing either one releases boost. |
| `PlayerInput.Deadzone` | src/input/usePlayerInput.ts:14 | The result is 0 or the input. The input passes through if and only if its magnitude is at least 0.12 (or it is 0). |
| `PlayerInput.KeyAxis` | src/input/usePlayerInput.ts:81-83 | The result is in -1..1. It is +1 if and only if only the positive key is held, and -1 if and only if only the negative key is held. |
| `PlayerInput.ReadPad` | src/input/usePlayerInput.ts:85-112 | No pad contributes zeros. The pad's lift is the trigger difference clamped to [-1, 1]. |
| `PlayerInput.UseGamepad` | src/input/usePlayerInput.ts:116 | The pad is used if and only if the absolute values of its x, z and lift sum to more than 0.001. Boost plays no part. |
| `PlayerInput.Read` | src/input/usePlayerInput.ts:77-122 | moveX, moveZ and lift always lie in [-1, 1]. |
| `PlayerInput.SelectionRule` | src/input/usePlayerInput.ts:116-121 | For every pad and every keyboard state: when `UseGamepad` fails the output equals the keyboard-only output. When it holds, the keys make no difference to any of the four outputs. |
| `PlayerInput.NoPadMeansKeyboard` | src/input/usePlayerInput.ts:114-121 | Without a pad the output is the keyboard's: right-left, down-up, R-F and Shift. |
| `PlayerInput.IdlePadMeansKeyboard` | src/input/usePlayerInput.ts:116-121 | A pad with its sticks in the dead zone and its triggers balanced leaves the keyboard in charge, whatever its buttons say. |
| `PlayerInput.ActivePadWins` | src/input/usePlayerInput.ts:94-121 | A stick pushed past the dead zone makes the pad decide all four outputs, with the stick and trigger values passed through. |
| `PlayerInput.PlayerInputHook.constructor` | src/input/usePlayerInput.ts:17-33 | No key is held and the output is zero. |
| `PlayerInput.PlayerInputHook.OnKeyDown` | src/input/usePlayerInput.ts:36-50 | The key flags become `KeyDown` of their old value, and the output is untouched. |
| `PlayerInput.PlayerInputHook.OnKeyUp` | src/input/usePlayerInput.ts:52-65 | The key flags become `KeyUp` of their old value, and the output is untouched. |
| `PlayerInput.PlayerInputHook.ReadFrame` | src/input/usePlayerInput.ts:77-122 | `read()` writes `Read(keys, pad)` into the output object and leaves the key flags alone. |
| `ShooterInput.KeyDown` | src/canvas/shooter/useShooterInput.ts:71-83 | A repeat changes nothing. Space sets the hold, and raises a fire edge only if fire was not already held. X raises the toggle edge and R raises the reload edge. |
| `ShooterInput.KeyUp` | src/canvas/shooter/useShooterInput.ts:85-91 | Only Space matters: it releases the hold and leaves the pending edges alone. |
| `ShooterInput.Read` | src/canvas/shooter/useShooterInput.ts:38-65 | The output is the hold and edges from before the read. The toggle and reload edges are cleared. A new fire edge exists if and only if R1 is pressed while fire was not held. After the read, fire is held if it was held before or R1 is pressed. |
| `ShooterInput.EdgeSeenOnce` | src/canvas/shooter/useShooterInput.ts:38-83 | One X or R keydown is reported by the next read and by no later read. |
| `ShooterInput.SpaceEdgeNeedsRelease` | src/canvas/shooter/useShooterInput.ts:76-79 | Space from released gives one fire edge. Pressing Space again while it is still held gives none. |
| `ShooterInput.R1IsSticky` | src/canvas/shooter/useShooterInput.ts:55-64 | Once R1 has been seen, fire stays held through every later read. Only a Space keyup releases it. |
| `ShooterInput.R1SeenNextFrame` | src/canvas/shooter/useShooterInput.ts:40-64 | R1 pressed from released is reported as held and pressed on the following read, not the current one. |
| `ShooterInput.ShooterInputHook.constructor` | src/canvas/shooter/useShooterInput.ts:19-37 | No edges, no hold, an all-false output and no last key. |
| `ShooterInput.ShooterInputHook.OnKeyDown` | src/canvas/shooter/useShooterInput.ts:71-83 | The refs become `KeyDown` of their old value. `lastKey` records every non-repeat keydown. |
| `ShooterInput.ShooterInputHook.OnKeyUp` | src/canvas/shooter/useShooterInput.ts:85-91 | The refs become `KeyUp` of their old value, and `lastKey` records the key. |
| `ShooterInput.ShooterInputHook.ReadFrame` | src/canvas/shooter/useShooterInput.ts:38-65 | `__read` writes `Read(...).out` and leaves the refs at `Read(...).next`. |
| `Flight.Body.constructor` | src/canvas/shooter/drone/ShooterDroneRig.tsx:261-264 | The body starts at the given position with the given mass, at rest and upright. |
| `Flight.Body.ToSpawn` | src/canvas/shooter/drone/ShooterDroneRig.tsx:77-80 | A reset puts the body at (0, 2, 0), at rest, with the identity rotation. |
| `Flight.Body.GroundClamp` | src/canvas/shooter/drone/ShooterDroneRig.tsx:106-116 | The position becomes `ClampPos`, the velocity becomes `ClampVel`, and nothing else changes. |
| `Flight.Body.AddForce` | src/canvas/shooter/drone/ShooterDroneRig.tsx:204 | The force accumulates. Position and velocity are unchanged within the frame. |
| `Flight.ClampPos` | src/canvas/shooter/drone/ShooterDroneRig.tsx:112-113 | After the clamp y is at least 0.21, x and z are kept, and a drone above the ground is untouched. |
| `Flight.ClampVel` | src/canvas/shooter/drone/ShooterDroneRig.tsx:114-115 | At the ground a downward vertical velocity becomes exactly 0, and a non-negative one is kept. x and z are always kept. Above the ground nothing changes. |
| `Flight.ControlForce` | src/canvas/shooter/drone/ShooterDroneRig.tsx:196-203 | One axis of the controller, `m * (target - v) * gain`. Its sign is proved by `Flight.ControlForceSign`. |
| `Flight.ControlForceSign` | src/canvas/shooter/drone/ShooterDroneRig.tsx:199-203 | With positive mass and gain, the force points toward the target velocity and vanishes if and only if the target is reached. |
| `ShooterDroneRig.VyTarget` | src/canvas/shooter/drone/ShooterDroneRig.tsx:157-166 | For lift in [-1, 1] the target is in [-2.6, 3.2]. It is positive if and only if lift > 0.05. It is negative if and only if lift < -0.05 and the drone is off the ground. |
| `ShooterDroneRig.HorizontalTarget` | src/canvas/shooter/drone/ShooterDroneRig.tsx:171-197 | Sticks at rest ask for zero. Otherwise the target speed per axis is at most 4.2 with boost and 3.0 without. |
| `ShooterDroneRig.Thrust` | src/canvas/shooter/drone/ShooterDroneRig.tsx:157-204 | The force of one frame: `ControlForce` toward `HorizontalTarget` with gain 2.2 on x and z, and toward `VyTarget` with gain 3.5 on y. |
| `ShooterDroneRig.ThrustVanishesAtTarget` | src/canvas/shooter/drone/ShooterDroneRig.tsx:196-204 | A drone already at its target velocity gets zero force. |
| `ShooterDroneRig.WindStrength` | src/canvas/shooter/drone/ShooterDroneRig.tsx:207-210 | There is no wind below level 2, and the strength is never above 0.28. |
| `ShooterDroneRig.WindClamp` | src/canvas/shooter/drone/ShooterDroneRig.tsx:218-227 | Under wind, vx and vz are capped at 3.0 (level 2 and below) or 3.4, and vy is kept. Without wind, or within the cap, nothing changes. |
| `ShooterDroneRig.Damped` | src/canvas/shooter/drone/ShooterDroneRig.tsx:143-145 | The auto-level damping keeps the yaw spin. It never increases the x or z spin, and leaves a zero spin at zero. |
| `ShooterDroneRig.Rig.constructor` | src/canvas/shooter/drone/ShooterDroneRig.tsx:45-48 | The body starts at (0, 1, 0) with mass 1. The last reset seen is the prop, and the hit debounce is 0.6 s. |
| `ShooterDroneRig.Rig.Frame` | src/canvas/shooter/drone/ShooterDroneRig.tsx:66-228 | A pending reset is applied. A freeze then parks the drone at spawn, and disabled stops the frame. Otherwise the pose read before the clamp is reported and the ground clamp applied. When not in free look, a needed auto-level rotation is applied and the x and z spin damped by 0.92. The thrust is added, plus the wind force and the wind cap from level 2. |
| `ShooterDroneRig.Rig.OnCollisionEnter` | src/canvas/shooter/drone/ShooterDroneRig.tsx:271-280 | A hit is reported if and only if the other body is `danger-ground` or `obstacle` and the 0.6 s debounce accepts it. |
| `ShooterDroneRig.PoseIsReadBeforeClamp` | src/canvas/shooter/drone/ShooterDroneRig.tsx:94-116 | A drone sunk to y = 0.1 reports 0.1 to `onPose`, and only then is lifted to 0.21 with its fall stopped. |
| `DroneRig.VyTarget` | src/drone/DroneRig.tsx:74-84 | The target is 3.2 if and only if only up is held. It is -2.6 if and only if down is held off the ground. It is 0 otherwise, so down overrides up. |
| `DroneRig.HorizontalTargets` | src/drone/DroneRig.tsx:91-98 | WASD asks for -3, 0 or 3 on each horizontal axis. |
| `DroneRig.Thrust` | src/drone/DroneRig.tsx:74-104 | The force of one frame: `ControlForce` toward `VyTarget` with gain 3.5 on y, and toward 3 times each WASD axis with gain 2.2 on x and z. |
| `DroneRig.VelocityCap` | src/drone/DroneRig.tsx:106-114 | The velocity ends within 5 horizontally and 4 vertically, and one already inside is kept. |
| `DroneRig.Rig.constructor` | src/drone/DroneRig.tsx:26-30 | The body starts at (0, 1, 0) with mass 1, and the hit debounce is 0.6 s. |
| `DroneRig.Rig.Frame` | src/drone/DroneRig.tsx:36-115 | A pending reset is applied, and disabled stops the frame. Otherwise the ground clamp is applied, the keyboard thrust added (using the y read before the clamp), and the velocity capped. |
| `DroneRig.Rig.OnCollisionEnter` | src/drone/DroneRig.tsx:137-148 | A hit is reported if and only if the other body is `danger-ground` or `obstacle` and the 0.6 s debounce accepts it. |
| `BossDrone.Desired` | src/canvas/BossDrone.tsx:38 | The chase point has the target's x and lies 4.5 behind it. Its height is 0.6 above the target but never below 1.8. |
| `BossDrone.Speed` | src/canvas/BossDrone.tsx:45-47 | Speed is in [3, 5.6]. It is 3 within distance 6 and 5.6 from distance 19 on. |
| `BossDrone.SpeedMonotone` | src/canvas/BossDrone.tsx:45-47 | A farther boss never chases slower. |
| `BossDrone.StepLength` | src/canvas/BossDrone.tsx:50 | The step is the whole distance or one frame's worth of speed, whichever is smaller. |
| `BossDrone.StepLengthNonNegative` | src/canvas/BossDrone.tsx:50 | The step is never negative. |
| `BossDrone.Next` | src/canvas/BossDrone.tsx:40-51 | The position moved by `StepLength` along the direction to the chase point. A zero distance keeps the boss in place. Its geometry is proved by `BossDrone.NextOnSegment`. |
| `BossDrone.NextOnSegment` | src/canvas/BossDrone.tsx:40-51 | The move lies on the segment to the chase point. The boss covers exactly the step, has `dist - step` left, never passes the point, and moves at most speed times dt. |
| `BossDrone.NextArrives` | src/canvas/BossDrone.tsx:50-51 | When the chase point is within one frame's reach, the boss lands on it exactly. |
| `BossDrone.Boss.constructor` | src/canvas/BossDrone.tsx:13-26 | The boss spawns at (0, 6, -45) with a 0.8 s contact debounce, whatever the run id. |
| `BossDrone.Boss.Frame` | src/canvas/BossDrone.tsx:29-57 | The new position is `Next(pos, Desired(target), dist, dt)`. |
| `BossDrone.Boss.OnCollisionEnter` | src/canvas/BossDrone.tsx:66-75 | Only the drone counts, and at most once per 0.8 s. |
| `BulletRules.DifficultyMonotone` | src/canvas/shooter/world/BulletSystem.tsx:64-65 | A harder level fires at least as often, with bullets at least as fast. |
| `BulletRules.FireRate` | src/canvas/shooter/world/BulletSystem.tsx:64 | Seconds between enemy shots: from 1.1 s on levels 1-2 down to 0.55 s on levels 7-8. |
| `BulletRules.EnemyBulletSpeed` | src/canvas/shooter/world/BulletSystem.tsx:65 | Enemy bullet speed: from 10 on levels 1-3 up to 14 on levels 7-8. |
| `BulletRules.FreeOffset` | src/canvas/shooter/world/BulletSystem.tsx:88-92 | The scan stops at the first inactive slot from the cursor, wrapping around. Every slot it passes is active. |
| `BulletRules.SlotChoice` | src/canvas/shooter/world/BulletSystem.tsx:84-94 | If any slot is free, the chosen slot is free. If every slot is active, the cursor's slot is overwritten. |
| `BulletRules.Fired` | src/canvas/shooter/world/BulletSystem.tsx:94-99 | The new bullet is active, of the requested kind, at the origin, moves along `dir` scaled by `speed`, and lives 1.4 s (player) or 2.0 s (enemy). |
| `BulletRules.Spawn` | src/canvas/shooter/world/BulletSystem.tsx:84-102 | Only the chosen slot changes. The cursor moves one past it, modulo 260, and the timers are kept. |
| `BulletRules.SpawnAddsOne` | src/canvas/shooter/world/BulletSystem.tsx:84-102 | A spawn into a pool with a free slot adds exactly one active bullet. |
| `BulletRules.Cooldowns` | src/canvas/shooter/world/BulletSystem.tsx:140-142 | Re-seeded timers are the enemies' fire cooldowns, one per enemy. |
| `BulletRules.FireOne` | src/canvas/shooter/world/BulletSystem.tsx:146-158 | Enemy i's turn changes no other enemy's timer. |
| `BulletRules.FireUpTo` | src/canvas/shooter/world/BulletSystem.tsx:146-159 | The loop over the first n enemies leaves the later timers alone. |
| `BulletRules.FireTimers` | src/canvas/shooter/world/BulletSystem.tsx:146-158 | After the loop a dead enemy's timer is unchanged. An alive enemy's timer becomes its old value minus dt while that stays positive. Otherwise it becomes a fresh `rate + jitter` in [rate, rate + 0.15). Either way it ends positive. |
| `BulletRules.FireOneSpawns` | src/canvas/shooter/world/BulletSystem.tsx:146-158 | An alive enemy whose timer expires, with a free slot available, adds exactly one active bullet. In every other case the pool and cursor are untouched. |
| `BulletRules.FirstHit` | src/canvas/shooter/world/BulletSystem.tsx:198-202 | The result is the first alive enemy within 0.70 of the bullet, or none, and no earlier enemy qualifies. |
| `BulletRules.Damaged` | src/canvas/shooter/world/BulletSystem.tsx:210-215 | A hit takes one hp. An alive enemy dies if and only if its hp was 1 or less. |
| `BulletRules.Retired` | src/canvas/shooter/world/BulletSystem.tsx:173-175 | A retired bullet is inactive and parked at (0, -9999, 0). |
| `BulletRules.OutOfBounds` | src/canvas/shooter/world/BulletSystem.tsx:183 | A bullet leaves the arena below y = -2, above y = 60, or outside z in [-240, 40]. |
| `BulletRules.UpdateOne` | src/canvas/shooter/world/BulletSystem.tsx:168-227 | One slot's update keeps the pool and enemy list lengths. Its collision rule is stated by `BulletRules.UpdateOneSlot` and its accounting by `BulletRules.UpdateOneSound`. |
| `BulletRules.UpdateUpTo` | src/canvas/shooter/world/BulletSystem.tsx:162-228 | The loop over the first n slots keeps both lengths. Its accounting is proved by `BulletRules.UpdateUpToSound`. |
| `BulletRules.UpdateOneSound` | src/canvas/shooter/world/BulletSystem.tsx:168-227 | One bullet's update obeys several rules. Kills equal the drop in living enemies. A dead enemy is never touched. Each kill comes with a hit, and each hit spends an active bullet. An idle slot is unchanged. |
| `BulletRules.UpdateUpToSound` | src/canvas/shooter/world/BulletSystem.tsx:162-228 | The whole update loop keeps the same accounting as one bullet's update. |
| `BulletRules.Advanced` | src/canvas/shooter/world/BulletSystem.tsx:170-180 | A surviving bullet has dt less to live and has moved by its velocity times dt. Kind, velocity and the active flag are kept. |
| `BulletRules.UpdateOneSlot` | src/canvas/shooter/world/BulletSystem.tsx:168-227 | Bullet i's turn changes only slot i and at most one enemy, and an idle slot changes nothing. An active bullet whose time runs out or that leaves the arena is retired and parked, with no enemy touched. Any bullet that stops flying is parked. A bullet still flying is the advanced one, with time left, inside the arena. For a bullet that survives the move, an enemy shot counts a player hit if and only if it is within 0.55 of the player, and leaves the enemies alone. A player shot whose `FirstHit` finds enemy j is retired, applies `Damaged` to exactly enemy j, and adds one enemy hit. A player shot that hits nothing keeps flying as the advanced bullet, and changes no enemy and no count. |
| `BulletRules.UpdateUpToSlots` | src/canvas/shooter/world/BulletSystem.tsx:162-228 | After the loop over the first n slots, later slots are untouched. Every bullet still flying is its old self advanced by one frame, with time left, inside the arena. Every bullet that stopped flying is parked. |
| `BulletSystem.PlayerMuzzle` | src/canvas/shooter/world/BulletSystem.tsx:130-131 | A player bullet starts 0.9 along forward and 0.15 higher. |
| `BulletSystem.EnemyFirePhase` | src/canvas/shooter/world/BulletSystem.tsx:139-160 | With enemies present, the timers end with one entry per enemy: a mismatched list is re-seeded before the loop. |
| `BulletSystem.Pool.constructor` | src/canvas/shooter/world/BulletSystem.tsx:69-82 | 260 idle slots parked at (0, -9999, 0), the cursor at 0 and no timers. |
| `BulletSystem.Pool.SetProps` | src/canvas/shooter/world/BulletSystem.tsx:69-107 | A new run gives a fresh idle pool and cursor 0. A new run or level clears the timers. Otherwise everything is kept. |
| `BulletSystem.Pool.SpawnBullet` | src/canvas/shooter/world/BulletSystem.tsx:84-102 | The in-place scan and write give exactly `Spawn` of the old pool, cursor and timers. |
| `BulletSystem.Pool.PlayerFire` | src/canvas/shooter/world/BulletSystem.tsx:124-136 | Ammo is consumed and a bullet fired if and only if fire was pressed this frame and ammo is positive. |
| `BulletSystem.Pool.EnemyFire` | src/canvas/shooter/world/BulletSystem.tsx:138-160 | The in-place fire loop gives exactly `EnemyFirePhase` of the old state. |
| `BulletSystem.Pool.FireStep` | src/canvas/shooter/world/BulletSystem.tsx:147-158 | One enemy's turn gives exactly `FireOne` of the old state. |
| `BulletSystem.Pool.FindTarget` | src/canvas/shooter/world/BulletSystem.tsx:198-202 | The inner scan returns `FirstHit`. |
| `BulletSystem.Pool.UpdateBullets` | src/canvas/shooter/world/BulletSystem.tsx:162-228 | The in-place update of bullets and enemies, with its callback counts, equals `UpdateUpTo` over all 260 slots. |
| `BulletSystem.Pool.Frame` | src/canvas/shooter/world/BulletSystem.tsx:115-228 | The input edges are always consumed. When disabled, nothing else changes and no callback fires. Otherwise the frame runs player fire, then enemy fire, then the update, in that order. |
| `BulletSystem.FirstShot` | src/canvas/shooter/world/BulletSystem.tsx:84-102 | The first player shot into a fresh pool lands in slot 0 with a 1.4 s life, and the cursor moves to 1. |
| `ShooterScene.KillsRequired` | src/canvas/shooter/ShooterScene.tsx:128-131 | Levels 1 to 7 need `level + 2` kills and level 8 needs 12. |
| `ShooterScene.KillsRequiredVersusEnemies` | src/canvas/shooter/ShooterScene.tsx:128-131 | Levels 1 to 7 need exactly as many kills as they spawn enemies. Level 8 needs more than its 10. |
| `ShooterScene.Successor` | src/canvas/shooter/ShooterScene.tsx:243 | The next level is `level + 1`, capped at 8. |
| `ShooterScene.Scene.Disabled` | src/canvas/shooter/ShooterScene.tsx:609 | Under the scene invariant, an enabled drone has hit points left, no pending level-up and a started run. |
| `ShooterScene.Scene.Frozen` | src/canvas/shooter/ShooterScene.tsx:626 | A frozen drone is always also disabled. |
| `ShooterScene.Scene.constructor` | src/canvas/shooter/ShooterScene.tsx:115-131 | Initial state: 5 hits, playing, not started, level 1, 30 ammo, 0 kills, next level 2, chase camera, no timer. |
| `ShooterScene.Scene.Restart` | src/canvas/shooter/ShooterScene.tsx:159-178 | Cancels the timer and resets to 5 hits, playing, started, level 1, 30 ammo, 0 kills, baseline 0, not cleared, next 2 and chase. The reset signal goes up by one. |
| `ShooterScene.Scene.OnHit` | src/canvas/shooter/ShooterScene.tsx:180-189 | Outside `playing` nothing changes. While playing one hit point is lost, and the run is lost if and only if none remain. |
| `ShooterScene.Scene.OnAmmoCollect` | src/canvas/shooter/ShooterScene.tsx:191-193 | Below the cap, ammo grows by exactly the amount. A sum of 999 or more gives exactly 999. Nothing else changes. |
| `ShooterScene.Scene.ConsumeAmmo` | src/canvas/shooter/ShooterScene.tsx:615 | One round is spent, never going below 0. |
| `ShooterScene.Scene.OnEnemyKilled` | src/canvas/shooter/ShooterScene.tsx:195-197 | The kill counter goes up by one. |
| `ShooterScene.Scene.OnEnter` | src/canvas/shooter/ShooterScene.tsx:219-230 | Enter restarts if and only if the run has not started or is lost or won. Otherwise nothing changes. |
| `ShooterScene.Scene.ToggleCockpit` | src/canvas/shooter/ShooterScene.tsx:202-217 | A non-repeat X flips the camera if and only if the run is started, playing and not cleared. Otherwise nothing changes. |
| `ShooterScene.Scene.CheckLevelUp` | src/canvas/shooter/ShooterScene.tsx:232-245 | With the run started and playing, not cleared, no timer, and the level's kills reached, it marks the level cleared, sets the next level and arms the timer, capturing the level, the target and the kills. Otherwise nothing changes. |
| `ShooterScene.Scene.LevelUpTimerFires` | src/canvas/shooter/ShooterScene.tsx:246-264 | At level 8 the run is won. Otherwise play moves to level + 1 with 5 hits, playing, a new reset signal, the captured kills as baseline and ammo at least 20. Both branches clear the timer and the cleared flag. |
| `ShooterScene.FiveHitsLose` | src/canvas/shooter/ShooterScene.tsx:180-189 | After four hits one point is left and play continues. The fifth hit loses, and a sixth changes nothing. |
| `ShooterScene.ClearFirstLevel` | src/canvas/shooter/ShooterScene.tsx:232-264 | Two kills do not clear level 1 and three do. The timeout then starts level 2 with reset signal 2, baseline 3 and ammo 30. |
| `ShooterScene.LostDuringCountdown` | src/canvas/shooter/ShooterScene.tsx:180-264 | Five hits during the countdown lose the run, but the timeout still starts level 2 as playing with 5 hits. |
| `ShooterScene.CockpitAndEnterKeys` | src/canvas/shooter/ShooterScene.tsx:202-230 | X does nothing before the start, toggles once started, ignores repeats and is locked during the countdown. Enter during play does nothing. |

## Left out

- `BossDrone.Boss.Frame`: takes the distance `dir.length()` as a parameter, constrained by `dist * dist == DistSq`, because square roots are not modelled. Normalising a zero vector is modelled as no move.
- `ShooterDroneRig.Rig.Frame`: the following are parameters rather than computed:
  - the auto-level correction (acos/exp quaternion math, lines 131-152);
  - the normalised move direction (camera or body axes, lines 178-194);
  - the wind gust force (sines of `performance.now()`, lines 213-216).

  The yaw branch (lines 118-129) is absent because `usePlayerInput` never produces a `yaw`. The cockpit and chase camera is not modelled.
- `DroneRig.Rig.Frame`: the camera follow (lines 116-124) is not modelled.
- `Collectible.Pickup.Frame`: the React `alive` state and `aliveRef` are merged into one field, because the one-render lag of the state is presentation. The spin counter is visual and omitted.
- `ShooterScene.Scene.OnHit`: React batching is not modelled. Every handler takes effect immediately. Closures that read `status` from an earlier render are not modelled either.
- The scene's timer cleanup on unmount (`ShooterScene.tsx:267-270`): unmounting is not modelled.
- The C (free look) and V (assist mode) toggles: camera presentation only.
- The hit-marker and hit-flash timeouts, the HUD, the Moon and the visuals tables, and the instanced-mesh update (`BulletSystem.tsx:236-300`): presentation only.
- The enemy re-render bump and the explosion callback: rendering only.
- The gamepad snapshot (`navigator.getGamepads`), `performance.now()`, the frame clock, `Math.random` and `sin` values: these arrive as parameters.
- Floating point: all non-generator arithmetic is on exact reals. Rounding, NaN and infinities are not modelled.
- Rapier's integration of forces, damping and collisions: the model accumulates forces but does not integrate them.
- `Obstacles` (it ignores its props), `Clouds`, `App`, `Scene`, `ShooterMode` and the unused `world/useShooterInput.ts` copy are not part of this model.
