# Game rules of Plunge Protocol: Galactic Flushdown

A Dafny model of the gameplay scripts of this Unity first-person shooter, with proofs about them:

- the player controller (`FirstPersonController`): zoom, sprint stamina and cooldown, jump, crouch, ground probe, head-bob phase, camera look and the physics step;
- the poop monster's AI (`PoopMonsterAI`) and its attack coroutine;
- the whirlpool projectile (`TPWhirlpoolProjectile`) and its spawner;
- the three weapons (`GunShooter`, `WaterGun`, `PlungerAttack`) and the `WeaponManager` that switches between the water gun and the plunger;
- the impact latches of `Bullet` and `PoopProjectile`.

Each script is modelled in two layers:

- **Value layer.** A datatype snapshot of the script's fields and step functions over it. Their contracts state what each operation promises. A trace function (`Run`) composes the steps. Lemmas over traces prove the invariants and the multi-step properties.
- **Class layer.** A class with the script's own fields. Its methods follow the C# statements in order. Each method's `ensures` ties the new fields to the value-layer step of the old ones.

Engine facts are parameters of the step that reads them:

- `Time.time` and `Time.deltaTime`;
- key and button states;
- the smoothed axes;
- ray hits;
- whether a spawned prefab has a `Rigidbody`;
- the rigidbody's velocity;
- the world-space move direction;
- the cosine and sine of the whirlpool angle.

Effects on the engine are recorded in the state:

- forces handed to a rigidbody;
- spawned objects;
- scheduled destructions;
- animator flags;
- sounds played.

Floats are modelled as `real`.

Modules:

| file | module | source |
|---|---|---|
| unity.dfy | `Unity` | Mathf.Clamp, Clamp01, Abs, Lerp, Repeat and LerpAngle, as the engine defines them |
| sequences.dfy | `Sequences` | one sequence lemma the trace proofs share |
| fire_gate.dfy | `FireGate` | the time gate of GunShooter and WaterGun |
| first_person_controller.dfy | `FirstPerson` | FirstPersonController.cs |
| monster_ai.dfy | `MonsterAI` | PoopMonsterAI.cs |
| whirlpool.dfy | `Whirlpool` | TPAttack.cs and TPWhirlpoolSpawner.cs |
| gun_shooter.dfy | `GunShooting` | GunShooter.cs |
| water_gun.dfy | `WaterGunning` | WaterGun.cs |
| plunger_attack.dfy | `PlungerFiring` | PlungerAttack.cs |
| weapon_manager.dfy | `Weapons` | WeaponManager.cs |
| bullet.dfy | `Bullets` | Bullet.cs |
| poop_projectile.dfy | `PoopProjectiles` | poopDestroy.cs |

## How the player controller is split

The controller's Update and FixedUpdate update many fields, so they are split into methods, one per region of the script. Examples: `ZoomKeys`, `SprintTick`, `JumpKey`, `CrouchKeys`, `Settle`, `SprintBranch`, `WalkBranch`. Helpers group these regions. Each region method states its fields' new values as the value-layer function of that region.

The methods are a proof structure: they run the script's statements in the script's order.

Two lemmas turn the field-by-field contracts of `Update` and `FixedUpdate` back into the whole-state step functions `FrameStep` and `PhysicsStep`:

- `FrameStepByRegions`;
- `PhysicsStepByParts`.

## Behaviour the model reproduces as written

- **Sprint drain is not clamped.** A long frame takes `sprintRemaining` below zero (`DrainOvershoots`).
- **walkSpeed drifts.** In hold-to-crouch mode, sprinting while crouched stands the player up through `Crouch()`. Releasing the key then calls `Crouch()` again as "stand up", which divides walkSpeed once more. With the default settings walkSpeed doubles (`HoldCrouchSprintDrift`).
- **GunShooter retries a throwing shot.** A missing prefab or fire point makes `Shoot` throw before `nextShootTime` is written, so every held frame tries again (`ThrowingShotRetries`).
- **WaterGun can leave a bullet in the scene for good.** A bullet without a rigidbody is spawned unlaunched and is never scheduled for destruction (`LaunchedIffRigidbody`).
- **A missing plunger slot stalls the rotation** (`MissingSlotStalls`).
- **A missing whirlpool prefab or fire point makes every click throw.** `currentTP` stays empty, so each later click tries again (`TPWhirlpoolSpawner.Update`).
- **PoopProjectile can latch without being destroyed.** With an impact effect set and a collision with no contacts, it latches, throws, and is never destroyed (`FirstCollisionDecides`).
- **Unity's null test counts destroyed objects.** A destroyed object compares equal to null, so the spawner's `currentTP == null` is read as "null or destroyed".

## Model

| member | source | states |
|---|---|---|
| Unity.Clamp | Assets/ModularFirstPersonController/FirstPersonController/FirstPersonController.cs:471-472 | the result lies in [lo, hi], equals v inside the range, and is always v, lo or hi |
| Unity.Abs | Assets/ModularFirstPersonController/FirstPersonController/FirstPersonController.cs:454 | non-negative and equal to x or -x |
| Unity.Clamp01 | Assets/ModularFirstPersonController/FirstPersonController/FirstPersonController.cs:391 | result in [0, 1], identity inside it |
| Unity.Lerp | Assets/ModularFirstPersonController/FirstPersonController/FirstPersonController.cs:391 | t ≤ 0 gives a, t ≥ 1 gives b, and the result always lies between a and b |
| Unity.Repeat | Assets/ModularFirstPersonController/FirstPersonController/FirstPersonController.cs:422-423 | the wrapped value lies in [0, length] and differs from t by whole lengths |
| Unity.LerpAngle | Assets/ModularFirstPersonController/FirstPersonController/FirstPersonController.cs:422-423 | defined through Repeat on the difference of the angles; what it promises is stated by LerpAngleProperties |
| Unity.LerpAngleProperties | Assets/ModularFirstPersonController/FirstPersonController/FirstPersonController.cs:422-423 | LerpAngle moves by at most 180°, stays at a for t ≤ 0, and lands on b up to whole turns for t ≥ 1 |
| FirstPerson.Awake | Assets/ModularFirstPersonController/FirstPersonController/FirstPersonController.cs:164-196 | both FOVs start at fov, targets equal the current yaw and pitch; full stamina and the cooldown reset are copied unless sprint is unlimited; nothing is sprinting, grounded or walking |
| FirstPerson.ZoomStep | Assets/ModularFirstPersonController/FirstPersonController/FirstPersonController.cs:263-295 | toggle mode flips the zoom on a press and hold mode follows the key, except while sprinting; a zoomed lens targets zoomFOV, and an unzoomed lens targets fov when not sprinting |
| FirstPerson.DrainStep | Assets/ModularFirstPersonController/FirstPersonController/FirstPersonController.cs:303-323 | sprinting drains by dt with no clamp and starts the cooldown at ≤ 0; otherwise stamina regains by dt, clamped to [0, sprintDuration] |
| FirstPerson.CooldownStep | Assets/ModularFirstPersonController/FirstPersonController/FirstPersonController.cs:327-338 | in cooldown the counter runs down and ends at ≤ 0; outside it the counter is reset to sprintCooldownReset |
| FirstPerson.SprintLens | Assets/ModularFirstPersonController/FirstPersonController/FirstPersonController.cs:303-306 | sprinting cancels the zoom and targets sprintFOV; otherwise the lens is unchanged |
| FirstPerson.SprintStamina | Assets/ModularFirstPersonController/FirstPersonController/FirstPersonController.cs:301-338 | with sprint disabled nothing changes; sprinting can only stop here, never start |
| FirstPerson.CrouchStep | Assets/ModularFirstPersonController/FirstPersonController/FirstPersonController.cs:557-577 | flips the crouch flag, sets the matching scale, and multiplies or divides walkSpeed by speedReduction |
| FirstPerson.CrouchTwiceRestores | Assets/ModularFirstPersonController/FirstPersonController/FirstPersonController.cs:557-577 | two Crouch() calls restore walkSpeed and the flag, and the whole posture when the scale matched |
| FirstPerson.CrouchKeysStep | Assets/ModularFirstPersonController/FirstPersonController/FirstPersonController.cs:362-379 | toggle mode crouches on a press; hold mode forces a crouch on press and a stand on release |
| FirstPerson.JumpForces | Assets/ModularFirstPersonController/FirstPersonController/FirstPersonController.cs:544-548 | one upward impulse of jumpPower exactly when grounded |
| FirstPerson.JumpPosture | Assets/ModularFirstPersonController/FirstPersonController/FirstPersonController.cs:551-554 | in toggle mode a crouched body stands up; otherwise the posture is unchanged |
| FirstPerson.BobRateOrder | Assets/ModularFirstPersonController/FirstPersonController/FirstPersonController.cs:582-598 | the sprint rate wins over crouching, and crouched ≤ walking ≤ sprinting |
| FirstPerson.BobTimer | Assets/ModularFirstPersonController/FirstPersonController/FirstPersonController.cs:580-619 | not walking resets the timer to 0; walking with non-negative dt and rate never decreases it |
| FirstPerson.BobRate | Assets/ModularFirstPersonController/FirstPersonController/FirstPersonController.cs:582-598 | the timer rate: bobSpeed + sprintSpeed when sprinting, bobSpeed times speedReduction when crouched, bobSpeed otherwise; its ordering is stated by BobRateOrder |
| FirstPerson.FrameStep | Assets/ModularFirstPersonController/FirstPersonController/FirstPersonController.cs:247-393 | one Update: inputs recorded, grounded iff some ray hits, a jump impulse exactly when the jump fires, sprint never starts in Update, camera and walking flag untouched |
| FirstPerson.FrameStepByRegions | Assets/ModularFirstPersonController/FirstPersonController/FirstPersonController.cs:247-393 | the region-by-region result of Update is the whole-frame step |
| FirstPerson.FovApproaches | Assets/ModularFirstPersonController/FirstPersonController/FirstPersonController.cs:391 | each frame the shown FOV moves from its old value towards the target without overshooting, and reaches it at fraction ≥ 1 |
| FirstPerson.LookStep | Assets/ModularFirstPersonController/FirstPersonController/FirstPersonController.cs:396-441 | yaw target gains mouse x times sensitivity; pitch target moves by the signed mouse y and stays in [-maxLookAngle, maxLookAngle]; current angles jump to the targets, or LerpAngle towards them when smoothing |
| FirstPerson.Correction | Assets/ModularFirstPersonController/FirstPersonController/FirstPersonController.cs:469-473 | the horizontal velocity change is clamped to ±maxVelocityChange per axis, exact inside the bound, and has no vertical part |
| FirstPerson.PhysicsStep | Assets/ModularFirstPersonController/FirstPersonController/FirstPersonController.cs:443-517 | only the walking flag, the sprint flag, the posture and the force log change; one velocity change is logged per step; sprinting starts only through the sprint gate with a significant change, which also stands a crouched body up |
| FirstPerson.SprintGate | Assets/ModularFirstPersonController/FirstPersonController/FirstPersonController.cs:464 | the sprint branch is taken iff sprint is enabled, the key is held, stamina is left and no cooldown runs; PhysicsStep states what each side of it does |
| FirstPerson.Walking | Assets/ModularFirstPersonController/FirstPersonController/FirstPersonController.cs:454-461 | walking iff a movement axis exceeds 0.1 in magnitude while grounded; PhysicsStep sets isWalking to it |
| FirstPerson.DriveStep | Assets/ModularFirstPersonController/FirstPersonController/FirstPersonController.cs:464-513 | one velocity change is logged; with the gate closed sprinting is off and the posture kept; with it open a significant change sets sprinting and stands a crouched body up, and a small one leaves both as they were |
| FirstPerson.PhysicsStepByParts | Assets/ModularFirstPersonController/FirstPersonController/FirstPersonController.cs:443-517 | FixedUpdate's field-by-field result is the whole physics step |
| FirstPerson.AwakeEstablishesInv | Assets/ModularFirstPersonController/FirstPersonController/FirstPersonController.cs:164-196 | the state after Awake satisfies the controller invariant |
| FirstPerson.CrouchKeepsInv | Assets/ModularFirstPersonController/FirstPersonController/FirstPersonController.cs:557-577 | Crouch() keeps the scale matching the flag, and walkSpeed matching it in toggle mode |
| FirstPerson.SprintKeepsInv | Assets/ModularFirstPersonController/FirstPersonController/FirstPersonController.cs:301-338 | the sprint region keeps stamina ≤ sprintDuration, sprinting implies stamina left, and the cooldown consistent |
| FirstPerson.CrouchKeysKeepInv | Assets/ModularFirstPersonController/FirstPersonController/FirstPersonController.cs:362-379 | the crouch-key region keeps the posture invariant |
| FirstPerson.FrameParts | Assets/ModularFirstPersonController/FirstPersonController/FirstPersonController.cs:301-379 | a frame's stamina and posture are those of the sprint, jump and crouch-key regions |
| FirstPerson.FrameKeepsInv | Assets/ModularFirstPersonController/FirstPersonController/FirstPersonController.cs:247-393 | Update keeps the invariant for non-negative dt |
| FirstPerson.PhysicsKeepsInv | Assets/ModularFirstPersonController/FirstPersonController/FirstPersonController.cs:443-517 | FixedUpdate keeps the invariant |
| FirstPerson.StepKeepsInv | Assets/ModularFirstPersonController/FirstPersonController/FirstPersonController.cs:247-517 | any of Update, LateUpdate and FixedUpdate keeps the invariant |
| FirstPerson.RunKeepsInv | Assets/ModularFirstPersonController/FirstPersonController/FirstPersonController.cs:247-517 | every trace of frames with non-negative deltas keeps the invariant |
| FirstPerson.RunKeepsPitch | Assets/ModularFirstPersonController/FirstPersonController/FirstPersonController.cs:415 | the target pitch stays in [-maxLookAngle, maxLookAngle] over any trace |
| FirstPerson.DrainOvershoots | Assets/ModularFirstPersonController/FirstPersonController/FirstPersonController.cs:311-322 | a 0.05 s frame with 0.01 s of stamina left ends at -0.04, and the next regeneration only returns it to 0.01 |
| FirstPerson.HoldFramePosture | Assets/ModularFirstPersonController/FirstPersonController/FirstPersonController.cs:350-379 | in hold mode a frame's posture is the crouch-key region's alone |
| FirstPerson.HoldCrouchSprintDrift | Assets/ModularFirstPersonController/FirstPersonController/FirstPersonController.cs:369-378 | press, sprinting physics step, release in hold mode leaves the player standing with walkSpeed equal to the original divided by speedReduction; with the defaults, twice the original |
| FirstPerson.FirstPersonController.constructor | Assets/ModularFirstPersonController/FirstPersonController/FirstPersonController.cs:164-196 | the fields are those of Awake |
| FirstPerson.FirstPersonController.Update | Assets/ModularFirstPersonController/FirstPersonController/FirstPersonController.cs:247-393 | the new inputs, lens, stamina, posture, forces, grounded flag and timer are those of the region functions |
| FirstPerson.FirstPersonController.ReadAndHandle | Assets/ModularFirstPersonController/FirstPersonController/FirstPersonController.cs:249-379 | inputs read, then the zoom, sprint, jump and crouch regions |
| FirstPerson.FirstPersonController.ReadInput | Assets/ModularFirstPersonController/FirstPersonController/FirstPersonController.cs:249-259 | the smoothed axes and the jump key are stored |
| FirstPerson.FirstPersonController.HandleKeys | Assets/ModularFirstPersonController/FirstPersonController/FirstPersonController.cs:263-379 | the zoom, sprint, jump and crouch regions in order |
| FirstPerson.FirstPersonController.ZoomAndSprint | Assets/ModularFirstPersonController/FirstPersonController/FirstPersonController.cs:263-346 | the lens is SprintLens after ZoomStep, and the stamina is SprintStamina |
| FirstPerson.FirstPersonController.ZoomKeys | Assets/ModularFirstPersonController/FirstPersonController/FirstPersonController.cs:263-295 | the lens is ZoomStep's |
| FirstPerson.FirstPersonController.SprintTick | Assets/ModularFirstPersonController/FirstPersonController/FirstPersonController.cs:301-346 | the lens and stamina are SprintLens's and SprintStamina's |
| FirstPerson.FirstPersonController.JumpAndCrouch | Assets/ModularFirstPersonController/FirstPersonController/FirstPersonController.cs:353-379 | the jump region, then the crouch-key region |
| FirstPerson.FirstPersonController.JumpKey | Assets/ModularFirstPersonController/FirstPersonController/FirstPersonController.cs:353-356 | Jump() exactly when enabled, pressed and grounded |
| FirstPerson.FirstPersonController.CrouchKeys | Assets/ModularFirstPersonController/FirstPersonController/FirstPersonController.cs:362-379 | the posture is CrouchKeysStep's |
| FirstPerson.FirstPersonController.Settle | Assets/ModularFirstPersonController/FirstPersonController/FirstPersonController.cs:383-392 | ground probe, head bob, and the FOV lerp |
| FirstPerson.FirstPersonController.LateUpdate | Assets/ModularFirstPersonController/FirstPersonController/FirstPersonController.cs:396-441 | the camera is LookStep's |
| FirstPerson.FirstPersonController.FixedUpdate | Assets/ModularFirstPersonController/FirstPersonController/FirstPersonController.cs:443-517 | nothing changes without playerCanMove; otherwise the walking rule, then the sprint or walk branch |
| FirstPerson.FirstPersonController.SetWalking | Assets/ModularFirstPersonController/FirstPersonController/FirstPersonController.cs:450-461 | walking iff a smoothed axis exceeds 0.1 in magnitude while grounded |
| FirstPerson.FirstPersonController.Drive | Assets/ModularFirstPersonController/FirstPersonController/FirstPersonController.cs:464-513 | the sprint branch when the gate is open, the walk branch otherwise |
| FirstPerson.FirstPersonController.SprintBranch | Assets/ModularFirstPersonController/FirstPersonController/FirstPersonController.cs:464-492 | clamped change towards the sprint velocity; a significant change sets sprinting and stands a crouched body up |
| FirstPerson.FirstPersonController.WalkBranch | Assets/ModularFirstPersonController/FirstPersonController/FirstPersonController.cs:494-513 | sprinting off, clamped change towards the walk velocity |
| FirstPerson.FirstPersonController.CheckGround | Assets/ModularFirstPersonController/FirstPersonController/FirstPersonController.cs:520-539 | grounded iff any of the three rays hits |
| FirstPerson.FirstPersonController.Jump | Assets/ModularFirstPersonController/FirstPersonController/FirstPersonController.cs:541-555 | one jump impulse when it was grounded, not grounded afterwards, and the posture is JumpPosture's |
| FirstPerson.FirstPersonController.Crouch | Assets/ModularFirstPersonController/FirstPersonController/FirstPersonController.cs:557-577 | the posture is CrouchStep's |
| FirstPerson.FirstPersonController.HeadBob | Assets/ModularFirstPersonController/FirstPersonController/FirstPersonController.cs:580-619 | the timer is BobTimer's |
| MonsterAI.Decide | Assets/PoopMonsterAI.cs:55-69 | attack iff within both detectionRadius and attackRange, chase iff between attackRange and detectionRadius, idle iff beyond detectionRadius |
| MonsterAI.ChaseStep | Assets/PoopMonsterAI.cs:74-81 | on the NavMesh: heads for the player, chase on, attack off; otherwise nothing |
| MonsterAI.IdleStep | Assets/PoopMonsterAI.cs:83-90 | on the NavMesh: holds position, chase and attack off; otherwise nothing |
| MonsterAI.AttackStart | Assets/PoopMonsterAI.cs:104-114 | latch set, holds position, attack on, chase off, wind-up of 0.3 s pending |
| MonsterAI.UpdateStep | Assets/PoopMonsterAI.cs:41-72 | no-op without player or animator; during an attack only holds position; otherwise the decided branch, and the speed parameter is set |
| MonsterAI.AdvanceStep | Assets/PoopMonsterAI.cs:114-130 | waits count down; after the wind-up one projectile when both references are set (pushed iff it has a rigidbody), then 1.2 s of recovery; after that the latch and the attack bool clear |
| MonsterAI.StartEstablishesInv | Assets/PoopMonsterAI.cs:22 | the initial state satisfies the attack invariant |
| MonsterAI.StepKeepsInv | Assets/PoopMonsterAI.cs:41-131 | frames and forward resumptions keep it: latched iff the coroutine runs, attack on and chase off for the whole attack |
| MonsterAI.RunKeepsInv | Assets/PoopMonsterAI.cs:41-131 | every trace keeps the invariant, so no second attack starts while one runs |
| MonsterAI.NoShotsWithoutPrefab | Assets/PoopMonsterAI.cs:116 | without the prefab or the fire point no trace spawns a projectile |
| MonsterAI.ShotsOnlyGrow | Assets/PoopMonsterAI.cs:116-125 | spawned projectiles are only appended |
| MonsterAI.AttackCompletes | Assets/PoopMonsterAI.cs:104-131 | an attack resumed after its two waits fires exactly one projectile (given both references) and ends at rest |
| MonsterAI.PoopMonsterAI.constructor | Assets/PoopMonsterAI.cs:24-39 | stoppingDistance is attackRange - 0.1 and the state is the initial one |
| MonsterAI.PoopMonsterAI.Update | Assets/PoopMonsterAI.cs:41-72 | the state is UpdateStep's |
| MonsterAI.PoopMonsterAI.ChasePlayer | Assets/PoopMonsterAI.cs:74-81 | the state is ChaseStep's |
| MonsterAI.PoopMonsterAI.Idle | Assets/PoopMonsterAI.cs:83-90 | the state is IdleStep's |
| MonsterAI.PoopMonsterAI.AttackPlayer | Assets/PoopMonsterAI.cs:104-114 | the state is AttackStart's |
| MonsterAI.PoopMonsterAI.Advance | Assets/PoopMonsterAI.cs:114-130 | the state is AdvanceStep's |
| Whirlpool.Appended | Assets/MayurStuff/Scripts/TPAttack.cs:47-50 | the point goes at the end, and the oldest point is dropped only when over the maximum; the trail stays within a positive maximum |
| Whirlpool.SpiralPosition | Assets/MayurStuff/Scripts/TPAttack.cs:36-41 | the spiral keeps the height of the origin |
| Whirlpool.AtSpawn | Assets/MayurStuff/Scripts/TPAttack.cs:20-28 | the trail holds just the spawn position and both timers are 0 |
| Whirlpool.ProjectileStep | Assets/MayurStuff/Scripts/TPAttack.cs:30-62 | both timers advance by dt; the position is the spiral point at the new elapsed time; when the tail timer reaches the interval it resets, that position is appended and positionCount follows the trail; destroyed once the lifetime is exceeded |
| Whirlpool.TailBounded | Assets/MayurStuff/Scripts/TPAttack.cs:47-52 | with room for one point, the trail stays non-empty and within maxTailPoints over any run |
| Whirlpool.LastN | Assets/MayurStuff/Scripts/TPAttack.cs:49-50 | the last n elements have length min(n, size) |
| Whirlpool.AppendedIsLastN | Assets/MayurStuff/Scripts/TPAttack.cs:47-50 | one append is the last maxTailPoints points of the longer list |
| Whirlpool.LastNOfLastN | Assets/MayurStuff/Scripts/TPAttack.cs:49-50 | trimming before appending more does not change the last n |
| Whirlpool.StepTail | Assets/MayurStuff/Scripts/TPAttack.cs:44-54 | one frame keeps the last maxTailPoints of the trail plus what it records |
| Whirlpool.TailIsLastRecorded | Assets/MayurStuff/Scripts/TPAttack.cs:44-54 | after any run the trail is exactly the last maxTailPoints of the old trail followed by every recorded position |
| Whirlpool.ExpiryIsFinal | Assets/MayurStuff/Scripts/TPAttack.cs:57-61 | once destroyed, the projectile stays destroyed in the model's traces |
| Whirlpool.TPWhirlpoolSpawner.constructor | Assets/MayurStuff/Scripts/TPWhirlpoolSpawner.cs:5-8 | the scene references are recorded, there is no current projectile, and the spawner invariant holds |
| Whirlpool.TPWhirlpoolSpawner.Update | Assets/MayurStuff/Scripts/TPWhirlpoolSpawner.cs:10-18 | a click with no live current projectile throws iff the prefab or the fire point is missing, leaving everything as it was; it spawns exactly when both are set, the new one starting at the fire point with all older ones destroyed |
| Whirlpool.TPWhirlpoolSpawner.ClearTP | Assets/MayurStuff/Scripts/TPWhirlpoolSpawner.cs:20-23 | the current projectile is cleared |
| Whirlpool.TPWhirlpoolProjectile.constructor | Assets/MayurStuff/Scripts/TPAttack.cs:20-28 | the fields are AtSpawn's |
| Whirlpool.TPWhirlpoolProjectile.Update | Assets/MayurStuff/Scripts/TPAttack.cs:30-62 | the fields are ProjectileStep's; on expiry the spawner is cleared, and the spawner invariant is kept |
| Whirlpool.TPWhirlpoolProjectile.Advance | Assets/MayurStuff/Scripts/TPAttack.cs:32-54 | timers, position and trail are ProjectileStep's |
| Whirlpool.AtMostOneAlive | Assets/MayurStuff/Scripts/TPWhirlpoolSpawner.cs:12 | under the spawner invariant at most one spawned projectile is alive |
| FireGate.SpacedAppend | Assets/Scenes/PlayerControllerFromScratch/Assets/GunShooter.cs:23-26 | an entry one gap after the latest keeps a list of times spaced |
| FireGate.SpacedSpread | Assets/MayurStuff/Scripts/WaterGun.cs:14-17 | entries k places apart are at least k gaps apart |
| FireGate.Ready | Assets/Scenes/PlayerControllerFromScratch/Assets/GunShooter.cs:23 | the gate of both guns (also WaterGun.cs:14): the button is held and Time.time has reached the next allowed time; UpdateStep of each gun states both sides of it |
| FireGate.Times | Assets/Scenes/PlayerControllerFromScratch/Assets/GunShooter.cs:33 | the spawn time of each bullet, one per bullet, in order; GunShooter and WaterGun use it for their spacing invariants |
| GunShooting.Initial | Assets/Scenes/PlayerControllerFromScratch/Assets/GunShooter.cs:19 | nextShootTime starts at 0 |
| GunShooting.ShootStep | Assets/Scenes/PlayerControllerFromScratch/Assets/GunShooter.cs:30-52 | throws iff the prefab or fire point is missing; otherwise one bullet, pushed iff it has a rigidbody; a sound iff source and clip are set; the flag raised and a reset 0.17 s later iff an animator is present |
| GunShooting.UpdateStep | Assets/Scenes/PlayerControllerFromScratch/Assets/GunShooter.cs:21-28 | nothing unless Fire1 is held and the time has come; a throwing shot changes nothing; a completed one sets nextShootTime to time + cooldown; a bullet appears iff the gate is open and the references are set |
| GunShooting.FrameStep | Assets/Scenes/PlayerControllerFromScratch/Assets/GunShooter.cs:21-61 | a frame is Update followed by the reset coroutines that fall due at that time; StepKeepsInv, StepKeepsFlagInv and FlagNeedsAnimator state what it keeps |
| GunShooting.Later | Assets/Scenes/PlayerControllerFromScratch/Assets/GunShooter.cs:56 | keeps exactly the pending resets not yet due: each due time occurs in the result as often as in the input if it is later than the current time, and not at all otherwise |
| GunShooting.LaterKeepsAll | Assets/Scenes/PlayerControllerFromScratch/Assets/GunShooter.cs:56 | when no reset is due, every pending reset stays, in order |
| GunShooting.ResumeStep | Assets/Scenes/PlayerControllerFromScratch/Assets/GunShooter.cs:54-61 | due resets end; the flag is lowered when one is due and the animator is present, and is unchanged otherwise; nothing else changes |
| GunShooting.InitialInv | Assets/Scenes/PlayerControllerFromScratch/Assets/GunShooter.cs:19 | the initial state satisfies the spacing invariant |
| GunShooting.StepKeepsInv | Assets/Scenes/PlayerControllerFromScratch/Assets/GunShooter.cs:21-28 | a frame keeps the shots spaced and the latest one a cooldown before the next allowed time |
| GunShooting.RunKeepsInv | Assets/Scenes/PlayerControllerFromScratch/Assets/GunShooter.cs:21-28 | every trace keeps the spacing invariant |
| GunShooting.ShotsSpaced | Assets/Scenes/PlayerControllerFromScratch/Assets/GunShooter.cs:23-26 | from the start, successive shots are at least shootCooldown apart, whatever the order of the frame times |
| GunShooting.FirstPressFires | Assets/Scenes/PlayerControllerFromScratch/Assets/GunShooter.cs:19-26 | with the references set, the first press at any time ≥ 0 fires |
| GunShooting.ThrowingShotRetries | Assets/Scenes/PlayerControllerFromScratch/Assets/GunShooter.cs:25-26 | a throwing shot changes neither nextShootTime nor the bullets |
| GunShooting.FlagNeedsAnimator | Assets/Scenes/PlayerControllerFromScratch/Assets/GunShooter.cs:47-51 | a frame without an animator never raises a lowered flag |
| GunShooting.FlagNeverRaised | Assets/Scenes/PlayerControllerFromScratch/Assets/GunShooter.cs:47-51 | over any run in which the animator is missing, a lowered flag is never raised |
| GunShooting.StepKeepsFlagInv | Assets/Scenes/PlayerControllerFromScratch/Assets/GunShooter.cs:47-60 | while the animator stays, a raised flag always has a reset pending |
| GunShooting.GunShooter.constructor | Assets/Scenes/PlayerControllerFromScratch/Assets/GunShooter.cs:19 | the fields are Initial's |
| GunShooting.GunShooter.Update | Assets/Scenes/PlayerControllerFromScratch/Assets/GunShooter.cs:21-28 | the fields are UpdateStep's |
| GunShooting.GunShooter.Shoot | Assets/Scenes/PlayerControllerFromScratch/Assets/GunShooter.cs:30-52 | completes iff ShootStep fires, with its state; a throw leaves the fields as they were |
| GunShooting.GunShooter.ResumeResets | Assets/Scenes/PlayerControllerFromScratch/Assets/GunShooter.cs:54-61 | the fields are ResumeStep's |
| WaterGunning.Initial | Assets/MayurStuff/Scripts/WaterGun.cs:10 | nextFireTime starts at 0 |
| WaterGunning.FireOutcome | Assets/MayurStuff/Scripts/WaterGun.cs:21-41 | the three exits: missing reference, missing rigidbody, launched, each with its exact condition |
| WaterGunning.FireStep | Assets/MayurStuff/Scripts/WaterGun.cs:21-41 | no bullet with a reference missing; otherwise one bullet, launched and due for destruction iff it has a rigidbody |
| WaterGunning.UpdateStep | Assets/MayurStuff/Scripts/WaterGun.cs:12-19 | nothing unless the button is held and the time has come; then an attempt, with nextFireTime at time + fireRate however Fire ends; a bullet iff the references are set |
| WaterGunning.InitialInv | Assets/MayurStuff/Scripts/WaterGun.cs:10 | the initial state satisfies the spacing invariant, for any fireRate |
| WaterGunning.StepKeepsInv | Assets/MayurStuff/Scripts/WaterGun.cs:12-19 | a frame keeps attempts and bullets spaced by fireRate |
| WaterGunning.RunKeepsInv | Assets/MayurStuff/Scripts/WaterGun.cs:12-19 | every trace keeps the spacing invariant |
| WaterGunning.AttemptsSpaced | Assets/MayurStuff/Scripts/WaterGun.cs:14-17 | from the start, attempts, including those that spawn nothing, are at least fireRate apart; bullets are too when fireRate is not negative |
| WaterGunning.NoBulletsWithoutReferences | Assets/MayurStuff/Scripts/WaterGun.cs:23-27 | with the prefab or fire point missing no trace spawns a bullet |
| WaterGunning.LaunchedIffRigidbody | Assets/MayurStuff/Scripts/WaterGun.cs:29-40 | earlier bullets are kept, and every new bullet is launched and due for destruction iff the prefab has a rigidbody |
| WaterGunning.WaterGun.constructor | Assets/MayurStuff/Scripts/WaterGun.cs:10 | the fields are Initial's |
| WaterGunning.WaterGun.Update | Assets/MayurStuff/Scripts/WaterGun.cs:12-19 | the fields are UpdateStep's |
| WaterGunning.WaterGun.Fire | Assets/MayurStuff/Scripts/WaterGun.cs:21-41 | the fields are FireStep's |
| PlungerFiring.Initial | Assets/MayurStuff/Scripts/PlungerAttack.cs:12 | plungerIndex starts at 0 |
| PlungerFiring.SlotOf | Assets/MayurStuff/Scripts/PlungerAttack.cs:46-55 | 0, 1, 2 map to top, right, left; anything else falls back to top |
| PlungerFiring.CanFire | Assets/MayurStuff/Scripts/PlungerAttack.cs:24-30 | a click fires iff the current slot's transform and the prefab are assigned; FireStep and MissingSlotStalls state both sides of it |
| PlungerFiring.FireStep | Assets/MayurStuff/Scripts/PlungerAttack.cs:22-44 | a missing slot or prefab changes nothing; otherwise a plunger from the current slot, pushed iff it has a rigidbody, destroyed after 5 s, and the index moves to (index + 1) mod 3, staying in {0, 1, 2} |
| PlungerFiring.UpdateStep | Assets/MayurStuff/Scripts/PlungerAttack.cs:14-20 | only a click fires; the index stays in {0, 1, 2} |
| PlungerFiring.FiresKeepInv | Assets/MayurStuff/Scripts/PlungerAttack.cs:22-44 | the index stays in {0, 1, 2} over any clicks |
| PlungerFiring.FallbackNeverTaken | Assets/MayurStuff/Scripts/PlungerAttack.cs:53 | from the start the index is always one of the three cases, so the default case is never taken |
| PlungerFiring.Expected | Assets/MayurStuff/Scripts/PlungerAttack.cs:43 | n successful fires spawn n plungers |
| PlungerFiring.ExpectedCycles | Assets/MayurStuff/Scripts/PlungerAttack.cs:43-52 | the k-th of them comes from slot (i + k) mod 3 in the order top, right, left |
| PlungerFiring.RoundRobin | Assets/MayurStuff/Scripts/PlungerAttack.cs:22-44 | with everything assigned, n clicks spawn exactly the expected plungers and move the index on by n mod 3 |
| PlungerFiring.ThreeFiresRestore | Assets/MayurStuff/Scripts/PlungerAttack.cs:43 | three successful fires bring the index back |
| PlungerFiring.MissingSlotStalls | Assets/MayurStuff/Scripts/PlungerAttack.cs:26-30 | with the current slot or the prefab missing, any number of clicks changes nothing |
| PlungerFiring.PlungerAttack.constructor | Assets/MayurStuff/Scripts/PlungerAttack.cs:12 | the fields are Initial's |
| PlungerFiring.PlungerAttack.Update | Assets/MayurStuff/Scripts/PlungerAttack.cs:14-20 | the fields are UpdateStep's |
| PlungerFiring.PlungerAttack.FireNextPlunger | Assets/MayurStuff/Scripts/PlungerAttack.cs:22-44 | the fields are FireStep's |
| Weapons.Loaded | Assets/MayurStuff/Scripts/WeaponManager.cs:8 | activeWeapon starts at 0 |
| Weapons.Deactivated | Assets/MayurStuff/Scripts/WeaponManager.cs:59-63 | both weapons off, the selection untouched |
| Weapons.Started | Assets/MayurStuff/Scripts/WeaponManager.cs:10-13 | both weapons off |
| Weapons.Activated | Assets/MayurStuff/Scripts/WeaponManager.cs:42-57 | the id is recorded; the water gun is on iff the id is 1, and the plunger iff it is 2 |
| Weapons.Toggled | Assets/MayurStuff/Scripts/WeaponManager.cs:27-40 | the active id deselects everything; any other id is activated |
| Weapons.UpdateStep | Assets/MayurStuff/Scripts/WeaponManager.cs:15-25 | key 1 toggles the water gun and wins over key 2, which toggles the plunger; no key, no change |
| Weapons.StartEstablishesInv | Assets/MayurStuff/Scripts/WeaponManager.cs:8-13 | after Start nothing is active or selected, whatever the scene held |
| Weapons.InvMeansAtMostOne | Assets/MayurStuff/Scripts/WeaponManager.cs:44 | under the invariant at most one weapon is active |
| Weapons.ToggleActiveDeselects | Assets/MayurStuff/Scripts/WeaponManager.cs:29-34 | toggling the active weapon leaves none selected or active |
| Weapons.ToggleOtherSelects | Assets/MayurStuff/Scripts/WeaponManager.cs:35-39 | toggling another weapon selects and activates exactly it |
| Weapons.ToggleTwiceFromNone | Assets/MayurStuff/Scripts/WeaponManager.cs:27-40 | the same key twice from none returns to none |
| Weapons.UpdateKeepsInv | Assets/MayurStuff/Scripts/WeaponManager.cs:15-25 | a frame keeps activeWeapon in {0, 1, 2} with exactly the matching weapon active |
| Weapons.RunKeepsInv | Assets/MayurStuff/Scripts/WeaponManager.cs:15-63 | every trace keeps the invariant |
| Weapons.WeaponManager.constructor | Assets/MayurStuff/Scripts/WeaponManager.cs:8 | the fields are Loaded's |
| Weapons.WeaponManager.Start | Assets/MayurStuff/Scripts/WeaponManager.cs:10-13 | the fields are Started's |
| Weapons.WeaponManager.Update | Assets/MayurStuff/Scripts/WeaponManager.cs:15-25 | the fields are UpdateStep's |
| Weapons.WeaponManager.ToggleWeapon | Assets/MayurStuff/Scripts/WeaponManager.cs:27-40 | the fields are Toggled's |
| Weapons.WeaponManager.ActivateWeapon | Assets/MayurStuff/Scripts/WeaponManager.cs:42-57 | the fields are Activated's |
| Weapons.WeaponManager.DeactivateAllWeapons | Assets/MayurStuff/Scripts/WeaponManager.cs:59-63 | the fields are Deactivated's |
| Bullets.Loaded | Assets/Scenes/PlayerControllerFromScratch/Assets/Bullet.cs:9 | not hit, nothing spawned or scheduled |
| Bullets.Started | Assets/Scenes/PlayerControllerFromScratch/Assets/Bullet.cs:11-14 | destruction after lifeTime is scheduled |
| Bullets.Collide | Assets/Scenes/PlayerControllerFromScratch/Assets/Bullet.cs:16-30 | a latched bullet ignores the collision; otherwise it latches, spawns the 2 s effect at the first contact iff an effect is set and there is a contact, and schedules its destruction 0.1 s later |
| Bullets.LatchedIgnoresCollisions | Assets/Scenes/PlayerControllerFromScratch/Assets/Bullet.cs:18-19 | once hit, any later collisions change nothing |
| Bullets.FirstCollisionDecides | Assets/Scenes/PlayerControllerFromScratch/Assets/Bullet.cs:11-30 | after Start and any collisions: at most one effect, there iff the first collision had a contact and an effect is set; destructions at lifeTime and, once hit, 0.1 s |
| Bullets.Bullet.constructor | Assets/Scenes/PlayerControllerFromScratch/Assets/Bullet.cs:9 | the fields are Loaded's |
| Bullets.Bullet.Start | Assets/Scenes/PlayerControllerFromScratch/Assets/Bullet.cs:11-14 | the fields are Started's |
| Bullets.Bullet.OnCollisionEnter | Assets/Scenes/PlayerControllerFromScratch/Assets/Bullet.cs:16-30 | the fields are Collide's |
| PoopProjectiles.Loaded | Assets/poopDestroy.cs:8 | not exploded, nothing spawned, not destroyed |
| PoopProjectiles.CollideOutcome | Assets/poopDestroy.cs:12-25 | ignored iff latched; throws iff a first collision with an effect set has no contact |
| PoopProjectiles.Collide | Assets/poopDestroy.cs:10-26 | latched: no change; otherwise it latches, spawns the effect at the first contact when set, and is destroyed unless the contact read threw |
| PoopProjectiles.LatchedIgnoresCollisions | Assets/poopDestroy.cs:12-13 | once latched, any later collisions change nothing |
| PoopProjectiles.FirstCollisionDecides | Assets/poopDestroy.cs:10-26 | after any non-empty run the latch is set; destroyed iff no effect is set or the first collision had a contact; one effect exactly when set with a contact |
| PoopProjectiles.PoopProjectile.constructor | Assets/poopDestroy.cs:8 | the fields are Loaded's |
| PoopProjectiles.PoopProjectile.OnCollisionEnter | Assets/poopDestroy.cs:10-26 | the fields are Collide's, and it reports the throw exactly as CollideOutcome does |

## Left out

- Floating point: every `float` is a `real`, so rounding is not modelled. This includes the exact-equality test `sprintRemaining == sprintDuration`, which touches only the sprint bar.
- `speedReduction == 0`: Crouch divides walkSpeed by it; the model requires a non-zero factor (`Divisible`), where Unity would produce infinity.
- The sprint bar, crosshair, cursor locking and all other UI work of FirstPersonController, including Start: none of it feeds back into the rules.
- `Time.fixedDeltaTime = 1/60` in Awake: the physics step takes no time parameter.
- How Update reads input: the smoothed mouse and movement axes (SmoothDamp), key edges and held keys are inputs.
- Engine geometry is given as inputs: `TransformDirection`, the raycast geometry, the rigidbody velocity.
- The head-bob joint position: the Sin offsets and the Vector3.Lerp smoothing of the joint. Only the phase timer is modelled (`BobTimer`).
- Transform writes (localEulerAngles, localScale shown as the posture scale only, the camera's fieldOfView), which just mirror modelled fields.
- PoopMonsterAI.FaceTarget: a Quaternion Slerp towards the player. It changes only the rotation, which no rule reads.
- PoopMonsterAI: the projectile's push direction and force, the `applyRootMotion` switch and the error logs. The player being destroyed during an attack is not modelled.
- Coroutine scheduling: each wait is a pending duration that an explicit resume event consumes. Stopping coroutines and the engine's exact ordering of resumptions within a frame are not modelled.
- `Destroy(obj, delay)`: recorded as the scheduled delay, or a `destroyed` flag when immediate. When the engine carries the destruction out, and collisions after it, are not modelled.
- Unity.LerpAngleProperties and FirstPerson.FovApproaches rest on the engine's own definitions of Mathf.Lerp, Mathf.Repeat and Mathf.LerpAngle, which unity.dfy writes out; the script only calls them.
- Whirlpool spiral: Mathf.Cos and Mathf.Sin of the angle are inputs of each frame. The line renderer's `SetPositions` copy is not modelled.
- Whirlpool.AtSpawn: the line renderer's positionCount before the first trail update is the prefab's own value, taken as 0.
- Whirlpool.TPWhirlpoolProjectile.Update: modelled for a live projectile. Updates of a destroyed object do not happen in Unity.
- The spawner that `FindObjectOfType` returns is taken to be the one that spawned the projectile. With several spawners in a scene it may be another.
- Debug.Log, LogWarning and LogError calls: they have no effect on the game state.
- WeaponManager: both weapon references are taken to be set; SetActive on a missing one would throw.
- GunShooter: the force vector, the shot sound's clip, and the animator disappearing mid-game other than as a per-frame input.
- Contact normals are kept as the effect's facing instead of `Quaternion.LookRotation`.
- UVModifier.cs (texture scrolling) and WaterBullet.cs (one delayed Destroy) are not part of this model.
- WaterGunning.Inv: attempt spacing holds for any fireRate; the bullet half is stated only for a non-negative fireRate. Bullets fall on a subset of the attempts, and with a negative fireRate an attempt that spawns nothing can move the next allowed time before the latest bullet.
