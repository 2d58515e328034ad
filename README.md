# Combat state machines of the FullySickCombat scripts, in Dafny

This project models the discrete gameplay logic of four Unity scripts of an
action-combat demo and proves properties of it:

- **AISimple** (`enemy_ai.dfy`, module `EnemyAI`): the enemy's five-state
  behaviour IDLE / PATROL / CHASE / MELEEATTACK / HIT. It covers `ChangeState`
  with its entry actions, the per-frame transition switch of `Update`, the
  invincibility-gated damage handler on 32-bit integer health, the
  nearest-patrol-point scan and the wrapping patrol index.
- **ComboAttack** (`combo.dfy`, module `Combo`): the three-hit combo counter
  0 → 1 → 2 → 0. An Attack press advances it only while the player has
  control, is grounded and is not dashing.
- **HealthBarUI** (`health_bar.dfy`, module `HealthBar`): 32-bit health
  floored at 0, and its label text as the decimal rendering of the health.
- **PlayerChunLi**, discrete part only (`player.dfy`, module `Player`):
  - the jump counter and its `canJump` latch, re-armed on landing;
  - the `hit`/`canMove` gate and the recovery from it;
  - the dash timer;
  - float health with the game-over scene request.

`int32.dfy` (module `Int32`) models C#'s 32-bit `int`, whose subtraction
wraps around.

Each script is a class. Its fields are the script's fields. Its methods
mirror the script's methods statement by statement. Each method's `ensures`
ties the new field values (`Snapshot()` / `State()`) to a pure function of the
old ones: `Enter`, `Damage`, `Step`, `Frame`, `HitBy`, `LoseHealth`,
`HealthAfter`, `NextCombo`. The lemmas about those functions state what the
scripts promise, over one frame and over whole runs of frames.

The engine is not modelled. Everything each frame reads from it is an input:
- `CanSeePlayer`, `CanAttackPlayer`, `CanStopChase`, `agent.hasPath`;
- `agent.remainingDistance < 1` and the distances to the patrol points;
- `Random.Range(0, 100)` and `Time.deltaTime`;
- `charCont.isGrounded`, "the knock-back has died down", and the button and
  key presses.

Timers and player health are `real`, compared against their thresholds
(0.5, 1.25, `attackTime`, `maxDashTime`, 0). `Destroy(gameObject)` is a
`destroyed` flag. `SceneManager.LoadScene` is recorded in a `sceneLoads` list.

Facts about the code that the proofs bring out:
- **No double jump.** A jump needs a grounded frame and the `canJump` latch.
  The latch is re-armed only by a landing, and a landing also resets
  `jumpsRemaining` to 2. So there is at most one jump per landing
  (`JumpsBoundedByLandings`), and the second of the two jumps is never used.
- **Empty patrol list.** An enemy with no patrol points can still enter
  PATROL: through the random roll in IDLE, by giving up a chase, at the end
  of an attack that lost the player, and on leaving HIT (the usual route for
  an enemy that was hit). On every waypoint arrival the index becomes 0 and
  `patrolPoints[0]` throws, so the rest of that frame does not run: the enemy
  stays in PATROL even when it sees the player. `Step` states this case in
  its contract (the state after such a frame differs from the one before
  only in the index, now 0), and `AISimple.Update` is proved equal to `Step`.
- **Invincibility.** After a hit the enemy stays invincible in HIT for the
  first 0.5 s of its timer (`InvincibleWindow`). The first frame after a hit
  ends in HIT whatever it senses (`HitOutlastsOneFrame`), and the frame that
  ends the invincibility also stays in HIT (a clause of `Step`).

## Model

| member | source | states |
|---|---|---|
| `Int32.Wrap` | Assets/Scripts/HealthBarUI.cs:23 | the 32-bit result is congruent to the true value mod 2^32 and equals it when it fits |
| `Int32.Sub` | Assets/RPGCombatSystem/Scripts/AI/AISimple.cs:50 | unchecked `int` subtraction: congruent to the difference, and exactly it when no overflow |
| `EnemyAI.NextPatrolIndex` | Assets/RPGCombatSystem/Scripts/AI/AISimple.cs:98-101 | wraps to 0 at or past the last point, otherwise steps by one; in `[0, Count-1]` when `Count > 0` and the index is at least -1 |
| `EnemyAI.AdvanceByCycles` | Assets/RPGCombatSystem/Scripts/AI/AISimple.cs:98-101 | k waypoint arrivals from point i lead to point (i + k) mod Count: the patrol walks the list cyclically |
| `EnemyAI.FullCircuit` | Assets/RPGCombatSystem/Scripts/AI/AISimple.cs:98-101 | Count arrivals bring the enemy back to the point it started from |
| `EnemyAI.NextOfRemainder` | Assets/RPGCombatSystem/Scripts/AI/AISimple.cs:98-101 | advancing from x mod Count gives (x + 1) mod Count |
| `EnemyAI.Nearest` | Assets/RPGCombatSystem/Scripts/AI/AISimple.cs:228-238 | the result is the first of the strictly smallest distances |
| `EnemyAI.NearestPatrolScan` | Assets/RPGCombatSystem/Scripts/AI/AISimple.cs:228-238 | the loop leaves the index one before the first nearest point; an empty list leaves it unchanged |
| `EnemyAI.Enter` | Assets/RPGCombatSystem/Scripts/AI/AISimple.cs:197-259 | after ChangeState(s) the state is s; MELEEATTACK and HIT reset the timer; PATROL targets the nearest point next; health and flags are untouched |
| `EnemyAI.EnterKeepsPatrolIndexOk` | Assets/RPGCombatSystem/Scripts/AI/AISimple.cs:228-238 | entering any state keeps the patrol index in range |
| `EnemyAI.Damage` | Assets/RPGCombatSystem/Scripts/AI/AISimple.cs:41-59 | invincible: nothing changes; else invincible, HIT, timer 0, health lowered by exactly the damage, destroyed iff health then <= 0 |
| `EnemyAI.OnlyFirstHitLands` | Assets/RPGCombatSystem/Scripts/AI/AISimple.cs:43-45 | of a burst of hits with no frame between, only the first has any effect |
| `EnemyAI.InvincibleIgnoresAll` | Assets/RPGCombatSystem/Scripts/AI/AISimple.cs:43 | any number of hits on an invincible enemy change nothing |
| `EnemyAI.Step` | Assets/RPGCombatSystem/Scripts/AI/AISimple.cs:81-157 | the transition rules: IDLE/PATROL chase a seen player; CHASE with a path attacks or gives up; MELEEATTACK leaves iff the timer reaches attackTime; HIT clears invincibility at 0.5 and stays, leaves iff already not invincible and at 1.25, to CHASE iff canAttack and in range; with an empty patrol list a waypoint frame only sets the index to 0 (the throw), even when the player is seen; frames never change health |
| `EnemyAI.StepKeepsPatrolIndexOk` | Assets/RPGCombatSystem/Scripts/AI/AISimple.cs:95-109 | one frame keeps the patrol index in range |
| `EnemyAI.RunKeepsPatrolIndexOk` | Assets/RPGCombatSystem/Scripts/AI/AISimple.cs:81-157 | over any run of frames the patrol index stays in range |
| `EnemyAI.InvincibleWindow` | Assets/RPGCombatSystem/Scripts/AI/AISimple.cs:136-147 | while the HIT timer stays below 0.5, the enemy stays in HIT, invincible, and the timer is the elapsed time |
| `EnemyAI.HitOutlastsOneFrame` | Assets/RPGCombatSystem/Scripts/AI/AISimple.cs:136-155 | the first frame after a hit that lands ends in HIT, whatever it senses |
| `EnemyAI.AISimple.constructor` | Assets/RPGCombatSystem/Scripts/AI/AISimple.cs:17-34 | the initial fields: IDLE, index -1, timer 0, not invincible, may attack, health 0 |
| `EnemyAI.AISimple.Awake` | Assets/RPGCombatSystem/Scripts/AI/AISimple.cs:70-79 | with patrol points, the enemy is in PATROL, aimed at the nearest point |
| `EnemyAI.AISimple.Start` | Assets/RPGCombatSystem/Scripts/AI/AISimple.cs:36-39 | health becomes maxHealth, nothing else changes |
| `EnemyAI.AISimple.ChangeState` | Assets/RPGCombatSystem/Scripts/AI/AISimple.cs:197-259 | the fields become `Enter` of the old ones |
| `EnemyAI.AISimple.ApplyDmg` | Assets/RPGCombatSystem/Scripts/AI/AISimple.cs:41-59 | the fields become `Damage` of the old ones; invincible: the object is unchanged |
| `EnemyAI.AISimple.EnableAttack` | Assets/RPGCombatSystem/Scripts/AI/AISimple.cs:159-163 | the coroutine's end sets canAttack and nothing else |
| `EnemyAI.AISimple.Update` | Assets/RPGCombatSystem/Scripts/AI/AISimple.cs:81-157 | the fields become `Step` of the old ones, and the patrol index stays in range |
| `Combo.NextCombo` | Assets/Scripts/ComboAttack.cs:26-40 | an accepted press moves the count one step round the cycle mod 3; out-of-cycle values stay |
| `Combo.AttackFor` | Assets/Scripts/ComboAttack.cs:28-38 | the animation follows the count before the press: 0 Attack1, 1 Attack2, 2 Attack3 |
| `Combo.PressesCycle` | Assets/Scripts/ComboAttack.cs:26-40 | n accepted presses from c give (c + n) mod 3 |
| `Combo.ThreePressesReturn` | Assets/Scripts/ComboAttack.cs:26-40 | three accepted presses return the counter to its start |
| `Combo.AnimationSequence` | Assets/Scripts/ComboAttack.cs:26-40 | from a fresh counter the presses play Attack1, Attack2, Attack3, Attack1, ... |
| `Combo.Accepted` | Assets/Scripts/ComboAttack.cs:20-24 | the three gates of a press: the Attack button, control, ground and no dash; its meaning is stated by `Combo.ComboAttack.Update`, which advances exactly on accepted presses |
| `Combo.ComboAttack.constructor` | Assets/Scripts/ComboAttack.cs:11-16 | the counter starts at 0 |
| `Combo.ComboAttack.Update` | Assets/Scripts/ComboAttack.cs:18-46 | count stays in {0,1,2}; accepted iff pressed, canMove, grounded and not dashing; else no animation and no change |
| `HealthBar.Digit` | Assets/Scripts/HealthBarUI.cs:18 | the digit character whose code is '0' plus the digit |
| `HealthBar.NatToDecimal` | Assets/Scripts/HealthBarUI.cs:18 | non-empty, all decimal digits, no leading zero |
| `HealthBar.IntToDecimal` | Assets/Scripts/HealthBarUI.cs:18 | a '-' exactly for negatives, then digits |
| `HealthBar.NatToDecimalRoundTrip` | Assets/Scripts/HealthBarUI.cs:18 | reading back the digits gives the number |
| `HealthBar.IntToDecimalRoundTrip` | Assets/Scripts/HealthBarUI.cs:18 | reading back the label gives the health it shows |
| `HealthBar.HealthAfter` | Assets/Scripts/HealthBarUI.cs:21-30 | never negative; the 32-bit difference whenever that is positive, 0 otherwise (also when the subtraction wraps); without overflow exactly max(0, health - damage) |
| `HealthBar.DamageNeverHeals` | Assets/Scripts/HealthBarUI.cs:23-28 | non-negative damage never raises a non-negative health |
| `HealthBar.FloorIsStable` | Assets/Scripts/HealthBarUI.cs:23-28 | at 0, non-negative damage keeps health at 0 |
| `HealthBar.OverflowFloorsHealth` | Assets/Scripts/HealthBarUI.cs:23 | the 32-bit wrap is observable: a huge negative damage floors health to 0 |
| `HealthBar.HealthBarUI.constructor` | Assets/Scripts/HealthBarUI.cs:6-7 | health and maximum start at 100 |
| `HealthBar.HealthBarUI.Start` | Assets/Scripts/HealthBarUI.cs:11-14 | the label shows the decimal health; health unchanged |
| `HealthBar.HealthBarUI.UpdateHealthUI` | Assets/Scripts/HealthBarUI.cs:16-19 | the label shows the decimal health |
| `HealthBar.HealthBarUI.TakeDamage` | Assets/Scripts/HealthBarUI.cs:21-30 | health becomes `HealthAfter`, the label shows it |
| `Player.LoseHealth` | Assets/Scripts/PlayerChunLi.cs:366-373 | health drops by exactly d; the game-over scene is requested iff the result is <= 0; nothing else changes |
| `Player.LosePercentage` | Assets/Scripts/PlayerChunLi.cs:288-299 | health drops by maxHealth * p; game over iff the result is <= 0 |
| `Player.HitBy` | Assets/Scripts/PlayerChunLi.cs:352-364 | already hit: nothing changes; else hit, no control, dash cancelled so not dashing |
| `Player.Dashing` | Assets/Scripts/PlayerChunLi.cs:394-397 | the dash timer is below maxDashTime; `HitBy` and `InAir` prove that a hit and an airborne frame make it false, and `DashRules` that a grounded press starts it |
| `Player.Landed` | Assets/Scripts/PlayerChunLi.cs:91-96 | on the first grounded frame after an airborne one, two jumps and the latch armed; otherwise nothing changes; no other field is touched |
| `Player.Recover` | Assets/Scripts/PlayerChunLi.cs:125-144 | hit changes iff the player is hit and has settled, and then hit is cleared and control restored; no other field is touched |
| `Player.OnGround` | Assets/Scripts/PlayerChunLi.cs:146-220 | a jump iff no dash runs, the button, the latch and a jump left, taking one jump and the latch; a running dash advances its timer by deltaTime and ends the block; otherwise canDash is restored; only jump and dash fields change |
| `Player.InAir` | Assets/Scripts/PlayerChunLi.cs:225-229 | afterwards no dash runs; a running dash is cut to maxDashTime and canDash restored; only those two fields change |
| `Player.Frame` | Assets/Scripts/PlayerChunLi.cs:83-266 | no contract of its own: one frame is stated by the lemmas `Player.JumpGate`, `Player.LandingRearmsJump`, `Player.DashRules`, `Player.DamageKeyCost`, `Player.RecoveryRestoresBoth` and `Player.NothingRunsWithoutControl` |
| `Player.LandingRearmsJump` | Assets/Scripts/PlayerChunLi.cs:91-96 | a landing frame sets two jumps (the literal 2) and the latch, less a jump taken that frame |
| `Player.JumpGate` | Assets/Scripts/PlayerChunLi.cs:125-220 | a jump happens iff control, ground, no dash running, the button, the latch and a jump left; it takes one jump and clears the latch |
| `Player.NothingRunsWithoutControl` | Assets/Scripts/PlayerChunLi.cs:125-144 | without control: no jump, no dash change, no health change |
| `Player.RecoveryRestoresBoth` | Assets/Scripts/PlayerChunLi.cs:125-144 | a frame changes hit or canMove only by a settled recovery, which sets both back together |
| `Player.DashRules` | Assets/Scripts/PlayerChunLi.cs:156-181 | a grounded Dash press starts the dash and uses it up; airborne mid-dash ends the dash and restores canDash |
| `Player.DamageKeyCost` | Assets/Scripts/PlayerChunLi.cs:262-265 | the P key costs maxHealth * 0.1 on frames that get past the dash; nothing else in a frame changes health |
| `Player.JumpsBoundedByLandings` | Assets/Scripts/PlayerChunLi.cs:91-220 | over any run, jumps are at most the landings plus one if the latch was armed |
| `Player.NoJumpWithoutLanding` | Assets/Scripts/PlayerChunLi.cs:96-213 | after a jump, no jump happens until a landing |
| `Player.FramesKeepControlMatchesHit` | Assets/Scripts/PlayerChunLi.cs:125-144 | over any run of frames, canMove stays the negation of hit |
| `Player.PlayerChunLi.constructor` | Assets/Scripts/PlayerChunLi.cs:61-68 | initial fields after Awake: may jump, maxJumps jumps, no dash running, control, health 100 |
| `Player.PlayerChunLi.IsDashing` | Assets/Scripts/PlayerChunLi.cs:394-397 | true exactly while the dash timer is below maxDashTime |
| `Player.PlayerChunLi.GetHealthPercentage` | Assets/Scripts/PlayerChunLi.cs:268-271 | the ratio times maxHealth is the health; in [0, 1] when 0 <= health <= maxHealth |
| `Player.PlayerChunLi.Update` | Assets/Scripts/PlayerChunLi.cs:83-266 | the fields become `Frame` of the old ones; `jumped` says whether the frame jumped |
| `Player.PlayerChunLi.LandingBlock` | Assets/Scripts/PlayerChunLi.cs:91-123 | the landing reset, then wasGrounded records this frame |
| `Player.PlayerChunLi.GroundBlock` | Assets/Scripts/PlayerChunLi.cs:146-220 | the grounded dash/jump logic; reports whether a running dash ended the frame |
| `Player.PlayerChunLi.AirBlock` | Assets/Scripts/PlayerChunLi.cs:225-229 | airborne, a running dash is cancelled |
| `Player.PlayerChunLi.CheckGameOver` | Assets/Scripts/PlayerChunLi.cs:309-316 | the game-over scene is requested iff health <= 0 |
| `Player.PlayerChunLi.ApplyDmg` | Assets/Scripts/PlayerChunLi.cs:279-286 | the fields become `LoseHealth` of the old ones |
| `Player.PlayerChunLi.TakeDamage` | Assets/Scripts/PlayerChunLi.cs:366-373 | the fields become `LoseHealth` of the old ones |
| `Player.PlayerChunLi.TakeDamagePercentage` | Assets/Scripts/PlayerChunLi.cs:288-305 | the fields become `LosePercentage` of the old ones |
| `Player.PlayerChunLi.ApplyDmgImpact` | Assets/Scripts/PlayerChunLi.cs:352-364 | the fields become `HitBy` of the old ones; already hit: the object is unchanged |

## Left out

- The tick scheduler (`TickManager`, `TickRunner`) and the object pool (`SimplePool`, `ReturnToPool`): engine-side infrastructure outside the gameplay state machines modelled here.
- Motion and physics of `PlayerChunLi.Update`: move vectors, gravity, knock-back decay, rotations, raycasts (`DistToGround`, `IsGrounded`), `AddImpact`, and `fallTime` with the landing sound. These are floating-point 3D numerics. Groundedness and "the knock-back has died down" are boolean inputs.
- The airborne branch of `PlayerChunLi.Update` that clears `wasGrounded` when the ground is more than 0.3 away: its only discrete effect is overwritten at line 123.
- `PlayerChunLi.HandleCameraMovement`, `UpdateHealthBar` (float health rendered with "F0": .NET float rounding) and Camera.cs.
- NavMeshAgent speed, `isStopped` and `SetDestination`, `LookPlayer` and the geometry behind `CanSeePlayer`, `CanAttackPlayer` and `CanStopChase`: left to the engine. The predicates are inputs.
- Animator triggers and plays, sounds, `animEv.isAttacking` and the weapon colliders. ComboAttack's chosen animation is returned as the observable result.
- `Random.Range(0, 100)` is an input roll. The 2-second `EnableAttackAfterSeconds` coroutine is the `EnableAttack` event, timed by the engine.
- `Destroy(gameObject)` only sets the `destroyed` flag. The model never removes a destroyed enemy: `Step` and `Damage` keep applying to it after the flag is set, where Unity would stop calling its `Update` and its collider callbacks once the object is gone.
- IEEE-754 single precision: `waitTimer`, dash time and player health are exact reals, and `0.1f` is 0.1.
- Weapon.cs, EnemyWeapon.cs, AllDefeatedLoadScene.cs, TriggerSceneLoader.cs, MouseLock.cs, MouseEnable.cs: collider and scene glue that only forwards to the modelled `ApplyDmg` and `TakeDamage` or loads scenes.
- Other scripts (such as the animator events) may write `PlayerChunLi.canMove`. They are not part of this model, so `FramesKeepControlMatchesHit` covers only the code shown.
- Player.PlayerChunLi.GetHealthPercentage: requires `maxHealth != 0`. The float division by zero (infinity or NaN) is not modelled.
