# Wave-survival game core in Dafny

This project models the engine-free core of a first-person wave-survival game
(openbnw): the combatants, the weapon, the wave manager, the orchestration
service that runs the game loop, and the input gate in front of it.

- **Combatants.** `Players.Player` and `Enemies.Enemy` are classes with integer
  health. Damage clamps at zero and is ignored once dead. Healing clamps at the
  maximum. The player keeps a kill counter; an enemy keeps its own attack
  cooldown stamp. The shared clamp arithmetic lives in module `Health`.
- **Spawn positions.** `Enemies.Enemy.GenerateSpawnPosition` is the bounded
  retry loop. It makes up to ten draws, returns the first one far enough from
  the player, and otherwise returns the last draw. The random draws are
  supplied as a function `samples: nat -> Sample`. Distances are compared
  squared.
- **Weapon.** `Weapons.Weapon` is a rate limiter: a last-fire stamp and a
  minimum interval.
- **Wave manager.** `WaveManagement.WaveManager` holds the linear count and
  speed formulas, builds a wave's batch of new enemies, and keeps the wave
  counter.
- **Game service.** `GameServices.GameService` is the state machine. Its
  stages are pre-wave countdown, wave in progress, wave cleared, countdown,
  then the next wave; the player's death stops the game. It owns the enemy
  list and resolves shots, enemy hits and player hits.
  - Host notifications are appended to an event log `events`.
  - The installed callbacks are the flags in `hooks`.
  - The effect of one `update` tick on the phase flags is the pure function
    `GameServices.UpdatePhase`, which the method is proved against.
  - The countdown-beep detector is the pure function
    `Countdown.CountdownTick`, with lemmas that bound the beeps per window.
- **Input gate.** `InputHandling.InputHandler` is the one-flag gate
  (`gameOver`) in front of shooting and restarting.
- **Scenarios.** Module `Scenarios` drives the whole service end to end. It
  wires the objects as `main.py` does, with the values of
  `config/game_config.py`, except the weapon damage, which each scenario
  supplies. The hooks are not wired as `main.py` wires them.
  - `main.py` installs the spawn, enemy-death, wave-start and player-death
    callbacks (main.py:156-159). A new scenario game installs none, and each
    scenario installs only the hooks it observes.
  - `main.py` never installs the countdown-beep or enemy-damaged callbacks.
    The beep results therefore apply to a host that installs the beep hook,
    as `Scenarios.CountdownBeeps` does, not to the shipped `main.py`, which
    never beeps.

The clock is an explicit `now: real` argument wherever the code reads
`time.time()`.

Where the code's own comments, or the behaviour a reader would expect, differ
from what the code does, the model follows the code.

- **`start_game` is not a full reset.** It leaves `wave_in_progress`,
  `wave_clear_time` and `last_countdown_beep` as they were. A restart during a
  wave therefore leaves the pre-wave countdown pending *and* the old wave
  flagged in progress (`Scenarios.RestartMidWave`). A stale beep mark of 1.0
  or more silences the next countdown entirely (`Countdown.StaleMarkSilences`).
- **The countdown can beep more than twice.** The comments at
  game_service.py:102 and :105 describe a beep every second in the last two
  seconds, with beep index 0 or 1. The expression `mark or -1` treats a
  stored mark of 0.0 as "no beep yet". A tick at exactly 2.0 seconds
  remaining stores 0.0, so it can be followed by another beep in the same
  second.
  - `Countdown.AtMostTwoBeeps` proves the two-beep bound when no tick lands
    exactly on the window start.
  - `Countdown.ExactlyTwoBeeps` proves that with an advancing clock the
    window then beeps exactly twice, once a tick lands in each of its seconds,
    whatever the tick rate.
  - `Countdown.AtMostThreeBeeps` bounds a strictly advancing clock by three.
  - `Countdown.StalledClockBeepsEveryTick` shows a clock stalled at the window
    start beeping on every tick.
  - `Scenarios.CountdownBeeps` runs a three-beep countdown.

## Model

| member | source | states |
|---|---|---|
| Health.Damaged | src/domain/entities/player.py:27-35 | a hit leaves a dead combatant as it was; a living one ends in [0, health], at 0 exactly when the damage reaches its health, otherwise at health - damage |
| Health.Healed | src/domain/entities/player.py:37-45 | healing leaves a dead combatant as it was; a living one ends between its health and the maximum, at the maximum exactly when health + amount reaches it, otherwise at health + amount |
| Health.DamageSequence | src/domain/entities/player.py:27-35 | any sequence of hits leaves max(0, health - total damage); health stays within [0, health]; once it is 0 further hits change nothing |
| Players.Player.constructor | src/domain/entities/player.py:12-15 | a new player has full health, zero kills and satisfies the health bounds |
| Players.Player.IsAlive | src/domain/entities/player.py:22-25 | a living player has at least 1 health; within the bounds the player is alive exactly when health is not 0 |
| Players.Player.TakeDamage | src/domain/entities/player.py:27-35 | health becomes Damaged(old health, amount), stays within [0, maxHealth]; a living player survives exactly when amount < health; a dead player is unchanged |
| Players.Player.Heal | src/domain/entities/player.py:37-45 | health becomes Healed(old health, maxHealth, amount), stays within bounds; a dead player is unchanged |
| Players.Player.AddKill | src/domain/entities/player.py:47-49 | kills rise by exactly one and nothing else changes |
| Players.Player.Reset | src/domain/entities/player.py:51-54 | from any state, dead included, health is full and kills are 0 |
| Enemies.Enemy.constructor | src/domain/entities/enemy.py:14-19 | a new enemy keeps the given position, speed and maximum, has full health and a 0.0 attack stamp |
| Enemies.Enemy.IsAlive | src/domain/entities/enemy.py:27-29 | a living enemy has at least 1 health; within the bounds it is alive exactly when health is not 0 |
| Enemies.Enemy.CanAttack | src/domain/entities/enemy.py:41-52 | an attack is allowed only once the cooldown has passed since the last one; with a positive cooldown the clock must have moved past it, with none any time not before it is allowed |
| Enemies.Enemy.TakeDamage | src/domain/entities/enemy.py:31-39 | health becomes Damaged(old health, amount) and stays within [0, maxHealth]; a dead enemy is unchanged |
| Enemies.Enemy.PerformAttack | src/domain/entities/enemy.py:41-56 | the attack stamp becomes the current time and nothing else changes; right after, an attack is allowed again exactly when the cooldown is non-positive |
| Enemies.ChosenAttempt | src/domain/entities/enemy.py:78-95 | the kept draw is the first far-enough one among the first ten, or the tenth when none is: every earlier draw is too close |
| Enemies.SpawnPoint | src/domain/entities/enemy.py:59-95 | the position is on the ground (y = 0), is one of the first ten draws, and is far enough from the player whenever any of those draws is |
| Enemies.Enemy.GenerateSpawnPosition | src/domain/entities/enemy.py:59-95 | the loop with its early return yields exactly SpawnPoint of the draws |
| Weapons.Weapon.constructor | src/domain/entities/weapon.py:11-23 | a new weapon keeps its rate, damage and range and has a 0.0 fire stamp |
| Weapons.Weapon.CanFire | src/domain/entities/weapon.py:25-33 | a shot is allowed only once the fire rate has passed since the last one; with a positive rate the clock must have moved past it, with none any time not before it is allowed |
| Weapons.Weapon.Fire | src/domain/entities/weapon.py:25-37 | the fire stamp becomes now; right after, firing at the same instant is allowed exactly when the fire rate is non-positive |
| WaveManagement.WaveManager.constructor | src/domain/wave_system/wave_manager.py:12-43 | a new manager keeps its configuration and starts at wave 0 with nothing spawned |
| WaveManagement.WaveManager.EnemyCountForWave | src/domain/wave_system/wave_manager.py:45-55 | wave 1 has the base count; with a non-negative increment no later wave has fewer |
| WaveManagement.WaveManager.EnemySpeedForWave | src/domain/wave_system/wave_manager.py:57-67 | wave 1 has the base speed; with a non-negative increment no later wave is slower |
| WaveManagement.WaveManager.CountProgression | src/domain/wave_system/wave_manager.py:45-55 | wave 1 has the base count and each wave adds exactly the count increment |
| WaveManagement.WaveManager.SpeedProgression | src/domain/wave_system/wave_manager.py:57-67 | wave 1 has the base speed and each wave adds exactly the speed increment |
| WaveManagement.WaveManager.SpawnWave | src/domain/wave_system/wave_manager.py:69-92 | the batch has max(0, count(n)) distinct new enemies, each at full enemy health with speed(n), a 0.0 attack stamp and the spawn position of its own draws; the spawned counter becomes count(n) and the wave counter is untouched |
| WaveManagement.WaveManager.AdvanceToNextWave | src/domain/wave_system/wave_manager.py:94-102 | the wave counter rises by exactly one and the new value is returned |
| Countdown.CountdownTick | src/application/services/game_service.py:103-115 | a tick beeps exactly when the hook is set, 0 < remaining <= 2 and the beep index (0 or 1) is above the stored mark's index; after a beep the mark is 2 - remaining; without one the mark is kept |
| Countdown.TickKeepsWindowMark | src/application/services/game_service.py:113-115 | a stored mark stays inside the window [0, 2) |
| Countdown.SecondBeepDue | src/application/services/game_service.py:103-115 | from a mark of index at most 0, a tick in the last second makes at least one beep |
| Countdown.FirstBeepDue | src/application/services/game_service.py:103-115 | with an advancing clock, a fresh window with a tick in its first second and a later one in its last second beeps at least twice |
| Countdown.ExactlyTwoBeeps | src/application/services/game_service.py:102-115 | with an advancing clock, no tick exactly at 2 seconds remaining and a tick in each second, a fresh window beeps exactly twice |
| Countdown.BeepBound | src/application/services/game_service.py:103-115 | from any mark inside the window, a run of ticks beeps at most 1 - (mark index) times plus once per tick exactly at the window start |
| Countdown.AtMostTwoBeeps | src/application/services/game_service.py:137-149 | a countdown with no tick exactly at 2 seconds remaining beeps at most twice |
| Countdown.AtMostThreeBeeps | src/application/services/game_service.py:103-115 | with a clock that always advances, a countdown beeps at most three times |
| Countdown.ThreeBeepsFromExactStart | src/application/services/game_service.py:106-113 | ticks at 2.0, 1.5 and 0.5 seconds remaining beep three times, because the 0.0 mark reads as no mark |
| Countdown.StalledClockBeepsEveryTick | src/application/services/game_service.py:106-113 | n ticks all at exactly 2.0 seconds remaining beep n times |
| Countdown.StaleMarkSilences | src/application/services/game_service.py:106-113 | a stored mark in [1, 2) silences every later tick of the window |
| GameServices.UpdatePhase | src/application/services/game_service.py:94-154 | an idle or lost game is untouched; the pre-wave countdown runs before any clear logic and starts the wave exactly when its delay has elapsed; a wave with enemies left is untouched; a cleared wave is stamped once and never re-stamped; the next wave starts exactly when the clear delay has elapsed; a start clears both timers and the mark; beeps need the hook; the in-progress/no-stamp invariant is kept |
| GameServices.Survivors | src/application/services/game_service.py:66-67 | the cleanup never lengthens the list and keeps only living enemies |
| GameServices.SurvivorsMembers | src/application/services/game_service.py:66-67 | the cleanup keeps exactly the living enemies of the list and never lengthens it |
| GameServices.SurvivorsDistinct | src/application/services/game_service.py:66-67 | the cleanup of a list without duplicates has none |
| GameServices.SurvivorsAllAlive | src/application/services/game_service.py:66-67 | when every listed enemy is alive the cleanup keeps the list as it is |
| GameServices.RemoveFirst | src/application/services/game_service.py:193-194 | removing shortens the list by one when the enemy is listed and leaves it unchanged otherwise |
| GameServices.RemoveFirstLaws | src/application/services/game_service.py:193-194 | removing an absent enemy changes nothing; removing a present one shortens the list by one; in a list without duplicates it takes out exactly that enemy and keeps all others |
| GameServices.SpawnEvents | src/application/services/game_service.py:83-85 | one spawn notification per new enemy, in batch order |
| GameServices.DistinctConcat | src/application/services/game_service.py:75 | appending a batch of enemies not yet listed to a list without duplicates leaves none |
| GameServices.GameService.constructor | src/application/services/game_service.py:15-54 | a new service keeps its collaborators and delays, has no enemies, all phase flags off, no hooks and no events, and satisfies its invariant |
| GameServices.GameService.StartGame | src/application/services/game_service.py:56-62 | the game is started, the player restored, the list emptied, the wave counter 0, the first-wave stamp now; the wave-in-progress flag, clear stamp and beep mark are left as they were |
| GameServices.GameService.StartNextWave | src/application/services/game_service.py:64-85 | dead enemies are dropped, the wave counter rises by one, the new batch follows the survivors, the wave is in progress with no clear stamp, and the log gains the wave start then one spawn per new enemy; the invariant is kept |
| GameServices.GameService.AdvanceAndSpawn | src/application/services/game_service.py:69-74 | the wave counter rises by one and the returned batch is that wave's new enemies, none of them already listed |
| GameServices.GameService.NotifyWaveStart | src/application/services/game_service.py:79-85 | the log gains the wave-start notification (if hooked) followed by the spawn notifications (if hooked) |
| GameServices.GameService.CheckCountdownBeep | src/application/services/game_service.py:103-115 | the beep mark and the log change exactly as CountdownTick says |
| GameServices.GameService.Update | src/application/services/game_service.py:87-154 | the phase flags become UpdatePhase of the old ones; the log gains the beep and, on a wave start, the wave's notifications; a wave start raises the counter by one, sets the spawned counter to that wave's count and appends a new batch after the survivors; otherwise the counter and the list are untouched; the invariant is kept |
| GameServices.GameService.PreWaveUpdate | src/application/services/game_service.py:97-121 | the pre-wave countdown branch has the effect Update promises |
| GameServices.GameService.ClearUpdate | src/application/services/game_service.py:123-154 | the wave-clear and countdown branch has the effect Update promises |
| GameServices.GameService.HandleShootAttempt | src/application/services/game_service.py:156-169 | a shot is fired exactly when the player is alive and the weapon's cooldown has passed; the fire stamp changes only then |
| GameServices.GameService.HandleEnemyHit | src/application/services/game_service.py:171-200 | a dead enemy is left alone; otherwise the weapon's damage is applied; the enemy dies in this call exactly when it was alive and is now dead, and then kills rise by exactly one and it leaves the list; the damage and death notifications follow in that order; the invariant is kept |
| GameServices.GameService.HandlePlayerHit | src/application/services/game_service.py:202-217 | a dead player is left alone; the hit that kills stops the game and logs the death once; later hits log nothing |
| InputHandling.InputHandler.constructor | src/application/input/input_handler.py:11-22 | a new gate is not in the game-over state |
| InputHandling.InputHandler.HandleShoot | src/application/input/input_handler.py:24-33 | while the game is over nothing fires and the weapon is untouched; otherwise the result is exactly the service's shoot attempt |
| InputHandling.InputHandler.HandleRestart | src/application/input/input_handler.py:35-39 | when the game is not over nothing changes; when it is, the game is started as StartGame says and the flag is cleared |
| InputHandling.InputHandler.SetGameOver | src/application/input/input_handler.py:46-48 | the game-over flag becomes the given value |
| Scenarios.NewGame | main.py:131-152 | the objects wired with the shipped configuration, except the weapon damage the caller supplies, form a valid, not yet started service |
| Scenarios.FirstWave | src/application/services/game_service.py:97-121 | after start_game at 0 and ticks at 1 and 2 seconds, wave 1 runs with 5 enemies, every one at full health 100 and speed 5.0 |
| Scenarios.KillOnce | src/application/services/game_service.py:171-200 | a 150-damage hit on a 100-health enemy kills it, credits one kill and removes it; a second hit on the corpse credits nothing |
| Scenarios.DeathAndRestart | src/application/services/game_service.py:202-217 | hits of 60, 60 and 20 log the player's death exactly once and stop the game; a restart through the gate restores full health, zero kills and wave 0 |
| Scenarios.RestartMidWave | src/application/services/game_service.py:56-62 | a restart during wave 1 leaves the first-wave countdown pending and the wave still flagged in progress |
| Scenarios.CountdownBeeps | src/application/services/game_service.py:103-115 | with the beep hook, ticks at 0, 0.5, 1 and 1.5 seconds into the start countdown beep three times |
| Scenarios.FireCadence | src/application/input/input_handler.py:24-33 | with a 0.15 s fire rate, shots at 1.0, 1.1 and 1.2 seconds: the middle one is refused |

## Left out

- The Ursina host is not part of this model: `main.py` (apart from the wiring `Scenarios.NewGame` copies), rendering, physics, sound and device input.
- The enemy attack rule lives in the host, at main.py:71-105: an enemy that sees the player moves toward it until within the stop distance, then attacks when `can_attack` allows, stamps `perform_attack` and calls `handle_player_hit` with the fixed enemy damage. The model has the pieces (`Enemies.Enemy.CanAttack`, `Enemies.Enemy.PerformAttack`, `GameServices.GameService.HandlePlayerHit`) but not the host's chase-and-attack loop, which depends on raycasts and positions.
- The host's `hp` setter (main.py:61-69) applies the damage itself with `take_damage` and only then calls `handle_enemy_hit` on the already dead enemy. That call returns False at game_service.py:181-182, so a kill made through the setter is never credited and the dead enemy stays in the list. The model has only the service's damage and kill path, `GameServices.GameService.HandleEnemyHit`.
- Time is the explicit `now` argument instead of `time.time()`. The `delta_time` argument of `update` is unused by the code and is not modelled.
- One `now` stands for clock reads that the code makes separately. In the clear branch, `update` reads the clock once to stamp the clear (game_service.py:128) and again to measure the elapsed time (game_service.py:133). A shot attempt reads it in `can_fire` (weapon.py:32) and again in `fire` (weapon.py:37). The model uses one value for each pair. So when the clear delay is 2.0, the tick that stamps the clear is always exactly 2.0 seconds before the next wave, and it beeps with a 0.0 mark. The code beeps there only when both reads return the same time.
- Randomness: the draws of `random.uniform` are a supplied function (`samples`, and `draw(i)` for the i-th enemy of a wave). Their range is not modelled. That range comes from `spawn_wave` passing the spawn distances as `arena_size` and `margin` (wave_manager.py:84-87), and the model keeps only the arguments that matter: player at the origin, minimum distance 8.0.
- `math.sqrt`: distances are compared squared, which is exact on reals.
- Floating-point rounding: times, speeds and positions are exact reals. The beep index uses truncation toward zero, as Python's `int()` does.
- The player position: `_start_next_wave` calls `spawn_wave(wave_number, player_pos)` (game_service.py:74), but the definition at wave_manager.py:69 takes only the wave number. As written, that call raises a TypeError, after `advance_to_next_wave` (game_service.py:69) has already raised the wave counter and before any enemy is added or any flag is set. The model follows the one-argument definition, so a wave start completes. `player_renderer` and the position read from it are not modelled.
- `get_alive_enemies` is called by the host but is not defined in the service; it is not part of this model.
- Callbacks become the flags in `hooks` and the event log. A callback that calls back into the service is not modelled. `on_restart_requested` is never invoked by the core.
- `InputHandler.handle_quit` and `on_quit_requested` only forward to a host callback and are left out.
- Players.Player.TakeDamage: the amount is a `nat`; a negative damage, which in the code would raise health, is not modelled.
- Players.Player.Heal: the amount is a `nat`; a negative heal is not modelled.
- Enemies.Enemy.TakeDamage: the amount is a `nat`; a negative damage is not modelled.
- GameServices.GameService.HandlePlayerHit: the damage is a `nat`; a negative damage is not modelled.
- Maximum health (player and enemy) is a `nat`; a negative maximum is not modelled.
- Weapons.Weapon.constructor: the damage is a `nat`, while the code accepts any `int` (weapon.py:11). A negative weapon damage, which would raise an enemy's health in `handle_enemy_hit`, is not modelled.
