/**
 * End-to-end runs of the game service, wired as main.py wires it
 * (config/game_config.py supplies the numbers): a fresh player, weapon,
 * wave manager and service, driven through the host's calls with an
 * explicit clock.
 */
module Scenarios {

  import opened Optional
  import opened Players
  import opened Enemies
  import opened Weapons
  import opened WaveManagement
  import opened GameServices
  import opened InputHandling

  /** Every random draw lands at the same point, well away from the origin. */
  function FixedDraw(i: nat): nat -> Sample
  {
    (k: nat) => Sample(20.0, 20.0)
  }

  /** A new, not yet started game with the shipped configuration and the given weapon damage. */
  method NewGame(weaponDamage: nat) returns (gs: GameService)
    ensures fresh(gs) && fresh(gs.player) && fresh(gs.weapon) && fresh(gs.waveManager)
    ensures gs.Valid() && gs.enemies == [] && gs.events == [] && gs.hooks == NoHooks
    ensures gs.CurrentPhase() == Phase(false, false, None, None, None)
    ensures gs.player.maxHealth == 100 && gs.player.health == 100 && gs.player.kills == 0
    ensures gs.weapon.fireRate == 0.15 && gs.weapon.damage == weaponDamage && gs.weapon.lastFireTime == 0.0
    ensures gs.waveManager.baseEnemyCount == 5 && gs.waveManager.enemyCountIncrement == 3
    ensures gs.waveManager.baseEnemySpeed == 5.0 && gs.waveManager.enemySpeedIncrement == 0.5
    ensures gs.waveManager.enemyMaxHealth == 100 && gs.waveManager.currentWave == 0
    ensures gs.waveStartDelay == 2.0 && gs.waveClearDelay == 3.0
  {
    var player := new Player(100);
    var weapon := new Weapon(0.15, weaponDamage, 100.0);
    var waveManager := new WaveManager(5, 3, 5.0, 0.5, 100, 15.0, 25.0);
    gs := new GameService(player, weapon, waveManager, 3.0);
  }

  /** A game started at t = 0 and ticked at t = 1, still counting down to the first wave. */
  method CountingDown(weaponDamage: nat, draw: nat -> (nat -> Sample)) returns (gs: GameService)
    ensures fresh(gs) && fresh(gs.player) && fresh(gs.weapon) && fresh(gs.waveManager)
    ensures gs.Valid() && gs.hooks == NoHooks && gs.events == [] && gs.enemies == []
    ensures gs.CurrentPhase() == Phase(true, false, None, Some(0.0), None)
    ensures gs.player.maxHealth == 100 && gs.player.health == 100 && gs.player.kills == 0
    ensures gs.weapon.damage == weaponDamage && gs.waveManager.currentWave == 0
    ensures gs.waveManager.enemyMaxHealth == 100 && gs.waveManager.baseEnemyCount == 5
    ensures gs.waveManager.baseEnemySpeed == 5.0 && gs.waveStartDelay == 2.0
  {
    gs := NewGame(weaponDamage);
    gs.StartGame(0.0);
    ghost var none := gs.Update(1.0, draw);
  }

  /**
   * A game started at t = 0 and ticked once the 2-second start delay has
   * passed: wave 1 is running with the base count of new enemies, every
   * one of them at full health with the wave-1 speed.
   */
  method RunningFirstWave(weaponDamage: nat, draw: nat -> (nat -> Sample)) returns (gs: GameService)
    ensures fresh(gs) && fresh(gs.player) && fresh(gs.weapon) && fresh(gs.waveManager)
    ensures gs.Valid() && gs.hooks == NoHooks && gs.events == []
    ensures gs.gameStarted && gs.waveInProgress && gs.firstWaveStartTime.None?
    ensures gs.player.maxHealth == 100 && gs.player.health == 100 && gs.player.kills == 0
    ensures gs.weapon.damage == weaponDamage && gs.waveManager.currentWave == 1
    ensures |gs.enemies| == 5 && fresh(gs.enemies[0])
    ensures forall i :: 0 <= i < |gs.enemies| ==>
              gs.enemies[i].Valid() && gs.enemies[i].health == 100 && gs.enemies[i].speed == 5.0
  {
    gs := CountingDown(weaponDamage, draw);
    ghost var batch := BeginFirstWave(gs, draw);
    WaveOneEnemies(gs.waveManager, batch, draw);
  }

  /** The tick at t = 2 of a game started at t = 0: the start delay has passed and wave 1 begins. */
  method BeginFirstWave(gs: GameService, draw: nat -> (nat -> Sample)) returns (ghost batch: seq<Enemy>)
    requires gs.Valid() && gs.hooks == NoHooks && gs.events == [] && gs.enemies == []
    requires gs.CurrentPhase() == Phase(true, false, None, Some(0.0), None)
    requires gs.player.health == 100 && gs.waveStartDelay == 2.0 && gs.waveManager.currentWave == 0
    modifies gs, gs.waveManager
    ensures gs.Valid() && gs.hooks == NoHooks && gs.events == []
    ensures gs.gameStarted && gs.waveInProgress && gs.firstWaveStartTime.None?
    ensures gs.waveManager.currentWave == 1
    ensures gs.enemies == batch && gs.waveManager.IsWave(batch, 1, draw)
    ensures forall e :: e in batch ==> fresh(e)
  {
    batch := gs.Update(2.0, draw);
  }

  /** The enemies of wave 1 under the shipped configuration: five, at full health 100 and speed 5.0. */
  lemma WaveOneEnemies(wm: WaveManager, batch: seq<Enemy>, draw: nat -> (nat -> Sample))
    requires wm.baseEnemyCount == 5 && wm.baseEnemySpeed == 5.0 && wm.enemyMaxHealth == 100
    requires wm.IsWave(batch, 1, draw)
    ensures |batch| == 5 && batch[0] in batch
    ensures forall i :: 0 <= i < |batch| ==> batch[i].Valid() && batch[i].health == 100 && batch[i].speed == 5.0
  {
  }

  /**
   * start_game at t = 0, then update ticks until the start delay has
   * passed: wave 1 is running with the base count of enemies, all at full
   * health and wave-1 speed.
   */
  method FirstWave() returns (wave: int, healths: seq<int>, speeds: seq<real>)
    ensures wave == 1 && healths == [100, 100, 100, 100, 100] && speeds == [5.0, 5.0, 5.0, 5.0, 5.0]
  {
    var gs := RunningFirstWave(10, FixedDraw);
    wave := gs.waveManager.currentWave;
    healths, speeds := [], [];
    for i := 0 to |gs.enemies|
      invariant |healths| == |speeds| == i
      invariant forall k :: 0 <= k < i ==> healths[k] == 100 && speeds[k] == 5.0
    {
      healths, speeds := healths + [gs.enemies[i].health], speeds + [gs.enemies[i].speed];
    }
  }

  /**
   * A 150-damage hit on a full-health enemy kills it: one kill, and it has
   * left the list. Hitting the corpse again credits nothing more.
   */
  method KillOnce() returns (died: bool, kills: nat, listed: bool, diedAgain: bool, killsAfter: nat)
    ensures died && kills == 1 && !listed
    ensures !diedAgain && killsAfter == 1
  {
    var gs := RunningFirstWave(150, FixedDraw);
    var target := gs.enemies[0];
    died := gs.HandleEnemyHit(target);
    kills := gs.player.kills;
    listed := target in gs.enemies;
    diedAgain := gs.HandleEnemyHit(target);
    killsAfter := gs.player.kills;
  }

  /**
   * The player is driven to 0 health, then hit again: the death is
   * reported once and the game stops. A restart through the input gate
   * then restores health, kills and the wave counter.
   */
  method DeathAndRestart() returns (log: seq<Event>, stopped: bool, health: int, kills: nat, wave: int)
    ensures log == [PlayerDied] && stopped
    ensures health == 100 && kills == 0 && wave == 0
  {
    var gs := RunningFirstWave(150, FixedDraw);
    gs.hooks := gs.hooks.(playerDeath := true);
    var target := gs.enemies[0];
    var died := gs.HandleEnemyHit(target);
    PlayerKilled(gs);
    log := gs.events;
    stopped := !gs.gameStarted;
    var input := new InputHandler(gs);
    input.SetGameOver(true);
    input.HandleRestart(10.0);
    health := gs.player.health;
    kills := gs.player.kills;
    wave := gs.waveManager.currentWave;
  }

  /** Hits of 60, 60 and 20 on a full-health player: the third one kills, and only it is logged. */
  method PlayerKilled(gs: GameService)
    requires gs.Valid() && gs.gameStarted && gs.events == [] && gs.hooks.playerDeath
    requires gs.player.maxHealth == 100 && gs.player.health == 100
    modifies gs`gameStarted, gs`events, gs.player`health
    ensures gs.Valid() && gs.events == [PlayerDied] && !gs.gameStarted
  {
    gs.HandlePlayerHit(60);
    gs.HandlePlayerHit(60);
    gs.HandlePlayerHit(20);
  }

  /**
   * A restart while a wave runs: the first-wave countdown is pending and
   * the old wave is still flagged as in progress.
   */
  method RestartMidWave() returns (pending: bool, inProgress: bool)
    ensures pending && inProgress
  {
    var gs := RunningFirstWave(10, FixedDraw);
    gs.StartGame(5.0);
    pending := gs.firstWaveStartTime.Some?;
    inProgress := gs.waveInProgress;
  }

  /**
   * With the beep hook installed, ticks at 0 and 0.5 seconds into the
   * 2-second start countdown both beep: the tick at exactly 2 seconds
   * remaining leaves a 0.0 mark, which reads as no beep yet.
   */
  method TwoEarlyBeeps() returns (gs: GameService)
    ensures fresh(gs) && fresh(gs.player) && fresh(gs.weapon) && fresh(gs.waveManager)
    ensures gs.Valid() && gs.hooks == NoHooks.(countdownBeep := true)
    ensures gs.CurrentPhase() == Phase(true, false, None, Some(0.0), Some(0.5))
    ensures gs.player.health == 100 && gs.waveStartDelay == 2.0 && gs.enemies == []
    ensures gs.events == [CountdownBeeped, CountdownBeeped]
  {
    gs := NewGame(10);
    gs.hooks := gs.hooks.(countdownBeep := true);
    gs.StartGame(0.0);
    ghost var s0 := gs.Update(0.0, FixedDraw);
    assert gs.events == [CountdownBeeped] && gs.lastCountdownBeep == Some(0.0);
    ghost var s1 := gs.Update(0.5, FixedDraw);
  }

  /**
   * Continuing at 1 and 1.5 seconds: one more beep, for three in the
   * window where the countdown promises two.
   */
  method CountdownBeeps() returns (log: seq<Event>)
    ensures log == [CountdownBeeped, CountdownBeeped, CountdownBeeped]
  {
    var gs := TwoEarlyBeeps();
    ghost var s2 := gs.Update(1.0, FixedDraw);
    assert gs.lastCountdownBeep == Some(1.0);
    ghost var s3 := gs.Update(1.5, FixedDraw);
    log := gs.events;
  }

  /** With a 0.15 s fire rate, shots at 1.0, 1.1 and 1.2 s: the middle one is refused. */
  method FireCadence() returns (first: bool, second: bool, third: bool)
    ensures first && !second && third
  {
    var gs := NewGame(10);
    var input := new InputHandler(gs);
    first := input.HandleShoot(1.0);
    second := input.HandleShoot(1.1);
    third := input.HandleShoot(1.2);
  }
}
