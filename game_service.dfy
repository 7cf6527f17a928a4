/**
 * The orchestration state machine of src/application/services/game_service.py.
 * It owns the enemy list, moves through pre-wave countdown, wave active,
 * wave cleared, countdown, next wave, stops at the player's death, resolves
 * shots and hits, and notifies the host. Host callbacks are modelled by the
 * set of installed hooks and a log of the notifications they receive; the
 * clock is the explicit `now` argument.
 */
module GameServices {

  import opened Optional
  import opened Health
  import opened Countdown
  import opened Players
  import opened Enemies
  import opened Weapons
  import opened WaveManagement

  /** A notification delivered to the host, in the order the service makes them. */
  datatype Event =
    | WaveStarted(wave: int)
    | EnemySpawned(enemy: Enemy)
    | EnemyDamaged(enemy: Enemy)
    | EnemyDied(enemy: Enemy)
    | PlayerDied
    | CountdownBeeped

  /** Which of the host callbacks are installed (the source tests each for None before calling it). */
  datatype Hooks = Hooks(enemySpawn: bool, enemyDeath: bool, enemyDamaged: bool,
                         waveStart: bool, playerDeath: bool, countdownBeep: bool)

  const NoHooks: Hooks := Hooks(false, false, false, false, false, false)

  /** The phase flags and timestamps the service keeps. */
  datatype Phase = Phase(gameStarted: bool, waveInProgress: bool, waveClearTime: Option<real>,
                         firstWaveStartTime: Option<real>, lastCountdownBeep: Option<real>)

  /** The flags after _start_next_wave. */
  function WaveBegun(p: Phase): Phase
  {
    p.(waveInProgress := true, waveClearTime := None)
  }

  /** A wave in progress has no clear stamp. */
  predicate PhaseOk(p: Phase)
  {
    p.waveInProgress ==> p.waveClearTime.None?
  }

  datatype Tick = Tick(next: Phase, beeped: bool, startsWave: bool)

  /**
   * What one call of update does to the phase flags: whether it beeps and
   * whether it starts the next wave. The pre-wave countdown returns before
   * any wave-clear logic; a cleared wave is stamped once; the next wave
   * starts once its delay has elapsed, clearing the stamp and the beep mark.
   */
  function UpdatePhase(p: Phase, playerAlive: bool, rosterEmpty: bool, now: real,
                       waveStartDelay: real, waveClearDelay: real, beepHook: bool): (t: Tick)
    ensures !p.gameStarted || !playerAlive ==> t == Tick(p, false, false)
    ensures t.next.gameStarted == p.gameStarted
    ensures PhaseOk(p) ==> PhaseOk(t.next)
    ensures WindowMark(p.lastCountdownBeep) ==> WindowMark(t.next.lastCountdownBeep)
    ensures t.startsWave ==>
              t.next.waveInProgress && t.next.waveClearTime.None? &&
              t.next.firstWaveStartTime.None? && t.next.lastCountdownBeep.None?
    ensures t.beeped ==> beepHook
    // pre-wave countdown
    ensures p.gameStarted && playerAlive && p.firstWaveStartTime.Some? ==>
              (t.startsWave <==> now - p.firstWaveStartTime.value >= waveStartDelay) &&
              (!t.startsWave ==> t.next == p.(lastCountdownBeep := t.next.lastCountdownBeep))
    // a wave in progress with enemies left: nothing happens
    ensures p.gameStarted && playerAlive && p.firstWaveStartTime.None? && p.waveInProgress && !rosterEmpty ==>
              t == Tick(p, false, false)
    // wave clear detection
    ensures p.gameStarted && playerAlive && p.firstWaveStartTime.None? && p.waveInProgress && rosterEmpty &&
            p.waveClearTime.None? ==>
              (t.startsWave <==> waveClearDelay <= 0.0) &&
              (!t.startsWave ==> !t.next.waveInProgress && t.next.waveClearTime == Some(now))
    // countdown after a clear
    ensures p.gameStarted && playerAlive && p.firstWaveStartTime.None? && !p.waveInProgress &&
            p.waveClearTime.Some? ==>
              (t.startsWave <==> now - p.waveClearTime.value >= waveClearDelay)
    // an existing clear stamp is never overwritten
    ensures p.waveClearTime.Some? && !t.startsWave ==> t.next.waveClearTime == p.waveClearTime
    // only the countdowns touch the beep mark
    ensures t.next.lastCountdownBeep != p.lastCountdownBeep ==>
              t.beeped || t.startsWave || (t.next.waveClearTime.Some? && p.waveClearTime.None?)
  {
    if !p.gameStarted || !playerAlive then Tick(p, false, false)
    else if p.firstWaveStartTime.Some? then
      var elapsed := now - p.firstWaveStartTime.value;
      var b := CountdownTick(beepHook, waveStartDelay - elapsed, p.lastCountdownBeep);
      if elapsed >= waveStartDelay then
        Tick(WaveBegun(p.(firstWaveStartTime := None, lastCountdownBeep := None)), b.beeped, true)
      else
        Tick(p.(lastCountdownBeep := b.mark), b.beeped, false)
    else
      var q :=
        if p.waveInProgress && rosterEmpty then
          if p.waveClearTime.None? then p.(waveInProgress := false, waveClearTime := Some(now), lastCountdownBeep := None)
          else p.(waveInProgress := false)
        else p;
      if !q.waveInProgress && q.waveClearTime.Some? then
        var elapsed := now - q.waveClearTime.value;
        var b := CountdownTick(beepHook, waveClearDelay - elapsed, q.lastCountdownBeep);
        if elapsed >= waveClearDelay then
          Tick(WaveBegun(q.(waveClearTime := None, lastCountdownBeep := None)), b.beeped, true)
        else
          Tick(q.(lastCountdownBeep := b.mark), b.beeped, false)
      else
        Tick(q, false, false)
  }

  /** The enemies still alive, in list order. */
  function Survivors(s: seq<Enemy>): (r: seq<Enemy>)
    reads s
    ensures |r| <= |s|
    ensures forall i :: 0 <= i < |r| ==> r[i].IsAlive()
  {
    if s == [] then []
    else if s[0].IsAlive() then [s[0]] + Survivors(s[1..])
    else Survivors(s[1..])
  }

  /** The survivors are exactly the living members of the list. */
  lemma {:induction false} SurvivorsMembers(s: seq<Enemy>)
    ensures forall e :: e in Survivors(s) ==> e in s && e.IsAlive()
    ensures forall e :: e in s && e.IsAlive() ==> e in Survivors(s)
    ensures |Survivors(s)| <= |s|
  {
    if s != [] {
      SurvivorsMembers(s[1..]);
      assert s == [s[0]] + s[1..];
    }
  }

  /** Filtering a list without duplicates leaves none. */
  lemma {:induction false} SurvivorsDistinct(s: seq<Enemy>)
    requires Distinct(s)
    ensures Distinct(Survivors(s))
  {
    if s != [] {
      SurvivorsMembers(s[1..]);
      SurvivorsDistinct(s[1..]);
      assert s[0] !in s[1..];
    }
  }

  /** When every enemy in the list is alive, the cleanup keeps the list as it is. */
  lemma {:induction false} SurvivorsAllAlive(s: seq<Enemy>)
    requires forall e :: e in s ==> e.IsAlive()
    ensures Survivors(s) == s
  {
    if s != [] {
      assert forall e :: e in s[1..] ==> e in s;
      SurvivorsAllAlive(s[1..]);
      assert s == [s[0]] + s[1..];
    }
  }

  /** The list after Python's list.remove: the first occurrence of `e` is taken out. */
  function RemoveFirst(s: seq<Enemy>, e: Enemy): (r: seq<Enemy>)
    ensures |r| == if e in s then |s| - 1 else |s|
    ensures e !in s ==> r == s
  {
    if s == [] then []
    else if s[0] == e then s[1..]
    else [s[0]] + RemoveFirst(s[1..], e)
  }

  /**
   * Removing an absent enemy changes nothing; removing a present one shortens
   * the list by one, and in a list without duplicates takes out exactly that
   * enemy.
   */
  lemma {:induction false} RemoveFirstLaws(s: seq<Enemy>, e: Enemy)
    ensures e !in s ==> RemoveFirst(s, e) == s
    ensures e in s ==> |RemoveFirst(s, e)| == |s| - 1
    ensures forall x :: x in RemoveFirst(s, e) ==> x in s
    ensures Distinct(s) ==>
              Distinct(RemoveFirst(s, e)) && e !in RemoveFirst(s, e) &&
              forall x :: x in s && x != e ==> x in RemoveFirst(s, e)
  {
    if s != [] && s[0] != e {
      RemoveFirstLaws(s[1..], e);
      assert Distinct(s) ==> s[0] !in s[1..];
    }
  }

  /** One spawn notification per new enemy, in batch order. */
  function SpawnEvents(batch: seq<Enemy>): (r: seq<Event>)
    ensures |r| == |batch|
    ensures forall i :: 0 <= i < |batch| ==> r[i] == EnemySpawned(batch[i])
  {
    if batch == [] then [] else SpawnEvents(batch[..|batch| - 1]) + [EnemySpawned(batch[|batch| - 1])]
  }

  /** The notifications of a wave start: the wave number first, then the spawns. */
  function WaveEvents(hooks: Hooks, waveNumber: int, batch: seq<Enemy>): seq<Event>
  {
    (if hooks.waveStart then [WaveStarted(waveNumber)] else []) +
    (if hooks.enemySpawn then SpawnEvents(batch) else [])
  }

  lemma DistinctConcat(a: seq<Enemy>, b: seq<Enemy>)
    requires Distinct(a) && Distinct(b)
    requires forall e :: e in a ==> e !in b
    ensures Distinct(a + b)
  {
    forall i, j | 0 <= i < j < |a + b|
      ensures (a + b)[i] != (a + b)[j]
    {
      if j >= |a| && i < |a| {
        assert (a + b)[i] in a && (a + b)[j] in b;
      }
    }
  }

  class GameService {
    const player: Player
    const weapon: Weapon
    const waveManager: WaveManager
    const waveClearDelay: real
    const waveStartDelay: real

    var enemies: seq<Enemy>
    var gameStarted: bool
    var waveInProgress: bool
    var waveClearTime: Option<real>
    var firstWaveStartTime: Option<real>
    var lastCountdownBeep: Option<real>
    var hooks: Hooks
    var events: seq<Event>

    /**
     * The service's invariant: the player's health is in bounds, a wave in
     * progress has no clear stamp, the pre-wave countdown runs with wave 0 and
     * no enemies, the countdown after a clear runs with no enemies, the beep
     * mark lies inside the beep window, and no enemy is listed twice.
     */
    ghost predicate Valid()
      reads this, player, waveManager
    {
      player.Valid() &&
      PhaseOk(CurrentPhase()) &&
      WindowMark(lastCountdownBeep) &&
      (firstWaveStartTime.Some? ==> waveManager.currentWave == 0 && enemies == []) &&
      (waveClearTime.Some? ==> enemies == []) &&
      Distinct(enemies)
    }

    function CurrentPhase(): Phase
      reads this
    {
      Phase(gameStarted, waveInProgress, waveClearTime, firstWaveStartTime, lastCountdownBeep)
    }

    constructor (player: Player, weapon: Weapon, waveManager: WaveManager,
                 waveClearDelay: real := 3.0, waveStartDelay: real := 2.0)
      requires player.Valid()
      ensures Valid()
      ensures this.player == player && this.weapon == weapon && this.waveManager == waveManager
      ensures this.waveClearDelay == waveClearDelay && this.waveStartDelay == waveStartDelay
      ensures enemies == [] && CurrentPhase() == Phase(false, false, None, None, None)
      ensures hooks == NoHooks && events == []
    {
      this.player := player;
      this.weapon := weapon;
      this.waveManager := waveManager;
      this.waveClearDelay := waveClearDelay;
      this.waveStartDelay := waveStartDelay;
      enemies := [];
      gameStarted := false;
      waveInProgress := false;
      waveClearTime := None;
      firstWaveStartTime := None;
      lastCountdownBeep := None;
      hooks := NoHooks;
      events := [];
    }

    /**
     * Starts (or restarts) the game: the player is restored, the list is
     * emptied, the wave counter is 0 and the first countdown begins. The
     * wave-in-progress flag, the clear stamp and the beep mark are left as
     * they were.
     */
    method StartGame(now: real)
      requires Valid()
      modifies this`gameStarted, this`enemies, this`firstWaveStartTime, player`health, player`kills,
               waveManager`currentWave
      ensures Valid()
      ensures CurrentPhase() == old(CurrentPhase()).(gameStarted := true, firstWaveStartTime := Some(now))
      ensures player.health == player.maxHealth && player.kills == 0
      ensures enemies == [] && waveManager.currentWave == 0
    {
      gameStarted := true;
      player.Reset();
      enemies := [];
      waveManager.currentWave := 0;
      firstWaveStartTime := Some(now);
    }

    /**
     * Drops dead enemies, advances the wave counter, appends the new batch
     * after the survivors, marks the wave in progress and notifies the host:
     * the wave number first, then one spawn per new enemy in batch order.
     */
    method StartNextWave(draw: nat -> (nat -> Sample)) returns (ghost batch: seq<Enemy>)
      requires Valid() && firstWaveStartTime.None?
      modifies this`enemies, this`waveInProgress, this`waveClearTime, this`events,
               waveManager`currentWave, waveManager`enemiesSpawnedThisWave
      ensures Valid()
      ensures CurrentPhase() == WaveBegun(old(CurrentPhase()))
      ensures waveManager.currentWave == old(waveManager.currentWave) + 1
      ensures waveManager.IsWave(batch, waveManager.currentWave, draw) && forall e :: e in batch ==> fresh(e)
      ensures waveManager.enemiesSpawnedThisWave == waveManager.EnemyCountForWave(waveManager.currentWave)
      ensures enemies == old(Survivors(enemies)) + batch
      ensures events == old(events) + WaveEvents(hooks, waveManager.currentWave, batch)
    {
      ghost var p0 := CurrentPhase();
      var survivors := Survivors(enemies);
      assert survivors == old(Survivors(enemies));
      SurvivorsMembers(enemies);
      SurvivorsDistinct(enemies);
      var waveNumber, newEnemies := AdvanceAndSpawn(draw);
      batch := newEnemies;
      DistinctConcat(survivors, newEnemies);
      enemies, waveInProgress, waveClearTime := survivors + newEnemies, true, None;
      assert CurrentPhase() == WaveBegun(p0);
      NotifyWaveStart(waveNumber, newEnemies);
      assert CurrentPhase() == WaveBegun(p0);
    }

    /** The wave manager's part of a wave start: the next wave number and its batch of new enemies. */
    method AdvanceAndSpawn(draw: nat -> (nat -> Sample)) returns (waveNumber: int, newEnemies: seq<Enemy>)
      modifies waveManager`currentWave, waveManager`enemiesSpawnedThisWave
      ensures waveNumber == waveManager.currentWave == old(waveManager.currentWave) + 1
      ensures waveManager.IsWave(newEnemies, waveNumber, draw) && forall e :: e in newEnemies ==> fresh(e)
      ensures forall e :: e in enemies ==> e !in newEnemies
      ensures waveManager.enemiesSpawnedThisWave == waveManager.EnemyCountForWave(waveNumber)
    {
      waveNumber := waveManager.AdvanceToNextWave();
      newEnemies := waveManager.SpawnWave(waveNumber, draw);
    }

    /** The wave-start notification, then one spawn notification per new enemy. */
    method NotifyWaveStart(waveNumber: int, newEnemies: seq<Enemy>)
      modifies this`events
      ensures events == old(events) + WaveEvents(hooks, waveNumber, newEnemies)
    {
      if hooks.waveStart {
        events := events + [WaveStarted(waveNumber)];
      }
      if hooks.enemySpawn {
        ghost var before := events;
        for i := 0 to |newEnemies|
          invariant events == before + SpawnEvents(newEnemies[..i])
        {
          assert newEnemies[..i + 1][..i] == newEnemies[..i];
          events := events + [EnemySpawned(newEnemies[i])];
        }
        assert newEnemies[..|newEnemies|] == newEnemies;
      }
    }

    /**
     * The beep check of one countdown tick, `remaining` seconds before the
     * countdown ends.
     */
    method CheckCountdownBeep(remaining: real)
      modifies this`events, this`lastCountdownBeep
      ensures var b := CountdownTick(hooks.countdownBeep, remaining, old(lastCountdownBeep));
              lastCountdownBeep == b.mark &&
              events == old(events) + (if b.beeped then [CountdownBeeped] else [])
    {
      if hooks.countdownBeep && remaining <= BeepWindow && remaining > 0.0 {
        var currentBeep := Trunc((BeepWindow - remaining) / BeepInterval);
        var lastBeep :=
          if lastCountdownBeep.Some? then
            Trunc((if lastCountdownBeep.value == 0.0 then -1.0 else lastCountdownBeep.value) / BeepInterval)
          else -1;
        if currentBeep > lastBeep {
          events := events + [CountdownBeeped];
          lastCountdownBeep := Some(BeepWindow - remaining);
        }
      }
    }

    /**
     * One host tick. Its effect on the phase flags is UpdatePhase; when that
     * starts a wave, the wave counter rises by one and the new batch
     * `spawned` follows the survivors in the list.
     */
    method Update(now: real, draw: nat -> (nat -> Sample)) returns (ghost spawned: seq<Enemy>)
      requires Valid()
      modifies this`enemies, this`waveInProgress, this`waveClearTime, this`firstWaveStartTime,
               this`lastCountdownBeep, this`events, waveManager`currentWave, waveManager`enemiesSpawnedThisWave
      ensures Valid()
      ensures var t := UpdatePhase(old(CurrentPhase()), player.IsAlive(), old(enemies) == [], now,
                                   waveStartDelay, waveClearDelay, hooks.countdownBeep);
              CurrentPhase() == t.next
      ensures var t := UpdatePhase(old(CurrentPhase()), player.IsAlive(), old(enemies) == [], now,
                                   waveStartDelay, waveClearDelay, hooks.countdownBeep);
              events == old(events) + (if t.beeped then [CountdownBeeped] else []) +
                        (if t.startsWave then WaveEvents(hooks, waveManager.currentWave, spawned) else [])
      ensures var t := UpdatePhase(old(CurrentPhase()), player.IsAlive(), old(enemies) == [], now,
                                   waveStartDelay, waveClearDelay, hooks.countdownBeep);
              t.startsWave ==>
                waveManager.currentWave == old(waveManager.currentWave) + 1 &&
                waveManager.IsWave(spawned, waveManager.currentWave, draw) &&
                waveManager.enemiesSpawnedThisWave == waveManager.EnemyCountForWave(waveManager.currentWave) &&
                (forall e :: e in spawned ==> fresh(e)) &&
                enemies == old(Survivors(enemies)) + spawned
      ensures var t := UpdatePhase(old(CurrentPhase()), player.IsAlive(), old(enemies) == [], now,
                                   waveStartDelay, waveClearDelay, hooks.countdownBeep);
              !t.startsWave ==>
                waveManager.currentWave == old(waveManager.currentWave) && enemies == old(enemies) &&
                waveManager.enemiesSpawnedThisWave == old(waveManager.enemiesSpawnedThisWave) && spawned == []
    {
      spawned := [];
      if !gameStarted || !player.IsAlive() {
        return;
      }
      if firstWaveStartTime.Some? {
        spawned := PreWaveUpdate(now, draw);
      } else {
        spawned := ClearUpdate(now, draw);
      }
    }

    /** The pre-wave countdown branch of update: the only branch while the first wave is pending. */
    method PreWaveUpdate(now: real, draw: nat -> (nat -> Sample)) returns (ghost spawned: seq<Enemy>)
      requires Valid() && gameStarted && player.IsAlive() && firstWaveStartTime.Some?
      modifies this`enemies, this`waveInProgress, this`waveClearTime, this`firstWaveStartTime,
               this`lastCountdownBeep, this`events, waveManager`currentWave, waveManager`enemiesSpawnedThisWave
      ensures Valid()
      ensures var t := UpdatePhase(old(CurrentPhase()), player.IsAlive(), old(enemies) == [], now,
                                   waveStartDelay, waveClearDelay, hooks.countdownBeep);
              CurrentPhase() == t.next
      ensures var t := UpdatePhase(old(CurrentPhase()), player.IsAlive(), old(enemies) == [], now,
                                   waveStartDelay, waveClearDelay, hooks.countdownBeep);
              events == old(events) + (if t.beeped then [CountdownBeeped] else []) +
                        (if t.startsWave then WaveEvents(hooks, waveManager.currentWave, spawned) else [])
      ensures var t := UpdatePhase(old(CurrentPhase()), player.IsAlive(), old(enemies) == [], now,
                                   waveStartDelay, waveClearDelay, hooks.countdownBeep);
              t.startsWave ==>
                waveManager.currentWave == old(waveManager.currentWave) + 1 &&
                waveManager.IsWave(spawned, waveManager.currentWave, draw) &&
                waveManager.enemiesSpawnedThisWave == waveManager.EnemyCountForWave(waveManager.currentWave) &&
                (forall e :: e in spawned ==> fresh(e)) &&
                enemies == old(Survivors(enemies)) + spawned
      ensures var t := UpdatePhase(old(CurrentPhase()), player.IsAlive(), old(enemies) == [], now,
                                   waveStartDelay, waveClearDelay, hooks.countdownBeep);
              !t.startsWave ==>
                waveManager.currentWave == old(waveManager.currentWave) && enemies == old(enemies) &&
                waveManager.enemiesSpawnedThisWave == old(waveManager.enemiesSpawnedThisWave) && spawned == []
    {
      spawned := [];
      var elapsed := now - firstWaveStartTime.value;
      CheckCountdownBeep(waveStartDelay - elapsed);
      if elapsed >= waveStartDelay {
        firstWaveStartTime := None;
        lastCountdownBeep := None;
        spawned := StartNextWave(draw);
      }
    }

    /** The wave-clear branch of update: stamp a cleared wave once, then count down to the next. */
    method ClearUpdate(now: real, draw: nat -> (nat -> Sample)) returns (ghost spawned: seq<Enemy>)
      requires Valid() && gameStarted && player.IsAlive() && firstWaveStartTime.None?
      modifies this`enemies, this`waveInProgress, this`waveClearTime, this`firstWaveStartTime,
               this`lastCountdownBeep, this`events, waveManager`currentWave, waveManager`enemiesSpawnedThisWave
      ensures Valid()
      ensures var t := UpdatePhase(old(CurrentPhase()), player.IsAlive(), old(enemies) == [], now,
                                   waveStartDelay, waveClearDelay, hooks.countdownBeep);
              CurrentPhase() == t.next
      ensures var t := UpdatePhase(old(CurrentPhase()), player.IsAlive(), old(enemies) == [], now,
                                   waveStartDelay, waveClearDelay, hooks.countdownBeep);
              events == old(events) + (if t.beeped then [CountdownBeeped] else []) +
                        (if t.startsWave then WaveEvents(hooks, waveManager.currentWave, spawned) else [])
      ensures var t := UpdatePhase(old(CurrentPhase()), player.IsAlive(), old(enemies) == [], now,
                                   waveStartDelay, waveClearDelay, hooks.countdownBeep);
              t.startsWave ==>
                waveManager.currentWave == old(waveManager.currentWave) + 1 &&
                waveManager.IsWave(spawned, waveManager.currentWave, draw) &&
                waveManager.enemiesSpawnedThisWave == waveManager.EnemyCountForWave(waveManager.currentWave) &&
                (forall e :: e in spawned ==> fresh(e)) &&
                enemies == old(Survivors(enemies)) + spawned
      ensures var t := UpdatePhase(old(CurrentPhase()), player.IsAlive(), old(enemies) == [], now,
                                   waveStartDelay, waveClearDelay, hooks.countdownBeep);
              !t.startsWave ==>
                waveManager.currentWave == old(waveManager.currentWave) && enemies == old(enemies) &&
                waveManager.enemiesSpawnedThisWave == old(waveManager.enemiesSpawnedThisWave) && spawned == []
    {
      spawned := [];
      if waveInProgress && |enemies| == 0 {
        waveInProgress := false;
        if waveClearTime.None? {
          waveClearTime := Some(now);
          lastCountdownBeep := None;
        }
      }

      if !waveInProgress && waveClearTime.Some? {
        var elapsed := now - waveClearTime.value;
        CheckCountdownBeep(waveClearDelay - elapsed);
        if elapsed >= waveClearDelay {
          waveClearTime := None;
          lastCountdownBeep := None;
          spawned := StartNextWave(draw);
        }
      }
    }

    /** A shot is fired exactly when the player is alive and the weapon's cooldown has passed. */
    method HandleShootAttempt(now: real) returns (fired: bool)
      modifies weapon`lastFireTime
      ensures fired <==> player.IsAlive() && old(weapon.CanFire(now))
      ensures weapon.lastFireTime == if fired then now else old(weapon.lastFireTime)
    {
      if !player.IsAlive() {
        return false;
      }
      if weapon.CanFire(now) {
        weapon.Fire(now);
        return true;
      }
      return false;
    }

    /**
     * A weapon hit on `enemy`. A dead enemy is left alone. Otherwise the
     * weapon's damage is applied; if that kills it, the player is credited
     * with exactly one kill, the enemy leaves the list and the host is told.
     */
    method HandleEnemyHit(enemy: Enemy) returns (died: bool)
      requires Valid() && enemy.Valid()
      modifies this`enemies, this`events, enemy`health, player`kills
      ensures Valid() && enemy.Valid()
      ensures enemy.health == Damaged(old(enemy.health), weapon.damage)
      ensures died <==> old(enemy.IsAlive()) && !enemy.IsAlive()
      ensures player.kills == old(player.kills) + (if died then 1 else 0)
      ensures enemies == if died then RemoveFirst(old(enemies), enemy) else old(enemies)
      ensures died ==> enemy !in enemies
      ensures events == old(events) +
                        (if old(enemy.IsAlive()) && hooks.enemyDamaged then [EnemyDamaged(enemy)] else []) +
                        (if died && hooks.enemyDeath then [EnemyDied(enemy)] else [])
    {
      if !enemy.IsAlive() {
        return false;
      }
      enemy.TakeDamage(weapon.damage);
      if hooks.enemyDamaged {
        events := events + [EnemyDamaged(enemy)];
      }
      if !enemy.IsAlive() {
        player.AddKill();
        RemoveFirstLaws(enemies, enemy);
        if enemy in enemies {
          enemies := RemoveFirst(enemies, enemy);
        }
        if hooks.enemyDeath {
          events := events + [EnemyDied(enemy)];
        }
        return true;
      }
      return false;
    }

    /**
     * Damage to the player. Nothing happens once the player is dead; the hit
     * that kills stops the game and notifies the host, once.
     */
    method HandlePlayerHit(damage: nat)
      requires Valid()
      modifies this`gameStarted, this`events, player`health
      ensures Valid()
      ensures player.health == Damaged(old(player.health), damage)
      ensures gameStarted == (old(gameStarted) && !(old(player.IsAlive()) && !player.IsAlive()))
      ensures events == old(events) +
                        (if old(player.IsAlive()) && !player.IsAlive() && hooks.playerDeath then [PlayerDied] else [])
    {
      if !player.IsAlive() {
        return;
      }
      player.TakeDamage(damage);
      if !player.IsAlive() {
        gameStarted := false;
        if hooks.playerDeath {
          events := events + [PlayerDied];
        }
      }
    }
  }
}
