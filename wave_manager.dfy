/**
 * Wave progression of src/domain/wave_system/wave_manager.py: linear
 * formulas for the enemy count and speed of wave n, construction of a
 * wave's batch of enemies, and the wave counter.
 */
module WaveManagement {

  import opened Health
  import opened Enemies

  /** spawn_wave calls generate_spawn_position with its default player position and minimum distance. */
  const SpawnOrigin: Vec3 := Vec3(0.0, 0.0, 0.0)
  const DefaultMinPlayerDistance: real := 8.0

  class WaveManager {
    const baseEnemyCount: int
    const enemyCountIncrement: int
    const baseEnemySpeed: real
    const enemySpeedIncrement: real
    const enemyMaxHealth: nat
    const spawnDistanceMin: real
    const spawnDistanceMax: real
    var currentWave: int
    var enemiesSpawnedThisWave: int

    constructor (baseEnemyCount: int, enemyCountIncrement: int, baseEnemySpeed: real,
                 enemySpeedIncrement: real, enemyMaxHealth: nat,
                 spawnDistanceMin: real, spawnDistanceMax: real)
      ensures this.baseEnemyCount == baseEnemyCount && this.enemyCountIncrement == enemyCountIncrement
      ensures this.baseEnemySpeed == baseEnemySpeed && this.enemySpeedIncrement == enemySpeedIncrement
      ensures this.enemyMaxHealth == enemyMaxHealth
      ensures this.spawnDistanceMin == spawnDistanceMin && this.spawnDistanceMax == spawnDistanceMax
      ensures currentWave == 0 && enemiesSpawnedThisWave == 0
    {
      this.baseEnemyCount := baseEnemyCount;
      this.enemyCountIncrement := enemyCountIncrement;
      this.baseEnemySpeed := baseEnemySpeed;
      this.enemySpeedIncrement := enemySpeedIncrement;
      this.enemyMaxHealth := enemyMaxHealth;
      this.spawnDistanceMin := spawnDistanceMin;
      this.spawnDistanceMax := spawnDistanceMax;
      currentWave := 0;
      enemiesSpawnedThisWave := 0;
    }

    /** Wave 1 has the base count; a later wave has at least as many when the increment is not negative. */
    function EnemyCountForWave(waveNumber: int): (count: int)
      ensures waveNumber == 1 ==> count == baseEnemyCount
      ensures waveNumber >= 1 && enemyCountIncrement >= 0 ==> count >= baseEnemyCount
    {
      baseEnemyCount + (waveNumber - 1) * enemyCountIncrement
    }

    /** Wave 1 has the base speed; a later wave is at least as fast when the increment is not negative. */
    function EnemySpeedForWave(waveNumber: int): (speed: real)
      ensures waveNumber == 1 ==> speed == baseEnemySpeed
      ensures waveNumber >= 1 && enemySpeedIncrement >= 0.0 ==> speed >= baseEnemySpeed
    {
      baseEnemySpeed + (waveNumber - 1) as real * enemySpeedIncrement
    }

    /** Wave 1 has the base count and every wave adds the increment. */
    lemma CountProgression(waveNumber: int)
      ensures EnemyCountForWave(1) == baseEnemyCount
      ensures EnemyCountForWave(waveNumber + 1) - EnemyCountForWave(waveNumber) == enemyCountIncrement
    {
    }

    /** Wave 1 has the base speed and every wave adds the increment. */
    lemma SpeedProgression(waveNumber: int)
      ensures EnemySpeedForWave(1) == baseEnemySpeed
      ensures EnemySpeedForWave(waveNumber + 1) - EnemySpeedForWave(waveNumber) == enemySpeedIncrement
    {
    }

    /** How many enemies `range(EnemyCountForWave(n))` yields: none for a negative count. */
    function BatchSize(waveNumber: int): nat
    {
      Max(0, EnemyCountForWave(waveNumber))
    }

    /** `batch` is wave `waveNumber`'s enemies as spawn_wave builds them from the draws `draw`. */
    ghost predicate IsWave(batch: seq<Enemy>, waveNumber: int, draw: nat -> (nat -> Sample))
      reads batch
    {
      |batch| == BatchSize(waveNumber) && Distinct(batch) &&
      forall i :: 0 <= i < |batch| ==>
        batch[i].Valid() && batch[i].maxHealth == enemyMaxHealth && batch[i].health == enemyMaxHealth &&
        batch[i].speed == EnemySpeedForWave(waveNumber) && batch[i].lastAttackTime == 0.0 &&
        batch[i].position == SpawnPoint(draw(i), SpawnOrigin, DefaultMinPlayerDistance)
    }

    /**
     * Builds the wave's enemies, all new objects at full health with the
     * wave's speed; draw(i) supplies the random draws for the i-th enemy.
     */
    method SpawnWave(waveNumber: int, draw: nat -> (nat -> Sample)) returns (batch: seq<Enemy>)
      modifies this`enemiesSpawnedThisWave
      ensures IsWave(batch, waveNumber, draw)
      ensures forall e :: e in batch ==> fresh(e)
      ensures enemiesSpawnedThisWave == EnemyCountForWave(waveNumber)
    {
      var enemyCount := EnemyCountForWave(waveNumber);
      var enemySpeed := EnemySpeedForWave(waveNumber);
      batch := [];
      var i := 0;
      while i < enemyCount
        invariant 0 <= i == |batch| <= BatchSize(waveNumber)
        invariant Distinct(batch)
        invariant forall e :: e in batch ==> fresh(e)
        invariant forall k :: 0 <= k < i ==>
          batch[k].Valid() && batch[k].maxHealth == enemyMaxHealth && batch[k].health == enemyMaxHealth &&
          batch[k].speed == enemySpeed && batch[k].lastAttackTime == 0.0 &&
          batch[k].position == SpawnPoint(draw(k), SpawnOrigin, DefaultMinPlayerDistance)
      {
        var position := Enemy.GenerateSpawnPosition(SpawnOrigin, DefaultMinPlayerDistance, draw(i));
        var enemy := new Enemy(position, enemySpeed, enemyMaxHealth);
        batch := batch + [enemy];
        i := i + 1;
      }
      enemiesSpawnedThisWave := enemyCount;
    }

    method AdvanceToNextWave() returns (waveNumber: int)
      modifies this`currentWave
      ensures currentWave == old(currentWave) + 1
      ensures waveNumber == currentWave
    {
      currentWave := currentWave + 1;
      waveNumber := currentWave;
    }
  }
}
