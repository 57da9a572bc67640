/** The wave spawner (SpawnManager): a timer that, when it runs out, either advances to the
    next wave or spawns the current wave's enemies while the admission rule allows, then
    re-arms the timer with the wave's interval shortened by the curse. */
module SpawnManager {
  import opened EnemyStats

  /** WaveData, reduced to what the spawner reads: the spawn allowance, the duration and
      the exit conditions (duration elapsed and/or every enemy killed). */
  datatype WaveData = WaveData(totalSpawns: int, duration: real, exitOnDuration: bool, mustKillAll: bool)

  /** HasExceededMaxEnemies: with no spawner instance nothing is limited. */
  predicate HasExceededMaxEnemies(hasInstance: bool, count: int, maximumEnemyCount: int)
  {
    hasInstance && count > maximumEnemyCount
  }

  /** HasWaveEnded on values. */
  predicate WaveEnded(w: WaveData, waveDuration: real, count: int)
  {
    if w.exitOnDuration && waveDuration < w.duration then false
    else if w.mustKillAll && count > 0 then false
    else true
  }

  /** A wave ends exactly when each of its exit conditions is met: the duration has run
      out (if it is one) and no enemy is left (if every one must be killed). */
  lemma WaveEndsWhenConditionsMet(w: WaveData, waveDuration: real, count: int)
    ensures WaveEnded(w, waveDuration, count) <==>
              (w.exitOnDuration ==> waveDuration >= w.duration) && (w.mustKillAll ==> count <= 0)
  {
  }

  /** CanSpawn on values. The spawn-count test is strict, so a wave may spawn one more
      than its allowance. */
  predicate CanSpawnIn(w: WaveData, maximumEnemyCount: int, spawnCount: int, waveDuration: real, count: int)
  {
    if HasExceededMaxEnemies(true, count, maximumEnemyCount) then false
    else if spawnCount > w.totalSpawns then false
    else if waveDuration > w.duration then false
    else true
  }

  /** The most enemies a wave can spawn: one past its allowance. */
  function SpawnCap(w: WaveData): nat
  {
    if w.totalSpawns + 1 > 0 then w.totalSpawns + 1 else 0
  }

  /** The timer increment of ActivateCooldown. */
  function CooldownIncrement(interval: real, boostedByCurse: bool, curse: real): (d: real)
    requires curse >= 1.0
    ensures interval >= 0.0 ==> 0.0 <= d <= interval
    ensures !boostedByCurse ==> d == interval
  {
    interval / (if boostedByCurse then curse else 1.0)
  }

  class Spawner {
    var currentWaveIndex: int
    var currentWaveSpawnCount: int
    const data: seq<WaveData>
    const maximumEnemyCount: int
    var spawnTimer: real
    var currentWaveDuration: real
    const boostedByCurse: bool
    /** The component's `enabled` flag: Update runs only while it is set. */
    var enabled: bool
    /** EnemyStats.count. */
    const counter: EnemyCounter

    /** While running, the wave index is in range and the wave has spawned no more than its
        cap. */
    ghost predicate Valid()
      reads this
    {
      0 <= currentWaveIndex
      && (enabled ==> currentWaveIndex < |data| && 0 <= currentWaveSpawnCount <= SpawnCap(data[currentWaveIndex]))
    }

    constructor (data: seq<WaveData>, maximumEnemyCount: int, boostedByCurse: bool, counter: EnemyCounter)
      requires |data| > 0
      ensures Valid() && enabled
      ensures this.data == data && this.maximumEnemyCount == maximumEnemyCount
      ensures this.boostedByCurse == boostedByCurse && this.counter == counter
      ensures currentWaveIndex == 0 && currentWaveSpawnCount == 0 && spawnTimer == 0.0 && currentWaveDuration == 0.0
    {
      this.data := data;
      this.maximumEnemyCount := maximumEnemyCount;
      this.boostedByCurse := boostedByCurse;
      this.counter := counter;
      currentWaveIndex := 0;
      currentWaveSpawnCount := 0;
      spawnTimer := 0.0;
      currentWaveDuration := 0.0;
      enabled := true;
    }

    predicate HasWaveEnded()
      requires 0 <= currentWaveIndex < |data|
      reads this, counter
    {
      WaveEnded(data[currentWaveIndex], currentWaveDuration, counter.count)
    }

    predicate CanSpawn()
      requires 0 <= currentWaveIndex < |data|
      reads this, counter
    {
      CanSpawnIn(data[currentWaveIndex], maximumEnemyCount, currentWaveSpawnCount, currentWaveDuration, counter.count)
    }

    /** ActivateCooldown: the timer grows by the wave's spawn interval (an input: WaveData's
        interval draw is not part of this model), divided by the curse when boosted. */
    method ActivateCooldown(interval: real, curse: real)
      requires curse >= 1.0
      modifies this`spawnTimer
      ensures spawnTimer == old(spawnTimer) + CooldownIncrement(interval, boostedByCurse, curse)
    {
      var curseBoost := if boostedByCurse then curse else 1.0;
      spawnTimer := spawnTimer + interval / curseBoost;
    }

    /** Update: the timer and the wave clock advance. When the timer runs out, an ended wave
        moves on to the next one (switching the spawner off after the last); otherwise, if
        spawning is allowed, each of the tick's `spawns` prefabs is spawned while CanSpawn
        holds, and the timer is re-armed. The curse is GameManager's cumulative curse. */
    method Update(dt: real, spawns: nat, interval: real, curse: real) returns (spawned: nat)
      requires Valid() && enabled && curse >= 1.0
      modifies this, counter
      ensures Valid()
      ensures var t := old(spawnTimer) - dt;
              t > 0.0 ==>
                spawnTimer == t && currentWaveDuration == old(currentWaveDuration) + dt && spawned == 0
                && currentWaveIndex == old(currentWaveIndex) && currentWaveSpawnCount == old(currentWaveSpawnCount)
                && enabled && counter.count == old(counter.count)
      ensures var t := old(spawnTimer) - dt;
              t <= 0.0 && WaveEnded(old(data[currentWaveIndex]), old(currentWaveDuration) + dt, old(counter.count)) ==>
                currentWaveIndex == old(currentWaveIndex) + 1 && currentWaveDuration == 0.0 && currentWaveSpawnCount == 0
                && spawnTimer == t && enabled == (currentWaveIndex < |data|) && spawned == 0 && counter.count == old(counter.count)
      ensures var t := old(spawnTimer) - dt;
              t <= 0.0 && !WaveEnded(old(data[currentWaveIndex]), old(currentWaveDuration) + dt, old(counter.count)) ==>
                spawnTimer == t + CooldownIncrement(interval, boostedByCurse, curse)
                && currentWaveDuration == old(currentWaveDuration) + dt && currentWaveIndex == old(currentWaveIndex) && enabled
                && spawned <= spawns
                && currentWaveSpawnCount == old(currentWaveSpawnCount) + spawned
                && counter.count == old(counter.count) + spawned
                && (spawned > 0 ==> counter.count <= (if old(counter.count) > maximumEnemyCount + 1 then old(counter.count) else maximumEnemyCount + 1))
      ensures var t := old(spawnTimer) - dt;
              t <= 0.0 && !CanSpawnIn(old(data[currentWaveIndex]), maximumEnemyCount, old(currentWaveSpawnCount), old(currentWaveDuration) + dt, old(counter.count)) ==>
                spawned == 0
    {
      spawnTimer := spawnTimer - dt;
      currentWaveDuration := currentWaveDuration + dt;
      spawned := 0;
      if spawnTimer <= 0.0 {
        if HasWaveEnded() {
          currentWaveIndex := currentWaveIndex + 1;
          currentWaveDuration := 0.0;
          currentWaveSpawnCount := 0;
          if currentWaveIndex >= |data| {
            enabled := false;
          }
          return;
        }
        if !CanSpawn() {
          ActivateCooldown(interval, curse);
          return;
        }
        var i := 0;
        while i < spawns
          invariant 0 <= i <= spawns && spawned <= i
          invariant currentWaveIndex == old(currentWaveIndex) && currentWaveDuration == old(currentWaveDuration) + dt
          invariant spawnTimer == old(spawnTimer) - dt && enabled
          invariant currentWaveSpawnCount == old(currentWaveSpawnCount) + spawned
          invariant counter.count == old(counter.count) + spawned
          invariant 0 <= currentWaveSpawnCount <= SpawnCap(data[currentWaveIndex])
          invariant spawned > 0 ==> counter.count <= (if old(counter.count) > maximumEnemyCount + 1 then old(counter.count) else maximumEnemyCount + 1)
        {
          if CanSpawn() {
            counter.Spawned();
            currentWaveSpawnCount := currentWaveSpawnCount + 1;
            spawned := spawned + 1;
          }
          i := i + 1;
        }
        ActivateCooldown(interval, curse);
      }
    }
  }
}
