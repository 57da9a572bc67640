/** The older wave spawner (EnemySpawner, obsolete but self-contained): a wave's quota is
    the sum of its groups' enemy counts, each spawn pass gives every unfinished group one
    more enemy until the number alive reaches the cap, and a kill lowers the number alive. */
module EnemySpawner {

  /** EnemySpawner.EnemyGroup: how many enemies of this kind the wave spawns, and how many
      it has spawned so far. */
  datatype Group = Group(enemyCount: int, spawnCount: int)

  /** EnemySpawner.Wave: its groups, its quota and the number it has spawned. */
  datatype Wave = Wave(groups: seq<Group>, waveQuota: int, spawnCount: int)

  function EnemyTotal(gs: seq<Group>): int
    decreases |gs|
  {
    if gs == [] then 0 else gs[0].enemyCount + EnemyTotal(gs[1..])
  }

  function SpawnedTotal(gs: seq<Group>): int
    decreases |gs|
  {
    if gs == [] then 0 else gs[0].spawnCount + SpawnedTotal(gs[1..])
  }

  /** A group never spawns more than its count (a group with a non-positive count spawns
      nothing). */
  predicate GroupOk(g: Group)
  {
    0 <= g.spawnCount && (g.spawnCount == 0 || g.spawnCount <= g.enemyCount)
  }

  predicate GroupsOk(gs: seq<Group>)
  {
    forall i :: 0 <= i < |gs| ==> GroupOk(gs[i])
  }

  /** The wave's count is the sum of its groups' counts, and every group is within its own. */
  predicate WaveOk(w: Wave)
  {
    w.spawnCount == SpawnedTotal(w.groups) && GroupsOk(w.groups)
  }

  /** With non-negative enemy counts, a wave whose groups are within their counts has
      spawned no more than its quota. */
  lemma {:induction false} SpawnedWithinQuota(gs: seq<Group>)
    requires GroupsOk(gs)
    ensures (forall i :: 0 <= i < |gs| ==> gs[i].enemyCount >= 0) ==> 0 <= SpawnedTotal(gs) <= EnemyTotal(gs)
    decreases |gs|
  {
    if gs != [] {
      assert forall i :: 0 <= i < |gs[1..]| ==> gs[1..][i] == gs[i + 1];
      SpawnedWithinQuota(gs[1..]);
    }
  }

  /** The groups with enemies left to spawn. */
  function Unfinished(gs: seq<Group>): nat
    decreases |gs|
  {
    if gs == [] then 0 else (if gs[0].spawnCount < gs[0].enemyCount then 1 else 0) + Unfinished(gs[1..])
  }

  /** The outcome of one spawn pass: the groups afterwards, the number spawned, and whether
      the cap on enemies alive was reached. */
  datatype Pass = Pass(groups: seq<Group>, spawned: nat, reached: bool)

  /** The group loop of SpawnEnemies, from `alive` enemies alive under the cap `maxAllowed`. */
  function SpawnPass(gs: seq<Group>, alive: int, maxAllowed: int): Pass
    decreases |gs|
  {
    if gs == [] then Pass([], 0, false)
    else if gs[0].spawnCount < gs[0].enemyCount then
      var g := gs[0].(spawnCount := gs[0].spawnCount + 1);
      if alive + 1 >= maxAllowed then Pass([g] + gs[1..], 1, true)
      else
        var r := SpawnPass(gs[1..], alive + 1, maxAllowed);
        Pass([g] + r.groups, r.spawned + 1, r.reached)
    else
      var r := SpawnPass(gs[1..], alive, maxAllowed);
      Pass([gs[0]] + r.groups, r.spawned, r.reached)
  }

  /** A spawn pass keeps every group's enemy count, raises each group's spawn count by at
      most one and only while it has enemies left, raises the total by the number spawned,
      and keeps every group within its count. It stops at the cap: either the number alive
      reached it, or every unfinished group spawned one and the number alive stayed under. */
  lemma {:induction false} SpawnPassFacts(gs: seq<Group>, alive: int, maxAllowed: int)
    ensures var p := SpawnPass(gs, alive, maxAllowed);
      |p.groups| == |gs|
      && (forall i :: 0 <= i < |gs| ==> p.groups[i].enemyCount == gs[i].enemyCount)
      && (forall i :: 0 <= i < |gs| ==>
            p.groups[i].spawnCount == gs[i].spawnCount
            || (p.groups[i].spawnCount == gs[i].spawnCount + 1 && gs[i].spawnCount < gs[i].enemyCount))
      && SpawnedTotal(p.groups) == SpawnedTotal(gs) + p.spawned
      && (GroupsOk(gs) ==> GroupsOk(p.groups))
      && (p.reached ==> p.spawned > 0 && alive + p.spawned >= maxAllowed)
      && (!p.reached ==> p.spawned == Unfinished(gs) && (p.spawned > 0 ==> alive + p.spawned < maxAllowed))
    decreases |gs|
  {
    if gs != [] {
      assert forall i :: 1 <= i < |gs| ==> gs[1..][i - 1] == gs[i];
      if gs[0].spawnCount < gs[0].enemyCount {
        var g := gs[0].(spawnCount := gs[0].spawnCount + 1);
        if alive + 1 >= maxAllowed {
          assert ([g] + gs[1..])[1..] == gs[1..];
        } else {
          SpawnPassFacts(gs[1..], alive + 1, maxAllowed);
          var r := SpawnPass(gs[1..], alive + 1, maxAllowed);
          assert ([g] + r.groups)[1..] == r.groups;
        }
      } else {
        SpawnPassFacts(gs[1..], alive, maxAllowed);
        var r := SpawnPass(gs[1..], alive, maxAllowed);
        assert ([gs[0]] + r.groups)[1..] == r.groups;
      }
    }
  }

  class Spawner {
    var waves: seq<Wave>
    var currentWaveCount: int
    var enemiesAlive: int
    const maxEnemiesAllowed: int
    var maxEnemiesReached: bool

    /** The wave index is in range, every wave is consistent, and the cap flag is only set
        while the number alive is at or over the cap. */
    ghost predicate Valid()
      reads this
    {
      0 <= currentWaveCount < |waves|
      && (forall i :: 0 <= i < |waves| ==> WaveOk(waves[i]))
      && (maxEnemiesReached ==> enemiesAlive >= maxEnemiesAllowed)
    }

    constructor (waves: seq<Wave>, maxEnemiesAllowed: int)
      requires |waves| > 0 && forall i :: 0 <= i < |waves| ==> WaveOk(waves[i])
      ensures Valid()
      ensures this.waves == waves && this.maxEnemiesAllowed == maxEnemiesAllowed
      ensures currentWaveCount == 0 && enemiesAlive == 0 && !maxEnemiesReached
    {
      this.waves := waves;
      this.maxEnemiesAllowed := maxEnemiesAllowed;
      currentWaveCount := 0;
      enemiesAlive := 0;
      maxEnemiesReached := false;
    }

    /** CalculateWaveQuota: the current wave's quota becomes the sum of its groups' enemy
        counts; nothing else changes. With non-negative counts the wave has then spawned
        no more than its quota. */
    method CalculateWaveQuota()
      requires Valid()
      modifies this`waves
      ensures Valid()
      ensures waves == old(waves)[currentWaveCount := old(waves[currentWaveCount]).(waveQuota := EnemyTotal(old(waves[currentWaveCount]).groups))]
      ensures (forall g :: g in waves[currentWaveCount].groups ==> g.enemyCount >= 0) ==>
                waves[currentWaveCount].spawnCount <= waves[currentWaveCount].waveQuota
    {
      var gs := waves[currentWaveCount].groups;
      var quota := 0;
      var i := 0;
      while i < |gs|
        invariant 0 <= i <= |gs|
        invariant quota + EnemyTotal(gs[i..]) == EnemyTotal(gs)
      {
        assert gs[i..][1..] == gs[i + 1..];
        quota := quota + gs[i].enemyCount;
        i := i + 1;
      }
      waves := waves[currentWaveCount := waves[currentWaveCount].(waveQuota := quota)];
      SpawnedWithinQuota(gs);
    }

    /** SpawnEnemies: nothing once the wave has met its quota or the cap was reached.
        Otherwise each group with enemies left spawns one, raising its own count, the wave's
        and the number alive together, and the pass stops, setting the flag, as soon as the
        number alive reaches the cap. */
    method SpawnEnemies() returns (spawned: nat)
      requires Valid()
      modifies this
      ensures Valid()
      ensures currentWaveCount == old(currentWaveCount)
      ensures old(waves[currentWaveCount].spawnCount >= waves[currentWaveCount].waveQuota || maxEnemiesReached) ==>
                spawned == 0 && waves == old(waves) && enemiesAlive == old(enemiesAlive) && maxEnemiesReached == old(maxEnemiesReached)
      ensures !old(waves[currentWaveCount].spawnCount >= waves[currentWaveCount].waveQuota || maxEnemiesReached) ==>
                var w := old(waves[currentWaveCount]);
                var p := SpawnPass(w.groups, old(enemiesAlive), maxEnemiesAllowed);
                spawned == p.spawned
                && waves == old(waves)[currentWaveCount := w.(groups := p.groups, spawnCount := w.spawnCount + p.spawned)]
                && enemiesAlive == old(enemiesAlive) + p.spawned
                && maxEnemiesReached == p.reached
    {
      spawned := 0;
      var w := waves[currentWaveCount];
      if !(w.spawnCount < w.waveQuota && !maxEnemiesReached) {
        return;
      }
      var p := GroupLoop(w.groups, enemiesAlive, maxEnemiesAllowed);
      SpawnPassFacts(w.groups, enemiesAlive, maxEnemiesAllowed);
      spawned := p.spawned;
      enemiesAlive := enemiesAlive + p.spawned;
      maxEnemiesReached := p.reached;
      waves := waves[currentWaveCount := w.(groups := p.groups, spawnCount := w.spawnCount + p.spawned)];
    }

    /** OnEnemyKilled: one fewer alive; dropping under the cap clears the flag. */
    method OnEnemyKilled()
      requires Valid()
      modifies this`enemiesAlive, this`maxEnemiesReached
      ensures Valid()
      ensures enemiesAlive == old(enemiesAlive) - 1
      ensures maxEnemiesReached <==> old(maxEnemiesReached) && enemiesAlive >= maxEnemiesAllowed
    {
      enemiesAlive := enemiesAlive - 1;
      if enemiesAlive < maxEnemiesAllowed {
        maxEnemiesReached := false;
      }
    }
  }

  /** The foreach over the groups inside SpawnEnemies, on the groups and the number alive. */
  method GroupLoop(groups: seq<Group>, alive0: int, maxAllowed: int) returns (p: Pass)
    ensures p == SpawnPass(groups, alive0, maxAllowed)
  {
    var gs := groups;
    var alive := alive0;
    var spawned := 0;
    var i := 0;
    assert gs[0..] == gs;
    while i < |gs|
      invariant 0 <= i <= |gs| && |gs| == |groups|
      invariant alive == alive0 + spawned
      invariant SpawnPass(groups, alive0, maxAllowed) == Finish(gs, i, spawned, alive, maxAllowed)
    {
      FinishStep(gs, i, spawned, alive, maxAllowed);
      if gs[i].spawnCount < gs[i].enemyCount {
        gs := gs[i := gs[i].(spawnCount := gs[i].spawnCount + 1)];
        spawned := spawned + 1;
        alive := alive + 1;
        if alive >= maxAllowed {
          return Pass(gs, spawned, true);
        }
      }
      i := i + 1;
    }
    assert gs[..|gs|] == gs;
    return Pass(gs, spawned, false);
  }

  /** The outcome of a spawn pass that has handled the groups before `i`, spawning
      `spawned` of them, and goes on over the rest with `alive` enemies alive. */
  ghost function Finish(gs: seq<Group>, i: nat, spawned: nat, alive: int, maxAllowed: int): Pass
    requires i <= |gs|
  {
    var r := SpawnPass(gs[i..], alive, maxAllowed);
    Pass(gs[..i] + r.groups, spawned + r.spawned, r.reached)
  }

  /** Handling group `i` either stops the pass at the cap or moves on to group `i + 1`. */
  lemma FinishStep(gs: seq<Group>, i: nat, spawned: nat, alive: int, maxAllowed: int)
    requires i < |gs|
    ensures gs[i].spawnCount < gs[i].enemyCount ==>
              var gs' := gs[i := gs[i].(spawnCount := gs[i].spawnCount + 1)];
              (alive + 1 >= maxAllowed ==> Finish(gs, i, spawned, alive, maxAllowed) == Pass(gs', spawned + 1, true))
              && (alive + 1 < maxAllowed ==> Finish(gs, i, spawned, alive, maxAllowed) == Finish(gs', i + 1, spawned + 1, alive + 1, maxAllowed))
    ensures gs[i].spawnCount >= gs[i].enemyCount ==>
              Finish(gs, i, spawned, alive, maxAllowed) == Finish(gs, i + 1, spawned, alive, maxAllowed)
  {
    assert gs[i..][1..] == gs[i + 1..];
    var g := gs[i].(spawnCount := gs[i].spawnCount + 1);
    var gs' := gs[i := g];
    assert gs'[i + 1..] == gs[i + 1..];
    assert gs'[..i + 1] == gs[..i] + [g];
    assert gs' == gs[..i] + ([g] + gs[i + 1..]);
    assert gs[..i + 1] == gs[..i] + [gs[i]];
  }
}
