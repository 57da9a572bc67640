/** A collectible (Pickup): the first collector claims it and schedules its destruction;
    on destruction the claimed pickup grants its experience and health to that player. */
module Pickups {
  import opened Common
  import opened PlayerStats

  class Pickup {
    /** Seconds until destruction once collected; 0.5 unless a collector overrides it. */
    var lifespan: real
    var target: Option<Player>
    var speed: real
    /** The delay passed to Destroy, once one is scheduled. */
    var destroyAfter: Option<real>
    const experience: int
    const health: int

    constructor (experience: int, health: int)
      ensures lifespan == 0.5 && target == None && destroyAfter == None
      ensures this.experience == experience && this.health == health
    {
      lifespan := 0.5;
      target := None;
      speed := 0.0;
      destroyAfter := None;
      this.experience := experience;
      this.health := health;
    }

    /** Collect: only an unclaimed pickup can be collected. It takes the collector and the
        speed, the lifespan only when a positive one is passed, and is scheduled for
        destruction after max(0.01, lifespan) seconds, so always after a positive delay. */
    method Collect(t: Player, speed: real, lifespan: real) returns (collected: bool)
      modifies this
      ensures collected <==> old(target).None?
      ensures !collected ==> target == old(target) && this.speed == old(this.speed)
                             && this.lifespan == old(this.lifespan) && destroyAfter == old(destroyAfter)
      ensures collected ==> target == Some(t) && this.speed == speed
      ensures collected ==> this.lifespan == (if lifespan > 0.0 then lifespan else old(this.lifespan))
      ensures collected ==> destroyAfter == Some(MaxReal(0.01, this.lifespan)) && destroyAfter.value > 0.0
    {
      if target.None? {
        target := Some(t);
        this.speed := speed;
        if lifespan > 0.0 {
          this.lifespan := lifespan;
        }
        destroyAfter := Some(MaxReal(0.01, this.lifespan));
        return true;
      }
      return false;
    }

    /** OnDestroy: an unclaimed pickup grants nothing; a claimed one adds its experience
        (levelling the player up as far as it reaches) when non-zero, then restores its
        health when non-zero. */
    method OnDestroy() returns (levelUps: nat)
      requires target.Some? ==> target.value.Valid()
      modifies if target.Some? then {target.value, target.value.gm} else {}
      ensures target.None? ==> levelUps == 0
      ensures target.Some? ==> target.value.Valid()
      ensures target.Some? && experience != 0 ==>
                var p := target.value;
                (p.CurrentProgress(), levelUps) ==
                  LevelUps(Progress(old(p.experience) + experience, old(p.level), old(p.experienceCap)), p.levelRanges)
      ensures target.Some? && experience == 0 ==>
                target.value.CurrentProgress() == old(target.value.CurrentProgress()) && levelUps == 0
      ensures target.Some? && health != 0 ==>
                target.value.health == Restored(old(target.value.health), target.value.maxHealth, health as real)
      ensures target.Some? ==> health == 0 ==> target.value.health == old(target.value.health)
      ensures target.Some? ==> target.value.gm.Pending() == old(target.value.gm.Pending()) + levelUps
    {
      levelUps := 0;
      if target.None? {
        return;
      }
      var p := target.value;
      if experience != 0 {
        levelUps := p.IncreaseExperience(experience);
      }
      if health != 0 {
        p.RestoreHealth(health as real);
      }
    }
  }

  /** PlayerCollector.OnTriggerEnter2D: when the collider that touched the collector carries
      a pickup, the collector's player collects it at the pull speed with the default
      (zero) lifespan, so the pickup keeps its own lifespan. */
  method OnTriggerEnter2D(touched: Option<Pickup>, player: Player, pullSpeed: real) returns (collected: bool)
    modifies if touched.Some? then {touched.value} else {}
    ensures touched.None? ==> !collected
    ensures touched.Some? ==> (collected <==> old(touched.value.target).None?)
    ensures touched.Some? && collected ==>
              touched.value.target == Some(player) && touched.value.speed == pullSpeed
              && touched.value.lifespan == old(touched.value.lifespan)
    ensures touched.Some? && !collected ==> touched.value.target == old(touched.value.target)
  {
    collected := false;
    if touched.Some? {
      collected := touched.value.Collect(player, pullSpeed, 0.0);
    }
  }
}
