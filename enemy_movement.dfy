/** Enemy movement (EnemyMovement): a knockback that, once started, replaces walking until
    it runs out, the gate and scaling that decide how a knockback lands, and what happens
    to an enemy that leaves the camera frame. */
module EnemyMovement {

  datatype Vec = Vec(x: real, y: real)

  function Scale(v: Vec, k: real): Vec
  {
    Vec(v.x * k, v.y * k)
  }

  function Plus(a: Vec, b: Vec): Vec
  {
    Vec(a.x + b.x, a.y + b.y)
  }

  datatype OutOfFrameAction = NoAction | RespawnAtEdge | Despawn

  /** The KnockbackVariance flags (duration = 1, velocity = 2); velocity alone by default. */
  datatype Variance = Variance(duration: bool, velocity: bool)

  /** The exponent applied to the knockback multiplier: the multiplier's effect is split
      evenly (square root) when it scales both velocity and duration. */
  function Exponent(v: Variance): (p: real)
    ensures p == 0.5 <==> v.velocity && v.duration
    ensures p == 1.0 <==> !(v.velocity && v.duration)
  {
    if v.velocity && v.duration then 0.5 else 1.0
  }

  /** What HandleOutOfFrameAction does, given whether the enemy is inside the frame. */
  datatype FrameOutcome = Stay | MoveToEdge | Destroy | Inside

  function FrameDecision(within: bool, action: OutOfFrameAction, spawnedOutOfFrame: bool): (o: FrameOutcome)
    ensures o == Destroy <==> !within && action == Despawn && !spawnedOutOfFrame
    ensures o == Inside <==> within
  {
    if !within then
      match action
      case NoAction => Stay
      case RespawnAtEdge => MoveToEdge
      case Despawn => if !spawnedOutOfFrame then Destroy else Stay
    else Inside
  }

  /** A despawn-mode enemy over a run of frame checks (true: inside the frame): whether it
      is destroyed. The flag starts as "spawned outside" and is cleared inside the frame. */
  function Despawned(spawnedOutOfFrame: bool, within: seq<bool>): bool
    decreases |within|
  {
    if within == [] then false
    else match FrameDecision(within[0], Despawn, spawnedOutOfFrame)
      case Destroy => true
      case Inside => Despawned(false, within[1..])
      case _ => Despawned(spawnedOutOfFrame, within[1..])
  }

  /** A despawn-mode enemy is destroyed exactly when some check finds it outside the frame
      after it was either spawned inside or has been inside since: an enemy spawned outside
      survives until it has entered the frame once. */
  lemma {:induction false} DespawnedIff(spawnedOutOfFrame: bool, within: seq<bool>)
    ensures Despawned(spawnedOutOfFrame, within) <==>
              exists k :: 0 <= k < |within| && !within[k] && (!spawnedOutOfFrame || exists j :: 0 <= j < k && within[j])
    decreases |within|
  {
    if within != [] {
      var rest := within[1..];
      assert forall k :: 1 <= k < |within| ==> within[k] == rest[k - 1];
      if within[0] {
        DespawnedIff(false, rest);
        if Despawned(false, rest) {
          var k :| 0 <= k < |rest| && !rest[k];
          assert !within[k + 1] && within[0];
        }
      } else if !spawnedOutOfFrame {
        assert !within[0];
      } else {
        DespawnedIff(true, rest);
        if Despawned(true, rest) {
          var k :| 0 <= k < |rest| && !rest[k] && exists j :: 0 <= j < k && rest[j];
          var j :| 0 <= j < k && rest[j];
          assert !within[k + 1] && within[j + 1];
        }
      }
    }
  }

  class Mover {
    var position: Vec
    var knockbackVelocity: Vec
    var knockbackDuration: real
    var spawnedOutOfFrame: bool
    var destroyed: bool
    /** The number of Move calls. */
    var moves: nat
    const outOfFrameAction: OutOfFrameAction
    const variance: Variance
    /** Mathf.Pow, left uninterpreted. */
    const pow: (real, real) -> real

    /** Start: an enemy that appears outside the frame is flagged as spawned outside. */
    constructor (position: Vec, outOfFrameAction: OutOfFrameAction, variance: Variance,
                 pow: (real, real) -> real, within: bool)
      ensures spawnedOutOfFrame == !within && knockbackDuration == 0.0 && !destroyed && moves == 0
      ensures this.position == position && this.outOfFrameAction == outOfFrameAction
      ensures this.variance == variance && this.pow == pow
    {
      this.position := position;
      knockbackVelocity := Vec(0.0, 0.0);
      knockbackDuration := 0.0;
      spawnedOutOfFrame := !within;
      destroyed := false;
      moves := 0;
      this.outOfFrameAction := outOfFrameAction;
      this.variance := variance;
      this.pow := pow;
    }

    /** Knockback: ignored while a knockback is running and when no variance flag is set.
        Otherwise the velocity is scaled by multiplier^Exponent only under the velocity flag,
        and the duration only under the duration flag. */
    method Knockback(velocity: Vec, duration: real, multiplier: real)
      modifies this`knockbackVelocity, this`knockbackDuration
      ensures old(knockbackDuration) > 0.0 || (!variance.duration && !variance.velocity) ==>
                knockbackVelocity == old(knockbackVelocity) && knockbackDuration == old(knockbackDuration)
      ensures old(knockbackDuration) <= 0.0 && (variance.duration || variance.velocity) ==>
                var factor := pow(multiplier, Exponent(variance));
                knockbackVelocity == (if variance.velocity then Scale(velocity, factor) else velocity)
                && knockbackDuration == (if variance.duration then duration * factor else duration)
    {
      if knockbackDuration > 0.0 {
        return;
      }
      if !variance.duration && !variance.velocity {
        return;
      }
      var p := 1.0;
      var reducesVelocity, reducesDuration := variance.velocity, variance.duration;
      if reducesVelocity && reducesDuration {
        p := 0.5;
      }
      knockbackVelocity := Scale(velocity, if reducesVelocity then pow(multiplier, p) else 1.0);
      knockbackDuration := duration * (if reducesDuration then pow(multiplier, p) else 1.0);
    }

    /** HandleOutOfFrameAction, given whether the enemy is inside the frame and the edge
        position a respawn would use. */
    method HandleOutOfFrameAction(within: bool, edge: Vec)
      modifies this`position, this`destroyed, this`spawnedOutOfFrame
      ensures var o := FrameDecision(within, outOfFrameAction, old(spawnedOutOfFrame));
              (o == MoveToEdge ==> position == edge) && (o != MoveToEdge ==> position == old(position))
              && destroyed == (old(destroyed) || o == Destroy)
              && spawnedOutOfFrame == (old(spawnedOutOfFrame) && o != Inside)
    {
      if !within {
        match outOfFrameAction {
          case NoAction =>
          case RespawnAtEdge =>
            position := edge;
          case Despawn =>
            if !spawnedOutOfFrame {
              destroyed := true;
            }
        }
      } else {
        spawnedOutOfFrame := false;
      }
    }

    /** Update: a running knockback moves the enemy by its velocity and runs down, and the
        enemy neither walks nor is checked against the frame; otherwise it walks (to
        `walkedTo`, the result of MoveTowards) and the frame check follows. */
    method Update(dt: real, walkedTo: Vec, within: bool, edge: Vec)
      modifies this
      ensures old(knockbackDuration) > 0.0 ==>
                knockbackDuration == old(knockbackDuration) - dt && position == Plus(old(position), Scale(knockbackVelocity, dt))
                && moves == old(moves) && destroyed == old(destroyed) && spawnedOutOfFrame == old(spawnedOutOfFrame)
      ensures old(knockbackDuration) <= 0.0 ==>
                var o := FrameDecision(within, outOfFrameAction, old(spawnedOutOfFrame));
                moves == old(moves) + 1 && knockbackDuration == old(knockbackDuration)
                && position == (if o == MoveToEdge then edge else walkedTo)
                && destroyed == (old(destroyed) || o == Destroy)
                && spawnedOutOfFrame == (old(spawnedOutOfFrame) && o != Inside)
      ensures knockbackVelocity == old(knockbackVelocity)
    {
      if knockbackDuration > 0.0 {
        position := Plus(position, Scale(knockbackVelocity, dt));
        knockbackDuration := knockbackDuration - dt;
      } else {
        position := walkedTo;
        moves := moves + 1;
        HandleOutOfFrameAction(within, edge);
      }
    }
  }
}
