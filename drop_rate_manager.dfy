/** The drop table an enemy or prop rolls when it is destroyed (DropRateManager): one roll
    in [0, 100] decides which drops are eligible, and one of those, drawn uniformly, is
    spawned. */
module DropRateManager {
  import opened Common

  /** DropRateManager.Drops: the prefab (by id) and its drop rate, a percentage. */
  datatype Drop = Drop(id: nat, dropRate: real)

  /** The drops whose rate reaches the roll, in table order. */
  function Eligible(drops: seq<Drop>, roll: real): (r: seq<Drop>)
    ensures |r| <= |drops|
    ensures forall d :: d in r <==> d in drops && roll <= d.dropRate
  {
    if drops == [] then []
    else
      var init := drops[..|drops| - 1];
      var last := drops[|drops| - 1];
      Eligible(init, roll) + (if roll <= last.dropRate then [last] else [])
  }

  /** A lower roll never makes fewer drops eligible, and a roll above every rate makes none
      eligible. */
  lemma {:induction false} EligibleAntitone(drops: seq<Drop>, roll: real, roll': real)
    requires roll <= roll'
    ensures |Eligible(drops, roll')| <= |Eligible(drops, roll)|
    ensures (forall i :: 0 <= i < |drops| ==> drops[i].dropRate < roll') ==> Eligible(drops, roll') == []
  {
    if drops != [] {
      var init := drops[..|drops| - 1];
      EligibleAntitone(init, roll, roll');
      assert forall i :: 0 <= i < |init| ==> init[i] == drops[i];
    }
  }

  /** A DropRateManager component. `spawned` records the prefabs it instantiates. */
  class Dropper {
    const active: bool
    const drops: seq<Drop>
    var spawned: seq<Drop>

    constructor (active: bool, drops: seq<Drop>)
      ensures this.active == active && this.drops == drops && spawned == []
    {
      this.active := active;
      this.drops := drops;
      spawned := [];
    }

    /** The filter loop of OnDestroy. */
    method PossibleDrops(roll: real) returns (possible: seq<Drop>)
      ensures possible == Eligible(drops, roll)
    {
      possible := [];
      var i := 0;
      while i < |drops|
        invariant 0 <= i <= |drops|
        invariant possible == Eligible(drops[..i], roll)
      {
        assert drops[..i + 1][..i] == drops[..i];
        if roll <= drops[i].dropRate {
          possible := possible + [drops[i]];
        }
        i := i + 1;
      }
      assert drops[..|drops|] == drops;
    }

    /** OnDestroy: nothing while inactive or while the scene is unloading; otherwise the
        roll is the next draw scaled to [0, 100], and when some drop is eligible exactly one
        of them, drawn uniformly, is spawned. */
    method OnDestroy(sceneLoaded: bool, dice: Dice) returns (dropped: Option<Drop>)
      modifies this`spawned, dice
      ensures !active || !sceneLoaded ==> dropped == None && dice.next == old(dice.next)
      ensures active && sceneLoaded ==>
                var roll := 100.0 * dice.FractionAt(old(dice.next));
                var el := Eligible(drops, roll);
                (dropped.None? <==> el == [])
                && (el != [] ==> dropped == Some(el[dice.stream(old(dice.next) + 1) % |el|]))
                && (dropped.Some? ==> dropped.value in drops && roll <= dropped.value.dropRate && 0.0 <= roll <= 100.0)
      ensures spawned == old(spawned) + (if dropped.Some? then [dropped.value] else [])
    {
      dropped := None;
      if !active {
        return;
      }
      if !sceneLoaded {
        return;
      }
      var u := dice.Value();
      var randomNumber := 100.0 * u;
      var possible := PossibleDrops(randomNumber);
      if |possible| > 0 {
        var k := dice.Range(|possible|);
        dropped := Some(possible[k]);
        spawned := spawned + [possible[k]];
      }
    }
  }
}
