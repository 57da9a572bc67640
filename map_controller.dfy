/** The movement-direction classifier of the map chunk spawner
    (MapController.GetDirectionName). It names the neighbouring chunk to check
    from the player's movement vector, already normalised. */
module MapController {

  function Abs(x: real): real { if x < 0.0 then -x else x }

  /** The eight names the classifier can produce. */
  predicate IsDirectionName(s: string)
  {
    s in {"Up", "Down", "Left", "Right", "Right_Up", "Left_Up", "Right_Down", "Left_Down"}
  }

  /** Classifies the normalised direction (x, y). */
  function GetDirectionName(x: real, y: real): (name: string)
    ensures IsDirectionName(name)
  {
    if Abs(x) > Abs(y) then
      // moving horizontally more than vertically
      if y > 0.5 then (if x > 0.0 then "Right_Up" else "Left_Up")
      else if y < -0.5 then (if x > 0.0 then "Right_Down" else "Left_Down")
      else (if x > 0.0 then "Right" else "Left")
    else
      // moving vertically at least as much as horizontally
      if x > 0.5 then (if y > 0.0 then "Right_Up" else "Right_Down")
      else if x < -0.5 then (if y > 0.0 then "Left_Up" else "Left_Down")
      else (if y > 0.0 then "Up" else "Down")
  }

  predicate MentionsUp(s: string) { s in {"Up", "Right_Up", "Left_Up"} }
  predicate MentionsDown(s: string) { s in {"Down", "Right_Down", "Left_Down"} }
  predicate MentionsRight(s: string) { s in {"Right", "Right_Up", "Right_Down"} }
  predicate MentionsLeft(s: string) { s in {"Left", "Left_Up", "Left_Down"} }

  /** A standing player (zero vector) is classified as moving down. */
  lemma ZeroIsDown()
    ensures GetDirectionName(0.0, 0.0) == "Down"
  {
  }

  /** Every name agrees in sign with the vector it came from: "Up" only for y > 0,
      "Down" only for y <= 0, "Right" only for x > 0, "Left" only for x <= 0. */
  lemma NameAgreesWithSigns(x: real, y: real)
    ensures MentionsUp(GetDirectionName(x, y)) ==> y > 0.0
    ensures MentionsDown(GetDirectionName(x, y)) ==> y <= 0.0
    ensures MentionsRight(GetDirectionName(x, y)) ==> x > 0.0
    ensures MentionsLeft(GetDirectionName(x, y)) ==> x <= 0.0
  {
  }

  /** Horizontal-dominant movement with a small vertical part gives a plain side. */
  lemma HorizontalIsPlainSide(x: real, y: real)
    requires Abs(x) > Abs(y) && -0.5 <= y <= 0.5
    ensures GetDirectionName(x, y) == (if x > 0.0 then "Right" else "Left")
  {
  }
}
