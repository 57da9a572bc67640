/** Small shared vocabulary: an optional value (C#'s `null`), and a source of
    random draws that stands in for UnityEngine.Random. */
module Common {

  datatype Option<+T> = None | Some(value: T)

  /** Sum of a sequence of reals, folded from the left as a C# foreach does. */
  function SumReals(s: seq<real>): real
  {
    if s == [] then 0.0 else SumReals(s[..|s| - 1]) + s[|s| - 1]
  }

  /** Sum of a sequence of integers, folded from the left. */
  function SumInts(s: seq<int>): int
  {
    if s == [] then 0 else SumInts(s[..|s| - 1]) + s[|s| - 1]
  }

  /** The clamped health after restoring `amount` (RestoreHealth and Recover of players
      and enemies): nothing happens at or above the maximum; below it, health rises but
      not past the maximum. */
  function Restored(health: real, maxHealth: real, amount: real): (h: real)
    ensures health >= maxHealth ==> h == health
    ensures health < maxHealth ==> h <= maxHealth
    ensures health < maxHealth && amount >= 0.0 ==> h >= health
    ensures health < maxHealth && health + amount <= maxHealth ==> h == health + amount
    ensures health < maxHealth && health + amount > maxHealth ==> h == maxHealth
  {
    if health < maxHealth then
      (if health + amount > maxHealth then maxHealth else health + amount)
    else health
  }

  function MaxReal(a: real, b: real): real { if a >= b then a else b }
  function MinReal(a: real, b: real): real { if a <= b then a else b }

  /** The random draws a run makes, in order. `Range(n)` is Random.Range(0, n) on ints:
      some index below n; `Value()` is Random.value: some real in [0, 1]. Which draw comes
      out is an input of the model, never chosen by it. */
  class Dice {
    const stream: nat -> nat
    const fractions: nat -> real
    var next: nat

    constructor (stream: nat -> nat, fractions: nat -> real)
      ensures this.stream == stream && this.fractions == fractions && next == 0
    {
      this.stream := stream;
      this.fractions := fractions;
      next := 0;
    }

    method Range(n: nat) returns (k: nat)
      requires n > 0
      modifies this
      ensures k < n
      ensures k == stream(old(next)) % n && next == old(next) + 1
    {
      k := stream(next) % n;
      next := next + 1;
    }

    /** The i-th draw read as a real in [0, 1]. */
    function FractionAt(i: nat): (u: real)
      ensures 0.0 <= u <= 1.0
    {
      var f := fractions(i);
      if f < 0.0 then 0.0 else if f > 1.0 then 1.0 else f
    }

    method Value() returns (u: real)
      modifies this
      ensures 0.0 <= u <= 1.0
      ensures u == FractionAt(old(next)) && next == old(next) + 1
    {
      u := FractionAt(next);
      next := next + 1;
    }
  }
}
