/** ComboAttack: a three-hit combo counter advanced by accepted Attack presses. */
module Combo {
  import Player

  /** The animator state a press plays. */
  datatype Attack = Attack1 | Attack2 | Attack3

  datatype Option<T> = None | Some(value: T)

  /** The counter after an accepted press: 0 -> 1 -> 2 -> 0, and a value
      outside the cycle is left alone. */
  function NextCombo(count: int): (r: int)
    ensures 0 <= count <= 2 ==> r == (count + 1) % 3
    ensures !(0 <= count <= 2) ==> r == count
  {
    if count == 0 then 1 else if count == 1 then 2 else if count == 2 then 0 else count
  }

  /** The animation an accepted press plays, chosen by the count before it. */
  function AttackFor(count: int): (r: Option<Attack>)
    ensures r.Some? <==> 0 <= count <= 2
    ensures r == Some(Attack1) <==> count == 0
    ensures r == Some(Attack2) <==> count == 1
    ensures r == Some(Attack3) <==> count == 2
  {
    if count == 0 then Some(Attack1)
    else if count == 1 then Some(Attack2)
    else if count == 2 then Some(Attack3)
    else None
  }

  /** A press is accepted only while the player has control, is on the ground
      and is not dashing. */
  predicate Accepted(attackDown: bool, canMove: bool, grounded: bool, dashing: bool)
  {
    attackDown && canMove && grounded && !dashing
  }

  /** `n` accepted presses in a row. */
  function Presses(count: int, n: nat): int
  {
    if n == 0 then count else NextCombo(Presses(count, n - 1))
  }

  /** After `n` accepted presses the counter has moved `n` steps round the
      cycle. */
  lemma {:induction false} PressesCycle(count: int, n: nat)
    requires 0 <= count <= 2
    ensures Presses(count, n) == (count + n) % 3
  {
    if n > 0 {
      PressesCycle(count, n - 1);
      var m := (count + n - 1) % 3;
      var q := (count + n - 1) / 3;
      assert count + n - 1 == 3 * q + m;
      if m == 2 {
        assert count + n == 3 * (q + 1);
      } else {
        assert count + n == 3 * q + (m + 1);
      }
    }
  }

  /** Three accepted presses bring the counter back to where it was. */
  lemma ThreePressesReturn(count: int)
    requires 0 <= count <= 2
    ensures Presses(count, 3) == count
  {
    PressesCycle(count, 3);
  }

  /** The animations of consecutive accepted presses from a fresh counter run
      Attack1, Attack2, Attack3, Attack1, ... */
  lemma AnimationSequence(n: nat)
    ensures AttackFor(Presses(0, n)) == Some([Attack1, Attack2, Attack3][n % 3])
  {
    PressesCycle(0, n);
  }

  class ComboAttack {
    const playerCont: Player.PlayerChunLi
    var comboCount: int

    ghost predicate Valid()
      reads this
    {
      0 <= comboCount <= 2
    }

    /** Awake: the combo starts at its first hit. */
    constructor (playerCont: Player.PlayerChunLi)
      ensures Valid() && comboCount == 0 && this.playerCont == playerCont
    {
      this.playerCont := playerCont;
      comboCount := 0;
    }

    /** One frame: `attackDown` is Input.GetButtonDown("Attack") and `grounded`
        the controller's grounded flag; control and dashing are read from the
        player. Returns the animation played, if any. */
    method Update(attackDown: bool, grounded: bool) returns (played: Option<Attack>)
      requires Valid()
      modifies this
      ensures Valid()
      ensures Accepted(attackDown, playerCont.canMove, grounded, playerCont.IsDashing()) ==>
                comboCount == NextCombo(old(comboCount)) && played == AttackFor(old(comboCount))
      ensures !Accepted(attackDown, playerCont.canMove, grounded, playerCont.IsDashing()) ==>
                comboCount == old(comboCount) && played == None
    {
      played := None;
      if attackDown {
        if playerCont.canMove {
          if grounded && !playerCont.IsDashing() {
            if comboCount == 0 {
              played := Some(Attack1);
              comboCount := comboCount + 1;
            } else if comboCount == 1 {
              played := Some(Attack2);
              comboCount := comboCount + 1;
            } else if comboCount == 2 {
              played := Some(Attack3);
              comboCount := 0;
            }
          }
        }
      }
    }
  }
}
