/** HealthBarUI: an integer health value clamped at zero, mirrored as decimal
    text in a UI label. */
module HealthBar {
  import opened Int32

  /** The decimal digit character for `d`. */
  function Digit(d: nat): (c: char)
    requires d < 10
    ensures '0' <= c <= '9' && c as int - '0' as int == d
  {
    ('0' as int + d) as char
  }

  /** Decimal rendering of a natural number: no sign, no leading zeros. */
  function NatToDecimal(n: nat): (s: string)
    ensures |s| > 0
    ensures forall i :: 0 <= i < |s| ==> '0' <= s[i] <= '9'
    ensures |s| > 1 ==> s[0] != '0'
    decreases n
  {
    if n < 10 then [Digit(n)] else NatToDecimal(n / 10) + [Digit(n % 10)]
  }

  /** `int.ToString()`: a leading '-' for negative values, then the digits of
      the magnitude. */
  function IntToDecimal(n: int): (s: string)
    ensures |s| > 0
    ensures n < 0 <==> s[0] == '-'
    ensures forall i :: (if n < 0 then 1 else 0) <= i < |s| ==> '0' <= s[i] <= '9'
  {
    if n < 0 then "-" + NatToDecimal(-n) else NatToDecimal(n)
  }

  /** The value of a string of decimal digits (the inverse reading). */
  function DigitsValue(s: string): nat
    requires forall i :: 0 <= i < |s| ==> '0' <= s[i] <= '9'
    decreases |s|
  {
    if s == [] then 0
    else DigitsValue(s[..|s| - 1]) * 10 + (s[|s| - 1] as int - '0' as int)
  }

  /** The value of an optionally '-'-signed decimal string. */
  function DecimalValue(s: string): int
    requires |s| > 0
    requires forall i :: (if s[0] == '-' then 1 else 0) <= i < |s| ==> '0' <= s[i] <= '9'
  {
    if s[0] == '-' then 0 - DigitsValue(s[1..]) as int else DigitsValue(s)
  }

  lemma {:induction false} NatToDecimalRoundTrip(n: nat)
    ensures DigitsValue(NatToDecimal(n)) == n
    decreases n
  {
    var s := NatToDecimal(n);
    if n >= 10 {
      NatToDecimalRoundTrip(n / 10);
      assert s[..|s| - 1] == NatToDecimal(n / 10);
    }
  }

  /** Reading the label back gives the health it was rendered from. */
  lemma IntToDecimalRoundTrip(n: int)
    ensures DecimalValue(IntToDecimal(n)) == n
  {
    if n < 0 {
      NatToDecimalRoundTrip(-n);
      assert IntToDecimal(n)[1..] == NatToDecimal(-n);
    } else {
      NatToDecimalRoundTrip(n);
    }
  }

  /** Health after `TakeDamage(damage)`: the 32-bit difference, floored at 0. */
  function HealthAfter(health: int32, damage: int32): (r: int32)
    ensures r >= 0
    ensures r == 0 || r == Sub(health, damage)
    ensures Sub(health, damage) > 0 ==> r == Sub(health, damage)
    ensures -0x8000_0000 <= health as int - damage as int < 0x8000_0000 ==>
              r as int == if health as int - damage as int > 0 then health as int - damage as int else 0
  {
    var h := Sub(health, damage);
    if h <= 0 then 0 else h
  }

  /** Non-negative damage never raises a non-negative health. */
  lemma DamageNeverHeals(health: int32, damage: int32)
    requires health >= 0 && damage >= 0
    ensures HealthAfter(health, damage) <= health
  {
  }

  /** At the floor, further non-negative damage keeps health at 0. */
  lemma FloorIsStable(damage: int32)
    requires damage >= 0
    ensures HealthAfter(0, damage) == 0
  {
  }

  /** The 32-bit wrap-around is observable: a huge negative "damage" that would
      mathematically leave a positive health overflows and is floored to 0. */
  lemma OverflowFloorsHealth()
    ensures HealthAfter(100, -0x7FFF_FFF0) == 0
  {
    assert Sub(100, -0x7FFF_FFF0) as int == 100 + 0x7FFF_FFF0 - Modulus;
  }

  class HealthBarUI {
    var maxHealth: int32
    var currentHealth: int32
    /** healthText.text */
    var healthText: string

    /** The field initialisers; the label holds whatever text it was given in
        the scene until `Start` overwrites it. */
    constructor (sceneText: string)
      ensures maxHealth == 100 && currentHealth == 100 && healthText == sceneText
    {
      maxHealth := 100;
      currentHealth := 100;
      healthText := sceneText;
    }

    method Start()
      modifies this
      ensures healthText == IntToDecimal(currentHealth as int)
      ensures currentHealth == old(currentHealth) && maxHealth == old(maxHealth)
    {
      UpdateHealthUI();
    }

    method UpdateHealthUI()
      modifies this`healthText
      ensures healthText == IntToDecimal(currentHealth as int)
    {
      healthText := IntToDecimal(currentHealth as int);
    }

    method TakeDamage(damageAmount: int32)
      modifies this
      ensures currentHealth == HealthAfter(old(currentHealth), damageAmount)
      ensures healthText == IntToDecimal(currentHealth as int)
      ensures maxHealth == old(maxHealth)
    {
      currentHealth := Sub(currentHealth, damageAmount);
      if currentHealth <= 0 {
        currentHealth := 0;
      }
      UpdateHealthUI();
    }
  }
}
