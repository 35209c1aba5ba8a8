// Arithmetic the attacker and the defender controllers compute the same way:
// remaining cooldowns, the HP clamp and Unity's normalisation threshold.

module CombatCommon {

  /** Vector3.normalized returns the zero vector for vectors whose magnitude
      is at most 1e-5; every other vector normalises to magnitude 1. */
  const NormaliseEpsilon: real := 0.00001

  /** The remaining part of a cooldown, `Mathf.Max(0, cooldown - (now - last))`. */
  function CooldownRemaining(cooldown: real, last: real, now: real): (r: real)
    ensures r >= 0.0
    ensures r == 0.0 <==> now - last >= cooldown
    ensures r > 0.0 ==> now + r == last + cooldown
    ensures 0.0 <= cooldown && last <= now ==> r <= cooldown
  {
    if cooldown - (now - last) > 0.0 then cooldown - (now - last) else 0.0
  }

  /** `Mathf.Max(0, hp - damage)`: HP never drops below zero. */
  function DamagedHP(hp: real, damage: real): (r: real)
    ensures r >= 0.0
    ensures damage >= 0.0 ==> r <= hp || r == 0.0
    ensures r > 0.0 ==> r == hp - damage
    ensures r == 0.0 <==> hp <= damage
  {
    if hp - damage > 0.0 then hp - damage else 0.0
  }

  /** HPPercentage: the fraction of the maximum HP left. */
  function HPFraction(hp: real, maxHP: real): (r: real)
    requires maxHP > 0.0
    ensures 0.0 <= hp <= maxHP ==> 0.0 <= r <= 1.0
    ensures r * maxHP == hp
  {
    hp / maxHP
  }
}
