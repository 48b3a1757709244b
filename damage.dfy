/**
 * Damage arithmetic: `clamp`, `calcDamage` and `applyDamage`
 * (combat-engine.js lines 17-19 and 42-59), and the repeated hit of a
 * multi-hit card.
 *
 * `Math.floor(x * 0.75)` and `Math.floor(x * 1.5)` are exact on the small
 * integers involved, and equal `(3 * x) / 4` and `(3 * x) / 2` with Dafny's
 * Euclidean division, which rounds toward minus infinity for a positive divisor.
 */
module Damage {
  import opened Statuses

  function Max(a: int, b: int): int { if a >= b then a else b }
  function Min(a: int, b: int): int { if a <= b then a else b }

  /** `clamp(val, min, max)` = `Math.max(min, Math.min(max, val))`. */
  function Clamp(val: int, lo: int, hi: int): (r: int)
    ensures lo <= hi ==> lo <= r <= hi
    ensures lo <= val <= hi ==> r == val
    ensures val < lo ==> r == lo
    ensures lo <= hi < val ==> r == hi
  {
    Max(lo, Min(hi, val))
  }

  // ---------------------------------------------------------------------------
  // calcDamage
  // ---------------------------------------------------------------------------

  /** `Math.floor(x * 0.75)`. */
  function Weakened(x: int): int { (3 * x) / 4 }

  /** `Math.floor(x * 1.5)`. */
  function Amplified(x: int): int { (3 * x) / 2 }

  /**
   * `calcDamage`: base plus strength, reduced by the attacker's weak, then
   * raised by the defender's vulnerable, then floored at 0.
   */
  function CalcDamage(base: int, attacker: StatusMap, defender: StatusMap, strengthBonus: int): (dmg: int)
    ensures dmg >= 0
    ensures !Active(attacker, Weak) && !Active(defender, Vulnerable) ==> dmg == Max(0, base + strengthBonus)
    ensures Active(attacker, Weak) && !Active(defender, Vulnerable) && base + strengthBonus >= 0 ==>
      4 * dmg <= 3 * (base + strengthBonus) < 4 * dmg + 4
    ensures !Active(attacker, Weak) && Active(defender, Vulnerable) && base + strengthBonus >= 0 ==>
      2 * dmg <= 3 * (base + strengthBonus) < 2 * dmg + 2
    ensures base + strengthBonus <= 0 ==> dmg == 0
  {
    var raw := base + strengthBonus;
    var afterWeak := if Active(attacker, Weak) then Weakened(raw) else raw;
    var afterVulnerable := if Active(defender, Vulnerable) then Amplified(afterWeak) else afterWeak;
    Max(0, afterVulnerable)
  }

  /** Weak and vulnerable together: `floor(floor(x * 0.75) * 1.5)`, the weak reduction first. */
  lemma WeakThenVulnerable(base: int, attacker: StatusMap, defender: StatusMap, strengthBonus: int)
    requires Active(attacker, Weak) && Active(defender, Vulnerable)
    ensures CalcDamage(base, attacker, defender, strengthBonus) == Max(0, Amplified(Weakened(base + strengthBonus)))
  {
  }

  /** The order matters: for a base of 10 the fixed order gives 10, the other order would give 11. */
  lemma OrderMatters()
    ensures CalcDamage(10, map[Weak := 1], map[Vulnerable := 1], 0) == 10
    ensures Weakened(Amplified(10)) == 11
  {
  }

  /** More base damage never deals less. */
  lemma CalcDamageMonotone(b1: int, b2: int, attacker: StatusMap, defender: StatusMap, strengthBonus: int)
    requires b1 <= b2
    ensures CalcDamage(b1, attacker, defender, strengthBonus) <= CalcDamage(b2, attacker, defender, strengthBonus)
  {
    var x1, x2 := b1 + strengthBonus, b2 + strengthBonus;
    assert Weakened(x1) <= Weakened(x2);
    assert Amplified(x1) <= Amplified(x2);
    assert Amplified(Weakened(x1)) <= Amplified(Weakened(x2));
  }

  /** Weak never increases a non-negative hit. */
  lemma WeakNeverHelps(base: int, attacker: StatusMap, defender: StatusMap, strengthBonus: int)
    requires base + strengthBonus >= 0
    ensures CalcDamage(base, attacker, defender, strengthBonus) <= CalcDamage(base, map[], defender, strengthBonus)
  {
    var x := base + strengthBonus;
    assert Weakened(x) <= x;
    assert Amplified(Weakened(x)) <= Amplified(x);
  }

  // ---------------------------------------------------------------------------
  // applyDamage
  // ---------------------------------------------------------------------------

  /** The `{ hp, block }` pair `applyDamage` returns. */
  datatype Hit = Hit(hp: int, block: int)

  /** `applyDamage`: block absorbs first, the excess comes off hit points, floored at 0. */
  function ApplyDamage(hp: int, block: int, damage: int): (r: Hit)
    ensures r.hp >= 0
    ensures damage > block ==> r.block == 0 && r.hp == Max(0, hp - (damage - block))
    ensures damage <= block ==> r.block == block - damage && r.hp == Max(0, hp)
    ensures hp >= 0 && block >= 0 && damage >= 0 ==>
      r.block == Max(0, block - damage) && r.hp == Max(0, hp - Max(0, damage - block)) && r.hp <= hp
  {
    if damage > block then Hit(Max(0, hp - (damage - block)), 0)
    else Hit(Max(0, hp), block - damage)
  }

  lemma ApplyDamageExample()
    ensures ApplyDamage(10, 5, 8) == Hit(7, 0)
  {
  }

  /** Two hits through the same block equal one hit of their sum. */
  lemma ApplyDamageAdds(hp: int, block: int, x: int, y: int)
    requires hp >= 0 && block >= 0 && x >= 0 && y >= 0
    ensures ApplyDamage(ApplyDamage(hp, block, x).hp, ApplyDamage(hp, block, x).block, y) == ApplyDamage(hp, block, x + y)
  {
  }

  /** Penetrating damage: `Math.max(0, hp - dmg)`, block untouched. */
  function Pierce(hp: int, damage: int): (r: int)
    ensures r >= 0
    ensures hp >= 0 && damage >= 0 ==> r <= hp
  {
    Max(0, hp - damage)
  }

  /** Enemy hit points and block after `times` hits of `damage` (combat-engine.js lines 126-138). */
  function Volley(hp: int, block: int, damage: int, times: nat, penetrate: bool): (r: Hit)
    ensures hp >= 0 && damage >= 0 ==> 0 <= r.hp <= hp
  {
    if times == 0 then Hit(hp, block)
    else
      var before := Volley(hp, block, damage, times - 1, penetrate);
      if penetrate then Hit(Pierce(before.hp, damage), before.block)
      else ApplyDamage(before.hp, before.block, damage)
  }

  /** A volley through block is the same as one hit of the total damage. */
  lemma {:induction false} VolleyIsOneHit(hp: int, block: int, damage: int, times: nat)
    requires hp >= 0 && block >= 0 && damage >= 0
    ensures Volley(hp, block, damage, times, false) == ApplyDamage(hp, block, times * damage)
  {
    if times > 0 {
      VolleyIsOneHit(hp, block, damage, times - 1);
      ApplyDamageAdds(hp, block, (times - 1) * damage, damage);
      assert (times - 1) * damage + damage == times * damage;
    }
  }

  /** A penetrating volley takes the total damage off hit points and leaves block alone. */
  lemma {:induction false} PiercingVolley(hp: int, block: int, damage: int, times: nat)
    requires hp >= 0 && damage >= 0
    ensures Volley(hp, block, damage, times, true) == Hit(Max(0, hp - times * damage), block)
  {
    if times > 0 {
      PiercingVolley(hp, block, damage, times - 1);
      assert (times - 1) * damage + damage == times * damage;
    }
  }
}
