/**
 * The enemy's side of `endPlayerTurn` that depends only on its catalog entry:
 * which intent it plays this turn (combat-engine.js lines 279-284), where its
 * pattern index goes next (line 347), and when a boss moves to its next
 * phase (lines 322-333).
 */
module EnemyAi {
  import opened Options
  import opened Enemies

  /** `enemyDef.phases ? enemyDef.phases[phase]?.pattern : enemyDef.pattern`. */
  function CurrentPattern(def: EnemyDef, phase: nat): (p: Option<seq<Intent>>)
    ensures def.phases.None? ==> p == Some(def.pattern)
    ensures def.phases.Some? ==> (p.Some? <==> phase < |def.phases.value|)
    ensures def.phases.Some? && phase < |def.phases.value| ==> p == Some(def.phases.value[phase].pattern)
  {
    match def.phases
    case None => Some(def.pattern)
    case Some(phases) => if phase < |phases| then Some(phases[phase].pattern) else None
  }

  /** `patterns?.length || 1`: the modulus of the pattern index, 1 for a missing or empty pattern. */
  function PatternLength(def: EnemyDef, phase: nat): (n: nat)
    ensures n >= 1
    ensures CurrentPattern(def, phase).Some? && |CurrentPattern(def, phase).value| > 0 ==>
      n == |CurrentPattern(def, phase).value|
    ensures CurrentPattern(def, phase).None? || |CurrentPattern(def, phase).value| == 0 ==> n == 1
  {
    var p := CurrentPattern(def, phase);
    if p.Some? && |p.value| > 0 then |p.value| else 1
  }

  /** `patternIdx`: the slot of the pattern played this turn. */
  function PatternSlot(def: EnemyDef, phase: nat, patternIndex: nat): (slot: nat)
    ensures slot < PatternLength(def, phase)
    ensures patternIndex < PatternLength(def, phase) ==> slot == patternIndex
  {
    patternIndex % PatternLength(def, phase)
  }

  /** The intent played when there is no pattern or no entry at the slot. */
  const Fallback: Intent := Attack(10)

  /** `patterns?.[patternIdx] || fallback`. */
  function IntentFor(def: EnemyDef, phase: nat, patternIndex: nat): (i: Intent)
    ensures CurrentPattern(def, phase).Some? && |CurrentPattern(def, phase).value| > 0 ==>
      i == CurrentPattern(def, phase).value[PatternSlot(def, phase, patternIndex)]
    ensures CurrentPattern(def, phase).None? || |CurrentPattern(def, phase).value| == 0 ==> i == Fallback
  {
    var p := CurrentPattern(def, phase);
    var slot := PatternSlot(def, phase, patternIndex);
    if p.Some? && slot < |p.value| then p.value[slot] else Fallback
  }

  /** A phase index the boss does not have makes it attack for 10. */
  lemma MissingPhaseAttacks(def: EnemyDef, phase: nat, patternIndex: nat)
    requires def.phases.Some? && phase >= |def.phases.value|
    ensures IntentFor(def, phase, patternIndex) == Attack(10)
  {
  }

  /**
   * Storing `slot + 1` and reducing it modulo the length on the next turn walks
   * the pattern cyclically: the next slot is `(patternIndex + 1) mod length`.
   */
  lemma NextSlotCycles(def: EnemyDef, phase: nat, patternIndex: nat)
    ensures PatternSlot(def, phase, PatternSlot(def, phase, patternIndex) + 1)
         == (patternIndex + 1) % PatternLength(def, phase)
  {
    ModStep(patternIndex, PatternLength(def, phase));
  }

  /** `((a mod n) + 1) mod n == (a + 1) mod n`. */
  lemma ModStep(a: nat, n: nat)
    requires n > 0
    ensures (a % n + 1) % n == (a + 1) % n
  {
    var q, r := a / n, a % n;
    assert a == q * n + r && 0 <= r < n;
    if r + 1 < n {
      DivUnique(a + 1, n, q, r + 1);
      DivUnique(r + 1, n, 0, r + 1);
    } else {
      assert a + 1 == (q + 1) * n;
      DivUnique(a + 1, n, q + 1, 0);
      DivUnique(r + 1, n, 1, 0);
    }
  }

  /** Euclidean division has only one quotient and remainder. */
  lemma DivUnique(x: nat, n: nat, q: nat, r: nat)
    requires 0 <= r < n && x == q * n + r
    ensures x / n == q && x % n == r
  {
    var q': int, r': int := x / n, x % n;
    var k: int := q - q';
    assert x == q' * n + r' && 0 <= r' < n;
    assert k * n == r' - r;
    MultipleBounds(k, n);
  }

  /** A non-zero multiple of `n` is at least `n` away from 0. */
  lemma MultipleBounds(k: int, n: nat)
    ensures k >= 1 ==> k * n >= n
    ensures k <= -1 ==> k * n + n <= 0
  {
    if k >= 1 {
      MulMonotone(1, k, n);
    } else if k <= -1 {
      MulMonotone(1, -k, n);
      assert k * n == -((-k) * n);
    }
  }

  lemma MulMonotone(a: nat, b: nat, n: nat)
    requires a <= b
    ensures a * n <= b * n
  {
  }

  /**
   * The phase after the end-of-turn check, given the enemy's hit points
   * after the poison tick and the intent. A boss with phases left moves
   * from phase 0 to 1 below 66% of `hpMax`, and from 1 to 2 below 33%.
   */
  function NextPhase(def: EnemyDef, phase: nat, hp: int, hpMax: int): (next: nat)
    ensures phase <= next <= phase + 1
    ensures next == phase + 1 <==>
      && def.phases.Some? && phase + 1 < |def.phases.value|
      && ((phase == 0 && 100 * hp < 66 * hpMax) || (phase == 1 && 100 * hp < 33 * hpMax))
  {
    if def.phases.Some? && phase < |def.phases.value| - 1 then
      if phase == 0 && 100 * hp < 66 * hpMax then 1
      else if phase == 1 && 100 * hp < 33 * hpMax then 2
      else phase
    else phase
  }

  /** The phase-name read after a transition always finds its phase (combat-engine.js lines 328 and 331). */
  lemma PhaseNameInRange(def: EnemyDef, phase: nat, hp: int, hpMax: int)
    requires NextPhase(def, phase, hp, hpMax) != phase
    ensures def.phases.Some? && NextPhase(def, phase, hp, hpMax) < |def.phases.value|
    ensures NextPhase(def, phase, hp, hpMax) <= 2
  {
  }

  /** At full health no boss changes phase, and nothing but a boss ever does. */
  lemma NoTransitionAtFullHealth(def: EnemyDef, phase: nat, hpMax: int)
    requires hpMax >= 0
    ensures NextPhase(def, phase, hpMax, hpMax) == phase
    ensures def.phases.None? ==> forall hp :: NextPhase(def, phase, hp, hpMax) == phase
  {
  }

  /** Every catalog enemy in a phase it has plays an intent of its own pattern, never the fallback. */
  lemma CatalogIntentsFromPattern(id: EnemyId, phase: nat, patternIndex: nat)
    requires KnownEnemy(id)
    requires EnemyById(id).value.phases.Some? ==> phase < |EnemyById(id).value.phases.value|
    ensures var def := EnemyById(id).value;
      var p := CurrentPattern(def, phase).value;
      IntentFor(def, phase, patternIndex) in p && PatternLength(def, phase) == |p|
  {
    var def := EnemyById(id).value;
    assert WellShaped(def);
    if def.phases.Some? {
      assert def.phases.value[phase] in def.phases.value;
    }
  }
}
