/**
 * The enemy catalog (enemies.js): every enemy's hit-point range and either one
 * cyclic intent pattern or three phases with a pattern each, the encounter
 * table by act and encounter type, the random encounter roll and the lookup
 * by id.
 */
module Enemies {
  import opened Options
  import opened Statuses
  import opened Chance

  type EnemyId = string

  datatype EncounterType = Normal | Elite | Boss

  /**
   * One step of an enemy's pattern. A buff or debuff without a status delta
   * (the summon of `el_ticket`) carries `None`.
   */
  datatype Intent =
    | Attack(value: int)
    | Defend(block: int)
    | Buff(apply: Option<StatusMap>)
    | Debuff(apply: Option<StatusMap>)
    | Heal(value: int)
    | Unknown

  datatype Phase = Phase(name: string, pattern: seq<Intent>)

  /** An enemy without phases has a `pattern`; a boss has `phases` and an empty `pattern`. */
  datatype EnemyDef = EnemyDef(
    id: EnemyId, name: string, act: int, kind: EncounterType,
    hpMin: int, hpMax: int,
    pattern: seq<Intent>,
    phases: Option<seq<Phase>>)

  /** Either a non-empty cyclic pattern, or exactly three named phases with non-empty patterns. */
  predicate WellShaped(e: EnemyDef) {
    || (e.phases.None? && |e.pattern| > 0)
    || (&& e.phases.Some? && |e.phases.value| == 3
        && forall p :: p in e.phases.value ==> p.name != "" && |p.pattern| > 0)
  }

  function Cyclic(id: EnemyId, name: string, act: int, kind: EncounterType, lo: int, hi: int,
                  pattern: seq<Intent>): EnemyDef
  {
    EnemyDef(id, name, act, kind, lo, hi, pattern, None)
  }

  function Phased(id: EnemyId, name: string, act: int, lo: int, hi: int, phases: seq<Phase>): EnemyDef
  {
    EnemyDef(id, name, act, Boss, lo, hi, [], Some(phases))
  }

  /**
   * `ENEMIES[id]`, which is also `getEnemyDef(id)`: the catalog entry, `None`
   * for an id the catalog does not hold. Every entry is stored under its own id,
   * has a positive hit-point range with min <= max, and is well shaped.
   */
  function EnemyById(id: EnemyId): (e: Option<EnemyDef>)
    ensures e.Some? ==> e.value.id == id && 0 < e.value.hpMin <= e.value.hpMax && WellShaped(e.value)
  {
    if id == "bug_rastrero" then Some(Cyclic(id, "Bug Rastrero", 1, Normal, 40, 50, [
      Attack(8), Attack(8), Debuff(Some(map[Poison := 3]))]))
    else if id == "el_lunes" then Some(Cyclic(id, "El Lunes", 1, Normal, 55, 65, [
      Unknown, Buff(Some(map[Strength := 2])), Attack(14), Defend(8)]))
    else if id == "el_ticket" then Some(Cyclic(id, "El Ticket", 1, Normal, 30, 40, [
      Buff(None), Attack(6), Attack(6)]))
    else if id == "hotfix_enemy" then Some(Cyclic(id, "Hotfix Urgente", 1, Normal, 35, 45, [
      Attack(10), Heal(8), Attack(10)]))
    else if id == "langostino_salvaje" then Some(Cyclic(id, "Langostino Salvaje", 1, Elite, 80, 95, [
      Attack(12), Attack(12), Attack(18), Buff(Some(map[Strength := 3]))]))
    else if id == "la_resaca" then Some(Cyclic(id, "La Resaca", 1, Elite, 90, 110, [
      Debuff(Some(map[Weak := 2])), Attack(15), Debuff(Some(map[Vulnerable := 2])), Attack(20)]))
    else if id == "deploy_del_viernes" then Some(Phased(id, "El Deploy del Viernes", 1, 150, 150, [
      Phase("Fase 1: Preparación (>66% HP)", [
        Buff(Some(map[Strength := 2])), Attack(12), Defend(10)]),
      Phase("Fase 2: Rollback (33-66% HP)", [
        Attack(18), Debuff(Some(map[Vulnerable := 2, Weak := 1])), Attack(22)]),
      Phase("Fase 3: El Apocalipsis (<33% HP)", [
        Attack(30), Attack(30), Buff(Some(map[Strength := 5]))])]))
    else if id == "el_fin_de_mes" then Some(Cyclic(id, "El Fin de Mes", 2, Normal, 65, 80, [
      Attack(14), Debuff(Some(map[Strength := -1])), Attack(14), Buff(Some(map[Strength := 3]))]))
    else if id == "la_suegra" then Some(Phased(id, "La Suegra", 3, 220, 220, [
      Phase("Fase 1: Críticas pasivo-agresivas", [
        Debuff(Some(map[Weak := 2])), Attack(20), Buff(Some(map[Strength := 2]))]),
      Phase("Fase 2: Modo control total", [
        Attack(25), Defend(15), Debuff(Some(map[Vulnerable := 3])), Attack(30)]),
      Phase("Fase 3: Forma final", [
        Attack(40), Buff(Some(map[Strength := 8]))])]))
    else None
  }

  /** `id in ENEMIES`. */
  predicate KnownEnemy(id: EnemyId) {
    EnemyById(id).Some?
  }

  /** `ENCOUNTER_TABLE[act]?.[type]`: the pool listed for an act and encounter type. */
  function TablePool(act: int, kind: EncounterType): (pool: Option<seq<EnemyId>>)
    ensures pool.Some? ==> |pool.value| > 0
  {
    if act == 1 then
      Some(match kind
        case Normal => ["bug_rastrero", "el_lunes", "el_ticket", "hotfix_enemy"]
        case Elite => ["langostino_salvaje", "la_resaca"]
        case Boss => ["deploy_del_viernes"])
    else if act == 2 then
      Some(match kind
        case Normal => ["el_fin_de_mes", "bug_rastrero", "hotfix_enemy"]
        case Elite => ["langostino_salvaje", "la_resaca"]
        case Boss => ["deploy_del_viernes"])
    else if act == 3 then
      Some(match kind
        case Normal => ["el_fin_de_mes"]
        case Elite => ["langostino_salvaje"]
        case Boss => ["la_suegra"])
    else None
  }

  /** Acts 1 to 3 list a pool for every encounter type, and no other act lists any. */
  lemma TableCoversActs(act: int, kind: EncounterType)
    ensures TablePool(act, kind).Some? <==> 1 <= act <= 3
  {
  }

  /** Every enemy listed in the encounter table is in the catalog. */
  lemma TableIdsKnown(act: int, kind: EncounterType)
    requires TablePool(act, kind).Some?
    ensures forall id :: id in TablePool(act, kind).value ==> KnownEnemy(id)
  {
    match kind
    case Normal =>
      if act == 1 {
        assert KnownEnemy("bug_rastrero") && KnownEnemy("el_lunes");
        assert KnownEnemy("el_ticket") && KnownEnemy("hotfix_enemy");
      } else if act == 2 {
        assert KnownEnemy("el_fin_de_mes") && KnownEnemy("bug_rastrero") && KnownEnemy("hotfix_enemy");
      } else {
        assert KnownEnemy("el_fin_de_mes");
      }
    case Elite =>
      assert KnownEnemy("langostino_salvaje") && KnownEnemy("la_resaca");
    case Boss =>
      if act == 3 {
        assert KnownEnemy("la_suegra");
      } else {
        assert KnownEnemy("deploy_del_viernes");
      }
  }

  /** The pool `randomEnemy` draws from: the act's own, or act 1's pool of the same type. */
  function EncounterPool(act: int, kind: EncounterType): (pool: seq<EnemyId>)
    ensures |pool| > 0
    ensures TablePool(act, kind).Some? ==> pool == TablePool(act, kind).value
    ensures TablePool(act, kind).None? ==> pool == TablePool(1, kind).value
    ensures forall id :: id in pool ==> KnownEnemy(id)
  {
    var own := TablePool(act, kind);
    var pool := if own.Some? then own.value else TablePool(1, kind).value;
    TableIdsKnown(if own.Some? then act else 1, kind);
    pool
  }

  /** `Math.floor(min + Math.random() * (max - min))`: the hit points rolled for a range. */
  function RollHp(lo: int, hi: int, roll: Unit): (hp: int)
    requires lo <= hi
    ensures lo <= hp <= hi
    ensures lo == hi ==> hp == lo
    ensures lo < hi ==> hp < hi
  {
    var span := (hi - lo) as real;
    assert 0.0 <= roll * span && (lo < hi ==> roll * span < span) by {
      if lo < hi { ScaleBelow(roll, hi - lo); }
    }
    var exact := lo as real + roll * span;
    assert lo as real <= exact && exact <= hi as real && (lo < hi ==> exact < hi as real);
    assert exact.Floor as real <= exact < exact.Floor as real + 1.0;
    exact.Floor
  }

  /** The enemy instance `randomEnemy` returns: the catalog entry plus its rolled hit points. */
  datatype EnemyInstance = EnemyInstance(def: EnemyDef, hp: int, hpMax: int, currentPhase: nat, patternIndex: nat)

  /** The catalog entry `randomEnemy` picks with one roll: a known enemy of the encounter pool. */
  function PickEnemy(act: int, kind: EncounterType, pickRoll: Unit): (def: EnemyDef)
    ensures def.id in EncounterPool(act, kind) && EnemyById(def.id) == Some(def)
  {
    var pool := EncounterPool(act, kind);
    EnemyById(pool[Pick(pickRoll, |pool|)]).value
  }

  /**
   * `randomEnemy(act, type)` as written: picks an id from the encounter pool with
   * one roll and the hit points with another, by `RollHp`, which never reaches
   * the maximum of a proper range.
   */
  function RandomEnemy(act: int, kind: EncounterType, pickRoll: Unit, hpRoll: Unit): (e: EnemyInstance)
    ensures e.def.id in EncounterPool(act, kind) && EnemyById(e.def.id) == Some(e.def)
    ensures e.def.hpMin <= e.hp <= e.def.hpMax && e.hp > 0
    ensures e.def.hpMin == e.def.hpMax ==> e.hp == e.def.hpMin
    ensures e.def.hpMin < e.def.hpMax ==> e.hp < e.def.hpMax
    ensures e.hpMax == e.hp && e.currentPhase == 0 && e.patternIndex == 0
  {
    var def := PickEnemy(act, kind, pickRoll);
    var hp := RollHp(def.hpMin, def.hpMax, hpRoll);
    EnemyInstance(def, hp, hp, 0, 0)
  }

  /**
   * `randomEnemy` with the hit points rolled over the whole range, maximum
   * included, as the `[min, max]` note on the catalog's ranges reads.
   */
  function RandomEnemyIntended(act: int, kind: EncounterType, pickRoll: Unit, hpRoll: Unit): (e: EnemyInstance)
    ensures e.def.id in EncounterPool(act, kind) && EnemyById(e.def.id) == Some(e.def)
    ensures e.def.hpMin <= e.hp <= e.def.hpMax && e.hp > 0
    ensures e.def.hpMin == e.def.hpMax ==> e.hp == e.def.hpMin
    ensures e.hpMax == e.hp && e.currentPhase == 0 && e.patternIndex == 0
  {
    var def := PickEnemy(act, kind, pickRoll);
    var hp := RollHpInclusive(def.hpMin, def.hpMax, hpRoll);
    EnemyInstance(def, hp, hp, 0, 0)
  }

  /** `getEnemyDef(id)`: the catalog entry unchanged, or nothing for an unknown id. */
  function GetEnemyDef(id: EnemyId): (e: Option<EnemyDef>)
    ensures e.Some? <==> KnownEnemy(id)
    ensures e.Some? ==> e.value.id == id && e == EnemyById(id)
  {
    EnemyById(id)
  }

  // ---------------------------------------------------------------------------
  // The hit-point roll never reaches the top of its range
  // ---------------------------------------------------------------------------

  /** As written, no roll gives `bug_rastrero` (range 40 to 50) its 50 hit points. */
  lemma TopOfRangeNeverRolled(roll: Unit)
    ensures RollHp(40, 50, roll) < 50
    ensures EnemyById("bug_rastrero").value.hpMax == 50
  {
  }

  /** The roll over the whole inclusive range: `Math.floor(min + Math.random() * (max - min + 1))`. */
  function RollHpInclusive(lo: int, hi: int, roll: Unit): (hp: int)
    requires lo <= hi
    ensures lo <= hp <= hi
    ensures lo == hi ==> hp == lo
  {
    var span := (hi - lo + 1) as real;
    assert roll * span < span by { ScaleBelow(roll, hi - lo + 1); }
    (lo as real + roll * span).Floor
  }

  /** Every value of the inclusive range, the maximum included, is rolled by some value of `Math.random()`. */
  lemma InclusiveRollReachesEvery(lo: int, hi: int, hp: int)
    requires lo <= hp <= hi
    ensures exists roll: Unit :: RollHpInclusive(lo, hi, roll) == hp
  {
    var span := (hi - lo + 1) as real;
    var roll: Unit := ((hp - lo) as real) / span;
    assert roll * span == (hp - lo) as real;
    assert RollHpInclusive(lo, hi, roll) == hp;
  }

  /** With the inclusive roll, every hit-point value of the picked enemy's range, the maximum included, can come up. */
  lemma IntendedRollsEveryHp(act: int, kind: EncounterType, pickRoll: Unit, hp: int)
    requires PickEnemy(act, kind, pickRoll).hpMin <= hp <= PickEnemy(act, kind, pickRoll).hpMax
    ensures exists hpRoll: Unit :: RandomEnemyIntended(act, kind, pickRoll, hpRoll).hp == hp
  {
    var def := PickEnemy(act, kind, pickRoll);
    InclusiveRollReachesEvery(def.hpMin, def.hpMax, hp);
    var roll: Unit :| RollHpInclusive(def.hpMin, def.hpMax, roll) == hp;
    assert RandomEnemyIntended(act, kind, pickRoll, roll).hp == hp;
  }
}
