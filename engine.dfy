/**
 * The combat engine (combat-engine.js lines 61-362): `startCombat`,
 * `playCard`, `endPlayerTurn` and `checkCombatResult`. Every operation takes
 * a state snapshot and builds a new one; the player's hit points live in the
 * run record and come back beside the state. Log entries are kept as their
 * kinds only.
 */
module CombatEngine {
  import opened Options
  import opened Chance
  import opened Statuses
  import opened Damage
  import opened Cards
  import opened Enemies
  import opened EnemyAi
  import opened Piles

  /** The `type` of a log entry. */
  datatype LogKind =
    | Start | CardPlayed | DamageDealt | BlockGained | Shuffled | Drew | EnergyGained | EnemyDebuffed
    | Healed | SelfDamaged | Refactored | CardsAdded | CostReduced
    | TurnEnd | PoisonTick | EnemyAttack | EnemyDefend | EnemyBuff | EnemyDebuff | EnemyHeal | EnemySkip
    | PhaseChange

  datatype CombatState = CombatState(
    hand: seq<CardId>, draw: seq<CardId>, discard: seq<CardId>,
    playerBlock: int, playerEnergy: int, playerStatuses: StatusMap,
    enemyHp: int, enemyHpMax: int, enemyBlock: int, enemyStatuses: StatusMap,
    turn: int,
    enemyPhase: nat,                  // `enemy_phase || 0`
    patternIndex: nat,                // `pattern_index || 0`
    costOverrides: map<CardId, int>,  // `cost_overrides || {}`
    log: seq<LogKind>)

  /** The fields of the run record the engine reads: hit points, energy per turn and the deck. */
  datatype Run = Run(hp: int, hpMax: int, energyBase: int, deck: seq<CardId>)

  /** A new state, together with the player's hit points (`_newPlayerHp`) and their change (`_playerHpDelta`). */
  datatype Outcome = Outcome(state: CombatState, newPlayerHp: int, playerHpDelta: int)

  /** The errors `playCard` throws, in the order it checks them. */
  datatype PlayError = CardNotFound | CardNotInHand | NotEnoughEnergy | ConditionNotMet

  datatype PlayResult = Played(outcome: Outcome) | Refused(error: PlayError)

  datatype CombatResult = Defeat | Victory | Ongoing

  /** `run.energy_base || 3`: the run's own base, unless it is 0 (unset), which falls back to 3. */
  function EnergyBase(run: Run): (e: int)
    ensures e != 0 && (e == run.energyBase || e == 3)
    ensures run.energyBase != 0 ==> e == run.energyBase
    ensures run.energyBase >= 0 ==> e > 0
  {
    if run.energyBase != 0 then run.energyBase else 3
  }

  /** All cards of the combat: hand, draw pile and discard pile. */
  function AllCards(s: CombatState): multiset<CardId> {
    multiset(s.hand) + multiset(s.draw) + multiset(s.discard)
  }

  /** Appending a step's entries keeps the old log as a prefix, followed by the step's first entry. */
  lemma LogExtended(log: seq<LogKind>, first: LogKind, rest: seq<LogKind>)
    ensures |log + [first] + rest| > |log|
    ensures (log + [first] + rest)[..|log|] == log && (log + [first] + rest)[|log|] == first
  {
    assert (log + [first] + rest)[..|log|] == log;
  }

  /** The state facts every engine step keeps. */
  predicate Inv(s: CombatState) {
    && s.playerBlock >= 0 && s.playerEnergy >= 0
    && 0 <= s.enemyHp <= s.enemyHpMax
  }

  // ---------------------------------------------------------------------------
  // startCombat
  // ---------------------------------------------------------------------------

  /**
   * `startCombat`: shuffles the deck, deals its first five cards (fewer when
   * the deck is smaller) and keeps the rest as the draw pile.
   */
  method StartCombat(run: Run, enemy: EnemyInstance, g0: Rng) returns (s: CombatState, g: Rng)
    ensures multiset(s.hand) + multiset(s.draw) == multiset(run.deck) && s.discard == []
    ensures |s.hand| == Min(5, |run.deck|)
    ensures s.playerBlock == 0 && s.playerEnergy == EnergyBase(run) && s.playerStatuses == map[]
    ensures s.enemyHp == enemy.hp && s.enemyHpMax == enemy.hpMax && s.enemyBlock == 0 && s.enemyStatuses == map[]
    ensures s.turn == 1 && s.enemyPhase == 0 && s.patternIndex == 0 && s.costOverrides == map[]
    ensures s.log == [Start]
    ensures run.energyBase >= 0 && 0 <= enemy.hp <= enemy.hpMax ==> Inv(s)
    ensures g.stream == g0.stream
  {
    var shuffled;
    shuffled, g := Shuffle(run.deck, g0);
    var k := Min(5, |shuffled|);
    assert shuffled == shuffled[..k] + shuffled[k..];
    s := CombatState(
      shuffled[..k], shuffled[k..], [],
      0, EnergyBase(run), map[],
      enemy.hp, enemy.hpMax, 0, map[],
      1, 0, 0, map[],
      [Start]);
  }

  // ---------------------------------------------------------------------------
  // playCard: the checks
  // ---------------------------------------------------------------------------

  /** The cost to pay: the override if one is set, else the catalog cost. */
  function EffectiveCost(s: CombatState, card: Card): (c: int)
    ensures card.id in s.costOverrides ==> c == s.costOverrides[card.id]
    ensures card.id !in s.costOverrides ==> c == card.cost
    ensures card.cost >= 0 && (forall id :: id in s.costOverrides ==> s.costOverrides[id] >= 0) ==> c >= 0
  {
    if card.id in s.costOverrides then s.costOverrides[card.id] else card.cost
  }

  /** `condition.hp_below` is set and the player has more hit points than it. */
  predicate ConditionFails(card: Card, run: Run) {
    card.effect.hpBelow != 0 && run.hp > card.effect.hpBelow
  }

  /** The check `playCard` fails first, if any. */
  function PlayCheck(s: CombatState, cardId: CardId, run: Run): (e: Option<PlayError>)
    ensures e == Some(CardNotFound) <==> !Known(cardId)
    ensures e == Some(CardNotInHand) <==> Known(cardId) && cardId !in s.hand
    ensures e == Some(NotEnoughEnergy) <==>
      Known(cardId) && cardId in s.hand && s.playerEnergy < EffectiveCost(s, CardById(cardId).value)
    ensures e == Some(ConditionNotMet) <==>
      && Known(cardId) && cardId in s.hand && s.playerEnergy >= EffectiveCost(s, CardById(cardId).value)
      && ConditionFails(CardById(cardId).value, run)
  {
    match CardById(cardId)
    case None => Some(CardNotFound)
    case Some(card) =>
      if IndexOf(s.hand, cardId) == -1 then Some(CardNotInHand)
      else if s.playerEnergy < EffectiveCost(s, card) then Some(NotEnoughEnergy)
      else if ConditionFails(card, run) then Some(ConditionNotMet)
      else None
  }

  // ---------------------------------------------------------------------------
  // playCard: the effect pipeline, step by step
  // ---------------------------------------------------------------------------

  /**
   * `ef.hits || 1`: how many times the damage loop runs. An unset (0) count
   * means one hit; a negative count runs the loop not at all.
   */
  function HitCount(ef: Effect): (n: nat)
    ensures ef.hits > 0 ==> n == ef.hits
    ensures ef.hits == 0 ==> n == 1
    ensures n == 0 <==> ef.hits < 0
  {
    if ef.hits == 0 then 1 else if ef.hits > 0 then ef.hits else 0
  }

  /** `clamp(discard * damage_per_discard, 0, damage_cap || 999)`. */
  function DiscardDamage(ef: Effect, discardSize: nat): (d: int)
    ensures ef.damagePerDiscard >= 0 && ef.damageCap >= 0 ==> 0 <= d
    ensures ef.damageCap > 0 ==> d <= ef.damageCap
    ensures ef.damageCap == 0 ==> d <= 999
  {
    Clamp(discardSize * ef.damagePerDiscard, 0, if ef.damageCap != 0 then ef.damageCap else 999)
  }

  /**
   * The enemy's hit points and block after a card's damage steps: the hits
   * (each through `calcDamage` with the player's and enemy's statuses and no
   * strength bonus), then the damage per discarded card, which no status changes.
   */
  function CardStrike(ef: Effect, attacker: StatusMap, defender: StatusMap, hp: int, block: int, discardSize: nat): (r: Hit)
    ensures NonNegative(ef) && hp >= 0 ==> 0 <= r.hp <= hp
  {
    var afterHits :=
      if ef.damage != 0 then Volley(hp, block, CalcDamage(ef.damage, attacker, defender, 0), HitCount(ef), ef.penetrate)
      else Hit(hp, block);
    if ef.damagePerDiscard != 0 then ApplyDamage(afterHits.hp, afterHits.block, DiscardDamage(ef, discardSize))
    else afterHits
  }

  /** The damage loop of `playCard` (combat-engine.js lines 125-139). */
  method StrikeEnemy(ef: Effect, attacker: StatusMap, defender: StatusMap, hp: int, block: int)
    returns (hit: Hit, hits: nat)
    ensures hit == Volley(hp, block, CalcDamage(ef.damage, attacker, defender, 0), HitCount(ef), ef.penetrate)
    ensures hits == HitCount(ef)
  {
    var times := if ef.hits != 0 then ef.hits else 1;
    hit, hits := Hit(hp, block), 0;
    var i := 0;
    while i < times
      invariant 0 <= i && i == hits && hits <= HitCount(ef)
      invariant times > 0 ==> i <= times && HitCount(ef) == times
      invariant times <= 0 ==> i == 0 && HitCount(ef) == 0
      invariant hit == Volley(hp, block, CalcDamage(ef.damage, attacker, defender, 0), i, ef.penetrate)
    {
      var dmg := CalcDamage(ef.damage, attacker, defender, 0);
      if ef.penetrate {
        hit := hit.(hp := Max(0, hit.hp - dmg));
      } else {
        hit := ApplyDamage(hit.hp, hit.block, dmg);
      }
      i := i + 1;
      hits := hits + 1;
    }
  }

  /** Hit points and block of the player after the heal and self-damage steps. */
  function PlayerAfterCard(ef: Effect, hp: int, hpMax: int, block: int): (r: Hit)
    ensures ef.heal >= 0 && ef.selfDamage >= 0 && 0 <= hp <= hpMax && block >= 0 ==>
      0 <= r.hp <= hpMax && 0 <= r.block <= block
    ensures ef.selfDamage == 0 ==> r.block == block
  {
    var healed := if ef.heal != 0 then Min(hpMax, hp + ef.heal) else hp;
    if ef.selfDamage != 0 then ApplyDamage(healed, block, ef.selfDamage) else Hit(healed, block)
  }

  /**
   * The discard-and-redraw step (combat-engine.js lines 198-207): the hand goes
   * onto the discard pile and, with `draw_same`, as many cards are drawn back.
   * The source's loop has no stop for two empty piles; the precondition of
   * `DrawOne` shows it never needs one, since the discarded hand alone is
   * enough to draw from. The redraw is therefore a draw, as `DrawnAs` describes
   * it, from an empty hand, the old draw pile and the grown discard pile.
   */
  method DiscardAndRedraw(hand: seq<CardId>, draw: seq<CardId>, discard: seq<CardId>, drawSame: bool, g0: Rng)
    returns (hand': seq<CardId>, draw': seq<CardId>, discard': seq<CardId>, g: Rng)
    ensures multiset(hand') + multiset(draw') + multiset(discard') == multiset(hand) + multiset(draw) + multiset(discard)
    ensures |hand'| == if drawSame then |hand| else 0
    ensures DrawnAs([], draw, discard + hand, if drawSame then |hand| else 0, hand', draw', discard')
    ensures g.stream == g0.stream
  {
    discard' := discard + hand;
    ghost var pile := discard';
    var toDraw := if drawSame then |hand| else 0;
    hand', draw', g := [], draw, g0;
    var reshuffled := false;
    ghost var taken := [];
    var i := 0;
    while i < toDraw
      invariant 0 <= i <= toDraw
      invariant DrawnSoFar([], draw, pile, i, reshuffled, taken, hand', draw', discard')
      invariant g.stream == g0.stream
    {
      hand', draw', discard', reshuffled, taken, g := DrawNext([], draw, pile, i, reshuffled, taken, hand', draw', discard', g);
      i := i + 1;
    }
    DrawFinished([], draw, pile, toDraw, reshuffled, taken, hand', draw', discard');
  }

  /** `CARDS[id]?.cost ?? 0`: the catalog cost, 0 for an unknown id; never negative. */
  function CatalogCost(id: CardId): (c: int)
    ensures Known(id) ==> c == CardById(id).value.cost
    ensures !Known(id) ==> c == 0
    ensures c >= 0
  {
    if Known(id) then CardById(id).value.cost else 0
  }

  /**
   * The cost `reduce_hand_cost` starts from: the override, else the catalog
   * cost. The catalog lookup is a parameter, `CatalogCost` in the engine.
   */
  function BaseCost(overrides: map<CardId, int>, catalog: CardId -> int, id: CardId): int {
    if id in overrides then overrides[id] else catalog(id)
  }

  /** The cost after `k` reductions by `r`, each floored at 0. */
  function ReducedTimes(cost: int, r: int, k: nat): int {
    if k == 0 then cost else Max(0, ReducedTimes(cost, r, k - 1) - r)
  }

  /** For a non-negative reduction, `k >= 1` reductions are one reduction by `k * r`. */
  lemma {:induction false} ReducedTimesClosedForm(cost: int, r: int, k: nat)
    requires r >= 0 && k >= 1
    ensures ReducedTimes(cost, r, k) == Max(0, cost - k * r)
  {
    if k > 1 {
      ReducedTimesClosedForm(cost, r, k - 1);
      assert (k - 1) * r + r == k * r;
    }
  }

  /**
   * The overrides after reducing once per copy in `seen`: a card seen `k`
   * times is reduced `k` times from its base cost, an unseen card keeps its
   * override or stays without one.
   */
  ghost predicate ReducedFor(result: map<CardId, int>, overrides: map<CardId, int>, catalog: CardId -> int, r: int,
                             seen: multiset<CardId>)
  {
    && (forall id :: id in seen ==> id in result && result[id] == ReducedTimes(BaseCost(overrides, catalog, id), r, seen[id]))
    && (forall id :: id !in seen ==> (id in result <==> id in overrides) && (id in result ==> result[id] == overrides[id]))
  }

  /** One more copy of `card` reduces its current cost once more and leaves every other entry alone. */
  lemma ReduceOneMore(result: map<CardId, int>, overrides: map<CardId, int>, catalog: CardId -> int, r: int,
                      seen: multiset<CardId>, card: CardId)
    requires ReducedFor(result, overrides, catalog, r, seen)
    ensures var curr := if card in result then result[card] else catalog(card);
      ReducedFor(result[card := Max(0, curr - r)], overrides, catalog, r, seen + multiset{card})
  {
    var curr := if card in result then result[card] else catalog(card);
    assert curr == ReducedTimes(BaseCost(overrides, catalog, card), r, seen[card]);
  }

  /**
   * The cost-reduction loop (combat-engine.js lines 216-220): every copy of a
   * card in the hand reduces that card's cost once more. Cards not in the
   * hand keep their overrides.
   */
  method ReduceHandCost(hand: seq<CardId>, overrides: map<CardId, int>, catalog: CardId -> int, r: int)
    returns (result: map<CardId, int>)
    ensures forall id :: id in hand ==> id in result && result[id] == ReducedTimes(BaseCost(overrides, catalog, id), r, multiset(hand)[id])
    ensures forall id :: id !in hand ==> (id in result <==> id in overrides) && (id in result ==> result[id] == overrides[id])
  {
    result := overrides;
    for i := 0 to |hand|
      invariant ReducedFor(result, overrides, catalog, r, multiset(hand[..i]))
    {
      var card := hand[i];
      assert multiset(hand[..i + 1]) == multiset(hand[..i]) + multiset{card} by {
        assert hand[..i + 1] == hand[..i] + [card];
      }
      ReduceOneMore(result, overrides, catalog, r, multiset(hand[..i]), card);
      var curr := if card in result then result[card] else catalog(card);
      result := result[card := Max(0, curr - r)];
    }
    assert hand[..|hand|] == hand;
  }

  // ---------------------------------------------------------------------------
  // playCard
  // ---------------------------------------------------------------------------

  /** The card goes back to the discard pile unless it exhausts or leaves the deck. */
  predicate Disposed(ef: Effect) {
    !ef.exhaust && !ef.removeFromDeck
  }

  /** The size of the hand after the draw step, before any discard-and-redraw. */
  function HandAfterDraw(s: CombatState, ef: Effect): int {
    |s.hand| - 1 + (if ef.draw != 0 then Drawn(ef.draw, |s.draw| + |s.discard|) else 0)
  }

  /** The cards a play puts on top of the discard pile last: the added cards, then the card itself unless disposed of. */
  function DiscardTail(card: Card): seq<CardId> {
    Added(card.effect) + (if Disposed(card.effect) then [card.id] else [])
  }

  // The predicates below split what a play resolves into parts, so that each
  // step's proof sees only the part it needs. They are not concepts of the
  // engine itself; `PilesResolved` and `Resolved` join them into the promise of `playCard`.

  /**
   * The piles after a play: one copy of the card out of the hand, the added
   * cards in, the card back unless disposed of (`PilesCounted`). Below the cards
   * of `DiscardTail`, the piles are those of a draw (`DrawnAs`) from the hand
   * without the card, followed by the discard-and-redraw step (`Refilled`)
   * (`PilesOrdered`).
   */
  ghost predicate PilesResolved(s: CombatState, card: Card, hand: seq<CardId>, draw: seq<CardId>, discard: seq<CardId>)
    requires card.id in s.hand
  {
    PilesCounted(s, card, hand, draw, discard) && PilesOrdered(s, card, hand, draw, discard)
  }

  /** The totals and sizes part of `PilesResolved`. */
  ghost predicate PilesCounted(s: CombatState, card: Card, hand: seq<CardId>, draw: seq<CardId>, discard: seq<CardId>)
    requires card.id in s.hand
  {
    var ef := card.effect;
    && multiset(hand) + multiset(draw) + multiset(discard)
       == AllCards(s) - multiset{card.id} + multiset(Added(ef)) + (if Disposed(ef) then multiset{card.id} else multiset{})
    && (Disposed(ef) ==> |discard| > 0 && discard[|discard| - 1] == card.id)
    && (!ef.discardHand ==> && |hand| == HandAfterDraw(s, ef)
                            && hand[..|s.hand| - 1] == RemoveAt(s.hand, IndexOf(s.hand, card.id)))
    && (ef.discardHand ==> |hand| == if ef.drawSame then HandAfterDraw(s, ef) else 0)
  }

  /** The order part of `PilesResolved`: the discard tail, and the draw then the discard-and-redraw below it. */
  ghost predicate PilesOrdered(s: CombatState, card: Card, hand: seq<CardId>, draw: seq<CardId>, discard: seq<CardId>)
    requires card.id in s.hand
  {
    var tail := DiscardTail(card);
    && |discard| >= |tail| && discard[|discard| - |tail|..] == tail
    && exists drawn, draw1, discard1 ::
         && DrawnAs(RemoveAt(s.hand, IndexOf(s.hand, card.id)), s.draw, s.discard, card.effect.draw, drawn, draw1, discard1)
         && Refilled(card.effect, drawn, draw1, discard1, hand, draw, discard[..|discard| - |tail|])
  }

  /** Energy, block, hit points, and the enemy's hit points, block and statuses after a play. */
  ghost predicate EffectsResolved(s: CombatState, card: Card, run: Run,
                                  energy: int, block: int, hp: int, enemy: Hit, enemyStatuses: StatusMap)
  {
    var ef := card.effect;
    && energy == s.playerEnergy - EffectiveCost(s, card) + ef.gainEnergy
    && Hit(hp, block) == PlayerAfterCard(ef, run.hp, run.hpMax, s.playerBlock + ef.block)
    && enemy == CardStrike(ef, s.playerStatuses, s.enemyStatuses, s.enemyHp, s.enemyBlock, |s.discard|)
    && enemyStatuses == (if ef.apply.Some? then Merged(s.enemyStatuses, ef.apply.value) else s.enemyStatuses)
  }

  /** The cost overrides after a play: reduced once per copy left in the hand, others kept. */
  ghost predicate OverridesResolved(s: CombatState, card: Card, t: CombatState) {
    var r := card.effect.reduceHandCost;
    && (r == 0 ==> t.costOverrides == s.costOverrides)
    && (r != 0 ==>
          && (forall id :: id in t.hand ==>
                (id in t.costOverrides && t.costOverrides[id] == ReducedTimes(BaseCost(s.costOverrides, CatalogCost, id), r, multiset(t.hand)[id])))
          && (forall id :: id !in t.hand ==>
                ((id in t.costOverrides <==> id in s.costOverrides)
                 && (id in t.costOverrides ==> t.costOverrides[id] == s.costOverrides[id]))))
  }

  /** The fields a play carries over unchanged, and the log extended with the play first. */
  ghost predicate CarriedOver(s: CombatState, t: CombatState) {
    && t.playerStatuses == s.playerStatuses && t.turn == s.turn && t.enemyPhase == s.enemyPhase
    && t.patternIndex == s.patternIndex && t.enemyHpMax == s.enemyHpMax
    && |t.log| > |s.log| && t.log[..|s.log|] == s.log && t.log[|s.log|] == CardPlayed
  }

  /** What a successful play of `card` does to the state and to the player's hit points. */
  ghost predicate Resolved(s: CombatState, card: Card, run: Run, o: Outcome)
    requires card.id in s.hand
  {
    var t := o.state;
    && PilesResolved(s, card, t.hand, t.draw, t.discard)
    && EffectsResolved(s, card, run, t.playerEnergy, t.playerBlock, o.newPlayerHp, Hit(t.enemyHp, t.enemyBlock), t.enemyStatuses)
    && o.playerHpDelta == o.newPlayerHp - run.hp
    && OverridesResolved(s, card, t) && CarriedOver(s, t)
  }

  /**
   * `playCard`: refuses, with the first failing check, an unknown card, a card
   * not in hand, a card the player cannot pay for, and a card whose hit-point
   * condition is not met; otherwise removes the first copy from the hand, pays
   * for it and resolves its effect.
   */
  method PlayCard(s: CombatState, cardId: CardId, run: Run, g0: Rng) returns (r: PlayResult, g: Rng)
    ensures r.Refused? <==> PlayCheck(s, cardId, run).Some?
    ensures r.Refused? ==> r.error == PlayCheck(s, cardId, run).value && g == g0
    ensures r.Played? ==> Known(cardId) && cardId in s.hand && Resolved(s, CardById(cardId).value, run, r.outcome)
    ensures r.Played? ==> r.outcome.state.playerEnergy >= 0
    ensures r.Played? && Inv(s) && 0 <= run.hp <= run.hpMax ==>
      Inv(r.outcome.state) && 0 <= r.outcome.newPlayerHp <= run.hpMax
    ensures g.stream == g0.stream
  {
    var check := PlayCheck(s, cardId, run);
    if check.Some? {
      return Refused(check.value), g0;
    }
    var card := CardById(cardId).value;
    var o;
    o, g := Resolve(s, card, run, g0);
    r := Played(o);
  }

  /** The damage steps (combat-engine.js lines 124-148). */
  method DealDamage(ef: Effect, attacker: StatusMap, defender: StatusMap, hp: int, block: int, discardSize: nat)
    returns (hit: Hit, entries: seq<LogKind>)
    ensures hit == CardStrike(ef, attacker, defender, hp, block, discardSize)
  {
    hit, entries := Hit(hp, block), [];
    if ef.damage != 0 {
      var hits;
      hit, hits := StrikeEnemy(ef, attacker, defender, hp, block);
      entries := seq(hits, _ => DamageDealt);
    }
    if ef.damagePerDiscard != 0 {
      hit := ApplyDamage(hit.hp, hit.block, DiscardDamage(ef, discardSize));
      entries := entries + [DamageDealt];
    }
  }

  /** The draw step (combat-engine.js lines 156-168). */
  method DrawStep(hand: seq<CardId>, draw: seq<CardId>, discard: seq<CardId>, n: int, g0: Rng)
    returns (hand': seq<CardId>, draw': seq<CardId>, discard': seq<CardId>, entries: seq<LogKind>, g: Rng)
    ensures multiset(hand') + multiset(draw') + multiset(discard') == multiset(hand) + multiset(draw) + multiset(discard)
    ensures |hand'| == |hand| + (if n != 0 then Drawn(n, |draw| + |discard|) else 0)
    ensures hand'[..|hand|] == hand
    ensures DrawnAs(hand, draw, discard, n, hand', draw', discard')
    ensures g.stream == g0.stream
  {
    hand', draw', discard', entries, g := hand, draw, discard, [], g0;
    assert hand == hand + draw[..0] && draw == draw[0..];
    if n != 0 {
      var reshuffled;
      hand', draw', discard', reshuffled, g := DrawCards(hand, draw, discard, n, g0);
      entries := (if reshuffled then [Shuffled] else []) + [Drew];
    }
  }

  /** The energy, status, heal and self-damage steps (combat-engine.js lines 170-195). */
  method SelfSteps(ef: Effect, energy: int, hp: int, hpMax: int, block: int, enemyStatuses: StatusMap)
    returns (energy': int, hp': int, block': int, enemyStatuses': StatusMap, entries: seq<LogKind>)
    ensures energy' == energy + ef.gainEnergy
    ensures enemyStatuses' == if ef.apply.Some? then Merged(enemyStatuses, ef.apply.value) else enemyStatuses
    ensures Hit(hp', block') == PlayerAfterCard(ef, hp, hpMax, block)
  {
    energy', hp', block', enemyStatuses', entries := energy, hp, block, enemyStatuses, [];
    if ef.gainEnergy != 0 {
      energy' := energy' + ef.gainEnergy;
      entries := entries + [EnergyGained];
    }
    if ef.apply.Some? {
      enemyStatuses' := ApplyStatuses(enemyStatuses', ef.apply.value);
      entries := entries + [EnemyDebuffed];
    }
    if ef.heal != 0 {
      hp' := Min(hpMax, hp' + ef.heal);
      entries := entries + [Healed];
    }
    if ef.selfDamage != 0 {
      var hit := ApplyDamage(hp', block', ef.selfDamage);
      hp', block' := hit.hp, hit.block;
      entries := entries + [SelfDamaged];
    }
  }

  /** The discard-and-redraw and add-to-discard steps (combat-engine.js lines 197-213). */
  method RefillSteps(hand: seq<CardId>, draw: seq<CardId>, discard: seq<CardId>, ef: Effect, g0: Rng)
    returns (hand': seq<CardId>, draw': seq<CardId>, discard': seq<CardId>, entries: seq<LogKind>, g: Rng)
    ensures multiset(hand') + multiset(draw') + multiset(discard')
         == multiset(hand) + multiset(draw) + multiset(discard) + multiset(Added(ef))
    ensures !ef.discardHand ==> hand' == hand
    ensures ef.discardHand ==> |hand'| == if ef.drawSame then |hand| else 0
    ensures |discard'| >= |Added(ef)| && discard'[|discard'| - |Added(ef)|..] == Added(ef)
    ensures Refilled(ef, hand, draw, discard, hand', draw', discard'[..|discard'| - |Added(ef)|])
    ensures g.stream == g0.stream
  {
    hand', draw', discard', entries, g := hand, draw, discard, [], g0;
    if ef.discardHand {
      hand', draw', discard', g := DiscardAndRedraw(hand, draw, discard, ef.drawSame, g0);
      entries := entries + [Refactored];
    }
    ghost var redrawn := discard';
    if ef.addToDiscard.Some? {
      discard' := discard' + ef.addToDiscard.value;
      entries := entries + [CardsAdded];
    }
    assert discard' == redrawn + Added(ef);
  }

  /**
   * The discard-and-redraw step's effect on the piles: with `discard_hand`, a
   * draw of the old hand's size (or of none) from an empty hand, the draw pile
   * and the discard pile the hand went onto; without it, nothing changes.
   */
  ghost predicate Refilled(ef: Effect, hand: seq<CardId>, draw: seq<CardId>, discard: seq<CardId>,
                           hand': seq<CardId>, draw': seq<CardId>, discard': seq<CardId>)
  {
    if ef.discardHand then DrawnAs([], draw, discard + hand, if ef.drawSame then |hand| else 0, hand', draw', discard')
    else hand' == hand && draw' == draw && discard' == discard
  }

  /**
   * The steps of a play that touch energy, block, hit points and the enemy
   * (combat-engine.js lines 110-154 and 170-195): the payment, the damage, the
   * block, the energy gain, the statuses put on the enemy, the heal and the
   * self-damage.
   */
  method EffectSteps(s: CombatState, card: Card, run: Run)
    returns (energy: int, block: int, hp: int, enemy: Hit, enemyStatuses: StatusMap,
             damageLog: seq<LogKind>, blockLog: seq<LogKind>, selfLog: seq<LogKind>)
    requires NonNegative(card.effect) && s.playerEnergy >= EffectiveCost(s, card)
    ensures EffectsResolved(s, card, run, energy, block, hp, enemy, enemyStatuses)
    ensures energy >= 0
    ensures s.enemyHp >= 0 ==> 0 <= enemy.hp <= s.enemyHp
    ensures s.playerBlock >= 0 && 0 <= run.hp <= run.hpMax ==> block >= 0 && 0 <= hp <= run.hpMax
  {
    var ef := card.effect;
    enemy, damageLog := DealDamage(ef, s.playerStatuses, s.enemyStatuses, s.enemyHp, s.enemyBlock, |s.discard|);
    block, blockLog := s.playerBlock, [];
    if ef.block != 0 {
      block, blockLog := block + ef.block, [BlockGained];
    }
    energy, hp, block, enemyStatuses, selfLog := SelfSteps(ef, s.playerEnergy - EffectiveCost(s, card), run.hp, run.hpMax, block, s.enemyStatuses);
  }

  /**
   * The pile steps of a play (combat-engine.js lines 106-108, 156-168, 197-213
   * and 240-242): the first copy of the card leaves the hand, the draw, the
   * discard-and-redraw, the added cards, and the card itself onto the discard
   * pile unless it is exhausted or removed from the deck.
   */
  method PileSteps(s: CombatState, card: Card, g0: Rng)
    returns (hand': seq<CardId>, draw': seq<CardId>, discard': seq<CardId>,
             drawLog: seq<LogKind>, refillLog: seq<LogKind>, g: Rng)
    requires card.id in s.hand
    ensures PilesResolved(s, card, hand', draw', discard')
    ensures g.stream == g0.stream
  {
    var ef := card.effect;
    var hand := RemoveAt(s.hand, IndexOf(s.hand, card.id));
    var drawn, draw1, discard1;
    drawn, draw1, discard1, drawLog, g := DrawStep(hand, s.draw, s.discard, ef.draw, g0);
    var discard2;
    hand', draw', discard2, refillLog, g := RefillSteps(drawn, draw1, discard1, ef, g);
    discard' := if Disposed(ef) then discard2 + [card.id] else discard2;
    PilesAfterPlay(s, card, hand, drawn, draw1, discard1, hand', draw', discard2, discard');
    OrderAfterPlay(s, card, hand, drawn, draw1, discard1, hand', draw', discard2, discard');
  }

  /** The facts the steps of `PileSteps` leave compose into `PilesCounted`. */
  lemma PilesAfterPlay(s: CombatState, card: Card, hand: seq<CardId>,
                       drawn: seq<CardId>, draw1: seq<CardId>, discard1: seq<CardId>,
                       refilled: seq<CardId>, draw2: seq<CardId>, discard2: seq<CardId>, discard3: seq<CardId>)
    requires card.id in s.hand && hand == RemoveAt(s.hand, IndexOf(s.hand, card.id))
    requires multiset(drawn) + multiset(draw1) + multiset(discard1) == multiset(hand) + multiset(s.draw) + multiset(s.discard)
    requires |drawn| == |hand| + (if card.effect.draw != 0 then Drawn(card.effect.draw, |s.draw| + |s.discard|) else 0)
    requires drawn[..|hand|] == hand
    requires multiset(refilled) + multiset(draw2) + multiset(discard2)
          == multiset(drawn) + multiset(draw1) + multiset(discard1) + multiset(Added(card.effect))
    requires !card.effect.discardHand ==> refilled == drawn
    requires card.effect.discardHand ==> |refilled| == if card.effect.drawSame then |drawn| else 0
    requires discard3 == if Disposed(card.effect) then discard2 + [card.id] else discard2
    ensures PilesCounted(s, card, refilled, draw2, discard3)
  {
    var back := if Disposed(card.effect) then multiset{card.id} else multiset{};
    assert multiset(discard3) == multiset(discard2) + back;
    PileTotals(s, card.id, hand, multiset(drawn) + multiset(draw1) + multiset(discard1),
               multiset(refilled), multiset(draw2), multiset(discard2), multiset(Added(card.effect)), back);
    if !card.effect.discardHand {
      assert refilled[..|s.hand| - 1] == hand;
    }
  }

  /** The steps of `PileSteps` leave the piles in the order `PilesOrdered` says. */
  lemma OrderAfterPlay(s: CombatState, card: Card, hand: seq<CardId>,
                       drawn: seq<CardId>, draw1: seq<CardId>, discard1: seq<CardId>,
                       refilled: seq<CardId>, draw2: seq<CardId>, discard2: seq<CardId>, discard3: seq<CardId>)
    requires card.id in s.hand && hand == RemoveAt(s.hand, IndexOf(s.hand, card.id))
    requires discard3 == if Disposed(card.effect) then discard2 + [card.id] else discard2
    requires DrawnAs(hand, s.draw, s.discard, card.effect.draw, drawn, draw1, discard1)
    requires |discard2| >= |Added(card.effect)| && discard2[|discard2| - |Added(card.effect)|..] == Added(card.effect)
    requires Refilled(card.effect, drawn, draw1, discard1, refilled, draw2, discard2[..|discard2| - |Added(card.effect)|])
    ensures PilesOrdered(s, card, refilled, draw2, discard3)
  {
    DiscardTop(card, discard2, discard3);
  }

  /** Putting the card back on the discard pile keeps what lies below the added cards. */
  lemma DiscardTop(card: Card, discard2: seq<CardId>, discard3: seq<CardId>)
    requires |discard2| >= |Added(card.effect)| && discard2[|discard2| - |Added(card.effect)|..] == Added(card.effect)
    requires discard3 == if Disposed(card.effect) then discard2 + [card.id] else discard2
    ensures |discard3| >= |DiscardTail(card)| && discard3[|discard3| - |DiscardTail(card)|..] == DiscardTail(card)
    ensures discard3[..|discard3| - |DiscardTail(card)|] == discard2[..|discard2| - |Added(card.effect)|]
  {
  }

  /** The pile totals of a play, from the totals after each step. */
  lemma PileTotals(s: CombatState, id: CardId, hand: seq<CardId>, mid: multiset<CardId>,
                   hand': multiset<CardId>, draw': multiset<CardId>, discard': multiset<CardId>,
                   added: multiset<CardId>, back: multiset<CardId>)
    requires id in s.hand && hand == RemoveAt(s.hand, IndexOf(s.hand, id))
    requires mid == multiset(hand) + multiset(s.draw) + multiset(s.discard)
    requires hand' + draw' + discard' == mid + added
    ensures hand' + draw' + (discard' + back) == AllCards(s) - multiset{id} + added + back
  {
    HandLosesCard(s.hand, id);
    Rebalance(multiset(s.hand), multiset(hand), multiset(s.draw), multiset(s.discard),
              mid, hand', draw', discard', added, back, id);
  }

  /** Removing the first copy of a card takes exactly one copy out of the hand. */
  lemma HandLosesCard(hand: seq<CardId>, id: CardId)
    requires id in hand
    ensures multiset(hand) == multiset(RemoveAt(hand, IndexOf(hand, id))) + multiset{id}
  {
    var i := IndexOf(hand, id);
    assert hand[i] == id;
    assert multiset{id} <= multiset(hand);
  }

  /** Multiset bookkeeping of a play, over the pile totals alone. */
  lemma Rebalance(before: multiset<CardId>, after: multiset<CardId>, draw: multiset<CardId>, discard: multiset<CardId>,
                  mid: multiset<CardId>, hand': multiset<CardId>, draw': multiset<CardId>, discard': multiset<CardId>,
                  added: multiset<CardId>, back: multiset<CardId>, id: CardId)
    requires before == after + multiset{id}
    requires mid == after + draw + discard && hand' + draw' + discard' == mid + added
    ensures hand' + draw' + (discard' + back) == before + draw + discard - multiset{id} + added + back
  {
    assert before + draw + discard - multiset{id} == after + draw + discard;
  }

  /** The pipeline of `playCard` after its checks (combat-engine.js lines 106-245). */
  method Resolve(s: CombatState, card: Card, run: Run, g0: Rng) returns (o: Outcome, g: Rng)
    requires card.id in s.hand && card.cost >= 0 && NonNegative(card.effect)
    requires s.playerEnergy >= EffectiveCost(s, card)
    ensures PilesResolved(s, card, o.state.hand, o.state.draw, o.state.discard)
    ensures EffectsResolved(s, card, run, o.state.playerEnergy, o.state.playerBlock, o.newPlayerHp,
                            Hit(o.state.enemyHp, o.state.enemyBlock), o.state.enemyStatuses)
    ensures o.playerHpDelta == o.newPlayerHp - run.hp
    ensures OverridesResolved(s, card, o.state)
    ensures CarriedOver(s, o.state)
    ensures o.state.playerEnergy >= 0
    ensures Inv(s) && 0 <= run.hp <= run.hpMax ==> Inv(o.state) && 0 <= o.newPlayerHp <= run.hpMax
    ensures g.stream == g0.stream
  {
    var ef := card.effect;
    var energy, block, hp, enemy, enemyStatuses, damageLog, blockLog, selfLog := EffectSteps(s, card, run);
    var hand, draw, discard, drawLog, refillLog;
    hand, draw, discard, drawLog, refillLog, g := PileSteps(s, card, g0);
    var overrides, costLog := s.costOverrides, [];
    if ef.reduceHandCost != 0 {
      overrides := ReduceHandCost(hand, overrides, CatalogCost, ef.reduceHandCost);
      costLog := [CostReduced];
    }
    var t := s.(hand := hand, draw := draw, discard := discard,
                playerEnergy := energy, playerBlock := block,
                enemyHp := enemy.hp, enemyBlock := enemy.block, enemyStatuses := enemyStatuses,
                costOverrides := overrides,
                log := s.log + [CardPlayed] + (damageLog + blockLog + drawLog + selfLog + refillLog + costLog));
    LogExtended(s.log, CardPlayed, damageLog + blockLog + drawLog + selfLog + refillLog + costLog);
    o := Outcome(t, hp, hp - run.hp);
  }

  // ---------------------------------------------------------------------------
  // endPlayerTurn
  // ---------------------------------------------------------------------------

  /** The player's hit points and block after the poison tick, which only a poisoned player takes. */
  function PlayerAfterPoison(hp: int, block: int, statuses: StatusMap): (r: Hit)
    ensures !Active(statuses, Poison) ==> r == Hit(hp, block)
    ensures hp >= 0 && block >= 0 && PoisonDamage(statuses) >= 0 ==> 0 <= r.hp <= hp && 0 <= r.block <= block
    ensures Active(statuses, Poison) ==> r.hp >= 0
  {
    if Active(statuses, Poison) then ApplyDamage(hp, block, PoisonDamage(statuses)) else Hit(hp, block)
  }

  /**
   * The player's statuses after the poison tick: they decay only when the
   * player is poisoned, since that is the only time the tick runs.
   */
  function PlayerStatusesAfterPoison(statuses: StatusMap): (r: StatusMap)
    ensures !Active(statuses, Poison) ==> r == statuses
    ensures r.Keys <= statuses.Keys
    ensures Strength in statuses ==> Strength in r && r[Strength] == statuses[Strength]
  {
    if Active(statuses, Poison) then Ticked(statuses) else statuses
  }

  /** The enemy's hit points after its poison tick, which bypasses its block. */
  function EnemyAfterPoison(hp: int, statuses: StatusMap): (h: int)
    ensures PoisonDamage(statuses) <= 0 ==> h == hp
    ensures PoisonDamage(statuses) > 0 ==> h >= 0 && h <= Max(0, hp)
    ensures hp >= 0 ==> 0 <= h <= hp
  {
    if PoisonDamage(statuses) > 0 then Max(0, hp - PoisonDamage(statuses)) else hp
  }

  /** The enemy's hit points after its poison tick and intent, before the final floor at 0. */
  function EnemyHpAfterTurn(s: CombatState, foe: EnemyDef, foeHpMax: int): (h: int)
    ensures !IntentFor(foe, s.enemyPhase, s.patternIndex).Heal? ==> h == EnemyAfterPoison(s.enemyHp, s.enemyStatuses)
    ensures IntentFor(foe, s.enemyPhase, s.patternIndex).Heal? ==> h <= foeHpMax
    ensures IntentFor(foe, s.enemyPhase, s.patternIndex).Heal? && IntentFor(foe, s.enemyPhase, s.patternIndex).value >= 0 ==>
      h == Min(foeHpMax, EnemyAfterPoison(s.enemyHp, s.enemyStatuses) + IntentFor(foe, s.enemyPhase, s.patternIndex).value)
  {
    var hp := EnemyAfterPoison(s.enemyHp, s.enemyStatuses);
    match IntentFor(foe, s.enemyPhase, s.patternIndex)
    case Heal(v) => Min(foeHpMax, hp + v)
    case _ => hp
  }

  /** The enemy after its poison tick and intent: hit points floored at 0, block and statuses. */
  ghost predicate EnemySideResolved(s: CombatState, foe: EnemyDef, foeHpMax: int, hp: int, block: int, statuses: StatusMap) {
    var intent, ticked := IntentFor(foe, s.enemyPhase, s.patternIndex), Ticked(s.enemyStatuses);
    && hp == Max(0, EnemyHpAfterTurn(s, foe, foeHpMax))
    && block == s.enemyBlock + (if intent.Defend? then intent.block else 0)
    && statuses == (if intent.Buff? && intent.apply.Some? then Merged(ticked, intent.apply.value) else ticked)
  }

  /**
   * The player after the poison tick and the enemy's intent: an attack goes
   * through `calcDamage` with the enemy's ticked statuses and strength, a
   * debuff lands on the ticked statuses.
   */
  ghost predicate PlayerSideResolved(s: CombatState, run: Run, foe: EnemyDef, hp: int, statuses: StatusMap) {
    var intent := IntentFor(foe, s.enemyPhase, s.patternIndex);
    var ps := PlayerStatusesAfterPoison(s.playerStatuses);
    var poisoned := PlayerAfterPoison(run.hp, s.playerBlock, s.playerStatuses);
    var ticked := Ticked(s.enemyStatuses);
    && statuses == (if intent.Debuff? && intent.apply.Some? then Merged(ps, intent.apply.value) else ps)
    && (intent.Attack? ==>
          hp == ApplyDamage(poisoned.hp, poisoned.block, CalcDamage(intent.value, ticked, ps, Get(ticked, Strength))).hp)
    && (!intent.Attack? ==> hp == poisoned.hp)
  }

  /**
   * The piles after the refill: no card is lost or made up, the hand holds five
   * cards or all there are, and a draw pile of five or more deals its top five
   * without shuffling, the old hand going onto the discard pile. In every case
   * the piles are those of a draw of five (`DrawnAs`) into an empty hand from
   * the draw pile and the discard pile with the old hand on top: a shorter
   * draw pile is dealt whole, then the rest comes from the reshuffled discard
   * pile, which is left empty.
   */
  ghost predicate HandDealt(s: CombatState, hand: seq<CardId>, draw: seq<CardId>, discard: seq<CardId>) {
    && multiset(hand) + multiset(draw) + multiset(discard) == AllCards(s)
    && |hand| == Min(5, |s.hand| + |s.draw| + |s.discard|)
    && (|s.draw| >= 5 ==> hand == s.draw[..5] && draw == s.draw[5..] && discard == s.discard + s.hand)
    && DrawnAs([], s.draw, s.discard + s.hand, 5, hand, draw, discard)
  }

  /**
   * `endPlayerTurn`: the poison ticks, the enemy's intent for this turn, a
   * fresh hand of five from the draw pile (the old hand discarded first), the
   * phase check, and the reset of block, energy and cost overrides.
   * `foe` is the enemy's catalog entry and `foeHpMax` the hit-point maximum of
   * this combat, which replaces the catalog's.
   */
  method EndPlayerTurn(s: CombatState, run: Run, foe: EnemyDef, foeHpMax: int, g0: Rng) returns (o: Outcome, g: Rng)
    ensures var t := o.state;
      && t.playerBlock == 0 && t.playerEnergy == EnergyBase(run) && t.costOverrides == map[]
      && t.turn == s.turn + 1 && t.enemyHpMax == s.enemyHpMax
      && t.patternIndex == PatternSlot(foe, s.enemyPhase, s.patternIndex) + 1
      && t.enemyPhase == NextPhase(foe, s.enemyPhase, EnemyHpAfterTurn(s, foe, foeHpMax), foeHpMax)
    ensures EnemySideResolved(s, foe, foeHpMax, o.state.enemyHp, o.state.enemyBlock, o.state.enemyStatuses)
    ensures PlayerSideResolved(s, run, foe, o.newPlayerHp, o.state.playerStatuses)
    ensures o.playerHpDelta == o.newPlayerHp - run.hp
    ensures 0 <= run.hp ==> 0 <= o.newPlayerHp <= run.hp
    ensures HandDealt(s, o.state.hand, o.state.draw, o.state.discard)
    ensures var t := o.state;
      |t.log| > |s.log| && t.log[..|s.log|] == s.log && t.log[|s.log|] == TurnEnd
    ensures Inv(s) && run.energyBase >= 0 && foeHpMax == s.enemyHpMax ==> Inv(o.state)
    ensures g.stream == g0.stream
  {
    var playerHp, playerStatuses, enemyHp, enemyBlock, enemyStatuses, turnLog, phaseHp :=
      EnemyTurn(s, run, foe, foeHpMax);
    var hand, draw, discard, shuffleLog;
    hand, draw, discard, shuffleLog, g := DealNextHand(s, g0);
    var phase, phaseLog := PhaseCheck(foe, s.enemyPhase, phaseHp, foeHpMax);
    var t := s.(hand := hand, draw := draw, discard := discard,
                playerBlock := 0, playerEnergy := EnergyBase(run), playerStatuses := playerStatuses,
                enemyHp := enemyHp, enemyBlock := enemyBlock, enemyStatuses := enemyStatuses,
                turn := s.turn + 1, patternIndex := PatternSlot(foe, s.enemyPhase, s.patternIndex) + 1,
                enemyPhase := phase, costOverrides := map[],
                log := s.log + [TurnEnd] + (turnLog + shuffleLog + phaseLog));
    LogExtended(s.log, TurnEnd, turnLog + shuffleLog + phaseLog);
    o := Outcome(t, playerHp, playerHp - run.hp);
  }

  /**
   * The poison ticks and the enemy's intent (combat-engine.js lines 258-307).
   * `phaseHp` is the enemy's hit points before the floor at 0, which the phase
   * check reads.
   */
  method EnemyTurn(s: CombatState, run: Run, foe: EnemyDef, foeHpMax: int)
    returns (playerHp: int, playerStatuses: StatusMap, enemyHp: int, enemyBlock: int, enemyStatuses: StatusMap,
             entries: seq<LogKind>, phaseHp: int)
    ensures EnemySideResolved(s, foe, foeHpMax, enemyHp, enemyBlock, enemyStatuses)
    ensures PlayerSideResolved(s, run, foe, playerHp, playerStatuses)
    ensures phaseHp == EnemyHpAfterTurn(s, foe, foeHpMax)
    ensures 0 <= run.hp ==> 0 <= playerHp <= run.hp
    ensures 0 <= s.enemyHp <= foeHpMax ==> enemyHp <= foeHpMax
  {
    var poisoned, poisonLog, enemyPoisonLog, playerBlock, intentLog;
    poisoned, playerStatuses, poisonLog := PlayerPoisonTick(run.hp, s.playerBlock, s.playerStatuses);
    enemyHp, enemyStatuses, enemyPoisonLog := EnemyPoisonTick(s.enemyHp, s.enemyStatuses);
    var intent := IntentFor(foe, s.enemyPhase, s.patternIndex);
    playerHp, playerBlock, playerStatuses, enemyHp, enemyBlock, enemyStatuses, intentLog :=
      EnemyActs(intent, poisoned.hp, poisoned.block, playerStatuses, enemyHp, s.enemyBlock, enemyStatuses, foeHpMax);
    phaseHp := enemyHp;
    enemyHp := Max(0, enemyHp);
    entries := poisonLog + enemyPoisonLog + intentLog;
  }

  /** The refill (combat-engine.js lines 309-320): the hand goes onto the discard pile, then five cards are drawn. */
  method DealNextHand(s: CombatState, g0: Rng)
    returns (hand: seq<CardId>, draw: seq<CardId>, discard: seq<CardId>, entries: seq<LogKind>, g: Rng)
    ensures HandDealt(s, hand, draw, discard)
    ensures g.stream == g0.stream
  {
    var reshuffled;
    hand, draw, discard, reshuffled, g := DrawCards([], s.draw, s.discard + s.hand, 5, g0);
    entries := if reshuffled then [Shuffled] else [];
  }

  /** The player's poison tick (combat-engine.js lines 260-268): it runs only for a poisoned player. */
  method PlayerPoisonTick(hp: int, block: int, statuses: StatusMap)
    returns (hit: Hit, statuses': StatusMap, entries: seq<LogKind>)
    ensures hit == PlayerAfterPoison(hp, block, statuses)
    ensures statuses' == PlayerStatusesAfterPoison(statuses)
  {
    hit, statuses', entries := Hit(hp, block), statuses, [];
    if Active(statuses, Poison) {
      var poison;
      statuses', poison := TickStatuses(statuses);
      hit := ApplyDamage(hp, block, poison);
      if poison > 0 {
        entries := [PoisonTick];
      }
    }
  }

  /** The enemy's tick (combat-engine.js lines 270-276): always runs; its poison ignores block. */
  method EnemyPoisonTick(hp: int, statuses: StatusMap) returns (hp': int, statuses': StatusMap, entries: seq<LogKind>)
    ensures hp' == EnemyAfterPoison(hp, statuses)
    ensures statuses' == Ticked(statuses)
  {
    var poison;
    statuses', poison := TickStatuses(statuses);
    hp', entries := hp, [];
    if poison > 0 {
      hp' := Max(0, hp - poison);
      entries := [PoisonTick];
    }
  }

  /**
   * The enemy's intent (combat-engine.js lines 286-307). An attack uses the
   * statuses as they stand after the tick and adds the enemy's strength; a
   * buff or debuff without statuses to apply does nothing.
   */
  method EnemyActs(intent: Intent, playerHp: int, playerBlock: int, playerStatuses: StatusMap,
                   enemyHp: int, enemyBlock: int, enemyStatuses: StatusMap, foeHpMax: int)
    returns (playerHp': int, playerBlock': int, playerStatuses': StatusMap,
             enemyHp': int, enemyBlock': int, enemyStatuses': StatusMap, entries: seq<LogKind>)
    ensures intent.Attack? ==>
      Hit(playerHp', playerBlock') == ApplyDamage(playerHp, playerBlock, CalcDamage(intent.value, enemyStatuses, playerStatuses, Get(enemyStatuses, Strength)))
    ensures !intent.Attack? ==> playerHp' == playerHp && playerBlock' == playerBlock
    ensures playerStatuses' == if intent.Debuff? && intent.apply.Some? then Merged(playerStatuses, intent.apply.value) else playerStatuses
    ensures enemyHp' == if intent.Heal? then Min(foeHpMax, enemyHp + intent.value) else enemyHp
    ensures enemyBlock' == enemyBlock + if intent.Defend? then intent.block else 0
    ensures enemyStatuses' == if intent.Buff? && intent.apply.Some? then Merged(enemyStatuses, intent.apply.value) else enemyStatuses
    ensures |entries| == 1
  {
    playerHp', playerBlock', playerStatuses' := playerHp, playerBlock, playerStatuses;
    enemyHp', enemyBlock', enemyStatuses' := enemyHp, enemyBlock, enemyStatuses;
    match intent {
      case Attack(value) =>
        var hit := ApplyDamage(playerHp, playerBlock, CalcDamage(value, enemyStatuses, playerStatuses, Get(enemyStatuses, Strength)));
        playerHp', playerBlock' := hit.hp, hit.block;
        entries := [EnemyAttack];
      case Defend(block) =>
        enemyBlock' := enemyBlock + block;
        entries := [EnemyDefend];
      case Buff(apply) =>
        if apply.Some? {
          enemyStatuses' := ApplyStatuses(enemyStatuses, apply.value);
          entries := [EnemyBuff];
        } else {
          entries := [EnemySkip];
        }
      case Debuff(apply) =>
        if apply.Some? {
          playerStatuses' := ApplyStatuses(playerStatuses, apply.value);
          entries := [EnemyDebuff];
        } else {
          entries := [EnemySkip];
        }
      case Heal(value) =>
        enemyHp' := Min(foeHpMax, enemyHp + value);
        entries := [EnemyHeal];
      case Unknown =>
        entries := [EnemySkip];
    }
  }

  /** The phase check (combat-engine.js lines 322-333). */
  method PhaseCheck(foe: EnemyDef, phase: nat, hp: int, hpMax: int) returns (phase': nat, entries: seq<LogKind>)
    ensures phase' == NextPhase(foe, phase, hp, hpMax)
    ensures entries == if phase' != phase then [PhaseChange] else []
  {
    phase', entries := phase, [];
    if foe.phases.Some? && phase < |foe.phases.value| - 1 {
      if phase == 0 && 100 * hp < 66 * hpMax {
        phase', entries := 1, [PhaseChange];
      } else if phase == 1 && 100 * hp < 33 * hpMax {
        phase', entries := 2, [PhaseChange];
      }
    }
  }

  // ---------------------------------------------------------------------------
  // Properties of the steps
  // ---------------------------------------------------------------------------

  /** Damage per discarded card is not changed by weak or vulnerable: a card without flat damage hits the same whatever the statuses. */
  lemma DiscardDamageIgnoresStatuses(ef: Effect, a1: StatusMap, d1: StatusMap, a2: StatusMap, d2: StatusMap,
                                     hp: int, block: int, discardSize: nat)
    requires ef.damage == 0
    ensures CardStrike(ef, a1, d1, hp, block, discardSize) == CardStrike(ef, a2, d2, hp, block, discardSize)
  {
  }

  /** `stack_overflow` deals 5 per card in the discard pile, at most 25, through the enemy's block. */
  lemma StackOverflowDamage(attacker: StatusMap, defender: StatusMap, hp: int, block: int, discardSize: nat)
    ensures var ef := CardById("stack_overflow").value.effect;
      && DiscardDamage(ef, discardSize) == Min(5 * discardSize, 25)
      && CardStrike(ef, attacker, defender, hp, block, discardSize) == ApplyDamage(hp, block, Min(5 * discardSize, 25))
  {
  }

  /**
   * A `golpe` from a weakened player on a vulnerable enemy: 6 becomes
   * `floor(6 * 0.75) = 4`, then `floor(4 * 1.5) = 6`, and 50 hit points behind
   * 2 block drop to 46.
   */
  lemma GolpeThroughStatuses()
    ensures CardStrike(CardById("golpe").value.effect, map[Weak := 1], map[Vulnerable := 2], 50, 2, 7) == Hit(46, 0)
  {
  }

  /**
   * The player's weak and vulnerable decay at the end of turn only when the
   * player is poisoned; unpoisoned, block and hit points are untouched too.
   */
  lemma PlayerDecayNeedsPoison(hp: int, block: int, statuses: StatusMap)
    ensures !Active(statuses, Poison) ==>
      PlayerStatusesAfterPoison(statuses) == statuses && PlayerAfterPoison(hp, block, statuses) == Hit(hp, block)
    ensures Active(statuses, Poison) && Weak in statuses && statuses[Weak] > 1 ==>
      Get(PlayerStatusesAfterPoison(statuses), Weak) == statuses[Weak] - 1
    ensures Active(statuses, Poison) && Vulnerable in statuses && statuses[Vulnerable] == 1 ==>
      Vulnerable !in PlayerStatusesAfterPoison(statuses)
  {
  }

  /** The player's poison is absorbed by block first; the enemy's ignores block entirely. */
  lemma PoisonAgainstBlock(hp: int, block: int, statuses: StatusMap)
    requires hp >= 0 && block >= 0 && Active(statuses, Poison) && statuses[Poison] > 0
    ensures statuses[Poison] <= block ==> PlayerAfterPoison(hp, block, statuses).hp == hp
    ensures EnemyAfterPoison(hp, statuses) == Max(0, hp - statuses[Poison])
  {
  }

  /** The enemy's block is never reset: an end of turn without a defend intent keeps it. */
  lemma EnemyBlockPersists(s: CombatState, foe: EnemyDef, foeHpMax: int, hp: int, block: int, statuses: StatusMap)
    requires EnemySideResolved(s, foe, foeHpMax, hp, block, statuses)
    requires !IntentFor(foe, s.enemyPhase, s.patternIndex).Defend?
    ensures block == s.enemyBlock
  {
  }

  // ---------------------------------------------------------------------------
  // checkCombatResult
  // ---------------------------------------------------------------------------

  /** `checkCombatResult`: the player's death takes precedence over the enemy's. */
  function CheckCombatResult(s: CombatState, playerHp: int): (r: CombatResult)
    ensures r == Defeat <==> playerHp <= 0
    ensures r == Victory <==> playerHp > 0 && s.enemyHp <= 0
    ensures r == Ongoing <==> playerHp > 0 && s.enemyHp > 0
  {
    if playerHp <= 0 then Defeat
    else if s.enemyHp <= 0 then Victory
    else Ongoing
  }
}
