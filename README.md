# Combat engine of a turn-based deckbuilder, in Dafny

This project models the combat core of a small roguelike deckbuilder. A fight
is a `CombatState` snapshot: hand, draw pile, discard pile, the player's block,
energy and statuses, the enemy's hit points, block, statuses, phase and pattern
position, per-turn cost overrides and the log. The player's hit points live
outside the state. They come in as `Run.hp` and leave as `Outcome.newPlayerHp`.
Each engine operation takes a snapshot and returns a new one:

- `StartCombat` deals the opening hand.
- `PlayCard` checks a play and then resolves the card's effect pipeline.
- `EndPlayerTurn` ticks poison, resolves the enemy's intent, deals a new hand,
  checks for a boss phase change and resets the per-turn fields.
- `CheckCombatResult` reports defeat, victory or an ongoing fight.

The two catalogs the engine reads are modelled as total functions over ids:
`Cards.CardById` for the cards and `Enemies.EnemyById` for the enemies. Their
contracts state the well-formedness that the engine's lookups rely on.

Modules, one per concern:

| module | file | models |
|---|---|---|
| `Options` | options.dfy | an optional value, for absent fields and failed lookups |
| `Chance` | chance.dfy | `Math.random()` as an oracle stream `Rng` |
| `Statuses` | statuses.dfy | `tickStatuses`, `applyStatuses` |
| `Damage` | damage.dfy | `clamp`, `calcDamage`, `applyDamage`, multi-hit volleys |
| `Cards` | cards.dfy | `CARDS`, `STARTING_DECK`, `REWARD_POOL`, `getCardRewards` |
| `Enemies` | enemies.dfy | `ENEMIES`, `ENCOUNTER_TABLE`, `randomEnemy`, `getEnemyDef` |
| `EnemyAi` | intents.dfy | intent selection, pattern cycling and the boss phase rule |
| `Piles` | piles.dfy | `shuffle`, `indexOf`/`splice`, and the draw loop with reshuffle |
| `CombatEngine` | engine.dfy | `startCombat`, `playCard`, `endPlayerTurn`, `checkCombatResult` |

Modelling choices:

- **Absent numbers are 0.** A numeric effect or intent field that a card or
  enemy leaves out is 0, because the source only reads such fields through
  JavaScript truthiness.
- **Floor arithmetic.** `Math.floor(x * 0.75)` is `(3 * x) / 4` and
  `Math.floor(x * 1.5)` is `(3 * x) / 2`, using Euclidean division.
- **Phase thresholds.** `hp / max < 0.66` becomes `100 * hp < 66 * max`, and
  `< 0.33` becomes `100 * hp < 33 * max`.
- **Engine loops are methods.** The shuffle, the damage loop, the draw loops,
  the cost-reduction loop and the status merge are methods with loops. Each is
  proved against a specification function or a ghost predicate: `Volley`,
  `Drawn`, `DrawnAs`, `ReducedTimes`, `Merged`, `PilesResolved`, `HandDealt`.
- **Pipelines are split into steps.** `playCard` and `endPlayerTurn` are
  composed from step methods, each covering a block of source lines.
- **The enemy's maximum hit points are a parameter.** `endPlayerTurn` receives
  the enemy as the catalog entry plus the combat's own maximum hit points,
  `foeHpMax`. That is the shape server.js passes, `{...enemy, hp_max:
  combat.enemy_hp_max}`.
- **Log text is dropped.** Log entries are kept as a sequence of kinds without
  their text.

## Model

| member | source | states |
|---|---|---|
| Statuses.Ticked | combat-engine.js:22-32 | poison, weak and vulnerable drop by one and vanish at 0; strength and negative values are kept; no key is added |
| Statuses.PoisonDamage | combat-engine.js:24 | the tick's damage is the poison before the decrement, 0 when absent |
| Statuses.TickStatuses | combat-engine.js:22-32 | the copy-and-delete steps compute exactly `Ticked` and `PoisonDamage` |
| Statuses.DecayKey | combat-engine.js:25-30 | one key is decremented when positive and deleted at 0; every other key is untouched |
| Statuses.TickedTimesDecay | combat-engine.js:22-32 | after `n` ticks a decaying status of magnitude above `n` is `n` lower |
| Statuses.StatusExpires | combat-engine.js:22-32 | a positive decaying status disappears after exactly as many ticks as its magnitude |
| Statuses.StrengthPersists | combat-engine.js:22-32 | strength survives any number of ticks unchanged |
| Statuses.Merged | combat-engine.js:34-40 | the keys are the union; each incoming value adds to the current one (default 0); no key is removed |
| Statuses.ApplyStatuses | combat-engine.js:34-40 | the entry loop computes `Merged` |
| Statuses.MergeEmpty | combat-engine.js:34-40 | merging no statuses changes nothing |
| Statuses.MergeAssociative | combat-engine.js:34-40 | two merges equal one merge of the summed deltas |
| Statuses.MergeOrderIrrelevant | combat-engine.js:34-40 | the order of two merges does not matter |
| Damage.Clamp | combat-engine.js:17-19 | the result lies in `[lo, hi]` and equals the value when it is already inside |
| Damage.CalcDamage | combat-engine.js:42-47 | never negative; without statuses it is `max(0, base + strength)`; weak alone gives the floor of 3/4 and vulnerable alone the floor of 3/2 |
| Damage.WeakThenVulnerable | combat-engine.js:44-45 | with both statuses, weak is applied before vulnerable |
| Damage.OrderMatters | combat-engine.js:44-45 | for a base of 10 the source order gives 10, while the reverse order would give 11 |
| Damage.CalcDamageMonotone | combat-engine.js:42-47 | more base damage never deals less |
| Damage.WeakNeverHelps | combat-engine.js:44 | a weakened attacker never deals more than an unweakened one |
| Damage.ApplyDamage | combat-engine.js:49-59 | block absorbs first; `block' = max(0, block - dmg)` and `hp' = max(0, hp - max(0, dmg - block))` for non-negative inputs; hp never rises |
| Damage.ApplyDamageExample | combat-engine.js:49-59 | `(10, 5, 8)` gives hp 7 and block 0 |
| Damage.ApplyDamageAdds | combat-engine.js:49-59 | two hits through the same block equal one hit of their sum |
| Damage.Pierce | combat-engine.js:130 | penetrating damage never raises hp and never goes below 0 |
| Damage.Volley | combat-engine.js:126-138 | repeated hits never raise the enemy's hp and never push it below 0 |
| Damage.VolleyIsOneHit | combat-engine.js:126-138 | `n` hits through block equal one hit of `n` times the damage |
| Damage.PiercingVolley | combat-engine.js:129-131 | `n` penetrating hits take `n` times the damage off hp and leave block alone |
| Cards.CardById | cards.js:5-145 | every entry is stored under its own id, with cost >= 0 and non-negative effect magnitudes |
| Cards.AddedCardsKnown | cards.js:131 | every card an effect adds to the discard pile is in the catalog |
| Cards.StartingDeck | cards.js:148-152 | 10 cards, as a multiset exactly 5 `golpe`, 4 `bloqueo` and 1 `cafeinazo` |
| Cards.StarterIds | cards.js:148-152 | the starting deck holds no id other than those three |
| Cards.StartingDeckKnown | cards.js:148-152 | every starting card is in the catalog |
| Cards.RewardPool | cards.js:155-159 | each of the common, uncommon and rare pools is non-empty |
| Cards.RewardPoolCards | cards.js:155-159 | every candidate of a pool is a catalog card of that pool's rarity |
| Cards.RewardBucket | cards.js:166-170 | a roll always selects the common, uncommon or rare pool, never starter or curse |
| Cards.GetCardRewards | cards.js:162-175 | the rewards are the catalog cards of `Kept(picks)`, where `picks` are the cards the rounds played pick from the random values, two per round, in order; at most 3, pairwise distinct, each from the pool of its rarity; the loop stops at the first round that brings the count to 3, and ends with fewer only once the round budget is spent |
| Cards.PlayRound | cards.js:166-172 | one round appends the round's pick to `picks`, takes two random values, and keeps the rewards equal to the catalog cards of `Kept(picks)` and `seen` equal to their ids |
| Cards.PickRound | cards.js:166-171 | the card drawn is the pool entry at the rolled slot of the rolled rarity, and is the pick `RoundPick` of that round |
| Cards.KeepPick | cards.js:172 | a card not seen yet joins the rewards as its catalog entry and is marked seen; a seen card changes nothing |
| Cards.OfferAt | cards.js:172 | `CARDS[card]` for a pool entry is a catalog card with that id, offered from the pool of its own rarity |
| Cards.KeptSound | cards.js:164-172 | the kept ids are pairwise distinct, every pick is kept, and every kept id is a pick |
| Cards.KeptStep | cards.js:172 | one more pick is appended to the kept ids exactly when it is not among them yet |
| Cards.KeptGrows | cards.js:172 | later rounds never drop or reorder a kept card: the kept ids of a run start with those of any prefix of it |
| Chance.Pick | combat-engine.js:11 | `Math.floor(Math.random() * n)` is an index below `n` |
| Enemies.EnemyById | enemies.js:5-163 | every entry is stored under its own id, has `0 < min <= max` hit points, and has either a non-empty pattern or exactly three named phases with non-empty patterns |
| Enemies.TablePool | enemies.js:166-182 | every listed pool is non-empty |
| Enemies.TableCoversActs | enemies.js:166-182 | acts 1 to 3 list a pool for every encounter type, and no other act lists one |
| Enemies.TableIdsKnown | enemies.js:166-182 | every listed id is in the catalog |
| Enemies.EncounterPool | enemies.js:185 | the act's pool, or act 1's pool of the same type when the act has none; non-empty and made of catalog ids |
| Enemies.RandomEnemy | enemies.js:184-192 | as written: a catalog enemy from the pool, with hp in `[min, max]` and below `max` when `min < max`, `hp = min` when `min = max`, `hp_max = hp`, phase 0 and pattern index 0 |
| Enemies.PickEnemy | enemies.js:185-187 | the enemy picked is a catalog entry of the encounter pool |
| Enemies.RandomEnemyIntended | enemies.js:184-192 | as `RandomEnemy`, with hp rolled over the inclusive range `[min, max]` |
| Enemies.GetEnemyDef | enemies.js:194-196 | the catalog entry unchanged, or nothing for an unknown id |
| Enemies.RollHp | enemies.js:188-190 | the hp roll as written lies in `[min, max]`, and below `max` when `min < max` |
| Enemies.TopOfRangeNeverRolled | enemies.js:188-190 | as written, `bug_rastrero` (range 40 to 50) is never rolled with 50 hp |
| Enemies.RollHpInclusive | enemies.js:188-190 | the roll over the inclusive range stays within `[min, max]` |
| Enemies.InclusiveRollReachesEvery | enemies.js:188-190 | every value of the inclusive range, the maximum included, is reached by some random value |
| Enemies.IntendedRollsEveryHp | enemies.js:188-190 | with the inclusive roll, every hp of the picked enemy's range, the maximum included, comes up for some random value |
| EnemyAi.CurrentPattern | combat-engine.js:280-282 | the enemy's own pattern, the pattern of the current phase, or none for a phase the boss lacks |
| EnemyAi.PatternLength | combat-engine.js:283 | the modulus is the pattern length, or 1 for a missing or empty pattern |
| EnemyAi.PatternSlot | combat-engine.js:283 | the slot is below the modulus, and is the stored index itself when that is already below it |
| EnemyAi.IntentFor | combat-engine.js:284 | the pattern entry at the slot, or the fallback attack of 10 when there is no pattern |
| EnemyAi.MissingPhaseAttacks | combat-engine.js:281-284 | a phase index the boss does not have yields an attack of 10 |
| EnemyAi.NextSlotCycles | combat-engine.js:283-347 | storing `slot + 1` walks the pattern cyclically: the next slot is `(index + 1) mod length` |
| EnemyAi.CatalogIntentsFromPattern | combat-engine.js:280-284 | every catalog enemy in one of its phases plays an intent of its own pattern, never the fallback |
| EnemyAi.NextPhase | combat-engine.js:322-333 | the phase never drops and rises by at most one; it rises exactly when a boss has a phase left and `hp/max` is below 0.66 in phase 0 or below 0.33 in phase 1 |
| EnemyAi.PhaseNameInRange | combat-engine.js:328-331 | after a transition, the phase read for its name exists in the catalog entry |
| EnemyAi.NoTransitionAtFullHealth | combat-engine.js:322-333 | no phase change at full health, and never one for an enemy without phases |
| Piles.Shuffle | combat-engine.js:8-15 | the result is a permutation of the input; it reads one random value per swap |
| Piles.IndexOf | combat-engine.js:92 | the first position of the card, or -1 exactly when the card is absent |
| Piles.RemoveAt | combat-engine.js:107-108 | the pile loses exactly the card at the index; the cards before it keep their places and those after it shift down by one |
| Piles.DrawOne | combat-engine.js:159-165 | reshuffles exactly when the draw pile is empty; the top card moves to the end of the hand and no card is lost |
| Piles.DrawLoop | combat-engine.js:157-166 | the loop keeps `DrawnSoFar`: before a reshuffle the hand gains the top of the draw pile in order; after it the whole draw pile, then cards of the old discard pile, which is left empty; a reshuffle happens exactly when the draw pile runs short and the discard pile is not empty |
| Piles.DrawNext | combat-engine.js:159-165 | one round keeps `DrawnSoFar` one card further, and marks a reshuffle exactly when the draw pile was empty |
| Piles.DrawFinished | combat-engine.js:157-166 | a loop that has drawn `min(n, available)` cards leaves the piles as `DrawnAs` says |
| Piles.DrawCards | combat-engine.js:157-168 | the piles are those `DrawnAs` describes: the hand gains `min(n, |draw| + |discard|)` cards and keeps its old cards as a prefix; with enough cards on the draw pile they are its top cards in order and the discard pile is untouched; otherwise the whole draw pile, then cards of the reshuffled discard pile, which is left empty; no card is lost; a reshuffle happens exactly when the draw pile runs short and the discard pile is not empty |
| Piles.Drawn | combat-engine.js:158-160 | the number of cards drawn is at most `n` and at most the cards available, and equals `n` when enough are available |
| CombatEngine.StartCombat | combat-engine.js:63-84 | hand and draw pile are a permutation of the deck, the hand holding `min(5, |deck|)` cards; block 0, energy `EnergyBase`, turn 1, no statuses, a one-entry log |
| CombatEngine.EnergyBase | combat-engine.js:75 | `energy_base || 3`: the run's own base unless it is 0, which falls back to 3; never 0, and positive for a non-negative base |
| CombatEngine.PlayCheck | combat-engine.js:89-104 | the first failing check, in source order: unknown card, card not in hand, not enough energy for `EffectiveCost`, and `ConditionFails` (an `hp_below` condition that is set and that the player's hp exceeds) |
| CombatEngine.EffectiveCost | combat-engine.js:95-97 | the cost override wins over the catalog cost when one is set; non-negative when both are |
| CombatEngine.PlayCard | combat-engine.js:88-246 | a refused play changes nothing; a resolved one obeys `PilesResolved`, `EffectsResolved`, `OverridesResolved` and `CarriedOver`, leaves energy >= 0 and keeps `Inv` |
| CombatEngine.Resolve | combat-engine.js:106-245 | the whole effect pipeline after the checks, with the same guarantees as `PlayCard` |
| CombatEngine.EffectSteps | combat-engine.js:110-195 | energy becomes `energy - cost + gain_energy >= 0`; the enemy's hp falls but stays >= 0; the player's hp stays within `[0, hp_max]` and block stays >= 0 |
| CombatEngine.PileSteps | combat-engine.js:106-227 | hand, draw and discard equal the old piles minus one copy of the card, plus `add_to_discard`, plus the card again unless exhausted or removed; the discard pile ends with the added cards and then the card; below them the piles are a `DrawnAs` draw from the hand without the card, followed by `Refilled` |
| CombatEngine.DealDamage | combat-engine.js:124-148 | the enemy after the hits and the damage per discard is `CardStrike` |
| CombatEngine.StrikeEnemy | combat-engine.js:125-139 | the hit loop computes `Volley` and runs `HitCount` times |
| CombatEngine.HitCount | combat-engine.js:126 | `hits || 1`: the card's count when positive, 1 when unset, and no hit at all for a negative count |
| CombatEngine.CardStrike | combat-engine.js:124-148 | a card never heals the enemy, and the enemy's hp never goes below 0 |
| CombatEngine.DiscardDamage | combat-engine.js:143 | damage per discard lies in `[0, damage_cap || 999]` |
| CombatEngine.DiscardDamageIgnoresStatuses | combat-engine.js:142-148 | weak and vulnerable do not change damage per discard |
| CombatEngine.StackOverflowDamage | combat-engine.js:142-148 | `stack_overflow` deals `min(5 * discard, 25)` through block |
| CombatEngine.GolpeThroughStatuses | combat-engine.js:124-139 | a weakened `golpe` into a vulnerable enemy with 2 block takes 50 hp to 46 |
| CombatEngine.DrawStep | combat-engine.js:156-168 | without a `draw` field nothing changes; otherwise the piles are a `DrawnAs` draw of `draw` cards: the top of the draw pile in order, then the reshuffled discard pile, which is left empty; the hand keeps its cards as a prefix and no card is lost |
| CombatEngine.SelfSteps | combat-engine.js:170-195 | energy gain, status merge onto the enemy, heal capped at `hp_max`, then self-damage through block |
| CombatEngine.PlayerAfterCard | combat-engine.js:183-195 | the player's hp stays within `[0, hp_max]` and block never grows through self-damage |
| CombatEngine.DiscardAndRedraw | combat-engine.js:197-207 | the hand goes onto the discard pile and, with `draw_same`, the same number of cards is drawn back as a `DrawnAs` draw into an empty hand: the top of the draw pile, then the reshuffled discard pile; no card is lost, and the loop never runs dry although it has no stop |
| CombatEngine.RefillSteps | combat-engine.js:197-213 | the added cards end the discard pile, in order; below them the piles are those of `Refilled`: the discard-and-redraw draw when `discard_hand` is set, the piles untouched otherwise |
| CombatEngine.ReduceHandCost | combat-engine.js:215-222 | each card in hand is reduced once per copy from its override or `CatalogCost`, floored at 0; other overrides are kept |
| CombatEngine.CatalogCost | combat-engine.js:218 | `CARDS[id]?.cost ?? 0`: the catalog cost, 0 for an unknown id, never negative |
| CombatEngine.ReducedTimesClosedForm | combat-engine.js:217-220 | `k` floored reductions by `r >= 0` equal one reduction by `k * r` |
| CombatEngine.EndPlayerTurn | combat-engine.js:250-354 | block 0, energy `energy_base`, no overrides, turn + 1, pattern index `slot + 1`, the phase per `NextPhase`; the enemy and player sides as described by `EnemySideResolved` and `PlayerSideResolved`; the hand per `HandDealt`; `Inv` is kept |
| CombatEngine.EnemyTurn | combat-engine.js:258-307 | the poison ticks and the intent: the attack uses the ticked statuses plus strength, heal is capped at the combat's maximum, enemy block is never reset, and the player's hp never rises |
| CombatEngine.EnemyHpAfterTurn | combat-engine.js:270-303 | the enemy's hp after the poison tick and a heal: unchanged by any other intent, capped at the combat's maximum by a heal |
| CombatEngine.DealNextHand | combat-engine.js:309-320 | no card is lost; the hand has `min(5, cards)` cards; the piles are a `DrawnAs` draw of five into an empty hand from the draw pile and the discard pile with the old hand on top: five or more on the draw pile deal its top five, a shorter one is dealt whole and the rest comes from the reshuffled discard pile, which is left empty |
| CombatEngine.PlayerPoisonTick | combat-engine.js:260-268 | the tick computes `PlayerAfterPoison` and `PlayerStatusesAfterPoison`: only a poisoned player ticks, and the poison goes through block |
| CombatEngine.PlayerAfterPoison | combat-engine.js:260-268 | an unpoisoned player keeps hp and block; a poisoned one ends with hp >= 0, and for non-negative inputs neither hp nor block rises |
| CombatEngine.PlayerStatusesAfterPoison | combat-engine.js:261-263 | an unpoisoned player's statuses are unchanged; the tick adds no status and keeps strength |
| CombatEngine.EnemyPoisonTick | combat-engine.js:270-276 | the enemy always ticks, and its poison ignores block (`EnemyAfterPoison`) |
| CombatEngine.EnemyAfterPoison | combat-engine.js:273-276 | no poison leaves hp unchanged; poison never leaves hp below 0 nor above its old value |
| CombatEngine.EnemyActs | combat-engine.js:286-307 | each intent changes only its own target; a buff or debuff without statuses does nothing |
| CombatEngine.PhaseCheck | combat-engine.js:322-333 | the phase found is `NextPhase`, logged only when it changes |
| CombatEngine.PlayerDecayNeedsPoison | combat-engine.js:261 | weak and vulnerable on the player decay only while the player is poisoned |
| CombatEngine.PoisonAgainstBlock | combat-engine.js:260-276 | the player's poison is absorbed by block, while the enemy's ignores it |
| CombatEngine.EnemyBlockPersists | combat-engine.js:293-344 | without a defend intent the enemy's block is carried over unchanged |
| CombatEngine.CheckCombatResult | combat-engine.js:358-362 | defeat exactly when `playerHp <= 0`, even if the enemy is also at 0; victory when only the enemy is down; otherwise ongoing |

## Left out

- HTTP routes, sockets, JSON (de)serialisation and persistence (server.js, database.js, server/) are not part of this model.
- The persistence layer drops `cost_overrides`, `enemy_phase` and `pattern_index`. That lossy round trip is outside the engine. The model treats these fields as the engine returns them.
- `JSON.parse(run.deck)` in `startCombat` is left out. The deck arrives already parsed.
- `startCombat` does not set `enemy_phase`, `pattern_index` or `cost_overrides`, and the engine reads them with `|| 0` or `|| {}`. The model starts them at 0 and at an empty map.
- Log text (the Spanish messages and emoji) is dropped. The log is a sequence of entry kinds. The contracts state that the old log is a prefix of the new one, followed by the play or turn-end entry.
- `playCard` takes an `enemy` argument but never reads it, so the model omits it.
- Distributions are not modelled: the 60/30/10 reward weights, shuffle uniformity and the uniform enemy pick. `Math.random()` is an oracle stream, and only facts that hold for every possible value are proved.
- Effect fields that no engine step reads are not modelled: `next_card_double`, `summon`, `special` and `relic_drop`. Display fields are also left out: name emoji, `desc` and intent descriptions.
- Cards.GetCardRewards: the source loops until three distinct cards are drawn, which depends on the random values. The model bounds the loop with a `fuel` count of rounds. So it proves "at most 3, and fewer only once the fuel is spent" rather than "exactly 3".
- `randomEnemy`'s default argument `type = 'normal'` (enemies.js:184) is not modelled: the encounter type is always passed.
- Numbers are unbounded integers, and the phase thresholds are compared in exact integer form instead of floating point.
- The arithmetic on `Math.random()` values (the reward rarity and slot, the enemy pick, the hit-point roll) is modelled over exact reals, not IEEE doubles. Rounding is therefore not captured: for the largest few doubles below 1, such as 1 − 2⁻⁵², `Math.floor(40 + r * 10)` rounds up to 50.

## Findings

| source | as written | input that shows it | evidently intended | confidence | as-written member | corrected member |
|---|---|---|---|---|---|---|
| enemies.js:188-190 | hit points are `Math.floor(min + Math.random() * (max - min))`, which never reaches `max` when `min < max` | `bug_rastrero` with range `[40, 50]`: every value of `Math.random()` below 1 − 2⁻⁵¹ gives at most 49 | the range is inclusive, reading the `// [min, max] for random` comment at enemies.js:11 as the intent | not executed | Enemies.TopOfRangeNeverRolled | Enemies.RandomEnemyIntended |
