/**
 * The card catalog (cards.js): every card's descriptor, the starting deck,
 * the reward pools by rarity, and the three-card reward draw.
 *
 * An effect descriptor is a bag of optional fields. A numeric field that a card
 * leaves out is read by the engine through truthiness, so it is modelled as 0;
 * a list or map field that a card leaves out is `None`, because an empty list or
 * map is still truthy in the source.
 */
module Cards {
  import opened Options
  import opened Statuses
  import opened Chance

  type CardId = string

  datatype CardType = Attack | Defense | Skill

  datatype Rarity = Starter | Common | Uncommon | Rare | Curse

  datatype Effect = Effect(
    damage: int,               // flat damage per hit
    hits: int,                 // number of hits, 0 meaning one
    penetrate: bool,           // the hits ignore the enemy's block
    damagePerDiscard: int,     // damage per card in the discard pile
    damageCap: int,            // cap of that damage, 0 meaning 999
    block: int,
    draw: int,
    gainEnergy: int,
    apply: Option<StatusMap>,  // statuses merged onto the enemy
    heal: int,
    selfDamage: int,
    discardHand: bool,
    drawSame: bool,            // with discardHand: draw back as many cards as were discarded
    addToDiscard: Option<seq<CardId>>,
    reduceHandCost: int,
    exhaust: bool,
    removeFromDeck: bool,
    hpBelow: int               // `condition.hp_below`, 0 meaning no condition
  )

  datatype Card = Card(id: CardId, name: string, kind: CardType, cost: int, rarity: Rarity, effect: Effect)

  /** The descriptor of a card that does nothing (the curse card's `{}`). */
  const NoEffect := Effect(0, 0, false, 0, 0, 0, 0, 0, None, 0, 0, false, false, None, 0, false, false, 0)

  /** Every numeric field of a descriptor is non-negative. */
  predicate NonNegative(ef: Effect) {
    && ef.damage >= 0 && ef.hits >= 0 && ef.damagePerDiscard >= 0 && ef.damageCap >= 0
    && ef.block >= 0 && ef.draw >= 0 && ef.gainEnergy >= 0 && ef.heal >= 0
    && ef.selfDamage >= 0 && ef.reduceHandCost >= 0 && ef.hpBelow >= 0
  }

  /** The cards an effect appends to the discard pile. */
  function Added(ef: Effect): seq<CardId> {
    if ef.addToDiscard.Some? then ef.addToDiscard.value else []
  }

  /**
   * `CARDS[id]`: the catalog entry of a card id, `None` for an id the catalog
   * does not hold. Each entry is stored under its own id and has a
   * non-negative cost and non-negative effect magnitudes. The entries are
   * grouped by the length of their id, so that a lookup compares the id with
   * the few entries of its own length only.
   */
  function CardById(id: CardId): (c: Option<Card>)
    ensures c.Some? ==> c.value.id == id && c.value.cost >= 0 && NonNegative(c.value.effect)
  {
    match |id|
    case 3 =>
      if id == "vpn" then Some(Card("vpn", "VPN", Defense, 2, Uncommon, NoEffect.(block := 15, apply := Some(map[Weak := 1]))))
      else None
    case 4 =>
      if id == "sudo" then Some(Card("sudo", "sudo rm -rf", Attack, 3, Rare, NoEffect.(damage := 40, exhaust := true, removeFromDeck := true)))
      else None
    case 5 =>
      if id == "golpe" then Some(Card("golpe", "Golpe", Attack, 1, Starter, NoEffect.(damage := 6)))
      else None
    case 6 =>
      if id == "backup" then Some(Card("backup", "Backup", Defense, 2, Uncommon, NoEffect.(block := 20, hpBelow := 10)))
      else if id == "hotfix" then Some(Card("hotfix", "Hotfix", Skill, 0, Uncommon, NoEffect.(heal := 4, exhaust := true)))
      else None
    case 7 =>
      if id == "bloqueo" then Some(Card("bloqueo", "Bloqueo", Defense, 1, Starter, NoEffect.(block := 5)))
      else if id == "standup" then Some(Card("standup", "Daily Standup", Skill, 1, Common, NoEffect.(gainEnergy := 2)))
      else None
    case 8 =>
      if id == "segfault" then Some(Card("segfault", "Segfault", Attack, 3, Uncommon, NoEffect.(damage := 30, apply := Some(map[Vulnerable := 2]))))
      else if id == "firewall" then Some(Card("firewall", "Firewall", Defense, 1, Common, NoEffect.(block := 8)))
      else if id == "refactor" then Some(Card("refactor", "Refactor", Skill, 1, Common, NoEffect.(discardHand := true, drawSame := true)))
      else None
    case 9 =>
      if id == "cafeinazo" then Some(Card("cafeinazo", "Cafeinazo", Skill, 0, Starter, NoEffect.(draw := 2)))
      else None
    case 11 =>
      if id == "rubber_duck" then Some(Card("rubber_duck", "Rubber Duck Debug", Attack, 1, Common, NoEffect.(damage := 8, apply := Some(map[Poison := 2]))))
      else if id == "code_review" then Some(Card("code_review", "Code Review", Defense, 1, Common, NoEffect.(block := 6, draw := 1)))
      else None
    case 12 =>
      if id == "commit_force" then Some(Card("commit_force", "Commit Force", Attack, 2, Common, NoEffect.(damage := 18)))
      else if id == "null_pointer" then Some(Card("null_pointer", "Null Pointer", Attack, 1, Uncommon, NoEffect.(damage := 12, penetrate := true)))
      else None
    case 14 =>
      if id == "stack_overflow" then Some(Card("stack_overflow", "Stack Overflow", Attack, 2, Uncommon, NoEffect.(damagePerDiscard := 5, damageCap := 25)))
      else if id == "merge_conflict" then Some(Card("merge_conflict", "Merge Conflict", Attack, 2, Common, NoEffect.(damage := 10, hits := 2)))
      else if id == "deploy_viernes" then Some(Card("deploy_viernes", "Deploy en Viernes", Skill, 0, Rare, NoEffect.(damage := 20, selfDamage := 10)))
      else if id == "technical_debt" then Some(Card("technical_debt", "Deuda Técnica", Skill, 0, Uncommon, NoEffect.(gainEnergy := 3, addToDiscard := Some(["parche_temporal", "parche_temporal"]))))
      else None
    case 15 =>
      if id == "parche_temporal" then Some(Card("parche_temporal", "Parche Temporal", Skill, 0, Curse, NoEffect))
      else if id == "sprint_planning" then Some(Card("sprint_planning", "Sprint Planning", Skill, 2, Rare, NoEffect.(draw := 4, reduceHandCost := 1)))
      else None
    case 16 =>
      if id == "pair_programming" then Some(Card("pair_programming", "Pair Programming", Skill, 2, Uncommon, NoEffect))
      else None
    case _ => None
  }

  /** `id in CARDS`. */
  predicate Known(id: CardId) {
    CardById(id).Some?
  }

  /** Every card an effect appends to the discard pile is itself in the catalog. */
  lemma AddedCardsKnown(id: CardId)
    requires Known(id)
    ensures forall extra :: extra in Added(CardById(id).value.effect) ==> Known(extra)
  {
    if id == "technical_debt" {
      assert Known("parche_temporal");
    }
  }

  /** `STARTING_DECK`: five strikes, four blocks and one draw card, and nothing else. */
  function StartingDeck(): (deck: seq<CardId>)
    ensures |deck| == 10
    ensures multiset(deck) == multiset{}["golpe" := 5]["bloqueo" := 4]["cafeinazo" := 1]
  {
    Copies("golpe", 5) + Copies("bloqueo", 4) + Copies("cafeinazo", 1)
  }

  /** `n` copies of one card. */
  function Copies(id: CardId, n: nat): (r: seq<CardId>)
    ensures |r| == n && multiset(r) == multiset{}[id := n]
  {
    if n == 0 then [] else Copies(id, n - 1) + [id]
  }

  /** The starting deck holds only the three starter cards. */
  lemma StarterIds()
    ensures forall id :: id in StartingDeck() ==> id == "golpe" || id == "bloqueo" || id == "cafeinazo"
  {
    forall id | id in StartingDeck()
      ensures id == "golpe" || id == "bloqueo" || id == "cafeinazo"
    {
      assert id in multiset(StartingDeck());
    }
  }

  /** Every card of the starting deck is in the catalog. */
  lemma StartingDeckKnown()
    ensures forall id :: id in StartingDeck() ==> Known(id)
  {
    StarterIds();
    StartersKnown();
  }

  /** The three starter ids are catalog ids. */
  lemma StartersKnown()
    ensures Known("golpe") && Known("bloqueo") && Known("cafeinazo")
  {
  }

  /** The rarities a reward can have. */
  predicate RewardRarity(r: Rarity) {
    r == Common || r == Uncommon || r == Rare
  }

  /** `REWARD_POOL[rarity]`: the reward candidates of one of the three reward rarities. */
  function RewardPool(r: Rarity): (pool: seq<CardId>)
    requires RewardRarity(r)
    ensures |pool| > 0
  {
    match r
    case Common => ["commit_force", "rubber_duck", "merge_conflict", "firewall", "code_review", "refactor", "standup"]
    case Uncommon => ["stack_overflow", "segfault", "null_pointer", "vpn", "backup", "hotfix", "pair_programming",
                      "technical_debt"]
    case Rare => ["sudo", "deploy_viernes", "sprint_planning"]
  }

  /** Every reward candidate is a catalog card of the rarity it is listed under. */
  lemma RewardPoolCards(r: Rarity)
    requires RewardRarity(r)
    ensures forall id :: id in RewardPool(r) ==> Known(id) && CardById(id).value.rarity == r
  {
    forall i | 0 <= i < |RewardPool(r)|
      ensures Known(RewardPool(r)[i]) && CardById(RewardPool(r)[i]).value.rarity == r
    {
      match r
      case Common => CommonEntry(i);
      case Uncommon => UncommonEntry(i);
      case Rare => RareEntry(i);
    }
  }

  // One catalog lookup per branch keeps each lookup in a proof of its own.

  lemma CommonEntry(i: nat)
    requires i < |RewardPool(Common)|
    ensures Known(RewardPool(Common)[i]) && CardById(RewardPool(Common)[i]).value.rarity == Common
  {
    var pool := RewardPool(Common);
    if i == 0 { assert pool[i] == "commit_force"; }
    else if i == 1 { assert pool[i] == "rubber_duck"; }
    else if i == 2 { assert pool[i] == "merge_conflict"; }
    else if i == 3 { assert pool[i] == "firewall"; }
    else if i == 4 { assert pool[i] == "code_review"; }
    else if i == 5 { assert pool[i] == "refactor"; }
    else { assert pool[i] == "standup"; }
  }

  lemma UncommonEntry(i: nat)
    requires i < |RewardPool(Uncommon)|
    ensures Known(RewardPool(Uncommon)[i]) && CardById(RewardPool(Uncommon)[i]).value.rarity == Uncommon
  {
    var pool := RewardPool(Uncommon);
    if i == 0 { assert pool[i] == "stack_overflow"; }
    else if i == 1 { assert pool[i] == "segfault"; }
    else if i == 2 { assert pool[i] == "null_pointer"; }
    else if i == 3 { assert pool[i] == "vpn"; }
    else if i == 4 { assert pool[i] == "backup"; }
    else if i == 5 { assert pool[i] == "hotfix"; }
    else if i == 6 { assert pool[i] == "pair_programming"; }
    else { assert pool[i] == "technical_debt"; }
  }

  lemma RareEntry(i: nat)
    requires i < |RewardPool(Rare)|
    ensures Known(RewardPool(Rare)[i]) && CardById(RewardPool(Rare)[i]).value.rarity == Rare
  {
    var pool := RewardPool(Rare);
    if i == 0 { assert pool[i] == "sudo"; }
    else if i == 1 { assert pool[i] == "deploy_viernes"; }
    else { assert pool[i] == "sprint_planning"; }
  }

  /** The rarity bucket of one roll: common below 0.6, uncommon below 0.9, rare otherwise. */
  function RewardBucket(roll: Unit): (r: Rarity)
    ensures RewardRarity(r)
  {
    if roll < 0.6 then Common else if roll < 0.9 then Uncommon else Rare
  }

  /** A card a reward can offer: a catalog entry from the pool of its own rarity. */
  predicate Offered(c: Card) {
    && CardById(c.id) == Some(c)
    && RewardRarity(c.rarity)
    && c.id in RewardPool(c.rarity)
  }

  /** `CARDS[card]` for the card in slot `i` of a reward pool: an offered catalog card with that id. */
  function OfferAt(bucket: Rarity, i: nat): (offer: Card)
    requires RewardRarity(bucket) && i < |RewardPool(bucket)|
    ensures offer.id == RewardPool(bucket)[i] && Offered(offer)
  {
    RewardPoolCards(bucket);
    CardById(RewardPool(bucket)[i]).value
  }

  /** The card a round picks from its two values: the rarity from `roll`, the slot in that rarity's pool from `slot`. */
  function PickFrom(roll: Unit, slot: Unit): CardId {
    var pool := RewardPool(RewardBucket(roll));
    pool[Pick(slot, |pool|)]
  }

  /** The card round `k` of `getCardRewards` picks from `g`: it reads the values at `g.next + 2k` and the one after. */
  function RoundPick(g: Rng, k: nat): CardId {
    PickFrom(g.stream(g.next + 2 * k), g.stream(g.next + 2 * k + 1))
  }

  /** `picks` are the picks of the first `|picks|` rounds drawn from `g`, in order. */
  ghost predicate PickedFrom(g: Rng, picks: seq<CardId>) {
    forall k {:trigger RoundPick(g, k)} :: 0 <= k < |picks| ==> picks[k] == RoundPick(g, k)
  }

  /** The ids a run of picks keeps, in order: each pick unless an earlier one was already kept. */
  function Kept(picks: seq<CardId>): (ids: seq<CardId>)
    ensures |ids| <= |picks|
  {
    if |picks| == 0 then []
    else
      var prev := Kept(picks[..|picks| - 1]);
      var id := picks[|picks| - 1];
      if id in prev then prev else prev + [id]
  }

  /** The kept ids are pairwise distinct, every pick is among them, and each of them is a pick. */
  lemma {:induction false} KeptSound(picks: seq<CardId>)
    ensures forall i, j :: 0 <= i < j < |Kept(picks)| ==> Kept(picks)[i] != Kept(picks)[j]
    ensures forall k :: 0 <= k < |picks| ==> picks[k] in Kept(picks)
    ensures forall i :: 0 <= i < |Kept(picks)| ==> Kept(picks)[i] in picks
  {
    if |picks| > 0 {
      var shorter := picks[..|picks| - 1];
      KeptSound(shorter);
      assert forall k :: 0 <= k < |shorter| ==> picks[k] == shorter[k];
      assert picks == shorter + [picks[|picks| - 1]];
    }
  }

  /** The kept ids after one more pick. */
  lemma KeptStep(picks: seq<CardId>, id: CardId)
    ensures Kept(picks + [id]) == if id in Kept(picks) then Kept(picks) else Kept(picks) + [id]
  {
    assert (picks + [id])[..|picks|] == picks;
  }

  /** One more pick never drops or reorders a kept id: the kept ids of a run start with those of its prefix. */
  lemma {:induction false} KeptGrows(picks: seq<CardId>, n: nat)
    requires n <= |picks|
    ensures |Kept(picks[..n])| <= |Kept(picks)| && Kept(picks)[..|Kept(picks[..n])|] == Kept(picks[..n])
  {
    if n == |picks| {
      assert picks[..n] == picks;
    } else {
      var shorter := picks[..|picks| - 1];
      KeptGrows(shorter, n);
      assert shorter[..n] == picks[..n];
      var prev := Kept(shorter);
      assert Kept(picks)[..|prev|] == prev;
    }
  }

  /**
   * `getCardRewards`: rolls a bucket, picks a card of it, and keeps the card
   * unless it was already picked, until three cards are kept. The source loops
   * until that happens; here the loop also stops after `fuel` rounds. The
   * rewards are the catalog cards of `Kept` after the rounds played, which
   * take two values each, and the loop stops at the first round that brings
   * the count to three, or when every round has been spent.
   */
  method GetCardRewards(g0: Rng, fuel: nat) returns (rewards: seq<Card>, g: Rng, ghost picks: seq<CardId>)
    ensures |rewards| <= 3
    ensures forall i, j :: 0 <= i < j < |rewards| ==> rewards[i].id != rewards[j].id
    ensures forall i :: 0 <= i < |rewards| ==> Offered(rewards[i])
    ensures g.stream == g0.stream
    ensures |rewards| < 3 ==> g.next == g0.next + 2 * fuel
    ensures PickedFrom(g0, picks) && |picks| <= fuel && g.next == g0.next + 2 * |picks|
    ensures |rewards| == |Kept(picks)| && forall i :: 0 <= i < |rewards| ==> rewards[i].id == Kept(picks)[i]
    ensures |rewards| == 3 ==> 0 < |picks| && |Kept(picks[..|picks| - 1])| < 3
  {
    rewards := [];
    var seen: set<CardId> := {};
    g := g0;
    picks := [];
    var rounds := 0;
    ghost var kept: seq<CardId> := [];
    while |rewards| < 3 && rounds < fuel
      invariant rounds == |picks| <= fuel && |rewards| <= 3
      invariant g.stream == g0.stream && g.next == g0.next + 2 * rounds
      invariant PickedFrom(g0, picks)
      invariant forall i :: 0 <= i < |rewards| ==> Offered(rewards[i])
      invariant kept == Kept(picks)
      invariant |rewards| == |kept| && forall i :: 0 <= i < |rewards| ==> rewards[i].id == kept[i]
      invariant forall id :: id in seen <==> id in kept
      invariant rounds > 0 ==> |Kept(picks[..rounds - 1])| < 3
    {
      ghost var before := picks;
      rewards, seen, g, picks, kept := PlayRound(g0, picks, g, rewards, seen, kept);
      assert picks[..rounds] == before;
      rounds := rounds + 1;
    }
    KeptSound(picks);
  }

  /** One round of `getCardRewards` (cards.js lines 166-172): the draw, then the bookkeeping. */
  method PlayRound(ghost g0: Rng, ghost picks: seq<CardId>, g1: Rng, rewards: seq<Card>, seen: set<CardId>, ghost kept: seq<CardId>)
    returns (rewards': seq<Card>, seen': set<CardId>, g: Rng, ghost picks': seq<CardId>, ghost kept': seq<CardId>)
    requires g1.stream == g0.stream && g1.next == g0.next + 2 * |picks| && PickedFrom(g0, picks)
    requires kept == Kept(picks)
    requires |rewards| == |kept| && forall i :: 0 <= i < |rewards| ==> rewards[i].id == kept[i]
    requires forall id :: id in seen <==> id in kept
    requires forall i :: 0 <= i < |rewards| ==> Offered(rewards[i])
    ensures g.stream == g0.stream && g.next == g1.next + 2
    ensures |picks'| == |picks| + 1 && picks'[..|picks|] == picks && PickedFrom(g0, picks')
    ensures kept' == Kept(picks')
    ensures |rewards'| == |kept'| && forall i :: 0 <= i < |rewards'| ==> rewards'[i].id == kept'[i]
    ensures forall id :: id in seen' <==> id in kept'
    ensures forall i :: 0 <= i < |rewards'| ==> Offered(rewards'[i])
  {
    var bucket, slot, card;
    bucket, slot, card, g := PickRound(g0, picks, g1);
    picks' := picks + [card];
    KeptStep(picks, card);
    rewards', seen', kept' := KeepPick(rewards, seen, kept, bucket, slot, card);
  }

  /**
   * One round's draw (cards.js lines 166-171): a roll selects the rarity's
   * pool, a second value a slot in it. The card is the next round's pick.
   */
  method PickRound(ghost g0: Rng, ghost picks: seq<CardId>, g1: Rng) returns (bucket: Rarity, slot: nat, card: CardId, g: Rng)
    requires g1.stream == g0.stream && g1.next == g0.next + 2 * |picks| && PickedFrom(g0, picks)
    ensures RewardRarity(bucket) && slot < |RewardPool(bucket)| && card == RewardPool(bucket)[slot]
    ensures PickedFrom(g0, picks + [card])
    ensures g.stream == g0.stream && g.next == g1.next + 2
  {
    assert g1.Value() == g0.stream(g0.next + 2 * |picks|);
    assert g1.Advance().Value() == g0.stream(g0.next + 2 * |picks| + 1);
    var roll := g1.Value();
    g := g1.Advance();
    bucket := RewardBucket(roll);
    var pool := RewardPool(bucket);
    slot := Pick(g.Value(), |pool|);
    card := pool[slot];
    g := g.Advance();
    assert card == RoundPick(g0, |picks|);
  }

  /**
   * The bookkeeping of one round (cards.js line 172): a card not seen yet is
   * marked seen and its catalog entry joins the rewards. `kept` follows the
   * rewards' ids, as `Kept` does for the picks.
   */
  method KeepPick(rewards: seq<Card>, seen: set<CardId>, ghost kept: seq<CardId>, bucket: Rarity, slot: nat, card: CardId)
    returns (rewards': seq<Card>, seen': set<CardId>, ghost kept': seq<CardId>)
    requires RewardRarity(bucket) && slot < |RewardPool(bucket)| && card == RewardPool(bucket)[slot]
    requires |rewards| == |kept| && forall i :: 0 <= i < |rewards| ==> rewards[i].id == kept[i]
    requires forall id :: id in seen <==> id in kept
    requires forall i :: 0 <= i < |rewards| ==> Offered(rewards[i])
    ensures kept' == if card in kept then kept else kept + [card]
    ensures |rewards'| == |kept'| && forall i :: 0 <= i < |rewards'| ==> rewards'[i].id == kept'[i]
    ensures forall id :: id in seen' <==> id in kept'
    ensures forall i :: 0 <= i < |rewards'| ==> Offered(rewards'[i])
  {
    rewards', seen', kept' := rewards, seen, kept;
    if card !in seen {
      var offer := OfferAt(bucket, slot);
      seen' := seen + {card};
      rewards' := rewards + [offer];
      kept' := kept + [card];
    }
  }
}
