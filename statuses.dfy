/**
 * Status effects: the timed modifiers carried by the player and the enemy,
 * their end-of-turn decay (`tickStatuses`) and their additive merge
 * (`applyStatuses`), combat-engine.js lines 21-40.
 *
 * A status map is a dictionary from status kind to magnitude. A missing key
 * reads as 0, and a key whose value is 0 counts as "not carried" wherever the
 * source tests the key for truthiness.
 */
module Statuses {

  /** The status kinds that the card and enemy catalogs use. */
  datatype Status = Poison | Weak | Vulnerable | Strength

  type StatusMap = map<Status, int>

  /** `m[k] || 0`: the magnitude, 0 when absent. */
  function Get(m: StatusMap, k: Status): int {
    if k in m then m[k] else 0
  }

  /** Truthiness of `m[k]`: present and non-zero. */
  predicate Active(m: StatusMap, k: Status) {
    k in m && m[k] != 0
  }

  /** Poison, weak and vulnerable decay each tick; strength does not. */
  predicate Decays(k: Status) {
    k != Strength
  }

  /** `if (v > 0) v--`: a decaying magnitude after one tick. */
  function Decrement(v: int): int {
    if v > 0 then v - 1 else v
  }

  // ---------------------------------------------------------------------------
  // tickStatuses
  // ---------------------------------------------------------------------------

  /** The map `tickStatuses` returns: every decaying key decremented, and dropped once it is 0. */
  function Ticked(s: StatusMap): (r: StatusMap)
    ensures r.Keys <= s.Keys
    ensures Strength in s ==> Strength in r && r[Strength] == s[Strength]
    ensures forall k :: Decays(k) && k in s && s[k] > 1 ==> k in r && r[k] == s[k] - 1
    ensures forall k :: Decays(k) && k in s && 0 <= s[k] <= 1 ==> k !in r
    ensures forall k :: Decays(k) && k in s && s[k] < 0 ==> k in r && r[k] == s[k]
  {
    map k | k in s && !(Decays(k) && Decrement(s[k]) == 0) :: if Decays(k) then Decrement(s[k]) else s[k]
  }

  /** The damage the tick deals: the poison magnitude before the decrement, 0 if absent. */
  function PoisonDamage(s: StatusMap): (d: int)
    ensures Poison !in s ==> d == 0
    ensures Poison in s ==> d == s[Poison]
  {
    Get(s, Poison)
  }

  /** One decaying key of `tickStatuses`: decrement when positive, delete when it is 0. */
  method DecayKey(m: StatusMap, k: Status) returns (r: StatusMap)
    requires Decays(k)
    ensures forall j :: j != k ==> (j in r <==> j in m) && (j in r ==> r[j] == m[j])
    ensures k in r <==> k in m && Decrement(m[k]) != 0
    ensures k in r ==> r[k] == Decrement(m[k])
  {
    r := m;
    if k in r && r[k] > 0 {
      r := r[k := r[k] - 1];
    }
    if k in r && r[k] == 0 {
      r := r - {k};
    }
  }

  /**
   * `tickStatuses`: copies the map, reads the poison damage, then decays poison,
   * weak and vulnerable in turn. Strength and every other key are left alone.
   */
  method TickStatuses(statuses: StatusMap) returns (updated: StatusMap, poisonDamage: int)
    ensures updated == Ticked(statuses)
    ensures poisonDamage == PoisonDamage(statuses)
  {
    var result := statuses;
    poisonDamage := Get(result, Poison);
    result := DecayKey(result, Poison);
    result := DecayKey(result, Weak);
    result := DecayKey(result, Vulnerable);
    updated := result;
    TickedPerKey(statuses, updated);
  }

  /** A map that agrees with `Ticked(s)` key by key is `Ticked(s)`. */
  lemma TickedPerKey(s: StatusMap, r: StatusMap)
    requires forall k :: !Decays(k) ==> (k in r <==> k in s) && (k in r ==> r[k] == s[k])
    requires forall k :: Decays(k) ==> (k in r <==> k in s && Decrement(s[k]) != 0) && (k in r ==> r[k] == Decrement(s[k]))
    ensures r == Ticked(s)
  {
    assert r.Keys == Ticked(s).Keys;
  }

  /** A positive decaying status is gone after exactly as many ticks as its magnitude. */
  function TickedTimes(s: StatusMap, n: nat): StatusMap {
    if n == 0 then s else Ticked(TickedTimes(s, n - 1))
  }

  lemma {:induction false} TickedTimesDecay(s: StatusMap, k: Status, n: nat)
    requires Decays(k) && k in s && n < s[k]
    ensures k in TickedTimes(s, n) && TickedTimes(s, n)[k] == s[k] - n
  {
    if n > 0 {
      TickedTimesDecay(s, k, n - 1);
    }
  }

  lemma StatusExpires(s: StatusMap, k: Status)
    requires Decays(k) && k in s && s[k] > 0
    ensures k in TickedTimes(s, s[k] - 1) && k !in TickedTimes(s, s[k])
  {
    TickedTimesDecay(s, k, s[k] - 1);
  }

  /** Strength never decays, however many ticks pass. */
  lemma {:induction false} StrengthPersists(s: StatusMap, n: nat)
    requires Strength in s
    ensures Strength in TickedTimes(s, n) && TickedTimes(s, n)[Strength] == s[Strength]
  {
    if n > 0 {
      StrengthPersists(s, n - 1);
    }
  }

  // ---------------------------------------------------------------------------
  // applyStatuses
  // ---------------------------------------------------------------------------

  /** The map `applyStatuses` returns: each incoming magnitude added to the current one. */
  function Merged(current: StatusMap, incoming: StatusMap): (r: StatusMap)
    ensures r.Keys == current.Keys + incoming.Keys
    ensures forall k :: k in current && k !in incoming ==> r[k] == current[k]
    ensures forall k :: k in incoming ==> r[k] == Get(current, k) + incoming[k]
  {
    map k | k in current.Keys + incoming.Keys :: Get(current, k) + Get(incoming, k)
  }

  /**
   * `applyStatuses`: copies `current`, then walks the entries of `incoming`,
   * adding each value to the copy's entry (0 when absent). No key is ever removed.
   */
  method ApplyStatuses(current: StatusMap, incoming: StatusMap) returns (result: StatusMap)
    ensures result == Merged(current, incoming)
  {
    result := current;
    var pending := incoming.Keys;
    while pending != {}
      invariant pending <= incoming.Keys
      invariant result.Keys == current.Keys + (incoming.Keys - pending)
      invariant forall k :: k in result ==>
        result[k] == Get(current, k) + (if k in incoming && k !in pending then incoming[k] else 0)
      decreases pending
    {
      var k :| k in pending;
      result := result[k := Get(result, k) + incoming[k]];
      pending := pending - {k};
    }
  }

  /** Merging nothing changes nothing. */
  lemma MergeEmpty(current: StatusMap)
    ensures Merged(current, map[]) == current
  {
  }

  /** Two deltas applied one after the other equal their merged sum applied once. */
  lemma MergeAssociative(a: StatusMap, b: StatusMap, c: StatusMap)
    ensures Merged(Merged(a, b), c) == Merged(a, Merged(b, c))
  {
  }

  /** The order in which two deltas arrive does not matter. */
  lemma MergeOrderIrrelevant(a: StatusMap, b: StatusMap, c: StatusMap)
    ensures Merged(Merged(a, b), c) == Merged(Merged(a, c), b)
  {
    assert Merged(Merged(a, b), c).Keys == Merged(Merged(a, c), b).Keys;
  }
}
