/**
 * Pile bookkeeping of the combat engine: `shuffle` (combat-engine.js lines 8-15),
 * the removal of the played card from the hand (lines 92-93 and 106-108) and
 * the draw loop with reshuffle-on-empty (lines 157-168, and 310-320 for the
 * end-of-turn refill).
 */
module Piles {
  import opened Chance
  import opened Cards

  /**
   * `shuffle(arr)`: copies the pile into an array and, for `i` from the last
   * index down to 1, swaps slot `i` with a random slot `j <= i`. The result is
   * a permutation of the input.
   */
  method Shuffle(s: seq<CardId>, g0: Rng) returns (r: seq<CardId>, g: Rng)
    ensures |r| == |s| && multiset(r) == multiset(s)
    ensures g.stream == g0.stream && g.next == g0.next + (if |s| > 0 then |s| - 1 else 0)
  {
    var a := new CardId[|s|](k requires 0 <= k < |s| => s[k]);
    assert a[..] == s;
    g := g0;
    var i := a.Length - 1;
    while i > 0
      invariant -1 <= i < a.Length && (a.Length > 0 ==> i >= 0)
      invariant multiset(a[..]) == multiset(s)
      invariant g.stream == g0.stream && g.next == g0.next + (a.Length - 1 - i)
    {
      var j := Pick(g.Value(), i + 1);
      g := g.Advance();
      a[i], a[j] := a[j], a[i];
      i := i - 1;
    }
    r := a[..];
  }

  /** `arr.indexOf(x)`: the first position of `x`, or -1. */
  function IndexOf(s: seq<CardId>, x: CardId): (i: int)
    ensures -1 <= i < |s|
    ensures i == -1 <==> x !in s
    ensures i >= 0 ==> s[i] == x && x !in s[..i]
  {
    if |s| == 0 then -1
    else if s[0] == x then 0
    else
      assert s == [s[0]] + s[1..];
      var k := IndexOf(s[1..], x);
      if k == -1 then -1
      else
        assert s[..k + 1] == [s[0]] + s[1..][..k];
        k + 1
  }

  /** `arr.splice(i, 1)` on a copy: the pile without the card at `i`. */
  function RemoveAt(s: seq<CardId>, i: nat): (r: seq<CardId>)
    requires i < |s|
    ensures |r| == |s| - 1
    ensures multiset(r) == multiset(s) - multiset{s[i]}
    ensures forall k :: 0 <= k < i ==> r[k] == s[k]
    ensures forall k :: i <= k < |r| ==> r[k] == s[k + 1]
  {
    assert s == s[..i] + [s[i]] + s[i + 1..];
    s[..i] + s[i + 1..]
  }

  /**
   * One round of the draw loop, when some card is left: an empty draw pile is
   * first refilled with the shuffled discard pile, then its top card goes to
   * the end of the hand.
   */
  method DrawOne(hand: seq<CardId>, draw: seq<CardId>, discard: seq<CardId>, g0: Rng)
    returns (hand': seq<CardId>, draw': seq<CardId>, discard': seq<CardId>, reshuffled: bool, g: Rng)
    requires |draw| + |discard| > 0
    ensures reshuffled <==> |draw| == 0
    ensures |draw'| + |discard'| + 1 == |draw| + |discard|
    ensures multiset(hand') + multiset(draw') + multiset(discard') == multiset(hand) + multiset(draw) + multiset(discard)
    ensures !reshuffled ==> hand' == hand + [draw[0]] && draw' == draw[1..] && discard' == discard
    ensures reshuffled ==> && discard' == [] && |hand'| == |hand| + 1 && hand'[..|hand|] == hand
                           && multiset{hand'[|hand|]} + multiset(draw') == multiset(discard)
    ensures g.stream == g0.stream
  {
    draw', discard', reshuffled, g := draw, discard, false, g0;
    if |draw'| == 0 {
      draw', g := Shuffle(discard', g);
      discard' := [];
      reshuffled := true;
    }
    var top := draw'[0];
    assert draw' == [top] + draw'[1..];
    hand' := hand + [top];
    draw' := draw'[1..];
  }

  /**
   * The piles after `i` rounds of the draw loop from `hand`, `draw` and
   * `discard`. Before any reshuffle the hand has gained the top `i` cards of
   * the draw pile. After it, the hand has gained the whole draw pile and then
   * `taken`, cards of the old discard pile, which is left empty; `taken` and
   * the new draw pile together are the old discard pile.
   */
  ghost predicate DrawnSoFar(hand: seq<CardId>, draw: seq<CardId>, discard: seq<CardId>, i: nat,
                             reshuffled: bool, taken: seq<CardId>,
                             hand': seq<CardId>, draw': seq<CardId>, discard': seq<CardId>)
  {
    && i + |draw'| + |discard'| == |draw| + |discard|
    && (!reshuffled ==> && i <= |draw| && hand' == hand + draw[..i] && draw' == draw[i..] && discard' == discard
                        && taken == [])
    && (reshuffled ==> && |draw| < i && |discard| > 0 && discard' == []
                       && hand' == hand + draw + taken && |taken| == i - |draw|
                       && multiset(taken) + multiset(draw') == multiset(discard))
  }

  /** One round of the draw loop (`DrawOne`), with the bookkeeping of `DrawnSoFar`. */
  method DrawNext(ghost hand: seq<CardId>, ghost draw: seq<CardId>, ghost discard: seq<CardId>, ghost i: nat,
                  reshuffled: bool, ghost taken: seq<CardId>,
                  hand1: seq<CardId>, draw1: seq<CardId>, discard1: seq<CardId>, g0: Rng)
    returns (hand2: seq<CardId>, draw2: seq<CardId>, discard2: seq<CardId>, reshuffled2: bool,
             ghost taken2: seq<CardId>, g: Rng)
    requires DrawnSoFar(hand, draw, discard, i, reshuffled, taken, hand1, draw1, discard1)
    requires |draw1| + |discard1| > 0
    ensures DrawnSoFar(hand, draw, discard, i + 1, reshuffled2, taken2, hand2, draw2, discard2)
    ensures reshuffled2 == (reshuffled || |draw1| == 0)
    ensures g.stream == g0.stream
  {
    var again;
    hand2, draw2, discard2, again, g := DrawOne(hand1, draw1, discard1, g0);
    reshuffled2, taken2 := reshuffled, taken;
    if again {
      assert !reshuffled && draw[..i] == draw;
      taken2 := [hand2[|hand1|]];
      AppendLast(hand1, hand2);
      reshuffled2 := true;
    } else if reshuffled {
      TakeTop(taken, draw1, multiset(discard));
      taken2 := taken + [draw1[0]];
    } else {
      assert draw[..i + 1] == draw[..i] + [draw[i]];
    }
  }

  /**
   * The draw loop: `n` times, stop if both the draw and the discard pile are
   * empty, otherwise draw one card (reshuffling first when the draw pile is
   * empty). It runs `Drawn(n, |draw| + |discard|)` rounds, and reshuffles
   * exactly when the draw pile runs short while the discard pile is not empty.
   */
  method DrawLoop(hand: seq<CardId>, draw: seq<CardId>, discard: seq<CardId>, n: int, g0: Rng)
    returns (hand': seq<CardId>, draw': seq<CardId>, discard': seq<CardId>, reshuffled: bool, g: Rng,
             ghost taken: seq<CardId>)
    ensures DrawnSoFar(hand, draw, discard, Drawn(n, |draw| + |discard|), reshuffled, taken, hand', draw', discard')
    ensures reshuffled <==> |draw| < n && |discard| > 0
    ensures g.stream == g0.stream
  {
    hand', draw', discard', reshuffled, g, taken := hand, draw, discard, false, g0, [];
    var i := 0;
    while i < n
      invariant 0 <= i && i <= (if n > 0 then n else 0)
      invariant DrawnSoFar(hand, draw, discard, i, reshuffled, taken, hand', draw', discard')
      invariant g.stream == g0.stream
    {
      if |draw'| == 0 && |discard'| == 0 {
        break;
      }
      hand', draw', discard', reshuffled, taken, g := DrawNext(hand, draw, discard, i, reshuffled, taken, hand', draw', discard', g);
      i := i + 1;
    }
  }

  lemma AppendLast(before: seq<CardId>, after: seq<CardId>)
    requires |after| == |before| + 1 && after[..|before|] == before
    ensures after == before + [after[|before|]]
  {
  }

  lemma TakeTop(taken: seq<CardId>, pile: seq<CardId>, total: multiset<CardId>)
    requires |pile| > 0 && multiset(taken) + multiset(pile) == total
    ensures multiset(taken + [pile[0]]) + multiset(pile[1..]) == total
  {
    assert pile == [pile[0]] + pile[1..];
  }

  /** A finished draw loop leaves the piles as `DrawnAs` says. */
  lemma DrawFinished(hand: seq<CardId>, draw: seq<CardId>, discard: seq<CardId>, n: int,
                     reshuffled: bool, taken: seq<CardId>, hand': seq<CardId>, draw': seq<CardId>, discard': seq<CardId>)
    requires DrawnSoFar(hand, draw, discard, Drawn(n, |draw| + |discard|), reshuffled, taken, hand', draw', discard')
    ensures DrawnAs(hand, draw, discard, n, hand', draw', discard')
  {
    if reshuffled {
      SplitAfterReshuffle(hand, draw, taken);
    } else {
      SplitBeforeReshuffle(hand, draw, Drawn(n, |draw| + |discard|));
    }
  }

  /**
   * What a draw of `n` cards does to the piles. The hand gains
   * `k = min(n, |draw| + |discard|)` cards at its end and no card is lost or
   * made up. When the draw pile holds `k` cards the hand gains exactly its
   * first `k` and the discard pile is untouched. Otherwise the hand first takes
   * the whole draw pile, then the rest comes from the reshuffled discard pile,
   * which is left empty.
   */
  ghost predicate DrawnAs(hand: seq<CardId>, draw: seq<CardId>, discard: seq<CardId>, n: int,
                          hand': seq<CardId>, draw': seq<CardId>, discard': seq<CardId>)
  {
    var k := Drawn(n, |draw| + |discard|);
    && multiset(hand') + multiset(draw') + multiset(discard') == multiset(hand) + multiset(draw) + multiset(discard)
    && |hand'| == |hand| + k
    && hand'[..|hand|] == hand
    && (k <= |draw| ==> hand' == hand + draw[..k] && draw' == draw[k..] && discard' == discard)
    && (|draw| < k ==> && hand'[|hand|..|hand| + |draw|] == draw && discard' == []
                       && multiset(hand'[|hand| + |draw|..]) + multiset(draw') == multiset(discard))
  }

  /**
   * `DrawLoop` summarised: the piles end as `DrawnAs` says, and a reshuffle
   * happens exactly when the draw pile runs out while the discard pile is not
   * empty.
   */
  method DrawCards(hand: seq<CardId>, draw: seq<CardId>, discard: seq<CardId>, n: int, g0: Rng)
    returns (hand': seq<CardId>, draw': seq<CardId>, discard': seq<CardId>, reshuffled: bool, g: Rng)
    ensures DrawnAs(hand, draw, discard, n, hand', draw', discard')
    ensures reshuffled <==> |draw| < n && |discard| > 0
    ensures g.stream == g0.stream
  {
    ghost var taken;
    hand', draw', discard', reshuffled, g, taken := DrawLoop(hand, draw, discard, n, g0);
    DrawFinished(hand, draw, discard, n, reshuffled, taken, hand', draw', discard');
  }

  lemma SplitBeforeReshuffle(hand: seq<CardId>, draw: seq<CardId>, i: nat)
    requires i <= |draw|
    ensures (hand + draw[..i])[..|hand|] == hand
    ensures multiset(hand + draw[..i]) + multiset(draw[i..]) == multiset(hand) + multiset(draw)
  {
    assert draw == draw[..i] + draw[i..];
  }

  lemma SplitAfterReshuffle(hand: seq<CardId>, draw: seq<CardId>, taken: seq<CardId>)
    ensures (hand + draw + taken)[..|hand|] == hand
    ensures (hand + draw + taken)[|hand|..|hand| + |draw|] == draw
    ensures (hand + draw + taken)[|hand| + |draw|..] == taken
    ensures multiset(hand + draw + taken) == multiset(hand) + multiset(draw) + multiset(taken)
  {
  }

  /** The number of cards a draw of `n` yields from `available` cards. */
  function Drawn(n: int, available: nat): (k: nat)
    ensures k <= available && (n >= 0 ==> k <= n)
    ensures n >= available ==> k == available
    ensures 0 <= n <= available ==> k == n
  {
    if n <= 0 then 0 else if n <= available then n else available
  }
}
