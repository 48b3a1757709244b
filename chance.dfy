/**
 * The random source. The engine and the catalogs call `Math.random()`; here every
 * call reads the next value of an oracle stream, so the model says only what holds
 * for every value the generator could return, never anything about its distribution.
 */
module Chance {

  /** A value `Math.random()` can return: a real in [0, 1). */
  type Unit = r: real | 0.0 <= r < 1.0

  /** An oracle stream of random values and the position of the next one to read. */
  datatype Rng = Rng(stream: nat -> Unit, next: nat) {
    /** The value the next `Math.random()` call returns. */
    function Value(): Unit { stream(next) }

    /** The generator after one call. */
    function Advance(): (g: Rng)
      ensures g.stream == stream && g.next == next + 1
    {
      this.(next := next + 1)
    }
  }

  /** `Math.floor(r * n)`: a uniform index below `n`. */
  function Pick(r: Unit, n: nat): (j: nat)
    requires n > 0
    ensures j < n
  {
    var x := r * (n as real);
    assert 0.0 <= x < n as real by { ScaleBelow(r, n); }
    x.Floor
  }

  lemma ScaleBelow(r: Unit, n: nat)
    requires n > 0
    ensures 0.0 <= r * (n as real) < n as real
  {
    assert (1.0 - r) * (n as real) > 0.0;
  }
}
