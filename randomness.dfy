/** The ambient random source.

    Every `Math.random()` draw is taken from a caller-supplied stream
    `draw(0), draw(1), ...` of reals in [0, 1); the source only ever turns a
    draw into an index with `Math.floor(draw * k)`. */
module Randomness {

  /** Every draw of the stream lies in [0, 1), as `Math.random()` promises. */
  ghost predicate Unit(draw: nat -> real) {
    forall k: nat :: 0.0 <= draw(k) < 1.0
  }

  /** `Math.floor(r * k)`: an index below `k`. */
  function Scale(r: real, k: nat): (j: nat)
    requires 0.0 <= r < 1.0 && k > 0
    ensures j < k
    ensures j as real <= r * k as real < j as real + 1.0
  {
    assert 0.0 <= r * k as real by {
      assert 0.0 <= r && 0.0 <= k as real;
    }
    assert r * k as real < k as real by {
      assert (1.0 - r) * k as real > 0.0;
    }
    (r * k as real).Floor
  }

  /** The stream of `Math.random()` results and how many have been consumed. */
  class RandomSource {
    const draw: nat -> real
    var used: nat

    ghost predicate Valid() {
      Unit(draw)
    }

    constructor (draw: nat -> real)
      requires Unit(draw)
      ensures Valid() && this.draw == draw && used == 0
    {
      this.draw := draw;
      used := 0;
    }

    /** `Math.floor(Math.random() * k)`: consumes one draw. */
    method Below(k: nat) returns (j: nat)
      requires Valid() && k > 0
      modifies this
      ensures used == old(used) + 1
      ensures j == Scale(draw(old(used)), k) && j < k
    {
      j := Scale(draw(used), k);
      used := used + 1;
    }
  }
}
