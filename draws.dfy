/** The simulation's single random stream, seen abstractly: an infinite
    sequence of draws in [0, 1) and a cursor.  Every stochastic decision of the
    engine consumes the next draw, so a run is a function of the stream and of
    the calls made. */
module Draws {

  /** One draw of `random.random()`: a real in [0, 1). */
  type Unit = r: real | 0.0 <= r < 1.0

  /** `uniform(a, b)` computed from one draw `u`, as `a + (b - a) * u`. */
  function Scale(a: real, b: real, u: Unit): (x: real)
    ensures a <= b ==> a <= x <= b
  {
    var width := b - a;
    assert a <= b ==> 0.0 <= width * u <= width by {
      if a <= b { ScaleBounds(width, u); }
    }
    a + width * u
  }

  /** A fraction of a non-negative amount lies between zero and the amount. */
  lemma ScaleBounds(c: real, u: Unit)
    requires c >= 0.0
    ensures 0.0 <= c * u <= c
  {
    assert c * (1.0 - u) >= 0.0;
  }

  /** `randrange(0, n)` from one draw: the bucket of [0, 1) that `u` falls in. */
  function Bucket(n: nat, u: Unit): (k: nat)
    requires n > 0
    ensures k < n
  {
    var x := (n as real) * u;
    assert 0.0 <= x < n as real by {
      assert (n as real) * (1.0 - u) > 0.0;
    }
    x.Floor
  }

  /** A random generator whose state is the position in a fixed stream. */
  class Rng {
    const stream: nat -> Unit
    var pos: nat

    constructor (stream: nat -> Unit)
      ensures this.stream == stream && pos == 0
    {
      this.stream := stream;
      pos := 0;
    }

    /** `random()`: the next draw. */
    method Random() returns (u: Unit)
      modifies this`pos
      ensures u == stream(old(pos))
      ensures pos == old(pos) + 1
    {
      u := stream(pos);
      pos := pos + 1;
    }

    /** `uniform(a, b)`: one draw scaled to the interval between a and b. */
    method Uniform(a: real, b: real) returns (x: real)
      modifies this`pos
      ensures x == Scale(a, b, stream(old(pos)))
      ensures a <= b ==> a <= x <= b
      ensures pos == old(pos) + 1
    {
      x := Scale(a, b, stream(pos));
      pos := pos + 1;
    }

    /** `randrange(0, n)`: one draw mapped to 0 .. n-1. */
    method RandRange(n: nat) returns (k: nat)
      requires n > 0
      modifies this`pos
      ensures k == Bucket(n, stream(old(pos)))
      ensures k < n
      ensures pos == old(pos) + 1
    {
      k := Bucket(n, stream(pos));
      pos := pos + 1;
    }
  }
}
