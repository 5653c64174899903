/**
 * The injected replacement for Math.random: an endless stream of draws in [0, 1)
 * together with a cursor saying how many draws have been consumed.
 */
module Random {

  datatype Stream = Stream(draw: nat -> real, cursor: nat)

  ghost predicate Uniform(s: Stream)
  {
    forall n :: 0.0 <= s.draw(n) < 1.0
  }

  type Rng = s: Stream | Uniform(s) witness Stream(n => 0.0, 0)

  /** One call of Math.random: the next draw, and the stream advanced past it. */
  function Next(g: Rng): (r: (real, Rng))
    ensures 0.0 <= r.0 < 1.0
    ensures r.0 == g.draw(g.cursor)
    ensures r.1.draw == g.draw && r.1.cursor == g.cursor + 1
  {
    (g.draw(g.cursor), Stream(g.draw, g.cursor + 1))
  }

  /** `(Math.random() - 0.5) * width`: a uniform offset in [-width/2, width/2). */
  function Offset(g: Rng, width: real): (r: (real, Rng))
    requires width >= 0.0
    ensures -width / 2.0 <= r.0 <= width / 2.0
    ensures r.1.draw == g.draw && r.1.cursor == g.cursor + 1
  {
    var (u, g') := Next(g);
    assert -0.5 * width <= (u - 0.5) * width <= 0.5 * width by {
      assert 0.0 <= u * width <= width;
    }
    ((u - 0.5) * width, g')
  }
}
