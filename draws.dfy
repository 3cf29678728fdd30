/** numpy's `random.uniform` and Python's `random.choice`, with the random
    number itself passed in: every draw is a real `u` in `[0, 1)` that the
    caller supplies. */
module Draws {

  /** A draw is a real in `[0, 1)`. */
  predicate IsDraw(u: real)
  {
    0.0 <= u < 1.0
  }

  /** `np.random.uniform(lo, hi)` for the draw `u`: a value in `[lo, hi)`;
      numpy also accepts `hi <= lo`, giving `lo` itself or a value in `(hi, lo]`. */
  function Uniform(lo: real, hi: real, u: real): (r: real)
    requires IsDraw(u)
    ensures lo < hi ==> lo <= r < hi
    ensures lo == hi ==> r == lo
    ensures hi < lo ==> hi < r <= lo
  {
    ScaledDraw(hi - lo, u);
    lo + Scale(hi - lo, u)
  }

  /** The part of a span that a draw selects. */
  function Scale(span: real, u: real): real
  {
    span * u
  }

  /** A draw scales a span to a part of it that starts at 0 and stops short
      of the whole span. */
  lemma ScaledDraw(span: real, u: real)
    requires IsDraw(u)
    ensures 0.0 < span ==> 0.0 <= Scale(span, u) < span
    ensures span == 0.0 ==> Scale(span, u) == 0.0
    ensures span < 0.0 ==> span < Scale(span, u) <= 0.0
  {
    assert span - span * u == span * (1.0 - u);
    if span < 0.0 {
      assert 0.0 <= -span * u;
      assert 0.0 < -span * (1.0 - u);
    }
  }

  /** `random.choice` over `n` items for the draw `u`: a valid index. */
  function Choice(n: nat, u: real): (i: nat)
    requires 0 < n && IsDraw(u)
    ensures i < n
  {
    var r := (n as real) * u;
    assert r < n as real;
    r.Floor
  }
}
