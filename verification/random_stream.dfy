/** The module-level pseudo-random generator seeded once with
    `random.seed(20)`. Its internals are not modelled: what the seed determines
    is given by two sources, each a function of the calls made so far, and the
    generator records every call in order. */
module RandomStream {

  /** One call on the generator and the value it returned. */
  datatype Draw =
    | IntDraw(lo: int, hi: int, n: int)
    | RealDraw(a: real, b: real, x: real)

  /** The generator's integer primitive (`_randbelow(n)`): after the given
      history of calls, a number in [0, n). */
  type BelowSource = f: (seq<Draw>, nat) -> nat
    | forall h, n :: 0 < n ==> f(h, n) < n
    witness (h: seq<Draw>, n: nat) => 0

  /** The generator's float primitive (`random()`): after the given history,
      a number in [0, 1). */
  type UnitSource = f: seq<Draw> -> real
    | forall h :: 0.0 <= f(h) < 1.0
    witness (h: seq<Draw>) => 0.0

  /** `randint(lo, hi)`: `lo` plus a number below the width of the range, so
      both ends are included. */
  function RandIntValue(below: BelowSource, history: seq<Draw>, lo: int, hi: int): (v: int)
    requires lo <= hi
    ensures lo <= v <= hi
  {
    lo + below(history, hi - lo + 1)
  }

  /** The product `(b - a) * random()` inside `uniform`. */
  function Scale(width: real, u: real): real
  {
    width * u
  }

  /** `uniform(a, b)`: `a + (b - a) * random()`, from `a` up to but not
      including `b` when `a < b`. */
  function UniformValue(unit: UnitSource, history: seq<Draw>, a: real, b: real): (x: real)
    ensures a <= b ==> a <= x <= b
    ensures a < b ==> x < b
  {
    ScaleBounds(b - a, unit(history));
    a + Scale(b - a, unit(history))
  }

  /** A width scaled by a number in [0, 1) lies in [0, width], and below a
      positive width. */
  lemma ScaleBounds(width: real, u: real)
    requires 0.0 <= u < 1.0
    ensures 0.0 <= width ==> 0.0 <= Scale(width, u) <= width
    ensures 0.0 < width ==> Scale(width, u) < width
  {
    if 0.0 <= width {
      NonnegativeProduct(width, u);
    }
    if 0.0 < width {
      ProductBelow(width, u, 1.0);
    }
  }

  lemma NonnegativeProduct(x: real, y: real)
    requires 0.0 <= x && 0.0 <= y
    ensures 0.0 <= x * y
  {
  }

  lemma ProductBelow(x: real, y: real, z: real)
    requires 0.0 < x && y < z
    ensures x * y < x * z
  {
  }

  /** The shared generator. `drawn` grows by one entry per call, so the
      order of the calls is visible in the state. */
  class Random {
    const below: BelowSource
    const unit: UnitSource
    var drawn: seq<Draw>

    /** `random.seed(...)`: the sources stand for the stream the seed fixes. */
    constructor Seeded(below: BelowSource, unit: UnitSource)
      ensures this.below == below && this.unit == unit
      ensures drawn == []
    {
      this.below := below;
      this.unit := unit;
      drawn := [];
    }

    method RandInt(lo: int, hi: int) returns (v: int)
      requires lo <= hi
      modifies this
      ensures v == RandIntValue(below, old(drawn), lo, hi)
      ensures drawn == old(drawn) + [IntDraw(lo, hi, v)]
    {
      v := RandIntValue(below, drawn, lo, hi);
      drawn := drawn + [IntDraw(lo, hi, v)];
    }

    method Uniform(a: real, b: real) returns (x: real)
      modifies this
      ensures x == UniformValue(unit, old(drawn), a, b)
      ensures drawn == old(drawn) + [RealDraw(a, b, x)]
    {
      x := UniformValue(unit, drawn, a, b);
      drawn := drawn + [RealDraw(a, b, x)];
    }
  }
}
