/** Rounding and grid snapping: the arithmetic that keeps the rendered camera
    on whole texels. */
module Grid {

  import opened Geometry

  function Abs(x: real): real { if x < 0.0 then -x else x }

  function Min(a: real, b: real): (m: real)
    ensures m <= a && m <= b && (m == a || m == b)
  {
    if a <= b then a else b
  }

  /** True when `q` is a whole number. */
  predicate IsWhole(q: real) { q.Floor as real == q }

  lemma WholeInt(n: int)
    ensures IsWhole(n as real)
  {
  }

  /** True when `v` is a whole multiple of the step `size`. */
  predicate IsMultiple(v: real, size: real)
    requires size != 0.0
  {
    IsWhole(v / size)
  }

  /** `f32::round`: the nearest integer, halfway cases away from zero. */
  function Round(x: real): (r: int)
    ensures -0.5 <= r as real - x <= 0.5
    ensures r as real - x == 0.5 ==> x > 0.0
    ensures r as real - x == -0.5 ==> x < 0.0
  {
    if x >= 0.0 then (x + 0.5).Floor else -((-x + 0.5).Floor)
  }

  /** The contract of Round pins the integer down: nothing else meets it. */
  lemma RoundUnique(x: real, n: int)
    requires -0.5 <= n as real - x <= 0.5
    requires n as real - x == 0.5 ==> x > 0.0
    requires n as real - x == -0.5 ==> x < 0.0
    ensures n == Round(x)
  {
  }

  lemma RoundWhole(x: real)
    requires IsWhole(x)
    ensures Round(x) as real == x
  {
    RoundUnique(x, x.Floor);
  }

  lemma RoundMonotone(a: real, b: real)
    requires a <= b
    ensures Round(a) <= Round(b)
  {
  }

  /** The whole-number magnification `round(min(w / refW, h / refH))` at
      which a `refW` by `refH` reference area fits a `w` by `h` window. */
  function FitScale(w: real, h: real, refW: real, refH: real): (s: int)
    requires w >= 0.0 && h >= 0.0 && refW > 0.0 && refH > 0.0
    ensures s >= 0
    ensures -0.5 <= s as real - Min(w / refW, h / refH) <= 0.5
  {
    Round(Min(w / refW, h / refH))
  }

  /** A factor of at most one half in size scales `s` by at most `s / 2`. */
  lemma HalfBound(d: real, s: real)
    requires -0.5 <= d <= 0.5 && s > 0.0
    ensures -s / 2.0 <= d * s <= s / 2.0
    ensures d * s == s / 2.0 ==> d == 0.5
    ensures d * s == -s / 2.0 ==> d == -0.5
  {
    if d >= 0.0 {
      assert (0.5 - d) * s >= 0.0;
    } else {
      assert (d + 0.5) * s >= 0.0;
    }
  }

  /** Scaling an error of at most half a unit by the step `size` gives an
      error of at most half a step, with the halfway cases kept. */
  lemma ScaledError(p: real, size: real, k: real)
    requires size > 0.0
    requires -0.5 <= k - p / size <= 0.5
    ensures -size / 2.0 <= k * size - p <= size / 2.0
    ensures k * size - p == size / 2.0 ==> k - p / size == 0.5
    ensures k * size - p == -size / 2.0 ==> k - p / size == -0.5
  {
    var q := p / size;
    var d := k - q;
    assert d * size == k * size - q * size;
    assert q * size == p;
    HalfBound(d, size);
    assert k * size - p == d * size;
  }

  /** `(p / size).round() * size`: the multiple of `size` nearest to `p`. */
  function Snap(p: real, size: real): (r: real)
    requires size > 0.0
    ensures IsMultiple(r, size)
    ensures -size / 2.0 <= r - p <= size / 2.0
    ensures r - p == size / 2.0 ==> p > 0.0
    ensures r - p == -size / 2.0 ==> p < 0.0
  {
    var k := Round(p / size) as real;
    assert k * size / size == k;
    ScaledError(p, size, k);
    assert p / size > 0.0 ==> p > 0.0;
    assert p / size < 0.0 ==> p < 0.0;
    k * size
  }

  lemma AbsScaled(d: real, s: real, x: real)
    requires s > 0.0 && x == d * s
    ensures Abs(x) == Abs(d) * s
  {
    if d < 0.0 {
      assert d * s == -((-d) * s);
    }
  }

  /** Round picks a nearest integer. */
  lemma RoundIsNearest(q: real, k: int)
    ensures Abs(Round(q) as real - q) <= Abs(k as real - q)
  {
    var r := Round(q);
    if k > r {
      assert k as real >= r as real + 1.0;
    } else if k < r {
      assert k as real <= r as real - 1.0;
    }
  }

  lemma ScaleMonotone(a: real, b: real, s: real)
    requires a <= b && s > 0.0
    ensures a * s <= b * s
  {
    assert (b - a) * s >= 0.0;
  }

  /** The distance to a grid point, measured in steps of `size`. */
  lemma GridDistance(p: real, size: real, k: real, pk: real)
    requires size > 0.0 && pk == k * size
    ensures Abs(pk - p) == Abs(k - p / size) * size
  {
    var q := p / size;
    assert q * size == p;
    assert pk - p == (k - q) * size;
    AbsScaled(k - q, size, pk - p);
  }

  /** Being closer in steps means being closer in distance. */
  lemma CloserOnGrid(p: real, size: real, a: real, b: real, pa: real, pb: real)
    requires size > 0.0
    requires pa == a * size && pb == b * size
    requires Abs(a - p / size) <= Abs(b - p / size)
    ensures Abs(pa - p) <= Abs(pb - p)
  {
    GridDistance(p, size, a, pa);
    GridDistance(p, size, b, pb);
    ScaleMonotone(Abs(a - p / size), Abs(b - p / size), size);
  }

  /** Snapping picks a NEAREST grid point: no multiple of `size` is closer. */
  lemma SnapIsNearest(p: real, size: real, k: int)
    requires size > 0.0
    ensures Abs(Snap(p, size) - p) <= Abs(k as real * size - p)
  {
    var r := Round(p / size);
    RoundIsNearest(p / size, k);
    CloserOnGrid(p, size, r as real, k as real, Snap(p, size), k as real * size);
  }

  /** A value already on the grid is left where it is. */
  lemma SnapOnGrid(p: real, size: real)
    requires size > 0.0
    requires IsMultiple(p, size)
    ensures Snap(p, size) == p
  {
    var q := p / size;
    RoundWhole(q);
    assert p == q * size;
  }

  lemma SnapIdempotent(p: real, size: real)
    requires size > 0.0
    ensures Snap(Snap(p, size), size) == Snap(p, size)
  {
    SnapOnGrid(Snap(p, size), size);
  }

  /** `f32::clamp(x, lo, hi)`. */
  function Clamp(x: real, lo: real, hi: real): (r: real)
    requires lo <= hi
    ensures lo <= r <= hi
    ensures lo <= x <= hi ==> r == x
    ensures x < lo ==> r == lo
    ensures x > hi ==> r == hi
  {
    if x < lo then lo else if x > hi then hi else x
  }

  /** Both coordinates of a camera-plane position snapped to the grid. */
  function SnapPosition(pos: Vec2, size: real): (norm: Vec2)
    requires size > 0.0
    ensures IsMultiple(norm.x, size) && IsMultiple(norm.y, size)
    ensures -size / 2.0 <= norm.x - pos.x <= size / 2.0
    ensures -size / 2.0 <= norm.y - pos.y <= size / 2.0
  {
    Vec2(Snap(pos.x, size), Snap(pos.y, size))
  }

  lemma SnapPositionOnGrid(pos: Vec2, size: real)
    requires size > 0.0
    requires IsMultiple(pos.x, size) && IsMultiple(pos.y, size)
    ensures SnapPosition(pos, size) == pos
  {
    SnapOnGrid(pos.x, size);
    SnapOnGrid(pos.y, size);
  }
}
