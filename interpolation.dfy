/** The interpolation kernels of src/dsp/Interpolation.hpp: two cubic
    polynomials over four neighbouring samples, and the reads that feed them
    from a sample array, either bounded by the caller or wrapping around. */
module Interpolation {
  import opened Common

  /** The kernels selectable for a clip read. */
  datatype Interpolations = NONE | LINEAR | HERMITE | BSPLINE

  /** Fractional position of an index between two samples. */
  function Frac(index: real): (t: real)
    ensures 0.0 <= t < 1.0
    ensures index == index.Floor as real + t
  {
    index - index.Floor as real
  }

  /** Uniform cubic B-spline segment between P1 and P2. */
  function BSpline(p0: real, p1: real, p2: real, p3: real, u: real): (r: real)
    ensures u == 0.0 ==> r == (p0 + 4.0 * p1 + p2) / 6.0
    ensures u == 1.0 ==> r == (p1 + 4.0 * p2 + p3) / 6.0
    ensures p0 == p1 == p2 == p3 ==> r == p0
  {
    u * u * u * ((-1.0) * p0 + 3.0 * p1 - 3.0 * p2 + p3) / 6.0
    + u * u * (3.0 * p0 - 6.0 * p1 + 3.0 * p2) / 6.0
    + u * ((-3.0) * p0 + 3.0 * p2) / 6.0
    + (p0 + 4.0 * p1 + p2) / 6.0
  }

  /** 4-point, 3rd-order Hermite (Catmull-Rom) segment between x1 and x2. */
  function Hermite4pt3oX(x0: real, x1: real, x2: real, x3: real, t: real): (r: real)
    ensures t == 0.0 ==> r == x1
    ensures t == 1.0 ==> r == x2
    ensures x0 == x1 == x2 == x3 ==> r == x0
  {
    var c0 := x1;
    var c1 := 0.5 * (x2 - x0);
    var c2 := x0 - (2.5 * x1) + (2.0 * x2) - (0.5 * x3);
    var c3 := (0.5 * (x3 - x0)) + (1.5 * (x1 - x2));
    (((((c3 * t) + c2) * t) + c1) * t) + c0
  }

  /** The Hermite kernel follows a straight line through its four points:
      between x1 and x2 it lies on that line at position t. */
  lemma HermiteReproducesRamp(a: real, b: real, t: real)
    ensures Hermite4pt3oX(a, a + b, a + 2.0 * b, a + 3.0 * b, t) == a + b * (1.0 + t)
  {
    var c2 := a - 2.5 * (a + b) + 2.0 * (a + 2.0 * b) - 0.5 * (a + 3.0 * b);
    var c3 := 0.5 * (a + 3.0 * b - a) + 1.5 * (a + b - (a + 2.0 * b));
    assert c2 == 0.0 && c3 == 0.0;
  }

  /** The B-spline kernel also reproduces a straight line. */
  lemma BSplineReproducesRamp(a: real, b: real, u: real)
    ensures BSpline(a, a + b, a + 2.0 * b, a + 3.0 * b, u) == a + b * (1.0 + u)
  {
    var cube := (-1.0) * a + 3.0 * (a + b) - 3.0 * (a + 2.0 * b) + a + 3.0 * b;
    var square := 3.0 * a - 6.0 * (a + b) + 3.0 * (a + 2.0 * b);
    assert cube == 0.0 && square == 0.0;
  }

  /** Linear read; the array must hold at least floor(index) + 2 samples. */
  function InterpolateLinearD(data: seq<real>, index: real): (r: real)
    requires 0 <= index.Floor && index.Floor + 2 <= |data|
    ensures Min(data[index.Floor], data[index.Floor + 1]) <= r <= Max(data[index.Floor], data[index.Floor + 1])
    ensures index == index.Floor as real ==> r == data[index.Floor]
  {
    var x1 := index.Floor;
    Crossfade(data[x1], data[x1 + 1], Frac(index))
  }

  /** Hermite read of data[floor - 1 .. floor + 2]; the array must hold at
      least floor(index) + 3 samples and floor(index) - 1 must be an index. */
  function InterpolateHermite(data: seq<real>, index: real): (r: real)
    requires 1 <= index.Floor && index.Floor + 3 <= |data|
    ensures index == index.Floor as real ==> r == data[index.Floor]
    ensures (forall k :: index.Floor - 1 <= k <= index.Floor + 2 ==> data[k] == data[index.Floor]) ==> r == data[index.Floor]
  {
    var x1 := index.Floor;
    Hermite4pt3oX(data[x1 - 1], data[x1], data[x1 + 1], data[x1 + 2], Frac(index))
  }

  /** B-spline read of data[floor - 1 .. floor + 2], same bounds as Hermite. */
  function InterpolateBSpline(data: seq<real>, index: real): (r: real)
    requires 1 <= index.Floor && index.Floor + 3 <= |data|
    ensures index == index.Floor as real ==> r == (data[index.Floor - 1] + 4.0 * data[index.Floor] + data[index.Floor + 1]) / 6.0
    ensures (forall k :: index.Floor - 1 <= k <= index.Floor + 2 ==> data[k] == data[index.Floor]) ==> r == data[index.Floor]
  {
    var x1 := index.Floor;
    BSpline(data[x1 - 1], data[x1], data[x1 + 1], data[x1 + 2], Frac(index))
  }

  /** The four neighbour indices used by the wrapping reads: x0 steps back to
      the last sample from the first one, x2 and x3 wrap modulo dataLen. */
  datatype Neighbours = Neighbours(x0: int, x1: int, x2: int, x3: int)

  function WrapNeighbours(index: real, dataLen: int): (n: Neighbours)
    requires 0 <= index.Floor < dataLen
    ensures 0 <= n.x0 < dataLen && 0 <= n.x1 < dataLen && 0 <= n.x2 < dataLen && 0 <= n.x3 < dataLen
    ensures n.x1 == index.Floor
    ensures (n.x0 == dataLen - 1) <==> n.x1 < 1
    ensures n.x1 >= 1 ==> n.x0 == n.x1 - 1
    ensures n.x2 == (if n.x1 + 1 == dataLen then 0 else n.x1 + 1)
    ensures n.x3 == (if n.x2 + 1 == dataLen then 0 else n.x2 + 1)
  {
    var x1 := index.Floor;
    var x0 := if x1 < 1 then dataLen - 1 else x1 - 1;
    WrapsOnce(x1 + 1, dataLen);
    var x2 := (x1 + 1) % dataLen;
    WrapsOnce(x2 + 1, dataLen);
    var x3 := (x2 + 1) % dataLen;
    Neighbours(x0, x1, x2, x3)
  }

  /** An index at most one past the end wraps to 0 and is otherwise kept. */
  lemma WrapsOnce(a: int, n: int)
    requires 0 <= a <= n && 0 < n
    ensures a % n == if a == n then 0 else a
  {
  }

  /** Linear read that wraps from the last sample to the first. */
  function InterpolateLineard(data: seq<real>, index: real, dataLen: int): (r: real)
    requires dataLen <= |data|
    requires 0 <= index.Floor < dataLen
    ensures var n := WrapNeighbours(index, dataLen);
      Min(data[n.x1], data[n.x2]) <= r <= Max(data[n.x1], data[n.x2])
  {
    var n := WrapNeighbours(index, dataLen);
    Crossfade(data[n.x1], data[n.x2], Frac(index))
  }

  /** Hermite read with wrapped neighbours. */
  function InterpolateHermiteWrap(data: seq<real>, index: real, dataLen: int): (r: real)
    requires dataLen <= |data|
    requires 0 <= index.Floor < dataLen
    ensures index == index.Floor as real ==> r == data[index.Floor]
  {
    var n := WrapNeighbours(index, dataLen);
    Hermite4pt3oX(data[n.x0], data[n.x1], data[n.x2], data[n.x3], Frac(index))
  }

  /** B-spline read with wrapped neighbours. */
  function InterpolateBSplineWrap(data: seq<real>, index: real, dataLen: int): (r: real)
    requires dataLen <= |data|
    requires 0 <= index.Floor < dataLen
    ensures (forall k :: 0 <= k < dataLen ==> data[k] == data[0]) ==> r == data[0]
  {
    var n := WrapNeighbours(index, dataLen);
    BSpline(data[n.x0], data[n.x1], data[n.x2], data[n.x3], Frac(index))
  }
}
