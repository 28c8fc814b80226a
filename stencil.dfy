/** Per-index arithmetic of the 1-D staggered-grid scheme (FD_1D_DX4_DT3_ABS_fast.py):
    the active index range, the two fourth-order staggered first-derivative stencils
    and the three-step Adams-Bashforth blend. Values are exact reals. */
module Stencil {

  /** Index i is written by the stencil updates: i lies in kx = 5 .. nx-6
      (numpy's arange(5, nx-5)). Every such index reads only i-2 .. i+2, which stay
      inside the grid. */
  predicate Active(nx: int, i: int): (r: bool)
    ensures r ==> 0 <= i - 2 && i + 2 < nx
  {
    5 <= i < nx - 5
  }

  /** Forward staggered difference used for the pressure derivative:
      i_dx*9/8*(a[i+1]-a[i]) - i_dx*1/24*(a[i+2]-a[i-1]). It reads a[i-1] .. a[i+2]
      and, like a derivative, vanishes where those four values are equal. */
  function Forward(a: seq<real>, i: int, invDx: real): (d: real)
    requires 1 <= i && i + 2 < |a|
    ensures a[i - 1] == a[i] == a[i + 1] == a[i + 2] ==> d == 0.0
  {
    invDx * 9.0 / 8.0 * (a[i + 1] - a[i]) - invDx * 1.0 / 24.0 * (a[i + 2] - a[i - 1])
  }

  /** Backward staggered difference used for the velocity derivative:
      i_dx*9/8*(a[i]-a[i-1]) - i_dx*1/24*(a[i+1]-a[i-2]). It reads a[i-2] .. a[i+1]
      and vanishes where those four values are equal. */
  function Backward(a: seq<real>, i: int, invDx: real): (d: real)
    requires 2 <= i && i + 1 < |a|
    ensures a[i - 2] == a[i - 1] == a[i] == a[i + 1] ==> d == 0.0
  {
    invDx * 9.0 / 8.0 * (a[i] - a[i - 1]) - invDx * 1.0 / 24.0 * (a[i + 1] - a[i - 2])
  }

  /** Third-order Adams-Bashforth blend of the newest (d1) and two older (d2, d3)
      derivatives. The weights 25/24, -1/12, 1/24 sum to one, so a constant history
      is passed through unchanged, and a zero history gives zero. */
  function AdamsBashforth(d1: real, d2: real, d3: real): (r: real)
    ensures d1 == d2 == d3 ==> r == d1
    ensures d1 == 0.0 && d2 == 0.0 && d3 == 0.0 ==> r == 0.0
  {
    25.0 / 24.0 * d1 - 1.0 / 12.0 * d2 + 1.0 / 24.0 * d3
  }

  /** Third-order accuracy: for a derivative history sampled from the quadratic
      a + b t + c t^2 at t = 0, -1, -2 (newest first), the blend is the mean of that
      quadratic over the step ahead, t in [-1/2, 1/2] around the staggered update,
      which is a + c/12. */
  lemma AdamsBashforthExactOnQuadratic(a: real, b: real, c: real)
    ensures AdamsBashforth(a, a - b + c, a - 2.0 * b + 4.0 * c) == a + c / 12.0
  {
  }

  /** The blend is additive in the history. */
  lemma AdamsBashforthAdd(d1: real, d2: real, d3: real, e1: real, e2: real, e3: real)
    ensures AdamsBashforth(d1 + e1, d2 + e2, d3 + e3)
         == AdamsBashforth(d1, d2, d3) + AdamsBashforth(e1, e2, e3)
  {
  }

  /** Both stencils are additive in the field. */
  lemma ForwardAdd(a: seq<real>, b: seq<real>, s: seq<real>, i: int, invDx: real)
    requires |b| == |a| && |s| == |a| && 1 <= i && i + 2 < |a|
    requires forall j :: 0 <= j < |a| ==> s[j] == a[j] + b[j]
    ensures Forward(s, i, invDx) == Forward(a, i, invDx) + Forward(b, i, invDx)
  {
    var u := (a[i + 1] - a[i]) + (b[i + 1] - b[i]);
    var w := (a[i + 2] - a[i - 1]) + (b[i + 2] - b[i - 1]);
    assert s[i + 1] - s[i] == u && s[i + 2] - s[i - 1] == w;
    assert invDx * 9.0 / 8.0 * u == invDx * 9.0 / 8.0 * (a[i + 1] - a[i]) + invDx * 9.0 / 8.0 * (b[i + 1] - b[i]);
    assert invDx * 1.0 / 24.0 * w == invDx * 1.0 / 24.0 * (a[i + 2] - a[i - 1]) + invDx * 1.0 / 24.0 * (b[i + 2] - b[i - 1]);
  }

  lemma BackwardAdd(a: seq<real>, b: seq<real>, s: seq<real>, i: int, invDx: real)
    requires |b| == |a| && |s| == |a| && 2 <= i && i + 1 < |a|
    requires forall j :: 0 <= j < |a| ==> s[j] == a[j] + b[j]
    ensures Backward(s, i, invDx) == Backward(a, i, invDx) + Backward(b, i, invDx)
  {
    var u := (a[i] - a[i - 1]) + (b[i] - b[i - 1]);
    var w := (a[i + 1] - a[i - 2]) + (b[i + 1] - b[i - 2]);
    assert s[i] - s[i - 1] == u && s[i + 1] - s[i - 2] == w;
    assert invDx * 9.0 / 8.0 * u == invDx * 9.0 / 8.0 * (a[i] - a[i - 1]) + invDx * 9.0 / 8.0 * (b[i] - b[i - 1]);
    assert invDx * 1.0 / 24.0 * w == invDx * 1.0 / 24.0 * (a[i + 1] - a[i - 2]) + invDx * 1.0 / 24.0 * (b[i + 1] - b[i - 2]);
  }

  /** A field that is a linear function of the grid index. */
  ghost predicate IsLinear(a: seq<real>, alpha: real, beta: real)
  {
    forall j :: 0 <= j < |a| ==> a[j] == alpha * (j as real) + beta
  }

  /** Cubic polynomial in the offset x from an expansion point. */
  function Cubic(c0: real, c1: real, c2: real, c3: real, x: real): (y: real)
  {
    c0 + c1 * x + c2 * x * x + c3 * x * x * x
  }

  /** A field sampled from a cubic centred at the real position `centre`. */
  ghost predicate IsCubicAbout(a: seq<real>, centre: real, c0: real, c1: real, c2: real, c3: real)
  {
    forall j :: 0 <= j < |a| ==> a[j] == Cubic(c0, c1, c2, c3, j as real - centre)
  }

  /** Both stencils differentiate a linear field exactly: 9/8 - 3/24 = 1. */
  lemma ForwardExactOnLinear(a: seq<real>, i: int, invDx: real, alpha: real, beta: real)
    requires 1 <= i && i + 2 < |a|
    requires IsLinear(a, alpha, beta)
    ensures Forward(a, i, invDx) == alpha * invDx
  {
    assert a[i + 1] - a[i] == alpha;
    assert a[i + 2] - a[i - 1] == 3.0 * alpha;
  }

  lemma BackwardExactOnLinear(a: seq<real>, i: int, invDx: real, alpha: real, beta: real)
    requires 2 <= i && i + 1 < |a|
    requires IsLinear(a, alpha, beta)
    ensures Backward(a, i, invDx) == alpha * invDx
  {
    assert a[i] - a[i - 1] == alpha;
    assert a[i + 1] - a[i - 2] == 3.0 * alpha;
  }

  /** Fourth-order accuracy in space: the forward stencil at i returns exactly the
      derivative, at the staggered point i + 1/2, of any cubic sampled on the grid. */
  lemma ForwardExactOnCubic(a: seq<real>, i: int, invDx: real, c0: real, c1: real, c2: real, c3: real)
    requires 1 <= i && i + 2 < |a|
    requires IsCubicAbout(a, i as real + 0.5, c0, c1, c2, c3)
    ensures Forward(a, i, invDx) == c1 * invDx
  {
    var ctr := i as real + 0.5;
    assert (i + 1) as real - ctr == 0.5;
    assert i as real - ctr == -0.5;
    assert (i + 2) as real - ctr == 1.5;
    assert (i - 1) as real - ctr == -1.5;
    assert a[i + 1] == Cubic(c0, c1, c2, c3, 0.5) == c0 + c1 / 2.0 + c2 / 4.0 + c3 / 8.0;
    assert a[i] == Cubic(c0, c1, c2, c3, -0.5) == c0 - c1 / 2.0 + c2 / 4.0 - c3 / 8.0;
    assert a[i + 2] == Cubic(c0, c1, c2, c3, 1.5) == c0 + 1.5 * c1 + 2.25 * c2 + 3.375 * c3;
    assert a[i - 1] == Cubic(c0, c1, c2, c3, -1.5) == c0 - 1.5 * c1 + 2.25 * c2 - 3.375 * c3;
  }

  /** The backward stencil at i is exact for cubics about the staggered point i - 1/2. */
  lemma BackwardExactOnCubic(a: seq<real>, i: int, invDx: real, c0: real, c1: real, c2: real, c3: real)
    requires 2 <= i && i + 1 < |a|
    requires IsCubicAbout(a, i as real - 0.5, c0, c1, c2, c3)
    ensures Backward(a, i, invDx) == c1 * invDx
  {
    var ctr := i as real - 0.5;
    assert i as real - ctr == 0.5;
    assert (i - 1) as real - ctr == -0.5;
    assert (i + 1) as real - ctr == 1.5;
    assert (i - 2) as real - ctr == -1.5;
    assert a[i] == Cubic(c0, c1, c2, c3, 0.5) == c0 + c1 / 2.0 + c2 / 4.0 + c3 / 8.0;
    assert a[i - 1] == Cubic(c0, c1, c2, c3, -0.5) == c0 - c1 / 2.0 + c2 / 4.0 - c3 / 8.0;
    assert a[i + 1] == Cubic(c0, c1, c2, c3, 1.5) == c0 + 1.5 * c1 + 2.25 * c2 + 3.375 * c3;
    assert a[i - 2] == Cubic(c0, c1, c2, c3, -1.5) == c0 - 1.5 * c1 + 2.25 * c2 - 3.375 * c3;
  }
}
