/** Value-level model of the time loop of FD_1D_DX4_DT3_ABS_fast.py: the
    configuration the loop consumes, the eight field/history buffers as sequences,
    one loop iteration as a function, and the state before each iteration. The
    imperative class in module Simulation is proved against these functions. */
module Wavefield {
  import opened Stencil

  /** What the time loop reads and never changes: grid size nx, reciprocal spacing
      invDx = 1/dx, time step dt, density rho, first Lame parameter l, source index
      xscr and the three receiver indices. The source series q is passed beside it;
      its length is the number of time steps nt. */
  datatype Config = Config(
    nx: nat, invDx: real, dt: real,
    rho: seq<real>, l: seq<real>,
    xscr: nat, xrec: seq<nat>)

  ghost predicate WellFormed(c: Config)
  {
    && |c.rho| == c.nx && |c.l| == c.nx
    && (forall i :: Active(c.nx, i) ==> c.rho[i] != 0.0)
    && c.xscr < c.nx
    && |c.xrec| == 3 && (forall r :: 0 <= r < 3 ==> c.xrec[r] < c.nx)
  }

  /** The mutable state: particle velocity vx, pressure p, the pressure derivative
      px with its two older copies px2, px3, and the velocity derivative vxx with
      vxx2, vxx3. */
  datatype Wave = Wave(
    vx: seq<real>, p: seq<real>,
    px: seq<real>, px2: seq<real>, px3: seq<real>,
    vxx: seq<real>, vxx2: seq<real>, vxx3: seq<real>)

  predicate Shaped(w: Wave, nx: nat)
  {
    && |w.vx| == nx && |w.p| == nx
    && |w.px| == nx && |w.px2| == nx && |w.px3| == nx
    && |w.vxx| == nx && |w.vxx2| == nx && |w.vxx3| == nx
  }

  function Zeros(nx: nat): (z: seq<real>)
    ensures |z| == nx && forall i :: 0 <= i < nx ==> z[i] == 0.0
  {
    seq(nx, _ => 0.0)
  }

  /** The state allocated before the loop: every buffer zero. */
  function ZeroWave(nx: nat): (w: Wave)
    ensures Shaped(w, nx)
  {
    Wave(Zeros(nx), Zeros(nx), Zeros(nx), Zeros(nx), Zeros(nx), Zeros(nx), Zeros(nx), Zeros(nx))
  }

  /** The first Lame parameter at one grid point: density times velocity squared. */
  function Modulus(r: real, x: real): (m: real)
  {
    r * x * x
  }

  lemma PositiveProduct(x: real, y: real)
    requires x > 0.0 && y > 0.0
    ensures x * y > 0.0
  {
  }

  /** A positive density and a nonzero velocity give a positive modulus. */
  lemma PositiveModulus(r: real, x: real)
    requires r > 0.0 && x != 0.0
    ensures Modulus(r, x) > 0.0
  {
    if x > 0.0 {
      PositiveProduct(r, x);
      PositiveProduct(r * x, x);
    } else {
      PositiveProduct(r, -x);
      PositiveProduct(r * (-x), -x);
      assert r * x * x == (r * (-x)) * (-x);
    }
  }

  /** First Lame parameter l = rho * v * v, computed once before the loop, element by
      element as numpy multiplies arrays. It is positive wherever the density is
      positive and the velocity nonzero. */
  function Lame(rho: seq<real>, v: seq<real>): (l: seq<real>)
    requires |v| == |rho|
    ensures |l| == |rho|
    ensures forall i :: 0 <= i < |l| && rho[i] > 0.0 && v[i] != 0.0 ==> l[i] > 0.0
  {
    var l := seq(|rho|, i requires 0 <= i < |rho| => Modulus(rho[i], v[i]));
    assert forall i :: 0 <= i < |l| && rho[i] > 0.0 && v[i] != 0.0 ==> l[i] > 0.0 by {
      forall i | 0 <= i < |l| && rho[i] > 0.0 && v[i] != 0.0
        ensures l[i] > 0.0
      {
        PositiveModulus(rho[i], v[i]);
      }
    }
    l
  }

  /** `dst[kx] = forward stencil of a`: entries outside kx keep their value in prev,
      and on a constant field every entry of kx is zero. */
  function DiffForward(a: seq<real>, prev: seq<real>, invDx: real): (d: seq<real>)
    requires |prev| == |a|
    ensures |d| == |a|
  {
    seq(|a|, i requires 0 <= i < |a| => if Active(|a|, i) then Forward(a, i, invDx) else prev[i])
  }

  /** `dst[kx] = backward stencil of a`: entries outside kx keep their value in prev,
      and on a constant field every entry of kx is zero. */
  function DiffBackward(a: seq<real>, prev: seq<real>, invDx: real): (d: seq<real>)
    requires |prev| == |a|
    ensures |d| == |a|
  {
    seq(|a|, i requires 0 <= i < |a| => if Active(|a|, i) then Backward(a, i, invDx) else prev[i])
  }

  /** `f[kx] = f[kx] - coef[kx] * (25/24 d1 - 1/12 d2 + 1/24 d3)`: entries outside kx
      are unchanged, and a zero derivative history leaves the whole field unchanged. */
  function Blend(f: seq<real>, coef: seq<real>, d1: seq<real>, d2: seq<real>, d3: seq<real>): (g: seq<real>)
    requires |coef| == |f| && |d1| == |f| && |d2| == |f| && |d3| == |f|
    ensures |g| == |f|
  {
    seq(|f|, i requires 0 <= i < |f| =>
      if Active(|f|, i) then f[i] - coef[i] * AdamsBashforth(d1[i], d2[i], d3[i]) else f[i])
  }

  /** The factor dt/rho of the velocity update (only read on kx, where rho is nonzero). */
  function VelocityCoef(c: Config): (k: seq<real>)
    requires WellFormed(c)
    ensures |k| == c.nx
  {
    seq(c.nx, i requires 0 <= i < c.nx => if Active(c.nx, i) then c.dt / c.rho[i] else 0.0)
  }

  /** The factor l*dt of the pressure update. */
  function PressureCoef(c: Config): (k: seq<real>)
    requires WellFormed(c)
    ensures |k| == c.nx
  {
    seq(c.nx, i requires 0 <= i < c.nx => c.l[i] * c.dt)
  }

  /** One iteration of the loop with source sample qn, in the source's order:
      inject qn at xscr, differentiate p, update vx, shift the pressure history,
      differentiate vx, update p, shift the velocity history. Afterwards each history
      is ordered newest to oldest: px2 holds the derivative just computed and px3 the
      px2 from before the iteration; the same for the velocity derivatives. */
  function Step(c: Config, qn: real, w: Wave): (r: Wave)
    requires WellFormed(c) && Shaped(w, c.nx)
    ensures Shaped(r, c.nx)
    ensures r.px2 == r.px && r.px3 == w.px2
    ensures r.vxx2 == r.vxx && r.vxx3 == w.vxx2
  {
    var p0 := w.p[c.xscr := w.p[c.xscr] + qn];
    var px := DiffForward(p0, w.px, c.invDx);
    var vx := Blend(w.vx, VelocityCoef(c), px, w.px2, w.px3);
    var vxx := DiffBackward(vx, w.vxx, c.invDx);
    var p := Blend(p0, PressureCoef(c), vxx, w.vxx2, w.vxx3);
    Wave(vx, p, px, px, w.px2, vxx, vxx, w.vxx2)
  }

  /** Step assembled from its stages, for callers that compute the stages one at a
      time (the in-place solver does). */
  lemma StepFromStages(c: Config, qn: real, w: Wave, p0: seq<real>, px: seq<real>,
                       vx: seq<real>, vxx: seq<real>, p: seq<real>)
    requires WellFormed(c) && Shaped(w, c.nx)
    requires p0 == w.p[c.xscr := w.p[c.xscr] + qn]
    requires px == DiffForward(p0, w.px, c.invDx)
    requires vx == Blend(w.vx, VelocityCoef(c), px, w.px2, w.px3)
    requires vxx == DiffBackward(vx, w.vxx, c.invDx)
    requires p == Blend(p0, PressureCoef(c), vxx, w.vxx2, w.vxx3)
    ensures Step(c, qn, w) == Wave(vx, p, px, px, w.px2, vxx, vxx, w.vxx2)
  {
    var r := Step(c, qn, w);
    assert r.px == px;
    assert r.vx == vx;
    assert r.vxx == vxx;
    assert r.p == p;
  }

  /** The state at the start of iteration n: all iterations 2 .. n-1 have run. */
  function StateBefore(c: Config, q: seq<real>, n: nat): (w: Wave)
    requires WellFormed(c) && (n <= 2 || n <= |q|)
    ensures Shaped(w, c.nx)
    decreases n, 0
  {
    if n <= 2 then ZeroWave(c.nx) else StateAfter(c, q, n - 1)
  }

  /** The state at the end of iteration k, which injects the source sample q[k]. */
  function StateAfter(c: Config, q: seq<real>, k: nat): (w: Wave)
    requires WellFormed(c) && 2 <= k < |q|
    ensures Shaped(w, c.nx)
    decreases k, 1
  {
    Step(c, q[k], StateBefore(c, q, k))
  }

  /** Seismogram entry (row r, column n): pressure at receiver r right after
      iteration n, which is the pressure there when iteration n+1 starts; columns 0
      and 1 are never written and stay zero. */
  function Trace(c: Config, q: seq<real>, r: nat, n: nat): (t: real)
    requires WellFormed(c) && r < 3 && n < |q|
    ensures n < 2 ==> t == 0.0
    ensures 2 <= n ==> t == StateBefore(c, q, n + 1).p[c.xrec[r]]
  {
    if n < 2 then 0.0 else StateAfter(c, q, n).p[c.xrec[r]]
  }

  /** Total source amplitude injected by iterations lo .. hi-1. */
  function SourceSum(q: seq<real>, lo: nat, hi: nat): (s: real)
    requires hi <= |q|
    decreases hi
  {
    if hi <= lo then 0.0 else SourceSum(q, lo, hi - 1) + q[hi - 1]
  }
}
