/** The time loop of FD_1D_DX4_DT3_ABS_fast.py as an object that owns the
    wavefield arrays and updates them in place. Each array pass is a method with a
    loop over kx, proved against the value-level model in module Wavefield. */
module Simulation {
  import opened Stencil
  import opened Wavefield
  import opened WaveProperties

  /** `dst[kx] = forward stencil of src` (the pressure-derivative line). */
  method ForwardPass(dst: array<real>, src: array<real>, invDx: real)
    requires dst != src && dst.Length == src.Length
    modifies dst
    ensures dst[..] == DiffForward(src[..], old(dst[..]), invDx)
  {
    var nx := src.Length;
    var k := 5;
    while k < nx - 5
      invariant 5 <= k && (k <= nx - 5 || k == 5)
      invariant forall i :: 0 <= i < nx ==>
        dst[i] == if 5 <= i < k then Forward(src[..], i, invDx) else old(dst[i])
    {
      dst[k] := invDx * 9.0 / 8.0 * (src[k + 1] - src[k]) - invDx * 1.0 / 24.0 * (src[k + 2] - src[k - 1]);
      k := k + 1;
    }
  }

  /** `dst[kx] = backward stencil of src` (the velocity-derivative line). */
  method BackwardPass(dst: array<real>, src: array<real>, invDx: real)
    requires dst != src && dst.Length == src.Length
    modifies dst
    ensures dst[..] == DiffBackward(src[..], old(dst[..]), invDx)
  {
    var nx := src.Length;
    var k := 5;
    while k < nx - 5
      invariant 5 <= k && (k <= nx - 5 || k == 5)
      invariant forall i :: 0 <= i < nx ==>
        dst[i] == if 5 <= i < k then Backward(src[..], i, invDx) else old(dst[i])
    {
      dst[k] := invDx * 9.0 / 8.0 * (src[k] - src[k - 1]) - invDx * 1.0 / 24.0 * (src[k + 1] - src[k - 2]);
      k := k + 1;
    }
  }

  /** `f[kx] = f[kx] - coef[kx] * (25/24 d1[kx] - 1/12 d2[kx] + 1/24 d3[kx])`. */
  method BlendPass(f: array<real>, coef: seq<real>, d1: array<real>, d2: array<real>, d3: array<real>)
    requires f != d1 && f != d2 && f != d3
    requires |coef| == f.Length && d1.Length == f.Length && d2.Length == f.Length && d3.Length == f.Length
    modifies f
    ensures f[..] == Blend(old(f[..]), coef, d1[..], d2[..], d3[..])
  {
    var nx := f.Length;
    var k := 5;
    while k < nx - 5
      invariant 5 <= k && (k <= nx - 5 || k == 5)
      invariant forall i :: 0 <= i < nx ==>
        f[i] == if 5 <= i < k then old(f[i]) - coef[i] * AdamsBashforth(d1[i], d2[i], d3[i]) else old(f[i])
    {
      f[k] := f[k] - coef[k] * (25.0 / 24.0 * d1[k] - 1.0 / 12.0 * d2[k] + 1.0 / 24.0 * d3[k]);
      k := k + 1;
    }
    ghost var g := Blend(old(f[..]), coef, d1[..], d2[..], d3[..]);
    assert |g| == nx && forall i :: 0 <= i < nx ==> f[i] == g[i];
  }

  /** numpy's copyto(dst, src): every element of src copied into dst. */
  method CopyTo(dst: array<real>, src: array<real>)
    requires dst != src && dst.Length == src.Length
    modifies dst
    ensures dst[..] == src[..]
  {
    var k := 0;
    while k < src.Length
      invariant 0 <= k <= src.Length
      invariant dst[..k] == src[..k]
    {
      dst[k] := src[k];
      k := k + 1;
    }
  }

  /** A freshly allocated array of nx zeros, as numpy's zeros(nx). */
  method NewZeros(nx: nat) returns (a: array<real>)
    ensures fresh(a) && a[..] == Zeros(nx)
  {
    a := new real[nx](_ => 0.0);
  }

  /** A freshly allocated 3 x nt seismogram of zeros. */
  method NewSeismogram(nt: nat) returns (s: array2<real>)
    ensures fresh(s) && s.Length0 == 3 && s.Length1 == nt
    ensures forall r, n :: 0 <= r < 3 && 0 <= n < nt ==> s[r, n] == 0.0
  {
    s := new real[3, nt]((_, _) => 0.0);
  }

  class Solver {
    const cfg: Config
    /** The source series q, one sample per time step; nt = |q|. */
    const q: seq<real>
    const vx: array<real>
    const p: array<real>
    const px: array<real>
    const px2: array<real>
    const px3: array<real>
    const vxx: array<real>
    const vxx2: array<real>
    const vxx3: array<real>
    /** Seismogramm: three rows (receivers), nt columns (time steps). */
    const seis: array2<real>

    ghost predicate Valid()
    {
      WellFormed(cfg) && Sized() && Distinct()
    }

    /** Every buffer has nx cells; the seismogram is 3 x nt. */
    ghost predicate Sized()
    {
      && vx.Length == cfg.nx && p.Length == cfg.nx
      && px.Length == cfg.nx && px2.Length == cfg.nx && px3.Length == cfg.nx
      && vxx.Length == cfg.nx && vxx2.Length == cfg.nx && vxx3.Length == cfg.nx
      && seis.Length0 == 3 && seis.Length1 == |q|
    }

    /** The eight buffers are separate arrays (numpy's zeros allocates each anew). */
    ghost predicate Distinct()
    {
      && vx != p && vx != px && vx != px2 && vx != px3 && vx != vxx && vx != vxx2 && vx != vxx3
      && p != px && p != px2 && p != px3 && p != vxx && p != vxx2 && p != vxx3
      && px != px2 && px != px3 && px != vxx && px != vxx2 && px != vxx3
      && px2 != px3 && px2 != vxx && px2 != vxx2 && px2 != vxx3
      && px3 != vxx && px3 != vxx2 && px3 != vxx3
      && vxx != vxx2 && vxx != vxx3
      && vxx2 != vxx3
    }

    /** The field and history buffers as a value. */
    ghost function Fields(): Wave
      reads vx, p, px, px2, px3, vxx, vxx2, vxx3
    {
      Wave(vx[..], p[..], px[..], px2[..], px3[..], vxx[..], vxx2[..], vxx3[..])
    }

    /** Set-up before the loop: i_dx = 1/dx, l = rho*v*v, every wavefield and history
        buffer a newly allocated array of zeros, the 3 x nt seismogram zero. */
    constructor (nx: nat, dx: real, dt: real, v: seq<real>, rho: seq<real>,
                 q: seq<real>, xscr: nat, xrec: seq<nat>)
      requires dx != 0.0 && |v| == nx && |rho| == nx
      requires forall i :: Active(nx, i) ==> rho[i] != 0.0
      requires xscr < nx && |xrec| == 3 && forall r :: 0 <= r < 3 ==> xrec[r] < nx
      ensures Valid()
      ensures fresh(vx) && fresh(p) && fresh(px) && fresh(px2) && fresh(px3)
      ensures fresh(vxx) && fresh(vxx2) && fresh(vxx3) && fresh(seis)
      ensures cfg == Config(nx, 1.0 / dx, dt, rho, Lame(rho, v), xscr, xrec) && this.q == q
      ensures Fields() == ZeroWave(nx)
      ensures forall r, n :: 0 <= r < 3 && 0 <= n < |q| ==> seis[r, n] == 0.0
    {
      cfg := Config(nx, 1.0 / dx, dt, rho, Lame(rho, v), xscr, xrec);
      this.q := q;
      var vx0 := NewZeros(nx);
      var p0 := NewZeros(nx);
      var px0 := NewZeros(nx);
      var px20 := NewZeros(nx);
      var px30 := NewZeros(nx);
      var vxx0 := NewZeros(nx);
      var vxx20 := NewZeros(nx);
      var vxx30 := NewZeros(nx);
      var seis0 := NewSeismogram(|q|);
      vx, p, px, px2, px3 := vx0, p0, px0, px20, px30;
      vxx, vxx2, vxx3, seis := vxx0, vxx20, vxx30, seis0;
    }

    /** First half of iteration n: inject q[n] at xscr, differentiate p into px,
        update vx with the Adams-Bashforth blend of px, px2, px3, shift the
        pressure-derivative history. */
    method AdvanceVelocity(n: nat)
      requires Valid() && n < |q|
      modifies p, px, vx, px2, px3
      ensures p[..] == old(p[..])[cfg.xscr := old(p[cfg.xscr]) + q[n]]
      ensures px[..] == DiffForward(p[..], old(px[..]), cfg.invDx)
      ensures vx[..] == Blend(old(vx[..]), VelocityCoef(cfg), px[..], old(px2[..]), old(px3[..]))
      ensures px2[..] == px[..] && px3[..] == old(px2[..])
    {
      // line 120: the source sample enters the pressure at xscr
      p[cfg.xscr] := p[cfg.xscr] + q[n];
      // line 123: pressure derivative
      ForwardPass(px, p, cfg.invDx);
      // line 126: velocity update
      BlendPass(vx, VelocityCoef(cfg), px, px2, px3);
      // lines 129-130: the pressure-derivative history moves back one slot
      CopyTo(px3, px2);
      CopyTo(px2, px);
    }

    /** Second half of an iteration: differentiate vx into vxx, update p with the
        Adams-Bashforth blend of vxx, vxx2, vxx3, shift the velocity-derivative
        history. */
    method AdvancePressure()
      requires Valid()
      modifies vxx, p, vxx2, vxx3
      ensures vxx[..] == DiffBackward(vx[..], old(vxx[..]), cfg.invDx)
      ensures p[..] == Blend(old(p[..]), PressureCoef(cfg), vxx[..], old(vxx2[..]), old(vxx3[..]))
      ensures vxx2[..] == vxx[..] && vxx3[..] == old(vxx2[..])
    {
      // line 133: velocity derivative
      BackwardPass(vxx, vx, cfg.invDx);
      // line 136: pressure update
      BlendPass(p, PressureCoef(cfg), vxx, vxx2, vxx3);
      // lines 139-140: the velocity-derivative history moves back one slot
      CopyTo(vxx3, vxx2);
      CopyTo(vxx2, vxx);
    }

    /** Column n of the seismogram receives p at the three receivers. */
    method Record(n: nat)
      requires Valid() && n < |q|
      modifies seis
      ensures forall r, k :: 0 <= r < 3 && 0 <= k < |q| ==>
        seis[r, k] == if k == n then p[cfg.xrec[r]] else old(seis[r, k])
    {
      seis[0, n] := p[cfg.xrec[0]];
      seis[1, n] := p[cfg.xrec[1]];
      seis[2, n] := p[cfg.xrec[2]];
    }

    /** One iteration n of the loop: the new wavefield is Wavefield.Step of the old
        one with sample q[n], column n of the seismogram receives the new pressure at
        the three receivers, and no other column changes. */
    method Step(n: nat)
      requires Valid() && 2 <= n < |q|
      modifies vx, p, px, px2, px3, vxx, vxx2, vxx3, seis
      ensures Fields() == Wavefield.Step(cfg, q[n], old(Fields()))
      ensures forall r, k :: 0 <= r < 3 && 0 <= k < |q| ==>
        seis[r, k] == if k == n then p[cfg.xrec[r]] else old(seis[r, k])
    {
      ghost var w := Fields();
      AdvanceVelocity(n);
      ghost var v := Fields();
      AdvancePressure();
      ghost var u := Fields();
      StepFromStages(cfg, q[n], w, v.p, v.px, v.vx, u.vxx, u.p);
      assert u == Wave(v.vx, u.p, v.px, v.px, w.px2, u.vxx, u.vxx, w.vxx2);
      Record(n);
      assert Fields() == u;
    }

    /** Columns before n hold the model's trace, columns from n on are still zero. */
    ghost predicate RecordedUpTo(n: nat)
      requires WellFormed(cfg)
      reads seis
    {
      && seis.Length0 == 3 && seis.Length1 == |q|
      && forall r, k :: 0 <= r < 3 && 0 <= k < |q| ==>
           seis[r, k] == if k < n then Trace(cfg, q, r, k) else 0.0
    }

    /** The state before iteration n of a run from the zero state. */
    ghost predicate Reached(n: nat)
      reads vx, p, px, px2, px3, vxx, vxx2, vxx3, seis
    {
      && Valid() && 2 <= n && (n <= |q| || n == 2)
      && Fields() == StateBefore(cfg, q, n) && RecordedUpTo(n)
    }

    /** Iteration n continues a run that started from the zero state: the state and
        the seismogram move from "before iteration n" to "before iteration n+1". */
    method Iterate(n: nat)
      requires Reached(n) && n < |q|
      modifies vx, p, px, px2, px3, vxx, vxx2, vxx3, seis
      ensures Reached(n + 1)
    {
      ghost var before := StateBefore(cfg, q, n);
      Step(n);
      assert StateBefore(cfg, q, n + 1) == Wavefield.Step(cfg, q[n], before);
      forall r | 0 <= r < 3
        ensures seis[r, n] == Trace(cfg, q, r, n)
      {
        assert seis[r, n] == p[..][cfg.xrec[r]];
      }
    }

    /** The loop `for n in range(2, nt)` from the zero state: afterwards the
        wavefield is the model state after the last iteration, and every seismogram
        entry is Wavefield.Trace, so columns 0 and 1 stay zero. */
    method Run()
      requires Valid() && Fields() == ZeroWave(cfg.nx)
      requires forall r, n :: 0 <= r < 3 && 0 <= n < |q| ==> seis[r, n] == 0.0
      modifies vx, p, px, px2, px3, vxx, vxx2, vxx3, seis
      ensures Fields() == StateBefore(cfg, q, if |q| < 2 then 2 else |q|)
      ensures RecordedUpTo(|q|)
      ensures forall r :: 0 <= r < 3 && 2 <= |q| ==> seis[r, 0] == 0.0 && seis[r, 1] == 0.0
    {
      var n := 2;
      while n < |q|
        invariant Reached(n)
      {
        Iterate(n);
        n := n + 1;
      }
      forall r | 0 <= r < 3 && 2 <= |q|
        ensures seis[r, 0] == 0.0 && seis[r, 1] == 0.0
      {
        assert seis[r, 0] == Trace(cfg, q, r, 0);
        assert seis[r, 1] == Trace(cfg, q, r, 1);
      }
    }
  }

  /** The script from set-up to the end of the time loop: allocate the buffers and
      the seismogram, then run every iteration. Each entry of the returned
      seismogram is the model's trace; with a silent source it is all zero. */
  method Simulate(nx: nat, dx: real, dt: real, v: seq<real>, rho: seq<real>,
                  q: seq<real>, xscr: nat, xrec: seq<nat>) returns (seis: array2<real>)
    requires dx != 0.0 && |v| == nx && |rho| == nx
    requires forall i :: Active(nx, i) ==> rho[i] != 0.0
    requires xscr < nx && |xrec| == 3 && forall r :: 0 <= r < 3 ==> xrec[r] < nx
    ensures seis.Length0 == 3 && seis.Length1 == |q|
    ensures WellFormed(Config(nx, 1.0 / dx, dt, rho, Lame(rho, v), xscr, xrec))
    ensures forall r, n :: 0 <= r < 3 && 0 <= n < |q| ==>
      seis[r, n] == Trace(Config(nx, 1.0 / dx, dt, rho, Lame(rho, v), xscr, xrec), q, r, n)
    ensures (forall k :: 0 <= k < |q| ==> q[k] == 0.0) ==>
      forall r, n :: 0 <= r < 3 && 0 <= n < |q| ==> seis[r, n] == 0.0
  {
    var s := new Solver(nx, dx, dt, v, rho, q, xscr, xrec);
    s.Run();
    seis := s.seis;
    if forall k :: 0 <= k < |q| ==> q[k] == 0.0 {
      forall r, n | 0 <= r < 3 && 0 <= n < |q|
        ensures seis[r, n] == 0.0
      {
        ZeroSourceSilentSeismogram(s.cfg, q, r, n);
      }
    }
  }
}
