/** Properties of the time loop, stated and proved on the value-level model. */
module WaveProperties {
  import opened Stencil
  import opened Wavefield

  /** An iteration writes vx and p only on kx, apart from the source sample that
      lands on xscr; outside kx the derivative buffers only shift. */
  lemma StepWritesOnlyActive(c: Config, qn: real, w: Wave, i: int)
    requires WellFormed(c) && Shaped(w, c.nx)
    requires 0 <= i < c.nx && !Active(c.nx, i)
    ensures Step(c, qn, w).vx[i] == w.vx[i]
    ensures Step(c, qn, w).p[i] == w.p[i] + (if i == c.xscr then qn else 0.0)
    ensures Step(c, qn, w).px[i] == w.px[i] && Step(c, qn, w).vxx[i] == w.vxx[i]
  {
  }

  /** Over the run: before iteration n >= 4, px3 is the pressure derivative computed
      two iterations earlier (in iteration n-2); before iteration 3 it is still the
      zero it was allocated with, which is the multistep start-up approximation. */
  lemma HistoryLag(c: Config, q: seq<real>, n: nat)
    requires WellFormed(c) && 3 <= n <= |q|
    ensures StateBefore(c, q, n).px2 == StateBefore(c, q, n).px
    ensures StateBefore(c, q, n).vxx2 == StateBefore(c, q, n).vxx
    ensures n == 3 ==> StateBefore(c, q, n).px3 == Zeros(c.nx) && StateBefore(c, q, n).vxx3 == Zeros(c.nx)
    ensures n >= 4 ==> StateBefore(c, q, n).px3 == StateBefore(c, q, n - 1).px
    ensures n >= 4 ==> StateBefore(c, q, n).vxx3 == StateBefore(c, q, n - 1).vxx
  {
    if n >= 4 {
      HistoryLag(c, q, n - 1);
    }
  }

  /** Outside kx, vx and every derivative buffer stay zero for the whole run, and p
      stays zero except at the source index, which holds the sum of the samples
      q[2], .., q[n-1] injected so far. */
  lemma {:induction false} OutsideActive(c: Config, q: seq<real>, n: nat, i: int)
    requires WellFormed(c) && n <= |q|
    requires 0 <= i < c.nx && !Active(c.nx, i)
    ensures StateBefore(c, q, n).vx[i] == 0.0
    ensures StateBefore(c, q, n).p[i] == if i == c.xscr then SourceSum(q, 2, n) else 0.0
    ensures StateBefore(c, q, n).px[i] == 0.0 && StateBefore(c, q, n).px2[i] == 0.0
    ensures StateBefore(c, q, n).px3[i] == 0.0
    ensures StateBefore(c, q, n).vxx[i] == 0.0 && StateBefore(c, q, n).vxx2[i] == 0.0
    ensures StateBefore(c, q, n).vxx3[i] == 0.0
  {
    if n <= 2 {
      assert SourceSum(q, 2, n) == 0.0;
    } else {
      OutsideActive(c, q, n - 1, i);
      StepWritesOnlyActive(c, q[n - 1], StateBefore(c, q, n - 1), i);
    }
  }

  /** The samples q[0] and q[1] never reach the run: the loop starts at iteration 2,
      so two sources that agree from index 2 on give the same state before every
      iteration. */
  lemma {:induction false} FirstSamplesIgnored(c: Config, q: seq<real>, q2: seq<real>, n: nat)
    requires WellFormed(c) && |q2| == |q| && n <= |q|
    requires forall k :: 2 <= k < |q| ==> q2[k] == q[k]
    ensures StateBefore(c, q, n) == StateBefore(c, q2, n)
  {
    if n > 2 {
      FirstSamplesIgnored(c, q, q2, n - 1);
    }
  }

  /** A zero source sample leaves the all-zero state unchanged. */
  lemma StepOfZero(c: Config)
    requires WellFormed(c)
    ensures Step(c, 0.0, ZeroWave(c.nx)) == ZeroWave(c.nx)
  {
    var z := ZeroWave(c.nx);
    var r := Step(c, 0.0, z);
    assert z.p[c.xscr := z.p[c.xscr] + 0.0] == z.p;
    assert r.px == z.px;
    assert r.vx == z.vx;
    assert r.vxx == z.vxx;
    assert r.p == z.p;
  }

  /** Without a source the loop produces nothing: every buffer stays zero. */
  lemma {:induction false} ZeroSourceStaysZero(c: Config, q: seq<real>, n: nat)
    requires WellFormed(c) && n <= |q|
    requires forall k :: 0 <= k < |q| ==> q[k] == 0.0
    ensures StateBefore(c, q, n) == ZeroWave(c.nx)
  {
    if n > 2 {
      ZeroSourceStaysZero(c, q, n - 1);
      StepOfZero(c);
    }
  }

  /** Hence a source of zeros records an all-zero seismogram. */
  lemma ZeroSourceSilentSeismogram(c: Config, q: seq<real>, r: nat, n: nat)
    requires WellFormed(c) && r < 3 && n < |q|
    requires forall k :: 0 <= k < |q| ==> q[k] == 0.0
    ensures Trace(c, q, r, n) == 0.0
  {
    if n >= 2 {
      ZeroSourceStaysZero(c, q, n + 1);
    }
  }

  /** On a linear field both derivative passes give alpha/dx at every index of kx. */
  lemma DiffExactOnLinear(a: seq<real>, prev: seq<real>, invDx: real, alpha: real, beta: real, i: int)
    requires |prev| == |a| && IsLinear(a, alpha, beta) && Active(|a|, i)
    ensures DiffForward(a, prev, invDx)[i] == alpha * invDx
    ensures DiffBackward(a, prev, invDx)[i] == alpha * invDx
  {
    ForwardExactOnLinear(a, i, invDx, alpha, beta);
    BackwardExactOnLinear(a, i, invDx, alpha, beta);
  }

  /** On a constant field both derivative passes write zero on kx, and keep the
      previous derivative elsewhere. */
  lemma DiffOnConstant(a: seq<real>, prev: seq<real>, invDx: real, k: real, i: int)
    requires |prev| == |a| && 0 <= i < |a|
    requires forall j :: 0 <= j < |a| ==> a[j] == k
    ensures DiffForward(a, prev, invDx)[i] == if Active(|a|, i) then 0.0 else prev[i]
    ensures DiffBackward(a, prev, invDx)[i] == if Active(|a|, i) then 0.0 else prev[i]
  {
    if Active(|a|, i) {
      assert a[i - 2] == a[i - 1] == a[i] == a[i + 1] == a[i + 2] == k;
    }
  }

  /** A zero derivative history leaves the whole field unchanged. */
  lemma BlendZeroHistory(f: seq<real>, coef: seq<real>)
    requires |coef| == |f|
    ensures Blend(f, coef, Zeros(|f|), Zeros(|f|), Zeros(|f|)) == f
  {
  }

  /** With a constant history the Adams-Bashforth update reduces to an explicit
      Euler step f - coef * d. */
  lemma BlendConstantHistory(f: seq<real>, coef: seq<real>, d: seq<real>, i: int)
    requires |coef| == |f| && |d| == |f| && Active(|f|, i)
    ensures Blend(f, coef, d, d, d)[i] == f[i] - coef[i] * d[i]
  {
  }

  function AddSeq(a: seq<real>, b: seq<real>): (s: seq<real>)
    requires |a| == |b|
    ensures |s| == |a|
  {
    seq(|a|, i requires 0 <= i < |a| => a[i] + b[i])
  }

  function AddWave(w: Wave, v: Wave, nx: nat): (s: Wave)
    requires Shaped(w, nx) && Shaped(v, nx)
    ensures Shaped(s, nx)
  {
    Wave(AddSeq(w.vx, v.vx), AddSeq(w.p, v.p),
         AddSeq(w.px, v.px), AddSeq(w.px2, v.px2), AddSeq(w.px3, v.px3),
         AddSeq(w.vxx, v.vxx), AddSeq(w.vxx2, v.vxx2), AddSeq(w.vxx3, v.vxx3))
  }

  lemma DiffForwardAdd(a: seq<real>, b: seq<real>, pa: seq<real>, pb: seq<real>, invDx: real)
    requires |b| == |a| && |pa| == |a| && |pb| == |a|
    ensures DiffForward(AddSeq(a, b), AddSeq(pa, pb), invDx)
         == AddSeq(DiffForward(a, pa, invDx), DiffForward(b, pb, invDx))
  {
    var s, ps := AddSeq(a, b), AddSeq(pa, pb);
    forall i | 0 <= i < |a|
      ensures DiffForward(s, ps, invDx)[i] == DiffForward(a, pa, invDx)[i] + DiffForward(b, pb, invDx)[i]
    {
      if Active(|a|, i) {
        ForwardAdd(a, b, s, i, invDx);
      }
    }
  }

  lemma DiffBackwardAdd(a: seq<real>, b: seq<real>, pa: seq<real>, pb: seq<real>, invDx: real)
    requires |b| == |a| && |pa| == |a| && |pb| == |a|
    ensures DiffBackward(AddSeq(a, b), AddSeq(pa, pb), invDx)
         == AddSeq(DiffBackward(a, pa, invDx), DiffBackward(b, pb, invDx))
  {
    var s, ps := AddSeq(a, b), AddSeq(pa, pb);
    forall i | 0 <= i < |a|
      ensures DiffBackward(s, ps, invDx)[i] == DiffBackward(a, pa, invDx)[i] + DiffBackward(b, pb, invDx)[i]
    {
      if Active(|a|, i) {
        BackwardAdd(a, b, s, i, invDx);
      }
    }
  }

  lemma BlendAdd(f: seq<real>, g: seq<real>, coef: seq<real>,
                 d1: seq<real>, d2: seq<real>, d3: seq<real>,
                 e1: seq<real>, e2: seq<real>, e3: seq<real>)
    requires |g| == |f| && |coef| == |f|
    requires |d1| == |f| && |d2| == |f| && |d3| == |f|
    requires |e1| == |f| && |e2| == |f| && |e3| == |f|
    ensures Blend(AddSeq(f, g), coef, AddSeq(d1, e1), AddSeq(d2, e2), AddSeq(d3, e3))
         == AddSeq(Blend(f, coef, d1, d2, d3), Blend(g, coef, e1, e2, e3))
  {
    var lhs := Blend(AddSeq(f, g), coef, AddSeq(d1, e1), AddSeq(d2, e2), AddSeq(d3, e3));
    var rhs := AddSeq(Blend(f, coef, d1, d2, d3), Blend(g, coef, e1, e2, e3));
    forall i | 0 <= i < |f|
      ensures lhs[i] == rhs[i]
    {
      if Active(|f|, i) {
        var x, y := AdamsBashforth(d1[i], d2[i], d3[i]), AdamsBashforth(e1[i], e2[i], e3[i]);
        AdamsBashforthAdd(d1[i], d2[i], d3[i], e1[i], e2[i], e3[i]);
        assert lhs[i] == (f[i] + g[i]) - coef[i] * (x + y);
        assert coef[i] * (x + y) == coef[i] * x + coef[i] * y;
      }
    }
  }

  /** Each stage of an iteration is additive: the stages computed from a summed
      state and sample are the sums of the stages of the two parts. */
  lemma StagesAdd(c: Config, a: real, b: real, w: Wave, v: Wave, s: Wave,
                  p0w: seq<real>, p0v: seq<real>, p0s: seq<real>,
                  pxw: seq<real>, pxv: seq<real>, pxs: seq<real>,
                  vxw: seq<real>, vxv: seq<real>, vxs: seq<real>,
                  vxxw: seq<real>, vxxv: seq<real>, vxxs: seq<real>,
                  pw: seq<real>, pv: seq<real>, ps: seq<real>)
    requires WellFormed(c) && Shaped(w, c.nx) && Shaped(v, c.nx) && s == AddWave(w, v, c.nx)
    requires p0w == w.p[c.xscr := w.p[c.xscr] + a] && p0v == v.p[c.xscr := v.p[c.xscr] + b]
    requires p0s == s.p[c.xscr := s.p[c.xscr] + (a + b)]
    requires pxw == DiffForward(p0w, w.px, c.invDx) && pxv == DiffForward(p0v, v.px, c.invDx)
    requires pxs == DiffForward(p0s, s.px, c.invDx)
    requires vxw == Blend(w.vx, VelocityCoef(c), pxw, w.px2, w.px3)
    requires vxv == Blend(v.vx, VelocityCoef(c), pxv, v.px2, v.px3)
    requires vxs == Blend(s.vx, VelocityCoef(c), pxs, s.px2, s.px3)
    requires vxxw == DiffBackward(vxw, w.vxx, c.invDx) && vxxv == DiffBackward(vxv, v.vxx, c.invDx)
    requires vxxs == DiffBackward(vxs, s.vxx, c.invDx)
    requires pw == Blend(p0w, PressureCoef(c), vxxw, w.vxx2, w.vxx3)
    requires pv == Blend(p0v, PressureCoef(c), vxxv, v.vxx2, v.vxx3)
    requires ps == Blend(p0s, PressureCoef(c), vxxs, s.vxx2, s.vxx3)
    ensures p0s == AddSeq(p0w, p0v) && pxs == AddSeq(pxw, pxv) && vxs == AddSeq(vxw, vxv)
    ensures vxxs == AddSeq(vxxw, vxxv) && ps == AddSeq(pw, pv)
  {
    assert p0s == AddSeq(p0w, p0v);
    DiffForwardAdd(p0w, p0v, w.px, v.px, c.invDx);
    BlendAdd(w.vx, v.vx, VelocityCoef(c), pxw, w.px2, w.px3, pxv, v.px2, v.px3);
    DiffBackwardAdd(vxw, vxv, w.vxx, v.vxx, c.invDx);
    BlendAdd(p0w, p0v, PressureCoef(c), vxxw, w.vxx2, w.vxx3, vxxv, v.vxx2, v.vxx3);
  }

  /** One iteration is additive in the state and the source sample together: each of
      its stages (injection, both derivative passes, both Adams-Bashforth blends) is. */
  lemma StepAdd(c: Config, a: real, b: real, w: Wave, v: Wave)
    requires WellFormed(c) && Shaped(w, c.nx) && Shaped(v, c.nx)
    ensures Step(c, a + b, AddWave(w, v, c.nx)) == AddWave(Step(c, a, w), Step(c, b, v), c.nx)
  {
    var s := AddWave(w, v, c.nx);
    var p0w, p0v := w.p[c.xscr := w.p[c.xscr] + a], v.p[c.xscr := v.p[c.xscr] + b];
    var p0s := s.p[c.xscr := s.p[c.xscr] + (a + b)];
    var pxw, pxv := DiffForward(p0w, w.px, c.invDx), DiffForward(p0v, v.px, c.invDx);
    var pxs := DiffForward(p0s, s.px, c.invDx);
    var vxw := Blend(w.vx, VelocityCoef(c), pxw, w.px2, w.px3);
    var vxv := Blend(v.vx, VelocityCoef(c), pxv, v.px2, v.px3);
    var vxs := Blend(s.vx, VelocityCoef(c), pxs, s.px2, s.px3);
    var vxxw, vxxv := DiffBackward(vxw, w.vxx, c.invDx), DiffBackward(vxv, v.vxx, c.invDx);
    var vxxs := DiffBackward(vxs, s.vxx, c.invDx);
    var pw := Blend(p0w, PressureCoef(c), vxxw, w.vxx2, w.vxx3);
    var pv := Blend(p0v, PressureCoef(c), vxxv, v.vxx2, v.vxx3);
    var ps := Blend(p0s, PressureCoef(c), vxxs, s.vxx2, s.vxx3);
    StagesAdd(c, a, b, w, v, s, p0w, p0v, p0s, pxw, pxv, pxs, vxw, vxv, vxs,
              vxxw, vxxv, vxxs, pw, pv, ps);
    StepFromStages(c, a, w, p0w, pxw, vxw, vxxw, pw);
    StepFromStages(c, b, v, p0v, pxv, vxv, vxxv, pv);
    StepFromStages(c, a + b, s, p0s, pxs, vxs, vxxs, ps);
  }

  /** Superposition: running with the sum of two source series gives, before every
      iteration, the sum of the two runs. Every update of the loop is additive. */
  lemma {:induction false} Superposition(c: Config, q1: seq<real>, q2: seq<real>, n: nat)
    requires WellFormed(c) && |q2| == |q1| && n <= |q1|
    ensures StateBefore(c, AddSeq(q1, q2), n)
         == AddWave(StateBefore(c, q1, n), StateBefore(c, q2, n), c.nx)
  {
    if n <= 2 {
      assert AddSeq(Zeros(c.nx), Zeros(c.nx)) == Zeros(c.nx);
    } else {
      var q := AddSeq(q1, q2);
      var w1, w2 := StateBefore(c, q1, n - 1), StateBefore(c, q2, n - 1);
      var a, b := q1[n - 1], q2[n - 1];
      assert StateBefore(c, q, n) == Step(c, a + b, AddWave(w1, w2, c.nx)) by {
        Superposition(c, q1, q2, n - 1);
        assert q[n - 1] == a + b;
      }
      assert StateBefore(c, q1, n) == Step(c, a, w1);
      assert StateBefore(c, q2, n) == Step(c, b, w2);
      StepAdd(c, a, b, w1, w2);
    }
  }
}
