/** coeff(order) of FD_taylor_coeff_func.py: the coefficients b_1 .. b_{order/2} of
    the staggered first-derivative stencil
      p_x = 1/dx * sum_k b_k * (p(x+k) - p(x-k+1))
    are the solution of the linear system M b = c, where row j of M holds the odd
    powers (2k-1)^(2j-1) and c is the first unit vector. The function validates
    `order`, builds M and c, and hands them to a linear solver. */
module TaylorCoeff {
  import opened Stencil

  datatype Result<T, E> = Success(value: T) | Failure(error: E)

  /** Why coeff produces no coefficients. NotEven and BelowFourth are the two
      checks the function makes itself (it prints an error and returns None);
      NegativeDimension is numpy refusing the negative array size that a
      non-positive even order leads to; EntryOverflow is the conversion of an
      entry of M to a float failing because the integer is beyond the float range. */
  datatype CoeffError = NotEven | BelowFourth | NegativeDimension | EntryOverflow

  /** The system M b = c handed to the solver. */
  datatype System = System(m: array2<real>, c: array<real>)

  function IntPow(base: int, e: nat): (p: int)
  {
    if e == 0 then 1 else base * IntPow(base, e - 1)
  }

  /** Entry (j, n) of M as the integer the code computes, 0-based: (2n+1)^(2j+1). */
  function EntryValue(j: nat, n: nat): (v: int)
  {
    IntPow(2 * n + 1, 2 * j + 1)
  }

  /** Entry (j, n) of M once stored in the float matrix. */
  function Entry(j: nat, n: nat): (m: real)
  {
    EntryValue(j, n) as real
  }

  /** The least integer that does not convert to an IEEE-754 double: 2^1024 - 2^970,
      the midpoint between the largest double and 2^1024, which rounds up (ties to
      even) and so overflows. */
  const FloatLimit: int := 179769313486231580793728971405303415079934132710037826936173778980444968292764750946649017977587207096330286416692887910946555547851940402630657488671505820681908902000708383676273854845817711531764475730270069855571366959622842914819860834936475292719074168444365510704342711559699508093042880177904174497792

  /** Some entry of the h x h matrix M is too large to be stored as a float. */
  ghost predicate TooLarge(h: nat)
  {
    exists j, n :: 0 <= j < h && 0 <= n < h && EntryValue(j, n) >= FloatLimit
  }

  /** Validation and construction of M and c. On success M is (order/2) x (order/2)
      with M[j, n] = (2n+1)^(2j+1) (0-based; row 0 holds 2n+1), and c = [1, 0, .., 0].
      Writing an entry beyond the float range raises, which ends the construction. */
  method CoeffSystem(order: int) returns (r: Result<System, CoeffError>)
    ensures r == Failure(NotEven) <==> order % 2 != 0
    ensures r == Failure(BelowFourth) <==> order == 2
    ensures r == Failure(NegativeDimension) <==> order % 2 == 0 && order <= 0
    ensures r == Failure(EntryOverflow) <==> order % 2 == 0 && order >= 4 && TooLarge(order / 2)
    ensures r.Success? <==> order % 2 == 0 && order >= 4 && !TooLarge(order / 2)
    ensures r.Success? ==>
      && r.value.m.Length0 == order / 2 && r.value.m.Length1 == order / 2
      && r.value.c.Length == order / 2
      && (forall j, n :: 0 <= j < order / 2 && 0 <= n < order / 2 ==> r.value.m[j, n] == Entry(j, n))
      && (forall k :: 0 <= k < order / 2 ==> r.value.c[k] == if k == 0 then 1.0 else 0.0)
  {
    if order % 2 != 0 {
      return Failure(NotEven);
    }
    if order == 2 {
      return Failure(BelowFourth);
    }
    if order <= 0 {
      return Failure(NegativeDimension);
    }
    var h := order / 2;
    var c := new real[h](k => if k == 0 then 1.0 else 0.0);
    var m := new real[h, h]((_, _) => 0.0);
    var ok := FillFirstRow(m);
    if !ok {
      var n :| 0 <= n < h && EntryValue(0, n) >= FloatLimit;
      return Failure(EntryOverflow);
    }
    // lines 33-35: rows 1 .. h-1, with the source's 1-based j
    var j := 2;
    while j < h + 1
      invariant 2 <= j <= h + 1
      modifies m
      invariant forall a, k :: 0 <= a < h && 0 <= k < h ==>
        m[a, k] == if a < j - 1 then Entry(a, k) else 0.0
      invariant forall a, k :: 0 <= a < j - 1 && 0 <= k < h ==> EntryValue(a, k) < FloatLimit
    {
      ok := FillRow(m, j);
      if !ok {
        var n :| 0 <= n < h && EntryValue(j - 1, n) >= FloatLimit;
        return Failure(EntryOverflow);
      }
      j := j + 1;
    }
    return Success(System(m, c));
  }

  /** Every entry of row r of the h x h matrix M converts to a float. */
  ghost predicate RowFits(r: nat, h: nat)
  {
    forall k :: 0 <= k < h ==> EntryValue(r, k) < FloatLimit
  }

  /** Lines 30-31: row 0 of the zeroed square matrix m receives the odd numbers 2n-1
      (1-based n). It stops, reporting false, at an entry beyond the float range. */
  method FillFirstRow(m: array2<real>) returns (ok: bool)
    requires 1 <= m.Length0 && m.Length1 == m.Length0
    requires forall a, k :: 0 <= a < m.Length0 && 0 <= k < m.Length1 ==> m[a, k] == 0.0
    modifies m
    ensures ok <==> RowFits(0, m.Length1)
    ensures ok ==> forall a, k :: 0 <= a < m.Length0 && 0 <= k < m.Length1 ==>
      m[a, k] == if a == 0 then Entry(0, k) else 0.0
  {
    var h := m.Length1;
    var n := 1;
    while n < h + 1
      invariant 1 <= n <= h + 1
      invariant forall a, k :: 0 <= a < h && 0 <= k < h ==>
        m[a, k] == if a == 0 && k < n - 1 then Entry(0, k) else 0.0
      invariant forall k :: 0 <= k < n - 1 ==> EntryValue(0, k) < FloatLimit
    {
      assert IntPow(2 * n - 1, 1) == 2 * n - 1;
      assert EntryValue(0, n - 1) == 2 * n - 1;
      if 2 * n - 1 >= FloatLimit {
        return false;
      }
      m[0, n - 1] := (2 * n - 1) as real;
      n := n + 1;
    }
    return true;
  }

  /** Line 35 for one j (1-based, 2 <= j <= h): row j-1 of m receives (2n-1)^(2j-1),
      rows before it already hold their entries and rows after it are still zero. It
      stops, reporting false, at an entry beyond the float range. */
  method FillRow(m: array2<real>, j: int) returns (ok: bool)
    requires 2 <= j <= m.Length0 && m.Length1 == m.Length0
    requires forall a, k :: 0 <= a < m.Length0 && 0 <= k < m.Length1 ==>
      m[a, k] == if a < j - 1 then Entry(a, k) else 0.0
    modifies m
    ensures ok <==> RowFits(j - 1, m.Length1)
    ensures ok ==> forall a, k :: 0 <= a < m.Length0 && 0 <= k < m.Length1 ==>
      m[a, k] == if a < j then Entry(a, k) else 0.0
  {
    var h := m.Length1;
    var row: nat := j - 1;
    var n := 1;
    while n < h + 1
      invariant 1 <= n <= h + 1
      invariant forall a, k :: 0 <= a < h && 0 <= k < h ==>
        m[a, k] == if a < row || (a == row && k < n - 1) then Entry(a, k) else 0.0
      invariant forall k :: 0 <= k < n - 1 ==> EntryValue(row, k) < FloatLimit
    {
      var v := IntPow(2 * n - 1, 2 * j - 1);
      assert EntryValue(j - 1, n - 1) == v;
      if v >= FloatLimit {
        return false;
      }
      m[j - 1, n - 1] := v as real;
      n := n + 1;
    }
    return true;
  }

  /** The powers of a base of at least 1 grow with the exponent. */
  lemma {:induction false} IntPowGrowsWithExponent(b: int, e1: nat, e2: nat)
    requires 1 <= b && e1 <= e2
    ensures 1 <= IntPow(b, e1) <= IntPow(b, e2)
    decreases e2
  {
    if e2 > 0 {
      if e1 == e2 {
        IntPowGrowsWithExponent(b, e1 - 1, e1 - 1);
      } else {
        IntPowGrowsWithExponent(b, e1, e2 - 1);
      }
      MulNonNeg(b - 1, IntPow(b, e2 - 1));
    }
  }

  /** A power grows with its (non-negative) base. */
  lemma {:induction false} IntPowGrowsWithBase(a: int, b: int, e: nat)
    requires 0 <= a <= b
    ensures 0 <= IntPow(a, e) <= IntPow(b, e)
  {
    if e > 0 {
      IntPowGrowsWithBase(a, b, e - 1);
      var x, y := IntPow(a, e - 1), IntPow(b, e - 1);
      MulNonNeg(a, x);
      MulNonNeg(b - a, x);
      MulNonNeg(b, y - x);
    }
  }

  lemma MulNonNeg(x: int, y: int)
    requires 0 <= x && 0 <= y
    ensures 0 <= x * y
  {
  }

  lemma {:induction false} IntPowAdd(b: int, e1: nat, e2: nat)
    ensures IntPow(b, e1 + e2) == IntPow(b, e1) * IntPow(b, e2)
  {
    if e1 > 0 {
      IntPowAdd(b, e1 - 1, e2);
      assert IntPow(b, e1 + e2) == b * IntPow(b, e1 - 1 + e2);
    }
  }

  /** 143^143 is below the float limit: it converts. */
  lemma LargestStorable()
    ensures EntryValue(71, 71) < FloatLimit
  {
    var p1 := IntPow(143, 1);
    assert p1 == 143;
    IntPowAdd(143, 1, 1);
    var p2 := IntPow(143, 2);
    assert p2 == 20449;
    IntPowAdd(143, 2, 2);
    var p4 := IntPow(143, 4);
    assert p4 == p2 * p2;
    IntPowAdd(143, 4, 4);
    var p8 := IntPow(143, 8);
    assert p8 == p4 * p4;
    IntPowAdd(143, 8, 8);
    var p16 := IntPow(143, 16);
    assert p16 == p8 * p8;
    IntPowAdd(143, 16, 16);
    var p32 := IntPow(143, 32);
    assert p32 == p16 * p16;
    IntPowAdd(143, 32, 32);
    var p64 := IntPow(143, 64);
    assert p64 == p32 * p32;
    IntPowAdd(143, 64, 64);
    var p128 := IntPow(143, 128);
    assert p128 == p64 * p64;
    IntPowAdd(143, 128, 8);
    IntPowAdd(143, 136, 4);
    IntPowAdd(143, 140, 2);
    IntPowAdd(143, 142, 1);
    assert IntPow(143, 143) == p128 * p8 * p4 * p2 * p1;
  }

  /** 145^145 is beyond the float limit: it does not convert. */
  lemma SmallestUnstorable()
    ensures EntryValue(72, 72) >= FloatLimit
  {
    var p1 := IntPow(145, 1);
    assert p1 == 145;
    IntPowAdd(145, 1, 1);
    var p2 := IntPow(145, 2);
    assert p2 == 21025;
    IntPowAdd(145, 2, 2);
    var p4 := IntPow(145, 4);
    assert p4 == p2 * p2;
    IntPowAdd(145, 4, 4);
    var p8 := IntPow(145, 8);
    assert p8 == p4 * p4;
    IntPowAdd(145, 8, 8);
    var p16 := IntPow(145, 16);
    assert p16 == p8 * p8;
    IntPowAdd(145, 16, 16);
    var p32 := IntPow(145, 32);
    assert p32 == p16 * p16;
    IntPowAdd(145, 32, 32);
    var p64 := IntPow(145, 64);
    assert p64 == p32 * p32;
    IntPowAdd(145, 64, 64);
    var p128 := IntPow(145, 128);
    assert p128 == p64 * p64;
    IntPowAdd(145, 128, 16);
    IntPowAdd(145, 144, 1);
    assert IntPow(145, 145) == p128 * p16 * p1;
  }

  /** coeff fails on an entry beyond the float range exactly from order 146 on: the
      largest entry of M is its last, (order-1)^(order-1), and 143^143 still converts
      while 145^145 does not. */
  lemma OverflowThreshold(order: int)
    requires order % 2 == 0 && order >= 4
    ensures TooLarge(order / 2) <==> order >= 146
  {
    var h := order / 2;
    if order >= 146 {
      SmallestUnstorable();
      assert 72 < h;
    } else {
      forall j, n | 0 <= j < h && 0 <= n < h
        ensures EntryValue(j, n) < FloatLimit
      {
        IntPowGrowsWithBase(2 * n + 1, 143, 2 * j + 1);
        IntPowGrowsWithExponent(143, 2 * j + 1, 143);
        LargestStorable();
      }
    }
  }

  /** Row j of M b over the first k coefficients: sum_{t<k} b[t] (2t+1)^(2j+1). */
  function RowTimes(b: seq<real>, j: nat, k: nat): (s: real)
    requires k <= |b|
  {
    if k == 0 then 0.0 else RowTimes(b, j, k - 1) + b[k - 1] * Entry(j, k - 1)
  }

  /** b solves the system M b = c that coeff(order) builds for an even order of at
      least 4; below order 146, where M converts to floats, this is what coeff returns. */
  ghost predicate IsCoeff(order: int, b: seq<real>): (r: bool)
    ensures r ==> 2 <= |b| && order == 2 * |b|
  {
    && order % 2 == 0 && order >= 4 && |b| == order / 2
    && forall j :: 0 <= j < |b| ==> RowTimes(b, j, |b|) == if j == 0 then 1.0 else 0.0
  }

  /** For order 4 the system is b1 + 3 b2 = 1, b1 + 27 b2 = 0, whose only solution is
      b = [9/8, -1/24], the constants of the solver's stencils. */
  lemma Order4Coefficients(b: seq<real>)
    ensures IsCoeff(4, b) <==> b == [9.0 / 8.0, -1.0 / 24.0]
  {
    if |b| == 2 {
      assert Entry(0, 0) == 1.0 && Entry(0, 1) == 3.0;
      assert Entry(1, 0) == 1.0 && Entry(1, 1) == 27.0;
      assert RowTimes(b, 0, 1) == b[0] && RowTimes(b, 1, 1) == b[0];
      assert RowTimes(b, 0, 2) == b[0] + 3.0 * b[1];
      assert RowTimes(b, 1, 2) == b[0] + 27.0 * b[1];
      if IsCoeff(4, b) {
        assert RowTimes(b, 0, 2) == 1.0 && RowTimes(b, 1, 2) == 0.0;
        assert b[1] == -1.0 / 24.0;
        assert b == [b[0], b[1]];
      }
    }
  }

  /** Every entry of the field is the same. */
  ghost predicate IsConstant(a: seq<real>)
  {
    forall j, m :: 0 <= j < |a| && 0 <= m < |a| ==> a[j] == a[m]
  }

  /** The general stencil of the usage note, 0-based:
      sum_{t<k} b[t] * (a[i+t+1] - a[i-t]); its staggered point is i + 1/2. Whatever
      the coefficients, it is zero on a constant field. */
  function StaggeredSum(b: seq<real>, a: seq<real>, i: int, k: nat): (s: real)
    requires k <= |b| && i - k + 1 >= 0 && i + k < |a|
    ensures IsConstant(a) ==> s == 0.0
  {
    if k == 0 then 0.0 else StaggeredSum(b, a, i, k - 1) + b[k - 1] * (a[i + k] - a[i - k + 1])
  }

  /** The solver's forward stencil is the order-4 stencil at i and its backward
      stencil the order-4 stencil at i-1, both scaled by 1/dx. */
  lemma SolverStencilsAreOrder4(a: seq<real>, i: int, invDx: real)
    requires 2 <= i && i + 2 < |a|
    ensures Forward(a, i, invDx) == invDx * StaggeredSum([9.0 / 8.0, -1.0 / 24.0], a, i, 2)
    ensures Backward(a, i, invDx) == invDx * StaggeredSum([9.0 / 8.0, -1.0 / 24.0], a, i - 1, 2)
  {
    var b := [9.0 / 8.0, -1.0 / 24.0];
    assert StaggeredSum(b, a, i, 1) == 9.0 / 8.0 * (a[i + 1] - a[i]);
    assert StaggeredSum(b, a, i - 1, 1) == 9.0 / 8.0 * (a[i] - a[i - 1]);
    assert StaggeredSum(b, a, i, 2) == 9.0 / 8.0 * (a[i + 1] - a[i]) - 1.0 / 24.0 * (a[i + 2] - a[i - 1]);
    assert StaggeredSum(b, a, i - 1, 2) == 9.0 / 8.0 * (a[i] - a[i - 1]) - 1.0 / 24.0 * (a[i + 1] - a[i - 2]);
  }

  lemma {:induction false} StaggeredSumOnLinear(b: seq<real>, a: seq<real>, i: int, k: nat, alpha: real, beta: real)
    requires k <= |b| && i - k + 1 >= 0 && i + k < |a|
    requires IsLinear(a, alpha, beta)
    ensures StaggeredSum(b, a, i, k) == alpha * RowTimes(b, 0, k)
  {
    if k > 0 {
      StaggeredSumOnLinear(b, a, i, k - 1, alpha, beta);
      assert a[i + k] - a[i - k + 1] == alpha * (2 * (k - 1) + 1) as real;
      assert IntPow(2 * (k - 1) + 1, 1) == 2 * (k - 1) + 1;
    }
  }

  /** Row 0 of M b = c is what makes every coeff stencil exact on linear fields. */
  lemma CoeffExactOnLinear(order: int, b: seq<real>, a: seq<real>, i: int, invDx: real, alpha: real, beta: real)
    requires IsCoeff(order, b)
    requires i - |b| + 1 >= 0 && i + |b| < |a|
    requires IsLinear(a, alpha, beta)
    ensures invDx * StaggeredSum(b, a, i, |b|) == alpha * invDx
  {
    StaggeredSumOnLinear(b, a, i, |b|, alpha, beta);
    assert RowTimes(b, 0, |b|) == 1.0;
  }

  function RPow(x: real, e: nat): (p: real)
  {
    if e == 0 then 1.0 else x * RPow(x, e - 1)
  }

  lemma {:induction false} RPowNeg(x: real, e: nat)
    ensures RPow(-x, e) == if e % 2 == 0 then RPow(x, e) else -RPow(x, e)
  {
    if e > 0 {
      RPowNeg(x, e - 1);
    }
  }

  lemma {:induction false} RPowMul(x: real, y: real, e: nat)
    ensures RPow(x * y, e) == RPow(x, e) * RPow(y, e)
  {
    if e > 0 {
      RPowMul(x, y, e - 1);
      assert RPow(x * y, e) == (x * y) * (RPow(x, e - 1) * RPow(y, e - 1));
    }
  }

  lemma {:induction false} IntPowAsReal(n: int, e: nat)
    ensures IntPow(n, e) as real == RPow(n as real, e)
  {
    if e > 0 {
      IntPowAsReal(n, e - 1);
    }
  }

  /** If every difference a[i+t+1] - a[i-t] is s times entry (q, t) of M, the stencil
      is s times row q of M b. */
  lemma {:induction false} StaggeredSumScaled(b: seq<real>, a: seq<real>, i: int, k: nat, s: real, q: nat)
    requires k <= |b| && i - k + 1 >= 0 && i + k < |a|
    requires forall t :: 0 <= t < k ==> a[i + t + 1] - a[i - t] == s * Entry(q, t)
    ensures StaggeredSum(b, a, i, k) == s * RowTimes(b, q, k)
  {
    if k > 0 {
      StaggeredSumScaled(b, a, i, k - 1, s, q);
      var r, bk, m := RowTimes(b, q, k - 1), b[k - 1], Entry(q, k - 1);
      assert a[i + k] - a[i - (k - 1)] == s * m;
      assert StaggeredSum(b, a, i, k) == s * r + bk * (s * m);
      ScaleFactor(s, r, bk, m);
    }
  }

  /** s r + b (s m) == s (r + b m), for the step of StaggeredSumScaled. */
  lemma ScaleFactor(s: real, r: real, b: real, m: real)
    ensures s * r + b * (s * m) == s * (r + b * m)
  {
  }

  /** Ratio between a difference of the monomial of degree e and an entry of M:
      0 for even e, 2 * (1/2)^e for odd e. */
  function MonomialScale(e: nat): (k: real)
  {
    if e % 2 == 0 then 0.0 else 2.0 * RPow(0.5, e)
  }

  /** For odd e, (t + 1/2)^e is entry (e/2, t) of M times (1/2)^e. */
  lemma OddPowerAsEntry(t: nat, e: nat)
    requires e % 2 == 1
    ensures RPow(t as real + 0.5, e) == Entry(e / 2, t) * RPow(0.5, e)
  {
    assert 2 * (e / 2) + 1 == e;
    assert t as real + 0.5 == (2 * t + 1) as real * 0.5;
    RPowMul((2 * t + 1) as real, 0.5, e);
    IntPowAsReal(2 * t + 1, e);
  }

  /** On a monomial of degree e about a staggered point, the difference of the values
      at distance t + 1/2 on either side is MonomialScale(e) * M[e/2, t]. */
  lemma MonomialDifference(t: nat, e: nat)
    ensures RPow(t as real + 0.5, e) - RPow(-(t as real + 0.5), e)
         == MonomialScale(e) * Entry(e / 2, t)
  {
    var x := t as real + 0.5;
    RPowNeg(x, e);
    if e % 2 == 1 {
      var p, m := RPow(0.5, e), Entry(e / 2, t);
      OddPowerAsEntry(t, e);
      assert RPow(x, e) - RPow(-x, e) == 2.0 * (m * p);
      assert 2.0 * (m * p) == (2.0 * p) * m;
    }
  }

  /** On a monomial of degree e about the staggered point, any stencil is
      MonomialScale(e) times row e/2 of M b. */
  lemma StaggeredSumOnMonomial(b: seq<real>, a: seq<real>, i: int, e: nat)
    requires i - |b| + 1 >= 0 && i + |b| < |a|
    requires forall j :: 0 <= j < |a| ==> a[j] == RPow(j as real - (i as real + 0.5), e)
    ensures StaggeredSum(b, a, i, |b|) == MonomialScale(e) * RowTimes(b, e / 2, |b|)
  {
    var q, s := e / 2, MonomialScale(e);
    forall t | 0 <= t < |b|
      ensures a[i + t + 1] - a[i - t] == s * Entry(q, t)
    {
      MonomialSampleDifference(a, i, t, e);
    }
    StaggeredSumScaled(b, a, i, |b|, s, q);
  }

  /** The same difference read off a field sampled from the monomial. */
  lemma MonomialSampleDifference(a: seq<real>, i: int, t: nat, e: nat)
    requires 0 <= i - t && i + t + 1 < |a|
    requires forall j :: 0 <= j < |a| ==> a[j] == RPow(j as real - (i as real + 0.5), e)
    ensures a[i + t + 1] - a[i - t] == MonomialScale(e) * Entry(e / 2, t)
  {
    var x := t as real + 0.5;
    assert a[i + t + 1] == RPow(x, e) by {
      assert (i + t + 1) as real - (i as real + 0.5) == x;
    }
    assert a[i - t] == RPow(-x, e) by {
      assert (i - t) as real - (i as real + 0.5) == -x;
    }
    MonomialDifference(t, e);
  }

  /** Accuracy of order `order`: a stencil whose coefficients solve M b = c is exact,
      at its staggered point i + 1/2, on every monomial (x - (i + 1/2))^e of degree
      e < order, whose derivative there is 1 for e = 1 and 0 otherwise. */
  lemma CoeffExactOnMonomials(order: int, b: seq<real>, a: seq<real>, i: int, e: nat)
    requires IsCoeff(order, b)
    requires i - |b| + 1 >= 0 && i + |b| < |a|
    requires e < order
    requires forall j :: 0 <= j < |a| ==> a[j] == RPow(j as real - (i as real + 0.5), e)
    ensures StaggeredSum(b, a, i, |b|) == if e == 1 then 1.0 else 0.0
  {
    var q, s := e / 2, MonomialScale(e);
    StaggeredSumOnMonomial(b, a, i, e);
    if e == 1 {
      assert RowTimes(b, 0, |b|) == 1.0;
      assert s == 1.0;
    } else if e % 2 == 1 {
      assert 1 <= q < |b|;
      assert RowTimes(b, q, |b|) == 0.0;
    }
  }
}
