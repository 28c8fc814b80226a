# 1-D staggered-grid acoustic finite differences, modelled in Dafny

This project models the core of a 1-D acoustic finite-difference simulator. The
simulator advances particle velocity `vx` and pressure `p` on a grid of `nx` points.
It uses a fourth-order staggered spatial stencil and a three-step Adams-Bashforth
time integrator. After each time step it records pressure at three receivers into a
3 x nt seismogram. The project also models the helper `coeff(order)`, which builds
the linear system whose solution gives the stencil coefficients.

All values are exact `real`s. Every stencil and blend constant (9/8, 1/24, 25/24,
1/12, 1/24) is rational, so the model has no rounding.

Modules:

- `Stencil` (`stencil.dfy`): the per-index arithmetic.
  - The active range `kx = 5 .. nx-6`.
  - The forward stencil, used for the pressure derivative.
  - The backward stencil, used for the velocity derivative.
  - The Adams-Bashforth blend.
  - Exactness of both stencils on linear and cubic fields.
- `Wavefield` (`wavefield.dfy`): a value-level model of the loop.
  - `Step` is one loop iteration over the eight buffers.
  - `StateBefore(c, q, n)` is the state when iteration `n` starts, and
    `StateAfter(c, q, n)` the state when it ends.
  - `Trace` is a seismogram entry.
- `WaveProperties` (`wave_properties.dfy`): what the loop guarantees over a whole run.
- `Simulation` (`simulation.dfy`): the loop as the source runs it.
  - Class `Solver` owns the eight `array<real>` buffers and the `array2<real>` seismogram.
  - One method per array pass, each a loop over `kx`.
  - `Solver.AdvanceVelocity`, `Solver.AdvancePressure` and `Solver.Record` are the
    three parts of the loop body; `Solver.Step`, `Solver.Iterate` and `Solver.Run`
    are proved against `Wavefield`.
  - `Simulate` is the whole script: set-up followed by the loop.
- `TaylorCoeff` (`taylor_coeff.dfy`): `coeff(order)`.
  - The order checks and the in-place construction of `M` and `c`.
  - The coefficients, characterised by `M b = c`.
  - The unique solution `[9/8, -1/24]` for order 4, which is what the solver hard-codes.
  - The order of accuracy that any solution gives.

Behaviour of the code that the model keeps:

- Line 123 (the pressure derivative) is the forward stencil, built from
  `p[i+1]-p[i]` and `p[i+2]-p[i-1]`. Line 133 (the velocity derivative) is the
  backward one, built from `vx[i]-vx[i-1]` and `vx[i+1]-vx[i-2]`.
- The code does not reject `nx < 11`. For `nx <= 10`, `arange(5, nx-5)` is empty, so
  each iteration only injects the source sample and records the receivers. The model
  has no grid-size precondition. `Stencil.Active` shows that every index the stencils
  write reads only inside the grid.
- The code validates no source or receiver index. The model requires them to lie in
  `[0, nx)`.
- `coeff` rejects odd orders and `order == 2` itself. A non-positive even order
  passes both checks and then fails inside numpy, on the negative size given to
  `zeros`. The model reports this as the separate error `NegativeDimension`.
- From order 146 on, `coeff` raises while it fills `M`: the integer 145^145 (and
  every larger entry) exceeds the largest float, so storing it in the float matrix
  fails. The model reports this as `EntryOverflow`, and `OverflowThreshold` shows that
  order 144 is the largest order that builds.

## Model

| member | source | states |
|---|---|---|
| `Stencil.Active` | Python/1D/FD_1D_DX4_DT3_ABS_fast.py:112 | an index written by the stencil passes (5 <= i < nx-5) reads only indices i-2 .. i+2, all inside [0, nx) |
| `Stencil.Forward` | Python/1D/FD_1D_DX4_DT3_ABS_fast.py:123 | the pressure-derivative stencil at i reads p[i-1] .. p[i+2] and is zero where those four values are equal |
| `Stencil.Backward` | Python/1D/FD_1D_DX4_DT3_ABS_fast.py:133 | the velocity-derivative stencil at i reads vx[i-2] .. vx[i+1] and is zero where those four values are equal |
| `Stencil.AdamsBashforth` | Python/1D/FD_1D_DX4_DT3_ABS_fast.py:126 | the weights 25/24, -1/12, 1/24 sum to one: a constant history d is returned as d, and a zero history gives zero |
| `Stencil.AdamsBashforthExactOnQuadratic` | Python/1D/FD_1D_DX4_DT3_ABS_fast.py:126 | third-order accuracy of the time integrator: on the history a, a-b+c, a-2b+4c of the quadratic a + bt + ct^2 sampled at t = 0, -1, -2, the blend is a + c/12, the mean of the quadratic over the staggered step [-1/2, 1/2] |
| `Stencil.AdamsBashforthAdd` | Python/1D/FD_1D_DX4_DT3_ABS_fast.py:126 | the blend is additive in the three derivatives: the blend of a sum of histories is the sum of the blends |
| `Stencil.ForwardExactOnLinear` | Python/1D/FD_1D_DX4_DT3_ABS_fast.py:123 | on a field alpha*i + beta the forward stencil gives alpha/dx (9/8 - 3/24 = 1) |
| `Stencil.BackwardExactOnLinear` | Python/1D/FD_1D_DX4_DT3_ABS_fast.py:133 | on a field alpha*i + beta the backward stencil gives alpha/dx |
| `Stencil.ForwardExactOnCubic` | Python/1D/FD_1D_DX4_DT3_ABS_fast.py:123 | fourth-order accuracy: on any cubic sampled on the grid, the forward stencil at i gives exactly the derivative at the staggered point i + 1/2 |
| `Stencil.BackwardExactOnCubic` | Python/1D/FD_1D_DX4_DT3_ABS_fast.py:133 | the same for the backward stencil at its staggered point i - 1/2 |
| `Stencil.ForwardAdd` | Python/1D/FD_1D_DX4_DT3_ABS_fast.py:123 | the forward stencil is additive: of a sum of fields it is the sum of the stencils |
| `Stencil.BackwardAdd` | Python/1D/FD_1D_DX4_DT3_ABS_fast.py:133 | the backward stencil is additive: of a sum of fields it is the sum of the stencils |
| `Wavefield.Lame` | Python/1D/FD_1D_DX4_DT3_ABS_fast.py:62 | l = rho*v*v element by element has nx entries and is positive wherever rho is positive and v nonzero |
| `Wavefield.DiffForward` | Python/1D/FD_1D_DX4_DT3_ABS_fast.py:123 | the pressure-derivative pass over the whole buffer keeps its length nx |
| `Wavefield.DiffBackward` | Python/1D/FD_1D_DX4_DT3_ABS_fast.py:133 | the velocity-derivative pass over the whole buffer keeps its length nx |
| `Wavefield.Blend` | Python/1D/FD_1D_DX4_DT3_ABS_fast.py:126-136 | the Adams-Bashforth update pass over the whole buffer keeps its length nx |
| `Wavefield.Step` | Python/1D/FD_1D_DX4_DT3_ABS_fast.py:117-140 | one iteration keeps all eight buffers at nx cells and leaves each history ordered newest to oldest: px2 equals the px just computed and px3 the px2 from before; the same for vxx, vxx2, vxx3 |
| `Wavefield.StateBefore` | Python/1D/FD_1D_DX4_DT3_ABS_fast.py:117 | the state when iteration n starts, defined as the allocation for n <= 2 and otherwise the state after iteration n-1; its own contract keeps every buffer at nx cells, and `WaveProperties.OutsideActive`, `HistoryLag`, `ZeroSourceStaysZero` and `Superposition` state what it holds |
| `Wavefield.StateAfter` | Python/1D/FD_1D_DX4_DT3_ABS_fast.py:117 | the state when iteration n ends, `Step` applied with q[n]; every buffer has nx cells |
| `Wavefield.Trace` | Python/1D/FD_1D_DX4_DT3_ABS_fast.py:143-145 | seismogram entry (r, n): 0 in columns 0 and 1, which the loop never writes; for n >= 2 the pressure at receiver r when iteration n+1 starts |
| `WaveProperties.StepWritesOnlyActive` | Python/1D/FD_1D_DX4_DT3_ABS_fast.py:120-136 | outside kx an iteration leaves vx, px and vxx unchanged, and changes p only by adding q[n] at xscr |
| `WaveProperties.HistoryLag` | Python/1D/FD_1D_DX4_DT3_ABS_fast.py:117-140 | over the run px3 holds the derivative computed two iterations earlier; before iteration 3 it is still the zero it was allocated with; the same for vxx3 |
| `WaveProperties.OutsideActive` | Python/1D/FD_1D_DX4_DT3_ABS_fast.py:52-136 | for the whole run, outside kx vx and all six derivative buffers stay 0, and p stays 0 except at xscr, which holds q[2] + .. + q[n-1] |
| `WaveProperties.FirstSamplesIgnored` | Python/1D/FD_1D_DX4_DT3_ABS_fast.py:117-120 | the loop starts at n = 2, so q[0] and q[1] are never injected: two source series that agree from index 2 on give the same state before every iteration, and so the same seismogram |
| `WaveProperties.StepOfZero` | Python/1D/FD_1D_DX4_DT3_ABS_fast.py:120-140 | an iteration with a zero source sample maps the all-zero state to itself |
| `WaveProperties.ZeroSourceStaysZero` | Python/1D/FD_1D_DX4_DT3_ABS_fast.py:52-140 | if every q[n] is 0, every field and history buffer is 0 before every iteration |
| `WaveProperties.ZeroSourceSilentSeismogram` | Python/1D/FD_1D_DX4_DT3_ABS_fast.py:143-145 | if every q[n] is 0, every seismogram entry is 0 |
| `WaveProperties.DiffExactOnLinear` | Python/1D/FD_1D_DX4_DT3_ABS_fast.py:123-133 | both derivative passes give alpha/dx at every index of kx on a linear field |
| `WaveProperties.DiffOnConstant` | Python/1D/FD_1D_DX4_DT3_ABS_fast.py:123-133 | on a constant field both derivative passes write zero at every index of kx and keep the previous derivative outside kx |
| `WaveProperties.BlendZeroHistory` | Python/1D/FD_1D_DX4_DT3_ABS_fast.py:126-136 | a zero derivative history leaves the whole field unchanged |
| `WaveProperties.BlendConstantHistory` | Python/1D/FD_1D_DX4_DT3_ABS_fast.py:126-136 | with equal history buffers the update reduces to f - coef*d: vx - dt/rho*px, or p - l*dt*vxx |
| `WaveProperties.DiffForwardAdd` | Python/1D/FD_1D_DX4_DT3_ABS_fast.py:123 | the pressure-derivative pass is additive in the field and in the untouched entries |
| `WaveProperties.DiffBackwardAdd` | Python/1D/FD_1D_DX4_DT3_ABS_fast.py:133 | the velocity-derivative pass is additive |
| `WaveProperties.BlendAdd` | Python/1D/FD_1D_DX4_DT3_ABS_fast.py:126-136 | the Adams-Bashforth update pass is additive in the field and the history |
| `WaveProperties.StepAdd` | Python/1D/FD_1D_DX4_DT3_ABS_fast.py:117-140 | one whole iteration is additive in the state and the source sample together: injection, both derivative passes and both updates each are |
| `WaveProperties.Superposition` | Python/1D/FD_1D_DX4_DT3_ABS_fast.py:52-145 | the run driven by q1 + q2 is, before every iteration, the sum of the runs driven by q1 and q2 |
| `Simulation.ForwardPass` | Python/1D/FD_1D_DX4_DT3_ABS_fast.py:123 | the array equals `DiffForward` of the pressure: the forward stencil on kx, old values elsewhere |
| `Simulation.BackwardPass` | Python/1D/FD_1D_DX4_DT3_ABS_fast.py:133 | the array equals `DiffBackward` of the velocity: the backward stencil on kx, old values elsewhere |
| `Simulation.BlendPass` | Python/1D/FD_1D_DX4_DT3_ABS_fast.py:126-136 | the field equals `Blend` of its old value: f - coef * AdamsBashforth(d1, d2, d3) on kx, unchanged elsewhere |
| `Simulation.CopyTo` | Python/1D/FD_1D_DX4_DT3_ABS_fast.py:129-130 | the destination holds exactly the source's elements |
| `Simulation.NewZeros` | Python/1D/FD_1D_DX4_DT3_ABS_fast.py:52-59 | `zeros(nx)`: a new array, not shared with any existing one, holding nx zeros |
| `Simulation.NewSeismogram` | Python/1D/FD_1D_DX4_DT3_ABS_fast.py:108 | `zeros((3, nt))`: a new 3 x nt array of zeros |
| `Simulation.Solver.constructor` | Python/1D/FD_1D_DX4_DT3_ABS_fast.py:52-112 | l = rho*v*v (line 62) and i_dx = 1/dx (line 111) are fixed once; the eight buffers and the seismogram are newly allocated, the buffers eight separate arrays of nx zeros and the seismogram 3 x nt zeros (lines 52-59, 108) |
| `Simulation.Solver.AdvanceVelocity` | Python/1D/FD_1D_DX4_DT3_ABS_fast.py:119-130 | p gains q[n] at xscr only; px becomes `DiffForward` of the new p; vx becomes the Adams-Bashforth update with dt/rho; px2 takes the new px and px3 the old px2 |
| `Simulation.Solver.AdvancePressure` | Python/1D/FD_1D_DX4_DT3_ABS_fast.py:132-140 | vxx becomes `DiffBackward` of vx; p becomes the Adams-Bashforth update with l*dt; vxx2 takes the new vxx and vxx3 the old vxx2 |
| `Simulation.Solver.Record` | Python/1D/FD_1D_DX4_DT3_ABS_fast.py:142-145 | column n of the seismogram holds p at the three receivers; every other column is unchanged |
| `Simulation.Solver.Step` | Python/1D/FD_1D_DX4_DT3_ABS_fast.py:117-145 | the new buffers are `Wavefield.Step` of the old ones with q[n]; column n of the seismogram receives the new p at the three receivers; no other column changes |
| `Simulation.Solver.Iterate` | Python/1D/FD_1D_DX4_DT3_ABS_fast.py:117-145 | an iteration moves both the buffers and the recorded seismogram columns from "before iteration n" to "before iteration n+1" |
| `Simulation.Solver.Run` | Python/1D/FD_1D_DX4_DT3_ABS_fast.py:117-145 | from the zero state the loop over n = 2 .. nt-1 leaves the model's final state; every seismogram entry is `Wavefield.Trace` (stated through the predicate `RecordedUpTo(nt)`); columns 0 and 1 stay zero |
| `Simulation.Simulate` | Python/1D/FD_1D_DX4_DT3_ABS_fast.py:52-145 | the script from allocation through the loop: every entry of the returned 3 x nt seismogram is `Wavefield.Trace`, and a source of zeros gives an all-zero seismogram |
| `TaylorCoeff.CoeffSystem` | Python/1D/FD_taylor_coeff_func.py:18-35 | an odd order gives NotEven and order 2 gives BelowFourth; other non-positive even orders end in numpy's NegativeDimension; an even order of at least 4 gives EntryOverflow exactly when some entry (2n+1)^(2j+1) of M is too large to store as a float (at least 2^1024 - 2^970), and succeeds otherwise; on success M is (order/2) x (order/2) with M[j][n] = (2n+1)^(2j+1) (0-based, so row 0 is 2n+1), and c = [1, 0, .., 0] |
| `TaylorCoeff.FillFirstRow` | Python/1D/FD_taylor_coeff_func.py:30-31 | on the zeroed matrix, row 0 receives 2n-1 for n = 1 .. h and every other row stays zero; it reports an entry beyond the float range exactly when row 0 has one |
| `TaylorCoeff.FillRow` | Python/1D/FD_taylor_coeff_func.py:33-35 | one pass of the j loop: row j-1 receives (2n-1)^(2j-1) for n = 1 .. h, the rows before it keep their entries and the rows after it stay zero; it reports an entry beyond the float range exactly when row j-1 has one |
| `TaylorCoeff.OverflowThreshold` | Python/1D/FD_taylor_coeff_func.py:33-35 | for an even order of at least 4, an entry of M is beyond the float range exactly when the order is at least 146 |
| `TaylorCoeff.LargestStorable` | Python/1D/FD_taylor_coeff_func.py:35 | 143^143, the last entry of M for order 144, is below 2^1024 - 2^970 and converts to a float |
| `TaylorCoeff.SmallestUnstorable` | Python/1D/FD_taylor_coeff_func.py:35 | 145^145, the last entry of M for order 146, is at least 2^1024 - 2^970 and does not convert to a float |
| `TaylorCoeff.IntPowGrowsWithExponent` | Python/1D/FD_taylor_coeff_func.py:35 | for a base of at least 1, (2n-1)^e grows with e, so the last row of M holds its largest entries |
| `TaylorCoeff.IntPowGrowsWithBase` | Python/1D/FD_taylor_coeff_func.py:35 | for a non-negative base, b^e grows with b, so the last column of M holds its largest entries |
| `TaylorCoeff.IsCoeff` | Python/1D/FD_taylor_coeff_func.py:36 | b solves the system M b = c that coeff builds, which is what coeff returns below order 146: the order is even and at least 4, and b has order/2 entries |
| `TaylorCoeff.Order4Coefficients` | Python/1D/FD_taylor_coeff_func.py:27-36 | for order 4, b solves M b = c if and only if b = [9/8, -1/24] |
| `TaylorCoeff.StaggeredSum` | Python/1D/FD_taylor_coeff_func.py:10-14 | the general stencil sum_k b_k (p(x+k) - p(x-k+1)) is zero on a constant field, whatever b is |
| `TaylorCoeff.SolverStencilsAreOrder4` | Python/1D/FD_taylor_coeff_func.py:10-14 | the solver's forward and backward stencils are the usage-note stencil with b = [9/8, -1/24], scaled by 1/dx |
| `TaylorCoeff.StaggeredSumOnLinear` | Python/1D/FD_taylor_coeff_func.py:29-31 | on a linear field the general stencil is alpha times row 0 of M b |
| `TaylorCoeff.CoeffExactOnLinear` | Python/1D/FD_taylor_coeff_func.py:29-31 | row 0 of M b = c makes every coeff stencil give alpha/dx on a linear field |
| `TaylorCoeff.OddPowerAsEntry` | Python/1D/FD_taylor_coeff_func.py:33-35 | for odd e, (t + 1/2)^e is M[e/2, t] = (2t+1)^e times (1/2)^e |
| `TaylorCoeff.MonomialDifference` | Python/1D/FD_taylor_coeff_func.py:33-35 | on a monomial of degree e about the staggered point, the difference of the values at distance t + 1/2 on either side is 0 for even e and 2 (1/2)^e M[e/2, t] for odd e |
| `TaylorCoeff.MonomialSampleDifference` | Python/1D/FD_taylor_coeff_func.py:33-35 | on a field sampled from that monomial, a[i+t+1] - a[i-t] is MonomialScale(e) times M[e/2, t] |
| `TaylorCoeff.StaggeredSumOnMonomial` | Python/1D/FD_taylor_coeff_func.py:29-35 | on a monomial of degree e about the staggered point, any stencil equals MonomialScale(e) times row e/2 of M b |
| `TaylorCoeff.CoeffExactOnMonomials` | Python/1D/FD_taylor_coeff_func.py:29-36 | any b with M b = c gives a stencil exact to order `order`: on every monomial of degree e < order about the staggered point it returns that monomial's derivative there (1 for e = 1, else 0) |

## Left out

- Plotting, console output and timing (`plt.*`, `print`, `tm.clock`): user interface only.
- Ricker wavelet generation: it is transcendental floating point. The source series `q` is an input `seq<real>`.
- Derivation of `dx`, `dt` and `nt` from the physical parameters, and construction of the velocity and density models: set-up. `dx`, `dt`, `v`, `rho` and `q` are inputs.
- Floating-point rounding, overflow to inf/NaN in the time loop, and stability (the CFL condition): values are exact reals and the model makes no convergence claim. The one float overflow that raises, storing an entry of M in `coeff` beyond the float range, is modelled as `EntryOverflow`.
- `linalg.inv` in `coeff`: a foreign library call. The returned coefficients are characterised by `TaylorCoeff.IsCoeff` (`M b = c`). A solution is exhibited, and shown unique, for order 4 only. Existence of a solution for other orders is not proved.
- `coeff` takes `order` as an integer. The truncation `int(order)` of a non-integer argument, and the Python 3 float result of `int(order)/2-1`, are not modelled.
- Python's negative indices, which wrap around, and out-of-range indices, which raise an error: the model requires `xscr` and the receivers to lie in `[0, nx)`.
- Simulation.Solver.constructor: requires `rho` to be nonzero on `kx`, where the code divides by it. With a zero there numpy would produce inf or NaN rather than fail.
- Wavefield.DiffForward, Wavefield.DiffBackward, Wavefield.Blend: their own contracts state only the length. What they compute on kx and outside it is stated by `Simulation.ForwardPass`, `Simulation.BackwardPass` and `Simulation.BlendPass` (the array loops equal them), by `WaveProperties.StepWritesOnlyActive`, `DiffOnConstant`, `BlendZeroHistory`, `DiffExactOnLinear`, `BlendConstantHistory` and the additivity lemmas. A quantified postcondition on these functions makes the iteration-level proofs too expensive for the solver.
- Scaling (homogeneity): the additivity lemmas are proved, but no lemma states that scaling the source scales the run.
- The causal reach of an impulse and the symmetric arrival of a wavefront at equidistant receivers are not stated.
