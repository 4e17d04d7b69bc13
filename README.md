# dynamics_solve, modelled in Dafny

The repository is one routine, `dynamics_solve` (`170N/parrack.py`). It is a
fixed-step explicit integrator for a system `s' = f(t, s)`. Given a derivative
`f`, a phase-space dimension `Dim`, an initial time `t_0`, an initial state
`s_0`, a step `dt`, a step count `N` and a method name, it works in four stages:

1. It builds the time grid `T[n] = t_0 + n*dt` for `n = 0..N`. Each point is
   computed directly from `n`.
2. It allocates a zero-filled state buffer `S` of `N + 1` rows. The rows are
   scalars when `Dim == 1` and vectors of length `Dim` when `Dim > 1`.
3. It writes `s_0` into row 0.
4. It fills rows `1..N` in place. The update rule is Euler, the RK2 midpoint
   rule or classical RK4, chosen by three independent string tests.

The model has two modules.

- `Vectors` (`vectors.dfy`) gives NumPy's elementwise arithmetic on rows:
  `Fill`, `Zeros`, `Add` and `Scale` over `seq<real>`.
- `Parrack` (`parrack.dfy`) holds the routine.
  - `DynamicsSolve` is an imperative method. It allocates an `array<real>` for
    `T` and an `array<seq<real>>` for `S`, writes row 0, and calls one of three
    in-place loop methods (`EulerLoop`, `RK2Loop`, `RK4Loop`). Each loop body
    writes row `n + 1` as the rule's step function (`EulerStep`, `RK2Step`,
    `RK4Step`) applied to row `n` at time `T[n]`; those functions compute the
    same stages `k1..k4` as the source.
  - The method is proved against the pure specification `Solve`. `Solve` is
    built from `InitialRow` (allocation and row 0, with their exceptions),
    `TimeGrid` and `Trajectory` / `Run` (the step recurrence).
  - The lemmas state the properties of `Solve`: shapes, the grid formula, the
    initial row, the per-rule recurrences, the unknown-name case, `N == 0`, a
    zero derivative, and decoupled components.

Modelling choices:

- Arithmetic is exact over `real`. This abstracts IEEE-754 rounding, so
  `TimeGridIsAccumulated` holds here but not for floats, where accumulating
  `dt` drifts. Computing each point directly, as line 27 does, avoids that
  drift.
- Every state is a `seq<real>` of length `Dim`. A scalar row (`Dim == 1`) is a
  sequence of length one.
- `s_0` is `Scalar(x)` or `Array(v)`, following NumPy's assignment
  `S[0] = s_0`. A number fills the row. An array of length `Dim` is copied. An
  array of length one is broadcast. Any other array is a `ShapeMismatch`.
- The derivative `f` is a total function `(real, seq<real>) -> seq<real>`. The
  requirement that it returns a rate of the state's dimension is a
  precondition (`PreservesDim`). It is required only when `Dim >= 1`; for
  `Dim < 1` every `f` is allowed, since the call raises before `f` is used.
- Python exceptions become the `Failure` branch of a `Result`. They are checked
  in the order the code meets them:
  - `Dim < 1`: neither allocation runs, so `S` is unbound at line 35
    (`StateUnbound`).
  - `N < -1`: `np.zeros` gets a negative size (`NegativeDimensions`).
  - `N == -1`: the buffer is empty and has no row 0 (`IndexOutOfRange`).
  - `s_0` does not fit a row (`ShapeMismatch`).
- An unrecognised method name is not an error in the code. No loop runs, so
  rows `1..N` stay zero, and the model does the same.

## Model

| member | source | states |
|---|---|---|
| Parrack.DynamicsSolve | 170N/parrack.py:3-55 | Raises exactly when `Solve` fails, with the same error. On success the returned `T` array holds `Solve`'s time grid and the returned `S` array holds its state trajectory. |
| Parrack.Solve | 170N/parrack.py:3-55 | The pure definition of a call's result or error, built from `InitialRow`, `TimeGrid` and `Trajectory`. A call raises exactly when allocating the buffer or writing row 0 does, with the same error. On success both outputs have `N + 1` entries and row 0 is the stored `s_0`. `SolveShape`, `SolveFailure` and the lemmas after them state its further properties. |
| Parrack.Classify | 170N/parrack.py:37-53 | The name selects Euler iff it is "Euler", RK2 iff it is "RK2" and RK4 iff it is "RK4". So at most one of the three blocks runs, and any other name selects none. |
| Parrack.TimeGrid | 170N/parrack.py:27 | The grid has `N + 1` points, and point `n` is `t_0 + n*dt`. |
| Parrack.TimeGridEvenlySpaced | 170N/parrack.py:27 | The grid has `N + 1` points, starts at `t_0`, and consecutive points are exactly `dt` apart. |
| Parrack.TimeGridIsAccumulated | 170N/parrack.py:27 | Over exact arithmetic, the directly computed grid equals the grid obtained by repeatedly adding `dt` to `t_0`. |
| Parrack.TimesFollowGrid | 170N/parrack.py:27 | In a successful call, `T` has `N + 1` entries and `T[n] == t_0 + n*dt` for every `n` in `0..N`. |
| Parrack.Broadcast | 170N/parrack.py:35 | When `s_0` can be stored in a row of dimension `Dim`, the stored row has length `Dim`. |
| Parrack.InitialRow | 170N/parrack.py:29-35 | Allocation and the write of row 0 succeed only when `Dim >= 1` and `N >= 0`, and the row written then has length `Dim`. |
| Parrack.SolveFailure | 170N/parrack.py:29-35 | A call raises iff `Dim < 1`, `N < 0` or `s_0` does not fit a row. The error is `StateUnbound` when `Dim < 1` (whatever `N` is), then `NegativeDimensions` for `N < -1`, `IndexOutOfRange` for `N == -1`, and otherwise `ShapeMismatch`, which happens only for an array `s_0` whose length is neither `Dim` nor 1. |
| Parrack.SolveShape | 170N/parrack.py:27-33 | In a successful call, `T` and `S` both have `N + 1` entries and every row of `S` has length `Dim`. |
| Parrack.InitialStatePreserved | 170N/parrack.py:35 | Row 0 has length `Dim`. It equals `s_0` when `s_0` is an array of length `Dim`. Every component equals `s_0` when `s_0` is a number, and equals its single entry when `s_0` is a one-element array. |
| Parrack.NoSteps | 170N/parrack.py:27-55 | With `N == 0`, the result is the single time `t_0` and the single state `s_0`, for every method name. |
| Parrack.EulerStep | 170N/parrack.py:39 | The Euler update `s + dt*f(t, s)` yields a state of the same dimension. |
| Parrack.RK2Step | 170N/parrack.py:43-45 | The midpoint update, with `k1 = dt*f(t, s)` and `k2 = dt*f(t + dt/2, s + k1/2)`, yields a state of the same dimension. |
| Parrack.RK4Step | 170N/parrack.py:49-53 | The RK4 update, with stages `k1..k4` each evaluated at `s` advanced along the previous stage and weighted 1, 2, 2, 1 over 6, yields a state of the same dimension. |
| Parrack.Step | 170N/parrack.py:37-53 | Every rule maps a state of dimension `d` to a state of dimension `d`. |
| Parrack.Run | 170N/parrack.py:37-53 | The trajectory has `n + 1` rows, row 0 is the initial row, every row has the initial dimension, and each row `k + 1` is one step of the rule from row `k` at time `t_0 + k*dt`. |
| Parrack.Trajectory | 170N/parrack.py:30-53 | The whole buffer has `N + 1` rows, row 0 is the initial row, and every row has the initial dimension. |
| Parrack.RunIsUnique | 170N/parrack.py:37-53 | Any sequence of rows that starts at `s_0` and satisfies the step recurrence is exactly `Run`'s trajectory, so the recurrence determines the buffer. |
| Parrack.EulerLoop | 170N/parrack.py:38-39 | Filling rows `1..N` in place leaves `S` equal to the Euler trajectory from the old row 0. |
| Parrack.RK2Loop | 170N/parrack.py:42-45 | Filling rows `1..N` in place leaves `S` equal to the RK2 trajectory from the old row 0. |
| Parrack.RK4Loop | 170N/parrack.py:48-53 | Filling rows `1..N` in place leaves `S` equal to the RK4 trajectory from the old row 0. |
| Parrack.EulerRecurrence | 170N/parrack.py:37-39 | For method "Euler" and every `n < N`, `S[n+1] == S[n] + dt*f(T[n], S[n])`. |
| Parrack.RK2Recurrence | 170N/parrack.py:41-45 | For method "RK2" and every `n < N`, `S[n+1]` is the midpoint update of `S[n]` at time `T[n]`. |
| Parrack.RK4Recurrence | 170N/parrack.py:47-53 | For method "RK4" and every `n < N`, `S[n+1]` is the RK4 update of `S[n]` at time `T[n]`. |
| Parrack.UnknownMethodLeavesZeros | 170N/parrack.py:29-53 | For a name that is none of the three, row 0 holds the initial row and every row `1..N` is still the zero vector. |
| Parrack.StepAtRest | 170N/parrack.py:38-53 | If `f` is zero on every state of the row's dimension, one step of any rule returns the state unchanged. |
| Parrack.RunAtRest | 170N/parrack.py:37-53 | If `f` is zero on every state, every row of the trajectory equals the initial row. |
| Parrack.ZeroDerivativeKeepsInitialState | 170N/parrack.py:37-53 | With a derivative that is identically zero, all `N + 1` rows equal row 0, under all three methods. |
| Parrack.StepDecouples | 170N/parrack.py:37-53 | For a system whose component `i` depends only on `t` and component `i`, component `i` of one step equals one step of the scalar system for that component alone, under all three rules. |
| Parrack.RK2StepDecouples | 170N/parrack.py:43-45 | The decoupling of one step, for the midpoint rule. |
| Parrack.StageDecouples | 170N/parrack.py:50-52 | For a decoupled system, an RK4 stage evaluated at `s + c*k`, read at component `i`, equals the scalar system's stage evaluated at that component. |
| Parrack.RK4StepDecouples | 170N/parrack.py:49-53 | The decoupling of one step, for RK4. |
| Parrack.RunDecouples | 170N/parrack.py:37-53 | For a decoupled system, component `i` of every row of the trajectory equals the scalar trajectory of component `i` started from `s_0[i]`. |
| Parrack.DecoupledComponentsIntegrateIndependently | 170N/parrack.py:3-55 | Integrating a decoupled system of dimension `Dim` from an array `s_0` succeeds, and in each component `i` it gives exactly the result of integrating the scalar system for component `i` from `s_0[i]` with `Dim = 1`, for every method name. |

## Left out

- Floating-point rounding and NumPy dtype coercion. All arithmetic is exact
  over `real`, so an integer `s_0` (the default `1`) is simply the real `1.0`.
- Accuracy and order of convergence, such as how close RK4 gets to `e^-1`.
  These are analytic facts about approximation, not about the code's structure.
- NumPy broadcasting beyond what `S[0] = s_0` does with a number or a
  one-element array.
- A derivative that returns a value of the wrong shape. `PreservesDim` is a
  precondition instead.
- A derivative that mutates its argument. For `Dim > 1` the source passes `f`
  the row `S[n]` itself, so an `f` that updates its argument in place would
  change the buffer. A Dafny function value cannot do that, so the model
  assumes `f` leaves its argument alone.
- Exceptions raised inside `f`, and `f`'s internals. `f` is an opaque total
  function.
- Arguments of the wrong Python type, such as a non-integer `Dim` or `N`, or a
  `method` that is not a string. `Dim` and `N` are `int`, and the method name
  is a string.
- The keyword defaults (`Dim = 1`, `t_0 = 0.0`, `s_0 = 1`, `dt = 0.1`,
  `N = 100`, `method = "Euler"`). Every argument is passed explicitly.
- How many times `f` is called per step (1, 2 or 4). Calls of a pure function
  are not observable in the model.
- The `numpy` import and NumPy's array-construction calls. Dafny arrays and
  sequences stand in for them.
