/** A model of `dynamics_solve`: a fixed-step explicit integrator for the
    system s' = f(t, s), offering the Euler, midpoint (RK2) and classical
    fourth-order Runge-Kutta (RK4) update rules. Arithmetic is exact over
    `real`; every state is a vector of `Dim` reals (a scalar state when
    `Dim == 1` is a vector of length one). */
module Parrack {
  import opened Vectors

  /** The caller's derivative: a time and a state give the rate of change. */
  type Derivative = (real, Vector) -> Vector

  /** `f` maps every state of dimension `d` to a rate of dimension `d`. */
  ghost predicate PreservesDim(f: Derivative, d: int)
  {
    forall t: real, s: Vector :: |s| == d ==> |f(t, s)| == d
  }

  datatype Rule = Euler | RK2 | RK4

  datatype Option<T> = None | Some(value: T)

  /** `s_0` is either a number or an array of numbers. */
  datatype InitialState = Scalar(value: real) | Array(entries: seq<real>)

  /** The exceptions the routine raises before it starts stepping. */
  datatype Error =
    | StateUnbound        // Dim < 1: neither branch binds S, so `S[0] = s_0` fails
    | NegativeDimensions  // N < -1: the zero-filled buffer would have a negative size
    | IndexOutOfRange     // N == -1: the buffer is empty, so it has no row 0
    | ShapeMismatch       // s_0 is an array that does not fit a row of length Dim

  datatype Result<T> = Success(value: T) | Failure(error: Error)

  /** The time grid and the state trajectory, as values. */
  datatype Trace = Trace(times: seq<real>, states: seq<Vector>)

  /** The two arrays the routine returns. */
  datatype Solution = Solution(T: array<real>, S: array<Vector>)

  // ---------------------------------------------------------------------
  // Method selection

  /** The three independent string tests: at most one of them succeeds, and a
      name that passes none selects no update rule at all. */
  function Classify(name: string): (r: Option<Rule>)
    ensures r == Some(Euler) <==> name == "Euler"
    ensures r == Some(RK2) <==> name == "RK2"
    ensures r == Some(RK4) <==> name == "RK4"
  {
    if name == "Euler" then Some(Euler)
    else if name == "RK2" then Some(RK2)
    else if name == "RK4" then Some(RK4)
    else None
  }

  // ---------------------------------------------------------------------
  // Time grid

  /** Time point `n` of the grid, computed directly from `n`. */
  function TimeAt(t0: real, dt: real, n: int): real
  {
    t0 + n as real * dt
  }

  /** The `N + 1` points of the time grid. */
  function TimeGrid(t0: real, dt: real, N: nat): (T: seq<real>)
    ensures |T| == N + 1
    ensures forall n :: 0 <= n <= N ==> T[n] == TimeAt(t0, dt, n)
  {
    seq(N + 1, n => TimeAt(t0, dt, n))
  }

  /** The grid a loop that adds `dt` to a running clock would produce. */
  function AccumulatedGrid(t0: real, dt: real, N: nat): (T: seq<real>)
    ensures |T| == N + 1
  {
    if N == 0 then [t0]
    else
      var prev := AccumulatedGrid(t0, dt, N - 1);
      prev + [prev[N - 1] + dt]
  }

  /** The grid starts at `t0` and its points are `dt` apart. */
  lemma TimeGridEvenlySpaced(t0: real, dt: real, N: nat)
    ensures |TimeGrid(t0, dt, N)| == N + 1
    ensures TimeGrid(t0, dt, N)[0] == t0
    ensures forall n :: 0 <= n < N ==> TimeGrid(t0, dt, N)[n + 1] == TimeGrid(t0, dt, N)[n] + dt
  {
  }

  /** Over exact arithmetic the direct grid and the accumulated one agree. */
  lemma {:induction false} TimeGridIsAccumulated(t0: real, dt: real, N: nat)
    ensures TimeGrid(t0, dt, N) == AccumulatedGrid(t0, dt, N)
  {
    if N > 0 {
      TimeGridIsAccumulated(t0, dt, N - 1);
      TimeGridEvenlySpaced(t0, dt, N);
      var T := TimeGrid(t0, dt, N);
      assert T == TimeGrid(t0, dt, N - 1) + [T[N]];
    }
  }

  // ---------------------------------------------------------------------
  // One step of each update rule

  /** Euler: s + dt * f(t, s). */
  function EulerStep(f: Derivative, dt: real, t: real, s: Vector): (r: Vector)
    requires PreservesDim(f, |s|)
    ensures |r| == |s|
  {
    Add(s, Scale(dt, f(t, s)))
  }

  /** Midpoint rule: k1 = dt * f(t, s), k2 = dt * f(t + dt/2, s + k1/2), s + k2. */
  function RK2Step(f: Derivative, dt: real, t: real, s: Vector): (r: Vector)
    requires PreservesDim(f, |s|)
    ensures |r| == |s|
  {
    var k1 := Scale(dt, f(t, s));
    var k2 := Scale(dt, f(t + dt / 2.0, Add(s, Scale(1.0 / 2.0, k1))));
    Add(s, k2)
  }

  /** Classical Runge-Kutta: four stages, each evaluated at `s` moved along the
      previous stage, combined with weights 1, 2, 2, 1 over 6. */
  function RK4Step(f: Derivative, dt: real, t: real, s: Vector): (r: Vector)
    requires PreservesDim(f, |s|)
    ensures |r| == |s|
  {
    var k1 := f(t, s);
    var k2 := f(t + dt / 2.0, Add(s, Scale(dt / 2.0, k1)));
    var k3 := f(t + dt / 2.0, Add(s, Scale(dt / 2.0, k2)));
    var k4 := f(t + dt, Add(s, Scale(dt, k3)));
    Add(s, Scale(dt / 6.0, Add(Add(Add(k1, Scale(2.0, k2)), Scale(2.0, k3)), k4)))
  }

  function Step(rule: Rule, f: Derivative, dt: real, t: real, s: Vector): (r: Vector)
    requires PreservesDim(f, |s|)
    ensures |r| == |s|
  {
    match rule
    case Euler => EulerStep(f, dt, t, s)
    case RK2 => RK2Step(f, dt, t, s)
    case RK4 => RK4Step(f, dt, t, s)
  }

  // ---------------------------------------------------------------------
  // Trajectories

  /** The first `n + 1` rows that `rule` produces from `s0`: row 0 is `s0` and
      each later row is one step from the row before, at that row's time. */
  function Run(rule: Rule, f: Derivative, dt: real, t0: real, s0: Vector, n: nat): (S: seq<Vector>)
    requires PreservesDim(f, |s0|)
    ensures |S| == n + 1 && S[0] == s0
    ensures forall k :: 0 <= k <= n ==> |S[k]| == |s0|
    ensures forall k :: 0 <= k < n ==> S[k + 1] == Step(rule, f, dt, TimeAt(t0, dt, k), S[k])
  {
    if n == 0 then [s0]
    else
      var prev := Run(rule, f, dt, t0, s0, n - 1);
      prev + [Step(rule, f, dt, TimeAt(t0, dt, n - 1), prev[n - 1])]
  }

  /** The whole state buffer: without a recognised rule, rows 1..N keep the
      zeros the buffer was allocated with. */
  function Trajectory(rule: Option<Rule>, f: Derivative, dt: real, t0: real, s0: Vector, N: nat): (S: seq<Vector>)
    requires PreservesDim(f, |s0|)
    ensures |S| == N + 1 && S[0] == s0
    ensures forall k :: 0 <= k <= N ==> |S[k]| == |s0|
  {
    match rule
    case Some(r) => Run(r, f, dt, t0, s0, N)
    case None => [s0] + seq(N, _ => Zeros(|s0|))
  }

  /** A trajectory is fixed by its first row and the step relation. */
  lemma {:induction false} RunIsUnique(rule: Rule, f: Derivative, dt: real, t0: real, s0: Vector, n: nat, S: seq<Vector>)
    requires PreservesDim(f, |s0|)
    requires |S| == n + 1 && S[0] == s0
    requires forall k :: 0 <= k <= n ==> |S[k]| == |s0|
    requires forall k :: 0 <= k < n ==> S[k + 1] == Step(rule, f, dt, TimeAt(t0, dt, k), S[k])
    ensures S == Run(rule, f, dt, t0, s0, n)
  {
    if n > 0 {
      var prefix := S[..n];
      RunIsUnique(rule, f, dt, t0, s0, n - 1, prefix);
      assert S == prefix + [S[n]];
    }
  }

  // ---------------------------------------------------------------------
  // Setting up the buffer

  /** The row `S[0] = s_0` stores: a number fills the row, an array of the
      row's length is copied, and an array of length one is broadcast. */
  function Broadcast(d: nat, s0: InitialState): (r: Option<Vector>)
    ensures r.Some? ==> |r.value| == d
  {
    match s0
    case Scalar(x) => Some(Fill(d, x))
    case Array(v) =>
      if |v| == d then Some(v)
      else if |v| == 1 then Some(Fill(d, v[0]))
      else None
  }

  /** Allocating the buffer and writing row 0, with the errors that can raise. */
  function InitialRow(dim: int, N: int, s0: InitialState): (r: Result<Vector>)
    ensures r.Success? ==> 1 <= dim && 0 <= N && |r.value| == dim
  {
    if dim < 1 then Failure(StateUnbound)
    else if N < -1 then Failure(NegativeDimensions)
    else if N == -1 then Failure(IndexOutOfRange)
    else
      match Broadcast(dim, s0)
      case None => Failure(ShapeMismatch)
      case Some(row) => Success(row)
  }

  /** What a call of the routine returns or raises. */
  function Solve(f: Derivative, dim: int, t0: real, s0: InitialState, dt: real, N: int, name: string): (r: Result<Trace>)
    requires dim >= 1 ==> PreservesDim(f, dim)
    ensures r.Failure? <==> InitialRow(dim, N, s0).Failure?
    ensures r.Failure? ==> r.error == InitialRow(dim, N, s0).error
    ensures r.Success? ==>
      && |r.value.times| == |r.value.states| == N + 1
      && r.value.states[0] == InitialRow(dim, N, s0).value
  {
    match InitialRow(dim, N, s0)
    case Failure(e) => Failure(e)
    case Success(row) => Success(Trace(TimeGrid(t0, dt, N), Trajectory(Classify(name), f, dt, t0, row, N)))
  }

  // ---------------------------------------------------------------------
  // The routine

  /** Builds the time grid, allocates a zero-filled state buffer, writes the
      initial state into row 0 and fills rows 1..N with the selected rule. */
  method DynamicsSolve(f: Derivative, dim: int, t0: real, s0: InitialState, dt: real, N: int, name: string)
    returns (r: Result<Solution>)
    requires dim >= 1 ==> PreservesDim(f, dim)
    ensures r.Failure? <==> Solve(f, dim, t0, s0, dt, N, name).Failure?
    ensures r.Failure? ==> r.error == Solve(f, dim, t0, s0, dt, N, name).error
    ensures r.Success? ==>
      && r.value.T[..] == Solve(f, dim, t0, s0, dt, N, name).value.times
      && r.value.S[..] == Solve(f, dim, t0, s0, dt, N, name).value.states
    ensures r.Success? ==> fresh(r.value.T) && fresh(r.value.S)
  {
    if dim < 1 {
      return Failure(StateUnbound);
    }
    if N < -1 {
      return Failure(NegativeDimensions);
    }
    if N == -1 {
      return Failure(IndexOutOfRange);
    }
    var row0 := Broadcast(dim, s0);
    if row0.None? {
      return Failure(ShapeMismatch);
    }
    var d: nat := dim;
    var s := row0.value;

    var T := new real[N + 1](n => TimeAt(t0, dt, n));
    assert T[..] == TimeGrid(t0, dt, N);
    var S := new Vector[N + 1](_ => Zeros(d));
    S[0] := s;

    if name == "Euler" {
      EulerLoop(f, dt, t0, T, S, N);
    }
    if name == "RK2" {
      RK2Loop(f, dt, t0, T, S, N);
    }
    if name == "RK4" {
      RK4Loop(f, dt, t0, T, S, N);
    }

    if Classify(name).None? {
      assert S[..] == [s] + seq(N, _ => Zeros(d));
    }
    assert S[..] == S[..N + 1];
    return Success(Solution(T, S));
  }

  /** The Euler loop: rows 1..N of `S`, in place, each from the row before. */
  method EulerLoop(f: Derivative, dt: real, t0: real, T: array<real>, S: array<Vector>, N: nat)
    requires T.Length == S.Length == N + 1 && T[..] == TimeGrid(t0, dt, N)
    requires PreservesDim(f, |S[0]|)
    modifies S
    ensures S[..] == Run(Euler, f, dt, t0, old(S[0]), N)
  {
    for n := 0 to N
      invariant S[..n + 1] == Run(Euler, f, dt, t0, old(S[0]), n)
    {
      ghost var prev := S[..n + 1];
      assert S[n] == prev[n];
      S[n + 1] := EulerStep(f, dt, T[n], S[n]);
      assert S[..n + 2] == prev + [S[n + 1]];
    }
  }

  /** The midpoint loop: rows 1..N of `S`, in place. */
  method RK2Loop(f: Derivative, dt: real, t0: real, T: array<real>, S: array<Vector>, N: nat)
    requires T.Length == S.Length == N + 1 && T[..] == TimeGrid(t0, dt, N)
    requires PreservesDim(f, |S[0]|)
    modifies S
    ensures S[..] == Run(RK2, f, dt, t0, old(S[0]), N)
  {
    for n := 0 to N
      invariant S[..n + 1] == Run(RK2, f, dt, t0, old(S[0]), n)
    {
      ghost var prev := S[..n + 1];
      assert S[n] == prev[n];
      S[n + 1] := RK2Step(f, dt, T[n], S[n]);
      assert S[..n + 2] == prev + [S[n + 1]];
    }
  }

  /** The RK4 loop: rows 1..N of `S`, in place. */
  method RK4Loop(f: Derivative, dt: real, t0: real, T: array<real>, S: array<Vector>, N: nat)
    requires T.Length == S.Length == N + 1 && T[..] == TimeGrid(t0, dt, N)
    requires PreservesDim(f, |S[0]|)
    modifies S
    ensures S[..] == Run(RK4, f, dt, t0, old(S[0]), N)
  {
    for n := 0 to N
      invariant S[..n + 1] == Run(RK4, f, dt, t0, old(S[0]), n)
    {
      ghost var prev := S[..n + 1];
      assert S[n] == prev[n];
      S[n + 1] := RK4Step(f, dt, T[n], S[n]);
      assert S[..n + 2] == prev + [S[n + 1]];
    }
  }

  // ---------------------------------------------------------------------
  // What a successful call returns

  /** Both outputs have N + 1 entries and every state has the dimension Dim. */
  lemma SolveShape(f: Derivative, dim: int, t0: real, s0: InitialState, dt: real, N: int, name: string)
    requires dim >= 1 ==> PreservesDim(f, dim)
    requires Solve(f, dim, t0, s0, dt, N, name).Success?
    ensures var tr := Solve(f, dim, t0, s0, dt, N, name).value;
      && |tr.times| == N + 1
      && |tr.states| == N + 1
      && forall k :: 0 <= k <= N ==> |tr.states[k]| == dim
  {
  }

  /** Which calls raise, and with what: the dimension is tested first, then
      the step count, then whether `s_0` fits a row. */
  lemma SolveFailure(f: Derivative, dim: int, t0: real, s0: InitialState, dt: real, N: int, name: string)
    requires dim >= 1 ==> PreservesDim(f, dim)
    ensures Solve(f, dim, t0, s0, dt, N, name).Failure? <==> dim < 1 || N < 0 || Broadcast(dim, s0).None?
    ensures dim < 1 ==> Solve(f, dim, t0, s0, dt, N, name) == Failure(StateUnbound)
    ensures 1 <= dim && N < -1 ==> Solve(f, dim, t0, s0, dt, N, name) == Failure(NegativeDimensions)
    ensures 1 <= dim && N == -1 ==> Solve(f, dim, t0, s0, dt, N, name) == Failure(IndexOutOfRange)
    ensures 1 <= dim && 0 <= N && Broadcast(dim, s0).None? ==>
      && Solve(f, dim, t0, s0, dt, N, name) == Failure(ShapeMismatch)
      && s0.Array? && |s0.entries| != dim && |s0.entries| != 1
  {
  }

  /** Row 0 holds `s_0`: copied when it is an array of length Dim, and spread
      over every component when it is a number or an array of length one. */
  lemma InitialStatePreserved(f: Derivative, dim: int, t0: real, s0: InitialState, dt: real, N: int, name: string)
    requires dim >= 1 ==> PreservesDim(f, dim)
    requires Solve(f, dim, t0, s0, dt, N, name).Success?
    ensures var S := Solve(f, dim, t0, s0, dt, N, name).value.states;
      && |S| == N + 1
      && |S[0]| == dim
      && (s0.Scalar? ==> forall i :: 0 <= i < dim ==> S[0][i] == s0.value)
      && (s0.Array? && |s0.entries| == dim ==> S[0] == s0.entries)
      && (s0.Array? && |s0.entries| != dim ==>
            |s0.entries| == 1 && forall i :: 0 <= i < dim ==> S[0][i] == s0.entries[0])
  {
  }

  /** The time grid: T[n] is t_0 + n * dt for each n in 0..N. */
  lemma TimesFollowGrid(f: Derivative, dim: int, t0: real, s0: InitialState, dt: real, N: int, name: string)
    requires dim >= 1 ==> PreservesDim(f, dim)
    requires Solve(f, dim, t0, s0, dt, N, name).Success?
    ensures var T := Solve(f, dim, t0, s0, dt, N, name).value.times;
      |T| == N + 1 && forall n :: 0 <= n <= N ==> T[n] == t0 + n as real * dt
  {
  }

  /** With no steps the result is the single point (t_0, s_0). */
  lemma NoSteps(f: Derivative, dim: int, t0: real, s0: InitialState, dt: real, name: string)
    requires dim >= 1 ==> PreservesDim(f, dim)
    requires InitialRow(dim, 0, s0).Success?
    ensures Solve(f, dim, t0, s0, dt, 0, name) == Success(Trace([t0], [InitialRow(dim, 0, s0).value]))
  {
    var row := InitialRow(dim, 0, s0).value;
    assert TimeGrid(t0, dt, 0) == [t0];
    assert Trajectory(Classify(name), f, dt, t0, row, 0) == [row];
  }

  /** Euler: every row is the previous row plus dt times the derivative there. */
  lemma EulerRecurrence(f: Derivative, dim: int, t0: real, s0: InitialState, dt: real, N: int)
    requires dim >= 1 ==> PreservesDim(f, dim)
    requires Solve(f, dim, t0, s0, dt, N, "Euler").Success?
    ensures var tr := Solve(f, dim, t0, s0, dt, N, "Euler").value;
      && |tr.times| == |tr.states| == N + 1
      && (forall k :: 0 <= k <= N ==> |tr.states[k]| == dim)
      && forall n :: 0 <= n < N ==>
           tr.states[n + 1] == Add(tr.states[n], Scale(dt, f(tr.times[n], tr.states[n])))
  {
  }

  /** RK2: every row is the previous row plus the midpoint stage k2. */
  lemma RK2Recurrence(f: Derivative, dim: int, t0: real, s0: InitialState, dt: real, N: int)
    requires dim >= 1 ==> PreservesDim(f, dim)
    requires Solve(f, dim, t0, s0, dt, N, "RK2").Success?
    ensures var tr := Solve(f, dim, t0, s0, dt, N, "RK2").value;
      && |tr.times| == |tr.states| == N + 1
      && (forall k :: 0 <= k <= N ==> |tr.states[k]| == dim)
      && forall n :: 0 <= n < N ==> tr.states[n + 1] == RK2Step(f, dt, tr.times[n], tr.states[n])
  {
  }

  /** RK4: every row is the previous row plus the weighted stages. */
  lemma RK4Recurrence(f: Derivative, dim: int, t0: real, s0: InitialState, dt: real, N: int)
    requires dim >= 1 ==> PreservesDim(f, dim)
    requires Solve(f, dim, t0, s0, dt, N, "RK4").Success?
    ensures var tr := Solve(f, dim, t0, s0, dt, N, "RK4").value;
      && |tr.times| == |tr.states| == N + 1
      && (forall k :: 0 <= k <= N ==> |tr.states[k]| == dim)
      && forall n :: 0 <= n < N ==> tr.states[n + 1] == RK4Step(f, dt, tr.times[n], tr.states[n])
  {
  }

  /** A name that none of the three tests accepts runs no loop: row 0 holds
      the initial state and every later row stays zero. */
  lemma UnknownMethodLeavesZeros(f: Derivative, dim: int, t0: real, s0: InitialState, dt: real, N: int, name: string)
    requires dim >= 1 ==> PreservesDim(f, dim)
    requires name != "Euler" && name != "RK2" && name != "RK4"
    requires Solve(f, dim, t0, s0, dt, N, name).Success?
    ensures var S := Solve(f, dim, t0, s0, dt, N, name).value.states;
      && 1 <= dim
      && |S| == N + 1
      && S[0] == InitialRow(dim, N, s0).value
      && forall j :: 1 <= j <= N ==> S[j] == Zeros(dim)
  {
  }

  // ---------------------------------------------------------------------
  // A derivative that is identically zero

  /** `f` returns the zero rate for every state of dimension `d`. */
  ghost predicate Stationary(f: Derivative, d: nat)
  {
    PreservesDim(f, d) && forall t: real, s: Vector :: |s| == d ==> f(t, s) == Zeros(d)
  }

  lemma AddZeros(s: Vector, z: Vector)
    requires |z| == |s| && forall i :: 0 <= i < |z| ==> z[i] == 0.0
    ensures Add(s, z) == s
  {
  }

  /** No rule moves a state whose derivative is zero. */
  lemma StepAtRest(rule: Rule, f: Derivative, dt: real, t: real, s: Vector)
    requires Stationary(f, |s|)
    ensures Step(rule, f, dt, t, s) == s
  {
    // Each stage is the zero vector, so every addition leaves `s` as it is;
    // naming them one by one keeps the proof stable across solver seeds.
    match rule
    case Euler =>
      AddZeros(s, Scale(dt, f(t, s)));
    case RK2 =>
      var k1 := Scale(dt, f(t, s));
      AddZeros(s, Scale(1.0 / 2.0, k1));
      var k2 := Scale(dt, f(t + dt / 2.0, s));
      AddZeros(s, k2);
    case RK4 =>
      var k1 := f(t, s);
      AddZeros(s, Scale(dt / 2.0, k1));
      var k2 := f(t + dt / 2.0, s);
      AddZeros(s, Scale(dt / 2.0, k2));
      var k3 := f(t + dt / 2.0, s);
      AddZeros(s, Scale(dt, k3));
      var k4 := f(t + dt, s);
      var sum := Add(Add(Add(k1, Scale(2.0, k2)), Scale(2.0, k3)), k4);
      AddZeros(s, Scale(dt / 6.0, sum));
  }

  lemma {:induction false} RunAtRest(rule: Rule, f: Derivative, dt: real, t0: real, s0: Vector, n: nat)
    requires Stationary(f, |s0|)
    ensures forall k :: 0 <= k <= n ==> Run(rule, f, dt, t0, s0, n)[k] == s0
  {
    if n > 0 {
      RunAtRest(rule, f, dt, t0, s0, n - 1);
      StepAtRest(rule, f, dt, TimeAt(t0, dt, n - 1), s0);
    }
  }

  /** With a zero derivative every row equals row 0, under all three rules. */
  lemma ZeroDerivativeKeepsInitialState(f: Derivative, dim: int, t0: real, s0: InitialState, dt: real, N: int, name: string)
    requires dim >= 1 && Stationary(f, dim)
    requires name == "Euler" || name == "RK2" || name == "RK4"
    requires Solve(f, dim, t0, s0, dt, N, name).Success?
    ensures var S := Solve(f, dim, t0, s0, dt, N, name).value.states;
      |S| == N + 1 && forall k :: 0 <= k <= N ==> S[k] == S[0]
  {
    var row := InitialRow(dim, N, s0).value;
    RunAtRest(Classify(name).value, f, dt, t0, row, N);
  }

  // ---------------------------------------------------------------------
  // Systems whose components do not interact

  /** Component `i` of the rate depends only on the time and on component `i`
      of the state, through `g(i, t, x)`. */
  ghost predicate Decoupled(f: Derivative, d: nat, g: (nat, real, real) -> real)
  {
    PreservesDim(f, d) &&
    forall t: real, s: Vector, i: nat :: |s| == d && i < d ==> f(t, s)[i] == g(i, t, s[i])
  }

  /** `g(i, ., .)` applied to every component of `x`. */
  function Lift(g: (nat, real, real) -> real, i: nat, t: real, x: Vector): (y: Vector)
    ensures |y| == |x|
    ensures forall j :: 0 <= j < |x| ==> y[j] == g(i, t, x[j])
  {
    seq(|x|, j requires 0 <= j < |x| => g(i, t, x[j]))
  }

  /** The one-dimensional system that component `i` follows on its own. */
  function Component(g: (nat, real, real) -> real, i: nat): (h: Derivative)
    ensures PreservesDim(h, 1)
  {
    (t, x) => Lift(g, i, t, x)
  }

  /** One step of a decoupled system, read at component `i`, is one step of
      component `i`'s own scalar system. */
  lemma StepDecouples(rule: Rule, f: Derivative, d: nat, g: (nat, real, real) -> real, dt: real, t: real, s: Vector, i: nat)
    requires Decoupled(f, d, g) && |s| == d && i < d
    ensures Step(rule, f, dt, t, s)[i] == Step(rule, Component(g, i), dt, t, [s[i]])[0]
  {
    match rule
    case Euler =>
      assert f(t, s)[i] == Component(g, i)(t, [s[i]])[0];
    case RK2 => RK2StepDecouples(f, d, g, dt, t, s, i);
    case RK4 => RK4StepDecouples(f, d, g, dt, t, s, i);
  }

  lemma RK2StepDecouples(f: Derivative, d: nat, g: (nat, real, real) -> real, dt: real, t: real, s: Vector, i: nat)
    requires Decoupled(f, d, g) && |s| == d && i < d
    ensures RK2Step(f, dt, t, s)[i] == RK2Step(Component(g, i), dt, t, [s[i]])[0]
  {
    var h, x := Component(g, i), [s[i]];
    var k1, c1 := Scale(dt, f(t, s)), Scale(dt, h(t, x));
    assert k1[i] == c1[0];
    var a, b := Add(s, Scale(1.0 / 2.0, k1)), Add(x, Scale(1.0 / 2.0, c1));
    assert a[i] == b[0];
    assert f(t + dt / 2.0, a)[i] == h(t + dt / 2.0, b)[0];
  }

  /** The stage `f(t', s + c * k)` of a decoupled system, at component `i`. */
  lemma StageDecouples(f: Derivative, d: nat, g: (nat, real, real) -> real, t: real, c: real,
                       s: Vector, k: Vector, i: nat, x: Vector, kx: Vector)
    requires Decoupled(f, d, g) && |s| == |k| == d && i < d
    requires x == [s[i]] && |kx| == 1 && kx[0] == k[i]
    ensures f(t, Add(s, Scale(c, k)))[i] == Component(g, i)(t, Add(x, Scale(c, kx)))[0]
  {
    var a, b := Add(s, Scale(c, k)), Add(x, Scale(c, kx));
    assert a[i] == b[0];
  }

  lemma RK4StepDecouples(f: Derivative, d: nat, g: (nat, real, real) -> real, dt: real, t: real, s: Vector, i: nat)
    requires Decoupled(f, d, g) && |s| == d && i < d
    ensures RK4Step(f, dt, t, s)[i] == RK4Step(Component(g, i), dt, t, [s[i]])[0]
  {
    var h, x := Component(g, i), [s[i]];
    var k1, c1 := f(t, s), h(t, x);
    var k2, c2 := f(t + dt / 2.0, Add(s, Scale(dt / 2.0, k1))), h(t + dt / 2.0, Add(x, Scale(dt / 2.0, c1)));
    StageDecouples(f, d, g, t + dt / 2.0, dt / 2.0, s, k1, i, x, c1);
    var k3, c3 := f(t + dt / 2.0, Add(s, Scale(dt / 2.0, k2))), h(t + dt / 2.0, Add(x, Scale(dt / 2.0, c2)));
    StageDecouples(f, d, g, t + dt / 2.0, dt / 2.0, s, k2, i, x, c2);
    StageDecouples(f, d, g, t + dt, dt, s, k3, i, x, c3);
  }

  lemma {:induction false} RunDecouples(rule: Rule, f: Derivative, d: nat, g: (nat, real, real) -> real, dt: real, t0: real, s0: Vector, n: nat, i: nat)
    requires Decoupled(f, d, g) && |s0| == d && i < d
    ensures forall k :: 0 <= k <= n ==>
      Run(rule, f, dt, t0, s0, n)[k][i] == Run(rule, Component(g, i), dt, t0, [s0[i]], n)[k][0]
  {
    if n > 0 {
      RunDecouples(rule, f, d, g, dt, t0, s0, n - 1, i);
      var S := Run(rule, f, dt, t0, s0, n - 1);
      var C := Run(rule, Component(g, i), dt, t0, [s0[i]], n - 1);
      assert C[n - 1] == [S[n - 1][i]];
      StepDecouples(rule, f, d, g, dt, TimeAt(t0, dt, n - 1), S[n - 1], i);
    }
  }

  /** Integrating a decoupled system of dimension Dim gives, in component `i`,
      exactly the trajectory of the scalar system for that component alone. */
  lemma DecoupledComponentsIntegrateIndependently(
    f: Derivative, dim: nat, g: (nat, real, real) -> real,
    t0: real, v: seq<real>, dt: real, N: nat, name: string, i: nat)
    requires Decoupled(f, dim, g) && |v| == dim && i < dim
    ensures Solve(f, dim, t0, Array(v), dt, N, name).Success?
    ensures Solve(Component(g, i), 1, t0, Scalar(v[i]), dt, N, name).Success?
    ensures forall k :: 0 <= k <= N ==>
      Solve(f, dim, t0, Array(v), dt, N, name).value.states[k][i]
        == Solve(Component(g, i), 1, t0, Scalar(v[i]), dt, N, name).value.states[k][0]
  {
    var row := [v[i]];
    assert Fill(1, v[i]) == row;
    match Classify(name)
    case Some(rule) =>
      RunDecouples(rule, f, dim, g, dt, t0, v, N, i);
    case None =>
  }
}
