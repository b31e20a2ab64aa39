/**
 * The single-qubit simulator: complex arithmetic, the Hadamard and Ry
 * gates, gate application, the two fixed gate pipelines, measurement
 * probabilities, sampled measurement counts, the Bloch vector and the
 * probability-versus-angle sweep.
 *
 * The source evaluates `Math.cos`, `Math.sin`, `Math.PI` and
 * `1 / Math.sqrt(2)` in floating point. Here they come in as a `Math`
 * record; `Sound(m)` states the exact facts about them that the proofs
 * use. `Math.random()` draws come in as a sequence of reals.
 */
module QuantumSimulator {
  import opened Types

  // ---------------------------------------------------------------------
  // Complex number utilities
  // ---------------------------------------------------------------------

  function Add(a: Complex, b: Complex): Complex
  {
    Complex(a.re + b.re, a.im + b.im)
  }

  function Multiply(a: Complex, b: Complex): Complex
  {
    Complex(a.re * b.re - a.im * b.im, a.re * b.im + a.im * b.re)
  }

  /** The conjugate, of the same magnitude. */
  function Conjugate(a: Complex): (r: Complex)
    ensures MagnitudeSq(r) == MagnitudeSq(a)
  {
    Complex(a.re, -a.im)
  }

  /** |a|^2. */
  function MagnitudeSq(a: Complex): real
  {
    a.re * a.re + a.im * a.im
  }

  /** |a * b|^2 == |a|^2 * |b|^2. */
  lemma MagnitudeSqMultiply(a: Complex, b: Complex)
    ensures MagnitudeSq(Multiply(a, b)) == MagnitudeSq(a) * MagnitudeSq(b)
  {
    var p, q, u, v := a.re, a.im, b.re, b.im;
    calc {
      MagnitudeSq(Multiply(a, b));
      (p * u - q * v) * (p * u - q * v) + (p * v + q * u) * (p * v + q * u);
      { Lagrange(p, q, u, v); }
      (p * p + q * q) * (u * u + v * v);
    }
  }

  /** The two-square identity behind MagnitudeSqMultiply. */
  lemma Lagrange(p: real, q: real, u: real, v: real)
    ensures (p * u - q * v) * (p * u - q * v) + (p * v + q * u) * (p * v + q * u)
         == (p * p + q * q) * (u * u + v * v)
  {
  }

  /** Conjugation is an involution, and conj(a) * a is the real |a|^2. */
  lemma ConjugateProperties(a: Complex)
    ensures Conjugate(Conjugate(a)) == a
    ensures Multiply(Conjugate(a), a) == Complex(MagnitudeSq(a), 0.0)
  {
  }

  // ---------------------------------------------------------------------
  // The environment: the parts of JavaScript's Math the simulator uses
  // ---------------------------------------------------------------------

  /**
   * `cos` and `sin` stand for `Math.cos` and `Math.sin`, `PI` for
   * `Math.PI`, and `SQRT1_2` for the value `1 / Math.sqrt(2)` that the
   * source computes once.
   */
  datatype Math = Math(cos: real -> real, sin: real -> real, PI: real, SQRT1_2: real)

  /** What holds of the exact trigonometric functions and constants. */
  ghost predicate Sound(m: Math)
  {
    && m.PI > 0.0
    && m.SQRT1_2 > 0.0
    && m.SQRT1_2 * m.SQRT1_2 == 0.5
    && m.cos(0.0) == 1.0 && m.sin(0.0) == 0.0
    && m.cos(m.PI / 2.0) == 0.0 && m.sin(m.PI / 2.0) == 1.0
    && forall t :: m.cos(t) * m.cos(t) + m.sin(t) * m.sin(t) == 1.0
  }

  // ---------------------------------------------------------------------
  // States and gates
  // ---------------------------------------------------------------------

  /** The basis state |0>. */
  const STATE_ZERO: QubitState := QubitState(Complex(1.0, 0.0), Complex(0.0, 0.0))

  /** A 2x2 matrix of complex numbers, [[g00, g01], [g10, g11]]. */
  datatype Gate = Gate(g00: Complex, g01: Complex, g10: Complex, g11: Complex)

  /** |alpha|^2 + |beta|^2. */
  function Norm(s: QubitState): real
  {
    MagnitudeSq(s.alpha) + MagnitudeSq(s.beta)
  }

  /** A gate with real entries whose columns are orthonormal. */
  ghost predicate IsRealOrthogonal(g: Gate)
  {
    && g.g00.im == 0.0 && g.g01.im == 0.0 && g.g10.im == 0.0 && g.g11.im == 0.0
    && g.g00.re * g.g00.re + g.g10.re * g.g10.re == 1.0
    && g.g01.re * g.g01.re + g.g11.re * g.g11.re == 1.0
    && g.g00.re * g.g01.re + g.g10.re * g.g11.re == 0.0
  }

  /** The Hadamard gate [[h, h], [h, -h]] with h = 1/sqrt(2). */
  function HadamardGate(m: Math): (g: Gate)
    ensures Sound(m) ==> IsRealOrthogonal(g)
  {
    var h := m.SQRT1_2;
    Gate(Complex(h, 0.0), Complex(h, 0.0), Complex(h, 0.0), Complex(-h, 0.0))
  }

  /** The rotation Ry(theta) = [[cos(theta/2), -sin(theta/2)], [sin(theta/2), cos(theta/2)]]. */
  function RyGate(m: Math, theta: real): (g: Gate)
    ensures Sound(m) ==> IsRealOrthogonal(g)
  {
    var c := m.cos(theta / 2.0);
    var s := m.sin(theta / 2.0);
    Gate(Complex(c, 0.0), Complex(-s, 0.0), Complex(s, 0.0), Complex(c, 0.0))
  }

  /**
   * Matrix-vector product; returns a new state. Applied to |0> it picks
   * out the gate's first column (its norm is kept by ApplyGatePreservesNorm).
   */
  function ApplyGate(g: Gate, s: QubitState): (r: QubitState)
    ensures s == STATE_ZERO ==> r == QubitState(g.g00, g.g10)
  {
    QubitState(Add(Multiply(g.g00, s.alpha), Multiply(g.g01, s.beta)),
               Add(Multiply(g.g10, s.alpha), Multiply(g.g11, s.beta)))
  }

  /** The real inner product of two complex numbers seen as plane vectors. */
  function Dot(x: Complex, y: Complex): real
  {
    x.re * y.re + x.im * y.im
  }

  /** The squared length of the real linear combination a*x + b*y of two complex numbers. */
  lemma CombinationNorm(a: real, b: real, x: Complex, y: Complex)
    ensures MagnitudeSq(Add(Multiply(Complex(a, 0.0), x), Multiply(Complex(b, 0.0), y)))
         == a * a * MagnitudeSq(x) + b * b * MagnitudeSq(y) + 2.0 * a * b * Dot(x, y)
  {
    var r := Add(Multiply(Complex(a, 0.0), x), Multiply(Complex(b, 0.0), y));
    assert r == Complex(a * x.re + b * y.re, a * x.im + b * y.im);
  }

  /** Every real orthogonal gate preserves |alpha|^2 + |beta|^2. */
  lemma ApplyGatePreservesNorm(g: Gate, s: QubitState)
    ensures IsRealOrthogonal(g) ==> Norm(ApplyGate(g, s)) == Norm(s)
  {
    if IsRealOrthogonal(g) {
      RowNorm(g.g00, g.g01, s);
      RowNorm(g.g10, g.g11, s);
      Regroup(g.g00.re, g.g01.re, g.g10.re, g.g11.re,
              MagnitudeSq(s.alpha), MagnitudeSq(s.beta), Dot(s.alpha, s.beta));
    }
  }

  /** a^2 A + b^2 B + 2ab X: the squared length of a*x + b*y when A, B, X are |x|^2, |y|^2, x.y. */
  function Combined(a: real, b: real, A: real, B: real, X: real): real
  {
    a * a * A + b * b * B + 2.0 * a * b * X
  }

  /** The squared length of one row of a real gate applied to a state. */
  lemma RowNorm(u: Complex, v: Complex, s: QubitState)
    requires u.im == 0.0 && v.im == 0.0
    ensures MagnitudeSq(Add(Multiply(u, s.alpha), Multiply(v, s.beta)))
         == Combined(u.re, v.re, MagnitudeSq(s.alpha), MagnitudeSq(s.beta), Dot(s.alpha, s.beta))
  {
    assert u == Complex(u.re, 0.0) && v == Complex(v.re, 0.0);
    CombinationNorm(u.re, v.re, s.alpha, s.beta);
  }

  /** The two rows' squared lengths add up to A + B when the columns are orthonormal. */
  lemma Regroup(a: real, b: real, c: real, d: real, A: real, B: real, X: real)
    requires a * a + c * c == 1.0 && b * b + d * d == 1.0 && a * b + c * d == 0.0
    ensures Combined(a, b, A, B, X) + Combined(c, d, A, B, X) == A + B
  {
    calc {
      Combined(a, b, A, B, X) + Combined(c, d, A, B, X);
      (a * a + c * c) * A + (b * b + d * d) * B + 2.0 * (a * b + c * d) * X;
      A + B;
    }
  }

  /** Applying the Hadamard gate twice gives back the state. */
  lemma HadamardIsInvolution(m: Math, s: QubitState)
    requires Sound(m)
    ensures ApplyGate(HadamardGate(m), ApplyGate(HadamardGate(m), s)) == s
  {
    HadamardTwice(HadamardGate(m), m.SQRT1_2, s);
  }

  /** The Hadamard matrix with entry h applied twice is the identity when h^2 == 1/2. */
  lemma HadamardTwice(g: Gate, h: real, s: QubitState)
    requires g == Gate(Complex(h, 0.0), Complex(h, 0.0), Complex(h, 0.0), Complex(-h, 0.0))
    requires h * h == 0.5
    ensures ApplyGate(g, ApplyGate(g, s)) == s
  {
    var t := ApplyGate(g, s);
    assert t.alpha == Complex(h * s.alpha.re + h * s.beta.re, h * s.alpha.im + h * s.beta.im);
    assert t.beta == Complex(h * s.alpha.re - h * s.beta.re, h * s.alpha.im - h * s.beta.im);
    var u := ApplyGate(g, t);
    assert u.alpha == Complex(h * t.alpha.re + h * t.beta.re, h * t.alpha.im + h * t.beta.im);
    assert u.beta == Complex(h * t.alpha.re - h * t.beta.re, h * t.alpha.im - h * t.beta.im);
    Butterfly(h, s.alpha.re, s.beta.re);
    Butterfly(h, s.alpha.im, s.beta.im);
  }

  /** Two Hadamard butterflies on a pair of reals give the pair back when h^2 == 1/2. */
  lemma Butterfly(h: real, x: real, y: real)
    requires h * h == 0.5
    ensures h * (h * x + h * y) + h * (h * x - h * y) == x
    ensures h * (h * x + h * y) - h * (h * x - h * y) == y
  {
    calc {
      h * (h * x + h * y) + h * (h * x - h * y);
      2.0 * (h * h) * x;
    }
    calc {
      h * (h * x + h * y) - h * (h * x - h * y);
      2.0 * (h * h) * y;
    }
  }

  /** Ry(0) is the identity. */
  lemma RyZeroIsIdentity(m: Math, s: QubitState)
    requires Sound(m)
    ensures ApplyGate(RyGate(m, 0.0), s) == s
  {
  }

  // ---------------------------------------------------------------------
  // Measurement probabilities and the two pipelines
  // ---------------------------------------------------------------------

  /**
   * P(|0>) = |alpha|^2 and P(|1>) = |beta|^2, with no renormalisation:
   * they sum to the state's norm, so to 1 exactly for a normalised state.
   */
  function GetMeasurementProbs(s: QubitState): (p: Probabilities)
    ensures p.p0 >= 0.0 && p.p1 >= 0.0
    ensures p.p0 + p.p1 == Norm(s)
  {
    Probabilities(MagnitudeSq(s.alpha), MagnitudeSq(s.beta))
  }

  /** A pipeline's final state and its probabilities. */
  datatype SimulationResult = SimulationResult(state: QubitState, probabilities: Probabilities)

  /** The Hadamard gate takes |0> to (h, h), a normalised state. */
  lemma HadamardOnZero(m: Math)
    ensures var h := m.SQRT1_2;
            ApplyGate(HadamardGate(m), STATE_ZERO) == QubitState(Complex(h, 0.0), Complex(h, 0.0))
    ensures Sound(m) ==> Norm(ApplyGate(HadamardGate(m), STATE_ZERO)) == 1.0
  {
    var h := m.SQRT1_2;
    assert Norm(QubitState(Complex(h, 0.0), Complex(h, 0.0))) == h * h + h * h;
  }

  /** Ry(theta) takes |0> to (cos(theta/2), sin(theta/2)), a normalised state. */
  lemma RyOnZero(m: Math, theta: real)
    ensures var c, s := m.cos(theta / 2.0), m.sin(theta / 2.0);
            ApplyGate(RyGate(m, theta), STATE_ZERO) == QubitState(Complex(c, 0.0), Complex(s, 0.0))
    ensures Sound(m) ==> Norm(ApplyGate(RyGate(m, theta), STATE_ZERO)) == 1.0
  {
    var c, s := m.cos(theta / 2.0), m.sin(theta / 2.0);
    assert Norm(QubitState(Complex(c, 0.0), Complex(s, 0.0))) == c * c + s * s;
  }

  /** H then Ry(theta) applied to |0>; the result is normalised. */
  function RunSimulation(m: Math, theta: real): (r: SimulationResult)
    ensures r.probabilities == GetMeasurementProbs(r.state)
    ensures Sound(m) ==> Norm(r.state) == 1.0
    ensures Sound(m) ==> r.probabilities.p0 + r.probabilities.p1 == 1.0
  {
    var state := STATE_ZERO;
    var state := ApplyGate(HadamardGate(m), state);
    var ryGate := RyGate(m, theta);
    HadamardOnZero(m);
    ApplyGatePreservesNorm(ryGate, state);
    var state := ApplyGate(ryGate, state);
    SimulationResult(state, GetMeasurementProbs(state))
  }

  /** Ry(theta) applied to |0>; the result is normalised. */
  function RunFlipSimulation(m: Math, theta: real): (r: SimulationResult)
    ensures r.probabilities == GetMeasurementProbs(r.state)
    ensures Sound(m) ==> Norm(r.state) == 1.0
    ensures Sound(m) ==> r.probabilities.p0 + r.probabilities.p1 == 1.0
  {
    var state := STATE_ZERO;
    var ryGate := RyGate(m, theta);
    RyOnZero(m, theta);
    var state := ApplyGate(ryGate, state);
    SimulationResult(state, GetMeasurementProbs(state))
  }

  /** The Hadamard gate alone puts |0> into an even superposition. */
  lemma HadamardMidpoint(m: Math)
    requires Sound(m)
    ensures GetMeasurementProbs(ApplyGate(HadamardGate(m), STATE_ZERO)) == Probabilities(0.5, 0.5)
  {
    var h := m.SQRT1_2;
    HadamardOnZero(m);
    assert MagnitudeSq(Complex(h, 0.0)) == h * h;
  }

  /** runSimulation(theta) gives p0 = (cos(theta/2) - sin(theta/2))^2 / 2 and p1 = (cos + sin)^2 / 2. */
  lemma RunSimulationClosedForm(m: Math, theta: real)
    requires Sound(m)
    ensures var c, s := m.cos(theta / 2.0), m.sin(theta / 2.0);
            && RunSimulation(m, theta).probabilities.p0 == (c - s) * (c - s) / 2.0
            && RunSimulation(m, theta).probabilities.p1 == (c + s) * (c + s) / 2.0
  {
    var h, c, s := m.SQRT1_2, m.cos(theta / 2.0), m.sin(theta / 2.0);
    var st := RunSimulation(m, theta).state;
    HadamardOnZero(m);
    assert st == ApplyGate(RyGate(m, theta), QubitState(Complex(h, 0.0), Complex(h, 0.0)));
    assert st == QubitState(Complex(c * h - s * h, 0.0), Complex(s * h + c * h, 0.0));
    ScaledSquare(c - s, h);
    ScaledSquare(c + s, h);
    assert c * h - s * h == (c - s) * h;
    assert s * h + c * h == (c + s) * h;
    assert MagnitudeSq(st.alpha) == ((c - s) * h) * ((c - s) * h);
    assert MagnitudeSq(st.beta) == ((c + s) * h) * ((c + s) * h);
  }

  /** (x h)^2 == x^2 / 2 when h^2 == 1/2. */
  lemma ScaledSquare(x: real, h: real)
    requires h * h == 0.5
    ensures (x * h) * (x * h) == x * x / 2.0
  {
    calc {
      (x * h) * (x * h);
      (x * x) * (h * h);
      (x * x) * 0.5;
    }
  }

  /** runFlipSimulation(theta) gives p0 = cos^2(theta/2) and p1 = sin^2(theta/2). */
  lemma RunFlipSimulationClosedForm(m: Math, theta: real)
    ensures var c, s := m.cos(theta / 2.0), m.sin(theta / 2.0);
            && RunFlipSimulation(m, theta).probabilities.p0 == c * c
            && RunFlipSimulation(m, theta).probabilities.p1 == s * s
  {
    var c, s := m.cos(theta / 2.0), m.sin(theta / 2.0);
    RyOnZero(m, theta);
    assert MagnitudeSq(Complex(c, 0.0)) == c * c;
    assert MagnitudeSq(Complex(s, 0.0)) == s * s;
  }

  /** The coin always reads |0> at angle 0 and always reads |1> at angle pi. */
  lemma RunFlipSimulationEndpoints(m: Math)
    requires Sound(m)
    ensures RunFlipSimulation(m, 0.0).probabilities == Probabilities(1.0, 0.0)
    ensures RunFlipSimulation(m, m.PI).probabilities == Probabilities(0.0, 1.0)
  {
    FlipAtZero(m);
    FlipAtPi(m);
  }

  /** At angle 0 the coin is |0>. */
  lemma FlipAtZero(m: Math)
    requires m.cos(0.0) == 1.0 && m.sin(0.0) == 0.0
    ensures RunFlipSimulation(m, 0.0).probabilities == Probabilities(1.0, 0.0)
  {
    assert 0.0 / 2.0 == 0.0;
    FlipProbabilitiesAt(m, 0.0, 1.0, 0.0);
  }

  /** At angle pi the coin is |1>. */
  lemma FlipAtPi(m: Math)
    requires m.cos(m.PI / 2.0) == 0.0 && m.sin(m.PI / 2.0) == 1.0
    ensures RunFlipSimulation(m, m.PI).probabilities == Probabilities(0.0, 1.0)
  {
    FlipProbabilitiesAt(m, m.PI, 0.0, 1.0);
  }

  /** runFlipSimulation's probabilities at an angle whose half-angle cosine and sine are known. */
  lemma FlipProbabilitiesAt(m: Math, theta: real, c: real, s: real)
    requires m.cos(theta / 2.0) == c && m.sin(theta / 2.0) == s
    ensures RunFlipSimulation(m, theta).probabilities == Probabilities(c * c, s * s)
  {
    RunFlipSimulationClosedForm(m, theta);
  }

  // ---------------------------------------------------------------------
  // Sampled measurements
  // ---------------------------------------------------------------------

  /** The number of draws strictly below p0: the shots that read '0'. */
  function CountBelow(draws: seq<real>, p0: real): (n: nat)
    ensures n <= |draws|
  {
    if |draws| == 0 then 0
    else CountBelow(draws[..|draws| - 1], p0) + (if draws[|draws| - 1] < p0 then 1 else 0)
  }

  /** With p0 >= 1 every draw in [0, 1) reads '0'. */
  lemma {:induction false} CountBelowCertain(draws: seq<real>, p0: real)
    requires p0 >= 1.0
    requires forall k :: 0 <= k < |draws| ==> IsDraw(draws[k])
    ensures CountBelow(draws, p0) == |draws|
  {
    if |draws| > 0 {
      CountBelowCertain(draws[..|draws| - 1], p0);
    }
  }

  /** With p0 <= 0 no draw in [0, 1) reads '0'. */
  lemma {:induction false} CountBelowImpossible(draws: seq<real>, p0: real)
    requires p0 <= 0.0
    requires forall k :: 0 <= k < |draws| ==> IsDraw(draws[k])
    ensures CountBelow(draws, p0) == 0
  {
    if |draws| > 0 {
      CountBelowImpossible(draws[..|draws| - 1], p0);
    }
  }

  /** A larger p0 never yields fewer '0' readings from the same draws. */
  lemma {:induction false} CountBelowMonotone(draws: seq<real>, p: real, q: real)
    requires p <= q
    ensures CountBelow(draws, p) <= CountBelow(draws, q)
  {
    if |draws| > 0 {
      CountBelowMonotone(draws[..|draws| - 1], p, q);
    }
  }

  /**
   * `shots` Bernoulli trials, trial i reading '0' when draws[i] < p0.
   * A negative `shots` runs no trial, as the source's loop does.
   */
  method SimulateMeasurements(state: QubitState, shots: int, draws: seq<real>)
    returns (counts: MeasurementCounts)
    requires |draws| == if shots < 0 then 0 else shots
    ensures counts.zeros == CountBelow(draws, GetMeasurementProbs(state).p0)
    ensures counts.zeros + counts.ones == shots
    ensures shots >= 0 ==> 0 <= counts.zeros <= shots && counts.ones >= 0
    ensures shots == 0 ==> counts == MeasurementCounts(0, 0)
  {
    var p0 := GetMeasurementProbs(state).p0;
    var count0 := 0;
    var i := 0;
    while i < shots
      invariant 0 <= i <= |draws|
      invariant count0 == CountBelow(draws[..i], p0)
    {
      assert draws[..i + 1][..i] == draws[..i];
      if draws[i] < p0 {
        count0 := count0 + 1;
      }
      i := i + 1;
    }
    assert draws[..|draws|] == draws;
    counts := MeasurementCounts(count0, shots - count0);
  }

  // ---------------------------------------------------------------------
  // The Bloch vector
  // ---------------------------------------------------------------------

  /**
   * x = 2 Re(conj(alpha) beta), y = 2 Im(conj(alpha) beta),
   * z = |alpha|^2 - |beta|^2; z is the difference of the probabilities.
   */
  function GetBlochVector(s: QubitState): (v: BlochVector)
    ensures v.z == GetMeasurementProbs(s).p0 - GetMeasurementProbs(s).p1
  {
    var alphaConj := Conjugate(s.alpha);
    var x := 2.0 * Multiply(alphaConj, s.beta).re;
    var y := 2.0 * Multiply(alphaConj, s.beta).im;
    var z := MagnitudeSq(s.alpha) - MagnitudeSq(s.beta);
    BlochVector(x, y, z)
  }

  /** Every normalised state lies on the unit sphere. */
  lemma BlochVectorOnSphere(s: QubitState)
    requires Norm(s) == 1.0
    ensures var v := GetBlochVector(s); v.x * v.x + v.y * v.y + v.z * v.z == 1.0
  {
    var v := GetBlochVector(s);
    var w := Multiply(Conjugate(s.alpha), s.beta);
    var A, B := MagnitudeSq(s.alpha), MagnitudeSq(s.beta);
    MagnitudeSqMultiply(Conjugate(s.alpha), s.beta);
    assert v.x * v.x + v.y * v.y == 4.0 * MagnitudeSq(w);
    calc {
      v.x * v.x + v.y * v.y + v.z * v.z;
      4.0 * (A * B) + (A - B) * (A - B);
      (A + B) * (A + B);
      1.0 * 1.0;
    }
  }

  /** The states both pipelines produce lie on the unit sphere. */
  lemma SimulationBlochVectorOnSphere(m: Math, theta: real)
    requires Sound(m)
    ensures var v := GetBlochVector(RunSimulation(m, theta).state);
            v.x * v.x + v.y * v.y + v.z * v.z == 1.0
    ensures var v := GetBlochVector(RunFlipSimulation(m, theta).state);
            v.x * v.x + v.y * v.y + v.z * v.z == 1.0
  {
    BlochVectorOnSphere(RunSimulation(m, theta).state);
    BlochVectorOnSphere(RunFlipSimulation(m, theta).state);
  }

  // ---------------------------------------------------------------------
  // The sweep of theta over [0, pi]
  // ---------------------------------------------------------------------

  /** Point i of a sweep: theta = (i / steps) * pi and the p0 runSimulation gives there. */
  function SweepPoint(m: Math, steps: int, i: int): SweepData
    requires steps != 0
  {
    var theta := (i as real / steps as real) * m.PI;
    SweepData(theta, RunSimulation(m, theta).probabilities.p0)
  }

  /**
   * The points i = 0..steps. A negative `steps` gives no point; a zero
   * `steps` is excluded (the source divides 0 by 0 there).
   */
  method SweepTheta(m: Math, steps: int) returns (data: seq<SweepData>)
    requires steps != 0
    ensures |data| == if steps < 0 then 0 else steps + 1
    ensures forall i :: 0 <= i < |data| ==> data[i] == SweepPoint(m, steps, i)
    ensures steps > 0 ==> data[0].theta == 0.0 && data[steps].theta == m.PI
    ensures Sound(m) ==> forall i :: 0 <= i < |data| ==> 0.0 <= data[i].prob <= 1.0
  {
    data := [];
    var i := 0;
    while i <= steps
      invariant 0 <= i <= if steps < 0 then 0 else steps + 1
      invariant |data| == i
      invariant forall k :: 0 <= k < i ==> data[k] == SweepPoint(m, steps, k)
    {
      var theta := (i as real / steps as real) * m.PI;
      var probabilities := RunSimulation(m, theta).probabilities;
      var point := SweepData(theta, probabilities.p0);
      assert point == SweepPoint(m, steps, i);
      data := data + [point];
      i := i + 1;
    }
    if steps > 0 {
      SweepEndpoints(m, steps);
    }
    forall k | 0 <= k < |data|
      ensures Sound(m) ==> 0.0 <= data[k].prob <= 1.0
    {
      SweepPointBounds(m, steps, k);
    }
  }

  /** Every point's probability is in [0, 1]. */
  lemma SweepPointBounds(m: Math, steps: int, i: int)
    requires steps != 0
    ensures Sound(m) ==> 0.0 <= SweepPoint(m, steps, i).prob <= 1.0
  {
    var p := RunSimulation(m, SweepPoint(m, steps, i).theta).probabilities;
    assert p.p1 >= 0.0;
  }

  /** The sweep starts at angle 0 and ends at angle pi. */
  lemma SweepEndpoints(m: Math, steps: int)
    requires steps > 0
    ensures SweepPoint(m, steps, 0).theta == 0.0
    ensures SweepPoint(m, steps, steps).theta == m.PI
  {
    assert 0 as real / steps as real == 0.0;
    assert steps as real / steps as real == 1.0;
  }
}
