/** The sampling and aggregation the studio's panels perform before drawing:
    the 201-point position grid of the main and probability canvases, the
    momentum grid, the phase-plot marker at x = 0, the Riemann sum behind the
    ⟨x⟩(t) curve and the 50×50 space-time heatmap.  Each panel's array is built
    by a method whose contract ties every entry to the evaluation of
    module Wavefunction; the lemmas state what those entries promise. */
module Observables {
  import opened Transcendental
  import opened SpecialFunctions
  import opened Wavefunction

  /** Vertical scale applied to every plotted trace. */
  const Y_SCALE: real := 50.0

  // ---------------------------------------------------------------- grids

  /** Point i of the 201-point position grid: (i − 100)·L/100. */
  function Position(i: int, L: real): real
  {
    (i - 100) as real * L / 100.0
  }

  /** Point i of the momentum grid: (i − 100)·0.1. */
  function MomentumCoord(i: int): real
  {
    (i - 100) as real * 0.1
  }

  /** The i-th time of the ⟨x⟩ curve: i·0.1. */
  function ExpectationTime(i: int): real
  {
    i as real * 0.1
  }

  /** Heatmap column i sits at (i − 25)·L/25. */
  function HeatX(i: int, L: real): real
  {
    (i - 25) as real * L / 25.0
  }

  /** Heatmap row j shows time j·0.5. */
  function HeatT(j: int): real
  {
    j as real * 0.5
  }

  /** The width 2L/200 each Riemann term of ⟨x⟩ is weighted by. */
  function RiemannStep(L: real): real
  {
    2.0 * L / 200.0
  }

  /** The grid runs from −L through 0 to L. */
  lemma PositionGridEnds(L: real)
    ensures Position(0, L) == -L && Position(100, L) == 0.0 && Position(200, L) == L
  {
  }

  /** Every grid point lies in [−L, L]. */
  lemma PositionInRange(i: int, L: real)
    requires 0 <= i <= 200 && 0.0 < L
    ensures -L <= Position(i, L) <= L
  {
    ScaleLe(-100.0, (i - 100) as real, L);
    ScaleLe((i - 100) as real, 100.0, L);
  }

  /** The grid is symmetric about the origin: x₂₀₀₋ᵢ = −xᵢ. */
  lemma PositionSymmetric(i: int, L: real)
    ensures Position(200 - i, L) == -Position(i, L)
  {
    assert (200 - i - 100) as real == -((i - 100) as real);
  }

  /** Neighbouring grid points are one Riemann step apart. */
  lemma GridSpacingIsRiemannStep(i: int, L: real)
    ensures Position(i + 1, L) - Position(i, L) == RiemannStep(L)
  {
    assert (i + 1 - 100) as real * L == (i - 100) as real * L + L;
  }

  /** The momentum grid runs from −10 to 10 and is symmetric about 0. */
  lemma MomentumGridSymmetric(i: int)
    ensures MomentumCoord(0) == -10.0 && MomentumCoord(200) == 10.0
    ensures MomentumCoord(200 - i) == -MomentumCoord(i)
  {
  }

  /** The ⟨x⟩ curve covers the times 0 to 20. */
  lemma ExpectationTimeRange(i: int)
    requires 0 <= i <= 200
    ensures 0.0 <= ExpectationTime(i) <= 20.0
  {
  }

  /** Heatmap columns stay within [−L, 24L/25] and rows within [0, 24.5]. */
  lemma HeatGridRange(i: int, j: int, L: real)
    requires 0 <= i < 50 && 0 <= j < 50 && 0.0 < L
    ensures -L <= HeatX(i, L) <= 24.0 * L / 25.0
    ensures 0.0 <= HeatT(j) <= 24.5
  {
    var c := (i - 25) as real;
    assert -25.0 <= c <= 24.0;
    ScaleLe(-25.0, c, L);
    ScaleLe(c, 24.0, L);
    assert HeatX(i, L) == c * L / 25.0;
    assert -25.0 * L / 25.0 <= c * L / 25.0 <= 24.0 * L / 25.0;
    assert 0.0 <= j as real <= 49.0;
  }

  lemma ScaleLe(a: real, b: real, c: real)
    requires a <= b && 0.0 <= c
    ensures a * c <= b * c
  {
  }

  // ---------------------------------------------------------------- samples

  /** Re ψ at grid point i, scaled for the main canvas. */
  function ReSample(m: MathLib, p: Params, t: real, i: int): real
    requires Lawful(m) && 0.0 < p.L
  {
    Y_SCALE * AmplitudeAt(m, p, Position(i, p.L), t).re
  }

  /** Im ψ at grid point i, scaled for the main canvas. */
  function ImSample(m: MathLib, p: Params, t: real, i: int): real
    requires Lawful(m) && 0.0 < p.L
  {
    Y_SCALE * AmplitudeAt(m, p, Position(i, p.L), t).im
  }

  /** |ψ|² at grid point i, scaled; a density trace never dips below the axis. */
  function ProbSample(m: MathLib, p: Params, t: real, i: int): (r: real)
    requires Lawful(m) && 0.0 < p.L
    ensures 0.0 <= r
  {
    Y_SCALE * Density(AmplitudeAt(m, p, Position(i, p.L), t))
  }

  /** The momentum stand-in at momentum grid point i, scaled. */
  function PhiSample(m: MathLib, p: Params, i: int): real
    requires Lawful(m) && 0.0 < p.L
  {
    Y_SCALE * Momentum(m, p, MomentumCoord(i))
  }

  /** drawMainCanvas: the real, imaginary and density traces at the current time. */
  method SampleMainCanvas(m: MathLib, p: Params, time: real)
      returns (psiReal: array<real>, psiImag: array<real>, prob: array<real>)
    requires Lawful(m) && 0.0 < p.L
    ensures fresh(psiReal) && fresh(psiImag) && fresh(prob)
    ensures psiReal.Length == 201 && psiImag.Length == 201 && prob.Length == 201
    ensures forall i :: 0 <= i < 201 ==> psiReal[i] == ReSample(m, p, time, i)
    ensures forall i :: 0 <= i < 201 ==> psiImag[i] == ImSample(m, p, time, i)
    ensures forall i :: 0 <= i < 201 ==> prob[i] == ProbSample(m, p, time, i)
  {
    psiReal := new real[201];
    psiImag := new real[201];
    prob := new real[201];
    for i := 0 to 201
      invariant forall k :: 0 <= k < i ==> psiReal[k] == ReSample(m, p, time, k)
      invariant forall k :: 0 <= k < i ==> psiImag[k] == ImSample(m, p, time, k)
      invariant forall k :: 0 <= k < i ==> prob[k] == ProbSample(m, p, time, k)
    {
      var a := AmplitudeAt(m, p, Position(i, p.L), time);
      StorePoint(psiReal, psiImag, prob, i, a);
    }
  }

  /** Entry i of the three traces: 50·Re ψ, 50·Im ψ and 50·|ψ|². */
  method StorePoint(psiReal: array<real>, psiImag: array<real>, prob: array<real>, i: int, a: Amplitude)
    requires psiReal != psiImag && psiReal != prob && psiImag != prob
    requires 0 <= i < psiReal.Length && i < psiImag.Length && i < prob.Length
    modifies psiReal, psiImag, prob
    ensures psiReal[i] == Y_SCALE * a.re && psiImag[i] == Y_SCALE * a.im && prob[i] == Y_SCALE * Density(a)
    ensures forall k :: 0 <= k < psiReal.Length && k != i ==> psiReal[k] == old(psiReal[k])
    ensures forall k :: 0 <= k < psiImag.Length && k != i ==> psiImag[k] == old(psiImag[k])
    ensures forall k :: 0 <= k < prob.Length && k != i ==> prob[k] == old(prob[k])
  {
    psiReal[i] := Y_SCALE * a.re;
    psiImag[i] := Y_SCALE * a.im;
    prob[i] := Y_SCALE * Density(a);
  }

  /** drawProbabilityDensity: the density trace alone. */
  method SampleProbabilityDensity(m: MathLib, p: Params, time: real) returns (prob: array<real>)
    requires Lawful(m) && 0.0 < p.L
    ensures fresh(prob) && prob.Length == 201
    ensures forall i :: 0 <= i < 201 ==> prob[i] == ProbSample(m, p, time, i)
  {
    prob := new real[201];
    for i := 0 to 201
      invariant forall k :: 0 <= k < i ==> prob[k] == ProbSample(m, p, time, k)
    {
      prob[i] := Y_SCALE * Density(AmplitudeAt(m, p, Position(i, p.L), time));
    }
  }

  /** drawMomentumSpace: the momentum stand-in over the momentum grid. */
  method SampleMomentum(m: MathLib, p: Params) returns (phi: array<real>)
    requires Lawful(m) && 0.0 < p.L
    ensures fresh(phi) && phi.Length == 201
    ensures forall i :: 0 <= i < 201 ==> phi[i] == PhiSample(m, p, i)
  {
    phi := new real[201];
    for i := 0 to 201
      invariant forall k :: 0 <= k < i ==> phi[k] == PhiSample(m, p, k)
    {
      phi[i] := Y_SCALE * Momentum(m, p, MomentumCoord(i));
    }
  }

  /** For a box or oscillator state the density trace does not move as time runs. */
  lemma ProbSampleStationary(m: MathLib, p: Params, t1: real, t2: real, i: int)
    requires Lawful(m) && 0.0 < p.L && p.kind != Superposition12
    ensures ProbSample(m, p, t1, i) == ProbSample(m, p, t2, i)
  {
    DensityIsStationary(m, p, Position(i, p.L), t1, t2);
  }

  /** The oscillator's density trace is mirror-symmetric about the centre of the grid. */
  lemma OscillatorProbSymmetric(m: MathLib, p: Params, t: real, i: int)
    requires Lawful(m) && 0.0 < p.L && p.kind == HarmonicOscillator
    ensures ProbSample(m, p, t, 200 - i) == ProbSample(m, p, t, i)
  {
    OscillatorDensityEven(m, p, t, Position(i, p.L));
    PositionSymmetric(i, p.L);
  }

  /** The oscillator's density is even in x at every time. */
  lemma OscillatorDensityEven(m: MathLib, p: Params, t: real, x: real)
    requires Lawful(m) && 0.0 < p.L && p.kind == HarmonicOscillator
    ensures Density(AmplitudeAt(m, p, -x, t)) == Density(AmplitudeAt(m, p, x, t))
  {
    SingleModeDensity(m, p, x, t);
    SingleModeDensity(m, p, -x, t);
    OscPsiParity(m, p.n, x);
  }

  /** The oscillator's momentum trace has the parity (−1)^n of its order. */
  lemma OscillatorPhiParity(m: MathLib, p: Params, i: int)
    requires Lawful(m) && 0.0 < p.L && p.kind == HarmonicOscillator
    ensures PhiSample(m, p, 200 - i) == Parity(p.n) * PhiSample(m, p, i)
  {
    MomentumGridSymmetric(i);
    OscPsiParity(m, p.n, MomentumCoord(i));
  }

  // ---------------------------------------------------------------- phase plot

  /** A point on a canvas. */
  datatype Point = Point(x: real, y: real)

  /** drawPhasePlot: ψ(0, t) drawn around the centre (100, 50), imaginary axis up.
      Its distance from the centre is 50·|ψ(0, t)|. */
  function PhaseMarker(m: MathLib, p: Params, time: real): (r: Point)
    requires Lawful(m) && 0.0 < p.L
    ensures Square(r.x - 100.0) + Square(50.0 - r.y) == 2500.0 * Density(AmplitudeAt(m, p, 0.0, time))
  {
    var a := AmplitudeAt(m, p, 0.0, time);
    ScaledDensity(a.re, a.im);
    Point(100.0 + 50.0 * a.re, 50.0 - 50.0 * a.im)
  }

  lemma ScaledDensity(re: real, im: real)
    ensures Square(100.0 + 50.0 * re - 100.0) + Square(50.0 - (50.0 - 50.0 * im))
         == 2500.0 * Density(Amplitude(re, im))
  {
    assert 100.0 + 50.0 * re - 100.0 == 50.0 * re;
    assert 50.0 - (50.0 - 50.0 * im) == 50.0 * im;
  }

  /** For a box or oscillator state the marker circles the centre at the fixed
      radius 50·|ψ(0)|. */
  lemma PhaseMarkerOnCircle(m: MathLib, p: Params, time: real)
    requires Lawful(m) && 0.0 < p.L && p.kind != Superposition12
    ensures var r := PhaseMarker(m, p, time);
      Square(r.x - 100.0) + Square(50.0 - r.y) == 2500.0 * Square(ModesAt(m, p, 0.0).psi1)
  {
    SingleModeDensity(m, p, 0.0, time);
  }

  /** At t = 0 the marker sits on the real axis, at 100 + 50·ψ(0). */
  lemma PhaseMarkerStartsOnRealAxis(m: MathLib, p: Params)
    requires Lawful(m) && 0.0 < p.L
    ensures PhaseMarker(m, p, 0.0) == Point(100.0 + 50.0 * RestShape(m, p, 0.0), 50.0)
  {
    AmplitudeAtTimeZero(m, p, 0.0);
  }

  // ---------------------------------------------------------------- ⟨x⟩(t)

  /** One term x·|ψ(x)|²·(2L/200) of the Riemann sum. */
  function RiemannTerm(x: real, prob: real, L: real): real
  {
    x * prob * RiemannStep(L)
  }

  /** Term j of the Riemann sum for ⟨x⟩ at time t: grid point j weighted by its density. */
  function ExpectationTerm(m: MathLib, p: Params, t: real, j: int): real
    requires Lawful(m) && 0.0 < p.L
  {
    RiemannTerm(Position(j, p.L), Density(AmplitudeAt(m, p, Position(j, p.L), t)), p.L)
  }

  /** The first j terms added left to right, which is what xExp holds after j steps. */
  function PartialIntegral(m: MathLib, p: Params, t: real, j: nat): real
    requires Lawful(m) && 0.0 < p.L
  {
    if j == 0 then 0.0 else PartialIntegral(m, p, t, j - 1) + ExpectationTerm(m, p, t, j - 1)
  }

  /** The plotted value: ten times the full Riemann sum over the 201 grid points. */
  function ExpectationValue(m: MathLib, p: Params, t: real): real
    requires Lawful(m) && 0.0 < p.L
  {
    10.0 * PartialIntegral(m, p, t, 201)
  }

  /** drawExpectationValue: for each of 201 times, accumulate xExp over the grid. */
  method ExpectationCurve(m: MathLib, p: Params) returns (expectation: array<real>)
    requires Lawful(m) && 0.0 < p.L
    ensures fresh(expectation) && expectation.Length == 201
    ensures forall i :: 0 <= i < 201 ==> expectation[i] == ExpectationValue(m, p, ExpectationTime(i))
  {
    expectation := new real[201];
    for i := 0 to 201
      invariant forall k :: 0 <= k < i ==> expectation[k] == ExpectationValue(m, p, ExpectationTime(k))
    {
      var xExp := PositionIntegral(m, p, ExpectationTime(i));
      expectation[i] := 10.0 * xExp;
    }
  }

  /** The inner loop of drawExpectationValue: xExp accumulates x·|ψ(x, t)|²·(2L/200)
      over the grid, left to right. */
  method PositionIntegral(m: MathLib, p: Params, t: real) returns (xExp: real)
    requires Lawful(m) && 0.0 < p.L
    ensures xExp == PartialIntegral(m, p, t, 201)
  {
    xExp := 0.0;
    for j := 0 to 201
      invariant xExp == PartialIntegral(m, p, t, j)
    {
      var x := Position(j, p.L);
      var prob := Density(AmplitudeAt(m, p, x, t));
      xExp := xExp + RiemannTerm(x, prob, p.L);
    }
  }

  /** The terms as a sequence, for reasoning about the whole sum. */
  function ExpectationTerms(m: MathLib, p: Params, t: real): (r: seq<real>)
    requires Lawful(m) && 0.0 < p.L
  {
    seq(201, j => ExpectationTerm(m, p, t, j))
  }

  /** Left-to-right sum of a sequence. */
  function Sum(s: seq<real>): real
  {
    if |s| == 0 then 0.0 else Sum(s[..|s| - 1]) + s[|s| - 1]
  }

  /** The accumulator's partial sums are the prefix sums of the term sequence. */
  lemma {:induction false} PartialIntegralIsPrefixSum(m: MathLib, p: Params, t: real, j: nat)
    requires Lawful(m) && 0.0 < p.L && j <= 201
    ensures PartialIntegral(m, p, t, j) == Sum(ExpectationTerms(m, p, t)[..j])
  {
    if 0 < j {
      PartialIntegralIsPrefixSum(m, p, t, j - 1);
      SumSnoc(ExpectationTerms(m, p, t), j - 1);
    }
  }

  /** Extending a prefix by one element adds that element. */
  lemma SumSnoc(s: seq<real>, j: int)
    requires 0 <= j < |s|
    ensures Sum(s[..j + 1]) == Sum(s[..j]) + s[j]
  {
    assert s[..j + 1][..j] == s[..j];
  }

  /** The sum also splits off its first element. */
  lemma {:induction false} SumFront(s: seq<real>)
    requires 0 < |s|
    ensures Sum(s) == s[0] + Sum(s[1..])
    decreases |s|
  {
    if |s| == 1 {
      assert s[..0] == [] && s[1..] == [];
    } else {
      SumFront(s[..|s| - 1]);
      assert s[..|s| - 1][1..] == s[1..][..|s| - 2];
    }
  }

  /** A sequence whose mirror image is its negation sums to zero. */
  lemma {:induction false} AntisymmetricSumIsZero(s: seq<real>)
    requires forall j :: 0 <= j < |s| ==> s[|s| - 1 - j] == -s[j]
    ensures Sum(s) == 0.0
    decreases |s|
  {
    if |s| == 1 {
      assert s[0] == -s[0];
      assert s[..0] == [];
    } else if 1 < |s| {
      var mid := s[1..|s| - 1];
      forall j | 0 <= j < |mid|
        ensures mid[|mid| - 1 - j] == -mid[j]
      {
        assert mid[j] == s[j + 1];
        assert mid[|mid| - 1 - j] == s[|s| - 1 - (j + 1)];
      }
      AntisymmetricSumIsZero(mid);
      SumFront(s[..|s| - 1]);
      assert s[..|s| - 1][1..] == mid;
      assert s[|s| - 1] == -s[0];
    }
  }

  /** A Riemann term is odd in its position. */
  lemma RiemannTermOdd(x: real, prob: real, L: real)
    ensures RiemannTerm(-x, prob, L) == -RiemannTerm(x, prob, L)
  {
  }

  /** For a box or oscillator state the ⟨x⟩ curve is flat. */
  lemma ExpectationStationary(m: MathLib, p: Params, t1: real, t2: real)
    requires Lawful(m) && 0.0 < p.L && p.kind != Superposition12
    ensures ExpectationValue(m, p, t1) == ExpectationValue(m, p, t2)
  {
    PartialIntegralStationary(m, p, t1, t2, 201);
  }

  lemma {:induction false} PartialIntegralStationary(m: MathLib, p: Params, t1: real, t2: real, j: nat)
    requires Lawful(m) && 0.0 < p.L && p.kind != Superposition12
    ensures PartialIntegral(m, p, t1, j) == PartialIntegral(m, p, t2, j)
  {
    if 0 < j {
      PartialIntegralStationary(m, p, t1, t2, j - 1);
      DensityIsStationary(m, p, Position(j - 1, p.L), t1, t2);
    }
  }

  /** For the oscillator the symmetric density makes the ⟨x⟩ curve vanish at every time. */
  lemma OscillatorExpectationIsZero(m: MathLib, p: Params, t: real)
    requires Lawful(m) && 0.0 < p.L && p.kind == HarmonicOscillator
    ensures ExpectationValue(m, p, t) == 0.0
  {
    var s := ExpectationTerms(m, p, t);
    forall j | 0 <= j < |s|
      ensures s[|s| - 1 - j] == -s[j]
    {
      var x := Position(j, p.L);
      PositionSymmetric(j, p.L);
      OscillatorDensityEven(m, p, t, x);
      RiemannTermOdd(x, Density(AmplitudeAt(m, p, x, t)), p.L);
    }
    AntisymmetricSumIsZero(s);
    PartialIntegralIsPrefixSum(m, p, t, 201);
    assert s[..201] == s;
  }

  // ---------------------------------------------------------------- heatmap

  /** The fill opacity min(5·prob, 1). */
  function HeatAlpha(prob: real): (r: real)
    ensures r <= 1.0 && (0.0 <= prob ==> 0.0 <= r)
    ensures r == 1.0 <==> 1.0 <= prob * 5.0
    ensures r < 1.0 ==> r == prob * 5.0
  {
    if prob * 5.0 < 1.0 then prob * 5.0 else 1.0
  }

  /** Opacity of heatmap cell (i, j): the density at column i's position and row j's time. */
  function HeatCell(m: MathLib, p: Params, i: int, j: int): (r: real)
    requires Lawful(m) && 0.0 < p.L
    ensures 0.0 <= r <= 1.0
  {
    HeatAlpha(Density(AmplitudeAt(m, p, HeatX(i, p.L), HeatT(j))))
  }

  /** drawHeatmap: the 50×50 sweep, recorded as the opacity of each cell. */
  method PaintHeatmap(m: MathLib, p: Params) returns (alpha: array2<real>)
    requires Lawful(m) && 0.0 < p.L
    ensures fresh(alpha) && alpha.Length0 == 50 && alpha.Length1 == 50
    ensures forall i, j :: 0 <= i < 50 && 0 <= j < 50 ==> alpha[i, j] == HeatCell(m, p, i, j)
  {
    alpha := new real[50, 50];
    for i := 0 to 50
      invariant forall a, b :: 0 <= a < i && 0 <= b < 50 ==> alpha[a, b] == HeatCell(m, p, a, b)
    {
      PaintColumn(m, p, alpha, i);
    }
  }

  /** The inner loop of the sweep: every row j of column i, leaving the other columns alone. */
  method PaintColumn(m: MathLib, p: Params, alpha: array2<real>, i: int)
    requires Lawful(m) && 0.0 < p.L
    requires alpha.Length0 == 50 && alpha.Length1 == 50 && 0 <= i < 50
    modifies alpha
    ensures forall b :: 0 <= b < 50 ==> alpha[i, b] == HeatCell(m, p, i, b)
    ensures forall a, b :: 0 <= a < 50 && a != i && 0 <= b < 50 ==> alpha[a, b] == old(alpha[a, b])
  {
    for j := 0 to 50
      invariant forall b :: 0 <= b < j ==> alpha[i, b] == HeatCell(m, p, i, b)
      invariant forall a, b :: 0 <= a < 50 && a != i && 0 <= b < 50 ==> alpha[a, b] == old(alpha[a, b])
    {
      var prob := Density(AmplitudeAt(m, p, HeatX(i, p.L), HeatT(j)));
      alpha[i, j] := HeatAlpha(prob);
    }
  }

  /** For a box or oscillator state every heatmap column has one colour all the way down. */
  lemma HeatColumnUniform(m: MathLib, p: Params, i: int, j: int)
    requires Lawful(m) && 0.0 < p.L && p.kind != Superposition12
    ensures HeatCell(m, p, i, j) == HeatCell(m, p, i, 0)
  {
    DensityIsStationary(m, p, HeatX(i, p.L), HeatT(j), HeatT(0));
  }
}
