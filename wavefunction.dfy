/** The per-point evaluation the studio repeats in each of its six drawing
    routines and in computeWavefunctionAtX: the spatial shape and energy of each
    eigenmode, their time evolution into a complex amplitude, the probability
    density, the energy ladder, and the momentum-space stand-in.  Units are
    ħ = m = ω = 1. */
module Wavefunction {
  import opened Transcendental
  import opened SpecialFunctions

  const HBAR: real := 1.0
  const MASS: real := 1.0
  const OMEGA: real := 1.0

  /** The three entries of the system combo box. */
  datatype SystemKind = ParticleInBox | HarmonicOscillator | Superposition12

  /** What one evaluation reads from the studio: the selected system, the
      quantum number n, the length L and the two superposition weights. */
  datatype Params = Params(kind: SystemKind, n: nat, L: real, w1: real, w2: real)

  /** The box eigenfunction of order k on [−L, L]: √(2/L)·sin(kπ(x+L)/(2L)). */
  function BoxPsi(m: MathLib, k: int, L: real, x: real): real
    requires 0.0 < L
  {
    m.sqrt(2.0 / L) * m.sin(k as real * m.pi * (x + L) / (2.0 * L))
  }

  /** The box's k-th momentum kπħ/L; the level is its square over 2m. */
  function BoxMomentum(m: MathLib, k: int, L: real): real
    requires 0.0 < L
  {
    k as real * m.pi * HBAR / L
  }

  /** k²π²ħ²/(2mL²), written as (kπħ/L)²/(2m): the same real number, divided by L
      alone. */
  function BoxEnergy(m: MathLib, k: int, L: real): real
    requires 0.0 < L
  {
    BoxMomentum(m, k, L) * BoxMomentum(m, k, L) / (2.0 * MASS)
  }

  /** The oscillator's normalisation √(2^k·k!·√π). */
  function OscNorm(m: MathLib, k: nat): (r: real)
    requires Lawful(m)
    ensures 0.0 < r
  {
    SqrtPositive(m, m.pi);
    SqrtPositive(m, Pow2(k) * Fact(k) as real * m.sqrt(m.pi));
    m.sqrt(Pow2(k) * Fact(k) as real * m.sqrt(m.pi))
  }

  /** The Gaussian envelope e^(−x²/2). */
  function Gauss(m: MathLib, x: real): real
  {
    m.exp(-x * x / 2.0)
  }

  /** The oscillator eigenfunction H_k(x)·e^(−x²/2) / √(2^k·k!·√π). */
  function OscPsi(m: MathLib, k: nat, x: real): real
    requires Lawful(m)
  {
    OscShape(Hermite(k, x), Gauss(m, x), OscNorm(m, k))
  }

  /** Polynomial times envelope over the norm, h·g/d. */
  function OscShape(h: real, g: real, d: real): real
    requires d != 0.0
  {
    h * g / d
  }

  /** ħω(k + ½). */
  function OscEnergy(k: int): real
  {
    HBAR * OMEGA * (k as real + 0.5)
  }

  /** The locals psi1, energy1, psi2, energy2 of the per-point block, which stay 0
      for the modes a system does not use. */
  datatype Modes = Modes(psi1: real, energy1: real, psi2: real, energy2: real)

  function ModesAt(m: MathLib, p: Params, x: real): Modes
    requires Lawful(m) && 0.0 < p.L
  {
    match p.kind
    case ParticleInBox => Modes(BoxPsi(m, p.n, p.L, x), BoxEnergy(m, p.n, p.L), 0.0, 0.0)
    case HarmonicOscillator => Modes(OscPsi(m, p.n, x), OscEnergy(p.n), 0.0, 0.0)
    case Superposition12 =>
      Modes(BoxPsi(m, 1, p.L, x), BoxEnergy(m, 1, p.L), BoxPsi(m, 2, p.L, x), BoxEnergy(m, 2, p.L))
  }

  /** ψ(x, t) as the pair (Re, Im). */
  datatype Amplitude = Amplitude(re: real, im: real)

  /** One mode ψ turned by the phase θ: (ψ cos θ, ψ sin θ). */
  function Turn(m: MathLib, psi: real, theta: real): Amplitude
  {
    Amplitude(psi * m.cos(theta), psi * m.sin(theta))
  }

  /** The phase angle Et/ħ a mode of energy E has turned through at time t. */
  function Phase(energy: real, t: real): real
  {
    energy * t / HBAR
  }

  /** Componentwise sum of two amplitudes. */
  function Add(a: Amplitude, b: Amplitude): Amplitude
  {
    Amplitude(a.re + b.re, a.im + b.im)
  }

  /** Each mode turns with the phase e^(+iEt/ħ); the superposition weights its two
      modes by w₁ and w₂ before adding them. */
  function Evolve(m: MathLib, p: Params, md: Modes, t: real): Amplitude
  {
    if p.kind == Superposition12 then
      Add(Turn(m, p.w1 * md.psi1, Phase(md.energy1, t)), Turn(m, p.w2 * md.psi2, Phase(md.energy2, t)))
    else
      Turn(m, md.psi1, Phase(md.energy1, t))
  }

  function AmplitudeAt(m: MathLib, p: Params, x: real, t: real): Amplitude
    requires Lawful(m) && 0.0 < p.L
  {
    Evolve(m, p, ModesAt(m, p, x), t)
  }

  /** |ψ|² = Re² + Im², never negative. */
  function Density(a: Amplitude): (r: real)
    ensures 0.0 <= r
  {
    a.re * a.re + a.im * a.im
  }

  /** computeWavefunctionAtX: the modulus |ψ(x, t)|, whose square is the density. */
  function Magnitude(m: MathLib, p: Params, x: real, t: real): (r: real)
    requires Lawful(m) && 0.0 < p.L
    ensures 0.0 <= r && r * r == Density(AmplitudeAt(m, p, x, t))
  {
    SqrtSquared(m, Density(AmplitudeAt(m, p, x, t)));
    m.sqrt(Density(AmplitudeAt(m, p, x, t)))
  }

  /** getEnergy: the box formula for the box and the superposition, ħω(k + ½)
      otherwise; no level from the ground state up is negative. */
  function Energy(m: MathLib, p: Params, k: int): (r: real)
    requires 0.0 < p.L
    ensures 0 <= k ==> 0.0 <= r
  {
    if p.kind == ParticleInBox || p.kind == Superposition12 then BoxEnergy(m, k, p.L) else OscEnergy(k)
  }

  /** The momentum-space panel's stand-in: the box shape at the momentum
      coordinate with the sign (−1)^n, the oscillator shape unchanged, and for the
      superposition the weighted modes with mode 2 negated. */
  function Momentum(m: MathLib, p: Params, q: real): real
    requires Lawful(m) && 0.0 < p.L
  {
    match p.kind
    case ParticleInBox => Parity(p.n) * BoxPsi(m, p.n, p.L, q)
    case HarmonicOscillator => OscPsi(m, p.n, q)
    case Superposition12 => p.w1 * BoxPsi(m, 1, p.L, q) + p.w2 * -BoxPsi(m, 2, p.L, q)
  }

  // ---------------------------------------------------------------- properties

  /** A single eigenmode's density is ψ(x)², whatever the time: the phase only rotates. */
  lemma SingleModeDensity(m: MathLib, p: Params, x: real, t: real)
    requires Lawful(m) && 0.0 < p.L && p.kind != Superposition12
    ensures Density(AmplitudeAt(m, p, x, t)) == Square(ModesAt(m, p, x).psi1)
  {
    var md := ModesAt(m, p, x);
    assert AmplitudeAt(m, p, x, t) == Evolve(m, p, md, t);
    SingleModeTurns(m, p, md, t);
    RotationKeepsSquare(m, md.psi1, Phase(md.energy1, t));
  }

  /** Outside the superposition the amplitude is mode 1 turned by E₁t/ħ. */
  lemma SingleModeTurns(m: MathLib, p: Params, md: Modes, t: real)
    requires p.kind != Superposition12
    ensures Evolve(m, p, md, t) == Turn(m, md.psi1, Phase(md.energy1, t))
  {
  }

  /** Turning a real ψ by any phase θ keeps its density: (ψ cos θ)² + (ψ sin θ)² = ψ². */
  lemma RotationKeepsSquare(m: MathLib, psi: real, theta: real)
    requires Lawful(m)
    ensures Density(Turn(m, psi, theta)) == Square(psi)
  {
    var c, s := m.cos(theta), m.sin(theta);
    Pythagoras(m, theta);
    calc {
      (psi * c) * (psi * c) + (psi * s) * (psi * s);
      psi * psi * (c * c + s * s);
      psi * psi;
    }
  }

  /** The probability density of a box or oscillator state does not change with time. */
  lemma DensityIsStationary(m: MathLib, p: Params, x: real, t1: real, t2: real)
    requires Lawful(m) && 0.0 < p.L && p.kind != Superposition12
    ensures Density(AmplitudeAt(m, p, x, t1)) == Density(AmplitudeAt(m, p, x, t2))
  {
    SingleModeDensity(m, p, x, t1);
    SingleModeDensity(m, p, x, t2);
  }

  /** The real shape ψ(x) a state starts from: the mode itself, or w₁ψ₁ + w₂ψ₂. */
  function RestShape(m: MathLib, p: Params, x: real): real
    requires Lawful(m) && 0.0 < p.L
  {
    match p.kind
    case ParticleInBox => BoxPsi(m, p.n, p.L, x)
    case HarmonicOscillator => OscPsi(m, p.n, x)
    case Superposition12 => p.w1 * BoxPsi(m, 1, p.L, x) + p.w2 * BoxPsi(m, 2, p.L, x)
  }

  /** At t = 0 every state is real: Im ψ = 0 and Re ψ is the rest shape. */
  lemma AmplitudeAtTimeZero(m: MathLib, p: Params, x: real)
    requires Lawful(m) && 0.0 < p.L
    ensures AmplitudeAt(m, p, x, 0.0) == Amplitude(RestShape(m, p, x), 0.0)
  {
    var md := ModesAt(m, p, x);
    assert Phase(md.energy1, 0.0) == 0.0 && Phase(md.energy2, 0.0) == 0.0;
  }

  /** The energies the time evolution uses are the energy panel's levels:
      level n for the box and the oscillator, levels 1 and 2 for the superposition. */
  lemma ModeEnergiesAreLevels(m: MathLib, p: Params, x: real)
    requires Lawful(m) && 0.0 < p.L
    ensures p.kind != Superposition12 ==> ModesAt(m, p, x).energy1 == Energy(m, p, p.n)
    ensures p.kind == Superposition12 ==>
      ModesAt(m, p, x).energy1 == Energy(m, p, 1) && ModesAt(m, p, x).energy2 == Energy(m, p, 2)
  {
  }

  /** Energy levels strictly increase with the quantum number (from 0 on). */
  lemma EnergyIncreasing(m: MathLib, p: Params, a: int, b: int)
    requires Lawful(m) && 0.0 < p.L && 0 <= a < b
    ensures Energy(m, p, a) < Energy(m, p, b)
  {
    if p.kind != HarmonicOscillator {
      var pa, pb := BoxMomentum(m, a, p.L), BoxMomentum(m, b, p.L);
      assert 0.0 <= pa < pb;
      SquareIncreasing(pa, pb);
    }
  }

  lemma SquareIncreasing(u: real, v: real)
    requires 0.0 <= u < v
    ensures u * u < v * v
  {
    calc {
      u * u;
    <= u * v;
    < v * v;
    }
  }

  /** The box levels form the ladder E_k = k²·E_1. */
  lemma BoxEnergyLadder(m: MathLib, k: int, L: real)
    requires 0.0 < L
    ensures BoxEnergy(m, k, L) == (k * k) as real * BoxEnergy(m, 1, L)
  {
    var u := BoxMomentum(m, 1, L);
    assert BoxMomentum(m, k, L) == k as real * u;
    calc {
      BoxEnergy(m, k, L);
    == (k as real * u) * (k as real * u) / 2.0;
    == (k as real * k as real) * (u * u) / 2.0;
    == (k * k) as real * BoxEnergy(m, 1, L);
    }
  }

  /** Oscillator levels are equally spaced by ħω = 1. */
  lemma OscillatorLevelsEquallySpaced(m: MathLib, p: Params, k: int)
    requires 0.0 < p.L && p.kind == HarmonicOscillator
    ensures Energy(m, p, k + 1) - Energy(m, p, k) == HBAR * OMEGA == 1.0
    ensures Energy(m, p, 0) == 0.5
  {
  }

  /** With the default length L = 10 the box ground level is π²/200. */
  lemma GroundLevelAtDefaultLength(m: MathLib, p: Params)
    requires p.L == 10.0 && p.kind != HarmonicOscillator
    ensures Energy(m, p, 1) == m.pi * m.pi / 200.0
  {
  }

  /** The envelope is even. */
  lemma GaussEven(m: MathLib, x: real)
    ensures Gauss(m, -x) == Gauss(m, x)
  {
    assert -(-x) * (-x) / 2.0 == -x * x / 2.0;
  }

  /** The oscillator eigenfunction has the parity of its order, so its density is even in x. */
  lemma OscPsiParity(m: MathLib, k: nat, x: real)
    requires Lawful(m)
    ensures OscPsi(m, k, -x) == Parity(k) * OscPsi(m, k, x)
    ensures OscPsi(m, k, -x) * OscPsi(m, k, -x) == OscPsi(m, k, x) * OscPsi(m, k, x)
  {
    GaussEven(m, x);
    HermiteParity(k, x);
    ShapeSign(Hermite(k, x), Parity(k), Gauss(m, x), OscNorm(m, k));
    SignSquares(OscPsi(m, k, -x), OscPsi(m, k, x), Parity(k));
  }

  /** A sign on the polynomial factor comes out of the quotient. */
  lemma ShapeSign(h: real, s: real, g: real, d: real)
    requires d != 0.0
    ensures OscShape(s * h, g, d) == s * OscShape(h, g, d)
  {
  }

  /** Two numbers that differ by a sign have the same square. */
  lemma SignSquares(a: real, b: real, s: real)
    requires a == s * b && (s == 1.0 || s == -1.0)
    ensures a * a == b * b
  {
  }

  /** The momentum stand-in reuses the spatial shapes: for the box it is the
      spatial eigenfunction up to the sign (−1)^n (so its square is ψ_n²), for the
      oscillator it is the spatial eigenfunction, and for the superposition it is
      the rest shape with the mode-2 term negated. */
  lemma MomentumMirrorsSpatialShape(m: MathLib, p: Params, q: real)
    requires Lawful(m) && 0.0 < p.L
    ensures p.kind == ParticleInBox ==>
      Momentum(m, p, q) * Momentum(m, p, q) == RestShape(m, p, q) * RestShape(m, p, q)
    ensures p.kind == HarmonicOscillator ==> Momentum(m, p, q) == RestShape(m, p, q)
    ensures p.kind == Superposition12 ==>
      Momentum(m, p, q) == RestShape(m, p, q) - 2.0 * p.w2 * BoxPsi(m, 2, p.L, q)
  {
    if p.kind == ParticleInBox {
      SignSquares(Momentum(m, p, q), RestShape(m, p, q), Parity(p.n));
    }
  }

  /** The box ground state at the centre of the default box is √0.2·sin(π/2),
      with density 0.2·sin²(π/2) at t = 0. */
  lemma GroundBoxAtCentre(m: MathLib, p: Params)
    requires Lawful(m) && p.kind == ParticleInBox && p.n == 1 && p.L == 10.0
    ensures AmplitudeAt(m, p, 0.0, 0.0).re == m.sqrt(0.2) * m.sin(m.pi / 2.0)
    ensures Density(AmplitudeAt(m, p, 0.0, 0.0)) == 0.2 * (m.sin(m.pi / 2.0) * m.sin(m.pi / 2.0))
  {
    AmplitudeAtTimeZero(m, p, 0.0);
    assert 1 as real * m.pi * (0.0 + 10.0) / (2.0 * 10.0) == m.pi / 2.0;
    SqrtSquared(m, 0.2);
    RealDensity(m.sqrt(0.2), m.sin(m.pi / 2.0), 0.2);
  }

  /** A real amplitude r·s with r² = c has density c·s². */
  lemma RealDensity(r: real, s: real, c: real)
    requires r * r == c
    ensures Density(Amplitude(r * s, 0.0)) == c * (s * s)
  {
    assert (r * s) * (r * s) == (r * r) * (s * s);
  }

  /** The second oscillator state at the origin: H_2(0)·e⁰ / √(2²·2!·√π) = −2·e⁰/√(8√π). */
  lemma SecondOscillatorStateAtOrigin(m: MathLib)
    requires Lawful(m)
    ensures OscNorm(m, 2) == m.sqrt(8.0 * m.sqrt(m.pi))
    ensures OscPsi(m, 2, 0.0) == -2.0 * m.exp(0.0) / OscNorm(m, 2)
  {
    HermiteAtOrigin(2);
    assert Pow2(2) * Fact(2) as real == 8.0;
    assert Gauss(m, 0.0) == m.exp(0.0) by {
      assert -0.0 * 0.0 / 2.0 == 0.0;
    }
  }
}
