# Quantum Bloom Studio — a verified model of its computational core

Quantum Bloom Studio is a single-window JavaFX application, `QuantumBloomStudio.java`.
It lets a user explore three quantum systems:

- a particle in a box on [−L, L];
- the harmonic oscillator;
- a superposition of the first two box modes, weighted √w and √(1 − w) by the weight slider.

It plots each system's wavefunction, probability density, momentum-space stand-in, phase, expectation value ⟨x⟩(t) and a space–time heatmap. This project models the part of the program that computes, in Dafny, and proves properties of it.

The model has five modules.

- **Transcendental** (`transcendental.dfy`): `Math.sin`, `Math.cos`, `Math.exp`, `Math.sqrt` and `Math.PI` are fields of a `MathLib` value. They are constrained only by the laws the proofs need, gathered in the `Lawful` predicate:
  - sin² + cos² = 1;
  - sin 0 = 0 and cos 0 = 1;
  - a square root is non-negative and squares back to its argument;
  - π > 0.
- **SpecialFunctions** (`special_functions.dfy`): `hermitePolynomial` and `factorial` as loops. Each loop is proved against a recursive definition. The factorial runs in Java's 64-bit `long` arithmetic, written out explicitly.
- **Wavefunction** (`wavefunction.dfy`): the per-point block that the source repeats in `computeWavefunctionAtX` and in five drawing routines: `drawMainCanvas`, `drawProbabilityDensity`, `drawPhasePlot`, `drawExpectationValue` and `drawHeatmap`. It computes:
  - the eigenmode shapes and energies;
  - the time evolution into a complex amplitude;
  - the density;
  - `getEnergy`;
  - the momentum-space stand-in.

  The string comparisons on the system name become a three-case datatype. Units are ħ = m = ω = 1.
- **Observables** (`observables.dfy`): the sampling loops of the six panels. They fill 201-entry arrays, accumulate the Riemann sum for ⟨x⟩ and sweep the 50×50 heatmap. Each is a method proved against a specification function. Lemmas state what the samples promise: symmetry, stationarity, vanishing ⟨x⟩ for the oscillator, and the range of the heatmap opacity.
- **Controller** (`controller.dfy`): the `Studio` class holds the mutable fields of the application. Its methods are the event handlers:
  - the system selector;
  - the n, L and weight sliders;
  - scroll zoom;
  - marker press, drag and release;
  - the energy-level picker;
  - play/pause;
  - the animation tick;
  - reset.

  Every handler keeps the invariant `Valid()` and states the whole new state.

Doubles are modelled as mathematical reals, and `int` quantities as unbounded integers. The one exception is `factorial`, whose loop is modelled in Java's 64-bit `long` arithmetic; the wavefunction itself uses the exact n! (see Wavefunction.OscNorm under Left out).

## Model

| member | source | states |
|---|---|---|
| SpecialFunctions.HermitePolynomial | QuantumBloomStudio.java:642-652 | for n ≥ 0 the rolling pair h0/h1 returns H_n(x) of the three-term recurrence; for a negative n neither base case nor the loop applies and the result is 2x |
| SpecialFunctions.HermiteLowOrders | QuantumBloomStudio.java:642-652 | H₀ = 1, H₁ = 2x, H₂ = 4x² − 2, H₃ = 8x³ − 12x |
| SpecialFunctions.HermiteParity | QuantumBloomStudio.java:642-652 | H_k(−x) = (−1)^k·H_k(x) for every order k, by induction over the recurrence |
| SpecialFunctions.HermiteAtOrigin | QuantumBloomStudio.java:642-652 | every odd-order polynomial vanishes at 0, and H₂(0) = −2 |
| SpecialFunctions.Parity | QuantumBloomStudio.java:774 | the sign `n % 2 == 0 ? 1 : -1` is always +1 or −1 |
| SpecialFunctions.Fact | QuantumBloomStudio.java:654-658 | the factorial the loop computes is at least 1 for every n, including n ≤ 0 |
| SpecialFunctions.FactMonotone | QuantumBloomStudio.java:654-658 | the factorial does not decrease with n |
| SpecialFunctions.Long | QuantumBloomStudio.java:654-658 | reduction to 64-bit two's complement lands in the `long` range and leaves in-range values unchanged |
| SpecialFunctions.FactorialBounds | QuantumBloomStudio.java:87 | n! fits a `long` up to n = 20, is at most 3628800 over the slider range 1..10, and 0! = 1 |
| SpecialFunctions.FactorialStep | QuantumBloomStudio.java:656 | up to i = 20 one `long` multiplication of (i−1)! by i yields i! exactly |
| SpecialFunctions.Factorial | QuantumBloomStudio.java:654-658 | the `long` accumulator always holds a `long`, and equals n! for every n ≤ 20 (1 for n ≤ 0) |
| SpecialFunctions.Pow2 | QuantumBloomStudio.java:487 | `Math.pow(2, n)` is positive, so the oscillator normalisation is well defined |
| Wavefunction.OscNorm | QuantumBloomStudio.java:487 | the oscillator's normaliser √(2ⁿ·n!·√π) is strictly positive, so dividing by it is safe |
| Wavefunction.Density | QuantumBloomStudio.java:509 | Re² + Im² is never negative |
| Wavefunction.Magnitude | QuantumBloomStudio.java:478-510 | computeWavefunctionAtX returns a non-negative modulus whose square is the probability density at (x, t) |
| Wavefunction.BoxPsi | QuantumBloomStudio.java:483 | the box eigenfunction √(2/L)·sin(nπ(x+L)/(2L)); its value at the centre is GroundBoxAtCentre and its role in the density is SingleModeDensity |
| Wavefunction.OscPsi | QuantumBloomStudio.java:486-487 | the oscillator eigenfunction H_n(x)·e^(−x²/2)/√(2ⁿ·n!·√π); its parity is OscPsiParity and its value at 0 for n = 2 is SecondOscillatorStateAtOrigin |
| Wavefunction.ModesAt | QuantumBloomStudio.java:482-495 | the locals psi1, energy1, psi2, energy2 for each system, zero for unused modes; ModeEnergiesAreLevels ties the energies to getEnergy |
| Wavefunction.Evolve | QuantumBloomStudio.java:498-507 | the phase-turned amplitude, weighted and summed for the superposition; SingleModeTurns and AmplitudeAtTimeZero state its single-mode and t = 0 forms |
| Wavefunction.AmplitudeAt | QuantumBloomStudio.java:482-507 | the per-point block's (Re ψ, Im ψ) at (x, t); DensityIsStationary and AmplitudeAtTimeZero are its properties |
| Wavefunction.Energy | QuantumBloomStudio.java:660-666 | getEnergy is never negative from the ground state up; EnergyIncreasing, BoxEnergyLadder and OscillatorLevelsEquallySpaced state its shape |
| Wavefunction.Momentum | QuantumBloomStudio.java:773-782 | the momentum stand-in for each system; MomentumMirrorsSpatialShape relates it to the spatial shapes |
| Wavefunction.SingleModeDensity | QuantumBloomStudio.java:482-507 | for a box or oscillator state the density at (x, t) is ψ₁(x)², whatever t |
| Wavefunction.SingleModeTurns | QuantumBloomStudio.java:504-507 | outside the superposition the amplitude is mode 1 turned by the phase E₁t/ħ |
| Wavefunction.RotationKeepsSquare | QuantumBloomStudio.java:504-507 | (ψ cos θ)² + (ψ sin θ)² = ψ² for every phase θ |
| Wavefunction.DensityIsStationary | QuantumBloomStudio.java:482-509 | a single-mode density is the same at any two times |
| Wavefunction.AmplitudeAtTimeZero | QuantumBloomStudio.java:496-507 | at t = 0 the imaginary part is 0 and the real part is ψ₁, ψ_osc, or w₁ψ₁ + w₂ψ₂ for the superposition |
| Wavefunction.ModeEnergiesAreLevels | QuantumBloomStudio.java:482-494 | the energies the time evolution uses are getEnergy(n), or getEnergy(1) and getEnergy(2) for the superposition |
| Wavefunction.EnergyIncreasing | QuantumBloomStudio.java:660-666 | getEnergy strictly increases in n ≥ 0 for every system and L > 0 |
| Wavefunction.BoxEnergyLadder | QuantumBloomStudio.java:662 | the box levels are E_n = n²·E₁ |
| Wavefunction.OscillatorLevelsEquallySpaced | QuantumBloomStudio.java:664 | consecutive oscillator levels differ by exactly ħω = 1, and the ground level is ½ |
| Wavefunction.GroundLevelAtDefaultLength | QuantumBloomStudio.java:660-663 | with L = 10 the box and superposition ground level is π²/200 |
| Wavefunction.GaussEven | QuantumBloomStudio.java:486 | the envelope e^(−x²/2) is even |
| Wavefunction.OscPsiParity | QuantumBloomStudio.java:486-487 | the oscillator eigenfunction of order n satisfies ψ(−x) = (−1)ⁿψ(x), so its square is even |
| Wavefunction.MomentumMirrorsSpatialShape | QuantumBloomStudio.java:769-785 | the momentum stand-in squares to the box shape ψ_n², equals the oscillator shape, and for the superposition is the rest shape with twice the weighted mode-2 term removed |
| Wavefunction.GroundBoxAtCentre | QuantumBloomStudio.java:482-483 | the n = 1 box state at x = 0, t = 0, L = 10 is √0.2·sin(π/2), with density 0.2·sin²(π/2) |
| Wavefunction.SecondOscillatorStateAtOrigin | QuantumBloomStudio.java:486-487 | the n = 2 oscillator state at 0 is −2·e⁰/√(8√π) |
| Observables.PositionGridEnds | QuantumBloomStudio.java:567-568 | the position grid starts at −L, passes 0 at i = 100 and ends at L |
| Observables.PositionInRange | QuantumBloomStudio.java:567-568 | every grid position for i in 0..200 lies in [−L, L] |
| Observables.PositionSymmetric | QuantumBloomStudio.java:568 | x₂₀₀₋ᵢ = −xᵢ |
| Observables.GridSpacingIsRiemannStep | QuantumBloomStudio.java:868-901 | the grid spacing L/100 equals the Riemann step 2L/200 used for ⟨x⟩ |
| Observables.MomentumGridSymmetric | QuantumBloomStudio.java:769-770 | the momentum grid runs from −10 to 10 and is symmetric about 0 |
| Observables.ExpectationTimeRange | QuantumBloomStudio.java:865-866 | the ⟨x⟩ curve's times lie in [0, 20] |
| Observables.HeatGridRange | QuantumBloomStudio.java:919-922 | heatmap positions stay in [−L, 24L/25] and times in [0, 24.5] |
| Observables.ProbSample | QuantumBloomStudio.java:601 | every plotted density sample is non-negative |
| Observables.SampleMainCanvas | QuantumBloomStudio.java:561-602 | the three fresh 201-entry arrays hold 50·Re ψ, 50·Im ψ and 50·|ψ|² at each grid position |
| Observables.StorePoint | QuantumBloomStudio.java:599-601 | one grid point's three stores write index i of each array and nothing else |
| Observables.SampleProbabilityDensity | QuantumBloomStudio.java:710-744 | the fresh 201-entry array holds 50·|ψ|² at each grid position |
| Observables.SampleMomentum | QuantumBloomStudio.java:765-785 | the fresh 201-entry array holds 50·φ at each momentum grid point |
| Observables.ProbSampleStationary | QuantumBloomStudio.java:710-744 | for a box or oscillator state the density panel is the same at any two times |
| Observables.OscillatorDensityEven | QuantumBloomStudio.java:716-743 | the oscillator density is even in x at every time |
| Observables.OscillatorProbSymmetric | QuantumBloomStudio.java:711-743 | the oscillator density panel is mirror-symmetric: sample 200−i equals sample i |
| Observables.OscillatorPhiParity | QuantumBloomStudio.java:769-784 | the oscillator momentum panel has the parity of n: sample 200−i is (−1)ⁿ times sample i |
| Observables.PhaseMarker | QuantumBloomStudio.java:812-846 | the phase-plot dot sits at squared distance 2500·|ψ(0, t)|² from the centre (100, 50) |
| Observables.PhaseMarkerOnCircle | QuantumBloomStudio.java:812-846 | for a single-mode state the dot stays on the circle of squared radius 2500·ψ₁(0)² |
| Observables.PhaseMarkerStartsOnRealAxis | QuantumBloomStudio.java:812-846 | at t = 0 the dot lies on the horizontal axis at 100 + 50·ψ(0) |
| Observables.PartialIntegral | QuantumBloomStudio.java:867-901 | the accumulator xExp after the first j grid points; PartialIntegralIsPrefixSum and PartialIntegralStationary are its properties |
| Observables.ExpectationValue | QuantumBloomStudio.java:867-903 | 10·xExp after all 201 points, the value stored in the ⟨x⟩ curve; ExpectationStationary and OscillatorExpectationIsZero are its properties |
| Observables.PositionIntegral | QuantumBloomStudio.java:867-902 | the inner accumulator xExp ends as the full Riemann sum of x·|ψ|²·2L/200 over the 201 grid points |
| Observables.ExpectationCurve | QuantumBloomStudio.java:863-904 | the fresh 201-entry array holds 10·⟨x⟩ at times 0, 0.1, …, 20 |
| Observables.PartialIntegralIsPrefixSum | QuantumBloomStudio.java:868-901 | the accumulator after j points is the sum of the first j Riemann terms |
| Observables.AntisymmetricSumIsZero | QuantumBloomStudio.java:868-901 | a sequence whose mirrored entries are opposite sums to 0 |
| Observables.ExpectationStationary | QuantumBloomStudio.java:863-904 | for a box or oscillator state the ⟨x⟩ curve is flat |
| Observables.PartialIntegralStationary | QuantumBloomStudio.java:867-902 | every partial sum of a single-mode state is independent of time |
| Observables.OscillatorExpectationIsZero | QuantumBloomStudio.java:863-904 | for the oscillator ⟨x⟩ is exactly 0 at every time |
| Observables.HeatAlpha | QuantumBloomStudio.java:953-954 | `min(prob·5, 1)` is at most 1, non-negative for a density, equal to 1 exactly when prob·5 ≥ 1 and equal to prob·5 otherwise |
| Observables.HeatCell | QuantumBloomStudio.java:919-955 | every heatmap cell's opacity lies in [0, 1] |
| Observables.PaintHeatmap | QuantumBloomStudio.java:913-957 | a fresh 50×50 grid holds the opacity of every cell (i, j) of the sweep |
| Observables.PaintColumn | QuantumBloomStudio.java:920-955 | the inner sweep sets column i to its cells' opacities and leaves every other column unchanged |
| Observables.HeatColumnUniform | QuantumBloomStudio.java:919-955 | for a single-mode state each heatmap column has one colour at every time |
| Controller.Clamp | QuantumBloomStudio.java:188 | `max(lo, min(v, hi))` lies in [lo, hi], keeps v inside the range and saturates at the violated bound |
| Controller.MarkerCanvasX | QuantumBloomStudio.java:623 | a marker within [−L, L] is drawn within the plotted range [50, 750]; MarkerMappingRoundTrip makes it the inverse of the drag map |
| Controller.CanvasToMarker | QuantumBloomStudio.java:209 | the position a drag asks for before clamping; DragInsidePlotStaysInBox and MarkerMappingRoundTrip are its properties |
| Controller.BandTop | QuantumBloomStudio.java:247 | the top 90 − 20·E_i of level i's clickable band; OscillatorBandsDisjoint and LastBandHit are stated over it |
| Controller.MarkerMappingRoundTrip | QuantumBloomStudio.java:623 | the drag's canvas-to-position map and the marker's position-to-canvas map are inverse in both orders |
| Controller.DragInsidePlotStaysInBox | QuantumBloomStudio.java:209-210 | a drag inside the plotted range 50..750 asks for a position within [−L, L] |
| Controller.LastBandHit | QuantumBloomStudio.java:243-253 | the picker's final choice is the highest level in 1..k whose band holds y, or none when no band does |
| Controller.OscillatorBandsDisjoint | QuantumBloomStudio.java:243-253 | the oscillator's clickable bands do not overlap, so a click selects at most one level |
| Controller.InverseRootHalf | QuantumBloomStudio.java:43 | the initial weights 1/√2 equal √0.5, the weights of the slider's reset value 0.5 |
| Controller.Studio.Snapshot | QuantumBloomStudio.java:36-43 | the parameters the panels read carry the selected system, n and L, with weights whose squares sum to 1 |
| Controller.Studio.constructor | QuantumBloomStudio.java:30-49 | a fresh studio, with a fresh weights array, is valid, shows the n = 1 box at L = 10 with weights 1/√2, and has zoom 1, no pan, marker 0, time 0, no drag and no animation |
| Controller.Studio.SelectSystem | QuantumBloomStudio.java:69-70 | selecting a system changes only the selected system |
| Controller.Studio.SetQuantumNumber | QuantumBloomStudio.java:88-96 | the n slider stores its value and n becomes its integer part in 1..10; nothing else changes |
| Controller.Studio.SetLength | QuantumBloomStudio.java:98-105 | the L slider sets L to its value; nothing else changes, not even the marker |
| Controller.Studio.SetWeight | QuantumBloomStudio.java:107-116 | the weight slider sets the weights to √w and √(1−w), both non-negative with squares summing to 1; nothing else changes |
| Controller.Studio.Scroll | QuantumBloomStudio.java:185-190 | the zoom is multiplied by 1.1 or 0.9 by the wheel direction and clamped into [0.5, 5]; nothing else changes |
| Controller.Studio.PressPrimary | QuantumBloomStudio.java:192-199 | a press within 10 pixels of the drawn marker starts a drag; nothing else changes |
| Controller.Studio.DragPrimary | QuantumBloomStudio.java:201-211 | while dragging, the marker moves to the pointer's position clamped to [−L, L], and inside the plot it is drawn exactly under the pointer; otherwise nothing changes |
| Controller.Studio.Release | QuantumBloomStudio.java:213-219 | releasing ends any drag; nothing else changes |
| Controller.Studio.ClickEnergyLevel | QuantumBloomStudio.java:243-253 | a click on the energy panel sets n to the highest of levels 1..5 whose band holds the click, except for the superposition or when no band is hit |
| Controller.Studio.ToggleAnimation | QuantumBloomStudio.java:373-384 | play/pause flips the animation flag and changes nothing else |
| Controller.Studio.Tick | QuantumBloomStudio.java:335 | each animation frame raises time by exactly 0.05 and changes nothing else |
| Controller.Studio.Reset | QuantumBloomStudio.java:155-168 | reset returns to the box with n = 1, L = 10, weight 0.5, zoom 1, pan (0, 0), marker 0, time 0 and animation off |
| Controller.ToggleTwice | QuantumBloomStudio.java:373-384 | toggling twice restores the animation flag |

## Left out

- Drawing, layout and styling: every `GraphicsContext` call, gradients, fade transitions, labels, the info log and the grid lines and `showGrid` toggle. These have no checkable behaviour.
- Plotting of the sampled arrays: the model keeps the arrays the source fills and the values it passes to the drawing calls (the heatmap opacities and the phase-plot dot), not the strokes themselves.
- Save and load through `FileChooser` and `java.util.Properties` (QuantumBloomStudio.java:386-430): file I/O and library parsing.
- The help and about dialogs (QuantumBloomStudio.java:432-476): static text.
- Panning with the secondary mouse button (QuantumBloomStudio.java:193-196, 203-207, 214-217) and the hover label (QuantumBloomStudio.java:223-227). The pan arithmetic promises nothing stable, and the label only formats text. The pan fields are kept because reset sets them.
- Enabling and disabling the n and weight sliders when the system changes (QuantumBloomStudio.java:71-77): widget state with no effect on the computation.
- `AnimationTimer` scheduling: only its per-frame step `time += 0.05` is modelled.
- Controller.Studio.Tick: can be called whether or not `isAnimating` is set. The source ties frames to the timer's start and stop, which the model does not schedule.
- Numeric values of `Math.sin`, `Math.cos`, `Math.exp`, `Math.sqrt` and `Math.PI`, and IEEE rounding. These are abstract functions constrained only by the laws listed above. Doubles are reals. `Math.pow(2, n)` is not abstract: it is modelled exactly as 2ⁿ (SpecialFunctions.Pow2).
- Wavefunction.OscNorm: uses the exact n! rather than the `long` that `factorial(n)` returns. The two agree for n ≤ 20 (SpecialFunctions.Factorial), which covers every n the slider and the energy picker can produce (1..10). From n = 21 the `long` wraps, and for some such n it is negative, so the source's normaliser would be `Math.sqrt` of a negative number (NaN). The model's value stays positive there.
- Wavefunction.BoxEnergy: the formula n²π²ħ²/(2mL²) is written as (nπħ/L)²/(2m). This is the same real number, though a different sequence of floating-point operations.
- The `int` product n·n in the box energy and the loop counters never overflow over the slider range 1..10, so they are unbounded integers.
- Mirror symmetry of the box density panel: it needs sin(a + π) = −sin a, which the abstract sine is not given.
- Time dependence of the superposition beyond t = 0: its beat frequency needs angle-addition laws the abstract functions are not given.
- Controller.Studio.SetQuantumNumber, SetLength and SetWeight: these require values within the slider ranges, because a JavaFX `Slider` clamps every value it reports to its own minimum and maximum.
- Controller.Studio.SetLength: like the source, it does not re-clamp the marker into the new [−L, L].
- Controller.Studio.Reset: it is modelled as the listener calls it triggers. The `systemComboBox` action runs on the change, and each slider listener runs only when the value changes.
- Controller.Studio.PressPrimary, DragPrimary and Release: only the primary-button paths are modelled. The secondary-button paths are the pan handling above.
