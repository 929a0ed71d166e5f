/** The studio's interactive state and the event handlers that change it: the
    system selector, the three sliders (quantum number, length, superposition
    weight), the scroll zoom, the draggable position marker, the energy-level
    picker, play/pause, the animation tick and reset. */
module Controller {
  import opened Transcendental
  import opened Wavefunction

  const ZOOM_MIN: real := 0.5
  const ZOOM_MAX: real := 5.0
  /** Time added by every animation frame. */
  const TICK: real := 0.05
  /** The plotted x range of the main canvas, from 50 to 750 pixels. */
  const PLOT_LEFT: real := 50.0
  const PLOT_WIDTH: real := 700.0
  /** How close, in pixels, a press must land to grab the marker. */
  const GRAB_RADIUS: real := 10.0

  function Min(a: real, b: real): real
  {
    if a <= b then a else b
  }

  function Max(a: real, b: real): real
  {
    if a >= b then a else b
  }

  function Abs(a: real): real
  {
    if a < 0.0 then -a else a
  }

  /** max(lo, min(v, hi)), as the scroll and drag handlers write it. */
  function Clamp(v: real, lo: real, hi: real): (r: real)
    requires lo <= hi
    ensures lo <= r <= hi
    ensures lo <= v <= hi ==> r == v
    ensures v < lo ==> r == lo
    ensures hi < v ==> r == hi
  {
    Max(lo, Min(v, hi))
  }

  // ---------------------------------------------------------------- marker geometry

  /** Canvas x at which the marker at position mx is drawn. */
  function MarkerCanvasX(mx: real, L: real): (r: real)
    requires 0.0 < L
    ensures -L <= mx <= L ==> PLOT_LEFT <= r <= PLOT_LEFT + PLOT_WIDTH
  {
    MarkerInsidePlot(mx, L);
    PLOT_LEFT + (mx + L) * PLOT_WIDTH / (2.0 * L)
  }

  /** A marker within [−L, L] is drawn within the plotted range. */
  lemma MarkerInsidePlot(mx: real, L: real)
    requires 0.0 < L
    ensures -L <= mx <= L ==> 0.0 <= (mx + L) * PLOT_WIDTH / (2.0 * L) <= PLOT_WIDTH
  {
    if -L <= mx <= L {
      var u := (mx + L) / (2.0 * L);
      assert 0.0 <= u <= 1.0;
      assert (mx + L) * PLOT_WIDTH / (2.0 * L) == u * PLOT_WIDTH;
    }
  }

  /** Position a drag to canvas x = cx asks for, before clamping. */
  function CanvasToMarker(cx: real, L: real): real
  {
    (cx - PLOT_LEFT) * 2.0 * L / PLOT_WIDTH - L
  }

  /** The two mappings are inverse to each other, in both orders. */
  lemma MarkerMappingRoundTrip(mx: real, cx: real, L: real)
    requires 0.0 < L
    ensures CanvasToMarker(MarkerCanvasX(mx, L), L) == mx
    ensures MarkerCanvasX(CanvasToMarker(cx, L), L) == cx
  {
    var u := (mx + L) * PLOT_WIDTH / (2.0 * L);
    DivCancel((mx + L) * PLOT_WIDTH, 2.0 * L);
    assert u * (2.0 * L) == (mx + L) * PLOT_WIDTH;
    assert (u * 2.0 * L) / PLOT_WIDTH == mx + L;
    var v := (cx - PLOT_LEFT) * 2.0 * L / PLOT_WIDTH;
    assert v * PLOT_WIDTH == (cx - PLOT_LEFT) * (2.0 * L);
    DivCancel(v * PLOT_WIDTH, 2.0 * L);
    assert (cx - PLOT_LEFT) * (2.0 * L) / (2.0 * L) == cx - PLOT_LEFT;
  }

  lemma DivCancel(a: real, d: real)
    requires d != 0.0
    ensures a / d * d == a
  {
  }

  /** A drag inside the plotted range [50, 750] asks for a position in [−L, L],
      so the clamp leaves it alone. */
  lemma DragInsidePlotStaysInBox(cx: real, L: real)
    requires 0.0 < L && PLOT_LEFT <= cx <= PLOT_LEFT + PLOT_WIDTH
    ensures -L <= CanvasToMarker(cx, L) <= L
  {
    var c := cx - PLOT_LEFT;
    assert 0.0 <= c * 2.0 * L <= PLOT_WIDTH * 2.0 * L by {
      assert 0.0 <= c <= PLOT_WIDTH;
      assert c * (2.0 * L) <= PLOT_WIDTH * (2.0 * L);
    }
  }

  // ---------------------------------------------------------------- energy picker

  /** Top of the clickable band of level i on the energy canvas: 90 − 20·E_i. */
  function BandTop(m: MathLib, p: Params, i: int): real
    requires 0.0 < p.L
  {
    90.0 - Energy(m, p, i) * 20.0
  }

  /** A click at height y selects level i when it falls in [top, top + 10]. */
  predicate InBand(m: MathLib, p: Params, y: real, i: int)
    requires 0.0 < p.L
  {
    y >= BandTop(m, p, i) && y <= BandTop(m, p, i) + 10.0
  }

  /** The highest of levels 1..k whose band holds y, or 0 when none does: the
      picker visits the levels upwards and the last match wins. */
  function LastBandHit(m: MathLib, p: Params, y: real, k: nat): (r: nat)
    requires 0.0 < p.L
    ensures r <= k
    ensures r == 0 ==> forall i :: 1 <= i <= k ==> !InBand(m, p, y, i)
    ensures 0 < r ==> InBand(m, p, y, r) && forall i :: r < i <= k ==> !InBand(m, p, y, i)
  {
    if k == 0 then 0 else if InBand(m, p, y, k) then k else LastBandHit(m, p, y, k - 1)
  }

  /** The oscillator's bands are 20 pixels apart and 10 high, so no click lies in two. */
  lemma OscillatorBandsDisjoint(m: MathLib, p: Params, y: real, i: int, j: int)
    requires 0.0 < p.L && p.kind == HarmonicOscillator
    requires InBand(m, p, y, i) && InBand(m, p, y, j)
    ensures i == j
  {
    OscillatorLevelsEquallySpaced(m, p, i);
    OscillatorLevelsEquallySpaced(m, p, j);
    assert BandTop(m, p, i) == 90.0 - ((i as real) + 0.5) * 20.0;
    assert BandTop(m, p, j) == 90.0 - ((j as real) + 0.5) * 20.0;
  }

  // ---------------------------------------------------------------- state

  /** 1/√2, the initial weights, is √0.5, the root the reset weight gives. */
  lemma InverseRootHalf(m: MathLib)
    requires Lawful(m)
    ensures 0.0 < m.sqrt(2.0) && 1.0 / m.sqrt(2.0) == m.sqrt(0.5)
  {
    var s := m.sqrt(2.0);
    SqrtSquared(m, 2.0);
    SqrtPositive(m, 2.0);
    assert (1.0 / s) * (1.0 / s) == 0.5 by {
      calc {
        (1.0 / s) * (1.0 / s);
        1.0 / (s * s);
        1.0 / 2.0;
      }
    }
    SqrtUnique(m, 1.0 / s, 0.5);
  }

  class Studio {
    /** Math.sin, Math.cos, Math.exp, Math.sqrt and Math.PI. */
    const lib: MathLib
    var system: SystemKind
    /** The n slider's value and the quantum number read from it. */
    var nValue: real
    var n: int
    /** The length slider's value, which is L itself. */
    var L: real
    /** The weight slider's value and the two amplitudes derived from it. */
    var weight: real
    const weights: array<real>
    var time: real
    var zoomFactor: real
    var panX: real
    var panY: real
    var markerX: real
    var isDraggingMarker: bool
    var isAnimating: bool

    /** What every handler keeps: the sliders within their ranges, n the integer
        part of its slider, the weights the roots √w and √(1 − w), the zoom within
        [0.5, 5] and time never negative. */
    ghost predicate Valid()
      reads this, weights
    {
      && Lawful(lib)
      && weights.Length == 2
      && 1.0 <= nValue <= 10.0 && n == nValue.Floor
      && 5.0 <= L <= 20.0
      && 0.0 <= weight <= 1.0
      && weights[0] == lib.sqrt(weight) && weights[1] == lib.sqrt(1.0 - weight)
      && ZOOM_MIN <= zoomFactor <= ZOOM_MAX
      && 0.0 <= time
    }

    /** The settings a fresh studio starts with and reset returns to. */
    ghost predicate Pristine()
      reads this, weights
    {
      && weights.Length == 2
      && system == ParticleInBox && nValue == 1.0 && n == 1 && L == 10.0
      && weight == 0.5 && weights[0] == lib.sqrt(0.5) && weights[1] == lib.sqrt(0.5)
      && zoomFactor == 1.0 && panX == 0.0 && panY == 0.0 && markerX == 0.0
      && !isAnimating && time == 0.0
    }

    /** What one evaluation of the wavefunction reads. */
    function Snapshot(): (r: Params)
      reads this, weights
      requires Valid()
      ensures r.kind == system && r.n == n && r.L == L
      ensures r.w1 * r.w1 + r.w2 * r.w2 == 1.0
    {
      SqrtSquared(lib, weight);
      SqrtSquared(lib, 1.0 - weight);
      Params(system, n, L, weights[0], weights[1])
    }

    constructor (m: MathLib)
      requires Lawful(m)
      ensures Valid() && Pristine() && !isDraggingMarker && fresh(weights)
      ensures 0.0 < m.sqrt(2.0) && weights[0] == 1.0 / m.sqrt(2.0) && weights[1] == 1.0 / m.sqrt(2.0)
    {
      SqrtPositive(m, 2.0);
      lib := m;
      system := ParticleInBox;
      nValue, n := 1.0, 1;
      L := 10.0;
      weight := 0.5;
      weights := new real[] [1.0 / m.sqrt(2.0), 1.0 / m.sqrt(2.0)];
      time := 0.0;
      zoomFactor := 1.0;
      panX, panY := 0.0, 0.0;
      markerX := 0.0;
      isDraggingMarker := false;
      isAnimating := false;
      new;
      InverseRootHalf(m);
    }

    /** The system combo box. */
    method SelectSystem(k: SystemKind)
      requires Valid()
      modifies this
      ensures Valid() && system == k
      ensures nValue == old(nValue) && n == old(n) && L == old(L) && weight == old(weight)
      ensures time == old(time) && zoomFactor == old(zoomFactor) && markerX == old(markerX)
      ensures panX == old(panX) && panY == old(panY)
      ensures isDraggingMarker == old(isDraggingMarker) && isAnimating == old(isAnimating)
    {
      system := k;
    }

    /** nSlider.setValue(v), or the user moving it: the listener fires only on a
        change and stores the integer part. */
    method SetQuantumNumber(v: real)
      requires Valid() && 1.0 <= v <= 10.0
      modifies this
      ensures Valid() && nValue == v && n == v.Floor && 1 <= n <= 10
      ensures system == old(system) && L == old(L) && weight == old(weight)
      ensures time == old(time) && zoomFactor == old(zoomFactor) && markerX == old(markerX)
      ensures panX == old(panX) && panY == old(panY)
      ensures isDraggingMarker == old(isDraggingMarker) && isAnimating == old(isAnimating)
    {
      if v != nValue {
        nValue := v;
        n := v.Floor;
      }
    }

    /** The length slider: L takes the slider's value.  The marker is not re-clamped. */
    method SetLength(v: real)
      requires Valid() && 5.0 <= v <= 20.0
      modifies this
      ensures Valid() && L == v
      ensures system == old(system) && nValue == old(nValue) && n == old(n) && weight == old(weight)
      ensures time == old(time) && zoomFactor == old(zoomFactor) && markerX == old(markerX)
      ensures panX == old(panX) && panY == old(panY)
      ensures isDraggingMarker == old(isDraggingMarker) && isAnimating == old(isAnimating)
    {
      if v != L {
        L := v;
      }
    }

    /** The weight slider: the amplitudes become √w and √(1 − w), two
        non-negative numbers whose squares add up to 1. */
    method SetWeight(w: real)
      requires Valid() && 0.0 <= w <= 1.0
      modifies this, weights
      ensures Valid() && weight == w
      ensures weights[0] == lib.sqrt(w) && weights[1] == lib.sqrt(1.0 - w)
      ensures 0.0 <= weights[0] && 0.0 <= weights[1]
      ensures weights[0] * weights[0] + weights[1] * weights[1] == 1.0
      ensures system == old(system) && nValue == old(nValue) && n == old(n) && L == old(L)
      ensures time == old(time) && zoomFactor == old(zoomFactor) && markerX == old(markerX)
      ensures panX == old(panX) && panY == old(panY)
      ensures isDraggingMarker == old(isDraggingMarker) && isAnimating == old(isAnimating)
    {
      if w != weight {
        weight := w;
        weights[0] := lib.sqrt(w);
        weights[1] := lib.sqrt(1.0 - w);
      }
      SqrtSquared(lib, w);
      SqrtSquared(lib, 1.0 - w);
    }

    /** A scroll multiplies the zoom by 1.1 (wheel up) or 0.9 and clamps it to [0.5, 5]. */
    method Scroll(deltaY: real)
      requires Valid()
      modifies this
      ensures Valid()
      ensures zoomFactor == Clamp(old(zoomFactor) * (if deltaY > 0.0 then 1.1 else 0.9), ZOOM_MIN, ZOOM_MAX)
      ensures system == old(system) && nValue == old(nValue) && n == old(n) && L == old(L)
      ensures weight == old(weight) && time == old(time) && markerX == old(markerX)
      ensures panX == old(panX) && panY == old(panY)
      ensures isDraggingMarker == old(isDraggingMarker) && isAnimating == old(isAnimating)
    {
      var delta := if deltaY > 0.0 then 1.1 else 0.9;
      zoomFactor := zoomFactor * delta;
      zoomFactor := Max(ZOOM_MIN, Min(zoomFactor, ZOOM_MAX));
    }

    /** A primary-button press grabs the marker when it lands within 10 pixels of it. */
    method PressPrimary(cx: real)
      requires Valid()
      modifies this
      ensures Valid()
      ensures isDraggingMarker == (old(isDraggingMarker) || Abs(cx - MarkerCanvasX(markerX, L)) < GRAB_RADIUS)
      ensures system == old(system) && nValue == old(nValue) && n == old(n) && L == old(L)
      ensures weight == old(weight) && time == old(time) && zoomFactor == old(zoomFactor)
      ensures markerX == old(markerX) && panX == old(panX) && panY == old(panY)
      ensures isAnimating == old(isAnimating)
    {
      if Abs(cx - MarkerCanvasX(markerX, L)) < GRAB_RADIUS {
        isDraggingMarker := true;
      }
    }

    /** A primary-button drag moves a grabbed marker to the pointer, clamped to
        [−L, L]; inside the plot the marker is then drawn exactly under the pointer. */
    method DragPrimary(cx: real)
      requires Valid()
      modifies this
      ensures Valid()
      ensures old(isDraggingMarker) ==> markerX == Clamp(CanvasToMarker(cx, L), -L, L)
      ensures old(isDraggingMarker) ==> -L <= markerX <= L
      ensures old(isDraggingMarker) && PLOT_LEFT <= cx <= PLOT_LEFT + PLOT_WIDTH ==>
        MarkerCanvasX(markerX, L) == cx
      ensures !old(isDraggingMarker) ==> markerX == old(markerX)
      ensures system == old(system) && nValue == old(nValue) && n == old(n) && L == old(L)
      ensures weight == old(weight) && time == old(time) && zoomFactor == old(zoomFactor)
      ensures panX == old(panX) && panY == old(panY)
      ensures isDraggingMarker == old(isDraggingMarker) && isAnimating == old(isAnimating)
    {
      if isDraggingMarker {
        var target := CanvasToMarker(cx, L);
        markerX := target;
        markerX := Max(-L, Min(markerX, L));
        if PLOT_LEFT <= cx <= PLOT_LEFT + PLOT_WIDTH {
          DragInsidePlotStaysInBox(cx, L);
          MarkerMappingRoundTrip(0.0, cx, L);
        }
      }
    }

    /** Releasing any button ends a marker drag. */
    method Release()
      requires Valid()
      modifies this
      ensures Valid() && !isDraggingMarker
      ensures system == old(system) && nValue == old(nValue) && n == old(n) && L == old(L)
      ensures weight == old(weight) && time == old(time) && zoomFactor == old(zoomFactor)
      ensures markerX == old(markerX) && panX == old(panX) && panY == old(panY)
      ensures isAnimating == old(isAnimating)
    {
      isDraggingMarker := false;
    }

    /** A click on the energy canvas at height y selects, outside the superposition,
        the highest of levels 1..5 whose band holds y. */
    method ClickEnergyLevel(y: real)
      requires Valid()
      modifies this
      ensures Valid()
      ensures var hit := LastBandHit(lib, old(Snapshot()), y, 5);
        if old(system) == Superposition12 || hit == 0 then nValue == old(nValue) && n == old(n)
        else nValue == hit as real && n == hit
      ensures system == old(system) && L == old(L) && weight == old(weight)
      ensures time == old(time) && zoomFactor == old(zoomFactor) && markerX == old(markerX)
      ensures panX == old(panX) && panY == old(panY)
      ensures isDraggingMarker == old(isDraggingMarker) && isAnimating == old(isAnimating)
    {
      ghost var p := Snapshot();
      for i := 1 to 6
        invariant Valid()
        invariant system == old(system) && L == old(L) && weight == old(weight)
        invariant time == old(time) && zoomFactor == old(zoomFactor) && markerX == old(markerX)
        invariant panX == old(panX) && panY == old(panY)
        invariant isDraggingMarker == old(isDraggingMarker) && isAnimating == old(isAnimating)
        invariant var hit := LastBandHit(lib, p, y, i - 1);
          if system == Superposition12 || hit == 0 then nValue == old(nValue) && n == old(n)
          else nValue == hit as real && n == hit
      {
        var energy := Energy(lib, Snapshot(), i);
        var ey := 90.0 - energy * 20.0;
        assert ey == BandTop(lib, p, i);
        if y >= ey && y <= ey + 10.0 && system != Superposition12 {
          SetQuantumNumber(i as real);
        }
      }
    }

    /** Play/pause flips the animation flag; toggling twice restores it. */
    method ToggleAnimation()
      requires Valid()
      modifies this
      ensures Valid() && isAnimating == !old(isAnimating)
      ensures system == old(system) && nValue == old(nValue) && n == old(n) && L == old(L)
      ensures weight == old(weight) && time == old(time) && zoomFactor == old(zoomFactor)
      ensures markerX == old(markerX) && panX == old(panX) && panY == old(panY)
      ensures isDraggingMarker == old(isDraggingMarker)
    {
      isAnimating := !isAnimating;
    }

    /** One animation frame advances time by exactly 0.05. */
    method Tick()
      requires Valid()
      modifies this
      ensures Valid() && time == old(time) + TICK
      ensures system == old(system) && nValue == old(nValue) && n == old(n) && L == old(L)
      ensures weight == old(weight) && zoomFactor == old(zoomFactor) && markerX == old(markerX)
      ensures panX == old(panX) && panY == old(panY)
      ensures isDraggingMarker == old(isDraggingMarker) && isAnimating == old(isAnimating)
    {
      time := time + TICK;
    }

    /** Reset puts every setting back to the one a fresh studio starts with. */
    method Reset()
      requires Valid()
      modifies this, weights
      ensures Valid() && Pristine()
      ensures isDraggingMarker == old(isDraggingMarker)
    {
      SelectSystem(ParticleInBox);
      SetQuantumNumber(1.0);
      SetLength(10.0);
      SetWeight(0.5);
      zoomFactor := 1.0;
      panX := 0.0;
      panY := 0.0;
      markerX := 0.0;
      if isAnimating {
        ToggleAnimation();
      }
      time := 0.0;
      assert 1.0 - 0.5 == 0.5;
    }
  }

  /** Toggling twice in a row leaves the animation flag as it was. */
  method ToggleTwice(s: Studio)
    requires s.Valid()
    modifies s
    ensures s.Valid() && s.isAnimating == old(s.isAnimating)
  {
    s.ToggleAnimation();
    s.ToggleAnimation();
  }
}
