/**
 * The zoom/step controller and screen bookkeeping that the range-Doppler and the
 * 1-D sounder share line for line: `get_step` with its zoom self-correction,
 * `zoom_in`/`zoom_out`, `pixels_to_cm`, the range-label loop of `update_display`
 * and `size_allocate_event`.
 */
module Controls {
  import opened Wrappers
  import opened Conditioning

  /** Python 3 `round` over exact rationals: the nearest integer, ties to the even one. */
  function RoundHalfEven(x: real): (r: int)
    ensures -0.5 <= r as real - x <= 0.5
    ensures (r as real - x == 0.5 || x - r as real == 0.5) ==> r % 2 == 0
  {
    var f := x.Floor;
    var d := x - f as real;
    if d < 0.5 then f
    else if d > 0.5 then f + 1
    else if f % 2 == 0 then f else f + 1
  }

  /** Half-to-even rounding is the only rounding within 1/2 that sends ties to even integers. */
  lemma RoundHalfEvenUnique(x: real, n: int)
    requires -0.5 <= n as real - x <= 0.5
    requires (n as real - x == 0.5 || x - n as real == 0.5) ==> n % 2 == 0
    ensures n == RoundHalfEven(x)
  {
  }

  /** Rounding keeps the order of its arguments. */
  lemma RoundHalfEvenMonotone(x: real, y: real)
    requires x <= y
    ensures RoundHalfEven(x) <= RoundHalfEven(y)
  {
    if x < y {
      assert RoundHalfEven(x) as real <= x + 0.5 < y + 0.5 <= RoundHalfEven(y) as real + 1.0;
    }
  }

  datatype StepResult = StepResult(step: int, zoom: int)

  /**
   * `get_step` as a function of its state: zoom <= 0 is reset to 1, the step is
   * round(samples / width / zoom) and, when that is at most 1, the step is 1 and
   * zoom is decremented by exactly one.
   */
  function StepFor(samples: real, width: int, zoom: int): (r: StepResult)
    requires width != 0
    ensures r.step >= 1
    ensures r.zoom >= 0
    ensures var z := if zoom <= 0 then 1 else zoom;
            var q := RoundHalfEven(samples / width as real / z as real);
            (r.zoom == z - 1 <==> q <= 1) && (r.zoom == z <==> q > 1) && (q > 1 ==> r.step == q) && (q <= 1 ==> r.step == 1)
  {
    var z := if zoom <= 0 then 1 else zoom;
    var q := RoundHalfEven(samples / width as real / z as real);
    if q <= 1 then StepResult(1, z - 1) else StepResult(q, z)
  }

  /**
   * A zoom that needs no correction is a fixed point: calling `get_step` again gives
   * the same step and leaves zoom alone.
   */
  lemma StepStable(samples: real, width: int, zoom: int)
    requires width != 0 && zoom >= 1
    requires StepFor(samples, width, zoom).zoom == zoom
    ensures StepFor(samples, width, StepFor(samples, width, zoom).zoom) == StepFor(samples, width, zoom)
  {
  }

  /**
   * Self-correction is monotone in zoom: on a positive sample count and width, if
   * zoom z is corrected then so is every larger zoom.
   */
  lemma CorrectionPersists(samples: real, width: int, z: int, z': int)
    requires samples >= 0.0 && width > 0 && 1 <= z <= z'
    requires StepFor(samples, width, z).zoom == z - 1
    ensures StepFor(samples, width, z').zoom == z' - 1
  {
    var base := samples / width as real;
    DivideByLarger(base, z as real, z' as real);
    RoundHalfEvenMonotone(base / z' as real, base / z as real);
  }

  /** Dividing a non-negative value by a larger positive divisor gives no more. */
  lemma DivideByLarger(b: real, a: real, c: real)
    requires b >= 0.0 && 0.0 < a <= c
    ensures b / c <= b / a
  {
    var p, q := b / c, b / a;
    assert p * c == b && q * a == b;
    assert p * (c - a) >= 0.0;
    assert (q - p) * a == p * (c - a);
    MulPositive(q - p, a);
  }

  lemma MulPositive(x: real, a: real)
    requires a > 0.0
    ensures x < 0.0 ==> x * a < 0.0
  {
  }

  /** Zoom after k successive `get_step` calls starting from zoom. */
  function ZoomAfter(samples: real, width: int, zoom: int, k: nat): int
    requires width != 0
  {
    if k == 0 then zoom else StepFor(samples, width, ZoomAfter(samples, width, zoom, k - 1)).zoom
  }

  /** Repeated `get_step` calls never raise zoom above max(zoom, 1), and after one call it is >= 0. */
  lemma {:induction false} ZoomAfterBounded(samples: real, width: int, zoom: int, k: nat)
    requires width != 0
    ensures ZoomAfter(samples, width, zoom, k) <= if zoom <= 1 then 1 else zoom
    ensures k >= 1 ==> ZoomAfter(samples, width, zoom, k) >= 0
  {
    if k > 0 {
      ZoomAfterBounded(samples, width, zoom, k - 1);
    }
  }

  /** Number of range labels: `range(1, int(screenWidth / 50))`. */
  function LabelCount(screenWidth: int): (n: nat)
  {
    var t := Trunc(screenWidth as real / 50.0);
    if t <= 1 then 0 else t - 1
  }

  /** Range label k (from 0): `pixels_to_cm(50 * (k + 1))` at the given step. */
  function RangeLabel(sampleRate: real, step: int, k: nat): real
    requires sampleRate != 0.0
  {
    PixelsToCentimetres(50.0 * (k + 1) as real, sampleRate, step)
  }

  /** The step used for the k-th `get_step` call of a frame that starts at zoom. */
  function StepAt(samples: real, width: int, zoom: int, k: nat): (step: int)
    requires width != 0
    ensures step >= 1
  {
    StepFor(samples, width, ZoomAfter(samples, width, zoom, k)).step
  }

  /** A zoom that `get_step` leaves alone stays put over any number of calls. */
  lemma {:induction false} ZoomAfterFixed(samples: real, width: int, zoom: int, k: nat)
    requires width != 0
    requires StepFor(samples, width, zoom).zoom == zoom
    ensures ZoomAfter(samples, width, zoom, k) == zoom
    ensures StepAt(samples, width, zoom, k) == StepFor(samples, width, zoom).step
  {
    if k > 0 {
      ZoomAfterFixed(samples, width, zoom, k - 1);
    }
  }

  /** At one step, label k is k + 1 times the first: the labels are evenly spaced. */
  lemma RangeLabelsEven(sampleRate: real, step: int, k: nat)
    requires sampleRate != 0.0
    ensures RangeLabel(sampleRate, step, k) == (k + 1) as real * RangeLabel(sampleRate, step, 0)
  {
    var c := 34029.0 / sampleRate / 2.0;
    var q := (k + 1) as real;
    assert 50.0 * q * c * step as real == q * (50.0 * 1.0 * c * step as real);
  }

  /** The screen state both sounders keep: zoom, drawing-area size and last window size. */
  class View {
    const samples: real
    const sampleRate: real
    var zoom: int
    var screenWidth: int
    var screenHeight: int
    var width: Option<int>
    var height: Option<int>

    /** Zoom 1, a 512 by 380 drawing area, no window size seen yet. */
    constructor (samples: real, sampleRate: real)
      ensures this.samples == samples && this.sampleRate == sampleRate
      ensures zoom == 1 && screenWidth == 512 && screenHeight == 380
      ensures width == None && height == None
    {
      this.samples := samples;
      this.sampleRate := sampleRate;
      zoom := 1;
      screenWidth := 512;
      screenHeight := 380;
      width := None;
      height := None;
    }

    /** `get_step`. */
    method GetStep() returns (step: int)
      requires screenWidth != 0
      modifies this`zoom
      ensures step >= 1
      ensures StepResult(step, zoom) == StepFor(samples, screenWidth, old(zoom))
    {
      if zoom <= 0 {
        zoom := 1;
      }
      step := RoundHalfEven(samples / screenWidth as real / zoom as real);
      if step <= 1 {
        step := 1;
        zoom := zoom - 1;
      }
    }

    /** `pixels_to_cm`: linear in the pixel count, and zoom may change through `get_step`. */
    method PixelsToCm(pixels: real) returns (cm: real)
      requires screenWidth != 0 && sampleRate != 0.0
      modifies this`zoom
      ensures var r := StepFor(samples, screenWidth, old(zoom));
              cm == PixelsToCentimetres(pixels, sampleRate, r.step) && zoom == r.zoom
    {
      var step := GetStep();
      cm := PixelsToCentimetres(pixels, sampleRate, step);
    }

    /**
     * The range-label loop of `update_display`: label i (from 1) is `pixels_to_cm(50 * i)`,
     * each call threading zoom through one more `get_step`.
     */
    method RangeLabels() returns (labels: seq<real>)
      requires screenWidth != 0 && sampleRate != 0.0
      modifies this`zoom
      ensures |labels| == LabelCount(screenWidth)
      ensures zoom == ZoomAfter(samples, screenWidth, old(zoom), |labels|)
      ensures forall k :: 0 <= k < |labels| ==>
        labels[k] == RangeLabel(sampleRate, StepAt(samples, screenWidth, old(zoom), k), k)
    {
      labels := [];
      var count := Trunc(screenWidth as real / 50.0);
      var i := 1;
      while i < count
        invariant 1 <= i <= if count >= 1 then count else 1
        invariant |labels| == i - 1
        invariant zoom == ZoomAfter(samples, screenWidth, old(zoom), i - 1)
        invariant forall k :: 0 <= k < |labels| ==>
          labels[k] == RangeLabel(sampleRate, StepAt(samples, screenWidth, old(zoom), k), k)
      {
        var cm := PixelsToCm((i * 50) as real);
        labels := labels + [cm];
        i := i + 1;
      }
    }

    /** `zoom_in`. */
    method ZoomIn()
      modifies this`zoom
      ensures zoom == old(zoom) + 1
    {
      zoom := zoom + 1;
    }

    /** `zoom_out`. */
    method ZoomOut()
      modifies this`zoom
      ensures zoom == old(zoom) - 1
    {
      zoom := zoom - 1;
    }

    /**
     * `size_allocate_event`: the first call only records the window size; later calls
     * move the drawing-area size by the change in window size, so that the differences
     * screenWidth - width and screenHeight - height are kept.
     */
    method SizeAllocate(w: int, h: int)
      modifies this`width, this`height, this`screenWidth, this`screenHeight
      ensures width == Some(w) && height == Some(h)
      ensures old(width).None? || old(height).None? ==>
                screenWidth == old(screenWidth) && screenHeight == old(screenHeight)
      ensures old(width).Some? && old(height).Some? ==>
                screenWidth - w == old(screenWidth) - old(width).value &&
                screenHeight - h == old(screenHeight) - old(height).value
    {
      if width.None? || height.None? {
        width := Some(w);
        height := Some(h);
      } else {
        screenHeight := screenHeight + h - height.value;
        screenWidth := screenWidth + w - width.value;
        width := Some(w);
        height := Some(h);
      }
    }
  }
}
