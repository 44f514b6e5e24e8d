/**
 * The range-Doppler sonar (rdsounder.py). Each frame slides the capture window,
 * optionally replaces it by its matched-filter correlation, centres it on its
 * strongest sample, pushes its magnitudes onto the pulse history as row 0 and
 * decimates the history by the zoom step. In Doppler mode the decimated history
 * goes through a column FFT (given), is half-rolled and re-sampled to the screen
 * height; otherwise the zero floor is written through the decimation view into
 * the history itself. The dB stretch is quantised to 8-bit pixels.
 */
module RangeDoppler {
  import opened Signal
  import opened Window
  import opened Grid
  import opened Conditioning
  import opened Controls

  const BlockSize: nat := 3000
  /** `int(blockSize / 2 * blocks)` with one block: the window and history width. */
  const Half: nat := 1500
  const SampleRate: real := 44100.0
  /** `get_dstep`: the Doppler row step is always 1. */
  const DStep: nat := 1

  /** The zero floor written through the column view `m[:, ::step]` into m. */
  function FloorColumnsAt(m: seq<seq<real>>, step: nat): (r: seq<seq<real>>)
    requires step >= 1
    ensures |r| == |m|
    ensures forall i :: 0 <= i < |m| ==> r[i] == FloorZerosRealAt(m[i], step)
  {
    seq(|m|, i requires 0 <= i < |m| => FloorZerosRealAt(m[i], step))
  }

  /** Flooring through a stride view is the same as flooring the strided copy. */
  lemma FloorThroughStride(xs: seq<real>, step: nat)
    requires step >= 1
    ensures Decimate(FloorZerosRealAt(xs, step), step) == FloorZerosReal(Decimate(xs, step))
  {
    var l, r := Decimate(FloorZerosRealAt(xs, step), step), FloorZerosReal(Decimate(xs, step));
    forall j | 0 <= j < |l|
      ensures l[j] == r[j]
    {
      DecimateKeepsMultiples(FloorZerosRealAt(xs, step), step, j);
      DecimateKeepsMultiples(xs, step, j);
      MultipleMod(j, step);
    }
  }

  /**
   * Writing the zero floor through `corr_data[:, ::step]` floors exactly the entries
   * the plot shows: the plot has no zero entry and shows the floored history.
   */
  lemma FloorThroughView(m: seq<seq<real>>, step: nat)
    requires step >= 1
    ensures forall i :: 0 <= i < |m| ==>
      DecimateColumns(FloorColumnsAt(m, step), step)[i] == FloorZerosReal(Decimate(m[i], step))
    ensures forall i, j :: 0 <= i < |m| && 0 <= j < |DecimateColumns(FloorColumnsAt(m, step), step)[i]| ==>
      DecimateColumns(FloorColumnsAt(m, step), step)[i][j] != 0.0
  {
    forall i | 0 <= i < |m|
      ensures DecimateColumns(FloorColumnsAt(m, step), step)[i] == FloorZerosReal(Decimate(m[i], step))
    {
      FloorThroughStride(m[i], step);
    }
  }

  /** `[int(x) for x in numpy.arange(0, rows, rows / float(screenHeight))]` over exact rationals. */
  function SelectedRows(rows: nat, screenHeight: int): (sel: seq<nat>)
    requires rows > 0 && screenHeight != 0
    ensures screenHeight < 0 ==> sel == []
    ensures screenHeight > 0 ==> |sel| == screenHeight
  {
    if screenHeight < 0 then []
    else seq(screenHeight, j requires 0 <= j < screenHeight => j * rows / screenHeight)
  }

  lemma DivMonotone(a: nat, b: nat, d: nat)
    requires a <= b && d > 0
    ensures a / d <= b / d
  {
    var qa, qb := a / d, b / d;
    assert d * qa <= a && b < d * (qb + 1);
    PositiveFactor(d, qb + 1 - qa);
  }

  lemma PositiveFactor(d: int, x: int)
    requires d > 0 && d * x > 0
    ensures x > 0
  {
  }

  /** Every re-selected row index lies in [0, rows) and the indices never decrease. */
  lemma SelectedRowsInRange(rows: nat, screenHeight: int)
    requires rows > 0 && screenHeight != 0
    ensures forall j :: 0 <= j < |SelectedRows(rows, screenHeight)| ==> SelectedRows(rows, screenHeight)[j] < rows
    ensures forall j, k :: 0 <= j <= k < |SelectedRows(rows, screenHeight)| ==>
      SelectedRows(rows, screenHeight)[j] <= SelectedRows(rows, screenHeight)[k]
  {
    var sel := SelectedRows(rows, screenHeight);
    if screenHeight > 0 {
      var h: nat := screenHeight;
      forall j | 0 <= j < |sel|
        ensures sel[j] < rows
      {
        assert j * rows < h * rows by {
          assert (h - j) * rows > 0;
        }
        DivBound(j * rows, h, rows);
      }
      forall j, k | 0 <= j <= k < |sel|
        ensures sel[j] <= sel[k]
      {
        MulMonotone(j, k, rows);
        DivMonotone(j * rows, k * rows, h);
      }
    }
  }

  /** Index j is the truncation of the arange value j * (rows / screenHeight). */
  lemma SelectedRowsAreArange(rows: nat, screenHeight: int)
    requires rows > 0 && screenHeight != 0
    ensures forall j :: 0 <= j < |SelectedRows(rows, screenHeight)| ==>
      SelectedRows(rows, screenHeight)[j] == Trunc(j as real * (rows as real / screenHeight as real))
  {
    var sel := SelectedRows(rows, screenHeight);
    if screenHeight > 0 {
      var h: nat := screenHeight;
      forall j | 0 <= j < |sel|
        ensures sel[j] == Trunc(j as real * (rows as real / h as real))
      {
        DivIsTrunc(j * rows, h);
        assert (j * rows) as real / h as real == j as real * (rows as real / h as real);
      }
    }
  }

  lemma DivBound(a: nat, d: nat, q: nat)
    requires d > 0 && a < d * q
    ensures a / d < q
  {
    assert d * (a / d) <= a;
    PositiveFactor(d, q - a / d);
  }

  /** Integer division of naturals is the truncation of the exact quotient. */
  lemma DivIsTrunc(a: nat, d: nat)
    requires d > 0
    ensures a / d == Trunc(a as real / d as real)
  {
    var q, r := a / d, a % d;
    assert a == d * q + r && 0 <= r < d;
    assert a as real / d as real == q as real + r as real / d as real;
    assert 0.0 <= r as real / d as real < 1.0;
  }

  /** `numpy.roll(plotdat, int(rows / 2), axis=0)`: the Doppler half-roll. */
  function HalfRolled<T>(spectrum: seq<T>): (r: seq<T>)
    ensures |r| == |spectrum|
  {
    Roll(spectrum, |spectrum| / 2)
  }

  /** The half-roll moves row 0 to the centre row |s|/2 and wraps the top rows to the front. */
  lemma HalfRollCentres<T>(spectrum: seq<T>)
    requires |spectrum| > 0
    ensures HalfRolled(spectrum)[|spectrum| / 2] == spectrum[0]
    ensures forall k :: 0 <= k < |spectrum| - |spectrum| / 2 ==>
      HalfRolled(spectrum)[k + |spectrum| / 2] == spectrum[k]
    ensures forall k :: 0 <= k < |spectrum| / 2 ==>
      HalfRolled(spectrum)[k] == spectrum[k + |spectrum| - |spectrum| / 2]
  {
    HalfRollShifts(spectrum);
    HalfRollWraps(spectrum);
  }

  lemma HalfRollShifts<T>(spectrum: seq<T>)
    requires |spectrum| > 0
    ensures forall k :: 0 <= k < |spectrum| - |spectrum| / 2 ==>
      HalfRolled(spectrum)[k + |spectrum| / 2] == spectrum[k]
  {
    var r, h := HalfRolled(spectrum), |spectrum| / 2;
    forall k | 0 <= k < |spectrum| - h
      ensures r[k + h] == spectrum[k]
    {
      RollAt(spectrum, h, k + h);
    }
  }

  lemma HalfRollWraps<T>(spectrum: seq<T>)
    requires |spectrum| > 0
    ensures forall k :: 0 <= k < |spectrum| / 2 ==>
      HalfRolled(spectrum)[k] == spectrum[k + |spectrum| - |spectrum| / 2]
  {
    var r, h := HalfRolled(spectrum), |spectrum| / 2;
    forall k | 0 <= k < h
      ensures r[k] == spectrum[k + |spectrum| - h]
    {
      RollAt(spectrum, h, k);
    }
  }

  /** `a[sel, :]`: fancy indexing by a list of row indices. */
  function Pick<T>(a: seq<T>, sel: seq<nat>): (picked: seq<T>)
    requires forall j :: 0 <= j < |sel| ==> sel[j] < |a|
    ensures |picked| == |sel|
    ensures forall j :: 0 <= j < |sel| ==> picked[j] == a[sel[j]]
  {
    seq(|sel|, j requires 0 <= j < |sel| => a[sel[j]])
  }

  /**
   * `plotdat[[int(x) for x in arange(...)], :]` after the half-roll: row j is row
   * (sel[j] - rows/2) mod rows of the unrolled spectrum.
   */
  function Reselected<T>(spectrum: seq<T>, screenHeight: int): (picked: seq<T>)
    requires |spectrum| > 0 && screenHeight != 0
    ensures |picked| == |SelectedRows(|spectrum|, screenHeight)|
    ensures forall j :: 0 <= j < |picked| ==>
      picked[j] == spectrum[(SelectedRows(|spectrum|, screenHeight)[j] - |spectrum| / 2) % |spectrum|]
  {
    var sel := SelectedRows(|spectrum|, screenHeight);
    SelectedRowsInRange(|spectrum|, screenHeight);
    var picked := Pick(HalfRolled(spectrum), sel);
    assert forall j :: 0 <= j < |sel| ==> picked[j] == HalfRolled(spectrum)[sel[j]];
    picked
  }

  /**
   * The Doppler frame: the column spectrum re-selected after the half-roll,
   * row-decimated by `get_dstep` and floored, so no entry is zero.
   */
  function DopplerFrame(spectrum: seq<seq<Complex>>, screenHeight: int): (frame: seq<seq<Complex>>)
    requires |spectrum| > 0 && screenHeight != 0
    ensures |frame| == |SelectedRows(|spectrum|, screenHeight)|
    ensures forall j :: 0 <= j < |frame| ==>
      frame[j] == FloorZeros(spectrum[(SelectedRows(|spectrum|, screenHeight)[j] - |spectrum| / 2) % |spectrum|])
    ensures forall j, k :: 0 <= j < |frame| && 0 <= k < |frame[j]| ==> frame[j][k] != Zero
  {
    var picked := Reselected(spectrum, screenHeight);
    DecimateByOne(picked);
    var rows := Decimate(picked, DStep);
    seq(|rows|, j requires 0 <= j < |rows| => FloorZeros(rows[j]))
  }

  /** `60 * dB + 100 - 60 * mean`, clipped to [0, 255] and cast to uint8. */
  function Quantise(db: seq<seq<real>>): (img: seq<seq<byte>>)
    requires |Flatten(db)| > 0
    ensures |img| == |db|
    ensures forall i :: 0 <= i < |db| ==> |img[i]| == |db[i]|
    ensures forall i, j :: 0 <= i < |db| && 0 <= j < |db[i]| ==>
      img[i][j] as real <= PixelLevel(db[i][j], Mean(Flatten(db))) < img[i][j] as real + 1.0
    ensures forall i, j :: (0 <= i < |db| && 0 <= j < |db[i]| &&
      0.0 <= Level(db[i][j], Mean(Flatten(db))) <= 255.0) ==>
      img[i][j] as real <= Level(db[i][j], Mean(Flatten(db))) < img[i][j] as real + 1.0
  {
    var m := Mean(Flatten(db));
    seq(|db|, i requires 0 <= i < |db| =>
      seq(|db[i]|, j requires 0 <= j < |db[i]| => Pixel(PixelLevel(db[i][j], m))))
  }

  /** The Doppler axis labels `pixels_to_cmps(30 * i)` for i in `range(0, int(screenHeight / 30))`. */
  function DopplerLabels(screenHeight: int): (labels: seq<real>)
    requires screenHeight != 0
    ensures |labels| == (var t := Trunc(screenHeight as real / 30.0); if t < 0 then 0 else t)
    ensures forall i :: 0 <= i < |labels| ==>
      labels[i] == i as real * PixelsToCmps(30.0, BlockSize as real, screenHeight as real, DStep)
  {
    var t := Trunc(screenHeight as real / 30.0);
    var n: nat := if t < 0 then 0 else t;
    seq(n, i requires 0 <= i < n => PixelsToCmps(30.0 * i as real, BlockSize as real, screenHeight as real, DStep))
  }

  /** The state of one range-Doppler sounder. */
  class Sounder {
    var dataBlock: seq<Complex>
    var averagingWindow: int
    var corrData: seq<seq<real>>
    const view: View

    /** The window is one chunk wide and the history is averagingWindow rows of the window's width. */
    predicate Valid()
      reads this
    {
      |dataBlock| == Half && averagingWindow >= 10 &&
      IsMatrix(corrData, averagingWindow, Half) &&
      view.samples == Half as real && view.sampleRate == SampleRate
    }

    /** A zero window, a 100-row zero history and a fresh 512 by 380 view at zoom 1. */
    constructor ()
      ensures Valid() && fresh(view)
      ensures dataBlock == seq(Half, _ => Zero)
      ensures averagingWindow == 100 && corrData == Zeros(100, Half)
      ensures view.zoom == 1 && view.screenWidth == 512 && view.screenHeight == 380
      ensures view.width.None? && view.height.None?
    {
      dataBlock := seq(Half, _ => Zero);
      averagingWindow := 100;
      corrData := Zeros(100, Half);
      view := new View(Half as real, SampleRate);
    }

    /** `average_cb`: the history becomes an all-zero averagingWindow by Half matrix. */
    method ResetHistory()
      requires Valid()
      modifies this`corrData
      ensures Valid()
      ensures corrData == Zeros(averagingWindow, Half)
    {
      corrData := Zeros(averagingWindow, Half);
    }

    /** `avg_up`: ten more pulses averaged, history reset. */
    method AvgUp()
      requires Valid()
      modifies this`averagingWindow, this`corrData
      ensures Valid()
      ensures averagingWindow == old(averagingWindow) + 10
      ensures corrData == Zeros(averagingWindow, Half)
    {
      averagingWindow := averagingWindow + 10;
      corrData := Zeros(averagingWindow, Half);
    }

    /** `avg_dn`: ten fewer pulses but never fewer than ten, history reset. */
    method AvgDown()
      requires Valid()
      modifies this`averagingWindow, this`corrData
      ensures Valid()
      ensures averagingWindow == if old(averagingWindow) - 10 < 10 then 10 else old(averagingWindow) - 10
      ensures corrData == Zeros(averagingWindow, Half)
    {
      averagingWindow := averagingWindow - 10;
      if averagingWindow < 10 {
        averagingWindow := 10;
      }
      corrData := Zeros(averagingWindow, Half);
    }

    /**
     * `update_display` up to the FFT and the logarithm. `chunk` is the last captured
     * buffer, `correlate` the matched filter and `abs` the complex magnitude. Returns
     * the decimated history (the FFT input in Doppler mode, the floored plot
     * otherwise), the plot step and the range labels.
     */
    method UpdateDisplay(chunk: seq<int>, matched: bool, center: bool, doppler: bool,
                         correlate: seq<Complex> -> seq<Complex>, abs: Complex -> real)
      returns (plotdat: seq<seq<real>>, step: int, rangeLabels: seq<real>)
      requires Valid()
      requires |chunk| == Half
      requires forall w :: |correlate(w)| == |w|
      requires view.screenWidth != 0
      modifies this`dataBlock, this`corrData, view`zoom
      ensures Valid()
      ensures step >= 1
      ensures dataBlock == (var w := Slide(old(dataBlock), Lift(chunk), Half);
                            if matched then correlate(w) else w)
      ensures !matched ==> dataBlock == Lift(chunk)
      ensures var idx := CentreIndex(Apply(abs, dataBlock), center);
              var pushed := PushRow(old(corrData), Apply(abs, Rotated(dataBlock, idx)));
              corrData == if doppler then pushed else FloorColumnsAt(pushed, step)
      ensures var first := StepFor(view.samples, view.screenWidth, old(view.zoom));
              step == first.step &&
              |rangeLabels| == LabelCount(view.screenWidth) &&
              view.zoom == ZoomAfter(view.samples, view.screenWidth, first.zoom, |rangeLabels|) &&
              forall k :: 0 <= k < |rangeLabels| ==>
                rangeLabels[k] == RangeLabel(SampleRate, StepAt(view.samples, view.screenWidth, first.zoom, k), k)
      ensures plotdat == DecimateColumns(corrData, step)
      ensures !doppler ==> forall i, j :: 0 <= i < |plotdat| && 0 <= j < |plotdat[i]| ==> plotdat[i][j] != 0.0
    {
      var window := Slide(dataBlock, Lift(chunk), Half);
      SlideKeepsOnlyChunk(dataBlock, Lift(chunk), Half);
      if matched {
        window := correlate(window);
      }
      dataBlock := window;
      var idx := CentreIndex(Apply(abs, dataBlock), center);
      var row := Apply(abs, Rotated(dataBlock, idx));
      PushRowShifts(corrData, row, Half);
      corrData := PushRow(corrData, row);
      step := view.GetStep();
      if !doppler {
        FloorThroughView(corrData, step);
        corrData := FloorColumnsAt(corrData, step);
      }
      plotdat := DecimateColumns(corrData, step);
      if !doppler {
        DecimateByOne(plotdat);
        plotdat := Decimate(plotdat, DStep);
      }
      rangeLabels := view.RangeLabels();
    }
  }

  /**
   * One frame's history push: row 0 is the magnitude of the window rotated by -idx
   * (so row 0 starts with the strongest sample when centring), row k is old row k - 1,
   * and the shape is unchanged.
   */
  lemma PulsePush(history: seq<seq<real>>, window: seq<Complex>, abs: Complex -> real, center: bool)
    requires |history| > 0 && IsMatrix(history, |history|, |window|) && |window| > 0
    ensures var idx := CentreIndex(Apply(abs, window), center);
            var pushed := PushRow(history, Apply(abs, Rotated(window, idx)));
            IsMatrix(pushed, |history|, |window|) &&
            (forall k :: 1 <= k < |history| ==> pushed[k] == history[k - 1]) &&
            multiset(pushed[0]) == multiset(Apply(abs, window)) &&
            (center ==> forall j :: 0 <= j < |window| ==> pushed[0][j] <= pushed[0][0])
  {
    var mags := Apply(abs, window);
    var idx := CentreIndex(mags, center);
    var row := Apply(abs, Rotated(window, idx));
    PushRowShifts(history, row, |window|);
    RotateProperties(window, idx);
    RotateProperties(mags, idx);
    assert row == Rotated(mags, idx) by {
      forall k | 0 <= k < |row|
        ensures row[k] == Rotated(mags, idx)[k]
      {
      }
    }
  }
}
