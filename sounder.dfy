/**
 * The 1-D echo sounder (sounder.py). Each frame slides the capture window,
 * optionally correlates it, and finds the centring index. With averaging on, the
 * centred magnitudes are pushed onto the history as column 0 and the trace is the
 * mean of every step-th history row; with averaging off the history is just the
 * centred window and the trace keeps every step-th sample, the zero floor being
 * written through that view. The dB trace is clipped to [-10, 500] and offset by 20.
 */
module EchoSounder {
  import opened Signal
  import opened Window
  import opened Grid
  import opened Conditioning
  import opened Controls

  /** `int(blockSize / 2 * blocks)` with blockSize 3000 * 44100 / 44100 and one block. */
  const Half: nat := 1500
  const SampleRate: real := 44100.0

  /** `corr_data`: an n by averagingWindow matrix, or the centred window itself when averaging is off. */
  datatype History = Matrix(rows: seq<seq<real>>) | Trace(samples: seq<Complex>)

  function AbsReal(x: real): (r: real)
    ensures r >= 0.0 && (r == x || r == -x)
  {
    if x < 0.0 then -x else x
  }

  /** `numpy.mean(m, 1)`: the mean of each row. */
  function RowMeans(m: seq<seq<real>>): (means: seq<real>)
    requires forall i :: 0 <= i < |m| ==> |m[i]| > 0
    ensures |means| == |m|
    ensures forall i :: 0 <= i < |m| ==> means[i] == Mean(m[i])
  {
    seq(|m|, i requires 0 <= i < |m| => Mean(m[i]))
  }

  /**
   * `numpy.mean(corr_data[::step, :], 1)`: ceil(n / step) entries, entry j being the
   * mean over the columns of history row j * step.
   */
  function AveragedTrace(rows: seq<seq<real>>, step: nat): (trace: seq<real>)
    requires step >= 1
    requires forall i :: 0 <= i < |rows| ==> |rows[i]| > 0
    ensures |trace| == StrideCount(|rows|, step)
    ensures forall j :: 0 <= j < |trace| ==> j * step < |rows| && trace[j] == Mean(rows[j * step])
  {
    var kept := Decimate(rows, step);
    forall j | 0 <= j < |kept|
      ensures j * step < |rows| && kept[j] == rows[j * step]
    {
      DecimateKeepsMultiples(rows, step, j);
    }
    RowMeans(kept)
  }

  /** The echo trace drawn: every value lies in [10, 520], and in-range levels are offset by 20. */
  function EchoTrace(db: seq<real>): (echo: seq<real>)
    requires |db| > 0
    ensures |echo| == |db|
    ensures forall k :: 0 <= k < |db| ==> 10.0 <= echo[k] <= 520.0
    ensures forall k :: 0 <= k < |db| ==> echo[k] == EchoLevel(db[k], Mean(db))
  {
    var m := Mean(db);
    seq(|db|, k requires 0 <= k < |db| => EchoLevel(db[k], m))
  }

  /**
   * The averaging-on trace: the zero-floored row means of every step-th history row,
   * in dB and conditioned, so ceil(n / step) values in [10, 520].
   */
  function AveragedEcho(log10: real -> real, rows: seq<seq<real>>, step: nat): (echo: seq<real>)
    requires step >= 1 && |rows| > 0
    requires forall i :: 0 <= i < |rows| ==> |rows[i]| > 0
    ensures |echo| == StrideCount(|rows|, step)
    ensures forall k :: 0 <= k < |echo| ==> 10.0 <= echo[k] <= 520.0
  {
    EchoTrace(Apply(log10, Apply(AbsReal, FloorZerosReal(AveragedTrace(rows, step)))))
  }

  /**
   * The averaging-off trace: every step-th sample of the stored window, in dB and
   * conditioned, so ceil(n / step) values in [10, 520].
   */
  function LatestEcho(log10: real -> real, abs: Complex -> real, samples: seq<Complex>, step: nat): (echo: seq<real>)
    requires step >= 1 && |samples| > 0
    ensures |echo| == StrideCount(|samples|, step)
    ensures forall k :: 0 <= k < |echo| ==> 10.0 <= echo[k] <= 520.0
  {
    EchoTrace(Apply(log10, Apply(abs, Decimate(samples, step))))
  }

  /** Flooring through a stride view of the trace is the same as flooring the strided copy. */
  lemma FloorThroughStride(zs: seq<Complex>, step: nat)
    requires step >= 1
    ensures Decimate(FloorZerosAt(zs, step), step) == FloorZeros(Decimate(zs, step))
  {
    var l, r := Decimate(FloorZerosAt(zs, step), step), FloorZeros(Decimate(zs, step));
    forall j | 0 <= j < |l|
      ensures l[j] == r[j]
    {
      DecimateKeepsMultiples(FloorZerosAt(zs, step), step, j);
      DecimateKeepsMultiples(zs, step, j);
      MultipleMod(j, step);
    }
  }

  /** Column 0 of a matrix. */
  function FirstColumn(m: seq<seq<real>>): (col: seq<real>)
    requires forall i :: 0 <= i < |m| ==> |m[i]| > 0
    ensures |col| == |m|
  {
    seq(|m|, i requires 0 <= i < |m| => m[i][0])
  }

  /**
   * One averaging frame's history push: column 0 holds the window's magnitudes
   * rotated by -idx (the same values, the strongest first when centring), column k
   * is old column k - 1, and the shape is unchanged.
   */
  lemma EchoPush(history: seq<seq<real>>, cols: nat, window: seq<Complex>, abs: Complex -> real, center: bool)
    requires |window| > 0 && |history| == |window| && cols > 0 && IsMatrix(history, |window|, cols)
    ensures var mags := Apply(abs, window);
            var pushed := PushColumn(history, Rotated(mags, CentreIndex(mags, center)));
            IsMatrix(pushed, |window|, cols) &&
            (forall i, k :: 0 <= i < |window| && 1 <= k < cols ==> pushed[i][k] == history[i][k - 1]) &&
            multiset(FirstColumn(pushed)) == multiset(mags) &&
            (center ==> forall i :: 0 <= i < |window| ==> FirstColumn(pushed)[i] <= FirstColumn(pushed)[0])
  {
    var mags := Apply(abs, window);
    var idx := CentreIndex(mags, center);
    var col := Rotated(mags, idx);
    PushColumnShifts(history, col, cols);
    RotateProperties(mags, idx);
    assert FirstColumn(PushColumn(history, col)) == col;
  }

  /** The state of one echo sounder. */
  class Sounder {
    var dataBlock: seq<Complex>
    var averagingWindow: int
    var corrData: History
    var averaging: bool
    const view: View

    /**
     * The window is one chunk wide; a matrix history is n by averagingWindow, and a
     * trace history, which only averaging-off frames make, is one window wide.
     */
    predicate Valid()
      reads this
    {
      |dataBlock| == Half && averagingWindow >= 10 &&
      (corrData.Matrix? ==> IsMatrix(corrData.rows, Half, averagingWindow)) &&
      (corrData.Trace? ==> |corrData.samples| == Half && !averaging) &&
      (averaging ==> corrData.Matrix?) &&
      view.samples == Half as real && view.sampleRate == SampleRate
    }

    /** A zero window, averaging on over 10 pulses, a zero history and a fresh view. */
    constructor ()
      ensures Valid() && fresh(view)
      ensures dataBlock == seq(Half, _ => Zero)
      ensures averagingWindow == 10 && averaging && corrData == Matrix(Zeros(Half, 10))
      ensures view.zoom == 1 && view.screenWidth == 512 && view.screenHeight == 380
      ensures view.width.None? && view.height.None?
    {
      dataBlock := seq(Half, _ => Zero);
      averagingWindow := 10;
      corrData := Matrix(Zeros(Half, 10));
      averaging := true;
      view := new View(Half as real, SampleRate);
    }

    /** `average_cb`: the history becomes an all-zero n by averagingWindow matrix. */
    method ResetHistory()
      requires Valid()
      modifies this`corrData
      ensures Valid()
      ensures corrData == Matrix(Zeros(Half, averagingWindow))
    {
      corrData := Matrix(Zeros(Half, averagingWindow));
    }

    /** Toggling the Averaging check box: the new setting, then `average_cb`. */
    method SetAveraging(active: bool)
      requires Valid()
      modifies this`averaging, this`corrData
      ensures Valid()
      ensures averaging == active && corrData == Matrix(Zeros(Half, averagingWindow))
    {
      averaging := active;
      corrData := Matrix(Zeros(Half, averagingWindow));
    }

    /** `avg_up`: ten more pulses averaged, history reset. */
    method AvgUp()
      requires Valid()
      modifies this`averagingWindow, this`corrData
      ensures Valid()
      ensures averagingWindow == old(averagingWindow) + 10
      ensures corrData == Matrix(Zeros(Half, averagingWindow))
    {
      averagingWindow := averagingWindow + 10;
      corrData := Matrix(Zeros(Half, averagingWindow));
    }

    /** `avg_dn`: ten fewer pulses but never fewer than ten, history reset. */
    method AvgDown()
      requires Valid()
      modifies this`averagingWindow, this`corrData
      ensures Valid()
      ensures averagingWindow == if old(averagingWindow) - 10 < 10 then 10 else old(averagingWindow) - 10
      ensures corrData == Matrix(Zeros(Half, averagingWindow))
    {
      averagingWindow := averagingWindow - 10;
      if averagingWindow < 10 {
        averagingWindow := 10;
      }
      corrData := Matrix(Zeros(Half, averagingWindow));
    }

    /**
     * `update_display` with the FFT correlation, the magnitude and log10 given.
     * Returns the plot step, the drawn echo trace and the range labels.
     */
    method UpdateDisplay(chunk: seq<int>, matched: bool, center: bool,
                         correlate: seq<Complex> -> seq<Complex>, abs: Complex -> real, log10: real -> real)
      returns (step: int, echo: seq<real>, rangeLabels: seq<real>)
      requires Valid()
      requires |chunk| == Half
      requires forall w :: |correlate(w)| == |w|
      requires view.screenWidth != 0
      modifies this`dataBlock, this`corrData, view`zoom
      ensures Valid()
      ensures step >= 1
      ensures dataBlock == (var w := Slide(old(dataBlock), Lift(chunk), Half);
                            if matched then correlate(w) else w)
      ensures !matched ==> dataBlock == Lift(chunk)
      ensures var mags := Apply(abs, dataBlock);
              var idx := CentreIndex(mags, center);
              if averaging then
                old(corrData).Matrix? && corrData == Matrix(PushColumn(old(corrData).rows, Rotated(mags, idx))) &&
                echo == AveragedEcho(log10, corrData.rows, step)
              else
                corrData == Trace(FloorZerosAt(Rotated(dataBlock, idx), step)) &&
                echo == LatestEcho(log10, abs, corrData.samples, step)
      ensures |echo| == StrideCount(Half, step)
      ensures forall k :: 0 <= k < |echo| ==> 10.0 <= echo[k] <= 520.0
      ensures var first := StepFor(view.samples, view.screenWidth, old(view.zoom));
              step == first.step &&
              |rangeLabels| == LabelCount(view.screenWidth) &&
              view.zoom == ZoomAfter(view.samples, view.screenWidth, first.zoom, |rangeLabels|) &&
              forall k :: 0 <= k < |rangeLabels| ==>
                rangeLabels[k] == RangeLabel(SampleRate, StepAt(view.samples, view.screenWidth, first.zoom, k), k)
    {
      var window := Slide(dataBlock, Lift(chunk), Half);
      SlideKeepsOnlyChunk(dataBlock, Lift(chunk), Half);
      if matched {
        window := correlate(window);
      }
      dataBlock := window;
      var mags := Apply(abs, dataBlock);
      var idx := CentreIndex(mags, center);
      if averaging {
        var col := Rotated(mags, idx);
        PushColumnShifts(corrData.rows, col, averagingWindow);
        corrData := Matrix(PushColumn(corrData.rows, col));
        step := view.GetStep();
        echo := AveragedEcho(log10, corrData.rows, step);
      } else {
        step := view.GetStep();
        corrData := Trace(FloorZerosAt(Rotated(dataBlock, idx), step));
        echo := LatestEcho(log10, abs, corrData.samples, step);
      }
      rangeLabels := view.RangeLabels();
    }
  }
}
