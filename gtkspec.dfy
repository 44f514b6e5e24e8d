/**
 * The spectrum analyser (gtkspec.py): a four-mode display over the spectrum of the
 * latest capture window (0 spectrum, 1 XY track, 2 autocorrelation, 3 spectrogram),
 * three frequency markers placed by mouse click, their readouts, a track of marker
 * peaks in mode 1 and a scrolling spectrogram in mode 3.
 */
module SpectrumAnalyzer {
  import opened Wrappers
  import opened Signal
  import opened Window
  import opened Grid
  import opened Conditioning

  const BlockSize: nat := 2048
  /** `blocks * blockSize / 2`: the window length. */
  const Half: nat := 1024
  const SampleRate: real := 44100.0
  /** The displayed bins `range(0, 511)` and the spectrogram height. */
  const Bins: nat := 511
  const Rows: nat := 380

  /** `convert_to_hz`. */
  function ConvertToHz(x: real, sampleRate: real, blockSize: real): (hz: real)
    requires blockSize != 0.0
    ensures hz * blockSize == 2.0 * x * sampleRate
  {
    BinToHz(x, sampleRate, blockSize)
  }

  /** `convert_to_time`. */
  function ConvertToTime(x: real, sampleRate: real): (ms: real)
    requires sampleRate != 0.0
    ensures ms * sampleRate == 1000.0 * x
  {
    LagToMs(x, sampleRate)
  }

  /** Python `s[i]`: negative indices count from the end, anything else out of range raises. */
  function PyIndex<T>(s: seq<T>, i: int): (r: Option<T>)
    ensures r.Some? <==> -|s| <= i < |s|
    ensures 0 <= i < |s| ==> r == Some(s[i])
    ensures -|s| <= i < 0 ==> r == Some(s[i + |s|])
  {
    if 0 <= i < |s| then Some(s[i])
    else if -|s| <= i < 0 then Some(s[i + |s|])
    else None
  }

  /** One bound of a Python slice: negative bounds count from the end, then clip to [0, n]. */
  function SliceBound(i: int, n: nat): (b: nat)
    ensures b <= n
    ensures 0 <= i <= n ==> b == i
  {
    if i < 0 then (if i + n < 0 then 0 else i + n) else if i > n then n else i
  }

  /** Python `s[lo:hi]` with step 1: empty when the normalised bounds cross. */
  function PySlice<T>(s: seq<T>, lo: int, hi: int): (r: seq<T>)
    ensures 0 <= lo <= hi <= |s| ==> r == s[lo..hi]
  {
    var a, b := SliceBound(lo, |s|), SliceBound(hi, |s|);
    if a < b then s[a..b] else []
  }

  /**
   * The track window `data_fft[m - 5 : m + 5]`: the ten bins around m when
   * 5 <= m <= n - 5, and empty when 0 <= m < 5 (the start wraps past the stop).
   */
  lemma TrackWindow<T>(s: seq<T>, m: int)
    requires |s| >= 10
    ensures 5 <= m <= |s| - 5 ==> PySlice(s, m - 5, m + 5) == s[m - 5..m + 5] && |PySlice(s, m - 5, m + 5)| == 10
    ensures 0 <= m < 5 ==> PySlice(s, m - 5, m + 5) == []
  {
  }

  /** `int(max(xs))`: None when xs is empty (max raises), else the truncated largest value. */
  function Peak(xs: seq<real>): (r: Option<int>)
    ensures r.Some? <==> |xs| > 0
    ensures r.Some? ==> exists k :: 0 <= k < |xs| && r.value == Trunc(xs[k]) &&
                                     forall j :: 0 <= j < |xs| ==> xs[j] <= xs[k]
  {
    if xs == [] then None else Some(Trunc(xs[ArgMax(xs)]))
  }

  /** The mode-1 track coordinate of a marker: `int(max(abs(data_fft[m - 5 : m + 5])))`. */
  function PeakAt(abs: Complex -> real, spectrum: seq<Complex>, m: int): (r: Option<int>)
    ensures r.Some? <==> |PySlice(spectrum, m - 5, m + 5)| > 0
  {
    Peak(Apply(abs, PySlice(spectrum, m - 5, m + 5)))
  }

  /**
   * `20 * log10(0.01 + |x|)` floored at -20, plus 20, restricted to the first 511 bins:
   * every value is >= 0.
   */
  function Display(log10: real -> real, abs: Complex -> real, zs: seq<Complex>): (data: seq<real>)
    requires |zs| >= Bins
    ensures |data| == Bins
    ensures forall k :: 0 <= k < Bins ==> data[k] >= 0.0
    ensures forall k :: 0 <= k < Bins ==> data[k] == DispMag(20.0 * log10(0.01 + abs(zs[k])))
  {
    seq(Bins, k requires 0 <= k < Bins => DispMag(20.0 * log10(0.01 + abs(zs[k]))))
  }

  /** The array the frame displays: the autocorrelation in mode 2, the spectrum otherwise. */
  function Shown(mode: int, log10: real -> real, abs: Complex -> real, spectrum: seq<Complex>, autocorr: seq<Complex>): (data: seq<real>)
    requires |spectrum| >= Bins && |autocorr| >= Bins
    ensures |data| == Bins
  {
    if mode == 2 then Display(log10, abs, autocorr) else Display(log10, abs, spectrum)
  }

  function Doubled(xs: seq<real>): (ys: seq<real>)
    ensures |ys| == |xs|
    ensures forall k :: 0 <= k < |xs| ==> ys[k] == 2.0 * xs[k]
  {
    seq(|xs|, k requires 0 <= k < |xs| => 2.0 * xs[k])
  }

  /** `spectrogram[1:379] = spectrogram[0:378]; spectrogram[0] = row`. */
  function Shifted(sg: seq<seq<real>>, row: seq<real>): (r: seq<seq<real>>)
    requires |sg| == Rows
    ensures |r| == Rows && r[0] == row && r[Rows - 1] == sg[Rows - 1]
  {
    [row] + sg[0..Rows - 2] + [sg[Rows - 1]]
  }

  /**
   * The spectrogram push: row 0 is the new row, rows 1..378 take the old rows 0..377,
   * the last row is left stale, and the 380 by 511 shape is kept.
   */
  lemma ShiftedRows(sg: seq<seq<real>>, row: seq<real>)
    requires IsMatrix(sg, Rows, Bins) && |row| == Bins
    ensures IsMatrix(Shifted(sg, row), Rows, Bins)
    ensures Shifted(sg, row)[0] == row
    ensures forall k :: 1 <= k < Rows - 1 ==> Shifted(sg, row)[k] == sg[k - 1]
    ensures Shifted(sg, row)[Rows - 1] == sg[Rows - 1]
  {
  }

  datatype Unit = Hz | Ms
  /** A marker frequency label: a number and its unit. */
  datatype Reading = Reading(value: real, unit: Unit)

  /** The label `repaint` writes for a marker: milliseconds of lag in mode 2, hertz otherwise. */
  function MarkerReading(mode: int, marker: int): (r: Reading)
    ensures mode == 2 ==> r == Reading(ConvertToTime(marker as real, SampleRate), Ms)
    ensures mode != 2 ==> r == Reading(ConvertToHz(marker as real, SampleRate, BlockSize as real), Hz)
  {
    if mode == 2 then Reading(ConvertToTime(marker as real, SampleRate), Ms)
    else Reading(ConvertToHz(marker as real, SampleRate, BlockSize as real), Hz)
  }

  /** The analyser's state. */
  class Analyzer {
    var dataBlock: seq<real>
    var spectrogram: seq<seq<real>>
    var mode: int
    var marker1: int
    var marker2: int
    var marker3: int
    var track: seq<(int, int)>
    var mag1: real
    var mag2: real
    var mag3: real
    var freq1: Reading
    var freq2: Reading
    var freq3: Reading

    predicate Valid()
      reads this
    {
      |dataBlock| == Half && IsMatrix(spectrogram, Rows, Bins) && 0 <= mode <= 3
    }

    /** Markers at 100, 200 and 300, spectrogram mode, an empty track and hertz labels. */
    constructor ()
      ensures Valid()
      ensures dataBlock == seq(Half, _ => 0.0) && spectrogram == Zeros(Rows, Bins)
      ensures marker1 == 100 && marker2 == 200 && marker3 == 300 && mode == 3 && track == []
      ensures mag1 == 0.0 && mag2 == 0.0 && mag3 == 0.0
      ensures freq1 == MarkerReading(3, 100) && freq2 == MarkerReading(3, 200) && freq3 == MarkerReading(3, 300)
    {
      dataBlock := seq(Half, _ => 0.0);
      spectrogram := Zeros(Rows, Bins);
      marker1, marker2, marker3 := 100, 200, 300;
      mode := 3;
      track := [];
      mag1, mag2, mag3 := 0.0, 0.0, 0.0;
      freq1, freq2, freq3 := MarkerReading(3, 100), MarkerReading(3, 200), MarkerReading(3, 300);
    }

    /** `repaint`: the three frequency labels in the unit of the current mode. */
    method Repaint()
      modifies this`freq1, this`freq2, this`freq3
      ensures freq1 == MarkerReading(mode, marker1)
      ensures freq2 == MarkerReading(mode, marker2)
      ensures freq3 == MarkerReading(mode, marker3)
    {
      freq1 := MarkerReading(mode, marker1);
      freq2 := MarkerReading(mode, marker2);
      freq3 := MarkerReading(mode, marker3);
    }

    /** `swapmode`: take the selected mode, repaint, and clear the track iff the mode is 0 or 2. */
    method SwapMode(selected: int)
      requires Valid() && 0 <= selected <= 3
      modifies this`mode, this`track, this`freq1, this`freq2, this`freq3
      ensures Valid() && mode == selected
      ensures (mode == 0 || mode == 2) ==> track == []
      ensures (mode == 1 || mode == 3) ==> track == old(track)
      ensures freq1 == MarkerReading(mode, marker1) && freq2 == MarkerReading(mode, marker2)
      ensures freq3 == MarkerReading(mode, marker3)
    {
      mode := selected;
      Repaint();
      if mode == 2 || mode == 0 {
        track := [];
      }
    }

    /**
     * `button_cb`: a button-1 press in mode 0, 2 or 3 moves exactly one marker to
     * int(x), the one whose radio button is active (1, else 2, else 3); then repaint.
     */
    method ButtonPress(button: int, x: real, radio1: bool, radio2: bool)
      requires Valid()
      modifies this`marker1, this`marker2, this`marker3, this`freq1, this`freq2, this`freq3
      ensures Valid()
      ensures var moves := button == 1 && (mode == 0 || mode == 2 || mode == 3);
              marker1 == (if moves && radio1 then Trunc(x) else old(marker1)) &&
              marker2 == (if moves && !radio1 && radio2 then Trunc(x) else old(marker2)) &&
              marker3 == (if moves && !radio1 && !radio2 then Trunc(x) else old(marker3))
      ensures freq1 == MarkerReading(mode, marker1) && freq2 == MarkerReading(mode, marker2)
      ensures freq3 == MarkerReading(mode, marker3)
    {
      if button == 1 && (mode == 0 || mode == 2 || mode == 3) {
        if radio1 {
          marker1 := Trunc(x);
        } else if radio2 {
          marker2 := Trunc(x);
        } else {
          marker3 := Trunc(x);
        }
      }
      Repaint();
    }

    /**
     * `update_display`, with the FFT, the autocorrelation `ifft(X * conj(X))`, the
     * magnitude and log10 given. ok is false when the frame raises: a marker readout
     * outside the 511 displayed bins, or an empty peak window in mode 1. The state is
     * then what had been assigned before the raise.
     */
    method UpdateDisplay(chunk: seq<real>, fft: seq<real> -> seq<Complex>, autocorrelate: seq<Complex> -> seq<Complex>,
                         abs: Complex -> real, log10: real -> real)
      returns (ok: bool)
      requires Valid()
      requires |chunk| == Half
      requires forall w :: |fft(w)| == |w|
      requires forall z :: |autocorrelate(z)| == |z|
      modifies this`dataBlock, this`spectrogram, this`track, this`mag1, this`mag2, this`mag3
      ensures Valid()
      ensures dataBlock == Slide(old(dataBlock), chunk, Half) && dataBlock == chunk
      ensures var data := Shown(mode, log10, abs, fft(dataBlock), autocorrelate(fft(dataBlock)));
              var r1, r2, r3 := PyIndex(data, marker1), PyIndex(data, marker2), PyIndex(data, marker3);
              var read := r1.Some? && r2.Some? && r3.Some?;
              var p1, p2 := PeakAt(abs, fft(dataBlock), marker1), PeakAt(abs, fft(dataBlock), marker2);
              (ok <==> read && (mode == 1 ==> p1.Some? && p2.Some?)) &&
              mag1 == (if r1.Some? then r1.value else old(mag1)) &&
              mag2 == (if r1.Some? && r2.Some? then r2.value else old(mag2)) &&
              mag3 == (if read then r3.value else old(mag3)) &&
              spectrogram == (if !read then old(spectrogram)
                              else if mode == 3 then Shifted(old(spectrogram), Doubled(data))
                              else Zeros(Rows, Bins)) &&
              track == (if ok && mode == 1 then old(track) + [(p1.value, p2.value)] else old(track))
    {
      SlideKeepsOnlyChunk(dataBlock, chunk, Half);
      dataBlock := Slide(dataBlock, chunk, Half);
      var dataFft := fft(dataBlock);
      var data := Shown(mode, log10, abs, dataFft, autocorrelate(dataFft));
      ok := ReadMarkers(data);
      if ok {
        ok := PushFrame(data, PeakAt(abs, dataFft, marker1), PeakAt(abs, dataFft, marker2));
      }
    }

    /**
     * The three magnitude readouts `data[int(marker)]`, in order: each one that
     * succeeds is shown, and the first that raises stops the rest.
     */
    method ReadMarkers(data: seq<real>) returns (read: bool)
      modifies this`mag1, this`mag2, this`mag3
      ensures var r1, r2, r3 := PyIndex(data, marker1), PyIndex(data, marker2), PyIndex(data, marker3);
              (read <==> r1.Some? && r2.Some? && r3.Some?) &&
              mag1 == (if r1.Some? then r1.value else old(mag1)) &&
              mag2 == (if r1.Some? && r2.Some? then r2.value else old(mag2)) &&
              mag3 == (if read then r3.value else old(mag3))
    {
      var r1, r2, r3 := PyIndex(data, marker1), PyIndex(data, marker2), PyIndex(data, marker3);
      read := false;
      if r1.Some? {
        mag1 := r1.value;
        if r2.Some? {
          mag2 := r2.value;
          if r3.Some? {
            mag3 := r3.value;
            read := true;
          }
        }
      }
    }

    /**
     * The rest of a frame whose readouts succeeded: the spectrogram push in mode 3
     * or its reset otherwise, then in mode 1 the track point of the two marker peaks,
     * which raises when either peak window is empty.
     */
    method PushFrame(data: seq<real>, p1: Option<int>, p2: Option<int>) returns (ok: bool)
      requires Valid() && |data| == Bins
      modifies this`spectrogram, this`track
      ensures Valid()
      ensures spectrogram == if mode == 3 then Shifted(old(spectrogram), Doubled(data)) else Zeros(Rows, Bins)
      ensures ok <==> (mode == 1 ==> p1.Some? && p2.Some?)
      ensures track == if ok && mode == 1 then old(track) + [(p1.value, p2.value)] else old(track)
    {
      if mode == 3 {
        ShiftedRows(spectrogram, Doubled(data));
        spectrogram := Shifted(spectrogram, Doubled(data));
      } else {
        spectrogram := Zeros(Rows, Bins);
      }
      ok := true;
      if mode == 1 {
        if p1.Some? && p2.Some? {
          track := track + [(p1.value, p2.value)];
        } else {
          ok := false;
        }
      }
    }
  }

  /**
   * Tracking never loses points: a mode-1 frame that completes appends exactly one
   * point whose coordinates are the peaks at the two markers; the spectrum readouts
   * must exist for that (markers 0 <= m < 511), and markers 5 <= m <= 1019 have a
   * ten-bin peak window.
   */
  lemma TrackPointExists(spectrum: seq<Complex>, abs: Complex -> real, m: int)
    requires |spectrum| == Half && 5 <= m <= Half - 5
    ensures PeakAt(abs, spectrum, m).Some?
  {
    TrackWindow(spectrum, m);
  }
}
