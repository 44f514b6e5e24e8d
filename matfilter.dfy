/**
 * The matched-filter bank (matfilter.py). Each frame slides the capture window and
 * correlates it against eight reference spectra (the correlation and the SNR score
 * are given). The detected filter is the first one with the strictly largest
 * positive score. Filters 1 to 4 also update an offset accumulator that is summed
 * over frames or replaced, and a queued store appends one row of scores to the
 * snapshot log.
 */
module MatchedFilter {
  import opened Wrappers
  import opened Signal
  import opened Window
  import opened Grid
  import opened Conditioning

  const BlockSize: nat := 32768
  /** `int(blockSize / 2 * blocks)` with one block. */
  const Half: nat := 16384
  const Filters: nat := 8
  /** Filters 0 to 3 are drawn and keep accumulators. */
  const Drawn: nat := 4
  const SampleRate: real := 44100.0

  /** `convert_to_hz`. */
  function ConvertToHz(x: real, sampleRate: real, blockSize: real): (hz: real)
    requires blockSize != 0.0
    ensures hz * blockSize == 2.0 * x * sampleRate
  {
    BinToHz(x, sampleRate, blockSize)
  }

  /** `convert_to_time`. */
  function ConvertToTime(x: real, sampleRate: real): (ms: real)
    requires sampleRate != 0.0
    ensures ms * sampleRate == 1000.0 * x
  {
    LagToMs(x, sampleRate)
  }

  /** The value of one decimal digit character. */
  function DigitValue(c: char): int
  {
    c as int - '0' as int
  }

  /** Reads a string of decimal digits back as a number, most significant digit first. */
  function DigitsValue(s: string): int
  {
    if s == [] then 0 else DigitsValue(s[..|s| - 1]) * 10 + DigitValue(s[|s| - 1])
  }

  /**
   * Decimal digits of a natural number, as `str` writes them: they read back as n,
   * and there is no leading zero unless n is 0.
   */
  function Digits(n: nat): (s: string)
    ensures |s| > 0
    ensures forall k :: 0 <= k < |s| ==> '0' <= s[k] <= '9'
    ensures DigitsValue(s) == n
    ensures s[0] == '0' <==> n == 0
  {
    var d := ('0' as int + n % 10) as char;
    if n < 10 then [d]
    else
      var high := Digits(n / 10);
      assert (high + [d])[..|high|] == high;
      high + [d]
  }

  /** `'Store #' + str(n)`. */
  function StoreLabel(n: nat): string
  {
    "Store #" + Digits(n)
  }

  /** The store label is the fixed prefix followed by the digits of n, which read back as n. */
  lemma StoreLabelReads(n: nat)
    ensures |StoreLabel(n)| > 7 && StoreLabel(n)[..7] == "Store #"
    ensures DigitsValue(StoreLabel(n)[7..]) == n && (StoreLabel(n)[7] == '0' <==> n == 0)
  {
    assert StoreLabel(n)[7..] == Digits(n);
  }

  /** The running maximum of the detection loop: the best score so far and its filter. */
  datatype Detection = Detection(best: real, filter: int)

  /** `maxSNR = 0; maxnum = -1` then, per filter, `if snr > maxSNR` take it. */
  function Detect(snrs: seq<real>): (d: Detection)
  {
    if snrs == [] then Detection(0.0, -1)
    else
      var d := Detect(snrs[..|snrs| - 1]);
      if snrs[|snrs| - 1] > d.best then Detection(snrs[|snrs| - 1], |snrs| - 1) else d
  }

  /**
   * The detected filter is -1 exactly when no score is positive; otherwise it is the
   * lowest index holding the maximum score, and that maximum is > 0.
   */
  lemma {:induction false} DetectIsFirstMaximum(snrs: seq<real>)
    ensures var d := Detect(snrs);
            (d.filter == -1 <==> forall k :: 0 <= k < |snrs| ==> snrs[k] <= 0.0) &&
            (d.filter == -1 ==> d.best == 0.0) &&
            (d.filter != -1 ==>
               0 <= d.filter < |snrs| && d.best == snrs[d.filter] && d.best > 0.0 &&
               (forall k :: 0 <= k < |snrs| ==> snrs[k] <= d.best) &&
               (forall k :: 0 <= k < d.filter ==> snrs[k] < d.best))
  {
    if snrs != [] {
      var init := snrs[..|snrs| - 1];
      DetectIsFirstMaximum(init);
      assert forall k :: 0 <= k < |init| ==> init[k] == snrs[k];
    }
  }

  /** `'Detected filter:' + str(maxnum + 1)`, or `'Detected filter: None'` when maxnum is -1. */
  function DetectionText(filter: int): string
  {
    if filter >= 0 then "Detected filter:" + Digits(filter + 1) else "Detected filter: None"
  }

  /** A detected filter is named by its one-based number; no detection reads "None". */
  lemma DetectionTextReads(filter: int)
    ensures filter < 0 ==> DetectionText(filter) == "Detected filter: None"
    ensures filter >= 0 ==>
      |DetectionText(filter)| > 16 && DetectionText(filter)[..16] == "Detected filter:" &&
      DigitsValue(DetectionText(filter)[16..]) == filter + 1
  {
    if filter >= 0 {
      assert DetectionText(filter)[16..] == Digits(filter + 1);
    }
  }

  /**
   * The accumulator update for one drawn filter: with averaging on, entries k < n - idx
   * gain corr[k + idx] and the rest are kept; with averaging off, the accumulator
   * becomes the suffix corr[idx..].
   */
  function Refreshed(acc: seq<Complex>, corr: seq<Complex>, idx: nat, averaging: bool): (r: seq<Complex>)
    requires idx < |corr|
    requires averaging ==> |acc| == |corr|
    ensures averaging ==> (|r| == |acc| &&
      (forall k :: 0 <= k < |acc| - idx ==> r[k] == Add(acc[k], corr[k + idx])) &&
      (forall k :: |acc| - idx <= k < |acc| ==> r[k] == acc[k]))
    ensures !averaging ==> r == corr[idx..]
  {
    if averaging then
      seq(|acc|, k requires 0 <= k < |acc| => if k < |acc| - idx then Add(acc[k], corr[k + idx]) else acc[k])
    else corr[idx..]
  }

  /** Accumulating onto a zero accumulator gives the suffix, zero-padded to full length. */
  lemma RefreshedFromZero(corr: seq<Complex>, idx: nat)
    requires idx < |corr|
    ensures Refreshed(seq(|corr|, _ => Zero), corr, idx, true) == corr[idx..] + seq(idx, _ => Zero)
  {
    var l, r := Refreshed(seq(|corr|, _ => Zero), corr, idx, true), corr[idx..] + seq(idx, _ => Zero);
    forall k | 0 <= k < |corr|
      ensures l[k] == r[k]
    {
    }
  }

  /** The accumulator of a drawn filter after one frame, centring on its strongest lag when asked. */
  function Accumulated(acc: seq<Complex>, corr: seq<Complex>, abs: Complex -> real, center: bool, averaging: bool): (r: seq<Complex>)
    requires |corr| > 0
    requires averaging ==> |acc| == |corr|
    ensures 0 < |r| <= |corr|
    ensures averaging ==> |r| == |corr|
  {
    Refreshed(acc, corr, CentreIndex(Apply(abs, corr), center), averaging)
  }

  /** The drawn trace of an accumulator: `20 * log10(0.01 + |x|)` floored at -20, plus 20. */
  function FilterTrace(log10: real -> real, abs: Complex -> real, acc: seq<Complex>): (trace: seq<real>)
    ensures |trace| == |acc|
    ensures forall k :: 0 <= k < |acc| ==> trace[k] >= 0.0
    ensures forall k :: 0 <= k < |acc| ==> trace[k] == DispMag(20.0 * log10(0.01 + abs(acc[k])))
  {
    seq(|acc|, k requires 0 <= k < |acc| => DispMag(20.0 * log10(0.01 + abs(acc[k]))))
  }

  /** The traces of the four drawn filters. */
  function DrawnTraces(log10: real -> real, abs: Complex -> real, accs: seq<seq<Complex>>): (traces: seq<seq<real>>)
    requires |accs| >= Drawn
    ensures |traces| == Drawn
    ensures forall i :: 0 <= i < Drawn ==> traces[i] == FilterTrace(log10, abs, accs[i])
  {
    seq(Drawn, k requires 0 <= k < Drawn => FilterTrace(log10, abs, accs[k]))
  }

  /** The fixed range labels at 50, 100, ..., 450 pixels. */
  function RangeMarks(): (marks: seq<real>)
    ensures |marks| == 9
    ensures forall k :: 0 <= k < 9 ==> marks[k] == (k + 1) as real * marks[0]
  {
    seq(9, k requires 0 <= k < 9 =>
      BlockSize as real * 340.0 / SampleRate * 1.0 * 100.0 * (50 * (k + 1)) as real / 1024.0)
  }

  function Conj(z: Complex): Complex
  {
    Complex(z.re, -z.im)
  }

  /** `numpy.conjugate`. */
  function Conjugates(zs: seq<Complex>): (cs: seq<Complex>)
    ensures |cs| == |zs|
    ensures forall k :: 0 <= k < |zs| ==> cs[k] == Conj(zs[k])
  {
    seq(|zs|, k requires 0 <= k < |zs| => Conj(zs[k]))
  }

  /** The score of every filter for one window. */
  function Scores(window: seq<real>, refs: seq<seq<Complex>>,
                  correlate: (seq<real>, seq<Complex>) -> seq<Complex>, score: seq<Complex> -> real): (snrs: seq<real>)
    requires |refs| == Filters
    ensures |snrs| == Filters
    ensures forall i :: 0 <= i < Filters ==> snrs[i] == score(correlate(window, refs[i]))
  {
    seq(Filters, i requires 0 <= i < Filters => score(correlate(window, refs[i])))
  }

  /** All eight accumulators after one frame: only the drawn filters 0 to 3 change. */
  function Advanced(accs: seq<seq<Complex>>, window: seq<real>, refs: seq<seq<Complex>>,
                    correlate: (seq<real>, seq<Complex>) -> seq<Complex>,
                    abs: Complex -> real, center: bool, averaging: bool): (r: seq<seq<Complex>>)
    requires |accs| == Filters && |refs| == Filters && |window| > 0
    requires forall w, c :: |correlate(w, c)| == |w|
    requires averaging ==> forall i :: 0 <= i < Filters ==> |accs[i]| == |window|
    ensures |r| == Filters
    ensures forall i :: Drawn <= i < Filters ==> r[i] == accs[i]
    ensures forall i :: 0 <= i < Drawn ==> r[i] == Accumulated(accs[i], correlate(window, refs[i]), abs, center, averaging)
  {
    seq(Filters, i requires 0 <= i < Filters =>
      if i < Drawn then Accumulated(accs[i], correlate(window, refs[i]), abs, center, averaging) else accs[i])
  }

  /** Advancing keeps every accumulator between 1 and n entries, and exactly n while averaging. */
  lemma AdvancedShape(accs: seq<seq<Complex>>, window: seq<real>, refs: seq<seq<Complex>>,
                      correlate: (seq<real>, seq<Complex>) -> seq<Complex>,
                      abs: Complex -> real, center: bool, averaging: bool)
    requires |accs| == Filters && |refs| == Filters && |window| > 0
    requires forall w, c :: |correlate(w, c)| == |w|
    requires forall i :: 0 <= i < Filters ==> 0 < |accs[i]| <= |window|
    requires averaging ==> forall i :: 0 <= i < Filters ==> |accs[i]| == |window|
    ensures var r := Advanced(accs, window, refs, correlate, abs, center, averaging);
            (forall i :: 0 <= i < Filters ==> 0 < |r[i]| <= |window|) &&
            (averaging ==> forall i :: 0 <= i < Filters ==> |r[i]| == |window|)
  {
    var r := Advanced(accs, window, refs, correlate, abs, center, averaging);
    forall i | 0 <= i < Filters
      ensures 0 < |r[i]| <= |window| && (averaging ==> |r[i]| == |window|)
    {
      if i < Drawn {
        assert |correlate(window, refs[i])| == |window|;
      }
    }
  }

  /** The log row of one frame: every score divided by 10. */
  function ScoreRow(snrs: seq<real>): (row: seq<real>)
    ensures |row| == |snrs|
    ensures forall k :: 0 <= k < |snrs| ==> row[k] == snrs[k] / 10.0
  {
    seq(|snrs|, k requires 0 <= k < |snrs| => snrs[k] / 10.0)
  }

  /**
   * The per-filter loop of `update_display`: the running maximum over the scores, the
   * row of scores / 10 queued for the log (zeros when no store is queued), and the
   * accumulators of the drawn filters updated in place.
   */
  method ScanFilters(window: seq<real>, refs: seq<seq<Complex>>, accs: seq<seq<Complex>>,
                     queued: bool, center: bool, averaging: bool,
                     correlate: (seq<real>, seq<Complex>) -> seq<Complex>,
                     score: seq<Complex> -> real, abs: Complex -> real)
    returns (detection: Detection, newData: seq<real>, updated: seq<seq<Complex>>)
    requires |accs| == Filters && |refs| == Filters && |window| > 0
    requires forall w, c :: |correlate(w, c)| == |w|
    requires averaging ==> forall i :: 0 <= i < Filters ==> |accs[i]| == |window|
    ensures detection == Detect(Scores(window, refs, correlate, score))
    ensures |newData| == Filters
    ensures queued ==> newData == ScoreRow(Scores(window, refs, correlate, score))
    ensures updated == Advanced(accs, window, refs, correlate, abs, center, averaging)
  {
    ghost var snrs := Scores(window, refs, correlate, score);
    ghost var target := Advanced(accs, window, refs, correlate, abs, center, averaging);
    ghost var row := ScoreRow(snrs);
    newData := seq(Filters, _ => 0.0);
    updated := accs;
    var maxSNR := 0.0;
    var maxnum := -1;
    var i := 0;
    while i < Filters
      invariant 0 <= i <= Filters
      invariant Detection(maxSNR, maxnum) == DetectPrefix(snrs, i)
      invariant |newData| == Filters
      invariant forall k :: 0 <= k < Filters ==>
        newData[k] == if queued && k < i then row[k] else 0.0
      invariant |updated| == Filters
      invariant forall k :: 0 <= k < Filters ==> updated[k] == if k < i then target[k] else accs[k]
    {
      var corr := correlate(window, refs[i]);
      var snr := score(corr);
      if queued {
        newData := newData[i := snr / 10.0];
      }
      DetectStep(snrs, i);
      if snr > maxSNR {
        maxSNR := snr;
        maxnum := i;
      }
      if i < Drawn {
        updated := updated[i := Accumulated(updated[i], corr, abs, center, averaging)];
      }
      i := i + 1;
    }
    DetectWhole(snrs);
    detection := Detection(maxSNR, maxnum);
  }

  /** The running maximum over the first n scores. */
  function DetectPrefix(snrs: seq<real>, n: nat): Detection
    requires n <= |snrs|
  {
    Detect(snrs[..n])
  }

  /** One more filter in the running maximum. */
  lemma DetectStep(snrs: seq<real>, i: nat)
    requires i < |snrs|
    ensures var d := DetectPrefix(snrs, i);
            DetectPrefix(snrs, i + 1) == if snrs[i] > d.best then Detection(snrs[i], i) else d
  {
    assert snrs[..i + 1][..i] == snrs[..i];
  }

  lemma DetectWhole(snrs: seq<real>)
    ensures DetectPrefix(snrs, |snrs|) == Detect(snrs)
  {
    assert snrs[..|snrs|] == snrs;
  }

  /** An opened WAV file: its sample width in bytes and its frames. */
  datatype WaveFile = WaveFile(sampleWidth: int, frames: seq<byte>)

  /**
   * Whether `unpack(frames, width)` returns. The loop visits i = 0, width, 2*width, ...
   * below n - 1 and hands `frames[i:i+width]` to `struct.unpack('h', ...)`, which needs
   * exactly two bytes. Width 2 always gives two; width 1 gives one as soon as the loop runs
   * (n >= 2); a wider width gives two only when the frames are exactly two bytes, a single
   * visit. A width below 1 is refused when the file opens.
   */
  predicate Decodes(file: WaveFile)
  {
    file.sampleWidth == 2 || (file.sampleWidth >= 1 && |file.frames| <= 1) ||
    (file.sampleWidth >= 3 && |file.frames| == 2)
  }

  /** The number of bytes the slice `frames[i:i+width]` holds in a string of n bytes, for 0 <= i < n. */
  function ChunkLength(n: int, i: int, width: int): int
  {
    if i + width <= n then width else n - i
  }

  /** `Decodes` holds exactly when every slice the unpack loop takes holds two bytes. */
  lemma DecodesIffEverySliceIsAWord(file: WaveFile)
    requires file.sampleWidth >= 1
    ensures Decodes(file) <==>
      forall i :: 0 <= i < |file.frames| - 1 && i % file.sampleWidth == 0 ==>
        ChunkLength(|file.frames|, i, file.sampleWidth) == 2
  {
    var n, w := |file.frames|, file.sampleWidth;
    if !Decodes(file) {
      assert 0 % w == 0 && ChunkLength(n, 0, w) != 2;
    }
  }

  /** The filter bank's state. */
  class FilterBank {
    var dataBlock: seq<real>
    var refs: seq<seq<Complex>>
    var corrData: seq<seq<Complex>>
    var averaging: bool
    var storing: bool
    var savedData: seq<seq<real>>
    var storeLabel: string
    var detectedText: string

    /**
     * Eight references and eight accumulators, each accumulator holding between 1
     * and n entries and exactly n while averaging, and every log row eight wide.
     */
    predicate Valid()
      reads this
    {
      |dataBlock| == Half && |refs| == Filters && |corrData| == Filters &&
      (forall i :: 0 <= i < Filters ==> 0 < |corrData[i]| <= Half) &&
      (averaging ==> forall i :: 0 <= i < Filters ==> |corrData[i]| == Half) &&
      (forall r :: 0 <= r < |savedData| ==> |savedData[r]| == Filters)
    }

    /** Zero window, references and accumulators, averaging and storing off, an empty log. */
    constructor ()
      ensures Valid()
      ensures dataBlock == seq(Half, _ => 0.0)
      ensures refs == seq(Filters, _ => seq(Half, _ => Zero))
      ensures corrData == seq(Filters, _ => seq(Half, _ => Zero))
      ensures !averaging && !storing && savedData == []
      ensures storeLabel == "Store #1" && detectedText == "Detected filter: None"
    {
      dataBlock := seq(Half, _ => 0.0);
      refs := seq(Filters, _ => seq(Half, _ => Zero));
      corrData := seq(Filters, _ => seq(Half, _ => Zero));
      averaging := false;
      storing := false;
      savedData := [];
      storeLabel := "Store #1";
      detectedText := "Detected filter: None";
    }

    /** `store_cb`: queue a snapshot for the next frame. */
    method Store()
      requires Valid()
      modifies this`storing
      ensures Valid() && storing
    {
      storing := true;
    }

    /** `delete_cb`: drop the last log row if there is one; the label names the next row. */
    method Delete()
      requires Valid()
      modifies this`savedData, this`storeLabel
      ensures Valid()
      ensures old(savedData) == [] ==> savedData == []
      ensures old(savedData) != [] ==> savedData == old(savedData)[..|old(savedData)| - 1]
      ensures storeLabel == StoreLabel(1 + |savedData|)
    {
      if |savedData| > 0 {
        savedData := savedData[..|savedData| - 1];
      }
      storeLabel := StoreLabel(1 + |savedData|);
    }

    /**
     * `save_cb`: a confirmed dialog (the file written) clears the log, the queued
     * store and the label; a cancelled one changes nothing.
     */
    method Save(confirmed: bool)
      requires Valid()
      modifies this`savedData, this`storing, this`storeLabel
      ensures Valid()
      ensures confirmed ==> savedData == [] && !storing && storeLabel == "Store #1"
      ensures !confirmed ==> savedData == old(savedData) && storing == old(storing) && storeLabel == old(storeLabel)
    {
      if confirmed {
        storing := false;
        savedData := [];
        storeLabel := "Store #1";
      }
    }

    /** `capture_cb`: reference i becomes the conjugate spectrum of the current window. */
    method Capture(i: nat, fft: seq<real> -> seq<Complex>)
      requires Valid() && i < Filters
      modifies this`refs
      ensures Valid()
      ensures refs == old(refs)[i := Conjugates(fft(dataBlock))]
    {
      refs := refs[i := Conjugates(fft(dataBlock))];
    }

    /**
     * `entry_update`: a file that fails to open leaves every reference alone, and so does
     * one the decoder rejects; otherwise reference i becomes the conjugate length-n
     * spectrum of its decoded samples (for a width other than 2 the frames are then at
     * most two bytes, which every width reads as the same words).
     */
    method EntryUpdate(i: nat, file: Option<WaveFile>, fftN: seq<int> -> seq<Complex>)
      requires Valid() && i < Filters
      modifies this`refs
      ensures Valid()
      ensures file.None? || !Decodes(file.value) ==> refs == old(refs)
      ensures file.Some? && Decodes(file.value) ==>
                refs == old(refs)[i := Conjugates(fftN(Decoded(file.value.frames)))]
    {
      if file.Some? && Decodes(file.value) {
        var wavdata := Unpack(file.value.frames);
        refs := refs[i := Conjugates(fftN(wavdata))];
      }
    }

    /** `average_cb`: every accumulator becomes n complex zeros. */
    method ResetAccumulators()
      requires Valid()
      modifies this`corrData
      ensures Valid()
      ensures corrData == seq(Filters, _ => seq(Half, _ => Zero))
    {
      corrData := seq(Filters, _ => seq(Half, _ => Zero));
    }

    /** Toggling the Averaging check box: the new setting, then `average_cb`. */
    method SetAveraging(active: bool)
      requires Valid()
      modifies this`averaging, this`corrData
      ensures Valid()
      ensures averaging == active && corrData == seq(Filters, _ => seq(Half, _ => Zero))
    {
      averaging := active;
      corrData := seq(Filters, _ => seq(Half, _ => Zero));
    }

    /**
     * `update_display` with the correlation `ifft(fft(window) * ref)`, the score and
     * log10 given. Returns the detection, the traces of the four drawn filters and
     * the range labels.
     */
    method UpdateDisplay(chunk: seq<real>, center: bool,
                         correlate: (seq<real>, seq<Complex>) -> seq<Complex>,
                         score: seq<Complex> -> real, abs: Complex -> real, log10: real -> real)
      returns (detection: Detection, traces: seq<seq<real>>, marks: seq<real>)
      requires Valid()
      requires |chunk| == Half
      requires forall w, r :: |correlate(w, r)| == |w|
      modifies this`dataBlock, this`corrData, this`storing, this`savedData, this`storeLabel, this`detectedText
      ensures Valid()
      ensures dataBlock == Slide(old(dataBlock), chunk, Half) && dataBlock == chunk
      ensures var snrs := Scores(dataBlock, refs, correlate, score);
              detection == Detect(snrs) &&
              detectedText == DetectionText(detection.filter) &&
              (old(storing) ==> savedData == old(savedData) + [ScoreRow(snrs)] &&
                                storeLabel == StoreLabel(|savedData| + 1) && !storing) &&
              (!old(storing) ==> savedData == old(savedData) && storeLabel == old(storeLabel) && !storing)
      ensures corrData == Advanced(old(corrData), dataBlock, refs, correlate, abs, center, averaging)
      ensures |traces| == Drawn && forall i :: 0 <= i < Drawn ==> traces[i] == FilterTrace(log10, abs, corrData[i])
      ensures marks == RangeMarks()
    {
      SlideKeepsOnlyChunk(dataBlock, chunk, Half);
      dataBlock := Slide(dataBlock, chunk, Half);
      var newData;
      detection, newData, corrData := ScanFilters(dataBlock, refs, corrData, storing, center, averaging,
                                                  correlate, score, abs);
      AdvancedShape(old(corrData), dataBlock, refs, correlate, abs, center, averaging);
      detectedText := DetectionText(detection.filter);
      marks := RangeMarks();
      traces := DrawnTraces(log10, abs, corrData);
      FinishStore(newData);
    }

    /**
     * "Finalize stored data": a queued store appends the frame's row, names the next
     * row on the label and clears the flag; otherwise nothing changes.
     */
    method FinishStore(newData: seq<real>)
      requires Valid() && |newData| == Filters
      modifies this`savedData, this`storeLabel, this`storing
      ensures Valid()
      ensures old(storing) ==> savedData == old(savedData) + [newData] &&
                               storeLabel == StoreLabel(|savedData| + 1) && !storing
      ensures !old(storing) ==> savedData == old(savedData) && storeLabel == old(storeLabel) && !storing
    {
      if storing {
        savedData := savedData + [newData];
        storeLabel := StoreLabel(|savedData| + 1);
        storing := false;
      }
    }
  }
}
