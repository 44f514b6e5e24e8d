# Sound-card sonar and spectrum tools: the bookkeeping model

The repository holds four GTK/GStreamer programs. Each one turns a sound card into a measuring instrument:

- **rdsounder.py** is a range-Doppler sonar. It builds a history of matched-filter pulses, one row per pulse. It can show that history as a range picture or, after a column FFT, as a Doppler picture.
- **sounder.py** is a one-dimensional echo sounder. It keeps a history of pulses, one column per pulse, and draws either the running mean or the latest pulse as a single trace.
- **matfilter.py** is a bank of eight matched filters.
  - It scores every filter on each capture window and reports the best one.
  - It keeps offset accumulators for four of the filters.
  - It logs snapshots of the scores on demand.
- **gtkspec.py** is a spectrum analyser with four modes: spectrum, XY track of two markers, autocorrelation and spectrogram. It also has three mouse-placed markers with readouts.

All four programs wrap numpy FFTs in a layer of discrete bookkeeping:

- which samples enter the window;
- how the history matrices shift;
- which index centring and decimation pick;
- how the zoom controller corrects itself;
- what a button press, mode change, store, delete or save leaves behind.

This project models that layer in Dafny and proves its properties. The numerical transforms are given as functions the operations take as parameters:

- the FFT or correlation the programs compute;
- `abs` on complex values;
- `log10`;
- the per-filter score.

The layout follows the programs:

- `signal.dfy` (module `Signal`):
  - the S16LE byte stream and the `unpack` decoder every program copies;
  - the complex values the FFT layer hands over.
- `window.dfy` (module `Window`): the `dataBlock` window update.
- `grid.dfy` (module `Grid`): `numpy.roll`, first-index `argmax`, stride slicing `[::step]`, and the row and column pushes of the history matrices.
- `conditioning.dfy` (module `Conditioning`):
  - zero floor, dB stretch and clip stages;
  - Python `int()`;
  - the Hz, ms, cm and cm/s label conversions.
- `controls.dfy` (module `Controls`):
  - Python 3's half-to-even `round`;
  - `get_step` with its zoom self-correction;
  - the range-label loop;
  - class `View`, which holds the zoom and screen state the two sounders share line for line (`get_step`, `pixels_to_cm`, `zoom_in`/`zoom_out`, `size_allocate_event`).
- `rdsounder.dfy` (module `RangeDoppler`), `sounder.dfy` (module `EchoSounder`), `matfilter.dfy` (module `MatchedFilter`) and `gtkspec.dfy` (module `SpectrumAnalyzer`): one module per program.
  - Each program's object is a class: `RangeDoppler.Sounder`, `EchoSounder.Sounder`, `MatchedFilter.FilterBank` and `SpectrumAnalyzer.Analyzer`.
  - Each class keeps that program's fields, and its methods are the program's callbacks.
  - Each state-changing method states its whole new state through specification functions, and lemmas state the properties of those functions.
- `wrappers.dfy` (module `Wrappers`): `Option`, used where the program either has a value or raises.
- `arith.dfy` (module `Arith`): the uniqueness of Euclidean division, which the index proofs use.

## Behaviour worth knowing

- **Window.** `dataBlock` starts at `blockSize/2` samples, and each delivered chunk has that same length. So the slice `dataBlock[blockSize/2:]` is always empty and the window is just the latest chunk. The model does what the slice does.
  - `Window.SlideKeepsOnlyChunk` and `Window.RunIsLatestChunk` prove that the window is the latest chunk.
  - `Window.SlideOverlap` states the overlap that the update would give a window of full length.
- **Zoom.** `get_step` decrements zoom whenever the rounded step is at most 1, so zoom can reach 0. The next call resets it to 1.
- **Repeated `get_step` calls.** Both sounders call `get_step` once for the plot and again for every range label, so one frame can lower zoom several times. `Controls.View.RangeLabels` and the sounders' `UpdateDisplay` thread zoom through every call.
- **numpy views.** In rdsounder outside Doppler mode, and in sounder with averaging off, `plotdat` is a numpy view of `corr_data`. The zero floor `plotdat[plotdat==0]=1e-10` therefore also writes into the stored history, at the decimated positions. The model keeps that write-through.
- **Reference files.** `entry_update` catches only a failed `wave.open`. When `unpack` raises on a file's frames, the exception leaves the callback before any reference is assigned, so the references are unchanged. A width other than 2 decodes only frames of at most two bytes (`MatchedFilter.DecodesIffEverySliceIsAWord`).
- **gtkspec errors.** In gtkspec a marker at 511 or above, or below -511, makes the readout raise `IndexError`. A negative marker from -511 up is a valid Python index counted from the end. In mode 1, a marker from -5 to 4 gives an empty slice `data_fft[m-5:m+5]`, and `max` of an empty sequence raises. (So would a marker above 1028, but such a marker already fails its readout.) `SpectrumAnalyzer.Analyzer.UpdateDisplay` returns `ok == false` on these paths, with the fields the frame had already assigned.

## Model

| member | source | states |
|---|---|---|
| Signal.Word | gtkspec.py:43 | the word of two bytes is a signed 16-bit value, and it is non-negative iff the high byte is below 128 |
| Signal.WordOfBytes | gtkspec.py:43 | encoding a 16-bit value as its low and high byte and decoding the pair gives the value back |
| Signal.BytesOfWord | gtkspec.py:43 | decoding a byte pair and re-encoding it gives the same two bytes |
| Signal.Decoded | gtkspec.py:40-44 | `unpack` yields floor(len/2) words, a trailing odd byte dropped, each in [-32768, 32767] |
| Signal.Encoded | rdsounder.py:304 | the S16LE stream of n words is 2n bytes |
| Signal.DecodeEncode | gtkspec.py:40-44 | decoding the S16LE stream of any words returns exactly those words |
| Signal.EncodeDecode | gtkspec.py:40-44 | re-encoding the decoded words returns every input byte except a trailing odd one |
| Signal.Unpack | gtkspec.py:40-44 | the two-byte stepping loop computes exactly the decoded words |
| Signal.Apply | sounder.py:98 | a ufunc applied entry by entry (`abs`, `log10`): same length, entry k is f of input entry k |
| Window.Slide | rdsounder.py:69 | the new window is the old window from blockSize/2 on (empty if shorter), ending in the delivered chunk |
| Window.SlideKeepsOnlyChunk | rdsounder.py:269 | from a window no longer than blockSize/2 the update yields exactly the new chunk |
| Window.SlideOverlap | rdsounder.py:69 | a full-length window would pass its second half on as the first half of the next |
| Window.RunIsLatestChunk | rdsounder.py:200 | from the initial window, with chunks of blockSize/2 samples, every later window has that length and equals the latest chunk |
| Grid.Roll | rdsounder.py:90 | `numpy.roll` keeps the length; `Grid.RollAt` gives where each element goes |
| Grid.RollAt | rdsounder.py:89 | `roll(a, s)` places a[k-s] at k, wrapping the last s elements to the front |
| Grid.RotateIsSplice | rdsounder.py:90 | rotating by -idx is the suffix from idx followed by the prefix before it |
| Grid.RotateProperties | rdsounder.py:90 | rotating by -idx puts element idx first, keeps the cyclic order and is a permutation |
| Grid.RotateByZero | rdsounder.py:85-86 | with centring off the rotation leaves the window unchanged |
| Grid.ArgMax | rdsounder.py:84 | `argmax` is an index holding the maximum, and every earlier index holds less (the first one) |
| Grid.CentreIndex | rdsounder.py:83-86 | the centring index is argmax of the magnitudes with Center on and 0 with it off |
| Grid.Decimate | rdsounder.py:92 | `a[::step]` has ceil(n/step) elements |
| Grid.DecimateKeepsMultiples | rdsounder.py:92 | element j of `a[::step]` is a[j*step], and j is kept iff j*step < n |
| Grid.DecimateByOne | rdsounder.py:100 | row decimation by `get_dstep() == 1` is the identity |
| Grid.DecimateColumns | rdsounder.py:92 | `m[:, ::step]` decimates every row |
| Grid.Zeros | rdsounder.py:208 | `numpy.zeros((rows, cols))` has that shape and only zero entries |
| Grid.PushRow | rdsounder.py:89-91 | the row push keeps the number of rows and puts the new row first |
| Grid.PushRowShifts | rdsounder.py:89-91 | the row push makes the new row row 0 and old row k-1 row k, drops the last row and keeps the shape |
| Grid.PushColumn | sounder.py:89-90 | the column push keeps the number of rows and each row's length, and puts the new column first |
| Grid.PushColumnShifts | sounder.py:89-90 | the column push makes the new column column 0 and old column k-1 column k, drops the last column and keeps the shape |
| Conditioning.Trunc | rdsounder.py:98 | `int(x)` truncates toward zero: within 1 below a non-negative x and within 1 above a negative one |
| Conditioning.Clip | rdsounder.py:106-107 | clipping lands in [lo, hi], keeps in-range values and sends out-of-range values to the bound they pass |
| Conditioning.FloorZeros | rdsounder.py:103 | after the floor no entry is zero, and non-zero entries are kept |
| Conditioning.FloorZerosAt | sounder.py:94-97 | the floor through a stride view touches only the positions j*step |
| Conditioning.FloorZerosReal | rdsounder.py:103 | the floor on magnitudes leaves no zero entry and keeps the others |
| Conditioning.FloorZerosRealAt | rdsounder.py:92-103 | the floor written through `corr_data[:, ::step]` touches only columns j*step |
| Conditioning.Mean | sounder.py:91 | `numpy.mean` over exact reals: the sum over the count; `Conditioning.MeanOfConstant` and `Conditioning.MeanBounds` state its properties |
| Conditioning.Level | rdsounder.py:105 | the contrast stretch 60·db + 100 − 60·mean(db) of both sounders, before clipping |
| Conditioning.MeanOfConstant | sounder.py:91 | the mean of a constant row is that constant |
| Conditioning.MeanBounds | sounder.py:91 | a mean lies between the smallest and largest entry |
| Conditioning.FlattenSize | rdsounder.py:105 | numpy's axis-less mean runs over all rows*cols entries |
| Conditioning.PixelLevel | rdsounder.py:105-107 | the range-Doppler level always lies in [0, 255] and is unchanged when already in range |
| Conditioning.Pixel | rdsounder.py:110 | the uint8 cast of an in-range level is its integer part |
| Conditioning.EchoLevel | sounder.py:99-102 | the sounder level always lies in [10, 520], and an in-range level is raised by exactly 20 |
| Conditioning.DispMag | gtkspec.py:122-123 | the -20 floor plus 20 is never negative, raises dB values at or above -20 by 20 and sends lower ones to 0 |
| Conditioning.DispMagMonotone | gtkspec.py:122-123 | the display floor keeps the order of dB values |
| Conditioning.ConversionsLinear | gtkspec.py:47-51 | `convert_to_hz`, `convert_to_time`, `pixels_to_cm` and `pixels_to_cmps` are linear and map 0 to 0 |
| Controls.RoundHalfEven | rdsounder.py:160 | `round` is within 1/2 of its argument and picks the even integer at a tie |
| Controls.RoundHalfEvenUnique | rdsounder.py:160 | any integer within 1/2 that is even at ties is the rounding (uniqueness) |
| Controls.RoundHalfEvenMonotone | rdsounder.py:160 | rounding keeps order |
| Controls.StepFor | rdsounder.py:156-165 | `get_step` resets zoom <= 0 to 1. When the rounded step is <= 1, the step is exactly 1 and zoom drops by one; otherwise zoom is kept and the step is the rounded value. Zoom after the call is >= 0 |
| Controls.StepStable | rdsounder.py:156-165 | a zoom `get_step` keeps is a fixed point: a second call gives the same step and zoom |
| Controls.CorrectionPersists | rdsounder.py:159-163 | if zoom z is corrected then so is every larger zoom |
| Controls.ZoomAfterBounded | sounder.py:131-140 | repeated `get_step` calls never raise zoom above max(zoom, 1), and after one call it is >= 0 |
| Controls.StepAt | rdsounder.py:118-120 | every step used by a range label is at least 1 |
| Controls.ZoomAfterFixed | rdsounder.py:118-120 | once `get_step` keeps the zoom, every label of the frame uses the same zoom and step |
| Controls.RangeLabelsEven | rdsounder.py:171-174 | at one step, range label k is k+1 times the first label |
| Controls.View.constructor | rdsounder.py:279-288 | zoom 1, a 512 by 380 drawing area, no window size recorded |
| Controls.View.GetStep | rdsounder.py:156-165 | the method returns the step and leaves the zoom `StepFor` gives |
| Controls.View.PixelsToCm | sounder.py:143-145 | `pixels_to_cm(p)` is p*34029/R/2 times the step of one `get_step` call, whose zoom correction it keeps |
| Controls.View.RangeLabels | rdsounder.py:118-120 | there are `int(W/50)-1` labels. Label k is `pixels_to_cm(50(k+1))` at the step of the (k+1)-th `get_step` call, and zoom ends as after that many calls |
| Controls.View.ZoomIn | rdsounder.py:223-225 | zoom rises by one |
| Controls.View.ZoomOut | rdsounder.py:227-229 | zoom drops by one, unguarded |
| Controls.View.SizeAllocate | rdsounder.py:248-259 | the first call only records the window size. Later calls keep screenWidth-width and screenHeight-height constant |
| RangeDoppler.FloorColumnsAt | rdsounder.py:92-103 | the floor through the plot view changes each history row at its stride positions only |
| RangeDoppler.FloorThroughStride | rdsounder.py:92-103 | flooring through the stride view equals flooring the strided copy |
| RangeDoppler.FloorThroughView | rdsounder.py:92-103 | the plot read back through the view is the floored decimated history and has no zero entry |
| RangeDoppler.SelectedRows | rdsounder.py:98 | one selected row per screen line (none for a negative height) |
| RangeDoppler.SelectedRowsInRange | rdsounder.py:98 | every re-selected row index lies in [0, M), and the indices are non-decreasing |
| RangeDoppler.SelectedRowsAreArange | rdsounder.py:98 | selected index j is `int(j * (M / H))`, the truncated arange value |
| RangeDoppler.DivIsTrunc | rdsounder.py:98 | integer division of naturals equals truncation of the exact quotient |
| RangeDoppler.HalfRolled | rdsounder.py:97 | the Doppler half-roll keeps the number of rows; `RangeDoppler.HalfRollCentres` gives where each row goes |
| RangeDoppler.HalfRollCentres | rdsounder.py:97 | the Doppler half-roll moves row 0 to row M/2, shifts rows down by M/2 and wraps the top rows to the front |
| RangeDoppler.Pick | rdsounder.py:98 | fancy indexing `a[sel, :]` yields row sel[j] at j |
| RangeDoppler.Reselected | rdsounder.py:97-98 | row j of the re-selected spectrum is spectrum row (sel[j] - M/2) mod M |
| RangeDoppler.DopplerFrame | rdsounder.py:94-103 | the Doppler frame is the re-selected, row-decimated spectrum after the zero floor, with no zero entry |
| RangeDoppler.Quantise | rdsounder.py:103-110 | each pixel is the integer part of the clipped level against the frame mean, equal to the level's integer part when in [0, 255] |
| RangeDoppler.DopplerLabels | rdsounder.py:136-138 | `int(H/30)` Doppler labels, label i being i times `pixels_to_cmps(30)` |
| RangeDoppler.Sounder.constructor | rdsounder.py:262-288 | a zero window, a 100-row zero history and a fresh view |
| RangeDoppler.Sounder.ResetHistory | rdsounder.py:206-209 | `average_cb` rebuilds an all-zero averagingWindow by n history |
| RangeDoppler.Sounder.AvgUp | rdsounder.py:211-214 | the averaging window grows by 10 and the history is reset |
| RangeDoppler.Sounder.AvgDown | rdsounder.py:216-221 | the averaging window shrinks by 10 but not below 10, and the history is reset |
| RangeDoppler.Sounder.UpdateDisplay | rdsounder.py:66-125 | the whole frame: the window is the latest chunk, optionally correlated. The centred magnitudes are pushed as row 0, and outside Doppler mode the floor is written through the view. The plot is the history decimated by the first step. Zoom and range labels are threaded through every `get_step` call, and outside Doppler mode the plot has no zero entry |
| RangeDoppler.PulsePush | rdsounder.py:89-91 | one push keeps the shape and shifts old rows down by one. Row 0 holds the window's magnitudes as a permutation, and with centring its first entry is the largest |
| EchoSounder.RowMeans | sounder.py:91 | `mean(m, 1)` is the mean of each row |
| EchoSounder.AveragedTrace | sounder.py:91 | the averaged trace has ceil(n/step) entries, entry j being the mean of history row j*step |
| EchoSounder.EchoTrace | sounder.py:99-102 | every drawn echo value lies in [10, 520] and is the clipped level against the trace mean |
| EchoSounder.AveragedEcho | sounder.py:91-102 | the averaging-on trace has ceil(n/step) values, all in [10, 520] |
| EchoSounder.LatestEcho | sounder.py:94-102 | the averaging-off trace has ceil(n/step) values, all in [10, 520] |
| EchoSounder.FloorThroughStride | sounder.py:93-97 | flooring through the stride view of the trace equals flooring the strided copy |
| EchoSounder.EchoPush | sounder.py:88-90 | one column push keeps the n by M shape and shifts old columns right by one. Column 0 holds the window's magnitudes as a permutation, largest first when centring |
| EchoSounder.Sounder.constructor | sounder.py:231-256 | a zero window, averaging on over 10 pulses, a zero n by 10 history and a fresh view |
| EchoSounder.Sounder.ResetHistory | sounder.py:174-177 | `average_cb` rebuilds an all-zero n by averagingWindow history |
| EchoSounder.Sounder.SetAveraging | sounder.py:314-316 | toggling Averaging records the setting and resets the history |
| EchoSounder.Sounder.AvgUp | sounder.py:179-182 | the averaging window grows by 10 and the history is reset |
| EchoSounder.Sounder.AvgDown | sounder.py:184-189 | the averaging window shrinks by 10 but not below 10, and the history is reset |
| EchoSounder.Sounder.UpdateDisplay | sounder.py:65-128 | the whole frame. With averaging, the centred magnitudes are pushed as column 0 and the trace is the mean of every step-th row. Without it, the history is the centred window, floored at its stride positions. The echo has ceil(n/step) values in [10, 520], and zoom and labels are threaded through `get_step` |
| MatchedFilter.Digits | matfilter.py:170 | `str` of a natural number is a non-empty string of decimal digits that reads back as the number, with a leading 0 only for 0 |
| MatchedFilter.StoreLabel | matfilter.py:194 | the store label `'Store #' + str(n)`; `MatchedFilter.StoreLabelReads` states what it spells |
| MatchedFilter.StoreLabelReads | matfilter.py:194 | the store label is "Store #" followed by digits that read back as n |
| MatchedFilter.Detect | matfilter.py:102-125 | the running maximum of the detection loop; `MatchedFilter.DetectIsFirstMaximum` states which filter it picks |
| MatchedFilter.DetectionText | matfilter.py:169-172 | the detection label; `MatchedFilter.DetectionTextReads` states what it spells |
| MatchedFilter.DetectionTextReads | matfilter.py:169-172 | no detection reads "Detected filter: None"; a detected filter i reads "Detected filter:" followed by digits that read back as i+1 |
| MatchedFilter.ConvertToHz | matfilter.py:51-52 | the frequency of a position: hz · blockSize = 2 · x · sampleRate |
| MatchedFilter.ConvertToTime | matfilter.py:54-55 | the time of a lag: ms · sampleRate = 1000 · x |
| MatchedFilter.DetectIsFirstMaximum | matfilter.py:102-125 | the detected filter is -1 iff no score is positive. Otherwise it is the lowest index holding the maximum score, which is > 0 |
| MatchedFilter.Refreshed | matfilter.py:143-146 | with averaging on, entries k < n-idx gain corr[k+idx] and the rest are kept. With averaging off, the accumulator becomes corr[idx:] |
| MatchedFilter.RefreshedFromZero | matfilter.py:144 | accumulating onto zeros gives the suffix corr[idx:] padded with idx zeros |
| MatchedFilter.Accumulated | matfilter.py:138-146 | an accumulator keeps 1..n entries, exactly n while averaging |
| MatchedFilter.FilterTrace | matfilter.py:150-152 | each drawn trace value is `20 log10(0.01+|x|)` floored at -20 plus 20, never negative |
| MatchedFilter.DrawnTraces | matfilter.py:128-152 | exactly the four filters 0..3 are drawn |
| MatchedFilter.RangeMarks | matfilter.py:175-177 | nine fixed range marks, mark k being k+1 times the first |
| MatchedFilter.Conjugates | matfilter.py:246 | `numpy.conjugate` negates every imaginary part |
| MatchedFilter.Scores | matfilter.py:104-114 | one score per filter, from its own reference |
| MatchedFilter.Advanced | matfilter.py:128-146 | only filters 0..3 change their accumulators, each by the centred update; filters 4..7 are untouched |
| MatchedFilter.AdvancedShape | matfilter.py:138-146 | the update keeps every accumulator between 1 and n entries, exactly n while averaging |
| MatchedFilter.ScoreRow | matfilter.py:119-120 | the log row holds every score divided by 10 |
| MatchedFilter.ScanFilters | matfilter.py:102-146 | the per-filter loop computes the running-maximum detection, the queued log row and the accumulator updates |
| MatchedFilter.FilterBank.constructor | matfilter.py:255-338 | zero window, references and accumulators, storing off, an empty log |
| MatchedFilter.FilterBank.Store | matfilter.py:213-215 | `store_cb` queues a snapshot |
| MatchedFilter.FilterBank.Delete | matfilter.py:217-220 | the last log row is removed when there is one, an empty log stays empty, and the label names row 1+rows |
| MatchedFilter.FilterBank.Save | matfilter.py:222-240 | a confirmed save empties the log, clears the queued store and resets the label to "Store #1". A cancelled one changes nothing |
| MatchedFilter.FilterBank.Capture | matfilter.py:244-247 | only reference i is replaced, by the conjugate spectrum of the window |
| MatchedFilter.FilterBank.EntryUpdate | matfilter.py:199-211 | a file that fails to open, or that `unpack` rejects, leaves every reference unchanged. Otherwise only reference i is replaced, by the conjugate spectrum of the decoded samples |
| MatchedFilter.DecodesIffEverySliceIsAWord | matfilter.py:44-48 | `unpack` succeeds exactly when every slice its loop takes holds the two bytes `struct.unpack('h', ...)` needs: always at width 2, at width 1 only on at most one byte, and at a wider width only on at most two bytes |
| MatchedFilter.FilterBank.ResetAccumulators | matfilter.py:249-253 | `average_cb` resets all eight accumulators to n complex zeros |
| MatchedFilter.FilterBank.SetAveraging | matfilter.py:313-314 | toggling Averaging records the setting and resets the accumulators |
| MatchedFilter.FilterBank.UpdateDisplay | matfilter.py:86-196 | the whole frame: the window is the latest chunk and the detection is the running maximum with its label. Accumulators advance, and a queued store appends exactly one row of scores/10, clears the flag and sets the label to "Store #"+(rows+1). Without it the log is unchanged |
| MatchedFilter.FilterBank.FinishStore | matfilter.py:192-195 | a queued store appends exactly the frame's row, sets the label to "Store #"+(rows+1) and clears the flag; with none queued the log and the label are unchanged |
| SpectrumAnalyzer.PyIndex | gtkspec.py:113-115 | Python indexing succeeds iff -n <= i < n, counting negative indices from the end |
| SpectrumAnalyzer.SliceBound | gtkspec.py:154 | a slice bound is clipped to [0, n] and kept when already inside |
| SpectrumAnalyzer.PySlice | gtkspec.py:154-155 | a slice with in-range ordered bounds is the ordinary subsequence |
| SpectrumAnalyzer.TrackWindow | gtkspec.py:154-155 | for 5 <= m <= n-5 the marker window is the ten bins m-5..m+4, and for 0 <= m < 5 it is empty |
| SpectrumAnalyzer.Peak | gtkspec.py:154-155 | `int(max(xs))` fails iff xs is empty, and otherwise truncates an entry no smaller than any other |
| SpectrumAnalyzer.PeakAt | gtkspec.py:154-155 | a marker's track coordinate exists iff its slice `data_fft[m-5:m+5]` is non-empty |
| SpectrumAnalyzer.Display | gtkspec.py:119-125 | the display array has the first 511 bins, each floored at -20 and raised by 20, never negative |
| SpectrumAnalyzer.Shown | gtkspec.py:95-125 | the displayed array (autocorrelation in mode 2, spectrum otherwise) has 511 bins |
| SpectrumAnalyzer.Doubled | gtkspec.py:133 | the spectrogram row is the display array times 2 |
| SpectrumAnalyzer.Shifted | gtkspec.py:132-133 | the spectrogram push keeps 380 rows, puts the new row first and leaves the last row as it was; `SpectrumAnalyzer.ShiftedRows` gives the rest |
| SpectrumAnalyzer.ShiftedRows | gtkspec.py:131-133 | the mode-3 push keeps the 380 by 511 shape. Row 0 is the new row, rows 1..378 take old rows 0..377, and row 379 stays stale |
| SpectrumAnalyzer.ConvertToHz | gtkspec.py:47-48 | the frequency of a bin: hz · blockSize = 2 · x · sampleRate |
| SpectrumAnalyzer.ConvertToTime | gtkspec.py:50-51 | the time of a lag: ms · sampleRate = 1000 · x |
| SpectrumAnalyzer.MarkerReading | gtkspec.py:194-203 | a marker label is in ms (`convert_to_time`) in mode 2 and in Hz (`convert_to_hz`) otherwise |
| SpectrumAnalyzer.Analyzer.constructor | gtkspec.py:209-232 | markers at 100, 200 and 300, mode 3, an empty track, a zero spectrogram, Hz labels and "0 dB" readouts |
| SpectrumAnalyzer.Analyzer.Repaint | gtkspec.py:194-203 | all three marker labels take the unit of the current mode |
| SpectrumAnalyzer.Analyzer.SwapMode | gtkspec.py:176-181 | the mode becomes the selection. The track is cleared iff the mode is 0 or 2, and the labels are repainted |
| SpectrumAnalyzer.Analyzer.ButtonPress | gtkspec.py:183-191 | only a button-1 press in mode 0, 2 or 3 moves a marker, exactly one, to int(x): marker 1 if radio 1 is active, else marker 2 if radio 2, else marker 3 |
| SpectrumAnalyzer.Analyzer.UpdateDisplay | gtkspec.py:78-174 | the whole frame. The window is the latest chunk and the readouts index the 511-bin display array. Mode 3 pushes 2*data with the last row stale, other modes reset the spectrogram to zeros, and mode 1 appends exactly one peak pair to the track. The frame fails iff a readout or a peak raises, keeping what was already assigned |
| SpectrumAnalyzer.Analyzer.ReadMarkers | gtkspec.py:127-129 | the three readouts run in order: each one that succeeds is shown, and the first that raises stops the rest |
| SpectrumAnalyzer.Analyzer.PushFrame | gtkspec.py:131-157 | mode 3 pushes the doubled row and any other mode resets the spectrogram to zeros. Mode 1 then appends exactly one track point and raises iff a peak window is empty |
| SpectrumAnalyzer.TrackPointExists | gtkspec.py:152-157 | for a marker in [5, n-5] the peak window is non-empty, so the track point exists |

## Left out

- GStreamer plumbing is left out: pipeline construction, the `buffer_cb` sample pull, `tx_cb`'s seek to zero, and the `set_state` calls. These are foreign library calls. The delivered chunk is a parameter of each `UpdateDisplay`, its length is the blockSize/2 that the pulse source delivers, and the `self.data` hand-off is the last one written.
- Cairo/GDK/GTK rendering is left out: drawing, colours, fonts, text formatting of the labels, `set_size_request`, and the `timeout_add`/`idle_add` cadence. Labels are kept as numbers (`SpectrumAnalyzer.Reading` pairs a number with its unit) or as the literal strings the programs set.
- Floating-point numerics are given rather than computed: `fft`/`ifft`, `log10`, the modulus `abs`, and the SNR/SINR score with its `numpy.std`. They are function parameters of the operations that use them. Reals are exact, so float rounding in `arange` and `round` is not modelled.
- gtkspec's `scale_track` (sqrt and division) is not modelled. Its division by zero on an all-zero track is therefore not a failure path of `SpectrumAnalyzer.Analyzer.UpdateDisplay`.
- The 190/2^16 sample scaling in gtkspec's `buffer_cb` is not modelled: the chunk arrives already scaled.
- Concurrency is left out: `Gdk.threads_enter`/`leave` and gtkspec's `updating` re-entrancy flag. An idle callback that raises is not rescheduled; that is not modelled either.
- File I/O is left out except for its effect on state: `wave.open`/`readframes` (an opened file is a `WaveFile` value, a failed open is `None`), `numpy.savetxt`, `scipy.io.savemat`, the file dialog (whose answer is the `confirmed` flag of `Save`) and the `strftime` file names. The save-button and transmit callbacks of the two sounders only write files or start playback, and are omitted.
- The reference loads in the constructors read chirp WAV files. The constructors therefore start from zero references (matfilter) and do not hold rdsounder's and sounder's `ref` at all; their `correlate` parameter stands for `ifft(fft(w) * ref * 4 / blockSize**2)`.
- Python-2-era breakage is not modelled: the float slice index at gtkspec.py:84, `Gdk.Pixmap`, and the float FFT length in sounder. The model uses the intended integer semantics.
- A zero screen width makes `get_step` divide by zero, and the program would raise. The methods that call `get_step` require a non-zero width instead of modelling that exception.
- A zero screen height makes rdsounder's Doppler row selection (`numpy.size(plotdat,0)/float(self.screenHeight)`, rdsounder.py:98) and `pixels_to_cmps` (rdsounder.py:177) divide by zero, and the program would raise; `size_allocate_event` can bring the height to 0. `RangeDoppler.SelectedRows`, `RangeDoppler.SelectedRowsInRange`, `RangeDoppler.SelectedRowsAreArange`, `RangeDoppler.Reselected`, `RangeDoppler.DopplerFrame` and `RangeDoppler.DopplerLabels` require a non-zero height instead of modelling that exception.
- numpy broadcasting and dtypes are not modelled beyond the complex lift of the integer chunk and the uint8 cast of in-range pixels.
- matfilter's filter-marker and SNR-bar drawing positions (`xm`, `ym`) are rendering-only and left out.
- `RangeDoppler.Sounder.UpdateDisplay` stops at the column FFT in Doppler mode. The FFT output is modelled separately by `RangeDoppler.DopplerFrame` and `RangeDoppler.Quantise`, which take the FFT output as input, so the method does not chain them.
