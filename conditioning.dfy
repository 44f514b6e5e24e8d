/**
 * Display conditioning over exact reals: the zero floor before the logarithm,
 * the dB level and clip stages of the programs, Python's `int()` and the linear
 * unit conversions used for labels. The logarithms themselves are given.
 */
module Conditioning {
  import opened Signal

  /** Python `int(x)`: truncation toward zero. */
  function Trunc(x: real): (r: int)
    ensures 0.0 <= x ==> r as real <= x < r as real + 1.0
    ensures x < 0.0 ==> r as real - 1.0 < x <= r as real
  {
    if x >= 0.0 then x.Floor else -((-x).Floor)
  }

  /** `d[d < lo] = lo; d[d > hi] = hi` on one value. */
  function Clip(x: real, lo: real, hi: real): (r: real)
    requires lo <= hi
    ensures lo <= r <= hi
    ensures lo <= x <= hi ==> r == x
    ensures x < lo ==> r == lo
    ensures x > hi ==> r == hi
  {
    if x < lo then lo else if x > hi then hi else x
  }

  const Epsilon: real := 0.0000000001

  /** `plotdat[plotdat == 0] = 1e-10` on one value. */
  function FloorZero(z: Complex): (r: Complex)
    ensures r != Zero
    ensures z != Zero ==> r == z
  {
    if z == Zero then Complex(Epsilon, 0.0) else z
  }

  /** The zero floor on a sequence: nothing is zero afterwards and non-zero entries are kept. */
  function FloorZeros(zs: seq<Complex>): (rs: seq<Complex>)
    ensures |rs| == |zs|
    ensures forall k :: 0 <= k < |zs| ==> rs[k] != Zero
    ensures forall k :: 0 <= k < |zs| ==> rs[k] == FloorZero(zs[k])
  {
    seq(|zs|, k requires 0 <= k < |zs| => FloorZero(zs[k]))
  }

  /** The zero floor applied only at positions j * step (a stride view written through). */
  function FloorZerosAt(zs: seq<Complex>, step: nat): (rs: seq<Complex>)
    requires step >= 1
    ensures |rs| == |zs|
    ensures forall k :: 0 <= k < |zs| ==> rs[k] == if k % step == 0 then FloorZero(zs[k]) else zs[k]
  {
    seq(|zs|, k requires 0 <= k < |zs| => if k % step == 0 then FloorZero(zs[k]) else zs[k])
  }

  /** The same on real values (a matrix row that holds magnitudes). */
  function FloorZeroReal(x: real): (r: real)
    ensures r != 0.0
    ensures x != 0.0 ==> r == x
  {
    if x == 0.0 then Epsilon else x
  }

  /** The zero floor on a sequence of reals. */
  function FloorZerosReal(xs: seq<real>): (rs: seq<real>)
    ensures |rs| == |xs|
    ensures forall k :: 0 <= k < |xs| ==> rs[k] != 0.0
    ensures forall k :: 0 <= k < |xs| ==> rs[k] == FloorZeroReal(xs[k])
  {
    seq(|xs|, k requires 0 <= k < |xs| => FloorZeroReal(xs[k]))
  }

  /** The real zero floor applied only at positions j * step. */
  function FloorZerosRealAt(xs: seq<real>, step: nat): (rs: seq<real>)
    requires step >= 1
    ensures |rs| == |xs|
    ensures forall k :: 0 <= k < |xs| ==> rs[k] == if k % step == 0 then FloorZeroReal(xs[k]) else xs[k]
  {
    seq(|xs|, k requires 0 <= k < |xs| => if k % step == 0 then FloorZeroReal(xs[k]) else xs[k])
  }

  function Sum(s: seq<real>): real
  {
    if s == [] then 0.0 else Sum(s[..|s| - 1]) + s[|s| - 1]
  }

  /** `numpy.mean` over exact reals. */
  function Mean(s: seq<real>): real
    requires |s| > 0
  {
    Sum(s) / |s| as real
  }

  /** The mean of a constant sequence is that constant. */
  lemma {:induction false} MeanOfConstant(s: seq<real>, c: real)
    requires |s| > 0
    requires forall k :: 0 <= k < |s| ==> s[k] == c
    ensures Mean(s) == c
  {
    SumOfConstant(s, c);
  }

  lemma {:induction false} SumOfConstant(s: seq<real>, c: real)
    requires forall k :: 0 <= k < |s| ==> s[k] == c
    ensures Sum(s) == |s| as real * c
  {
    if s != [] {
      SumOfConstant(s[..|s| - 1], c);
    }
  }

  /** The mean lies between the smallest and the largest entry. */
  lemma {:induction false} MeanBounds(s: seq<real>, lo: real, hi: real)
    requires |s| > 0
    requires forall k :: 0 <= k < |s| ==> lo <= s[k] <= hi
    ensures lo <= Mean(s) <= hi
  {
    SumBounds(s, lo, hi);
    var n := |s| as real;
    assert n * lo <= Sum(s) <= n * hi;
  }

  lemma {:induction false} SumBounds(s: seq<real>, lo: real, hi: real)
    requires forall k :: 0 <= k < |s| ==> lo <= s[k] <= hi
    ensures |s| as real * lo <= Sum(s) <= |s| as real * hi
  {
    if s != [] {
      SumBounds(s[..|s| - 1], lo, hi);
    }
  }

  /** The entries of a matrix, row after row (numpy's mean without an axis). */
  function Flatten(m: seq<seq<real>>): (s: seq<real>)
  {
    if m == [] then [] else Flatten(m[..|m| - 1]) + m[|m| - 1]
  }

  /** A matrix of `rows` rows of `cols` entries flattens to rows * cols entries. */
  lemma {:induction false} FlattenSize(m: seq<seq<real>>, cols: nat)
    requires forall i :: 0 <= i < |m| ==> |m[i]| == cols
    ensures |Flatten(m)| == |m| * cols
  {
    if m != [] {
      FlattenSize(m[..|m| - 1], cols);
    }
  }

  /** `60 * db + 100 - 60 * mean(db)`: the contrast stretch of both sounders. */
  function Level(db: real, meanDb: real): real
  {
    60.0 * db + 100.0 - 60.0 * meanDb
  }

  /** Range-Doppler quantisation: the level clipped to [0, 255]. */
  function PixelLevel(db: real, meanDb: real): (r: real)
    ensures 0.0 <= r <= 255.0
    ensures 0.0 <= Level(db, meanDb) <= 255.0 ==> r == Level(db, meanDb)
  {
    Clip(Level(db, meanDb), 0.0, 255.0)
  }

  /** `numpy.array(data, dtype=uint8)` for a value already in [0, 255]. */
  function Pixel(x: real): (b: byte)
    requires 0.0 <= x <= 255.0
    ensures b as real <= x < b as real + 1.0
  {
    x.Floor as byte
  }

  /** 1-D sounder conditioning: the level clipped to [-10, 500], then raised by 20. */
  function EchoLevel(db: real, meanDb: real): (r: real)
    ensures 10.0 <= r <= 520.0
    ensures -10.0 <= Level(db, meanDb) <= 500.0 ==> r == Level(db, meanDb) + 20.0
  {
    Clip(Level(db, meanDb), -10.0, 500.0) + 20.0
  }

  /** `dispMag`: a dB value floored at -20 and raised by 20. */
  function DispMag(db: real): (r: real)
    ensures r >= 0.0
    ensures db >= -20.0 ==> r == db + 20.0
    ensures db <= -20.0 ==> r == 0.0
  {
    (if db < -20.0 then -20.0 else db) + 20.0
  }

  /** The display floor keeps the order of the dB values. */
  lemma DispMagMonotone(a: real, b: real)
    requires a <= b
    ensures DispMag(a) <= DispMag(b)
  {
  }

  /** `convert_to_hz(x, R, L) = x * R / L * 2`: bin index to frequency. */
  function BinToHz(x: real, sampleRate: real, blockSize: real): real
    requires blockSize != 0.0
  {
    x * sampleRate / blockSize * 2.0
  }

  /** `convert_to_time(x, R) = x * 1000 / R`: lag index to milliseconds. */
  function LagToMs(x: real, sampleRate: real): real
    requires sampleRate != 0.0
  {
    x * 1000.0 / sampleRate
  }

  /** `pixels_to_cm`: pixels times 34029 / R / 2 centimetres per sample, times the step. */
  function PixelsToCentimetres(pixels: real, sampleRate: real, step: int): real
    requires sampleRate != 0.0
  {
    pixels * (34029.0 / sampleRate / 2.0) * step as real
  }

  /** `pixels_to_cmps`: pixels times 34029 * 2 / (L * H) centimetres per second, times the row step. */
  function PixelsToCmps(pixels: real, blockSize: real, screenHeight: real, dstep: int): real
    requires blockSize * screenHeight != 0.0
  {
    pixels * (34029.0 * 2.0 / (blockSize * screenHeight)) * dstep as real
  }

  /** Each conversion is linear in its position and maps position 0 to 0. */
  lemma ConversionsLinear(a: real, b: real, c: real, rate: real, block: real, height: real, step: int)
    requires rate != 0.0 && block != 0.0 && height != 0.0
    ensures BinToHz(a + c * b, rate, block) == BinToHz(a, rate, block) + c * BinToHz(b, rate, block)
    ensures LagToMs(a + c * b, rate) == LagToMs(a, rate) + c * LagToMs(b, rate)
    ensures PixelsToCentimetres(a + c * b, rate, step)
         == PixelsToCentimetres(a, rate, step) + c * PixelsToCentimetres(b, rate, step)
    ensures PixelsToCmps(a + c * b, block, height, step)
         == PixelsToCmps(a, block, height, step) + c * PixelsToCmps(b, block, height, step)
    ensures BinToHz(0.0, rate, block) == 0.0 && LagToMs(0.0, rate) == 0.0
    ensures PixelsToCentimetres(0.0, rate, step) == 0.0 && PixelsToCmps(0.0, block, height, step) == 0.0
  {
  }
}
