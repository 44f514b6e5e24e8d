/**
 * Raw PCM samples as every program sees them: the S16LE byte stream delivered
 * by the capture pipeline, the `unpack` decoder into signed 16-bit words, and the
 * complex values the FFT layer produces (their content is never computed here).
 */
module Signal {
  import opened Arith

  newtype byte = x: int | 0 <= x < 256

  const WordMin: int := -32768
  const WordMax: int := 32767

  predicate IsWord(w: int) { WordMin <= w <= WordMax }

  /** The signed (two's-complement) little-endian 16-bit word with low byte lo and high byte hi. */
  function Word(lo: byte, hi: byte): (w: int)
    ensures IsWord(w)
    ensures w >= 0 <==> hi < 128
  {
    var u := lo as int + 256 * hi as int;
    if u < 32768 then u else u - 65536
  }

  /** Low byte of the two's-complement encoding of w. */
  function Low(w: int): byte
    requires IsWord(w)
  {
    ((w + 65536) % 65536 % 256) as byte
  }

  /** High byte of the two's-complement encoding of w. */
  function High(w: int): byte
    requires IsWord(w)
  {
    ((w + 65536) % 65536 / 256) as byte
  }

  lemma WordOfBytes(w: int)
    requires IsWord(w)
    ensures Word(Low(w), High(w)) == w
  {
    var u := (w + 65536) % 65536;
    if w >= 0 {
      ModUnique(w + 65536, 65536, 1, w);
    } else {
      ModUnique(w + 65536, 65536, 0, w + 65536);
    }
    ModUnique(u, 256, u / 256, u % 256);
  }

  lemma BytesOfWord(lo: byte, hi: byte)
    ensures Low(Word(lo, hi)) == lo && High(Word(lo, hi)) == hi
  {
    var u := lo as int + 256 * hi as int;
    if u < 32768 {
      ModUnique(Word(lo, hi) + 65536, 65536, 1, u);
    } else {
      ModUnique(Word(lo, hi) + 65536, 65536, 0, u);
    }
    ModUnique(u, 256, hi as int, lo as int);
  }

  /**
   * What `unpack` returns: one word per complete byte pair, a trailing odd byte dropped.
   */
  function Decoded(bytes: seq<byte>): (ws: seq<int>)
    ensures |ws| == |bytes| / 2
    ensures forall k :: 0 <= k < |ws| ==> IsWord(ws[k])
  {
    seq(|bytes| / 2, k requires 0 <= k < |bytes| / 2 => Word(bytes[2 * k], bytes[2 * k + 1]))
  }

  /** The S16LE byte stream of a sequence of words (the capture format). */
  function Encoded(ws: seq<int>): (bytes: seq<byte>)
    requires forall k :: 0 <= k < |ws| ==> IsWord(ws[k])
    ensures |bytes| == 2 * |ws|
  {
    if ws == [] then [] else [Low(ws[0]), High(ws[0])] + Encoded(ws[1..])
  }

  lemma {:induction false} EncodedAt(ws: seq<int>, k: nat)
    requires forall j :: 0 <= j < |ws| ==> IsWord(ws[j])
    requires k < |ws|
    ensures Encoded(ws)[2 * k] == Low(ws[k]) && Encoded(ws)[2 * k + 1] == High(ws[k])
  {
    if k > 0 {
      EncodedAt(ws[1..], k - 1);
    }
  }

  /** Decoding the S16LE stream of any words gives the words back. */
  lemma {:induction false} DecodeEncode(ws: seq<int>)
    requires forall k :: 0 <= k < |ws| ==> IsWord(ws[k])
    ensures Decoded(Encoded(ws)) == ws
  {
    var d := Decoded(Encoded(ws));
    forall k | 0 <= k < |ws|
      ensures d[k] == ws[k]
    {
      EncodedAt(ws, k);
      WordOfBytes(ws[k]);
    }
  }

  /** Encoding what was decoded gives back every byte except a trailing odd one. */
  lemma {:induction false} EncodeDecode(bytes: seq<byte>)
    ensures Encoded(Decoded(bytes)) == bytes[..2 * (|bytes| / 2)]
  {
    var ws := Decoded(bytes);
    var e := Encoded(ws);
    forall i | 0 <= i < |e|
      ensures e[i] == bytes[i]
    {
      var k := i / 2;
      EncodedAt(ws, k);
      BytesOfWord(bytes[2 * k], bytes[2 * k + 1]);
    }
  }

  /**
   * `unpack`: the loop `for i in range(0, len(str) - 1, 2)` appending the word at i, i+1.
   */
  method Unpack(bytes: seq<byte>) returns (ws: seq<int>)
    ensures ws == Decoded(bytes)
  {
    ws := [];
    var i := 0;
    while i < |bytes| - 1
      invariant 0 <= i <= |bytes| && i % 2 == 0
      invariant |ws| == i / 2
      invariant forall k :: 0 <= k < i / 2 ==> ws[k] == Word(bytes[2 * k], bytes[2 * k + 1])
    {
      ws := ws + [Word(bytes[i], bytes[i + 1])];
      i := i + 2;
    }
  }

  /** A complex value as numpy holds it; only the FFT layer gives them content. */
  datatype Complex = Complex(re: real, im: real)

  const Zero: Complex := Complex(0.0, 0.0)

  function Add(a: Complex, b: Complex): Complex
  {
    Complex(a.re + b.re, a.im + b.im)
  }

  /** Integer samples as the real parts of complex values (numpy's upcast). */
  function Lift(xs: seq<int>): (zs: seq<Complex>)
    ensures |zs| == |xs|
    ensures forall k :: 0 <= k < |xs| ==> zs[k] == Complex(xs[k] as real, 0.0)
  {
    seq(|xs|, k requires 0 <= k < |xs| => Complex(xs[k] as real, 0.0))
  }

  /**
   * A numpy ufunc applied entry by entry: `abs` of a complex or real array, `log10`
   * of magnitudes. The function itself is supplied by the caller.
   */
  function Apply<A, B>(f: A -> B, xs: seq<A>): (ys: seq<B>)
    ensures |ys| == |xs|
    ensures forall k :: 0 <= k < |xs| ==> ys[k] == f(xs[k])
  {
    seq(|xs|, k requires 0 <= k < |xs| => f(xs[k]))
  }
}
