/**
 * The time-domain window every program keeps in `dataBlock`:
 * `dataBlock = concatenate((dataBlock[blockSize/2:], data))`.
 */
module Window {

  /**
   * The window after one update: the old window from position `half` on
   * (empty when the old window is no longer than `half`, as Python slicing gives),
   * followed by the delivered chunk.
   */
  function Slide<T>(block: seq<T>, chunk: seq<T>, half: nat): (w: seq<T>)
    ensures |w| == (if |block| <= half then 0 else |block| - half) + |chunk|
    ensures w[|w| - |chunk|..] == chunk
  {
    (if half <= |block| then block[half..] else []) + chunk
  }

  /**
   * With the window as it starts (length blockSize/2) the retained prefix is empty:
   * the new window is exactly the new chunk.
   */
  lemma SlideKeepsOnlyChunk<T>(block: seq<T>, chunk: seq<T>, half: nat)
    requires |block| <= half
    ensures Slide(block, chunk, half) == chunk
  {
  }

  /**
   * The 50% overlap holds only for a window of full length 2*half: then its second half
   * becomes the first half of the next window.
   */
  lemma SlideOverlap<T>(block: seq<T>, chunk: seq<T>, half: nat)
    requires |block| == 2 * half
    ensures Slide(block, chunk, half)[..half] == block[half..]
  {
  }

  /** The windows after delivering the chunks one after another. */
  function Run<T>(block: seq<T>, chunks: seq<seq<T>>, half: nat): (w: seq<T>)
    decreases |chunks|
  {
    if chunks == [] then block
    else Run(Slide(block, chunks[0], half), chunks[1..], half)
  }

  /**
   * Starting from the initial window of length half and delivering chunks of length half,
   * every later window has length half and equals the latest chunk.
   */
  lemma {:induction false} RunIsLatestChunk<T>(block: seq<T>, chunks: seq<seq<T>>, half: nat)
    requires |block| == half
    requires forall i :: 0 <= i < |chunks| ==> |chunks[i]| == half
    requires chunks != []
    ensures Run(block, chunks, half) == chunks[|chunks| - 1]
    ensures |Run(block, chunks, half)| == half
    decreases |chunks|
  {
    SlideKeepsOnlyChunk(block, chunks[0], half);
    if |chunks| > 1 {
      RunIsLatestChunk(chunks[0], chunks[1..], half);
    }
  }
}
