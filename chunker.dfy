/**
 * Fixed-size text chunking with overlap (`chunk_text` of the
 * pre-processing module).  Consecutive chunks start `chunkSize -
 * overlapSize` characters apart; the last chunk is cut at the end of the
 * text.
 */
module Chunker {

  /** Defaults of `chunk_text`. */
  const DefaultChunkSize: int := 1000
  const DefaultOverlapSize: int := 100
  /** The arguments every caller in the service passes. */
  const ServiceChunkSize: int := 500
  const ServiceOverlapSize: int := 100

  function Min(a: int, b: int): int { if a <= b then a else b }

  /**
   * The chunks produced from position `start` on when consecutive chunks
   * start `step` characters apart.
   */
  function ChunksFrom(text: string, start: nat, size: nat, step: nat): seq<string>
    requires 0 < size && 0 < step
    decreases |text| - start
  {
    if |text| <= start then []
    else
      var end := Min(start + size, |text|);
      [text[start..end]] + (if end == |text| then [] else ChunksFrom(text, start + step, size, step))
  }

  /**
   * What `chunk_text(text, chunkSize, overlapSize)` returns.  A text no
   * longer than `chunkSize` ends after its one chunk whatever the overlap,
   * so the step needs to be positive only for longer texts.
   */
  function Chunks(text: string, chunkSize: int, overlapSize: int): seq<string>
    requires 0 < chunkSize && (overlapSize < chunkSize || |text| <= chunkSize)
  {
    if overlapSize < chunkSize then ChunksFrom(text, 0, chunkSize, chunkSize - overlapSize)
    else if |text| == 0 then []
    else [text]
  }

  /**
   * The loop of `chunk_text`.  A non-positive `chunkSize` would make the
   * source slice with negative bounds, and a step of zero or less on a text
   * longer than `chunkSize` would never end; every caller passes 500 and 100.
   */
  method ChunkText(text: string, chunkSize: int, overlapSize: int) returns (chunks: seq<string>)
    requires 0 < chunkSize && (overlapSize < chunkSize || |text| <= chunkSize)
    ensures chunks == Chunks(text, chunkSize, overlapSize)
  {
    chunks := [];
    if |text| == 0 {
      return;
    }
    assert text[0..|text|] == text;
    var start := 0;
    while start < |text|
      invariant 0 <= start
      invariant overlapSize < chunkSize ==>
        chunks + ChunksFrom(text, start, chunkSize, chunkSize - overlapSize) == Chunks(text, chunkSize, overlapSize)
      invariant chunkSize <= overlapSize ==> start == 0 && chunks == []
      decreases |text| - start
    {
      var end := Min(start + chunkSize, |text|);
      var chunk := text[start..end];
      chunks := chunks + [chunk];
      if end == |text| {
        break;
      }
      start := start + (chunkSize - overlapSize);
      if start < 0 {
        start := 0;
      }
    }
  }

  /** A non-empty text no longer than `chunkSize` is one chunk, whatever the overlap. */
  lemma ShortTextOneChunk(text: string, chunkSize: int, overlapSize: int)
    requires 0 < |text| <= chunkSize
    ensures Chunks(text, chunkSize, overlapSize) == [text]
  {
    if overlapSize < chunkSize {
      assert text[0..|text|] == text;
    }
  }

  // -------------------------------------------------------------------
  // Properties of the chunks
  // -------------------------------------------------------------------

  /**
   * Chunk `i` of the chunks from `start` is the window of `size` characters
   * (cut at the end of the text) at `start + i * step`; every chunk starts
   * inside the text and every chunk but the last ends before its end.
   */
  lemma {:induction false} ChunksFromWindows(text: string, start: nat, size: nat, step: nat)
    requires 0 < size && 0 < step
    ensures var cs := ChunksFrom(text, start, size, step);
      && (forall i :: 0 <= i < |cs| ==>
            start + i * step < |text| &&
            cs[i] == text[start + i * step..Min(start + i * step + size, |text|)])
      && (forall i :: 0 <= i < |cs| - 1 ==> start + i * step + size < |text|)
    decreases |text| - start
  {
    var cs := ChunksFrom(text, start, size, step);
    if |text| <= start {
      assert cs == [];
    } else if |text| <= start + size {
      assert cs == [text[start..|text|]];
      assert start + 0 * step == start;
    } else {
      var rest := ChunksFrom(text, start + step, size, step);
      ChunksFromWindows(text, start + step, size, step);
      assert cs == [text[start..start + size]] + rest;
      forall i | 0 <= i < |cs|
        ensures start + i * step < |text|
        ensures cs[i] == text[start + i * step..Min(start + i * step + size, |text|)]
        ensures i < |cs| - 1 ==> start + i * step + size < |text|
      {
        if i == 0 {
          assert start + i * step == start;
        } else {
          StepShift(start, step, i);
          assert cs[i] == rest[i - 1];
        }
      }
    }
  }

  /** The `i`-th window from `start` is the `(i - 1)`-th from `start + step`. */
  lemma StepShift(start: nat, step: nat, i: nat)
    requires 1 <= i
    ensures start + step + (i - 1) * step == start + i * step
  {
    assert (i - 1) * step + step == i * step;
  }

  /** Chunk `i` is `text[i * step : i * step + chunkSize]` (cut at the end of the text). */
  lemma ChunkWindow(text: string, chunkSize: int, overlapSize: int, i: nat)
    requires 0 < chunkSize && overlapSize < chunkSize
    requires i < |Chunks(text, chunkSize, overlapSize)|
    ensures var step := chunkSize - overlapSize;
      i * step < |text| &&
      Chunks(text, chunkSize, overlapSize)[i] == text[i * step..Min(i * step + chunkSize, |text|)]
    ensures i + 1 < |Chunks(text, chunkSize, overlapSize)| ==>
      i * (chunkSize - overlapSize) + chunkSize < |text|
  {
    ChunksFromWindows(text, 0, chunkSize, chunkSize - overlapSize);
  }

  /** Every chunk is non-empty and at most `chunkSize` long; all but the last are exactly that long. */
  lemma ChunkLengths(text: string, chunkSize: int, overlapSize: int)
    requires 0 < chunkSize && overlapSize < chunkSize
    ensures var cs := Chunks(text, chunkSize, overlapSize);
      (forall i :: 0 <= i < |cs| ==> 1 <= |cs[i]| <= chunkSize) &&
      (forall i :: 0 <= i < |cs| - 1 ==> |cs[i]| == chunkSize)
  {
    ChunksFromWindows(text, 0, chunkSize, chunkSize - overlapSize);
  }

  /** `chunk_text` of the empty text is empty and of any other text is not. */
  lemma ChunksEmpty(text: string, chunkSize: int, overlapSize: int)
    requires 0 < chunkSize && overlapSize < chunkSize
    ensures Chunks(text, chunkSize, overlapSize) == [] <==> |text| == 0
  {
  }

  /**
   * With a non-negative overlap the chunks from `start` reach the end of the
   * text: the last one ends there.
   */
  lemma {:induction false} ChunksFromReachEnd(text: string, start: nat, size: nat, step: nat)
    requires 0 < step <= size && start < |text|
    ensures var cs := ChunksFrom(text, start, size, step);
      1 <= |cs| && |text| <= start + (|cs| - 1) * step + size
    decreases |text| - start
  {
    if start + size < |text| {
      ChunksFromReachEnd(text, start + step, size, step);
      var rest := ChunksFrom(text, start + step, size, step);
      assert start + step + (|rest| - 1) * step == start + |rest| * step;
    }
  }

  /** With a non-negative overlap the last chunk ends at the end of the text. */
  lemma LastChunkReachesEnd(text: string, chunkSize: int, overlapSize: int)
    requires 0 <= overlapSize < chunkSize && 0 < |text|
    ensures var cs := Chunks(text, chunkSize, overlapSize);
      var last := |cs| - 1;
      0 <= last && last * (chunkSize - overlapSize) < |text| &&
      cs[last] == text[last * (chunkSize - overlapSize)..]
  {
    var step := chunkSize - overlapSize;
    ChunksFromReachEnd(text, 0, chunkSize, step);
    ChunksFromWindows(text, 0, chunkSize, step);
  }

  /**
   * With a non-negative overlap a text longer than one chunk yields
   * `1 + ceil((len - chunkSize) / (chunkSize - overlapSize))` chunks.
   */
  lemma ChunkCount(text: string, chunkSize: int, overlapSize: int)
    requires 0 <= overlapSize < chunkSize
    ensures var n, step := |text|, chunkSize - overlapSize;
      |Chunks(text, chunkSize, overlapSize)| ==
        if n == 0 then 0
        else if n <= chunkSize then 1
        else 1 + (n - chunkSize + step - 1) / step
  {
    var n, step := |text|, chunkSize - overlapSize;
    var cs := Chunks(text, chunkSize, overlapSize);
    assert cs == ChunksFrom(text, 0, chunkSize, step);
    if 0 < n {
      ChunksFromReachEnd(text, 0, chunkSize, step);
      ChunksFromWindows(text, 0, chunkSize, step);
      var last := |cs| - 1;
      if chunkSize < n {
        // the last chunk reaches the end, the one before does not
        assert n <= last * step + chunkSize;
        assert (last - 1) * step + chunkSize < n;
        CeilingDivision(n - chunkSize, step, last);
      }
    }
  }

  /** `q` is the ceiling of `a / b` when `(q - 1) * b < a <= q * b`. */
  lemma CeilingDivision(a: int, b: int, q: int)
    requires 0 < a && 0 < b && (q - 1) * b < a <= q * b
    ensures (a + b - 1) / b == q
  {
    var r := (a + b - 1) / b;
    assert r * b <= a + b - 1 < (r + 1) * b;
    assert (q - 1) * b == q * b - b;
    MultiplesOrdered(q, r + 1, b);
    assert (r + 1) * b == r * b + b;
    MultiplesOrdered(r, q + 1, b);
  }

  /** Multiples of a positive number are ordered as the factors are. */
  lemma MultiplesOrdered(x: int, y: int, b: int)
    requires 0 < b && x * b < y * b
    ensures x < y
  {
    assert (y - x) * b == y * b - x * b;
  }

  /**
   * With a non-negative overlap, consecutive chunks share `overlapSize`
   * characters: the end of chunk `i` is the start of chunk `i + 1`.
   */
  lemma ConsecutiveChunksOverlap(text: string, chunkSize: int, overlapSize: int, i: nat)
    requires 0 <= overlapSize < chunkSize
    requires i + 1 < |Chunks(text, chunkSize, overlapSize)|
    ensures var cs := Chunks(text, chunkSize, overlapSize);
      |cs[i]| == chunkSize && overlapSize <= |cs[i + 1]| &&
      cs[i][chunkSize - overlapSize..] == cs[i + 1][..overlapSize]
  {
    ConsecutiveChunksFromOverlap(text, 0, chunkSize, overlapSize, i);
  }

  lemma {:induction false} ConsecutiveChunksFromOverlap(text: string, start: nat, chunkSize: int, overlapSize: int, i: nat)
    requires 0 <= overlapSize < chunkSize
    requires i + 1 < |ChunksFrom(text, start, chunkSize, chunkSize - overlapSize)|
    ensures var cs := ChunksFrom(text, start, chunkSize, chunkSize - overlapSize);
      |cs[i]| == chunkSize && overlapSize <= |cs[i + 1]| &&
      cs[i][chunkSize - overlapSize..] == cs[i + 1][..overlapSize]
    decreases i
  {
    var step := chunkSize - overlapSize;
    var cs := ChunksFrom(text, start, chunkSize, step);
    var rest := ChunksFrom(text, start + step, chunkSize, step);
    assert start + chunkSize < |text| && cs == [text[start..start + chunkSize]] + rest;
    if i == 0 {
      WindowsOverlap(text, start, chunkSize, overlapSize, cs[0], rest[0]);
    } else {
      ConsecutiveChunksFromOverlap(text, start + step, chunkSize, overlapSize, i - 1);
      assert cs[i] == rest[i - 1] && cs[i + 1] == rest[i];
    }
  }

  /** Two windows `chunkSize - overlapSize` apart share `overlapSize` characters. */
  lemma WindowsOverlap(text: string, a: nat, chunkSize: int, overlapSize: int, first: string, second: string)
    requires 0 <= overlapSize < chunkSize && a + chunkSize < |text|
    requires first == text[a..a + chunkSize]
    requires var b := a + chunkSize - overlapSize;
      second == text[b..Min(b + chunkSize, |text|)]
    ensures |first| == chunkSize && overlapSize <= |second|
    ensures first[chunkSize - overlapSize..] == second[..overlapSize]
  {
    var b := a + chunkSize - overlapSize;
    assert first[chunkSize - overlapSize..] == text[b..a + chunkSize];
    assert second[..overlapSize] == text[b..a + chunkSize];
  }

  function Concat(parts: seq<string>): string
  {
    if |parts| == 0 then "" else parts[0] + Concat(parts[1..])
  }

  lemma {:induction false} ConcatChunksFrom(text: string, start: nat, size: nat)
    requires 0 < size && start <= |text|
    ensures Concat(ChunksFrom(text, start, size, size)) == text[start..]
    decreases |text| - start
  {
    if start < |text| && start + size < |text| {
      ConcatChunksFrom(text, start + size, size);
      assert text[start..] == text[start..start + size] + text[start + size..];
    }
  }

  /** Without overlap the chunks put back together are the text. */
  lemma ChunksWithoutOverlapConcat(text: string, chunkSize: int)
    requires 0 < chunkSize
    ensures Concat(Chunks(text, chunkSize, 0)) == text
  {
    ConcatChunksFrom(text, 0, chunkSize);
  }
}
