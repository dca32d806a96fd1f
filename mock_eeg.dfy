/** The mock EEG source of the stand-alone client: a background loop appends random chunks
    of samples to a bounded buffer, and `pop` hands over everything buffered. The buffer is
    kept column by column (one column holds one sample of every channel); the random
    chunks are inputs. */
module MockEeg {
  import opened Values

  /** One time step: a value per channel. */
  type Column = seq<real>

  /** Python's start index for `columns[:, length - maxLength:]` over `width` columns: a
      negative start counts from the end and is clamped at 0, a non-negative one is clamped
      at the width. */
  function TrimStart(width: nat, length: nat, maxLength: nat): (start: nat)
    ensures start <= width
    ensures length < maxLength && width + length >= maxLength ==> start == width + length - maxLength
    ensures length >= maxLength ==> start == if length - maxLength < width then length - maxLength else width
  {
    var s := length - maxLength;
    if s < 0 then (if width + s < 0 then 0 else width + s)
    else if s < width then s else width
  }

  /** One append of `generate_eeg`: when the new total would exceed `maxLength`, the oldest
      columns are dropped first; then the chunk goes at the end. */
  function AppendChunk(columns: seq<Column>, chunk: seq<Column>, maxLength: nat): (r: seq<Column>)
    ensures |chunk| <= |r| <= |columns| + |chunk|
  {
    var kept := if |columns| + |chunk| > maxLength then columns[TrimStart(|columns|, |chunk|, maxLength)..] else columns;
    kept + chunk
  }

  /** After an append the buffer is the newest columns it held, then the whole chunk; it
      is left whole when everything fits, and otherwise trimmed to exactly `maxLength` when
      the chunk is narrower than that. */
  lemma AppendKeepsNewest(columns: seq<Column>, chunk: seq<Column>, maxLength: nat)
    ensures var r := AppendChunk(columns, chunk, maxLength);
      && r[|r| - |chunk|..] == chunk
      && r[..|r| - |chunk|] == columns[|columns| - (|r| - |chunk|)..]
      && (|columns| + |chunk| <= maxLength ==> r == columns + chunk)
      && (|chunk| < maxLength ==> |r| <= maxLength)
      && (|chunk| < maxLength && |columns| + |chunk| > maxLength ==> |r| == maxLength)
  {
    var kept := if |columns| + |chunk| > maxLength then columns[TrimStart(|columns|, |chunk|, maxLength)..] else columns;
    assert (kept + chunk)[..|kept|] == kept;
  }

  /** With a chunk as wide as `maxLength`, the slice start is 0 and nothing is dropped, so
      the buffer grows past `maxLength`; the generator's chunks (1 to 10 columns) only stay
      clear of this when `maxLength` exceeds 10. */
  lemma FullWidthChunkKeepsAll(columns: seq<Column>, chunk: seq<Column>, maxLength: nat)
    requires |chunk| == maxLength && |columns| > 0
    ensures AppendChunk(columns, chunk, maxLength) == columns + chunk
    ensures |AppendChunk(columns, chunk, maxLength)| > maxLength
  {
    assert columns[0..] == columns;
  }

  /** The buffer stays within `maxLength` under any run of appends of chunks narrower than
      `maxLength`, whatever it held before the first. */
  lemma {:induction false} BoundedUnderAppends(columns: seq<Column>, chunks: seq<seq<Column>>, maxLength: nat)
    requires |columns| <= maxLength
    requires forall i :: 0 <= i < |chunks| ==> |chunks[i]| < maxLength
    ensures |AppendAll(columns, chunks, maxLength)| <= maxLength
    decreases |chunks|
  {
    if |chunks| > 0 {
      AppendKeepsNewest(columns, chunks[0], maxLength);
      BoundedUnderAppends(AppendChunk(columns, chunks[0], maxLength), chunks[1..], maxLength);
    }
  }

  /** A run of appends, in order. */
  function AppendAll(columns: seq<Column>, chunks: seq<seq<Column>>, maxLength: nat): seq<Column>
    decreases |chunks|
  {
    if |chunks| == 0 then columns
    else AppendAll(AppendChunk(columns, chunks[0], maxLength), chunks[1..], maxLength)
  }

  /** A chunk of `length` columns, each with a value per channel. */
  predicate WellFormed(chunk: seq<Column>, numChannels: nat)
  {
    forall t :: 0 <= t < |chunk| ==> |chunk[t]| == numChannels
  }

  class MockEEG {
    const numChannels: nat
    const maxLength: nat
    var columns: seq<Column>
    var isRunning: bool

    predicate Valid()
      reads this
    {
      WellFormed(columns, numChannels)
    }

    /** The buffer starts with every channel and no samples, and the generator running. */
    constructor (numChannels: nat, maxLength: nat)
      ensures this.numChannels == numChannels && this.maxLength == maxLength
      ensures columns == [] && isRunning && Valid()
    {
      this.numChannels := numChannels;
      this.maxLength := maxLength;
      columns := [];
      isRunning := true;
    }

    /** The locked body of one `generate_eeg` iteration, given the random chunk. */
    method Append(chunk: seq<Column>)
      requires Valid() && WellFormed(chunk, numChannels) && 1 <= |chunk| <= 10
      modifies this`columns
      ensures Valid()
      ensures columns == AppendChunk(old(columns), chunk, maxLength)
    {
      if |columns| + |chunk| > maxLength {
        columns := columns[TrimStart(|columns|, |chunk|, maxLength)..];
      }
      columns := columns + chunk;
    }

    /** `generate_eeg`: appends the random chunks one per iteration while running. */
    method GenerateEeg(chunks: seq<seq<Column>>)
      requires Valid()
      requires forall i :: 0 <= i < |chunks| ==> WellFormed(chunks[i], numChannels) && 1 <= |chunks[i]| <= 10
      modifies this`columns
      ensures Valid()
      ensures columns == if isRunning then AppendAll(old(columns), chunks, maxLength) else old(columns)
    {
      ghost var start := columns;
      var rest := chunks;
      while rest != [] && isRunning
        invariant Valid()
        invariant forall i :: 0 <= i < |rest| ==> WellFormed(rest[i], numChannels) && 1 <= |rest[i]| <= 10
        invariant isRunning ==> AppendAll(start, chunks, maxLength) == AppendAll(columns, rest, maxLength)
        invariant !isRunning ==> columns == start
        decreases |rest|
      {
        Append(rest[0]);
        rest := rest[1..];
      }
    }

    /** `pop`: swaps the buffer for an empty one and returns what it held, or None when it
        held no samples. */
    method Pop() returns (data: Option<seq<Column>>)
      modifies this`columns
      ensures columns == []
      ensures data.None? <==> old(columns) == []
      ensures data.Some? ==> data.value == old(columns)
    {
      var held := columns;
      columns := [];
      if |held| == 0 {
        return None;
      }
      return Some(held);
    }

    /** `stop`: clears the running flag (joining the thread is not modelled). */
    method Stop()
      modifies this`isRunning
      ensures !isRunning
    {
      isRunning := false;
    }
  }
}
