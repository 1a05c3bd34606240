/**
 * The frame selection of the fly-scan export: the image stream arrives in
 * chunks; the first chunk is the dark reference, the last the background
 * (white) reference, and the chunks in between, concatenated in order, are the
 * tomography frames. The per-frame timestamps are trimmed and concatenated the
 * same way, by a loop that extends a list chunk by chunk.
 */
module FlyScan {
  import opened Documents

  /** Concatenation of the chunks in order (`reshape` of the leading two axes into one). */
  function Flatten<T>(chunks: seq<seq<T>>): seq<T>
  {
    if chunks == [] then [] else chunks[0] + Flatten(chunks[1..])
  }

  /** `chunks[1:-1]`: all chunks but the first and the last (none when there are fewer than three). */
  function Middle<T>(chunks: seq<seq<T>>): (r: seq<seq<T>>)
    ensures |chunks| >= 2 ==> r == chunks[1..|chunks| - 1]
    ensures |chunks| < 2 ==> r == []
  {
    if |chunks| < 2 then [] else chunks[1..|chunks| - 1]
  }

  /** Every chunk holds exactly c frames. */
  predicate Uniform<T>(chunks: seq<seq<T>>, c: nat)
  {
    forall i :: 0 <= i < |chunks| ==> |chunks[i]| == c
  }

  datatype FrameSplit<T> = FrameSplit(dark: seq<T>, background: seq<T>, tomo: seq<T>)

  /**
   * Lines 311-319: `imgs[0]`, `imgs[-1]` and `imgs[1:-1]` reshaped. No chunk at
   * all is an IndexError; chunks of different lengths do not form one array.
   */
  function SplitFrames<T>(chunks: seq<seq<T>>): (r: Result<FrameSplit<T>>)
    ensures |chunks| == 0 ==> r == Err(IndexError)
    ensures r.Ok? <==> |chunks| > 0 && Uniform(chunks, |chunks[0]|)
    ensures r.Ok? ==> r.value.dark == chunks[0] && r.value.background == chunks[|chunks| - 1]
  {
    if |chunks| == 0 then Err(IndexError)
    else if !Uniform(chunks, |chunks[0]|) then Err(ValueError("inhomogeneous shape"))
    else Ok(FrameSplit(chunks[0], chunks[|chunks| - 1], Flatten(Middle(chunks))))
  }

  lemma {:induction false} FlattenAppend<T>(chunks: seq<seq<T>>, last: seq<T>)
    ensures Flatten(chunks + [last]) == Flatten(chunks) + last
  {
    if chunks != [] {
      assert (chunks + [last])[1..] == chunks[1..] + [last];
      FlattenAppend(chunks[1..], last);
    }
  }

  /** With c frames per chunk, the concatenation has |chunks| * c frames. */
  lemma {:induction false} FlattenLength<T>(chunks: seq<seq<T>>, c: nat)
    requires Uniform(chunks, c)
    ensures |Flatten(chunks)| == |chunks| * c
  {
    if chunks != [] {
      FlattenLength(chunks[1..], c);
    }
  }

  /** With c frames per chunk, frame p of chunk j sits at position j * c + p of the concatenation. */
  lemma {:induction false} FlattenAt<T>(chunks: seq<seq<T>>, c: nat, j: nat, p: nat)
    requires Uniform(chunks, c) && j < |chunks| && p < c
    ensures j * c + p < |Flatten(chunks)| && Flatten(chunks)[j * c + p] == chunks[j][p]
  {
    FlattenLength(chunks, c);
    if j > 0 {
      FlattenAt(chunks[1..], c, j - 1, p);
      assert (j - 1) * c + p + c == j * c + p;
    }
  }

  /**
   * With n >= 2 chunks of c frames: the split succeeds and the tomography
   * frames number (n - 2) * c.
   */
  lemma SplitFramesCount<T>(chunks: seq<seq<T>>, c: nat)
    requires |chunks| >= 2 && Uniform(chunks, c)
    ensures SplitFrames(chunks).Ok?
    ensures |SplitFrames(chunks).value.tomo| == (|chunks| - 2) * c
  {
    var mid := Middle(chunks);
    assert Uniform(mid, c);
    FlattenLength(mid, c);
  }

  /** Lines 324-327: drop the first and last chunk of timestamps and extend a list with the rest. */
  method TrimTimestamps<T>(chunked: seq<seq<T>>) returns (raw: seq<T>)
    ensures raw == Flatten(Middle(chunked))
  {
    var kept := Middle(chunked);
    raw := [];
    var i := 0;
    while i < |kept|
      invariant 0 <= i <= |kept|
      invariant raw == Flatten(kept[..i])
    {
      FlattenAppend(kept[..i], kept[i]);
      assert kept[..i + 1] == kept[..i] + [kept[i]];
      raw := raw + kept[i];
      i := i + 1;
    }
    assert kept[..i] == kept;
  }

  /**
   * Frames and timestamps stay aligned: with the same n >= 2 chunks of c entries
   * on both sides, there are as many trimmed timestamps as tomography frames,
   * and position j * c + p of both holds entry p of chunk j + 1.
   */
  lemma FramesMatchTimestamps<F, S>(frames: seq<seq<F>>, stamps: seq<seq<S>>, c: nat, j: nat, p: nat)
    requires |frames| == |stamps| >= 2 && Uniform(frames, c) && Uniform(stamps, c)
    requires j < |frames| - 2 && p < c
    ensures SplitFrames(frames).Ok?
    ensures |Flatten(Middle(stamps))| == |SplitFrames(frames).value.tomo| == (|frames| - 2) * c
    ensures j * c + p < |Flatten(Middle(stamps))|
    ensures SplitFrames(frames).value.tomo[j * c + p] == frames[j + 1][p]
    ensures Flatten(Middle(stamps))[j * c + p] == stamps[j + 1][p]
  {
    SplitFramesCount(frames, c);
    SplitFramesCount(stamps, c);
    var fm, sm := Middle(frames), Middle(stamps);
    assert Uniform(fm, c) && Uniform(sm, c);
    assert fm[j] == frames[j + 1] && sm[j] == stamps[j + 1];
    FlattenAt(fm, c, j, p);
    FlattenAt(sm, c, j, p);
  }
}
