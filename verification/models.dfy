/** The audio segment record shared by the splitters, and the final filter
    that both silence splitters (src/ffmpeg/ffmpeg.go, src/aubio/aubio.go)
    apply to their raw segments.  Times are seconds as exact reals. */
module Models {
  import opened Common

  /** models.AudioSegment as the rest of the code uses it (Start, End,
      Filename, Duration, and the window bounds StartAbs/EndAbs). */
  datatype AudioSegment = AudioSegment(
    start: real, end: real, filename: string, duration: real,
    startAbs: real, endAbs: real)

  /** A segment as the splitters build it: duration End - Start, window
      bounds still at their zero value. */
  function Segment(start: real, end: real, filename: string): (s: AudioSegment)
    ensures s.start == start && s.end == end && s.filename == filename
    ensures s.duration == end - start
  {
    AudioSegment(start, end, filename, end - start, 0.0, 0.0)
  }

  /** Segments no longer than this are dropped by the final filter. */
  const MinDuration: real := 0.1

  datatype SplitError = NoSegments   // "could not find any segments"

  /** Reference definition of the filter: the segments with duration above
      MinDuration, in their original order. */
  function LongOnly(segs: seq<AudioSegment>): seq<AudioSegment>
  {
    if segs == [] then []
    else LongOnly(segs[..|segs| - 1])
         + (if segs[|segs| - 1].duration > MinDuration then [segs[|segs| - 1]] else [])
  }

  /** Filtering a concatenation filters each part: the order is kept. */
  lemma {:induction false} LongOnlyAppend(a: seq<AudioSegment>, b: seq<AudioSegment>)
    ensures LongOnly(a + b) == LongOnly(a) + LongOnly(b)
    decreases |b|
  {
    if b == [] {
      assert a + b == a;
    } else {
      var b' := b[..|b| - 1];
      assert (a + b)[..|a + b| - 1] == a + b';
      LongOnlyAppend(a, b');
    }
  }

  /** A segment survives the filter exactly when it was present and long. */
  lemma {:induction false} LongOnlyMembers(segs: seq<AudioSegment>, x: AudioSegment)
    ensures x in LongOnly(segs) <==> x in segs && x.duration > MinDuration
  {
    if segs != [] {
      var init := segs[..|segs| - 1];
      LongOnlyMembers(init, x);
      assert segs == init + [segs[|segs| - 1]];
    }
  }

  /** The compaction loop at the end of both splitters
      (src/ffmpeg/ffmpeg.go:216-229, src/aubio/aubio.go:54-67): copy the long
      segments to the front of a buffer as long as the input, counting them,
      and fail when none is kept. */
  method KeepLong(segs: seq<AudioSegment>) returns (r: Result<seq<AudioSegment>, SplitError>)
    ensures LongOnly(segs) == [] ==> r == Err(NoSegments)
    ensures LongOnly(segs) != [] ==> r == Ok(LongOnly(segs))
  {
    var kept := new AudioSegment[|segs|];
    var i := 0;
    for k := 0 to |segs|
      invariant i <= k
      invariant kept[..i] == LongOnly(segs[..k])
    {
      LongOnlyAppend(segs[..k], [segs[k]]);
      assert segs[..k + 1] == segs[..k] + [segs[k]];
      if segs[k].duration > MinDuration {
        kept[i] := segs[k];
        i := i + 1;
      }
    }
    assert segs[..|segs|] == segs;
    if i == 0 {
      return Err(NoSegments);
    }
    return Ok(kept[..i]);
  }

  /** Each segment starts where the previous one ends, the first at first,
      and carries duration End - Start. */
  predicate Contiguous(segs: seq<AudioSegment>, first: real)
  {
    && (segs != [] ==> segs[0].start == first)
    && (forall i :: 0 < i < |segs| ==> segs[i].start == segs[i - 1].end)
    && (forall i :: 0 <= i < |segs| ==> segs[i].duration == segs[i].end - segs[i].start)
  }
}
