/** The per-window work of SplitEqual (src/audiosegment/audiosegment.go):
    the window starts, the equal splices of a window, the slot mapping that
    turns a window's segments into a drum patch, and the DrawSegments
    guard.  The worker pool that runs the windows concurrently is not
    modelled; one window's job is (Job). */
module AudioSegmentSplit {
  import opened Common
  import opened Models
  import opened Drum
  import Aubio
  import Ffmpeg

  /** The distance between window starts: the window length less the
      overlap, which is forced to 0 when the window is cut into equal
      splices (src/audiosegment/audiosegment.go:41-43,61). */
  function WindowStep(secondsMax: real, secondsOverlap: real, splices: int): real
  {
    secondsMax - if splices > 0 then 0.0 else secondsOverlap
  }

  /** starts is the grid s0, s0 + step, ... of every point below s0 + d:
      the k-th start is s0 + k * step, each lies below s0 + d, and the next
      grid point does not. */
  predicate IsWindowGrid(starts: seq<real>, s0: real, d: real, step: real)
  {
    && (forall k :: 0 <= k < |starts| ==> starts[k] == s0 + k as real * step)
    && (forall k :: 0 <= k < |starts| ==> starts[k] < s0 + d)
    && s0 + |starts| as real * step >= s0 + d
  }

  lemma MulLess(a: real, b: real, c: real)
    requires a < b && c > 0.0
    ensures a * c < b * c
  {
  }

  /** A grid point below the end has an index below floor(d / step) + 1,
      which bounds the number of passes of the loop. */
  lemma BelowBound(k: nat, d: real, step: real)
    requires step > 0.0 && k as real * step < d
    ensures d > 0.0 && k < (d / step).Floor + 1
  {
    var q := d / step;
    assert q * step == d;
    DivideOut(k as real, q, step);
  }

  /** A positive factor can be divided out of a strict inequality. */
  lemma DivideOut(a: real, b: real, c: real)
    requires c > 0.0 && a * c < b * c
    ensures a < b
  {
    assert (b - a) * c == b * c - a * c;
  }

  /** The window-start loop of SplitEqual (src/audiosegment/audiosegment.go:41-43,60-63),
      exact on reals.  With a step that is not positive and a positive
      duration the loop never ends, so that case is excluded; with no
      positive duration the loop ends at once whatever the step. */
  method WindowStarts(secondsStart: real, secondsDuration: real, secondsMax: real,
                      secondsOverlap: real, splices: int) returns (secondStart: seq<real>)
    requires WindowStep(secondsMax, secondsOverlap, splices) > 0.0 || secondsDuration <= 0.0
    ensures IsWindowGrid(secondStart, secondsStart, secondsDuration, WindowStep(secondsMax, secondsOverlap, splices))
  {
    var overlap := secondsOverlap;
    if splices > 0 {
      overlap := 0.0;
    }
    var step := secondsMax - overlap;
    secondStart := [];
    ghost var bound := if secondsDuration <= 0.0 then 0 else (secondsDuration / step).Floor + 1;
    var i := secondsStart;
    while i < secondsDuration + secondsStart
      invariant i == secondsStart + |secondStart| as real * step
      invariant forall k :: 0 <= k < |secondStart| ==> secondStart[k] == secondsStart + k as real * step
      invariant forall k :: 0 <= k < |secondStart| ==> secondStart[k] < secondsStart + secondsDuration
      invariant |secondStart| <= bound
      decreases bound - |secondStart|
    {
      assert step > 0.0;
      BelowBound(|secondStart|, secondsDuration, step);
      secondStart := secondStart + [i];
      i := i + step;
    }
  }

  /** With a positive step the starts strictly increase. */
  lemma GridIncreasing(starts: seq<real>, s0: real, d: real, step: real)
    requires step > 0.0 && IsWindowGrid(starts, s0, d, step)
    ensures forall i, j :: 0 <= i < j < |starts| ==> starts[i] < starts[j]
  {
    forall i, j | 0 <= i < j < |starts|
      ensures starts[i] < starts[j]
    {
      MulLess(i as real, j as real, step);
    }
  }

  /** The i-th of n equal splices of d seconds (src/audiosegment/audiosegment.go:105-108). */
  function Splice(d: real, n: nat, i: nat, fname: string): AudioSegment
    requires n > 0
  {
    Segment(d * i as real / n as real, d * (i + 1) as real / n as real, fname)
  }

  /** The n equal splices of d seconds. */
  function Splices(d: real, n: nat, fname: string): (r: seq<AudioSegment>)
    requires n > 0
    ensures |r| == n
  {
    seq(n, i requires 0 <= i < n => Splice(d, n, i, fname))
  }

  /** Go's zero AudioSegment, what make fills a new slice with. */
  const ZeroSegment: AudioSegment := AudioSegment(0.0, 0.0, "", 0.0, 0.0, 0.0)

  /** The equal-splice branch of a job (src/audiosegment/audiosegment.go:103-109):
      n segments filled in place, the i-th from d*i/n to d*(i+1)/n. */
  method EqualSplices(secondsDuration: real, splices: nat, fnameTrunc: string)
    returns (segments: seq<AudioSegment>)
    requires splices > 0
    ensures segments == Splices(secondsDuration, splices, fnameTrunc)
  {
    var r := new AudioSegment[splices](_ => ZeroSegment);
    for i := 0 to splices
      invariant forall k :: 0 <= k < i ==> r[k] == Splice(secondsDuration, splices, k, fnameTrunc)
      invariant forall k :: i <= k < splices ==> r[k] == ZeroSegment
    {
      var seg := r[i];
      seg := seg.(start := secondsDuration * i as real / splices as real);
      seg := seg.(end := secondsDuration * (i + 1) as real / splices as real);
      seg := seg.(duration := seg.end - seg.start);
      seg := seg.(filename := fnameTrunc);
      r[i] := seg;
    }
    segments := r[..];
  }

  /** d*(i+1)/n is d*i/n plus d/n. */
  lemma NextSplit(d: real, n: real, i: real)
    requires n != 0.0
    ensures d * (i + 1.0) / n == d * i / n + d / n
  {
    calc {
      d * (i + 1.0) / n;
      (d * i + d) / n;
      d * i / n + d / n;
    }
  }

  /** Each splice lasts d/n. */
  lemma SpliceDurations(d: real, n: nat, fname: string)
    requires n > 0
    ensures forall i :: 0 <= i < n ==> Splice(d, n, i, fname).duration == d / n as real
  {
    forall i | 0 <= i < n
      ensures Splice(d, n, i, fname).duration == d / n as real
    {
      assert (i + 1) as real == i as real + 1.0;
      NextSplit(d, n as real, i as real);
    }
  }

  /** Consecutive splices meet, the first starts at 0, the last ends at d
      and each lasts d/n: the splices cut [0, d] into n equal parts. */
  lemma SplicesShape(d: real, n: nat, fname: string)
    requires n > 0
    ensures var segs := Splices(d, n, fname);
            && Contiguous(segs, 0.0)
            && segs[n - 1].end == d
            && (forall i :: 0 <= i < n ==> segs[i].duration == d / n as real && segs[i].filename == fname)
  {
    var segs := Splices(d, n, fname);
    SpliceDurations(d, n, fname);
    forall i | 0 < i < n
      ensures segs[i].start == segs[i - 1].end
    {
      SpliceMeets(d, n, i, fname);
    }
    SpliceLast(d, n, fname);
  }

  /** Splice i starts where splice i - 1 ends. */
  lemma SpliceMeets(d: real, n: nat, i: nat, fname: string)
    requires 0 < i < n
    ensures Splice(d, n, i, fname).start == Splice(d, n, i - 1, fname).end
  {
    assert (i - 1 + 1) as real == i as real;
  }

  /** The last splice ends at d. */
  lemma SpliceLast(d: real, n: nat, fname: string)
    requires n > 0
    ensures Splice(d, n, n - 1, fname).end == d
  {
    assert (n - 1 + 1) as real == n as real;
    assert d * n as real / n as real == d;
  }

  /** The segments with the window's bounds recorded. */
  function Stamped(segs: seq<AudioSegment>, startAbs: real, endAbs: real): (r: seq<AudioSegment>)
    ensures |r| == |segs|
  {
    seq(|segs|, i requires 0 <= i < |segs| => segs[i].(startAbs := startAbs, endAbs := endAbs))
  }

  /** The slot loop of a job (src/audiosegment/audiosegment.go:119-137):
      every segment gets the window's bounds, including those past slot 21,
      and the slots are mapped exactly as ToDrumSplice maps them. */
  method MapWindow(op1data: DrumPatch, segments: seq<AudioSegment>, jobStart: real, secondsMax: real)
    returns (stamped: seq<AudioSegment>)
    requires op1data.Fields() == DefaultFields
    modifies op1data
    ensures stamped == Stamped(segments, jobStart, jobStart + secondsMax)
    ensures op1data.Fields() == MappedFields(segments)
  {
    stamped := segments;
    for i := 0 to |segments|
      invariant |stamped| == |segments|
      invariant forall k :: 0 <= k < i ==> stamped[k] == segments[k].(startAbs := jobStart, endAbs := jobStart + secondsMax)
      invariant forall k :: i <= k < |segments| ==> stamped[k] == segments[k]
      invariant op1data.Fields() == MappedFields(segments[..i])
    {
      stamped := stamped[i := stamped[i].(startAbs := jobStart, endAbs := jobStart + secondsMax)];
      WriteSlot(op1data, segments, i);
    }
    assert segments[..|segments|] == segments;
  }

  datatype DrawError =
    | NothingToDraw     // "no segments"
    | DrawToolFailed    // the last ImageMagick call failed

  /** DrawSegments (src/audiosegment/audiosegment.go:177-257) as far as its
      error goes: an empty list is refused before any tool runs; otherwise
      the error is that of the last convert call (lastCallOk), the earlier
      calls' errors only being logged. */
  function DrawSegments(segments: seq<AudioSegment>, lastCallOk: bool): (r: Option<DrawError>)
    ensures segments == [] ==> r == Some(NothingToDraw)
    ensures r.None? <==> segments != [] && lastCallOk
  {
    if |segments| == 0 then Some(NothingToDraw)
    else if !lastCallOk then Some(DrawToolFailed)
    else None
  }

  /** What the tools give one window's job: whether Truncate succeeded,
      aubioonset's output lines and the window's length for the aubio
      splitter, ffmpeg's silencedetect output for the fallback, whether the
      drawing's last call succeeded, and the AIFF bytes of the window. */
  datatype WindowInput = WindowInput(
    truncated: bool, onsetLines: seq<Option<real>>, windowLength: real,
    events: seq<Ffmpeg.Event>, drawn: bool, converted: Option<Bytes>)

  datatype JobError = TruncateFailed | SplitFailed(split: SplitError) | DrawFailed(draw: DrawError)

  /** A job either sends a failed result (skipped by the collector), sends
      its segments after writing the patch, or sends nothing at all: a Save
      error makes the worker continue without a result. */
  datatype JobOutcome =
    | Failed(error: JobError)
    | Done(segments: seq<AudioSegment>, patch: Bytes)
    | Silent(saveError: SaveError)

  /** The window's segments before stamping: equal splices, or the aubio
      split falling back to the ffmpeg split, both at -22 dB, 0.2 s and a
      -0.2 s correction. */
  function WindowSegments(secondsDuration: real, splices: nat, fnameTrunc: string,
                          inp: WindowInput): Result<seq<AudioSegment>, SplitError>
  {
    if splices > 0 then Ok(Splices(secondsDuration, splices, fnameTrunc))
    else match Aubio.SplitOutcome(inp.onsetLines, inp.windowLength, fnameTrunc)
      case Ok(segs) => Ok(segs)
      case Err(_) => Ffmpeg.SplitOutcome(inp.events, fnameTrunc, -0.2)
  }

  /** Reference outcome of one job (src/audiosegment/audiosegment.go:79-146).
      stemOP1 is the formatted name of the window's patch without ".aif". */
  function JobOutcomeOf(jobStart: real, secondsMax: real, secondsDuration: real, splices: nat,
                        fnameTrunc: string, stemOP1: string, inp: WindowInput,
                        marshal: DrumFields -> Bytes): JobOutcome
  {
    if !inp.truncated then Failed(TruncateFailed)
    else match WindowSegments(secondsDuration, splices, fnameTrunc, inp)
      case Err(e) => Failed(SplitFailed(e))
      case Ok(segs) =>
        match DrawSegments(segs, inp.drawn)
        case Some(e) => Failed(DrawFailed(e))
        case None =>
          match SaveOutcome(stemOP1 + ".aif", inp.converted, MappedFields(segs), marshal)
          case Err(e) => Silent(e)
          case Ok(b) => Done(Stamped(segs, jobStart, jobStart + secondsMax), b)
  }

  /** One window's job (src/audiosegment/audiosegment.go:79-146). */
  method Job(jobStart: real, secondsMax: real, secondsDuration: real, splices: nat,
             fnameTrunc: string, stemOP1: string, inp: WindowInput, marshal: DrumFields -> Bytes)
    returns (out: JobOutcome)
    ensures out == JobOutcomeOf(jobStart, secondsMax, secondsDuration, splices, fnameTrunc, stemOP1, inp, marshal)
  {
    if !inp.truncated {
      return Failed(TruncateFailed);
    }
    var segments: seq<AudioSegment>;
    if splices == 0 {
      var a := Aubio.SplitOnSilence(inp.onsetLines, inp.windowLength, fnameTrunc, -22, 0.2, -0.2);
      if a.Err? {
        var f := Ffmpeg.SplitOnSilence(inp.events, fnameTrunc, -22, 0.2, -0.2);
        if f.Err? {
          return Failed(SplitFailed(f.error));
        }
        segments := f.value;
      } else {
        segments := a.value;
      }
    } else {
      segments := EqualSplices(secondsDuration, splices, fnameTrunc);
      assert segments == WindowSegments(secondsDuration, splices, fnameTrunc, inp).value;
    }
    var drawn := DrawSegments(segments, inp.drawn);
    if drawn.Some? {
      return Failed(DrawFailed(drawn.value));
    }
    var op1data := new DrumPatch();
    segments := MapWindow(op1data, segments, jobStart, secondsMax);
    var saved := op1data.Save(stemOP1 + ".aif", inp.converted, marshal);
    if saved.Err? {
      return Silent(saved.error);
    }
    return Done(segments, saved.value);
  }

  /** A job stays silent exactly when everything before Save succeeded and
      the window's AIFF has no "SSND" tag or could not be produced; the
      collector, which waits for one result per window, then never returns. */
  lemma JobSilentWhenSaveFails(jobStart: real, secondsMax: real, secondsDuration: real, splices: nat,
                               fnameTrunc: string, stemOP1: string, inp: WindowInput,
                               marshal: DrumFields -> Bytes)
    ensures var out := JobOutcomeOf(jobStart, secondsMax, secondsDuration, splices, fnameTrunc, stemOP1, inp, marshal);
            out.Silent? <==>
              && inp.truncated
              && WindowSegments(secondsDuration, splices, fnameTrunc, inp).Ok?
              && inp.drawn
              && (inp.converted.None? || IndexOf(inp.converted.value, Container.SsndTag).None?)
  {
    assert HasSuffix(stemOP1 + ".aif", ".aif");
    var w := WindowSegments(secondsDuration, splices, fnameTrunc, inp);
    if w.Ok? && splices == 0 {
      assert w.value != [];
    }
  }

  /** A finished job returns a non-empty list whose segments all carry the
      window's bounds; with equal splices they are the n contiguous splices
      covering [0, secondsDuration]. */
  lemma JobDoneShape(jobStart: real, secondsMax: real, secondsDuration: real, splices: nat,
                     fnameTrunc: string, stemOP1: string, inp: WindowInput,
                     marshal: DrumFields -> Bytes)
    ensures var out := JobOutcomeOf(jobStart, secondsMax, secondsDuration, splices, fnameTrunc, stemOP1, inp, marshal);
            out.Done? ==>
              && out.segments != []
              && (forall i :: 0 <= i < |out.segments| ==>
                    out.segments[i].startAbs == jobStart && out.segments[i].endAbs == jobStart + secondsMax)
              && (splices > 0 ==>
                    && |out.segments| == splices
                    && out.segments[0].start == 0.0
                    && out.segments[splices - 1].end == secondsDuration
                    && (forall i :: 0 < i < splices ==> out.segments[i].start == out.segments[i - 1].end))
  {
    if splices > 0 {
      SplicesShape(secondsDuration, splices, fnameTrunc);
    }
  }

  /** The results a job puts on the channel: one, unless it is silent. */
  function Sent(outs: seq<JobOutcome>): (sent: seq<JobOutcome>)
    ensures |sent| <= |outs|
    ensures forall k :: 0 <= k < |sent| ==> !sent[k].Silent?
  {
    if outs == [] then []
    else Sent(outs[..|outs| - 1]) + (if outs[|outs| - 1].Silent? then [] else [outs[|outs| - 1]])
  }

  /** The segment lists of the finished jobs among the results, in order. */
  function DoneSegments(results: seq<JobOutcome>): seq<seq<AudioSegment>>
  {
    if results == [] then []
    else
      var last := results[|results| - 1];
      DoneSegments(results[..|results| - 1]) + (if last.Done? then [last.segments] else [])
  }

  /** What the collector returns: None when it waits forever for a result
      that never comes. */
  function Collected(numJobs: nat, results: seq<JobOutcome>): Option<seq<seq<AudioSegment>>>
  {
    if |results| < numJobs then None else Some(DoneSegments(results[..numJobs]))
  }

  /** The collector of SplitEqual (src/audiosegment/audiosegment.go:156-166):
      numJobs receives, skipping failed results.  results is what arrives
      on the channel, in arrival order; a receive past its end blocks for
      ever, which the model reports as None. */
  method Collect(numJobs: nat, results: seq<JobOutcome>) returns (allSegments: Option<seq<seq<AudioSegment>>>)
    ensures allSegments == Collected(numJobs, results)
  {
    var acc: seq<seq<AudioSegment>> := [];
    for i := 0 to numJobs
      invariant i <= |results| ==> acc == DoneSegments(results[..i])
      invariant i > |results| ==> |results| < numJobs
    {
      if i >= |results| {
        return None;
      }
      assert results[..i + 1][..i] == results[..i];
      var r := results[i];
      if !r.Done? {
        continue;
      }
      acc := acc + [r.segments];
    }
    if numJobs > |results| {
      return None;
    }
    return Some(acc);
  }

  /** Fewer results are sent than there are jobs exactly when some job is
      silent. */
  lemma {:induction false} SentShort(outs: seq<JobOutcome>)
    ensures |Sent(outs)| < |outs| <==> exists k :: 0 <= k < |outs| && outs[k].Silent?
  {
    if outs != [] {
      var init := outs[..|outs| - 1];
      SentShort(init);
      if exists k :: 0 <= k < |init| && init[k].Silent? {
        var k :| 0 <= k < |init| && init[k].Silent?;
        assert outs[k] == init[k];
      }
      if exists k :: 0 <= k < |outs| && outs[k].Silent? {
        var k :| 0 <= k < |outs| && outs[k].Silent?;
        if k < |init| {
          assert init[k] == outs[k];
        }
      }
    }
  }

  /** SplitEqual never returns when any job's Save fails: that job sends
      nothing and the collector waits for one result per window.  When no
      job is silent it returns the finished jobs' segments. */
  lemma SplitEqualHangs(outs: seq<JobOutcome>, arrival: seq<JobOutcome>)
    requires multiset(arrival) == multiset(Sent(outs))
    ensures Collected(|outs|, arrival).None? <==> exists k :: 0 <= k < |outs| && outs[k].Silent?
    ensures Collected(|outs|, arrival).Some? ==> Collected(|outs|, arrival) == Some(DoneSegments(arrival))
  {
    assert |arrival| == |multiset(arrival)| == |multiset(Sent(outs))| == |Sent(outs)|;
    SentShort(outs);
    assert arrival[..|arrival|] == arrival;
  }
}
