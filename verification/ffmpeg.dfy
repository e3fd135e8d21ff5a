/** The silence splitter driven by ffmpeg's silencedetect output
    (src/ffmpeg/ffmpeg.go:135-230).  The command's output lines come in
    already classified and parsed: a "silence_end: t" line, a "time=t"
    progress line, or a line whose time did not parse. */
module Ffmpeg {
  import opened Common
  import opened Models

  datatype Event =
    | SilenceEnd(seconds: real)   // a line holding "silence_end"
    | TimeMark(seconds: real)     // a line holding "time="
    | Unparsed                    // ConvertToSeconds failed: logged and skipped

  /** Segments shorter than this are dropped (silence_end) or merged into
      the previous one (time=). */
  const MergeBelow: real := 0.25

  /** The loop's state: where the next segment starts and the segments so far. */
  datatype ScanState = ScanState(start: real, segments: seq<AudioSegment>)

  /** One output line (src/ffmpeg/ffmpeg.go:185-212). */
  function Step(st: ScanState, ev: Event, fname: string, correction: real): (next: ScanState)
    ensures next.start == if ev.SilenceEnd? then ev.seconds + correction else st.start
    ensures |st.segments| <= |next.segments| <= |st.segments| + 1
    ensures ev.Unparsed? ==> next == st
  {
    match ev
    case SilenceEnd(t) =>
      var seg := Segment(st.start, t + correction, fname);
      ScanState(t + correction, if seg.duration > MergeBelow then st.segments + [seg] else st.segments)
    case TimeMark(t) =>
      var seg := Segment(st.start, t, fname);
      if seg.duration < MergeBelow && |st.segments| > 0 then
        var last := st.segments[|st.segments| - 1];
        ScanState(st.start, st.segments[|st.segments| - 1 := last.(end := t, duration := t - last.start)])
      else ScanState(st.start, st.segments + [seg])
    case Unparsed => st
  }

  /** The state after a prefix of the output, starting at 0 with no segments. */
  function Scan(events: seq<Event>, fname: string, correction: real): (st: ScanState)
    ensures |st.segments| <= |events|
  {
    if events == [] then ScanState(0.0, [])
    else Step(Scan(events[..|events| - 1], fname, correction), events[|events| - 1], fname, correction)
  }

  /** Every segment is well formed: duration End - Start, the file's name,
      and zero window bounds. */
  predicate WellFormedSegments(segs: seq<AudioSegment>, fname: string)
  {
    forall k :: 0 <= k < |segs| ==>
      && segs[k].duration == segs[k].end - segs[k].start
      && segs[k].filename == fname
      && segs[k].startAbs == 0.0 && segs[k].endAbs == 0.0
  }

  /** A step keeps every stored segment well formed, and it changes at most
      the last stored segment, only its end and duration. */
  lemma StepPreserves(st: ScanState, ev: Event, fname: string, correction: real)
    requires WellFormedSegments(st.segments, fname)
    ensures var next := Step(st, ev, fname, correction);
            && WellFormedSegments(next.segments, fname)
            && |st.segments| <= |next.segments| <= |st.segments| + 1
            && (|st.segments| > 0 ==> next.segments[..|st.segments| - 1] == st.segments[..|st.segments| - 1])
            && (|st.segments| > 0 ==> next.segments[|st.segments| - 1].start == st.segments[|st.segments| - 1].start)
  {
  }

  lemma {:induction false} ScanWellFormed(events: seq<Event>, fname: string, correction: real)
    ensures WellFormedSegments(Scan(events, fname, correction).segments, fname)
  {
    if events != [] {
      ScanWellFormed(events[..|events| - 1], fname, correction);
      StepPreserves(Scan(events[..|events| - 1], fname, correction), events[|events| - 1], fname, correction);
    }
  }

  /** After a silence_end at t the next segment starts at t + correction,
      whether or not the closed segment was kept; a kept one is
      [Start, t + correction] and longer than 0.25 s. */
  lemma SilenceEndRestarts(st: ScanState, t: real, fname: string, correction: real)
    ensures var next := Step(st, SilenceEnd(t), fname, correction);
            && next.start == t + correction
            && (|next.segments| > |st.segments| <==> t + correction - st.start > MergeBelow)
            && (|next.segments| > |st.segments| ==>
                  next.segments[|st.segments|].start == st.start
                  && next.segments[|st.segments|].end == t + correction)
  {
  }

  /** After a time= line at t the start stays.  A segment [Start, t] shorter
      than 0.25 s with one stored before it moves the last stored
      segment's end to t, with its duration recomputed; otherwise [Start, t]
      is stored after the others. */
  lemma TimeMarkStep(st: ScanState, t: real, fname: string, correction: real)
    ensures var next := Step(st, TimeMark(t), fname, correction);
            var n := |st.segments|;
            && next.start == st.start
            && (t - st.start < MergeBelow && n > 0 ==>
                  && |next.segments| == n
                  && next.segments[..n - 1] == st.segments[..n - 1]
                  && next.segments[n - 1].start == st.segments[n - 1].start
                  && next.segments[n - 1].filename == st.segments[n - 1].filename
                  && next.segments[n - 1].end == t
                  && next.segments[n - 1].duration == t - st.segments[n - 1].start)
            && (t - st.start >= MergeBelow || n == 0 ==>
                  && |next.segments| == n + 1
                  && next.segments[..n] == st.segments
                  && next.segments[n].start == st.start
                  && next.segments[n].end == t
                  && next.segments[n].duration == t - st.start
                  && next.segments[n].filename == fname)
  {
  }

  /** The raw segments, then the filter: SplitOnSilence's result. */
  function SplitOutcome(events: seq<Event>, fname: string, correction: real): Result<seq<AudioSegment>, SplitError>
  {
    var kept := LongOnly(Scan(events, fname, correction).segments);
    if kept == [] then Err(NoSegments) else Ok(kept)
  }

  /** SplitOnSilence (src/ffmpeg/ffmpeg.go:165-229) on the parsed output
      lines; silenceDB and silenceMinimumSeconds only shape the command. */
  method SplitOnSilence(events: seq<Event>, fname: string, silenceDB: int, silenceMinimumSeconds: real,
                        correction: real) returns (r: Result<seq<AudioSegment>, SplitError>)
    ensures r == SplitOutcome(events, fname, correction)
  {
    var start := 0.0;
    var segments: seq<AudioSegment> := [];
    for i := 0 to |events|
      invariant ScanState(start, segments) == Scan(events[..i], fname, correction)
    {
      assert events[..i + 1][..i] == events[..i];
      match events[i] {
        case SilenceEnd(seconds) =>
          var end := seconds + correction;
          var segment := Segment(start, end, fname);
          if segment.duration > MergeBelow {
            segments := segments + [segment];
          }
          start := seconds + correction;
        case TimeMark(seconds) =>
          var segment := Segment(start, seconds, fname);
          if segment.duration < MergeBelow && |segments| > 0 {
            var last := segments[|segments| - 1];
            segments := segments[|segments| - 1 := last.(end := seconds, duration := seconds - last.start)];
          } else {
            segments := segments + [segment];
          }
        case Unparsed =>
      }
    }
    assert events[..|events|] == events;
    r := KeepLong(segments);
  }

  /** Every segment returned is well formed, longer than 0.1 s and one the
      scan produced, in the scan's order. */
  lemma SplitOutcomeSegments(events: seq<Event>, fname: string, correction: real)
    ensures var r := SplitOutcome(events, fname, correction);
            r.Ok? ==> && WellFormedSegments(r.value, fname)
                      && (forall k :: 0 <= k < |r.value| ==> r.value[k].duration > MinDuration)
                      && (forall x :: x in r.value <==>
                            (x in Scan(events, fname, correction).segments && x.duration > MinDuration))
  {
    var raw := Scan(events, fname, correction).segments;
    ScanWellFormed(events, fname, correction);
    forall x
      ensures x in LongOnly(raw) <==> x in raw && x.duration > MinDuration
    {
      LongOnlyMembers(raw, x);
    }
  }
}
