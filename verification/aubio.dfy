/** The onset splitter driven by aubioonset (src/aubio/aubio.go:15-68).
    The tool's output lines come in as ParseFloat results, None for a line
    that does not parse; the file's duration (samples / rate, from
    ffmpeg.NumSamples) is an input. */
module Aubio {
  import opened Common
  import opened Models

  /** The onsets the loop uses: lines that parse, other than 0. */
  function Onsets(lines: seq<Option<real>>): (ts: seq<real>)
    ensures forall k :: 0 <= k < |ts| ==> ts[k] != 0.0
  {
    if lines == [] then []
    else
      var last := lines[|lines| - 1];
      Onsets(lines[..|lines| - 1]) + (if last.Some? && last.value != 0.0 then [last.value] else [])
  }

  /** The onsets of two runs of lines are those of the first run, then
      those of the second: every line is used in order. */
  lemma {:induction false} OnsetsAppend(a: seq<Option<real>>, b: seq<Option<real>>)
    ensures Onsets(a + b) == Onsets(a) + Onsets(b)
    decreases |b|
  {
    if b == [] {
      assert a + b == a;
    } else {
      var b' := b[..|b| - 1];
      assert (a + b)[..|a + b| - 1] == a + b';
      OnsetsAppend(a, b');
    }
  }

  /** A time is an onset exactly when some line parsed to it and it is not 0. */
  lemma {:induction false} OnsetsMembers(lines: seq<Option<real>>, t: real)
    ensures t in Onsets(lines) <==> t != 0.0 && Some(t) in lines
  {
    if lines != [] {
      var init := lines[..|lines| - 1];
      OnsetsMembers(init, t);
      assert lines == init + [lines[|lines| - 1]];
    }
  }

  /** One segment per onset, each from the previous onset (from first for
      the first one) to this one. */
  function Chain(first: real, ts: seq<real>, fname: string): (segs: seq<AudioSegment>)
    ensures |segs| == |ts|
  {
    if ts == [] then []
    else Chain(first, ts[..|ts| - 1], fname)
         + [Segment(if |ts| == 1 then first else ts[|ts| - 2], ts[|ts| - 1], fname)]
  }

  /** Where the next segment starts after the onsets. */
  function LastStart(ts: seq<real>): real
  {
    if ts == [] then 0.0 else ts[|ts| - 1]
  }

  /** Appending an onset t adds the segment from the last start to t. */
  lemma ChainSnoc(ts: seq<real>, t: real, fname: string)
    ensures Chain(0.0, ts + [t], fname) == Chain(0.0, ts, fname) + [Segment(LastStart(ts), t, fname)]
  {
    assert (ts + [t])[..|ts|] == ts;
  }

  /** The segments before the filter: the chain, then the tail up to the
      end of the file when the last onset is before it. */
  function RawSegments(lines: seq<Option<real>>, duration: real, fname: string): seq<AudioSegment>
  {
    var ts := Onsets(lines);
    Chain(0.0, ts, fname)
    + (if LastStart(ts) < duration then [Segment(LastStart(ts), duration, fname)] else [])
  }

  /** The chain is contiguous from first on and its last segment ends at the
      last onset. */
  lemma {:induction false} ChainContiguous(first: real, ts: seq<real>, fname: string)
    ensures Contiguous(Chain(first, ts, fname), first)
    ensures forall k :: 0 <= k < |ts| ==> Chain(first, ts, fname)[k].end == ts[k]
    ensures forall k :: 0 <= k < |ts| ==> Chain(first, ts, fname)[k].filename == fname
  {
    if ts != [] {
      ChainContiguous(first, ts[..|ts| - 1], fname);
    }
  }

  /** The raw segments are contiguous from 0, all carry the file's name,
      and a tail segment exists exactly when the last start is before the
      end of the file, ending there. */
  lemma RawSegmentsShape(lines: seq<Option<real>>, duration: real, fname: string)
    ensures var raw := RawSegments(lines, duration, fname);
            var ts := Onsets(lines);
            && Contiguous(raw, 0.0)
            && (forall k :: 0 <= k < |raw| ==> raw[k].filename == fname)
            && (|raw| == |ts| + 1 <==> LastStart(ts) < duration)
            && (LastStart(ts) < duration ==> raw[|raw| - 1].end == duration)
  {
    var ts := Onsets(lines);
    ChainContiguous(0.0, ts, fname);
    var chain := Chain(0.0, ts, fname);
    if ts != [] {
      assert chain[|chain| - 1].end == LastStart(ts);
    }
  }

  /** The filtered result, as SplitOnSilence returns it. */
  function SplitOutcome(lines: seq<Option<real>>, duration: real, fname: string): Result<seq<AudioSegment>, SplitError>
  {
    var kept := LongOnly(RawSegments(lines, duration, fname));
    if kept == [] then Err(NoSegments) else Ok(kept)
  }

  /** SplitOnSilence (src/aubio/aubio.go:15-68).  The command is fixed
      ("-s -30"), so silenceDB, silenceMinimumSeconds and correction play no
      part: the contract does not mention them. */
  method SplitOnSilence(lines: seq<Option<real>>, duration: real, fname: string, silenceDB: int,
                        silenceMinimumSeconds: real, correction: real)
    returns (r: Result<seq<AudioSegment>, SplitError>)
    ensures r == SplitOutcome(lines, duration, fname)
  {
    var start := 0.0;
    var segments: seq<AudioSegment> := [];
    for i := 0 to |lines|
      invariant segments == Chain(0.0, Onsets(lines[..i]), fname)
      invariant start == LastStart(Onsets(lines[..i]))
    {
      assert lines[..i + 1][..i] == lines[..i];
      var seconds := lines[i];
      if seconds.None? {
        assert Onsets(lines[..i + 1]) == Onsets(lines[..i]);
        continue;
      }
      if seconds.value == 0.0 {
        assert Onsets(lines[..i + 1]) == Onsets(lines[..i]);
        continue;
      }
      assert Onsets(lines[..i + 1]) == Onsets(lines[..i]) + [seconds.value];
      ChainSnoc(Onsets(lines[..i]), seconds.value, fname);
      segments := segments + [Segment(start, seconds.value, fname)];
      start := seconds.value;
    }
    assert lines[..|lines|] == lines;
    if start < duration {
      segments := segments + [Segment(start, duration, fname)];
    }
    assert segments == RawSegments(lines, duration, fname);
    r := KeepLong(segments);
  }
}
