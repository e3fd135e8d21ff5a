/** Conversion of audio files to OP-1 drum patches (src/convert/convert.go):
    ToDrumSplice maps the silence-split segments of one file onto the slots
    of the default patch; ToDrum lays several files end to end, one slot
    each.  The external tools (ffmpeg's mono conversion, concatenation and
    AIFF conversion, the WAV sample count) are inputs: their results, or
    None when they failed. */
module Convert {
  import opened Common
  import opened Models
  import opened Drum
  import Container
  import Ffmpeg

  /** filepath.Ext: the suffix of the last path element that starts at its
      last '.', or "" when that element has no dot. */
  function Ext(path: string): (e: string)
    ensures HasSuffix(path, e)
    ensures e == [] || e[0] == '.'
    ensures '/' !in e
    ensures e != [] ==> '.' !in e[1..]
    ensures e == [] ==> forall k :: 0 <= k < |path| && path[k] == '.' ==> '/' in path[k..]
  {
    if path == [] || path[|path| - 1] == '/' then []
    else if path[|path| - 1] == '.' then "."
    else if Ext(path[..|path| - 1]) == [] then []
    else
      SuffixExtends(path, Ext(path[..|path| - 1]));
      Ext(path[..|path| - 1]) + [path[|path| - 1]]
  }

  /** A suffix of all but the last element, extended by the last element,
      is a suffix. */
  lemma SuffixExtends<T>(s: seq<T>, t: seq<T>)
    requires s != [] && HasSuffix(s[..|s| - 1], t)
    ensures HasSuffix(s, t + [s[|s| - 1]])
  {
    assert s[|s| - |t| - 1..] == s[..|s| - 1][|s| - 1 - |t|..] + [s[|s| - 1]];
  }

  /** The file half of filepath.Split: everything after the last '/'. */
  function FilePart(path: string): (f: string)
    ensures HasSuffix(path, f)
    ensures '/' !in f
    ensures |f| == |path| || path[|path| - |f| - 1] == '/'
  {
    if path == [] || path[|path| - 1] == '/' then []
    else
      SuffixExtends(path, FilePart(path[..|path| - 1]));
      FilePart(path[..|path| - 1]) + [path[|path| - 1]]
  }

  /** strings.TrimSuffix. */
  function TrimSuffix(s: string, suffix: string): (t: string)
    ensures HasSuffix(s, suffix) ==> t + suffix == s
    ensures !HasSuffix(s, suffix) ==> t == s
  {
    if HasSuffix(s, suffix) then s[..|s| - |suffix|] else s
  }

  const PatchSuffix: string := "_patch.aif"

  /** The name ToDrumSplice writes (src/convert/convert.go:27): the input's
      name with its extension replaced by "_patch.aif", so Save's ".aif"
      check always passes. */
  function PatchName(fname: string): (r: string)
    ensures HasSuffix(r, ".aif") && |r| >= |PatchSuffix|
    ensures r[..|r| - |PatchSuffix|] + Ext(fname) == fname
  {
    var stem := TrimSuffix(fname, Ext(fname));
    Suffixed(stem);
    stem + PatchSuffix
  }

  /** The name ToDrum writes (src/convert/convert.go:68-69): the first
      file's name, without its directory and extension, plus "_patch.aif". */
  function DrumName(fname: string): (r: string)
    ensures HasSuffix(r, ".aif") && |r| >= |PatchSuffix|
    ensures '/' !in r
    ensures r[..|r| - |PatchSuffix|] + Ext(fname) == FilePart(fname)
  {
    var stem := TrimSuffix(FilePart(fname), Ext(fname));
    PrefixKeepsOut(FilePart(fname), Ext(fname), '/');
    ExtInFilePart(fname);
    Suffixed(stem);
    stem + PatchSuffix
  }

  /** The extension lies within the file part of a path. */
  lemma {:induction false} ExtInFilePart(path: string)
    ensures HasSuffix(FilePart(path), Ext(path))
  {
    if path == [] || path[|path| - 1] == '/' || path[|path| - 1] == '.' {
    } else {
      var init := path[..|path| - 1];
      ExtInFilePart(init);
      if Ext(init) != [] {
        SuffixExtends(FilePart(path), Ext(init));
        assert FilePart(path)[..|FilePart(path)| - 1] == FilePart(init);
      }
    }
  }

  /** A stem with "_patch.aif" appended ends in ".aif", starts with the
      stem, and holds a '/' only if the stem does. */
  lemma Suffixed(stem: string)
    ensures var r := stem + PatchSuffix;
            && HasSuffix(r, ".aif") && |r| >= |PatchSuffix| && r[..|stem|] == stem
            && ('/' !in stem ==> '/' !in r)
  {
    var r := stem + PatchSuffix;
    assert r[|r| - 4..] == PatchSuffix[6..] == ".aif";
    assert r[..|stem|] == stem;
    if '/' !in stem {
      forall k | 0 <= k < |r|
        ensures r[k] != '/'
      {
        if k >= |stem| {
          assert r[k] == PatchSuffix[k - |stem|];
        }
      }
    }
  }

  /** Trimming a suffix adds no new element. */
  lemma PrefixKeepsOut(s: string, suffix: string, c: char)
    requires c !in s
    ensures c !in TrimSuffix(s, suffix)
  {
    if HasSuffix(s, suffix) {
      assert forall k :: 0 <= k < |s| - |suffix| ==> TrimSuffix(s, suffix)[k] == s[k];
    }
  }

  datatype ConvertError =
    | NoFiles                  // "no files!"
    | MonoFailed               // ffmpeg.ToMono failed
    | SplitFailed(split: SplitError)
    | ProbeFailed              // ToMono or NumSamples failed for one of several files
    | ConcatFailed             // ffmpeg.Concatenate failed
    | SaveFailed(save: SaveError)

  /** What the tools give ToDrumSplice: the mono file's name (None when
      ToMono failed), ffmpeg's silencedetect output for it, and the AIFF
      bytes Save converts it to (None when that failed). */
  datatype SpliceInput = SpliceInput(mono: Option<string>, events: seq<Ffmpeg.Event>, converted: Option<Bytes>)

  function Saved(r: Result<Bytes, SaveError>): Result<Bytes, ConvertError>
  {
    match r
    case Ok(b) => Ok(b)
    case Err(e) => Err(SaveFailed(e))
  }

  /** Reference outcome of ToDrumSplice (src/convert/convert.go:26-58):
      the mono file is split with threshold -22 dB, minimum 0.2 s and
      correction -0.2 s. */
  function SpliceOutcome(fname: string, inp: SpliceInput, marshal: DrumFields -> Bytes): Result<Bytes, ConvertError>
  {
    if inp.mono.None? then Err(MonoFailed)
    else match Ffmpeg.SplitOutcome(inp.events, inp.mono.value, -0.2)
      case Err(e) => Err(SplitFailed(e))
      case Ok(segs) => Saved(SaveOutcome(PatchName(fname), inp.converted, MappedFields(segs), marshal))
  }

  /** The slot loop of ToDrumSplice (src/convert/convert.go:38-51) on a
      fresh default patch. */
  method MapSegments(op1data: DrumPatch, segments: seq<AudioSegment>)
    requires op1data.Fields() == DefaultFields
    modifies op1data
    ensures op1data.Fields() == MappedFields(segments)
  {
    for i := 0 to |segments|
      invariant op1data.Fields() == MappedFields(segments[..i])
    {
      WriteSlot(op1data, segments, i);
    }
    assert segments[..|segments|] == segments;
  }

  /** ToDrumSplice (src/convert/convert.go:26-58). */
  method ToDrumSplice(fname: string, inp: SpliceInput, marshal: DrumFields -> Bytes)
    returns (r: Result<Bytes, ConvertError>)
    ensures r == SpliceOutcome(fname, inp, marshal)
  {
    if inp.mono.None? {
      return Err(MonoFailed);
    }
    var fname2 := inp.mono.value;
    var split := Ffmpeg.SplitOnSilence(inp.events, fname2, -22, 0.2, -0.2);
    if split.Err? {
      return Err(SplitFailed(split.error));
    }
    var segments := split.value;
    var op1data := new DrumPatch();
    MapSegments(op1data, segments);
    var saved := op1data.Save(PatchName(fname), inp.converted, marshal);
    r := Saved(saved);
  }

  /** ToDrumSplice fails only where a tool fails, the split finds nothing or
      the converted file has no "SSND" tag: the name it writes always ends
      in ".aif". */
  lemma SpliceSucceeds(fname: string, inp: SpliceInput, marshal: DrumFields -> Bytes)
    ensures SpliceOutcome(fname, inp, marshal).Ok? <==>
              && inp.mono.Some?
              && Ffmpeg.SplitOutcome(inp.events, inp.mono.value, -0.2).Ok?
              && inp.converted.Some?
              && IndexOf(inp.converted.value, Container.SsndTag).Some?
  {
    assert HasSuffix(PatchName(fname), ".aif");
  }

  /** 44100 * 12: twelve seconds of samples, the most a drum patch holds. */
  const MaxSamples: int := 44100 * 12

  /** OP-1 position units per sample. */
  const PositionUnit: int := 4058

  /** One file given to ToDrum: its name and its sample count (None when
      ToMono or NumSamples failed for it). */
  datatype Source = Source(name: string, samples: Option<nat>)

  function Clamp(n: int): int
  {
    if n > MaxSamples then MaxSamples else n
  }

  function Total(ns: seq<nat>): nat
  {
    if ns == [] then 0 else Total(ns[..|ns| - 1]) + ns[|ns| - 1]
  }

  /** The end after the files with counts ns: each count added to the
      previous end, clamped to MaxSamples (src/convert/convert.go:87-93). */
  function RunningEnd(ns: seq<nat>): int
  {
    if ns == [] then 0 else Clamp(ns[|ns| - 1] + RunningEnd(ns[..|ns| - 1]))
  }

  /** Reference definition of the sampleEnd slice: the running end after
      each file. */
  function CumulativeEnds(ns: seq<nat>): (es: seq<int>)
    ensures |es| == |ns|
    ensures forall i :: 0 <= i < |ns| ==> es[i] == RunningEnd(ns[..i + 1])
  {
    seq(|ns|, i requires 0 <= i < |ns| => RunningEnd(ns[..i + 1]))
  }

  /** Because counts are never negative, clamping at every step equals
      clamping the running total once. */
  lemma {:induction false} RunningEndClamped(ns: seq<nat>)
    ensures RunningEnd(ns) == Clamp(Total(ns))
  {
    if ns != [] {
      RunningEndClamped(ns[..|ns| - 1]);
    }
  }

  lemma {:induction false} TotalMonotone(ns: seq<nat>, i: nat, j: nat)
    requires i <= j <= |ns|
    ensures Total(ns[..i]) <= Total(ns[..j])
  {
    if i < j {
      TotalMonotone(ns, i, j - 1);
      assert ns[..j][..j - 1] == ns[..j - 1];
    }
  }

  /** The ends are the clamped prefix sums, so they never decrease and stay
      within [0, MaxSamples]. */
  lemma CumulativeEndsClamped(ns: seq<nat>)
    ensures var es := CumulativeEnds(ns);
            && (forall i :: 0 <= i < |ns| ==> es[i] == Clamp(Total(ns[..i + 1])))
            && (forall i :: 0 <= i < |ns| ==> 0 <= es[i] <= MaxSamples)
            && (forall i, j :: 0 <= i <= j < |ns| ==> es[i] <= es[j])
  {
    var es := CumulativeEnds(ns);
    forall i | 0 <= i < |ns|
      ensures es[i] == Clamp(Total(ns[..i + 1]))
    {
      RunningEndClamped(ns[..i + 1]);
    }
    forall i, j | 0 <= i <= j < |ns|
      ensures es[i] <= es[j]
    {
      TotalMonotone(ns, i + 1, j + 1);
    }
  }

  /** Reference definition of the Start half of the layout loop
      (src/convert/convert.go:105-117): slot i < |ends| starts at the
      previous end (slot 0 at 0), in position units; later slots keep start0. */
  function LayoutStarts(ends: seq<int>, start0: seq<int>): (s: seq<int>)
    ensures |s| == |start0|
  {
    seq(|start0|, i requires 0 <= i < |start0| =>
      if i < |ends| then (if i == 0 then 0 else ends[i - 1] * PositionUnit) else start0[i])
  }

  /** The End half of the layout loop: slot i < |ends| ends at ends[i]. */
  function LayoutEnds(ends: seq<int>, end0: seq<int>): (e: seq<int>)
    ensures |e| == |end0|
  {
    seq(|end0|, i requires 0 <= i < |end0| => if i < |ends| then ends[i] * PositionUnit else end0[i])
  }

  function LayoutFields(ends: seq<int>): DrumFields
  {
    DefaultFields.(start := LayoutStarts(ends, DefaultStart), end := LayoutEnds(ends, DefaultEnd))
  }

  predicate AllProbed(files: seq<Source>)
  {
    forall k :: 0 <= k < |files| ==> files[k].samples.Some?
  }

  /** The sample counts, 0 for a file that failed. */
  function Counts(files: seq<Source>): (ns: seq<nat>)
    ensures |ns| == |files|
    ensures forall k :: 0 <= k < |files| && files[k].samples.Some? ==> ns[k] == files[k].samples.value
  {
    seq(|files|, k requires 0 <= k < |files| => if files[k].samples.Some? then files[k].samples.value else 0)
  }

  /** Reference outcome of ToDrum (src/convert/convert.go:60-124). single
      holds the tools' results for the one-file case; concatOk says whether
      ffmpeg.Concatenate succeeded and converted is the AIFF conversion of
      the concatenation. */
  function ToDrumOutcome(files: seq<Source>, single: SpliceInput, concatOk: bool,
                         converted: Option<Bytes>, marshal: DrumFields -> Bytes): Result<Bytes, ConvertError>
  {
    if |files| == 0 then Err(NoFiles)
    else if |files| == 1 then SpliceOutcome(files[0].name, single, marshal)
    else if !AllProbed(files) then Err(ProbeFailed)
    else if !concatOk then Err(ConcatFailed)
    else Saved(SaveOutcome(DrumName(files[0].name), converted, LayoutFields(CumulativeEnds(Counts(files))), marshal))
  }

  /** The sampleEnd loop of ToDrum (src/convert/convert.go:73-95): false
      as soon as a file fails, otherwise the running ends. */
  method SampleEnds(files: seq<Source>) returns (probed: bool, sampleEnd: array<int>)
    ensures probed <==> AllProbed(files)
    ensures probed ==> sampleEnd[..] == CumulativeEnds(Counts(files))
  {
    ghost var ns := Counts(files);
    sampleEnd := new int[|files|];
    for i := 0 to |files|
      invariant forall k :: 0 <= k < i ==> files[k].samples.Some?
      invariant forall k :: 0 <= k < i ==> sampleEnd[k] == RunningEnd(ns[..k + 1])
    {
      if files[i].samples.None? {
        return false, sampleEnd;
      }
      assert ns[..i + 1][..i] == ns[..i];
      sampleEnd[i] := files[i].samples.value;
      if i > 0 {
        sampleEnd[i] := sampleEnd[i] + sampleEnd[i - 1];
      }
      if sampleEnd[i] > MaxSamples {
        sampleEnd[i] := MaxSamples;
      }
    }
    assert sampleEnd[..] == CumulativeEnds(ns);
    probed := true;
  }

  /** The layout loop of ToDrum (src/convert/convert.go:105-117) on a fresh
      default patch: it stops at the 24th slot or after the last file. */
  method LayOut(drumPatch: DrumPatch, sampleEnd: array<int>)
    requires drumPatch.Fields() == DefaultFields
    modifies drumPatch
    ensures drumPatch.Fields() == LayoutFields(sampleEnd[..])
  {
    ghost var ends := sampleEnd[..];
    var i := 0;
    while i < |drumPatch.start|
      modifies drumPatch`start, drumPatch`end
      invariant i <= |ends| && i <= 24
      invariant drumPatch.Fields() == LayoutFields(ends[..i])
    {
      if i == sampleEnd.Length {
        break;
      }
      LayoutStep(ends, i);
      if i == 0 {
        drumPatch.start := drumPatch.start[i := 0];
      } else {
        drumPatch.start := drumPatch.start[i := sampleEnd[i - 1] * PositionUnit];
      }
      drumPatch.end := drumPatch.end[i := sampleEnd[i] * PositionUnit];
      i := i + 1;
    }
    LayoutWhole(ends, i);
  }

  /** One pass of the layout loop writes slot i from the ends. */
  lemma LayoutStep(ends: seq<int>, i: nat)
    requires i < |ends| && i < 24
    ensures var f := LayoutFields(ends[..i]);
            LayoutFields(ends[..i + 1])
              == f.(start := f.start[i := if i == 0 then 0 else ends[i - 1] * PositionUnit],
                    end := f.end[i := ends[i] * PositionUnit])
  {
    var f := LayoutFields(ends[..i]);
    var g := LayoutFields(ends[..i + 1]);
    assert g.start == f.start[i := if i == 0 then 0 else ends[i - 1] * PositionUnit];
    assert g.end == f.end[i := ends[i] * PositionUnit];
  }

  /** The loop stops after the last file or the last slot; the ends it has
      not reached do not matter. */
  lemma LayoutWhole(ends: seq<int>, i: nat)
    requires i <= |ends| && (i == |ends| || i >= 24)
    ensures LayoutFields(ends[..i]) == LayoutFields(ends)
  {
    if i < |ends| {
      assert LayoutStarts(ends[..i], DefaultStart) == LayoutStarts(ends, DefaultStart);
      assert LayoutEnds(ends[..i], DefaultEnd) == LayoutEnds(ends, DefaultEnd);
    } else {
      assert ends[..i] == ends;
    }
  }

  /** ToDrum (src/convert/convert.go:60-124). */
  method ToDrum(files: seq<Source>, single: SpliceInput, concatOk: bool,
                converted: Option<Bytes>, marshal: DrumFields -> Bytes)
    returns (r: Result<Bytes, ConvertError>)
    ensures r == ToDrumOutcome(files, single, concatOk, converted, marshal)
  {
    if |files| == 0 {
      return Err(NoFiles);
    }
    if |files| == 1 {
      r := ToDrumSplice(files[0].name, single, marshal);
      return;
    }
    var probed, sampleEnd := SampleEnds(files);
    if !probed {
      return Err(ProbeFailed);
    }
    if !concatOk {
      return Err(ConcatFailed);
    }
    var drumPatch := new DrumPatch();
    LayOut(drumPatch, sampleEnd);
    var saved := drumPatch.Save(DrumName(files[0].name), converted, marshal);
    r := Saved(saved);
  }

  /** The slots ToDrum writes for files with counts ns: slot i < min(24, |ns|)
      starts where slot i-1 ends (slot 0 at 0) and ends at the clamped
      running total in position units, at most 529200 * 4058; the slots
      after the last file keep their defaults. */
  lemma ToDrumLayout(ns: seq<nat>)
    ensures var f := LayoutFields(CumulativeEnds(ns));
            && (forall i :: 0 <= i < 24 && i < |ns| ==>
                  && f.start[i] == (if i == 0 then 0 else f.end[i - 1])
                  && f.end[i] == Clamp(Total(ns[..i + 1])) * PositionUnit
                  && 0 <= f.start[i] <= f.end[i] <= MaxSamples * PositionUnit)
            && (forall i :: |ns| <= i < 24 ==> f.start[i] == DefaultStart[i] && f.end[i] == DefaultEnd[i])
  {
    var es := CumulativeEnds(ns);
    CumulativeEndsClamped(ns);
    var s := LayoutStarts(es, DefaultStart);
    var e := LayoutEnds(es, DefaultEnd);
    forall i | 0 <= i < 24 && i < |ns|
      ensures e[i] == es[i] * PositionUnit <= MaxSamples * PositionUnit
      ensures 0 <= s[i] <= e[i]
    {
      if i > 0 {
        assert es[i - 1] <= es[i];
      }
    }
  }

  /** The written ends are not 32-bit safe: slot i's end exceeds 2^31 - 1
      exactly when the running total reaches 529198 samples, although the
      clamp at 529200 samples was chosen with a 32-bit bound in mind
      (529200 * 4058 = 2147493600 = 2^31 - 1 + 9953). */
  lemma ToDrumEndsPastInt32(ns: seq<nat>, i: nat)
    requires i < 24 && i < |ns|
    ensures MaxSamples * PositionUnit == 0x7FFF_FFFF + 9953
    ensures LayoutFields(CumulativeEnds(ns)).end[i] > 0x7FFF_FFFF <==> Total(ns[..i + 1]) >= 529198
  {
    RunningEndClamped(ns[..i + 1]);
  }
}
