/** The prototype in main.go: getsilences, which cuts a file at the times
    ffmpeg's silencedetect reports and merges the pieces into files of at
    most 11.5 seconds, and run, which replaces the OP-1 chunk of an AIFF
    file.  The ffmpeg calls, files and printing are not modelled; the
    detector's output comes in parsed, json.Unmarshal and json.Marshal are
    function parameters. */
module MainProgram {
  import opened Common
  import opened Models
  import opened Drum
  import Container
  import Aubio
  import Ffmpeg

  // ---------------------------------------------------------------------
  // getsilences: the segment builder (main.go:83-104)

  /** The times of the lines that parse, silence_end and time= alike. */
  function Times(events: seq<Ffmpeg.Event>): (ts: seq<real>)
    ensures |ts| <= |events|
  {
    if events == [] then []
    else
      var last := events[|events| - 1];
      Times(events[..|events| - 1]) + (if last.Unparsed? then [] else [last.seconds])
  }

  /** The times of two runs of lines are those of the first run, then those
      of the second: every parsed line is used in order. */
  lemma {:induction false} TimesAppend(a: seq<Ffmpeg.Event>, b: seq<Ffmpeg.Event>)
    ensures Times(a + b) == Times(a) + Times(b)
    decreases |b|
  {
    if b == [] {
      assert a + b == a;
    } else {
      var b' := b[..|b| - 1];
      assert (a + b)[..|a + b| - 1] == a + b';
      TimesAppend(a, b');
    }
  }

  /** A time is used exactly when a silence_end or time= line parsed to it. */
  lemma {:induction false} TimesMembers(events: seq<Ffmpeg.Event>, t: real)
    ensures t in Times(events) <==> Ffmpeg.SilenceEnd(t) in events || Ffmpeg.TimeMark(t) in events
  {
    if events != [] {
      var init := events[..|events| - 1];
      TimesMembers(init, t);
      assert events == init + [events[|events| - 1]];
    }
  }

  /** Each parsed time closes a segment begun where the previous one ended;
      the file names are set later. */
  function BuiltSegments(events: seq<Ffmpeg.Event>): seq<AudioSegment>
  {
    Aubio.Chain(0.0, Times(events), "")
  }

  /** The builder loop of getsilences (main.go:83-104). */
  method BuildSegments(events: seq<Ffmpeg.Event>) returns (segments: seq<AudioSegment>)
    ensures segments == BuiltSegments(events)
  {
    var start := 0.0;
    segments := [];
    for i := 0 to |events|
      invariant segments == Aubio.Chain(0.0, Times(events[..i]), "")
      invariant start == Aubio.LastStart(Times(events[..i]))
    {
      assert events[..i + 1][..i] == events[..i];
      if events[i].Unparsed? {
        assert Times(events[..i + 1]) == Times(events[..i]);
        continue;
      }
      var seconds := events[i].seconds;
      assert Times(events[..i + 1]) == Times(events[..i]) + [seconds];
      Aubio.ChainSnoc(Times(events[..i]), seconds, "");
      segments := segments + [Segment(start, seconds, "")];
      start := seconds;
    }
    assert events[..|events|] == events;
  }

  /** The built segments are contiguous from 0, one per parsed time, each
      ending at its time. */
  lemma BuiltSegmentsShape(events: seq<Ffmpeg.Event>)
    ensures var segs := BuiltSegments(events);
            && Contiguous(segs, 0.0)
            && |segs| == |Times(events)|
            && (forall k :: 0 <= k < |segs| ==> segs[k].end == Times(events)[k])
  {
    Aubio.ChainContiguous(0.0, Times(events), "");
  }

  /** The naming loop (main.go:107-114): segment i becomes file name(i). */
  function Named(segs: seq<AudioSegment>, name: nat -> string): (r: seq<AudioSegment>)
    ensures |r| == |segs|
  {
    seq(|segs|, i requires 0 <= i < |segs| => segs[i].(filename := name(i)))
  }

  // ---------------------------------------------------------------------
  // getsilences: the greedy grouping (main.go:117-141)

  /** No merged file is planned longer than this, unless it holds one piece. */
  const MergeCap: real := 11.5

  /** Total duration of a group. */
  function Total(g: seq<AudioSegment>): real
  {
    if g == [] then 0.0 else Total(g[..|g| - 1]) + g[|g| - 1].duration
  }

  /** The groups joined end to end. */
  function Flatten<T>(gs: seq<seq<T>>): seq<T>
  {
    if gs == [] then [] else Flatten(gs[..|gs| - 1]) + gs[|gs| - 1]
  }

  /** The grouping loop's state: the groups already merged, the group being
      filled, and currentLength. */
  datatype GroupState = GroupState(closed: seq<seq<AudioSegment>>, current: seq<AudioSegment>, currentLength: real)

  /** One segment: when it would take the group past the cap the group is
      merged and a new one starts with it; otherwise it joins the group. */
  function GroupStep(st: GroupState, seg: AudioSegment): GroupState
  {
    if seg.duration + st.currentLength > MergeCap then
      GroupState(st.closed + [st.current], [seg], 0.0 + seg.duration)
    else
      GroupState(st.closed, st.current + [seg], st.currentLength + seg.duration)
  }

  function GroupScan(segs: seq<AudioSegment>): GroupState
  {
    if segs == [] then GroupState([], [], 0.0)
    else GroupStep(GroupScan(segs[..|segs| - 1]), segs[|segs| - 1])
  }

  /** The groups handed to MergeAudioFiles, in order: the closed ones, then
      the last one, which is merged whatever it holds. */
  function Groups(segs: seq<AudioSegment>): seq<seq<AudioSegment>>
  {
    GroupScan(segs).closed + [GroupScan(segs).current]
  }

  /** Every group of two or more pieces lasts at most the cap. */
  predicate Capped(gs: seq<seq<AudioSegment>>)
  {
    forall k :: 0 <= k < |gs| && |gs[k]| >= 2 ==> Total(gs[k]) <= MergeCap
  }

  /** Every group but the first has a piece, and that piece would have taken
      the group before it past the cap. */
  predicate ClosedWhenFull(gs: seq<seq<AudioSegment>>)
  {
    forall j :: 0 < j < |gs| ==> gs[j] != [] && Total(gs[j - 1]) + gs[j][0].duration > MergeCap
  }

  /** The first group is empty exactly when there are no segments or the
      first one alone passes the cap. */
  predicate FirstEmptyIff(gs: seq<seq<AudioSegment>>, segs: seq<AudioSegment>)
  {
    |gs| > 0 && (gs[0] == [] <==> segs == [] || segs[0].duration > MergeCap)
  }

  /** What the loop keeps true of the groups so far. */
  predicate GroupInv(st: GroupState, segs: seq<AudioSegment>)
  {
    var gs := st.closed + [st.current];
    && Flatten(gs) == segs
    && st.currentLength == Total(st.current)
    && Capped(gs)
    && ClosedWhenFull(gs)
    && FirstEmptyIff(gs, segs)
  }

  lemma TotalSnoc(g: seq<AudioSegment>, seg: AudioSegment)
    ensures Total(g + [seg]) == Total(g) + seg.duration
  {
    assert (g + [seg])[..|g|] == g;
  }

  lemma FlattenSnoc<T>(gs: seq<seq<T>>, g: seq<T>)
    ensures Flatten(gs + [g]) == Flatten(gs) + g
  {
    assert (gs + [g])[..|gs|] == gs;
  }

  /** No segments so far means no group so far, only an empty current one. */
  lemma NothingYet(st: GroupState)
    requires GroupInv(st, [])
    ensures st.closed == [] && st.current == []
  {
    FlattenSnoc(st.closed, st.current);
  }

  /** Joining keeps the groups capped. */
  lemma JoinCapped(gs: seq<seq<AudioSegment>>, seg: AudioSegment)
    requires |gs| > 0 && Capped(gs)
    requires Total(gs[|gs| - 1]) + seg.duration <= MergeCap
    ensures Capped(gs[..|gs| - 1] + [gs[|gs| - 1] + [seg]])
  {
    var last := |gs| - 1;
    var gs2: seq<seq<AudioSegment>> := gs[..last] + [gs[last] + [seg]];
    TotalSnoc(gs[last], seg);
    forall k | 0 <= k < |gs2| && |gs2[k]| >= 2
      ensures Total(gs2[k]) <= MergeCap
    {
      if k < last {
        assert gs2[k] == gs[k];
      }
    }
  }

  /** Joining keeps every group but the first non-empty and closed only
      when full. */
  lemma JoinClosedWhenFull(gs: seq<seq<AudioSegment>>, seg: AudioSegment)
    requires |gs| > 0 && ClosedWhenFull(gs)
    ensures ClosedWhenFull(gs[..|gs| - 1] + [gs[|gs| - 1] + [seg]])
  {
    var last := |gs| - 1;
    var gs2: seq<seq<AudioSegment>> := gs[..last] + [gs[last] + [seg]];
    forall j | 0 < j < |gs2|
      ensures gs2[j] != [] && Total(gs2[j - 1]) + gs2[j][0].duration > MergeCap
    {
      assert gs2[j - 1] == gs[j - 1];
      if j < last {
        assert gs2[j] == gs[j];
      } else {
        assert gs[j] != [];
        assert gs2[j][0] == gs[j][0];
      }
    }
  }

  /** A segment that joins the group keeps the invariant. */
  lemma JoinKeepsInv(st: GroupState, segs: seq<AudioSegment>, seg: AudioSegment)
    requires GroupInv(st, segs) && seg.duration + st.currentLength <= MergeCap
    ensures GroupInv(GroupStep(st, seg), segs + [seg])
  {
    var gs := st.closed + [st.current];
    var gs2 := st.closed + [st.current + [seg]];
    assert GroupStep(st, seg).closed + [GroupStep(st, seg).current] == gs2;
    assert gs[..|gs| - 1] == st.closed && gs[|gs| - 1] == st.current;
    TotalSnoc(st.current, seg);
    FlattenSnoc(st.closed, st.current);
    FlattenSnoc(st.closed, st.current + [seg]);
    JoinCapped(gs, seg);
    JoinClosedWhenFull(gs, seg);
    if segs == [] {
      NothingYet(st);
      assert gs2[0] == [seg];
    } else {
      assert (segs + [seg])[0] == segs[0];
      if st.closed != [] {
        assert gs2[0] == gs[0];
      }
    }
  }

  /** A segment that closes the group keeps the invariant. */
  lemma CloseKeepsInv(st: GroupState, segs: seq<AudioSegment>, seg: AudioSegment)
    requires GroupInv(st, segs) && seg.duration + st.currentLength > MergeCap
    ensures GroupInv(GroupStep(st, seg), segs + [seg])
  {
    var gs := st.closed + [st.current];
    var gs2 := gs + [[seg]];
    assert GroupStep(st, seg).closed + [GroupStep(st, seg).current] == gs2;
    TotalSnoc([], seg);
    assert [] + [seg] == [seg];
    FlattenSnoc(gs, [seg]);
    forall k | 0 <= k < |gs2| && |gs2[k]| >= 2
      ensures Total(gs2[k]) <= MergeCap
    {
      assert k < |gs| && gs2[k] == gs[k];
    }
    forall j | 0 < j < |gs2|
      ensures gs2[j] != [] && Total(gs2[j - 1]) + gs2[j][0].duration > MergeCap
    {
      assert gs2[j - 1] == gs[j - 1];
      if j < |gs| {
        assert gs2[j] == gs[j];
      }
    }
    assert gs2[0] == gs[0];
    if segs == [] {
      NothingYet(st);
    } else {
      assert (segs + [seg])[0] == segs[0];
    }
  }

  /** Either way, one step keeps the invariant. */
  lemma StepKeepsInv(st: GroupState, segs: seq<AudioSegment>, seg: AudioSegment)
    requires GroupInv(st, segs)
    ensures GroupInv(GroupStep(st, seg), segs + [seg])
  {
    if seg.duration + st.currentLength > MergeCap {
      CloseKeepsInv(st, segs, seg);
    } else {
      JoinKeepsInv(st, segs, seg);
    }
  }

  lemma {:induction false} GroupScanInv(segs: seq<AudioSegment>)
    ensures GroupInv(GroupScan(segs), segs)
  {
    if segs == [] {
      assert Flatten([[]]) == Flatten<AudioSegment>([]) + [];
    } else {
      var init := segs[..|segs| - 1];
      GroupScanInv(init);
      StepKeepsInv(GroupScan(init), init, segs[|segs| - 1]);
      assert init + [segs[|segs| - 1]] == segs;
    }
  }

  /** The grouping keeps the segments and their order, never plans a merge of
      two or more pieces longer than 11.5 s, closes a group only when the next
      piece would take it past 11.5 s, and leaves only the first group
      possibly empty: exactly when there is nothing to group or the first
      piece alone is longer than 11.5 s. */
  lemma GroupsShape(segs: seq<AudioSegment>)
    ensures var gs := Groups(segs);
            && |gs| >= 1
            && Flatten(gs) == segs
            && (forall k :: 0 <= k < |gs| && |gs[k]| >= 2 ==> Total(gs[k]) <= MergeCap)
            && (forall j :: 0 < j < |gs| ==> gs[j] != [] && Total(gs[j - 1]) + gs[j][0].duration > MergeCap)
            && (gs[0] == [] <==> segs == [] || segs[0].duration > MergeCap)
  {
    GroupScanInv(segs);
  }

  /** Every group holds at most as many pieces as there are segments, and
      there are at most one more groups than segments. */
  lemma {:induction false} GroupsCount(segs: seq<AudioSegment>)
    ensures |Groups(segs)| <= |segs| + 1
  {
    if segs != [] {
      GroupsCount(segs[..|segs| - 1]);
    }
  }

  function Names(g: seq<AudioSegment>): (r: seq<string>)
    ensures |r| == |g|
  {
    seq(|g|, i requires 0 <= i < |g| => g[i].filename)
  }

  function NamesOf(gs: seq<seq<AudioSegment>>): (r: seq<seq<string>>)
    ensures |r| == |gs|
  {
    seq(|gs|, k requires 0 <= k < |gs| => Names(gs[k]))
  }

  /** The grouping loop (main.go:117-141): the lists of file names passed to
      MergeAudioFiles, in call order. */
  method GroupMerges(segments: seq<AudioSegment>) returns (merges: seq<seq<string>>)
    ensures merges == NamesOf(Groups(segments))
  {
    var fnamesToMerge: seq<string> := [];
    var currentLength := 0.0;
    merges := [];
    for i := 0 to |segments|
      invariant merges == NamesOf(GroupScan(segments[..i]).closed)
      invariant fnamesToMerge == Names(GroupScan(segments[..i]).current)
      invariant currentLength == GroupScan(segments[..i]).currentLength
    {
      assert segments[..i + 1][..i] == segments[..i];
      var segment := segments[i];
      ghost var st := GroupScan(segments[..i]);
      if segment.duration + currentLength > MergeCap {
        merges := merges + [fnamesToMerge];
        currentLength := 0.0;
        fnamesToMerge := [];
        assert merges == NamesOf(st.closed + [st.current]);
      } else {
        assert fnamesToMerge + [segment.filename] == Names(st.current + [segment]);
      }
      fnamesToMerge := fnamesToMerge + [segment.filename];
      currentLength := currentLength + segment.duration;
    }
    assert segments[..|segments|] == segments;
    merges := merges + [fnamesToMerge];
  }

  lemma NamesAppend(x: seq<AudioSegment>, y: seq<AudioSegment>)
    ensures Names(x + y) == Names(x) + Names(y)
  {
  }

  /** Naming then flattening is flattening then naming. */
  lemma {:induction false} FlattenNames(gs: seq<seq<AudioSegment>>)
    ensures Flatten(NamesOf(gs)) == Names(Flatten(gs))
  {
    if gs != [] {
      var init := gs[..|gs| - 1];
      FlattenNames(init);
      assert NamesOf(gs)[..|gs| - 1] == NamesOf(init);
      NamesAppend(Flatten(init), gs[|gs| - 1]);
    }
  }

  /** The merges getsilences asks for. */
  function MergePlan(events: seq<Ffmpeg.Event>, name: nat -> string): seq<seq<string>>
  {
    NamesOf(Groups(Named(BuiltSegments(events), name)))
  }

  /** getsilences (main.go:74-144) without its tool calls: build the
      segments, name the cut files, plan the merges.  Its positions result
      is never assigned, so only the merges are observable. */
  method GetSilences(events: seq<Ffmpeg.Event>, name: nat -> string) returns (merges: seq<seq<string>>)
    ensures merges == MergePlan(events, name)
  {
    var segments := BuildSegments(events);
    for i := 0 to |segments|
      invariant |segments| == |BuiltSegments(events)|
      invariant forall k :: 0 <= k < i ==> segments[k] == Named(BuiltSegments(events), name)[k]
      invariant forall k :: i <= k < |segments| ==> segments[k] == BuiltSegments(events)[k]
    {
      segments := segments[i := segments[i].(filename := name(i))];
    }
    assert segments == Named(BuiltSegments(events), name);
    merges := GroupMerges(segments);
  }

  /** The merges take every cut file exactly once and in cut order: joined
      end to end they are name(0), ..., name(n-1), one per parsed time. */
  lemma MergePlanCoversCuts(events: seq<Ffmpeg.Event>, name: nat -> string)
    ensures var plan := MergePlan(events, name);
            var n := |Times(events)|;
            |plan| >= 1 && Flatten(plan) == seq(n, i requires 0 <= i < n => name(i))
  {
    var named := Named(BuiltSegments(events), name);
    GroupsShape(named);
    FlattenNames(Groups(named));
    BuiltSegmentsShape(events);
  }

  // ---------------------------------------------------------------------
  // run: replacing the OP-1 chunk (main.go:192-276)

  /** How run ends: returning nil without writing, a slice or index panic,
      an error from reading or decoding, or the bytes written to test2.aif. */
  datatype RunOutcome =
    | NotWritten
    | Panicked
    | Failed
    | Written(file: Bytes)

  /** The positions run writes into the decoded metadata: 0.2 s and 0.4 s
      at 44100 Hz in units of 4096 (main.go:233-235). */
  const FirstStart: int := 36126720
  const FirstEnd: int := 72253440

  /** The decoded metadata with those three positions replaced. */
  function Edited(f: DrumFields): DrumFields
    requires |f.start| >= 2 && |f.end| >= 1
  {
    f.(start := f.start[0 := FirstStart][1 := FirstEnd], end := f.end[0 := FirstEnd])
  }

  lemma TagBounds(b: Bytes, a: nat, s: nat)
    requires OccursAt(b, Container.ApplTag, a) && OccursAt(b[a..], Container.SsndTag, s)
    ensures a + 4 <= |b| && a + s + 4 <= |b|
  {
  }

  /** Reference outcome of run once a, the first "APPL", and s, the offset
      from it of the first "SSND" after it, are found.  The JSON between
      them is read from a+12 to a+s-2, which panics when s < 14; decode is
      json.Unmarshal (None on error), marshal is json.Marshal. */
  function ChunkOutcome(b: Bytes, a: nat, s: nat, decode: Bytes -> Option<DrumFields>,
                        marshal: DrumFields -> Bytes): RunOutcome
    requires a + s + 4 <= |b|
  {
    if s < 14 then Panicked
    else match decode(b[a + 12..a + s - 2])
      case None => Failed
      case Some(f) =>
        if |f.start| < 2 || |f.end| < 1 then Panicked
        else Written(Container.AlignedSplice(b[..a + 4], marshal(Edited(f)), b[a + s..], 4))
  }

  /** Reference outcome of run on the bytes of test1.aif (None when it
      cannot be read). */
  function RunOutcomeOf(file: Option<Bytes>, decode: Bytes -> Option<DrumFields>,
                        marshal: DrumFields -> Bytes): RunOutcome
  {
    if file.None? then Failed
    else
      var b := file.value;
      match IndexOf(b, Container.ApplTag)
      case None => NotWritten
      case Some(a) =>
        match IndexOf(b[a..], Container.SsndTag)
        case None => NotWritten
        case Some(s) => TagBounds(b, a, s); ChunkOutcome(b, a, s, decode, marshal)
  }

  /** The part of run after the tags are found (main.go:207-273): decode,
      edit, marshal, and the splice loop with alignment 4. */
  method ReplaceChunk(b: Bytes, a: nat, s: nat, decode: Bytes -> Option<DrumFields>,
                      marshal: DrumFields -> Bytes) returns (out: RunOutcome)
    requires a + s + 4 <= |b|
    ensures out == ChunkOutcome(b, a, s, decode, marshal)
  {
    if s < 14 {
      return Panicked;
    }
    var op1data := decode(b[a + 12..a + s - 2]);
    if op1data.None? {
      return Failed;
    }
    var f := op1data.value;
    if |f.start| < 1 || |f.end| < 1 || |f.start| < 2 {
      return Panicked;
    }
    var bop1 := marshal(Edited(f));
    var b3, _ := Container.SpliceAligned(b[..a + 4], bop1, b[a + s..], 4);
    return Written(b3);
  }

  /** run (main.go:192-276). */
  method Run(file: Option<Bytes>, decode: Bytes -> Option<DrumFields>, marshal: DrumFields -> Bytes)
    returns (out: RunOutcome)
    ensures out == RunOutcomeOf(file, decode, marshal)
  {
    if file.None? {
      return Failed;
    }
    var b := file.value;
    var start := IndexOf(b, Container.ApplTag);
    if start.None? {
      return NotWritten;
    }
    var a := start.value;
    var end := IndexOf(b[a..], Container.SsndTag);
    if end.None? {
      return NotWritten;
    }
    var s := end.value;
    TagBounds(b, a, s);
    out := ReplaceChunk(b, a, s, decode, marshal);
  }

  /** run writes nothing and returns nil exactly when the file was read but
      has no "APPL", or no "SSND" after it. */
  lemma RunNotWritten(file: Option<Bytes>, decode: Bytes -> Option<DrumFields>, marshal: DrumFields -> Bytes)
    ensures RunOutcomeOf(file, decode, marshal).NotWritten? <==>
              && file.Some?
              && (|| IndexOf(file.value, Container.ApplTag).None?
                  || IndexOf(file.value[IndexOf(file.value, Container.ApplTag).value..], Container.SsndTag).None?)
  {
  }

  /** What run writes: the bytes up to and including the first "APPL", the
      chunk size 4 + filler + JSON, "op-1", the edited JSON, a filler of 1 to
      4 bytes, then everything from the "SSND" on, with the form size
      rewritten to the length minus 8, which is a multiple of 4. */
  lemma RunWrittenLayout(b: Bytes, a: nat, s: nat, decode: Bytes -> Option<DrumFields>,
                         marshal: DrumFields -> Bytes)
    requires IndexOf(b, Container.ApplTag) == Some(a)
    requires IndexOf(b[a..], Container.SsndTag) == Some(s)
    ensures a + s + 4 <= |b|
    ensures RunOutcomeOf(Some(b), decode, marshal).Written? ==>
              WrittenLayout(b, a, s, decode, marshal, RunOutcomeOf(Some(b), decode, marshal).file)
  {
    RunFindsTags(b, a, s, decode, marshal);
    ChunkWrittenLayout(b, a, s, decode, marshal);
  }

  /** The written file's layout: the chunk between "APPL" and "SSND" held
      decodable JSON; the new chunk holds the edited JSON and a filler of 1
      to 4 bytes; the form size is the length minus 8, a multiple of 4. */
  predicate WrittenLayout(b: Bytes, a: nat, s: nat, decode: Bytes -> Option<DrumFields>,
                          marshal: DrumFields -> Bytes, file: Bytes)
  {
    && a + s + 4 <= |b| && 14 <= s && decode(b[a + 12..a + s - 2]).Some?
    && |decode(b[a + 12..a + s - 2]).value.start| >= 2 && |decode(b[a + 12..a + s - 2]).value.end| >= 1
    && var json := marshal(Edited(decode(b[a + 12..a + s - 2]).value));
       var n := |file| - (a + 12 + |json| + (|b| - (a + s)));
       && 1 <= n <= 4
       && 8 <= |file| && (|file| - 8) % 4 == 0
       && ReadBE32(file[4..8]) == (|file| - 8) % Two32
       && file == Container.WithFormSize(
            Container.Chunked(b[..a + 4], json, Container.Filler(n), b[a + s..]))
  }

  /** Once both tags are found, run's outcome is that of the chunk. */
  lemma RunFindsTags(b: Bytes, a: nat, s: nat, decode: Bytes -> Option<DrumFields>,
                     marshal: DrumFields -> Bytes)
    requires IndexOf(b, Container.ApplTag) == Some(a)
    requires IndexOf(b[a..], Container.SsndTag) == Some(s)
    ensures a + s + 4 <= |b|
    ensures RunOutcomeOf(Some(b), decode, marshal) == ChunkOutcome(b, a, s, decode, marshal)
  {
    TagBounds(b, a, s);
  }

  /** The layout of a file ChunkOutcome writes. */
  lemma ChunkWrittenLayout(b: Bytes, a: nat, s: nat, decode: Bytes -> Option<DrumFields>,
                           marshal: DrumFields -> Bytes)
    requires a + s + 4 <= |b|
    ensures ChunkOutcome(b, a, s, decode, marshal).Written? ==>
              WrittenLayout(b, a, s, decode, marshal, ChunkOutcome(b, a, s, decode, marshal).file)
  {
    var out := ChunkOutcome(b, a, s, decode, marshal);
    if out.Written? {
      var json := marshal(Edited(decode(b[a + 12..a + s - 2]).value));
      var head, tail := b[..a + 4], b[a + s..];
      assert out.file == Container.AlignedSplice(head, json, tail, 4);
      Container.AlignedSpliceIsAligned(head, json, tail, 4);
      assert |out.file| - (a + 12 + |json| + (|b| - (a + s)))
             == Container.AlignedFillerLength(head, json, tail, 4);
    }
  }
}
