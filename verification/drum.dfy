/** OP-1 drum patches (src/op1/drum.go): the compiled-in default, the
    normalisation of the slot bounds, and Save, which splices the patch's
    JSON into an AIFF file in front of its "SSND" chunk.  The slot mapping
    that convert.go and audiosegment.go both perform on a fresh drum patch
    is specified here once. */
module Drum {
  import opened Common
  import opened Models
  import Container

  /** The 24 slot end positions of the default patch (src/op1/drum.go:19). */
  const DefaultEnd: seq<int> := [
    97643143, 165163892, 211907777, 282025634, 313446583, 372916297,
    413167412, 454132733, 478541489, 492549640, 582028126, 642634075,
    642634075, 642634075, 642634075, 642634075, 642634075, 642634075,
    642634075, 642634075, 642634075, 642634075, 642634075, 2032606256]

  /** The 24 slot start positions of the default patch (src/op1/drum.go:19). */
  const DefaultStart: seq<int> := [
    0, 97647201, 165167950, 211911835, 282029692, 313450641,
    372920355, 413171470, 454136790, 478545547, 492553698, 582032184,
    582032184, 582032184, 582032184, 582032184, 582032184, 582032184,
    582032184, 582032184, 582032184, 582032184, 582032184, 642638133]

  /** The value of every field of a drum patch, in the order json.Marshal
      writes them (src/op1/drum.go:27-45). */
  datatype DrumFields = DrumFields(
    drumVersion: int, dynaEnv: seq<int>, end: seq<int>, fxActive: bool,
    fxParams: seq<int>, fxType: string, lfoActive: bool, lfoParams: seq<int>,
    lfoType: string, name: string, octave: int, pitch: seq<int>,
    playmode: seq<int>, reverse: seq<int>, start: seq<int>, patchType: string,
    volume: seq<int>)

  /** The same value in each of the 24 slots. */
  function Slots(v: int): (r: seq<int>)
    ensures |r| == 24 && forall i :: 0 <= i < 24 ==> r[i] == v
  {
    seq(24, k => v)
  }

  /** The patch that init decodes from its JSON literal (src/op1/drum.go:19). */
  const DefaultFields: DrumFields := DrumFields(
    2, [0, 8192, 0, 8192, 0, 0, 0, 0], DefaultEnd, false,
    [8000, 8000, 8000, 8000, 8000, 8000, 8000, 8000], "delay", false,
    [16000, 16000, 16000, 16000, 0, 0, 0, 0], "tremolo", "boombap1", 0,
    Slots(0), Slots(8192), Slots(8192), DefaultStart, "drum", Slots(8192))

  const Two50: int := 0x4_0000_0000_0000
  const Two51: int := 0x8_0000_0000_0000
  const Two63: int := 0x8000_0000_0000_0000
  const Two64: int := 0x1_0000_0000_0000_0000

  /** Go's int64 arithmetic keeps a result modulo 2^64, read as two's complement. */
  function Wrap64(v: int): (r: int)
    ensures -Two63 <= r < Two63
  {
    (v + Two63) % Two64 - Two63
  }

  /** Go's integer division, which truncates toward zero. */
  function QuoTrunc(a: int, d: int): int
    requires d > 0
  {
    if a >= 0 then a / d else -((-a) / d)
  }

  /** One step of the normalisation loop on an int64 slot bound:
      x * 8192 / 8192 evaluated in int64 (src/op1/drum.go:81,84). */
  function Normalized(x: int): (r: int)
    ensures -Two50 <= r < Two50
  {
    QuoTrunc(Wrap64(x * 8192), 8192)
  }

  /** The product wraps at 2^64, so the normalisation keeps x modulo 2^51,
      read as a signed 51-bit number. */
  lemma NormalizedClosedForm(x: int)
    ensures Normalized(x) == (x + Two50) % Two51 - Two50
  {
    var w := (x + Two50) % Two51 - Two50;
    var q := (x + Two50) / Two51;
    assert x * 8192 + Two63 == q * Two64 + 8192 * (w + Two50);
    ModOfDivision(x * 8192 + Two63, Two64, q, 8192 * (w + Two50));
    assert Wrap64(x * 8192) == 8192 * w;
    if w >= 0 {
      ModOfDivision(8192 * w, 8192, w, 0);
    } else {
      ModOfDivision(-(8192 * w), 8192, -w, 0);
    }
  }

  /** The normalisation leaves a bound unchanged exactly when |x| is below
      2^63 / 8192 (x in [-2^50, 2^50)); larger bounds are corrupted. */
  lemma NormalizedKeeps(x: int)
    ensures Normalized(x) == x <==> -Two50 <= x < Two50
  {
    NormalizedClosedForm(x);
    if -Two50 <= x < Two50 {
      ModOfDivision(x + Two50, Two51, 0, x + Two50);
    }
  }

  /** The normalisation loop over a whole slice. */
  function NormalizedAll(xs: seq<int>): (ys: seq<int>)
    ensures |ys| == |xs|
    ensures forall i :: 0 <= i < |xs| ==> ys[i] == Normalized(xs[i])
  {
    seq(|xs|, i requires 0 <= i < |xs| => Normalized(xs[i]))
  }

  /** Every slot bound below 2^50 survives the normalisation unchanged. */
  lemma NormalizedAllKeeps(xs: seq<int>)
    requires forall i :: 0 <= i < |xs| ==> -Two50 <= xs[i] < Two50
    ensures NormalizedAll(xs) == xs
  {
    forall i | 0 <= i < |xs|
      ensures NormalizedAll(xs)[i] == xs[i]
    {
      NormalizedKeeps(xs[i]);
    }
  }

  /** The patch with its slot bounds normalised, as Save marshals it. */
  function NormalizeFields(f: DrumFields): (g: DrumFields)
  {
    f.(end := NormalizedAll(f.end), start := NormalizedAll(f.start))
  }

  datatype SaveError =
    | NotAif              // "%s does not have .aif"
    | ConversionFailed    // ffmpeg or reading its output failed
    | NoSsndTag           // "no SND tag"

  /** Reference outcome of Save: the bytes written, or the error returned.
      converted is the file ffmpeg produced (None when ffmpeg or the read
      failed); marshal stands for json.Marshal. */
  function SaveOutcome(fnameOut: string, converted: Option<Bytes>, f: DrumFields,
                       marshal: DrumFields -> Bytes): (r: Result<Bytes, SaveError>)
    ensures r.Ok? <==> HasSuffix(fnameOut, ".aif") && converted.Some?
                       && IndexOf(converted.value, Container.SsndTag).Some?
    ensures r == Err(ConversionFailed) ==> HasSuffix(fnameOut, ".aif")
    ensures r == Err(NoSsndTag) ==> HasSuffix(fnameOut, ".aif") && converted.Some?
    ensures r.Ok? ==> |r.value| > |converted.value| + 12 && (|r.value| - 8) % 4 == 0
  {
    if !HasSuffix(fnameOut, ".aif") then Err(NotAif)
    else if converted.None? then Err(ConversionFailed)
    else match IndexOf(converted.value, Container.SsndTag)
      case None => Err(NoSsndTag)
      case Some(p) => Ok(Container.InsertChunk(converted.value, p, marshal(NormalizeFields(f)), 4))
  }

  /** A written slot: both bounds at or below the last default end. */
  predicate Admitted(start: int, end: int, limit: int)
  {
    start <= end && end <= limit
  }

  /** math.Round: halves round away from zero. */
  function RoundHalfAway(x: real): (r: int)
    ensures x - 0.5 <= r as real <= x + 0.5
    ensures (r as real == x + 0.5 || r as real == x - 0.5) ==> (r as real >= x <==> x >= 0.0)
  {
    if x >= 0.0 then (x + 0.5).Floor else -((-x + 0.5).Floor)
  }

  /** Samples per centisecond times the OP-1's position unit: 441 * 4058. */
  const CentisecondUnits: int := 441 * 4058

  /** The sample position of a time in seconds (src/convert/convert.go:40-41,
      src/audiosegment/audiosegment.go:124-125). */
  function SlotPosition(t: real): int
  {
    RoundHalfAway(t * 100.0) * CentisecondUnits
  }

  /** A position is a whole number of centiseconds, within half a
      centisecond of the exact time. */
  lemma SlotPositionNear(t: real)
    ensures SlotPosition(t) % CentisecondUnits == 0
    ensures t * 100.0 * CentisecondUnits as real - 894789.0 <= SlotPosition(t) as real
    ensures SlotPosition(t) as real <= t * 100.0 * CentisecondUnits as real + 894789.0
  {
    var c := RoundHalfAway(t * 100.0);
    ModOfDivision(c * CentisecondUnits, CentisecondUnits, c, 0);
    assert SlotPosition(t) as real == c as real * CentisecondUnits as real;
  }

  /** Slots that may receive a segment: all but the last two. */
  predicate Writable(i: int, slots: int)
  {
    0 <= i < slots - 2
  }

  /** Reference definition of the slot mapping loop (src/convert/convert.go:38-51,
      src/audiosegment/audiosegment.go:120-137) applied to a patch whose
      bounds are start0/end0: segment i < |end0| - 2 replaces slot i when its
      positions are admitted under the last end; every other slot keeps its
      old bounds. */
  function MappedSlots(start0: seq<int>, end0: seq<int>, segs: seq<AudioSegment>): (r: (seq<int>, seq<int>))
    requires |start0| == |end0| >= 1
    ensures |r.0| == |start0| && |r.1| == |end0|
  {
    var limit := end0[|end0| - 1];
    (seq(|start0|, i requires 0 <= i < |start0| =>
       if i < |segs| && Writable(i, |end0|)
          && Admitted(SlotPosition(segs[i].start), SlotPosition(segs[i].end), limit)
       then SlotPosition(segs[i].start) else start0[i]),
     seq(|end0|, i requires 0 <= i < |end0| =>
       if i < |segs| && Writable(i, |end0|)
          && Admitted(SlotPosition(segs[i].start), SlotPosition(segs[i].end), limit)
       then SlotPosition(segs[i].end) else end0[i]))
  }

  /** The default patch with its slots mapped from the segments. */
  function MappedFields(segs: seq<AudioSegment>): DrumFields
  {
    var slots := MappedSlots(DefaultStart, DefaultEnd, segs);
    DefaultFields.(start := slots.0, end := slots.1)
  }

  /** One pass of the slot loop: segment i lands in slot i when the slot is
      writable and its positions are admitted under the last end. */
  lemma MappedSlotsStep(start0: seq<int>, end0: seq<int>, segs: seq<AudioSegment>, i: nat)
    requires |start0| == |end0| >= 1 && i < |segs|
    ensures var (s, e) := MappedSlots(start0, end0, segs[..i]);
            var a := SlotPosition(segs[i].start);
            var b := SlotPosition(segs[i].end);
            MappedSlots(start0, end0, segs[..i + 1])
              == if Writable(i, |end0|) && Admitted(a, b, end0[|end0| - 1]) then (s[i := a], e[i := b]) else (s, e)
  {
    var (s, e) := MappedSlots(start0, end0, segs[..i]);
    var (s2, e2) := MappedSlots(start0, end0, segs[..i + 1]);
    var a := SlotPosition(segs[i].start);
    var b := SlotPosition(segs[i].end);
    var write := Writable(i, |end0|) && Admitted(a, b, end0[|end0| - 1]);
    forall j | 0 <= j < |start0|
      ensures s2[j] == (if write then s[i := a] else s)[j]
      ensures e2[j] == (if write then e[i := b] else e)[j]
    {
      if j < i {
        assert segs[..i + 1][j] == segs[..i][j];
      }
    }
    assert s2 == (if write then s[i := a] else s);
    assert e2 == (if write then e[i := b] else e);
  }

  /** The mapping never touches the two reserved slots, keeps the last end
      (the bound every write is checked against), and every slot either
      keeps its default or holds an admitted range. */
  lemma MappedSlotsBounds(start0: seq<int>, end0: seq<int>, segs: seq<AudioSegment>)
    requires |start0| == |end0| >= 2
    ensures var (s, e) := MappedSlots(start0, end0, segs);
            && (forall i :: |end0| - 2 <= i < |end0| ==> s[i] == start0[i] && e[i] == end0[i])
            && e[|e| - 1] == end0[|end0| - 1]
            && (forall i :: 0 <= i < |end0| ==>
                  (s[i] == start0[i] && e[i] == end0[i])
                  || (i < |segs| && Admitted(s[i], e[i], end0[|end0| - 1])
                      && s[i] == SlotPosition(segs[i].start) && e[i] == SlotPosition(segs[i].end)))
  {
  }

  /** The default patch has 24 slots ending with End[23] = 2032606256 and
      its slots are well ordered. */
  lemma DefaultPatchShape()
    ensures |DefaultFields.start| == 24 && |DefaultFields.end| == 24
    ensures DefaultFields.end[23] == 2032606256
    ensures forall i :: 0 <= i < 24 ==> DefaultFields.start[i] <= DefaultFields.end[i]
  {
  }

  /** The mapped patch: the default with slots 22 and 23 and all
      other fields untouched, every slot ordered and ending at or before the
      last default end, and every replaced slot on whole centiseconds. */
  lemma MappedFieldsShape(segs: seq<AudioSegment>)
    ensures var f := MappedFields(segs);
            && f == DefaultFields.(start := f.start, end := f.end)
            && |f.start| == 24 && |f.end| == 24
            && f.start[22..] == DefaultStart[22..] && f.end[22..] == DefaultEnd[22..]
            && (forall i :: 0 <= i < 24 ==> f.start[i] <= f.end[i] <= 2032606256)
            && (forall i :: 0 <= i < 24 ==>
                  (f.start[i] == DefaultStart[i] && f.end[i] == DefaultEnd[i])
                  || (i < |segs| && f.start[i] == SlotPosition(segs[i].start) && f.end[i] == SlotPosition(segs[i].end)
                      && f.start[i] % CentisecondUnits == 0 && f.end[i] % CentisecondUnits == 0))
  {
    var f := MappedFields(segs);
    MappedSlotsBounds(DefaultStart, DefaultEnd, segs);
    DefaultPatchShape();
    forall i | 0 <= i < 24 && i < |segs|
      ensures SlotPosition(segs[i].start) % CentisecondUnits == 0
      ensures SlotPosition(segs[i].end) % CentisecondUnits == 0
    {
      SlotPositionNear(segs[i].start);
      SlotPositionNear(segs[i].end);
    }
  }

  /** One pass of the slot loops of ToDrumSplice (src/convert/convert.go:38-51)
      and of SplitEqual's jobs (src/audiosegment/audiosegment.go:125-136):
      segment i goes to slot i when the slot is not one of the last two and
      its positions are ordered and within the last end. */
  method WriteSlot(op1data: DrumPatch, segments: seq<AudioSegment>, i: nat)
    requires i < |segments| && op1data.Fields() == MappedFields(segments[..i])
    modifies op1data`start, op1data`end
    ensures op1data.Fields() == MappedFields(segments[..i + 1])
  {
    MappedSlotsStep(DefaultStart, DefaultEnd, segments, i);
    MappedSlotsBounds(DefaultStart, DefaultEnd, segments[..i]);
    if i < |op1data.end| - 2 {
      var start := SlotPosition(segments[i].start);
      var end := SlotPosition(segments[i].end);
      if start > end {
        return;
      }
      if end > op1data.end[|op1data.end| - 1] {
        return;
      }
      op1data.start := op1data.start[i := start];
      op1data.end := op1data.end[i := end];
    }
  }

  /** Saving the default patch leaves its slot bounds as they are. */
  lemma DefaultSurvivesNormalization()
    ensures NormalizeFields(DefaultFields) == DefaultFields
  {
    NormalizedAllKeeps(DefaultStart);
    NormalizedAllKeeps(DefaultEnd);
  }

  /** A drum patch as the op1 package holds it: Save rewrites its slot
      bounds in place. */
  class DrumPatch {
    var drumVersion: int
    var dynaEnv: seq<int>
    var end: seq<int>
    var fxActive: bool
    var fxParams: seq<int>
    var fxType: string
    var lfoActive: bool
    var lfoParams: seq<int>
    var lfoType: string
    var name: string
    var octave: int
    var pitch: seq<int>
    var playmode: seq<int>
    var reverse: seq<int>
    var start: seq<int>
    var patchType: string
    var volume: seq<int>

    function Fields(): DrumFields
      reads this
    {
      DrumFields(drumVersion, dynaEnv, end, fxActive, fxParams, fxType, lfoActive,
                 lfoParams, lfoType, name, octave, pitch, playmode, reverse, start,
                 patchType, volume)
    }

    /** NewDrumPatch (src/op1/drum.go:48-50): the compiled-in default. */
    constructor ()
      ensures Fields() == DefaultFields
    {
      var d := DefaultFields;
      drumVersion, dynaEnv, end, fxActive := d.drumVersion, d.dynaEnv, d.end, d.fxActive;
      fxParams, fxType, lfoActive, lfoParams := d.fxParams, d.fxType, d.lfoActive, d.lfoParams;
      lfoType, name, octave, pitch := d.lfoType, d.name, d.octave, d.pitch;
      playmode, reverse, start := d.playmode, d.reverse, d.start;
      patchType, volume := d.patchType, d.volume;
    }

    /** Save (src/op1/drum.go:53-129).  The name check comes first; the slot
        bounds are normalised in place only once an "SSND" tag is found, and
        the file written is the one SaveOutcome describes. */
    method Save(fnameOut: string, converted: Option<Bytes>, marshal: DrumFields -> Bytes)
      returns (r: Result<Bytes, SaveError>)
      modifies this
      ensures r == SaveOutcome(fnameOut, converted, old(Fields()), marshal)
      ensures Fields() == if r.Ok? then NormalizeFields(old(Fields())) else old(Fields())
    {
      if !HasSuffix(fnameOut, ".aif") {
        return Err(NotAif);
      }
      if converted.None? {
        return Err(ConversionFailed);
      }
      var b := converted.value;
      var found := IndexOf(b, Container.SsndTag);
      if found.None? {
        return Err(NoSsndTag);
      }
      var p := found.value;
      for i := 0 to |end|
        modifies this`end
        invariant |end| == |old(end)|
        invariant forall j :: 0 <= j < i ==> end[j] == Normalized(old(end)[j])
        invariant forall j :: i <= j < |end| ==> end[j] == old(end)[j]
      {
        end := end[i := Normalized(end[i])];
      }
      for i := 0 to |start|
        modifies this`start
        invariant |start| == |old(start)|
        invariant forall j :: 0 <= j < i ==> start[j] == Normalized(old(start)[j])
        invariant forall j :: i <= j < |start| ==> start[j] == old(start)[j]
      {
        start := start[i := Normalized(start[i])];
      }
      assert end == NormalizedAll(old(end)) && start == NormalizedAll(old(start));
      assert Fields() == NormalizeFields(old(Fields()));
      var json := marshal(Fields());
      var out, _ := Container.SpliceAligned(b[..p] + Container.ApplTag, json, b[p..], 4);
      Container.InsertChunkIsSplice(b, p, json, 4);
      r := Ok(out);
    }
  }
}
