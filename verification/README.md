# teoperator core, modelled in Dafny

teoperator turns audio into patches for the Teenage Engineering OP-1
synthesizer. This project models the parts of it that are pure logic:

- how it splices the OP-1 metadata chunk (`APPL`, a size, `op-1`, then JSON,
  then filler) into an AIFF file, as drum `Save`, synth `SaveSynth` and the
  `run` prototype in `main.go` do it;
- the synth parameter tables, `Check`, `Hashid`, `Encode`, random patches,
  and reading a synth patch back;
- how segment times become drum-slot positions, in `ToDrumSplice`,
  `ToDrum` and `SplitEqual`'s jobs;
- the silence and onset splitters (ffmpeg `silencedetect`, `aubioonset`),
  the segment builder and 11.5-second grouping of `main.go`, and
  `SplitEqual`'s window grid, equal splices and result collection;
- the string helpers `GetStringInBetween` and `ConvertToSeconds`.

There is one module per Go source file:

| module | file |
|---|---|
| `Common` | Go's `bytes.Index`, `strings.Index` and big-endian fields |
| `Models` | the `AudioSegment` record |
| `Container` | the splice loop shared by the op1 package and `main.go` |
| `Drum` | `src/op1/drum.go` |
| `Synth` | `src/op1/synth.go` |
| `Convert` | `src/convert/convert.go` |
| `AudioSegmentSplit` | `src/audiosegment/audiosegment.go` |
| `Ffmpeg` | `src/ffmpeg/ffmpeg.go` |
| `Aubio` | `src/aubio/aubio.go` |
| `Utils` | `src/utils/utils.go` |
| `MainProgram` | `main.go` |

Code that loops or updates state in the source is modelled as a Dafny
method. That method is proved equal to a reference function (`...Outcome`,
`Splices`, `Groups`, `MappedFields`), and the properties are proved about
that function as lemmas. `DrumPatch` is a class, because `Save` and the
slot loops rewrite its `Start`/`End` slices in place. `SynthPatch` is a
datatype, because its methods take value receivers.

External tools and foreign libraries become inputs:

- ffmpeg, aubioonset, ffprobe, ImageMagick and wav reading become their
  parsed outputs, or `None`/`false` when the call failed;
- `json.Marshal`, `json.Unmarshal`, md5, hashids, `strconv.ParseFloat` and
  `rand.Intn` become function parameters.

Times are exact reals, and `math.Round` is rounding half away from zero.
Go's `int64` wrap-around is written out where it matters: the
`x * 8192 / 8192` normalisation.

## Model

| member | source | states |
|---|---|---|
| Common.BE32 | src/op1/drum.go:99-100 | `PutUint32(uint32(n))` gives four bytes that read back as n modulo 2^32 |
| Common.ReadBE32 | main.go:209-210 | a big-endian 32-bit field is a value below 2^32 |
| Common.BE32OfRead | src/op1/drum.go:112-114 | writing back a field's value yields the same four bytes (round trip) |
| Common.ReadBE32Small | src/op1/drum.go:112-114 | a value below 2^32 written as a field reads back unchanged (round trip) |
| Common.IndexOf | src/op1/drum.go:73 | `bytes.Index`: a result is an occurrence with none before it; None exactly when the pattern never occurs |
| Common.IndexOfFirst | src/op1/drum.go:73 | any occurrence with none before it is the one `bytes.Index` finds |
| Models.Segment | src/ffmpeg/ffmpeg.go:188-190 | a built segment carries its bounds and file name, and its duration is End - Start |
| Models.LongOnlyAppend | src/ffmpeg/ffmpeg.go:216-228 | the > 0.1 s filter keeps order: filtering a concatenation filters each part |
| Models.LongOnlyMembers | src/ffmpeg/ffmpeg.go:218-222 | a segment survives the filter iff it was present and lasts more than 0.1 s |
| Models.KeepLong | src/ffmpeg/ffmpeg.go:216-229 | the compaction loop returns exactly the long segments in order, or "could not find any segments" when none is long |
| Container.Filler | src/op1/drum.go:93-124 | the filler after n passes is one byte 10 followed by n - 1 bytes 30 |
| Container.WithFormSize | src/op1/drum.go:111-117 | bytes 0..4 and 8.. are kept; bytes 4..8 read as (length - 8) mod 2^32 |
| Container.AlignedFillerLengthIsFirst | src/op1/drum.go:119-125 | among filler lengths 1..m the loop's exit test holds for exactly one: the first aligned one |
| Container.SpliceAligned | src/op1/drum.go:92-126 | the shared loop stops with a 1..m byte filler, the form size aligned, every shorter filler unaligned, and the output equals the reference splice |
| Container.AlignedSpliceIsAligned | src/op1/drum.go:111-125 | the spliced file is header + chunk + tail, aligned, with a form-size field equal to its length minus 8 |
| Container.InsertFillerLength | src/op1/drum.go:119-125 | the filler Save settles on is 1..m bytes and makes the form size a multiple of m |
| Container.ChunkBefore | src/op1/drum.go:95-109 | inserting before "SSND" adds 12 + json + filler bytes |
| Container.InsertChunkIsSplice | src/op1/drum.go:95-109 | inserting at p is the shared loop run on the file cut at p, with "APPL" added to the head |
| Container.InsertChunkLayout | src/op1/drum.go:95-117 | the written file is b[..4], BE32(len - 8), b[8..p], "APPL", BE32(4 + filler + json), "op-1", json, filler, b[p..]; the size field counts the bytes up to the moved "SSND"; the filler is 1..m bytes |
| Container.ChunkBeforeLayout | src/op1/drum.go:95-117 | the byte layout of an inserted chunk for any filler length |
| Container.ChunkBeforeSizeField | src/op1/drum.go:100 | the chunk size equals the byte count from the end of the size field to "SSND", and everything from "SSND" on is unchanged |
| Drum.Slots | src/op1/drum.go:19 | 24 copies of one value, as the default's per-slot lists |
| Drum.Normalized | src/op1/drum.go:80-85 | one step of `x * 8192 / 8192` in int64 lands in [-2^50, 2^50) |
| Drum.Wrap64 | src/op1/drum.go:81 | int64 arithmetic keeps results in [-2^63, 2^63) |
| Drum.NormalizedClosedForm | src/op1/drum.go:80-85 | `x * 8192 / 8192` in int64 equals x reduced to a signed 51-bit value |
| Drum.NormalizedKeeps | src/op1/drum.go:80-85 | the normalisation leaves x unchanged iff -2^50 <= x < 2^50 (\|x\| below 2^63/8192) |
| Drum.NormalizedAll | src/op1/drum.go:80-85 | the normalisation loops rewrite each slot bound independently |
| Drum.NormalizedAllKeeps | src/op1/drum.go:80-85 | bounds below 2^50 survive the normalisation unchanged |
| Drum.DefaultSurvivesNormalization | src/op1/drum.go:79-85 | saving the default patch does not alter its slots |
| Drum.DefaultPatchShape | src/op1/drum.go:19 | the default has 24 starts and ends, End[23] = 2032606256, each slot ordered |
| Drum.DrumPatch.constructor | src/op1/drum.go:48-50 | `NewDrumPatch` yields the compiled-in default |
| Drum.SaveOutcome | src/op1/drum.go:53-129 | Save succeeds iff the name ends in ".aif", the conversion produced a file and it holds "SSND"; errors come in that order; a written file is longer by more than 12 bytes and its form size is a multiple of 4 |
| Drum.DrumPatch.Save | src/op1/drum.go:53-129 | the ".aif" check comes first; "no SND tag" when "SSND" is missing; otherwise the bounds are normalised in place and the file is the aligned splice (mod 4) of the normalised patch |
| Drum.RoundHalfAway | src/convert/convert.go:40 | `math.Round` lies within 1/2 of its argument, and a tie goes up for x >= 0 and down for x < 0 (away from zero), which fixes the result uniquely |
| Drum.SlotPositionNear | src/convert/convert.go:40-41 | a slot position is a whole number of centiseconds (441 * 4058 units) within half a centisecond of the exact time |
| Drum.MappedSlots | src/convert/convert.go:38-51 | the mapping keeps the number of slots |
| Drum.MappedSlotsStep | src/convert/convert.go:39-49 | segment i goes to slot i iff the slot is not one of the last two, start <= end and end <= the last end; otherwise nothing changes |
| Drum.MappedSlotsBounds | src/convert/convert.go:38-51 | the two reserved slots and the last end never change; every slot either keeps its default or holds its own segment's admitted positions |
| Drum.MappedFieldsShape | src/convert/convert.go:37-51 | only Start/End change; slots 22 and 23 keep their defaults; every slot has start <= end <= 2032606256; a written slot holds its segment's centisecond-aligned positions |
| Drum.WriteSlot | src/convert/convert.go:39-49 | one pass of the slot loop advances the patch from the mapping of i segments to that of i + 1 |
| Convert.Ext | src/convert/convert.go:27 | `filepath.Ext` is the suffix of the path from the last '.' of its final element: a suffix without '/', starting with '.' and holding no other '.'; empty exactly when every '.' of the path is followed by a '/' |
| Convert.FilePart | src/convert/convert.go:68 | the file half of `filepath.Split` is the longest suffix without '/': it is the whole path or is preceded by '/' |
| Convert.TrimSuffix | src/convert/convert.go:27 | `strings.TrimSuffix` removes the suffix iff it is there |
| Convert.PatchName | src/convert/convert.go:27 | the output name ends in ".aif" and is the input with its extension replaced |
| Convert.DrumName | src/convert/convert.go:68-69 | `ToDrum`'s output name is the first file's base name with its extension replaced by "_patch.aif": it ends in ".aif", has no directory part, and its stem plus the extension is the base name |
| Convert.ExtInFilePart | src/convert/convert.go:68-69 | the extension lies within the base name, so trimming it from the base name removes it |
| Convert.MapSegments | src/convert/convert.go:37-51 | the slot loop on a fresh patch leaves exactly the mapped fields |
| Convert.ToDrumSplice | src/convert/convert.go:26-58 | tool failures, a split error and Save's errors propagate; otherwise the mapped patch is saved under the patch name |
| Convert.SpliceSucceeds | src/convert/convert.go:26-58 | success iff ToMono worked, the split found a segment, conversion worked and the file has "SSND" |
| Convert.CumulativeEnds | src/convert/convert.go:87-93 | the i-th end is the running, clamped sum of the first i + 1 counts |
| Convert.RunningEndClamped | src/convert/convert.go:87-92 | clamping at every step equals clamping the total once |
| Convert.CumulativeEndsClamped | src/convert/convert.go:87-92 | the ends are min(prefix sum, 529200): non-decreasing and within [0, 44100 * 12] |
| Convert.LayoutStarts | src/convert/convert.go:106-117 | the layout keeps the number of starts |
| Convert.LayoutEnds | src/convert/convert.go:106-117 | the layout keeps the number of ends |
| Convert.Counts | src/convert/convert.go:83 | one count per file, equal to its sample count when it has one |
| Convert.SampleEnds | src/convert/convert.go:73-95 | fails iff some file fails; otherwise the array holds the clamped running ends |
| Convert.LayOut | src/convert/convert.go:105-117 | the layout loop on a fresh patch leaves exactly the reference layout |
| Convert.ToDrum | src/convert/convert.go:60-124 | "no files!" for none, `ToDrumSplice` for one, otherwise the laid-out patch saved from the concatenation |
| Convert.ToDrumLayout | src/convert/convert.go:106-117 | slot i < min(24, files) starts where slot i - 1 ends (slot 0 at 0) and ends at the clamped running total times 4058; later slots keep their defaults |
| Convert.ToDrumEndsPastInt32 | src/convert/convert.go:90-116 | 529200 * 4058 = 2^31 - 1 + 9953, and a written end passes 2^31 - 1 iff the running total reaches 529198 samples |
| Ffmpeg.Step | src/ffmpeg/ffmpeg.go:185-212 | a line adds at most one segment; the next start moves to t + correction only on silence_end; an unparsed line changes nothing |
| Ffmpeg.Scan | src/ffmpeg/ffmpeg.go:185-214 | at most one stored segment per line |
| Ffmpeg.StepPreserves | src/ffmpeg/ffmpeg.go:185-212 | a line keeps every segment well formed, adds at most one, and changes at most the end of the last |
| Ffmpeg.ScanWellFormed | src/ffmpeg/ffmpeg.go:185-214 | every stored segment has duration End - Start and the file's name |
| Ffmpeg.SilenceEndRestarts | src/ffmpeg/ffmpeg.go:185-194 | after silence_end t the next start is t + correction; [Start, t + correction] is stored iff it lasts more than 0.25 s |
| Ffmpeg.TimeMarkStep | src/ffmpeg/ffmpeg.go:198-209 | after time= t the start stays; a [Start, t] shorter than 0.25 s with a stored segment before it moves that segment's end to t and recomputes its duration, otherwise [Start, t] is appended with the file's name |
| Ffmpeg.SplitOnSilence | src/ffmpeg/ffmpeg.go:165-229 | the line loop and the filter give the reference outcome |
| Ffmpeg.SplitOutcomeSegments | src/ffmpeg/ffmpeg.go:216-229 | the result holds exactly the scanned segments longer than 0.1 s, all well formed |
| Aubio.Onsets | src/aubio/aubio.go:33-41 | the onsets used are never 0 |
| Aubio.OnsetsAppend | src/aubio/aubio.go:33-46 | the onsets of two runs of lines are those of the first then those of the second: lines are used in order |
| Aubio.OnsetsMembers | src/aubio/aubio.go:34-41 | t is an onset iff some line parsed to t and t is not 0 (every parsed non-zero line is used) |
| Aubio.Chain | src/aubio/aubio.go:42-45 | one segment per accepted onset |
| Aubio.ChainContiguous | src/aubio/aubio.go:30-46 | the segments are contiguous from 0, the k-th ends at the k-th onset, and all carry the file name |
| Aubio.RawSegmentsShape | src/aubio/aubio.go:30-51 | contiguous from 0, file name everywhere, a tail segment iff the last start is before the duration, ending there |
| Aubio.SplitOnSilence | src/aubio/aubio.go:15-68 | the onset loop, tail and filter give the reference outcome, whatever silenceDB, minimum and correction are |
| Synth.Dense | src/op1/synth.go:497-499 | the list lo..hi has hi - lo + 1 elements, the k-th being lo + k |
| Synth.DenseHas | src/op1/synth.go:493-537 | v is in Range(lo, hi) iff lo <= v <= hi |
| Synth.Range | src/op1/synth.go:493-505 | for start <= end, the dense list start..end; inc is ignored |
| Synth.Has | src/op1/synth.go:530-537 | true iff the value occurs in the list |
| Synth.NewSynthSamplePatch | src/op1/synth.go:214-220 | the sampler default, with BaseFreq taken from the first argument when given |
| Synth.FirstBadParameter | src/op1/synth.go:309-314 | a reported index holds a value missing from its table, and every earlier value is in its table |
| Synth.FirstMismatch | src/op1/synth.go:305-339 | a reported index is the first rejected parameter of some setting of that name, and every earlier setting of that name accepts all the values |
| Synth.MismatchShift | src/op1/synth.go:305-308 | a setting of another name, or one that accepts the values, is skipped over by the search |
| Synth.FirstAdsrNone | src/op1/synth.go:293-302 | no ADSR error iff every ADSR[0..5] lies within its table's first and last entry |
| Synth.FirstAdsrFound | src/op1/synth.go:293-302 | the reported ADSR slot is out of bounds and every earlier one is within bounds |
| Synth.FirstBadParameterNone | src/op1/synth.go:305-339 | no parameter error iff every value is in its table |
| Synth.FirstMismatchNone | src/op1/synth.go:305-339 | no error iff the values conform to every setting of that name; unknown names impose nothing |
| Synth.CheckSetting | src/op1/synth.go:305-339 | the setting loop reports the first rejected parameter of the first matching setting that rejects one (its result is `FirstMismatch`) |
| Synth.Check | src/op1/synth.go:287-342 | the checks run in order: octave, ADSR bounds, engine, effect, LFO |
| Synth.CheckAcceptsValid | src/op1/synth.go:287-342 | `Check` returns nil iff the patch is valid |
| Synth.CheckReportsFirstAdsr | src/op1/synth.go:287-302 | an ADSR error means the octave passed and the slot is the first out of bounds |
| Synth.CheckReportsFirstEngine | src/op1/synth.go:287-315 | an engine error means the octave and ADSR checks passed, and it reports the first rejected knob of the first engine setting of the patch's type, with its value and type |
| Synth.CheckReportsFirstFx | src/op1/synth.go:287-327 | an fx error means the octave, ADSR and engine checks passed, and it reports the first rejected value of the first effect setting of the patch's fx type |
| Synth.CheckReportsFirstLfo | src/op1/synth.go:287-339 | an LFO error means every earlier check passed, and it reports the first rejected value of the first LFO setting of the patch's LFO type |
| Synth.DefaultIsValid | src/op1/synth.go:27 | the compiled-in default passes `Check` |
| Synth.SamplerDefaultIsValid | src/op1/synth.go:34-49 | the sampler default passes `Check` |
| Synth.TablesAreDrawable | src/op1/synth.go:90-207 | table names are distinct and every parameter has an allowed value |
| Synth.AdsrTablesOrdered | src/op1/synth.go:90-97 | every ADSR table entry lies between its first and last entry |
| Synth.DrawnConforms | src/op1/synth.go:232-249 | values drawn from the named setting's tables conform to that name |
| Synth.DrawParameters | src/op1/synth.go:231-234 | parameter i receives the drawn entry of its table; later entries are unchanged |
| Synth.RandomSynthPatch | src/op1/synth.go:222-254 | any draw yields a patch `Check` accepts, with effect and LFO on and the name the first field of its encoding |
| Synth.FirstField | src/op1/synth.go:252 | `strings.Split(s, "-")[0]` is the prefix before the first '-' |
| Synth.SignMagnitude | src/op1/synth.go:514-522 | the pre-encoding doubles the length |
| Synth.SignMagnitudeInverse | src/op1/synth.go:514-522 | the pre-encoding is invertible: distinct inputs give distinct lists |
| Synth.SignMagnitudeNonNegative | src/op1/synth.go:514-522 | every entry is non-negative and every sign flag is 0 or 1 |
| Synth.Hashid | src/op1/synth.go:507-528 | the loop fills the sign/magnitude list that is passed to hashids |
| Synth.Encode | src/op1/synth.go:256-284 | the name is an 8-character prefix, "p" then six characters then "-", followed by the hashed body |
| Synth.EncodeReadsOnlyEncodedFields | src/op1/synth.go:256-284 | `Encode` ignores Name, Octave, BaseFreq, entries 4..7 and an inactive effect or LFO |
| Synth.EncodeShape | src/op1/synth.go:281-282 | the body can be read back from the name after its first 8 characters; when the first six characters of the given md5 text hold no '-', the name's first field is "p" plus those six characters |
| Synth.SaveSynth | src/op1/synth.go:407-488 | suffix check, `Check`, input, "SSND" search, then the splice aligned to 2 |
| Synth.SaveSynthWritesValid | src/op1/synth.go:407-488 | only valid patches are written, only under ".aif" names, with an even form size |
| Synth.SaveSynthRejectsInvalid | src/op1/synth.go:408-416 | an invalid patch is refused with `Check`'s error before any input is read |
| Synth.BraceAfterMagic | src/op1/synth.go:350-362 | the slice `ReadSynthPatch` takes is within the file |
| Synth.ReadSynthJson | src/op1/synth.go:344-365 | the JSON read ends with '}' |
| Synth.ReadSynthJsonStopsAtFirstBrace | src/op1/synth.go:355-362 | the JSON read holds no '}' before its last byte |
| Synth.ReadBackSavedJson | src/op1/synth.go:344-365 | reading back a file the splice wrote yields the JSON that went in, for AIFF inputs without "op-1" and JSON whose only '}' is its last byte |
| Utils.GetStringInBetween | src/utils/utils.go:42-53 | a non-empty result means start was found and end is non-empty, and the result fits in the string with both markers |
| Utils.BetweenEmpty | src/utils/utils.go:42-51 | "" when start is missing, when end is missing after it, or when end is empty |
| Utils.BetweenSplits | src/utils/utils.go:42-53 | str = X + start + r + end + Y, with start first found after X and no end inside r |
| Utils.BetweenFinds | src/utils/utils.go:42-53 | conversely, for any such split the function returns r |
| Utils.TrimSpaceShape | src/utils/utils.go:64 | `TrimSpace` keeps a middle slice, removes only white space, and leaves none at either end |
| Utils.TrimSpaceIgnoresPadding | src/utils/utils.go:64 | surrounding white space does not change the trimmed string |
| Utils.Split | src/utils/utils.go:65 | `strings.Split` returns at least one part |
| Utils.SplitJoin | src/utils/utils.go:65 | joining the parts restores the string, and no part holds ':' |
| Utils.FirstUnparsed | src/utils/utils.go:72-77 | the reported part does not parse, and every part before it does |
| Utils.Multipliers | src/utils/utils.go:66-71 | three multipliers, chosen by the number of parts |
| Utils.SecondsOfIsClock | src/utils/utils.go:63-81 | a success is s, 60m + s or 3600h + 60m + s |
| Utils.ConvertToSeconds | src/utils/utils.go:63-81 | trim, split, and sum part times multiplier, stopping at the first part that does not parse |
| Utils.ThreeParts | src/utils/utils.go:63-81 | "h:m:s" with parseable fields gives 3600h + 60m + s |
| Utils.ClockExample | src/utils/utils.go:63-81 | a trimmed string of 1 to 3 parseable parts gives their clock reading |
| Utils.SecondsExample | src/utils/utils_test.go:9-25 | "11.5" is 11.5 s |
| Utils.MinutesExample | src/utils/utils_test.go:9-25 | "00:11.5" is 11.5 s |
| Utils.HoursExample | src/utils/utils_test.go:9-25 | "00:01:11.5" is 71.5 s |
| Utils.ZeroHoursExample | src/utils/utils_test.go:13-15 | "00:00:11.5" is 11.5 s |
| Utils.LongHoursExample | src/utils/utils_test.go:9-25 | "01:01:11.5" is 3671.5 s |
| AudioSegmentSplit.WindowStarts | src/audiosegment/audiosegment.go:41-63 | the starts are s0 + k * step for every such point below s0 + duration, and no more |
| AudioSegmentSplit.GridIncreasing | src/audiosegment/audiosegment.go:60-63 | with a positive step the starts strictly increase |
| AudioSegmentSplit.Splices | src/audiosegment/audiosegment.go:103-109 | n splices |
| AudioSegmentSplit.EqualSplices | src/audiosegment/audiosegment.go:103-109 | the in-place fill yields segment i from d*i/n to d*(i+1)/n |
| AudioSegmentSplit.SpliceDurations | src/audiosegment/audiosegment.go:105-107 | each splice lasts d/n |
| AudioSegmentSplit.SplicesShape | src/audiosegment/audiosegment.go:103-109 | the splices are contiguous from 0, end at d, and each lasts d/n and carries the window's file |
| AudioSegmentSplit.Stamped | src/audiosegment/audiosegment.go:120-122 | stamping keeps the number of segments |
| AudioSegmentSplit.MapWindow | src/audiosegment/audiosegment.go:119-137 | every segment, even past slot 21, gets the window bounds, and the slots are mapped as `ToDrumSplice` maps them |
| AudioSegmentSplit.DrawSegments | src/audiosegment/audiosegment.go:177-257 | "no segments" for an empty list; no error iff the list is non-empty and the last tool call succeeded |
| AudioSegmentSplit.Job | src/audiosegment/audiosegment.go:79-146 | one job's truncate, split with fallback, draw, slot map and Save give the reference outcome |
| AudioSegmentSplit.JobSilentWhenSaveFails | src/audiosegment/audiosegment.go:139-145 | a job sends nothing iff everything before Save worked and Save failed for lack of a converted file or "SSND" |
| AudioSegmentSplit.JobDoneShape | src/audiosegment/audiosegment.go:103-145 | a finished job's segments are non-empty and carry the window bounds; with splices they are the n contiguous splices of [0, d] |
| AudioSegmentSplit.Sent | src/audiosegment/audiosegment.go:139-145 | no silent job puts a result on the channel |
| AudioSegmentSplit.Collect | src/audiosegment/audiosegment.go:156-166 | numJobs receives, skipping failures; a receive past the last result never returns |
| AudioSegmentSplit.SentShort | src/audiosegment/audiosegment.go:139-145 | fewer results than jobs iff some job is silent |
| AudioSegmentSplit.SplitEqualHangs | src/audiosegment/audiosegment.go:139-166 | in any arrival order, SplitEqual never returns iff some job's Save failed; otherwise it returns the finished jobs' segments |
| MainProgram.Times | main.go:86-103 | at most one time per line |
| MainProgram.TimesAppend | main.go:86-103 | the times of two runs of lines are those of the first then those of the second: lines are used in order |
| MainProgram.TimesMembers | main.go:87-102 | t is used iff some silence_end or time= line parsed to t |
| MainProgram.BuildSegments | main.go:83-104 | the builder loop gives the reference segments |
| MainProgram.BuiltSegmentsShape | main.go:83-104 | contiguous from 0, one segment per parsed time, each ending at its time, with duration End - Start |
| MainProgram.Named | main.go:107-114 | the naming loop keeps the number of segments |
| MainProgram.StepKeepsInv | main.go:122-135 | one pass of the grouping loop keeps order, the cap, and the closing rule |
| MainProgram.GroupScanInv | main.go:117-135 | the grouping invariant holds after any prefix |
| MainProgram.GroupsShape | main.go:117-141 | the groups concatenate to the input; a group of 2+ pieces lasts at most 11.5 s; a group closes only when the next piece would pass 11.5 s; the first group is empty iff there is nothing to group or the first piece alone passes 11.5 s |
| MainProgram.GroupsCount | main.go:117-141 | at most one group more than segments |
| MainProgram.GroupMerges | main.go:117-141 | the merge lists are the file names of the groups, in call order |
| MainProgram.GetSilences | main.go:74-144 | building, naming and grouping give the reference merge plan |
| MainProgram.MergePlanCoversCuts | main.go:107-141 | the merges take every cut file exactly once, in cut order |
| MainProgram.ReplaceChunk | main.go:207-273 | a panic when the JSON slice is inverted or the lists are short; a decode error returns; otherwise the aligned splice of the edited JSON |
| MainProgram.Run | main.go:192-276 | read, find "APPL" and then "SSND", and replace the chunk, as the reference outcome |
| MainProgram.RunNotWritten | main.go:192-204 | nothing is written and nil is returned iff the file was read but has no "APPL", or no "SSND" after it |
| MainProgram.RunWrittenLayout | main.go:244-273 | (predicate WrittenLayout) the old chunk held decodable JSON with at least two start and one end slot; the output is b[..a+4], BE32(4 + filler + json), "op-1", json, a 1..4 byte filler, then b from "SSND" on, with form size = length - 8, a multiple of 4 |

## Left out

- I/O and external tools. Reading and writing files, `exec.Command` calls,
  logging and printing are left out. The tools' parsed outputs and success
  flags are inputs.
- Errors of `ioutil.WriteFile` and `json.Marshal`. They are not modelled, and
  marshalling is total.
- Concurrency in `SplitEqual`. The worker pool and channels are left out.
  The order in which results arrive is an input to `Collect`, and one job
  is modelled at a time (`Job`).
- `SplitEqual`'s own preamble. The `Convert` call, the ffprobe duration and
  start parsing, and the `%s%03d` file names are left out. Duration, start
  and names are inputs.
- aubio: a failure of `aubioonset` or `NumSamples` is not modelled. The
  splitter only reports "could not find any segments". The duration is an
  input.
- ffmpeg: a failure of the `silencedetect` command (src/ffmpeg/ffmpeg.go:135-162)
  is not modelled. Lines come in already classified and parsed.
- AudioSegmentSplit.WindowStarts: requires a positive step or a duration
  that is not positive. With a step <= 0 and a positive duration the Go
  loop never ends.
- Floating point. Times are exact reals, so float64 rounding of
  `d*i/n`, of `secondsMax - secondsOverlap` and of the slot positions is not
  modelled. The `int64` conversion of a slot position is not wrapped.
- Go slice aliasing. `NewDrumPatch` returns a struct whose slices share
  the global default (src/op1/drum.go:48-50), so slot writes leak into
  later patches. The model gives every patch its own copy of the default.
- Synth.Range: requires start <= end. Go panics on `r[-1]` otherwise.
- Utils.ConvertToSeconds: requires at most three parts. With four or more
  parts Go returns ParseFloat's error when one of the first four parts does
  not parse (src/utils/utils.go:72-76), and otherwise panics indexing past
  `multipliers`; neither case, e.g. "x:1:2:3", is modelled.
- Synth.Hashid: `math.Abs(float64(v))` is taken as the exact |v|. The
  precision loss above 2^53 is not modelled.
- Synth.RandomSynthPatch: `rand.Intn(n)` is `draw(k) % n` for a draw
  function given as input. Seeding is not modelled.
- Synth.ReadBackSavedJson: holds only under its stated conditions, namely
  an AIFF input, sizes below 2^24, and no '}' inside the JSON. json.Marshal
  output in general is not characterised.
- `ReadSynthPatch`: `json.Unmarshal` is not modelled. The model stops at the
  bytes it would decode.
- `SaveSample`, `SaveSynth`'s defaultSynthAif contents, `NewSynthPatch`'s
  JSON decoding: the built-in sample is an input and the decoded defaults
  are constants.
- main.go: the merged-file names (`mergeNum`), errors of the cut and merge
  calls (which return early), the `log.Fatal`, and main.go's duplicates of
  `ConvertToSeconds`, `GetStringInBetween` and the drum default.
- main.go: `run` decodes into `OP1MetaData`, which has the drum patch's
  fields. It is modelled with the drum field record.
- src/models is not part of this model beyond the `AudioSegment` fields
  the core uses.
- `ToDrum`'s and `ToDrumSplice`'s messages and the temporary files.
- src/server, src/download, src/build, src/transform and src/waveform are
  not part of this model.
