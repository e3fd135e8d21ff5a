/** OP-1 synth patches (src/op1/synth.go): the tables of allowed parameter
    values, the validation Check performs, random patches drawn from the
    tables, the name Encode builds, and SaveSynth / ReadSynthPatch, which
    write the patch's JSON into an AIFF file and find it again. */
module Synth {
  import opened Common
  import Container

  /** The inclusive integer list lo, lo + 1, ..., hi. */
  function Dense(lo: int, hi: int): (r: seq<int>)
    requires lo <= hi + 1
    ensures |r| == hi - lo + 1
    ensures forall k :: 0 <= k < |r| ==> r[k] == lo + k
  {
    seq(hi - lo + 1, k requires 0 <= k < hi - lo + 1 => lo + k)
  }

  /** A dense list holds exactly the integers between its ends. */
  lemma DenseHas(lo: int, hi: int, v: int)
    requires lo <= hi
    ensures v in Dense(lo, hi) <==> lo <= v <= hi
  {
    if lo <= v <= hi {
      assert Dense(lo, hi)[v - lo] == v;
    }
  }

  /** Range (src/op1/synth.go:493-505): start == end gives [start]; otherwise
      the loop appends start..end and the last element is set to end, which
      it already is.  inc is ignored.  With start > end the Go code indexes
      r[-1] and panics, hence the precondition. */
  method Range(start: int, end: int, inc: int) returns (r: seq<int>)
    requires start <= end
    ensures r == Dense(start, end)
  {
    if start == end {
      return [start];
    }
    r := [];
    var i := start;
    while i <= end
      invariant start <= i <= end + 1
      invariant r == Dense(start, i - 1)
    {
      r := r + [i];
      i := i + 1;
    }
    // the guarded overwrite of the last element, whose guard is never true
    r := r[|r| - 1 := end];
  }

  /** Has (src/op1/synth.go:530-537). */
  method Has(list: seq<int>, val: int) returns (found: bool)
    ensures found <==> val in list
  {
    for i := 0 to |list|
      invariant val !in list[..i]
    {
      if list[i] == val {
        return true;
      }
    }
    assert list[..|list|] == list;
    return false;
  }

  /** An engine, effect or LFO and the allowed values of its parameters. */
  datatype Setting = Setting(name: string, parameters: seq<seq<int>>)

  /** AllowedADSR (src/op1/synth.go:90-97): attack, decay, sustain, release,
      play mode, portamento. */
  const AllowedADSR: seq<seq<int>> := [
    Dense(64, 16320), Dense(64, 16320), Dense(0, 32767), Dense(64, 16320),
    [2048, 5120, 11264, 14336], [64, 192, 6140]]

  /** AllowedEngine (src/op1/synth.go:101-139). */
  const AllowedEngine: seq<Setting> := [
    Setting("cluster", [Dense(3072, 17408), Dense(0, 32767), Dense(512, 24064), Dense(3, 1638)]),
    Setting("digital", [Dense(0, 32767), Dense(2048, 26624), Dense(-32768, 32767), Dense(0, 32767)]),
    Setting("dna", [Dense(-29491, 32767), Dense(4608, 12800), Dense(0, 32767), Dense(0, 32767)]),
    Setting("drwave", [Dense(0, 32767), Dense(0, 32767), Dense(0, 32767), Dense(0, 32767),
                       Dense(32000, 32000)])]

  /** AllowedEffects (src/op1/synth.go:141-182). */
  const AllowedEffects: seq<Setting> := [
    Setting("nitro", [Dense(64, 16448), Dense(-32768, 32768), Dense(0, 20643), Dense(64, 16448)]),
    Setting("cwo", [Dense(0, 32767), Dense(0, 32767), Dense(0, 32767), Dense(0, 32767)]),
    Setting("delay", [Dense(1024, 11264), Dense(3276, 32767), Dense(0, 16384), Dense(0, 32767)]),
    Setting("grid", [Dense(1344, 16704), Dense(1344, 16704), Dense(0, 32767), Dense(0, 32767),
                     Dense(8000, 8000), Dense(8000, 8000), Dense(8000, 8000), Dense(8000, 8000)])]

  /** AllowedLFO (src/op1/synth.go:184-207); the source spells the second
      one "tremelo", so a patch of LFO type "tremolo" is not constrained. */
  const AllowedLFO: seq<Setting> := [
    Setting("element", [[7168, 5056, 5280, 2000, 2144], Dense(-32767, 32767),
                        [1024, 2000, 2448, 5056, 7168], [1024, 2000, 5056, 5824, 10526, 15360]]),
    Setting("tremelo", [Dense(16400, 32440), Dense(-32767, 32767), Dense(-32767, 32767)])]

  /** SynthPatch (src/op1/synth.go:57-71); the four [8]int arrays are
      sequences of length 8. */
  datatype SynthPatch = SynthPatch(
    adsr: seq<int>, fxActive: bool, fxParams: seq<int>, fxType: string,
    knobs: seq<int>, lfoActive: bool, lfoParams: seq<int>, lfoType: string,
    name: string, octave: int, synthVersion: int, patchType: string, baseFreq: real)

  /** The shape Go's [8]int arrays guarantee. */
  predicate WellFormed(s: SynthPatch)
  {
    |s.adsr| == 8 && |s.fxParams| == 8 && |s.knobs| == 8 && |s.lfoParams| == 8
  }

  /** The default patch decoded by init (src/op1/synth.go:27), returned by
      NewSynthPatch. */
  const DefaultSynthPatch: SynthPatch := SynthPatch(
    [64, 64, 0, 64, 14336, 64, 4000, 4000], true, [64, -14337, 4515, 7232, 0, 0, 0, 0],
    "nitro", [3072, 0, 512, 3, 0, 0, 0, 0], false, [4608, 32767, 8448, 15360, 0, 0, 0, 0],
    "value", "default", 0, 2, "cluster", 0.0)

  /** The sampler default decoded by init from its second literal
      (src/op1/synth.go:34-49); the first literal at line 33 is overwritten
      before it is decoded. */
  const DefaultSamplerPatch: SynthPatch := SynthPatch(
    [512, 10746, 32767, 10000, 4000, 64, 4000, 4000], false, [4480, 15544, 10788, 12104, 0, 0, 0, 0],
    "delay", [0, 0, 32767, 32767, 12000, 0, 0, 8304], false, [11840, 18431, 1024, 15144, 0, 0, 0, 0],
    "random", "20150108_0251", 0, 1, "sampler", 261.6253662109375)

  /** NewSynthSamplePatch (src/op1/synth.go:214-220): the sampler default,
      with the base frequency replaced when one is given. */
  function NewSynthSamplePatch(freq: seq<real>): (sd: SynthPatch)
    ensures sd.baseFreq == if |freq| > 0 then freq[0] else 261.6253662109375
    ensures sd.(baseFreq := 0.0) == DefaultSamplerPatch.(baseFreq := 0.0)
  {
    if |freq| > 0 then DefaultSamplerPatch.(baseFreq := freq[0]) else DefaultSamplerPatch
  }

  datatype CheckError =
    | OctaveOutOfRange                                   // "octave out of range"
    | AdsrOutOfBounds(index: nat)                        // "adsr %d is out of bounds"
    | EngineOutOfBounds(index: nat, value: int, engine: string)
    | FxOutOfBounds(index: nat, value: int, fx: string)
    | LfoOutOfBounds(index: nat, value: int, lfo: string)

  function Last(s: seq<int>): int
    requires |s| > 0
  {
    s[|s| - 1]
  }

  /** The ADSR check is a bounds check against the first and last entry. */
  predicate AdsrInBounds(adsr: seq<int>, i: nat)
    requires i < 6 && |adsr| == 8
  {
    AllowedADSR[i][0] <= adsr[i] <= Last(AllowedADSR[i])
  }

  /** The first ADSR slot at or after i that fails the bounds check. */
  function FirstAdsrOutOfBounds(adsr: seq<int>, i: nat): Option<nat>
    requires |adsr| == 8 && i <= 6
    decreases 6 - i
  {
    if i == 6 then None
    else if !AdsrInBounds(adsr, i) then Some(i)
    else FirstAdsrOutOfBounds(adsr, i + 1)
  }

  /** Every parameter table of a setting fits the values it is checked on. */
  predicate Fits(settings: seq<Setting>, vals: seq<int>)
  {
    forall j :: 0 <= j < |settings| ==> |settings[j].parameters| <= |vals|
  }

  /** The first parameter index at or after i whose value is not allowed. */
  function FirstBadParameter(params: seq<seq<int>>, vals: seq<int>, i: nat): (r: Option<nat>)
    requires |params| <= |vals| && i <= |params|
    ensures r.Some? ==> i <= r.value < |params| && vals[r.value] !in params[r.value]
    ensures r.Some? ==> forall k :: i <= k < r.value ==> vals[k] in params[k]
    decreases |params| - i
  {
    if i == |params| then None
    else if vals[i] !in params[i] then Some(i)
    else FirstBadParameter(params, vals, i + 1)
  }

  /** Reference definition of one of Check's setting loops: the first bad
      parameter of the first setting named name that has one. */
  function FirstMismatch(settings: seq<Setting>, name: string, vals: seq<int>): (r: Option<nat>)
    requires Fits(settings, vals)
    ensures r.Some? ==> r.value < |vals| && MismatchAt(settings, name, vals, r.value)
  {
    if settings == [] then None
    else
      var rest := FirstMismatch(settings[1..], name, vals);
      if settings[0].name != name then
        if rest.Some? then MismatchShift(settings, name, vals, rest.value); rest else rest
      else match FirstBadParameter(settings[0].parameters, vals, 0)
        case Some(i) =>
          assert FirstRejected(settings[0], vals, i);
          Some(i)
        case None =>
          FirstBadParameterNone(settings[0].parameters, vals, 0);
          if rest.Some? then MismatchShift(settings, name, vals, rest.value); rest else rest
  }

  /** Setting st has every value it holds a table for. */
  predicate Accepts(st: Setting, vals: seq<int>)
    requires |st.parameters| <= |vals|
  {
    forall k :: 0 <= k < |st.parameters| ==> vals[k] in st.parameters[k]
  }

  /** Parameter i is the first one whose value setting st does not have. */
  predicate FirstRejected(st: Setting, vals: seq<int>, i: nat)
    requires |st.parameters| <= |vals|
  {
    && i < |st.parameters| && vals[i] !in st.parameters[i]
    && forall k :: 0 <= k < i ==> vals[k] in st.parameters[k]
  }

  /** Index i is the first rejected parameter of a setting named name, and
      every earlier setting of that name has all the values. */
  predicate MismatchAt(settings: seq<Setting>, name: string, vals: seq<int>, i: nat)
    requires Fits(settings, vals)
  {
    exists j :: 0 <= j < |settings| && settings[j].name == name && FirstRejected(settings[j], vals, i)
                && forall m :: 0 <= m < j && settings[m].name == name ==> Accepts(settings[m], vals)
  }

  /** A mismatch in the settings after the first is one of the whole list
      when the first setting is of another name or has every value. */
  lemma MismatchShift(settings: seq<Setting>, name: string, vals: seq<int>, i: nat)
    requires settings != [] && Fits(settings, vals) && Fits(settings[1..], vals)
    requires settings[0].name != name || Accepts(settings[0], vals)
    requires MismatchAt(settings[1..], name, vals, i)
    ensures MismatchAt(settings, name, vals, i)
  {
    var j :| 0 <= j < |settings[1..]| && settings[1..][j].name == name && FirstRejected(settings[1..][j], vals, i)
             && forall m :: 0 <= m < j && settings[1..][m].name == name ==> Accepts(settings[1..][m], vals);
    assert settings[j + 1] == settings[1..][j];
    forall m | 0 <= m < j + 1 && settings[m].name == name
      ensures Accepts(settings[m], vals)
    {
      if m > 0 {
        assert settings[m] == settings[1..][m - 1];
      }
    }
  }

  /** Reference outcome of Check (src/op1/synth.go:287-342). */
  function CheckResult(s: SynthPatch): Option<CheckError>
    requires WellFormed(s)
  {
    if s.octave < -2 || s.octave > 2 then Some(OctaveOutOfRange)
    else if FirstAdsrOutOfBounds(s.adsr, 0).Some? then
      Some(AdsrOutOfBounds(FirstAdsrOutOfBounds(s.adsr, 0).value))
    else if FirstMismatch(AllowedEngine, s.patchType, s.knobs).Some? then
      var i := FirstMismatch(AllowedEngine, s.patchType, s.knobs).value;
      Some(EngineOutOfBounds(i, s.knobs[i], s.patchType))
    else if FirstMismatch(AllowedEffects, s.fxType, s.fxParams).Some? then
      var i := FirstMismatch(AllowedEffects, s.fxType, s.fxParams).value;
      Some(FxOutOfBounds(i, s.fxParams[i], s.fxType))
    else if FirstMismatch(AllowedLFO, s.lfoType, s.lfoParams).Some? then
      var i := FirstMismatch(AllowedLFO, s.lfoType, s.lfoParams).value;
      Some(LfoOutOfBounds(i, s.lfoParams[i], s.lfoType))
    else None
  }

  /** The values satisfy every setting named name; a name no setting has
      imposes nothing. */
  predicate Conforms(settings: seq<Setting>, name: string, vals: seq<int>)
    requires Fits(settings, vals)
  {
    forall j, i ::
      (0 <= j < |settings| && settings[j].name == name && 0 <= i < |settings[j].parameters|)
      ==> vals[i] in settings[j].parameters[i]
  }

  /** A patch Check accepts, stated declaratively. */
  predicate ValidPatch(s: SynthPatch)
    requires WellFormed(s)
  {
    && -2 <= s.octave <= 2
    && (forall i :: 0 <= i < 6 ==> AdsrInBounds(s.adsr, i))
    && Conforms(AllowedEngine, s.patchType, s.knobs)
    && Conforms(AllowedEffects, s.fxType, s.fxParams)
    && Conforms(AllowedLFO, s.lfoType, s.lfoParams)
  }

  lemma {:induction false} FirstAdsrNone(adsr: seq<int>, i: nat)
    requires |adsr| == 8 && i <= 6
    ensures FirstAdsrOutOfBounds(adsr, i).None? <==> forall k :: i <= k < 6 ==> AdsrInBounds(adsr, k)
    decreases 6 - i
  {
    if i < 6 {
      FirstAdsrNone(adsr, i + 1);
    }
  }

  lemma {:induction false} FirstBadParameterNone(params: seq<seq<int>>, vals: seq<int>, i: nat)
    requires |params| <= |vals| && i <= |params|
    ensures FirstBadParameter(params, vals, i).None?
            <==> forall k :: i <= k < |params| ==> vals[k] in params[k]
    decreases |params| - i
  {
    if i < |params| {
      FirstBadParameterNone(params, vals, i + 1);
    }
  }

  lemma {:induction false} FirstMismatchNone(settings: seq<Setting>, name: string, vals: seq<int>)
    requires Fits(settings, vals)
    ensures FirstMismatch(settings, name, vals).None? <==> Conforms(settings, name, vals)
  {
    if settings != [] {
      FirstMismatchNone(settings[1..], name, vals);
      FirstBadParameterNone(settings[0].parameters, vals, 0);
      if Conforms(settings[1..], name, vals) && (settings[0].name == name ==>
           forall k :: 0 <= k < |settings[0].parameters| ==> vals[k] in settings[0].parameters[k]) {
        forall j, i | 0 <= j < |settings| && settings[j].name == name
                      && 0 <= i < |settings[j].parameters|
          ensures vals[i] in settings[j].parameters[i]
        {
          if j > 0 {
            assert settings[j] == settings[1..][j - 1];
          }
        }
      }
      if Conforms(settings, name, vals) {
        forall j, i | 0 <= j < |settings[1..]| && settings[1..][j].name == name
                      && 0 <= i < |settings[1..][j].parameters|
          ensures vals[i] in settings[1..][j].parameters[i]
        {
          assert settings[1..][j] == settings[j + 1];
        }
      }
    }
  }

  lemma TablesFit(s: SynthPatch)
    requires WellFormed(s)
    ensures Fits(AllowedEngine, s.knobs) && Fits(AllowedEffects, s.fxParams)
    ensures Fits(AllowedLFO, s.lfoParams)
  {
  }

  /** Check accepts a patch exactly when it is valid. */
  lemma CheckAcceptsValid(s: SynthPatch)
    requires WellFormed(s)
    ensures CheckResult(s).None? <==> ValidPatch(s)
  {
    TablesFit(s);
    FirstAdsrNone(s.adsr, 0);
    FirstMismatchNone(AllowedEngine, s.patchType, s.knobs);
    FirstMismatchNone(AllowedEffects, s.fxType, s.fxParams);
    FirstMismatchNone(AllowedLFO, s.lfoType, s.lfoParams);
  }

  /** The error Check reports names the first failing check: an ADSR error
      means the octave passed and every earlier ADSR slot is in bounds. */
  lemma CheckReportsFirstAdsr(s: SynthPatch, i: nat)
    requires WellFormed(s) && CheckResult(s) == Some(AdsrOutOfBounds(i))
    ensures -2 <= s.octave <= 2 && i < 6 && !AdsrInBounds(s.adsr, i)
    ensures forall k :: 0 <= k < i ==> AdsrInBounds(s.adsr, k)
  {
    FirstAdsrFound(s.adsr, 0);
  }

  /** An engine error names the first value Check rejects: the octave and
      every ADSR slot passed, and the index is the first rejected parameter
      of the first engine setting of the patch's type that rejects one. */
  lemma CheckReportsFirstEngine(s: SynthPatch, i: nat, v: int, t: string)
    requires WellFormed(s) && CheckResult(s) == Some(EngineOutOfBounds(i, v, t))
    ensures -2 <= s.octave <= 2 && forall k :: 0 <= k < 6 ==> AdsrInBounds(s.adsr, k)
    ensures t == s.patchType && i < 8 && v == s.knobs[i]
    ensures Fits(AllowedEngine, s.knobs) && MismatchAt(AllowedEngine, t, s.knobs, i)
  {
    TablesFit(s);
    FirstAdsrNone(s.adsr, 0);
  }

  /** An fx error: the octave, ADSR and engine checks passed, and the index
      is the first rejected parameter of the first effect setting of the
      patch's fx type that rejects one. */
  lemma CheckReportsFirstFx(s: SynthPatch, i: nat, v: int, t: string)
    requires WellFormed(s) && CheckResult(s) == Some(FxOutOfBounds(i, v, t))
    ensures -2 <= s.octave <= 2 && forall k :: 0 <= k < 6 ==> AdsrInBounds(s.adsr, k)
    ensures Fits(AllowedEngine, s.knobs) && Conforms(AllowedEngine, s.patchType, s.knobs)
    ensures t == s.fxType && i < 8 && v == s.fxParams[i]
    ensures Fits(AllowedEffects, s.fxParams) && MismatchAt(AllowedEffects, t, s.fxParams, i)
  {
    TablesFit(s);
    FirstAdsrNone(s.adsr, 0);
    FirstMismatchNone(AllowedEngine, s.patchType, s.knobs);
  }

  /** An LFO error: every earlier check passed, and the index is the first
      rejected parameter of the first LFO setting of the patch's LFO type
      that rejects one. */
  lemma CheckReportsFirstLfo(s: SynthPatch, i: nat, v: int, t: string)
    requires WellFormed(s) && CheckResult(s) == Some(LfoOutOfBounds(i, v, t))
    ensures -2 <= s.octave <= 2 && forall k :: 0 <= k < 6 ==> AdsrInBounds(s.adsr, k)
    ensures Fits(AllowedEngine, s.knobs) && Conforms(AllowedEngine, s.patchType, s.knobs)
    ensures Fits(AllowedEffects, s.fxParams) && Conforms(AllowedEffects, s.fxType, s.fxParams)
    ensures t == s.lfoType && i < 8 && v == s.lfoParams[i]
    ensures Fits(AllowedLFO, s.lfoParams) && MismatchAt(AllowedLFO, t, s.lfoParams, i)
  {
    TablesFit(s);
    FirstAdsrNone(s.adsr, 0);
    FirstMismatchNone(AllowedEngine, s.patchType, s.knobs);
    FirstMismatchNone(AllowedEffects, s.fxType, s.fxParams);
  }

  lemma {:induction false} FirstAdsrFound(adsr: seq<int>, i: nat)
    requires |adsr| == 8 && i <= 6
    ensures match FirstAdsrOutOfBounds(adsr, i)
      case Some(k) => i <= k < 6 && !AdsrInBounds(adsr, k)
                      && forall m :: i <= m < k ==> AdsrInBounds(adsr, m)
      case None => true
    decreases 6 - i
  {
    if i < 6 {
      FirstAdsrFound(adsr, i + 1);
    }
  }

  /** One of Check's setting loops (src/op1/synth.go:305-339): skip settings
      of another name, and within a matching one report the first parameter
      whose value the table does not have. */
  method CheckSetting(settings: seq<Setting>, name: string, vals: seq<int>) returns (bad: Option<nat>)
    requires Fits(settings, vals)
    ensures bad == FirstMismatch(settings, name, vals)
  {
    for j := 0 to |settings|
      invariant FirstMismatch(settings[j..], name, vals) == FirstMismatch(settings, name, vals)
    {
      assert settings[j..][1..] == settings[j + 1..];
      if settings[j].name != name {
        continue;
      }
      var params := settings[j].parameters;
      for i := 0 to |params|
        invariant FirstBadParameter(params, vals, i) == FirstBadParameter(params, vals, 0)
      {
        var ok := Has(params[i], vals[i]);
        if !ok {
          return Some(i);
        }
      }
    }
    return None;
  }

  /** Check (src/op1/synth.go:287-342). */
  method Check(s: SynthPatch) returns (err: Option<CheckError>)
    requires WellFormed(s)
    ensures err == CheckResult(s)
  {
    if s.octave < -2 || s.octave > 2 {
      return Some(OctaveOutOfRange);
    }
    for i := 0 to |AllowedADSR|
      invariant FirstAdsrOutOfBounds(s.adsr, i) == FirstAdsrOutOfBounds(s.adsr, 0)
    {
      var min := AllowedADSR[i][0];
      var max := AllowedADSR[i][|AllowedADSR[i]| - 1];
      if s.adsr[i] < min || s.adsr[i] > max {
        return Some(AdsrOutOfBounds(i));
      }
    }
    TablesFit(s);
    var bad := CheckSetting(AllowedEngine, s.patchType, s.knobs);
    if bad.Some? {
      return Some(EngineOutOfBounds(bad.value, s.knobs[bad.value], s.patchType));
    }
    bad := CheckSetting(AllowedEffects, s.fxType, s.fxParams);
    if bad.Some? {
      return Some(FxOutOfBounds(bad.value, s.fxParams[bad.value], s.fxType));
    }
    bad := CheckSetting(AllowedLFO, s.lfoType, s.lfoParams);
    if bad.Some? {
      return Some(LfoOutOfBounds(bad.value, s.lfoParams[bad.value], s.lfoType));
    }
    return None;
  }

  /** The compiled-in default passes Check; no LFO table is named "value". */
  lemma DefaultIsValid()
    ensures WellFormed(DefaultSynthPatch) && ValidPatch(DefaultSynthPatch)
  {
    DenseHas(3072, 17408, 3072);
    DenseHas(0, 32767, 0);
    DenseHas(512, 24064, 512);
    DenseHas(3, 1638, 3);
    DenseHas(64, 16448, 64);
    DenseHas(-32768, 32768, -14337);
    DenseHas(0, 20643, 4515);
    DenseHas(64, 16448, 7232);
  }

  /** The sampler default passes Check; "sampler" and "random" are names no
      table has. */
  lemma SamplerDefaultIsValid()
    ensures WellFormed(DefaultSamplerPatch) && ValidPatch(DefaultSamplerPatch)
  {
    DenseHas(1024, 11264, 4480);
    DenseHas(3276, 32767, 15544);
    DenseHas(0, 16384, 10788);
    DenseHas(0, 32767, 12104);
  }

  /** Setting names within a table are distinct, so a type selects at most
      one setting. */
  predicate DistinctNames(settings: seq<Setting>)
  {
    forall a, b :: 0 <= a < |settings| && 0 <= b < |settings| && settings[a].name == settings[b].name
                   ==> a == b
  }

  /** Every parameter has at least one allowed value. */
  predicate Drawable(settings: seq<Setting>)
  {
    forall j, i :: 0 <= j < |settings| && 0 <= i < |settings[j].parameters|
                   ==> |settings[j].parameters[i]| > 0
  }

  lemma TablesAreDrawable()
    ensures DistinctNames(AllowedEngine) && Drawable(AllowedEngine)
    ensures DistinctNames(AllowedEffects) && Drawable(AllowedEffects)
    ensures DistinctNames(AllowedLFO) && Drawable(AllowedLFO)
    ensures forall i :: 0 <= i < 6 ==> |AllowedADSR[i]| > 0
  {
    EngineTableDrawable();
    EffectsTableDrawable();
    LfoTableDrawable();
  }

  lemma EngineTableDrawable()
    ensures DistinctNames(AllowedEngine) && Drawable(AllowedEngine)
  {
  }

  lemma EffectsTableDrawable()
    ensures DistinctNames(AllowedEffects) && Drawable(AllowedEffects)
  {
  }

  lemma LfoTableDrawable()
    ensures DistinctNames(AllowedLFO) && Drawable(AllowedLFO)
  {
  }

  /** Every entry of an ADSR table lies between its first and last entry, so
      any drawn value passes the bounds check. */
  lemma AdsrTablesOrdered(i: nat, idx: nat)
    requires i < 6 && idx < |AllowedADSR[i]|
    ensures AllowedADSR[i][0] <= AllowedADSR[i][idx] <= Last(AllowedADSR[i])
  {
  }

  /** Values drawn from the one setting of that name conform to the table. */
  lemma DrawnConforms(settings: seq<Setting>, j: nat, vals: seq<int>)
    requires j < |settings| && DistinctNames(settings) && Fits(settings, vals)
    requires forall i :: 0 <= i < |settings[j].parameters| ==> vals[i] in settings[j].parameters[i]
    ensures Conforms(settings, settings[j].name, vals)
  {
  }

  /** One of RandomSynthPatch's parameter loops (src/op1/synth.go:231-234,
      237-240, 244-247): parameter i gets the entry of its table chosen by the
      next draw; later entries keep their values. */
  method DrawParameters(params: seq<seq<int>>, vals: seq<int>, draw: nat -> nat, k: nat)
    returns (drawn: seq<int>, next: nat)
    requires |params| <= |vals| && forall i :: 0 <= i < |params| ==> |params[i]| > 0
    ensures |drawn| == |vals| && next == k + |params|
    ensures forall i :: 0 <= i < |params| ==> drawn[i] == params[i][draw(k + i) % |params[i]|]
    ensures forall i :: 0 <= i < |params| ==> drawn[i] in params[i]
    ensures drawn[|params|..] == vals[|params|..]
  {
    drawn, next := vals, k;
    for i := 0 to |params|
      invariant |drawn| == |vals| && next == k + i
      invariant forall m :: 0 <= m < i ==> drawn[m] == params[m][draw(k + m) % |params[m]|]
      invariant drawn[i..] == vals[i..]
    {
      drawn := drawn[i := params[i][draw(next) % |params[i]|]];
      next := next + 1;
    }
  }

  /** The prefix of s before its first '-', as strings.Split(s, "-")[0]. */
  function FirstField(s: string): (r: string)
    ensures r <= s && '-' !in r
    ensures r == s || s[|r|] == '-'
  {
    match IndexOf(s, "-")
    case None =>
      NoDashBefore(s, |s|);
      s
    case Some(i) =>
      NoDashBefore(s, i);
      s[..i]
  }

  lemma NoDashBefore(s: string, i: nat)
    requires i <= |s| && forall k :: 0 <= k < i ==> !OccursAt(s, "-", k)
    ensures '-' !in s[..i]
  {
    forall k | 0 <= k < i
      ensures s[k] != '-'
    {
      assert !OccursAt(s, "-", k) && k + 1 <= |s|;
      assert s[k..k + 1] == [s[k]] && "-" == ['-'];
    }
  }

  /** Hashid's pre-encoding (src/op1/synth.go:514-522): each value v becomes
      the pair (0 if v < 0 else 1, |v|). */
  function SignMagnitude(ints: seq<int>): (r: seq<int>)
    ensures |r| == 2 * |ints|
  {
    if ints == [] then []
    else
      var v := ints[|ints| - 1];
      SignMagnitude(ints[..|ints| - 1]) + [if v < 0 then 0 else 1, if v < 0 then -v else v]
  }

  /** Reads a pre-encoded list back: sign flag 0 negates the magnitude. */
  function FromSignMagnitude(pairs: seq<int>): seq<int>
    requires |pairs| % 2 == 0
  {
    if pairs == [] then []
    else
      var n := |pairs|;
      FromSignMagnitude(pairs[..n - 2]) + [if pairs[n - 2] == 0 then -pairs[n - 1] else pairs[n - 1]]
  }

  /** The pre-encoding loses nothing: distinct inputs reach hashids as
      distinct lists. */
  lemma {:induction false} SignMagnitudeInverse(ints: seq<int>)
    ensures FromSignMagnitude(SignMagnitude(ints)) == ints
  {
    if ints != [] {
      var init := ints[..|ints| - 1];
      SignMagnitudeInverse(init);
      var r := SignMagnitude(ints);
      assert r[..|r| - 2] == SignMagnitude(init);
      assert ints == init + [ints[|ints| - 1]];
    }
  }

  /** Every sign flag is 0 or 1 and every magnitude is non-negative: the list
      is one hashids can encode. */
  lemma {:induction false} SignMagnitudeNonNegative(ints: seq<int>)
    ensures forall k :: 0 <= k < |SignMagnitude(ints)| ==> SignMagnitude(ints)[k] >= 0
    ensures forall k :: 0 <= k < |ints| ==> SignMagnitude(ints)[2 * k] in {0, 1}
  {
    if ints != [] {
      var init := ints[..|ints| - 1];
      SignMagnitudeNonNegative(init);
      forall k | 0 <= k < |init|
        ensures SignMagnitude(ints)[2 * k] == SignMagnitude(init)[2 * k]
      {
      }
    }
  }

  /** The id Hashid returns, for the foreign hashids encoder salted "op-1". */
  function HashidOf(ints: seq<int>, hashids: seq<int> -> string): string
  {
    hashids(SignMagnitude(ints))
  }

  /** Hashid (src/op1/synth.go:507-528): fills a list twice as long with the
      sign/magnitude pairs and hands it to hashids. */
  method Hashid(ints: seq<int>, hashids: seq<int> -> string) returns (id: string)
    ensures id == HashidOf(ints, hashids)
  {
    var i2 := new int[2 * |ints|];
    for i := 0 to |ints|
      invariant i2[..2 * i] == SignMagnitude(ints[..i])
    {
      var val := ints[i];
      if val < 0 {
        i2[i * 2] := 0;
      } else {
        i2[i * 2] := 1;
      }
      i2[i * 2 + 1] := if val < 0 then -val else val;
      assert ints[..i + 1][..i] == ints[..i];
      assert i2[..2 * (i + 1)] == i2[..2 * i] + [i2[2 * i], i2[2 * i + 1]];
    }
    assert ints[..|ints|] == ints;
    assert i2[..] == i2[..2 * |ints|];
    id := hashids(i2[..]);
  }

  /** The string Encode hashes (src/op1/synth.go:257-271). */
  function EncodedBody(s: SynthPatch, hashids: seq<int> -> string): string
    requires WellFormed(s)
  {
    s.patchType + HashidOf(s.knobs[..4], hashids) + "-" + HashidOf(s.adsr[..4], hashids)
    + (if s.fxActive then "-" + s.fxType + HashidOf(s.fxParams[..4], hashids) else "-")
    + (if s.lfoActive then "-" + s.lfoType + HashidOf(s.lfoParams[..4], hashids) else "")
  }

  /** Encode (src/op1/synth.go:256-284): "p", the first six hex digits of the
      body's md5, "-", then the body.  md5hex stands for the foreign
      fmt.Sprintf("%x", md5.Sum(...)). */
  function Encode(s: SynthPatch, hashids: seq<int> -> string, md5hex: string -> string): (r: string)
    requires WellFormed(s) && |md5hex(EncodedBody(s, hashids))| >= 6
    ensures |r| == 8 + |EncodedBody(s, hashids)| && r[8..] == EncodedBody(s, hashids)
    ensures r[0] == 'p' && r[7] == '-'
  {
    var e := EncodedBody(s, hashids);
    "p" + md5hex(e)[..6] + "-" + e
  }

  /** The fields Encode reads: type, the first four knobs and ADSR values,
      and type and first four values of the effect and the LFO when active. */
  predicate SameEncodedFields(s: SynthPatch, t: SynthPatch)
    requires WellFormed(s) && WellFormed(t)
  {
    && s.patchType == t.patchType && s.knobs[..4] == t.knobs[..4] && s.adsr[..4] == t.adsr[..4]
    && s.fxActive == t.fxActive && (s.fxActive ==> s.fxType == t.fxType && s.fxParams[..4] == t.fxParams[..4])
    && s.lfoActive == t.lfoActive
    && (s.lfoActive ==> s.lfoType == t.lfoType && s.lfoParams[..4] == t.lfoParams[..4])
  }

  /** Encode does not look at Name, Octave, BaseFreq, the synth version,
      entries 4..7 or the type and values of an inactive effect or LFO. */
  lemma EncodeReadsOnlyEncodedFields(s: SynthPatch, t: SynthPatch, hashids: seq<int> -> string,
                                     md5hex: string -> string)
    requires WellFormed(s) && WellFormed(t) && SameEncodedFields(s, t)
    requires |md5hex(EncodedBody(s, hashids))| >= 6
    ensures |md5hex(EncodedBody(t, hashids))| >= 6
    ensures Encode(s, hashids, md5hex) == Encode(t, hashids, md5hex)
  {
  }

  /** The body can be recovered from the encoded name, and the name's first
      dash-separated field is "p" and the hash prefix when the hex digits
      hold no '-'. */
  lemma EncodeShape(s: SynthPatch, hashids: seq<int> -> string, md5hex: string -> string)
    requires WellFormed(s) && |md5hex(EncodedBody(s, hashids))| >= 6
    ensures var r := Encode(s, hashids, md5hex);
            var h := md5hex(EncodedBody(s, hashids))[..6];
            && |r| == 8 + |EncodedBody(s, hashids)|
            && r[8..] == EncodedBody(s, hashids)
            && ('-' !in h ==> FirstField(r) == "p" + h)
  {
    var e := EncodedBody(s, hashids);
    var r := Encode(s, hashids, md5hex);
    var h := md5hex(e)[..6];
    if '-' !in h {
      assert r[7..8] == "-";
      forall k | 0 <= k < 7
        ensures !OccursAt(r, "-", k)
      {
        assert r[k] != '-';
      }
      IndexOfFirst(r, "-", 7);
      assert r[..7] == "p" + h;
    }
  }

  /** RandomSynthPatch (src/op1/synth.go:222-254), with the pseudo-random
      source as draw: the k-th call rand.Intn(n) returns draw(k) % n.  Each
      ADSR slot, the engine, effect and LFO and each of their parameters are
      drawn from the tables; effect and LFO are switched on, and the name is
      the first field of the encoded patch. */
  method RandomSynthPatch(draw: nat -> nat, hashids: seq<int> -> string, md5hex: string -> string)
    returns (sd: SynthPatch)
    requires forall t :: |md5hex(t)| == 32
    ensures WellFormed(sd) && ValidPatch(sd)
    ensures sd.fxActive && sd.lfoActive && sd.octave == DefaultSynthPatch.octave
    ensures sd.name == FirstField(Encode(sd, hashids, md5hex))
  {
    sd := DefaultSynthPatch;
    TablesAreDrawable();
    var k: nat := 0;
    for i := 0 to |AllowedADSR|
      invariant |sd.adsr| == 8 && sd.(adsr := DefaultSynthPatch.adsr) == DefaultSynthPatch
      invariant forall m :: 0 <= m < i ==> AllowedADSR[m][0] <= sd.adsr[m] <= Last(AllowedADSR[m])
    {
      var idx := draw(k) % |AllowedADSR[i]|;
      AdsrTablesOrdered(i, idx);
      sd := sd.(adsr := sd.adsr[i := AllowedADSR[i][idx]]);
      k := k + 1;
    }
    var j := draw(k) % |AllowedEngine|;
    k := k + 1;
    var knobs;
    knobs, k := DrawParameters(AllowedEngine[j].parameters, sd.knobs, draw, k);
    sd := sd.(patchType := AllowedEngine[j].name, knobs := knobs);
    TablesFit(sd);
    DrawnConforms(AllowedEngine, j, sd.knobs);

    j := draw(k) % |AllowedEffects|;
    k := k + 1;
    var fx;
    fx, k := DrawParameters(AllowedEffects[j].parameters, sd.fxParams, draw, k);
    sd := sd.(fxType := AllowedEffects[j].name, fxParams := fx, fxActive := true);
    TablesFit(sd);
    DrawnConforms(AllowedEffects, j, sd.fxParams);

    j := draw(k) % |AllowedLFO|;
    k := k + 1;
    var lfo;
    lfo, k := DrawParameters(AllowedLFO[j].parameters, sd.lfoParams, draw, k);
    sd := sd.(lfoType := AllowedLFO[j].name, lfoParams := lfo, lfoActive := true);
    TablesFit(sd);
    DrawnConforms(AllowedLFO, j, sd.lfoParams);

    var unnamed := sd;
    sd := sd.(name := FirstField(Encode(unnamed, hashids, md5hex)));
    EncodeReadsOnlyEncodedFields(unnamed, sd, hashids, md5hex);
  }

  /** Where SaveSynth takes the audio from: a file given by name (its
      contents, None when it cannot be read), or the built-in sample. */
  datatype SynthSource = InputFile(contents: Option<Bytes>) | DefaultAif

  datatype SaveSynthError =
    | NotAif                     // "%s does not have .aif"
    | Invalid(reason: CheckError)
    | ReadFailed                 // ioutil.ReadFile failed
    | NoHeader                   // "could not find header "
    | NoJsonEnd                  // "could not find JSON end"
    | NoSsndTag                  // "no SND tag"

  /** The audio SaveSynth splices into (src/op1/synth.go:419-439): the input
      file, or the built-in sample with everything from its first "APPL" up
      to its first "SSND" cut out. */
  function SynthInput(source: SynthSource, defaultAif: Bytes): Result<Bytes, SaveSynthError>
  {
    match source
    case InputFile(None) => Err(ReadFailed)
    case InputFile(Some(b)) => Ok(b)
    case DefaultAif =>
      match IndexOf(defaultAif, Container.ApplTag)
      case None => Err(NoHeader)
      case Some(i1) =>
        match IndexOf(defaultAif, Container.SsndTag)
        case None => Err(NoJsonEnd)
        case Some(i2) => Ok(defaultAif[..i1] + defaultAif[i2..])
  }

  /** Reference outcome of SaveSynth (src/op1/synth.go:407-488): the bytes
      written to fnameOut, or the error.  marshal stands for json.Marshal. */
  function SaveSynthOutcome(s: SynthPatch, fnameOut: string, source: SynthSource, defaultAif: Bytes,
                            marshal: SynthPatch -> Bytes): Result<Bytes, SaveSynthError>
    requires WellFormed(s)
  {
    if !HasSuffix(fnameOut, ".aif") then Err(NotAif)
    else if CheckResult(s).Some? then Err(Invalid(CheckResult(s).value))
    else match SynthInput(source, defaultAif)
      case Err(e) => Err(e)
      case Ok(b) =>
        match IndexOf(b, Container.SsndTag)
        case None => Err(NoSsndTag)
        case Some(p) => Ok(Container.InsertChunk(b, p, marshal(s), 2))
  }

  /** SaveSynth (src/op1/synth.go:407-488): suffix check, Check, input,
      "SSND" search, then the splice loop aligning the form size to 2. */
  method SaveSynth(s: SynthPatch, fnameOut: string, source: SynthSource, defaultAif: Bytes,
                   marshal: SynthPatch -> Bytes) returns (r: Result<Bytes, SaveSynthError>)
    requires WellFormed(s)
    ensures r == SaveSynthOutcome(s, fnameOut, source, defaultAif, marshal)
  {
    if !HasSuffix(fnameOut, ".aif") {
      return Err(NotAif);
    }
    var err := Check(s);
    if err.Some? {
      return Err(Invalid(err.value));
    }
    var b: Bytes;
    match source {
      case InputFile(contents) =>
        if contents.None? {
          return Err(ReadFailed);
        }
        b := contents.value;
      case DefaultAif =>
        var index1 := IndexOf(defaultAif, Container.ApplTag);
        if index1.None? {
          return Err(NoHeader);
        }
        var index2 := IndexOf(defaultAif, Container.SsndTag);
        if index2.None? {
          return Err(NoJsonEnd);
        }
        b := defaultAif[..index1.value] + defaultAif[index2.value..];
    }
    var ssndTagPosition := IndexOf(b, Container.SsndTag);
    if ssndTagPosition.None? {
      return Err(NoSsndTag);
    }
    var p := ssndTagPosition.value;
    var json := marshal(s);
    var out, _ := Container.SpliceAligned(b[..p] + Container.ApplTag, json, b[p..], 2);
    Container.InsertChunkIsSplice(b, p, json, 2);
    return Ok(out);
  }

  /** SaveSynth writes only valid patches, only under an ".aif" name, and
      only files whose form size is even. */
  lemma SaveSynthWritesValid(s: SynthPatch, fnameOut: string, source: SynthSource, defaultAif: Bytes,
                             marshal: SynthPatch -> Bytes)
    requires WellFormed(s)
    ensures var r := SaveSynthOutcome(s, fnameOut, source, defaultAif, marshal);
            r.Ok? ==> ValidPatch(s) && HasSuffix(fnameOut, ".aif") && (|r.value| - 8) % 2 == 0
  {
    CheckAcceptsValid(s);
    var r := SaveSynthOutcome(s, fnameOut, source, defaultAif, marshal);
    if r.Ok? {
      var b := SynthInput(source, defaultAif).value;
      var p := IndexOf(b, Container.SsndTag).value;
      Container.InsertChunkIsSplice(b, p, marshal(s), 2);
      Container.AlignedSpliceIsAligned(b[..p] + Container.ApplTag, marshal(s), b[p..], 2);
    }
  }

  /** An invalid patch is refused with Check's error before any input is
      read. */
  lemma SaveSynthRejectsInvalid(s: SynthPatch, fnameOut: string, source: SynthSource,
                                defaultAif: Bytes, marshal: SynthPatch -> Bytes)
    requires WellFormed(s) && HasSuffix(fnameOut, ".aif") && !ValidPatch(s)
    ensures CheckResult(s).Some?
    ensures SaveSynthOutcome(s, fnameOut, source, defaultAif, marshal) == Err(Invalid(CheckResult(s).value))
  {
    CheckAcceptsValid(s);
  }

  const FormTag: Bytes := [70, 79, 82, 77]   // "FORM"
  const JsonEnd: Bytes := [125]              // "}"

  datatype ReadSynthError = CannotRead | NoMagic | NoClosingBrace

  /** The closing brace found after "op-1" lies past the signature. */
  lemma BraceAfterMagic(b: Bytes, i1: nat, i2: nat)
    requires OccursAt(b, Container.Op1Magic, i1) && i1 <= |b|
    requires OccursAt(b[i1..], JsonEnd, i2)
    ensures i2 >= 4 && i1 + i2 + 1 <= |b|
  {
    assert b[i1..][i2] == 125;
    assert b[i1..][..4] == Container.Op1Magic;
  }

  /** The JSON ReadSynthPatch hands to json.Unmarshal
      (src/op1/synth.go:344-365): from after the first "op-1" up to and
      including the first "}" after it. */
  function ReadSynthJson(contents: Option<Bytes>): (r: Result<Bytes, ReadSynthError>)
    ensures r.Ok? ==> |r.value| >= 1 && r.value[|r.value| - 1] == 125
  {
    match contents
    case None => Err(CannotRead)
    case Some(b) =>
      match IndexOf(b, Container.Op1Magic)
      case None => Err(NoMagic)
      case Some(i1) =>
        match IndexOf(b[i1..], JsonEnd)
        case None => Err(NoClosingBrace)
        case Some(i2) =>
          BraceAfterMagic(b, i1, i2);
          assert b[i1..][i2..i2 + 1] == JsonEnd;
          Ok(b[i1 + 4..i1 + i2 + 1])
  }

  /** The read JSON holds no "}" before its last byte. */
  lemma ReadSynthJsonStopsAtFirstBrace(contents: Option<Bytes>)
    ensures var r := ReadSynthJson(contents);
            r.Ok? ==> forall k :: 0 <= k < |r.value| - 1 ==> r.value[k] != 125
  {
    var r := ReadSynthJson(contents);
    if r.Ok? {
      var b := contents.value;
      var i1 := IndexOf(b, Container.Op1Magic).value;
      var i2 := IndexOf(b[i1..], JsonEnd).value;
      BraceAfterMagic(b, i1, i2);
      assert r.value == b[i1 + 4..i1 + i2 + 1];
      forall k | 0 <= k < |r.value| - 1
        ensures r.value[k] != 125
      {
        assert !OccursAt(b[i1..], JsonEnd, k + 4);
        assert b[i1..][k + 4..k + 5] == [r.value[k]];
      }
    }
  }

  /** No "op-1" starts before the signature of the inserted chunk: the
      header is "FORM", a size below 2^24, a form type starting with "A",
      then the input's own chunks, "APPL" and a chunk size below 2^24. */
  lemma NoMagicBeforeChunk(h: Bytes, b: Bytes, p: nat, formSize: Bytes, chunkSize: Bytes)
    requires 12 <= p <= |b| && |formSize| == 4 && |chunkSize| == 4
    requires formSize[0] == 0 && chunkSize[0] == 0
    requires b[..4] == FormTag && b[8] == 65
    requires forall j :: 0 <= j && j + 4 <= p ==> !OccursAt(b, Container.Op1Magic, j)
    requires h == b[..4] + formSize + b[8..p] + Container.ApplTag + chunkSize + Container.Op1Magic
    ensures forall j :: 0 <= j < p + 8 ==> !OccursAt(h, Container.Op1Magic, j)
  {
    var pre := b[..4] + formSize + b[8..p];
    assert h[..p] == pre;
    assert forall k :: 8 <= k < p ==> h[k] == b[k];
    forall j | 0 <= j < p + 8
      ensures !OccursAt(h, Container.Op1Magic, j)
    {
      if j < 4 {
        assert h[j] == FormTag[j];
        OccurrenceHas(h, Container.Op1Magic, j, 0);
      } else if j == 4 {
        OccurrenceHas(h, Container.Op1Magic, j, 0);
      } else if j < 8 {
        OccurrenceHas(h, Container.Op1Magic, j, 8 - j);
      } else if j + 4 <= p {
        assert h[j..j + 4] == b[j..j + 4] && !OccursAt(b, Container.Op1Magic, j);
      } else if j < p {
        OccurrenceHas(h, Container.Op1Magic, j, p - j);
      } else if j < p + 4 {
        OccurrenceHas(h, Container.Op1Magic, j, 0);
      } else if j == p + 4 {
        OccurrenceHas(h, Container.Op1Magic, j, 0);
      } else {
        OccurrenceHas(h, Container.Op1Magic, j, p + 8 - j);
      }
    }
  }

  /** An occurrence fixes each element it covers. */
  lemma OccurrenceHas(s: Bytes, pat: Bytes, j: nat, i: nat)
    requires i < |pat|
    ensures OccursAt(s, pat, j) ==> j + i < |s| && s[j + i] == pat[i]
  {
    if j + |pat| <= |s| {
      assert s[j..j + |pat|][i] == s[j + i];
    }
  }

  /** An occurrence ending within the first n elements is one of the prefix. */
  lemma OccursInPrefix(s: Bytes, pat: Bytes, n: nat)
    requires n <= |s|
    ensures forall j :: 0 <= j && j + |pat| <= n ==> (OccursAt(s, pat, j) <==> OccursAt(s[..n], pat, j))
  {
    forall j | 0 <= j && j + |pat| <= n
      ensures OccursAt(s, pat, j) <==> OccursAt(s[..n], pat, j)
    {
      assert s[j..j + |pat|] == s[..n][j..j + |pat|];
    }
  }

  /** The first "}" after the signature is the JSON's last byte. */
  lemma BraceEndsJson(rest: Bytes, json: Bytes)
    requires |json| >= 1 && json[|json| - 1] == 125
    requires forall k :: 0 <= k < |json| - 1 ==> json[k] != 125
    requires |rest| >= 4 + |json| && rest[..4 + |json|] == Container.Op1Magic + json
    ensures IndexOf(rest, JsonEnd) == Some(3 + |json|)
  {
    var m := Container.Op1Magic + json;
    forall k | 0 <= k < 3 + |json|
      ensures !OccursAt(rest, JsonEnd, k)
    {
      assert rest[k] == m[k];
    }
    assert rest[3 + |json|] == m[3 + |json|];
    IndexOfFirst(rest, JsonEnd, 3 + |json|);
  }

  lemma SmallBE32(n: int)
    requires 0 <= n < 0x100_0000
    ensures BE32(n)[0] == 0
  {
  }

  /** Round trip: reading back a file the splice wrote yields exactly the
      JSON that went in, provided the input is an AIFF file ("FORM", form
      type starting with "A") with no "op-1" before the chunk goes in, the
      sizes fit in 24 bits, and the JSON's only "}" is its last byte. */
  lemma ReadBackSavedJson(b: Bytes, p: nat, json: Bytes, modulus: nat)
    requires 12 <= p <= |b| && modulus > 0
    requires b[..4] == FormTag && b[8] == 65
    requires forall j :: 0 <= j && j + 4 <= p ==> !OccursAt(b, Container.Op1Magic, j)
    requires |b| + |json| + modulus + 12 < 0x100_0000
    requires |json| >= 1 && json[|json| - 1] == 125
    requires forall k :: 0 <= k < |json| - 1 ==> json[k] != 125
    ensures ReadSynthJson(Some(Container.InsertChunk(b, p, json, modulus))) == Ok(json)
  {
    var out := Container.InsertChunk(b, p, json, modulus);
    SplicedJsonAfterMagic(b, p, json, modulus);
    SplicedMagicFirst(b, p, json, modulus);
    var rest := out[p + 8..];
    assert rest[..4 + |json|] == out[p + 8..p + 12 + |json|];
    BraceEndsJson(rest, json);
    assert out[p + 12..p + 12 + |json|] == out[p + 8..p + 12 + |json|][4..];
  }

  /** In a spliced file the signature is followed by the JSON. */
  lemma SplicedJsonAfterMagic(b: Bytes, p: nat, json: Bytes, modulus: nat)
    requires 12 <= p <= |b| && modulus > 0
    ensures var out := Container.InsertChunk(b, p, json, modulus);
            p + 12 + |json| <= |out| && out[p + 8..p + 12 + |json|] == Container.Op1Magic + json
  {
    var n := Container.InsertFillerLength(b, json, modulus);
    var out := Container.InsertChunk(b, p, json, modulus);
    Container.ChunkBeforeLayout(b, p, json, n);
    var head := b[..4] + BE32(|out| - 8) + b[8..p] + Container.ApplTag + BE32(4 + n + |json|);
    MiddleOf(head, Container.Op1Magic, json, Container.Filler(n), b[p..]);
  }

  lemma MiddleOf(a: Bytes, m1: Bytes, m2: Bytes, c1: Bytes, c2: Bytes)
    ensures var s := a + m1 + m2 + c1 + c2;
            s[|a|..|a| + |m1| + |m2|] == m1 + m2
  {
    var s := a + m1 + m2 + c1 + c2;
    forall k | 0 <= k < |m1| + |m2|
      ensures s[|a| + k] == (m1 + m2)[k]
    {
    }
  }

  /** In a spliced file of an AIFF input with no signature before the
      chunk, the first signature is the inserted one. */
  lemma SplicedMagicFirst(b: Bytes, p: nat, json: Bytes, modulus: nat)
    requires 12 <= p <= |b| && modulus > 0
    requires b[..4] == FormTag && b[8] == 65
    requires forall j :: 0 <= j && j + 4 <= p ==> !OccursAt(b, Container.Op1Magic, j)
    requires |b| + |json| + modulus + 12 < 0x100_0000
    ensures IndexOf(Container.InsertChunk(b, p, json, modulus), Container.Op1Magic) == Some(p + 8)
  {
    var n := Container.InsertFillerLength(b, json, modulus);
    var out := Container.InsertChunk(b, p, json, modulus);
    Container.ChunkBeforeLayout(b, p, json, n);
    var formSize := BE32(|out| - 8);
    var chunkSize := BE32(4 + n + |json|);
    SmallBE32(|out| - 8);
    SmallBE32(4 + n + |json|);
    var h := b[..4] + formSize + b[8..p] + Container.ApplTag + chunkSize + Container.Op1Magic;
    assert out == h + json + Container.Filler(n) + b[p..];
    assert out[..p + 12] == h;
    NoMagicBeforeChunk(h, b, p, formSize, chunkSize);
    OccursInPrefix(out, Container.Op1Magic, p + 12);
    assert out[p + 8..p + 12] == h[p + 8..p + 12];
    IndexOfFirst(out, Container.Op1Magic, p + 8);
  }

}
