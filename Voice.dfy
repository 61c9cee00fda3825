/**
 * A voice (src/Voice.ts): the resolved generators of one note, its modulators, the
 * two indexes built from them at construction, the recompute of the generator
 * values a controller change affects, and the handlers that turn generator values
 * into synthesis parameters.
 *
 * Numbers are reals.  A controller state is a sequence of numbers that may be NaN;
 * reading past its end gives `undefined`, which every arithmetic use turns into NaN.
 * `Math.pow` is symbolic: `Seconds(t)` stands for `2^(t/1200)` (`timecentToSecond`)
 * and `Rate(e)` for `(2^(1/12))^e`.  `modulator.transform` is a parameter.
 */
module Voice {
  import opened Wrappers
  import opened ByteStream
  import opened Constants
  import S = Structs
  import G = Generator
  import M = Modulator
  import D = DefaultModulators

  // ---------------------------------------------------------------- the two indexes

  /** `Set.add`: a set with its insertion order; adding a member again changes nothing. */
  function Add(s: seq<int>, x: int): (r: seq<int>)
    ensures forall y :: y in r <==> y in s || y == x
    ensures NoDuplicates(s) ==> NoDuplicates(r)
  {
    if x in s then s else s + [x]
  }

  predicate NoDuplicates<T(==)>(s: seq<T>) {
    forall i, j | 0 <= i < j < |s| :: s[i] != s[j]
  }

  /** One step of `setControllerToDestinations`: add `m`'s destination to the set of its controller. */
  function AddRoute(index: map<int, seq<int>>, m: M.Modulator): map<int, seq<int>> {
    var controllerType := m.sourceOper.ControllerType();
    if controllerType in index then index[controllerType := Add(index[controllerType], m.destinationOper)]
    else index[controllerType := [m.destinationOper]]
  }

  /** `setControllerToDestinations` over `ms`, starting from `index`. */
  function ControllerIndex(index: map<int, seq<int>>, ms: seq<M.Modulator>): map<int, seq<int>> {
    if ms == [] then index else AddRoute(ControllerIndex(index, ms[..|ms| - 1]), ms[|ms| - 1])
  }

  /** One step of `setDestinationToModulators`: append `m` to the list of its destination. */
  function AddModulator(index: map<int, seq<M.Modulator>>, m: M.Modulator): map<int, seq<M.Modulator>> {
    if m.destinationOper in index then index[m.destinationOper := index[m.destinationOper] + [m]]
    else index[m.destinationOper := [m]]
  }

  /** `setDestinationToModulators` over `ms`, starting from `index`. */
  function DestinationIndex(index: map<int, seq<M.Modulator>>, ms: seq<M.Modulator>): map<int, seq<M.Modulator>> {
    if ms == [] then index else AddModulator(DestinationIndex(index, ms[..|ms| - 1]), ms[|ms| - 1])
  }

  /** The modulators of `ms` with destination `d`, in their order. */
  function WithDestination(ms: seq<M.Modulator>, d: int): (r: seq<M.Modulator>)
    ensures forall m | m in r :: m in ms && m.destinationOper == d
  {
    if ms == [] then []
    else WithDestination(ms[..|ms| - 1], d) + (if ms[|ms| - 1].destinationOper == d then [ms[|ms| - 1]] else [])
  }

  /** Some modulator of `ms` reads controller `c`. */
  predicate Reads(ms: seq<M.Modulator>, c: int) {
    exists i | 0 <= i < |ms| :: ms[i].sourceOper.ControllerType() == c
  }

  /** Some modulator of `ms` routes controller `c` to destination `d`. */
  predicate Routes(ms: seq<M.Modulator>, c: int, d: int) {
    exists i | 0 <= i < |ms| :: ms[i].sourceOper.ControllerType() == c && ms[i].destinationOper == d
  }

  /** Some modulator of `ms` has destination `d`. */
  predicate Targets(ms: seq<M.Modulator>, d: int) {
    exists i | 0 <= i < |ms| :: ms[i].destinationOper == d
  }

  lemma SplitLast(ms: seq<M.Modulator>, c: int, d: int)
    requires ms != []
    ensures var ms', m := ms[..|ms| - 1], ms[|ms| - 1];
      (Reads(ms, c) <==> Reads(ms', c) || m.sourceOper.ControllerType() == c) &&
      (Routes(ms, c, d) <==> Routes(ms', c, d) || (m.sourceOper.ControllerType() == c && m.destinationOper == d)) &&
      (Targets(ms, d) <==> Targets(ms', d) || m.destinationOper == d)
  {
    var ms' := ms[..|ms| - 1];
    if Reads(ms', c) {
      var i :| 0 <= i < |ms'| && ms'[i].sourceOper.ControllerType() == c;
      assert ms[i] == ms'[i];
    }
    if Routes(ms', c, d) {
      var i :| 0 <= i < |ms'| && ms'[i].sourceOper.ControllerType() == c && ms'[i].destinationOper == d;
      assert ms[i] == ms'[i];
    }
    if Targets(ms', d) {
      var i :| 0 <= i < |ms'| && ms'[i].destinationOper == d;
      assert ms[i] == ms'[i];
    }
    if Reads(ms, c) {
      var i :| 0 <= i < |ms| && ms[i].sourceOper.ControllerType() == c;
      if i < |ms'| { assert ms'[i] == ms[i]; }
    }
    if Routes(ms, c, d) {
      var i :| 0 <= i < |ms| && ms[i].sourceOper.ControllerType() == c && ms[i].destinationOper == d;
      if i < |ms'| { assert ms'[i] == ms[i]; }
    }
    if Targets(ms, d) {
      var i :| 0 <= i < |ms| && ms[i].destinationOper == d;
      if i < |ms'| { assert ms'[i] == ms[i]; }
    }
  }

  /**
   * `index` has a key exactly for each controller some modulator of `ms` reads, and
   * its set for a controller holds, without repetition, exactly the destinations of
   * the modulators reading that controller.
   */
  ghost predicate IndexesControllers(index: map<int, seq<int>>, ms: seq<M.Modulator>) {
    (forall c :: c in index <==> Reads(ms, c)) &&
    (forall c | c in index :: NoDuplicates(index[c])) &&
    (forall c, d | c in index :: d in index[c] <==> Routes(ms, c, d))
  }

  /** The controller index built from no entries by `setControllerToDestinations` is exact. */
  lemma {:induction false} ControllerIndexExact(ms: seq<M.Modulator>)
    ensures IndexesControllers(ControllerIndex(map[], ms), ms)
  {
    if ms != [] {
      var ms' := ms[..|ms| - 1];
      ControllerIndexExact(ms');
      ControllerStep(ControllerIndex(map[], ms'), ms);
    }
  }

  lemma ControllerStep(before: map<int, seq<int>>, ms: seq<M.Modulator>)
    requires ms != [] && IndexesControllers(before, ms[..|ms| - 1])
    ensures IndexesControllers(AddRoute(before, ms[|ms| - 1]), ms)
  {
    var ms' := ms[..|ms| - 1];
    var m := ms[|ms| - 1];
    var index := AddRoute(before, m);
    var c0 := m.sourceOper.ControllerType();
    forall c ensures Reads(ms, c) <==> Reads(ms', c) || c0 == c {
      SplitLast(ms, c, 0);
    }
    forall c, d ensures Routes(ms, c, d) <==> Routes(ms', c, d) || (c0 == c && m.destinationOper == d) {
      SplitLast(ms, c, d);
    }
    forall c | c in index ensures NoDuplicates(index[c]) && forall d :: d in index[c] <==> Routes(ms, c, d) {
      if c == c0 && c0 !in before {
        assert index[c] == [m.destinationOper];
      } else if c == c0 {
        assert NoDuplicates(before[c]);
        assert index[c] == Add(before[c], m.destinationOper);
      } else {
        assert NoDuplicates(before[c]);
        assert index[c] == before[c];
      }
    }
  }

  /** `index` has a key exactly for each destination of `ms`, listing the modulators with that destination in order. */
  ghost predicate IndexesDestinations(index: map<int, seq<M.Modulator>>, ms: seq<M.Modulator>) {
    (forall d :: d in index <==> Targets(ms, d)) &&
    (forall d | d in index :: index[d] == WithDestination(ms, d))
  }

  /** The destination index built from no entries by `setDestinationToModulators` is exact. */
  lemma {:induction false} DestinationIndexExact(ms: seq<M.Modulator>)
    ensures IndexesDestinations(DestinationIndex(map[], ms), ms)
  {
    if ms != [] {
      var ms' := ms[..|ms| - 1];
      DestinationIndexExact(ms');
      DestinationStep(DestinationIndex(map[], ms'), ms);
    }
  }

  lemma DestinationStep(before: map<int, seq<M.Modulator>>, ms: seq<M.Modulator>)
    requires ms != [] && IndexesDestinations(before, ms[..|ms| - 1])
    ensures IndexesDestinations(AddModulator(before, ms[|ms| - 1]), ms)
  {
    var ms' := ms[..|ms| - 1];
    forall d ensures Targets(ms, d) <==> Targets(ms', d) || ms[|ms| - 1].destinationOper == d {
      SplitLast(ms, 0, d);
    }
    forall d | d !in before ensures WithDestination(ms', d) == [] {
      NoneWithDestination(ms', d);
    }
  }

  lemma {:induction false} NoneWithDestination(ms: seq<M.Modulator>, d: int)
    requires !Targets(ms, d)
    ensures WithDestination(ms, d) == []
  {
    if ms != [] {
      var ms' := ms[..|ms| - 1];
      SplitLast(ms, 0, d);
      NoneWithDestination(ms', d);
    }
  }

  // ---------------------------------------------------------------- generator values as numbers

  /** A generator table that names every generator, with a range exactly at the range names. */
  predicate Complete(z: G.Zone) {
    forall k :: k in z && (z[k].Ranged? <==> G.IsRangeGenerator(k))
  }

  /** The generator values as the handlers read them: each bounded value as its number. */
  function Numbers(z: G.Zone): (r: map<GenKey, real>)
    ensures forall k :: k in r <==> k in z && z[k].Bounded?
  {
    map k | k in z && z[k].Bounded? :: z[k].b.value as real
  }

  /** Numbers for every generator other than the two ranges. */
  predicate Covers(nums: map<GenKey, real>) {
    forall k :: !G.IsRangeGenerator(k) ==> k in nums
  }

  lemma CompleteCovers(z: G.Zone)
    requires Complete(z)
    ensures Covers(Numbers(z))
  {
  }

  /** `clamp(key, generators)`: the number clamped into the default's bounds. */
  function Clamp(k: GenKey, nums: map<GenKey, real>): (r: real)
    requires k in nums
    ensures !G.IsRangeGenerator(k) ==> G.DefaultValue(k).Min() as real <= r <= G.DefaultValue(k).Max() as real
    ensures G.DefaultValue(k).Min() as real <= nums[k] <= G.DefaultValue(k).Max() as real ==> r == nums[k]
    ensures nums[k] < G.DefaultValue(k).Min() as real <= G.DefaultValue(k).Max() as real ==> r == G.DefaultValue(k).Min() as real
    ensures G.DefaultValue(k).Min() as real <= G.DefaultValue(k).Max() as real < nums[k] ==> r == G.DefaultValue(k).Max() as real
  {
    G.DefaultInBounds(k);
    var lo, hi := G.DefaultValue(k).Min() as real, G.DefaultValue(k).Max() as real;
    var inner := if nums[k] < hi then nums[k] else hi;
    if lo > inner then lo else inner
  }

  // ---------------------------------------------------------------- parameters and handlers

  /** The fields of `VoiceParams`. */
  datatype Param =
      Start | End | LoopStart | LoopEnd
    | ModLfoToPitch | VibLfoToPitch | ModEnvToPitch | InitialFilterFc | InitialFilterQ
    | ModLfoToFilterFc | ModEnvToFilterFc | ModLfoToVolume
    | ChorusEffectsSend | ReverbEffectsSend | Pan
    | DelayModLFO | FreqModLFO | DelayVibLFO | FreqVibLFO
    | ModDelay | ModAttack | ModHold | ModDecay | ModSustain | ModRelease
    | VolDelay | VolAttack | VolHold | VolDecay | VolSustain | VolRelease
    | InitialAttenuation | PlaybackRate
    | Sample | SampleRate | SampleName | SampleModes | ExclusiveClass
  {
    /** The fields `getAllParams` sets before running the handlers. */
    predicate SampleField() {
      Start? || End? || LoopStart? || LoopEnd? || Sample? || SampleRate? || SampleName? || SampleModes? || ExclusiveClass?
    }
  }

  /** A parameter value: a number, `2^(t/1200)`, `(2^(1/12))^e`, the sample bytes or the sample name. */
  datatype Out = Number(x: real) | Seconds(timecents: real) | Rate(exponent: real) | Bytes(data: Option<seq<byte>>) | Text(text: string)

  /** A `Partial<VoiceParams>`. */
  type Params = map<Param, Out>

  /**
   * The shape of one entry of `voiceHandlers`: the clamped value of its own
   * generator, that value in thousandths, that value as timecents, an envelope time
   * scaled by key (`getModHold` and its siblings), or the playback rate.
   */
  datatype Handler =
    | Direct(dst: Param)
    | Permille(dst: Param)
    | Timecents(dst: Param)
    | KeyScaled(dst: Param, time: GenKey, perKey: GenKey)
    | Tuning
  {
    /** The one field a handler writes. */
    function Writes(): Param {
      if Tuning? then Param.PlaybackRate else dst
    }
  }

  /** The three generators whose handlers all compute the playback rate. */
  predicate IsTuning(k: GenKey) {
    k == CoarseTune || k == FineTune || k == ScaleTuning
  }

  /** The tuning generators are value generators. */
  lemma TuningIsValue(k: GenKey)
    requires IsTuning(k)
    ensures G.IsValueGenerator(k)
  {
  }

  /** The field the handler of value generator `k` writes. */
  function WriteOf(k: GenKey): Param
    requires G.IsValueGenerator(k)
  {
    ValueHandler(k).Writes()
  }

  /** `voiceHandlers[k]`: the object has an entry exactly for each value generator. */
  function HandlerOf(k: GenKey): Option<Handler> {
    if G.IsValueGenerator(k) then Some(ValueHandler(k)) else None
  }

  /** The entry of `voiceHandlers` for a value generator. */
  function ValueHandler(k: GenKey): Handler
    requires G.IsValueGenerator(k)
  {
    match k
    case ModLfoToPitch => Direct(Param.ModLfoToPitch)
    case VibLfoToPitch => Direct(Param.VibLfoToPitch)
    case ModEnvToPitch => Direct(Param.ModEnvToPitch)
    case InitialFilterFc => Direct(Param.InitialFilterFc)
    case InitialFilterQ => Direct(Param.InitialFilterQ)
    case ModLfoToFilterFc => Direct(Param.ModLfoToFilterFc)
    case ModEnvToFilterFc => Direct(Param.ModEnvToFilterFc)
    case ModLfoToVolume => Direct(Param.ModLfoToVolume)
    case ChorusEffectsSend => Permille(Param.ChorusEffectsSend)
    case ReverbEffectsSend => Permille(Param.ReverbEffectsSend)
    case Pan => Permille(Param.Pan)
    case DelayModLFO => Timecents(Param.DelayModLFO)
    case FreqModLFO => Direct(Param.FreqModLFO)
    case DelayVibLFO => Timecents(Param.DelayVibLFO)
    case FreqVibLFO => Direct(Param.FreqVibLFO)
    case DelayModEnv => Timecents(ModDelay)
    case AttackModEnv => Timecents(ModAttack)
    case HoldModEnv => KeyScaled(ModHold, GenKey.HoldModEnv, GenKey.KeynumToModEnvHold)
    case DecayModEnv => KeyScaled(ModDecay, GenKey.DecayModEnv, GenKey.KeynumToModEnvDecay)
    case SustainModEnv => Permille(ModSustain)
    case ReleaseModEnv => Timecents(ModRelease)
    case KeynumToModEnvHold => KeyScaled(ModHold, GenKey.HoldModEnv, GenKey.KeynumToModEnvHold)
    case KeynumToModEnvDecay => KeyScaled(ModDecay, GenKey.DecayModEnv, GenKey.KeynumToModEnvDecay)
    case DelayVolEnv => Timecents(VolDelay)
    case AttackVolEnv => Timecents(VolAttack)
    case HoldVolEnv => KeyScaled(VolHold, GenKey.HoldVolEnv, GenKey.KeynumToVolEnvHold)
    case DecayVolEnv => KeyScaled(VolDecay, GenKey.DecayVolEnv, GenKey.KeynumToVolEnvDecay)
    case SustainVolEnv => Permille(VolSustain)
    case ReleaseVolEnv => Timecents(VolRelease)
    case KeynumToVolEnvHold => KeyScaled(ModHold, GenKey.HoldVolEnv, GenKey.KeynumToVolEnvHold)
    case KeynumToVolEnvDecay => KeyScaled(ModDecay, GenKey.DecayVolEnv, GenKey.KeynumToVolEnvDecay)
    case InitialAttenuation => Direct(Param.InitialAttenuation)
    case CoarseTune => Tuning
    case FineTune => Tuning
    case ScaleTuning => Tuning
  }

  /**
   * No handler writes a field `getAllParams` sets from the sample.
   */
  lemma HandlerWrites(k: GenKey)
    requires G.IsValueGenerator(k)
    ensures !WriteOf(k).SampleField()
  {
  }

  /** The envelope-time handlers read no range generator. */
  lemma HandlerReads(k: GenKey)
    requires G.IsValueGenerator(k)
    ensures ValueHandler(k).KeyScaled? ==> !G.IsRangeGenerator(ValueHandler(k).time) && !G.IsRangeGenerator(ValueHandler(k).perKey)
  {
  }

  /** The three tuning generators, and only they, share the playback-rate handler. */
  lemma HandlerTuning(k: GenKey)
    requires G.IsValueGenerator(k)
    ensures ValueHandler(k).Tuning? <==> IsTuning(k)
  {
  }

  /** The keynum-to-volume-envelope handlers write the modulation envelope's hold and decay from the volume envelope's generators. */
  lemma VolumeKeynumHandlers()
    ensures G.IsValueGenerator(KeynumToVolEnvHold) && G.IsValueGenerator(KeynumToVolEnvDecay)
    ensures HandlerOf(KeynumToVolEnvHold) == Some(KeyScaled(ModHold, GenKey.HoldVolEnv, GenKey.KeynumToVolEnvHold))
    ensures HandlerOf(KeynumToVolEnvDecay) == Some(KeyScaled(ModDecay, GenKey.DecayVolEnv, GenKey.KeynumToVolEnvDecay))
  {
  }

  /** `getModHold` and its siblings: `timecentToSecond(time + (key - 60) * perKey)`. */
  function EnvelopeTime(time: real, perKey: real, key: int): Out {
    Seconds(time + (key - 60) as real * perKey)
  }

  /** `rootKey`: the overriding root key, or the sample's pitch when that is -1. */
  function RootKey(nums: map<GenKey, real>, h: S.SampleHeader): (r: real)
    requires Covers(nums)
    ensures Clamp(OverridingRootKey, nums) == -1.0 ==> r == h.originalPitch as real
    ensures Clamp(OverridingRootKey, nums) != -1.0 ==> r == Clamp(OverridingRootKey, nums)
  {
    var overridingRootKey := Clamp(OverridingRootKey, nums);
    if overridingRootKey == -1.0 then h.originalPitch as real else overridingRootKey
  }

  /** The exponent of `getPlaybackRate`: semitones from the root key, scaled by the scale tuning. */
  function RateExponent(nums: map<GenKey, real>, key: int, h: S.SampleHeader): real
    requires Covers(nums)
  {
    var tune := Clamp(CoarseTune, nums) + Clamp(FineTune, nums) / 100.0;
    var basePitch := tune + h.pitchCorrection as real / 100.0 - RootKey(nums, h);
    (key as real + basePitch) * (Clamp(ScaleTuning, nums) / 100.0)
  }

  /** `getPlaybackRate`; it reads the sample header, so without one it throws. */
  function PlaybackRateOf(nums: map<GenKey, real>, key: int, sampleHeader: Option<S.SampleHeader>): (r: Result<Out, JsError>)
    requires Covers(nums)
    ensures r.Err? <==> sampleHeader.None?
    ensures r.Ok? ==> r.value.Rate? && r.value.exponent == RateExponent(nums, key, sampleHeader.value)
  {
    if sampleHeader.None? then Err(UndefinedRead) else Ok(Rate(RateExponent(nums, key, sampleHeader.value)))
  }

  /**
   * With the default tuning (no coarse or fine tuning, scale tuning 100), the
   * exponent is the distance in semitones from the root key, plus the sample's pitch
   * correction in cents.
   */
  lemma DefaultTuningExponent(nums: map<GenKey, real>, key: int, h: S.SampleHeader)
    requires Covers(nums)
    requires nums[CoarseTune] == 0.0 && nums[FineTune] == 0.0 && nums[ScaleTuning] == 100.0
    ensures RateExponent(nums, key, h) == key as real - RootKey(nums, h) + h.pitchCorrection as real / 100.0
  {
    G.TuningBounds();
    var c, f, sc := Clamp(CoarseTune, nums), Clamp(FineTune, nums), Clamp(ScaleTuning, nums);
    assert c == 0.0;
    assert f == 0.0;
    assert sc / 100.0 == 1.0;
    var semitones := key as real + (c + f / 100.0 + h.pitchCorrection as real / 100.0 - RootKey(nums, h));
    assert RateExponent(nums, key, h) == semitones * 1.0;
  }

  /** Running handler `h` of generator `k`: only the tuning handler can throw, and each writes its one field. */
  function Run(h: Handler, k: GenKey, params: Params, nums: map<GenKey, real>, key: int, sampleHeader: Option<S.SampleHeader>):
    (r: Result<Params, JsError>)
    requires Covers(nums) && !G.IsRangeGenerator(k)
    requires h.KeyScaled? ==> !G.IsRangeGenerator(h.time) && !G.IsRangeGenerator(h.perKey)
    ensures r.Err? <==> h.Tuning? && sampleHeader.None?
    ensures r.Ok? ==> h.Writes() in r.value && r.value == params[h.Writes() := r.value[h.Writes()]]
  {
    match h
    case Direct(dst) => Ok(params[dst := Number(Clamp(k, nums))])
    case Permille(dst) => Ok(params[dst := Number(Clamp(k, nums) / 1000.0)])
    case Timecents(dst) => Ok(params[dst := Seconds(Clamp(k, nums))])
    case KeyScaled(dst, time, perKey) => Ok(params[dst := EnvelopeTime(Clamp(time, nums), Clamp(perKey, nums), key)])
    case Tuning =>
      var rate :- PlaybackRateOf(nums, key, sampleHeader);
      Ok(params[Param.PlaybackRate := rate])
  }

  /** Whether `voiceHandlers[k](params, generators)` throws: no handler, or the tuning handler without a sample header. */
  predicate Fails(k: GenKey, sampleHeader: Option<S.SampleHeader>) {
    !G.IsValueGenerator(k) || (IsTuning(k) && sampleHeader.None?)
  }

  /** `voiceHandlers[k](params, generators)`: it writes its one field and nothing else. */
  function Handle(k: GenKey, params: Params, nums: map<GenKey, real>, key: int, sampleHeader: Option<S.SampleHeader>):
    (r: Result<Params, JsError>)
    requires Covers(nums)
    ensures r.Err? <==> Fails(k, sampleHeader)
    ensures r.Ok? ==> r.value.Keys == params.Keys + {WriteOf(k)}
    ensures r.Ok? ==> forall p | p in params && p != WriteOf(k) :: r.value[p] == params[p]
  {
    match HandlerOf(k)
    case None => Err(UndefinedRead)
    case Some(h) =>
      HandlerWrites(k);
      HandlerReads(k);
      HandlerTuning(k);
      Run(h, k, params, nums, key, sampleHeader)
  }

  /** The fields the handlers of `ks` write. */
  function Written(ks: seq<GenKey>): set<Param> {
    set i | 0 <= i < |ks| && G.IsValueGenerator(ks[i]) :: WriteOf(ks[i])
  }

  /**
   * The handlers of `ks` in order, stopping at the first that throws.  On success
   * exactly the fields they write are added and every other field is kept.
   */
  function RunHandlers(params: Params, ks: seq<GenKey>, nums: map<GenKey, real>, key: int, sampleHeader: Option<S.SampleHeader>):
    (r: Result<Params, JsError>)
    requires Covers(nums)
  {
    if ks == [] then Ok(params)
    else
      var before := RunHandlers(params, ks[..|ks| - 1], nums, key, sampleHeader);
      if before.Err? then before
      else Handle(ks[|ks| - 1], before.value, nums, key, sampleHeader)
  }

  /** `RunHandlers` throws exactly when one of the handlers of `ks` throws. */
  lemma {:induction false} RunHandlersFails(params: Params, ks: seq<GenKey>, nums: map<GenKey, real>, key: int, sampleHeader: Option<S.SampleHeader>)
    requires Covers(nums)
    ensures RunHandlers(params, ks, nums, key, sampleHeader).Err? <==> exists i | 0 <= i < |ks| :: Fails(ks[i], sampleHeader)
  {
    if ks != [] {
      var ks' := ks[..|ks| - 1];
      RunHandlersFails(params, ks', nums, key, sampleHeader);
      if exists i | 0 <= i < |ks'| :: Fails(ks'[i], sampleHeader) {
        var i :| 0 <= i < |ks'| && Fails(ks'[i], sampleHeader);
        assert ks[i] == ks'[i];
      } else {
        forall i | 0 <= i < |ks| - 1 ensures !Fails(ks[i], sampleHeader) {
          assert ks[i] == ks'[i];
        }
      }
    }
  }

  /** When `RunHandlers` succeeds, it has added the fields the handlers of `ks` write and kept every other field. */
  lemma RunHandlersWrites(params: Params, ks: seq<GenKey>, nums: map<GenKey, real>, key: int, sampleHeader: Option<S.SampleHeader>)
    requires Covers(nums)
    ensures RunHandlers(params, ks, nums, key, sampleHeader).Ok? ==>
      RunHandlers(params, ks, nums, key, sampleHeader).value.Keys == params.Keys + Written(ks)
    ensures RunHandlers(params, ks, nums, key, sampleHeader).Ok? ==>
      forall p | p in params && p !in Written(ks) :: RunHandlers(params, ks, nums, key, sampleHeader).value[p] == params[p]
  {
    RunHandlersKeys(params, ks, nums, key, sampleHeader);
    RunHandlersKeeps(params, ks, nums, key, sampleHeader);
  }

  lemma {:induction false} RunHandlersKeys(params: Params, ks: seq<GenKey>, nums: map<GenKey, real>, key: int, sampleHeader: Option<S.SampleHeader>)
    requires Covers(nums)
    ensures RunHandlers(params, ks, nums, key, sampleHeader).Ok? ==>
      RunHandlers(params, ks, nums, key, sampleHeader).value.Keys == params.Keys + Written(ks)
  {
    if ks != [] {
      var ks' := ks[..|ks| - 1];
      RunHandlersKeys(params, ks', nums, key, sampleHeader);
      WrittenSnoc(ks);
    }
  }

  lemma {:induction false} RunHandlersKeeps(params: Params, ks: seq<GenKey>, nums: map<GenKey, real>, key: int, sampleHeader: Option<S.SampleHeader>)
    requires Covers(nums)
    ensures RunHandlers(params, ks, nums, key, sampleHeader).Ok? ==>
      forall p | p in params && p !in Written(ks) ::
        p in RunHandlers(params, ks, nums, key, sampleHeader).value && RunHandlers(params, ks, nums, key, sampleHeader).value[p] == params[p]
  {
    if ks != [] {
      var ks' := ks[..|ks| - 1];
      RunHandlersKeeps(params, ks', nums, key, sampleHeader);
      RunHandlersKeys(params, ks', nums, key, sampleHeader);
      WrittenSnoc(ks);
    }
  }

  lemma WrittenSnoc(ks: seq<GenKey>)
    requires ks != []
    ensures var k := ks[|ks| - 1];
      Written(ks) == Written(ks[..|ks| - 1]) + (if G.IsValueGenerator(k) then {WriteOf(k)} else {})
  {
    var ks' := ks[..|ks| - 1];
    var k := ks[|ks| - 1];
    forall p | p in Written(ks) ensures p in Written(ks') || (G.IsValueGenerator(k) && p == WriteOf(k)) {
      var i :| 0 <= i < |ks| && G.IsValueGenerator(ks[i]) && WriteOf(ks[i]) == p;
      if i < |ks'| {
        assert ks'[i] == ks[i];
      }
    }
    forall p | p in Written(ks') ensures p in Written(ks) {
      var i :| 0 <= i < |ks'| && G.IsValueGenerator(ks'[i]) && WriteOf(ks'[i]) == p;
      assert ks[i] == ks'[i];
    }
    if G.IsValueGenerator(k) {
      assert G.IsValueGenerator(ks[|ks| - 1]);
    }
  }

  // ---------------------------------------------------------------- modulation

  /** `controllerState[i]`: past the end of the array the read is `undefined`, which arithmetic turns into NaN. */
  function StateAt(state: seq<M.Num>, i: int): (r: M.Num)
    ensures 0 <= i < |state| ==> r == state[i]
    ensures !(0 <= i < |state|) ==> r.NaN?
  {
    if 0 <= i < |state| then state[i] else M.NaN
  }

  /** `modulator.transform`, left abstract. */
  type Transform = (M.Modulator, M.Num) -> M.Num

  /**
   * What one modulator contributes: its source mapped from the controller state,
   * times its amount source mapped likewise, or times 1 when the amount source is
   * the null source, through the transform.
   */
  function Contribution(m: M.Modulator, state: seq<M.Num>, curves: M.Curves, transform: Transform): (r: M.Num)
    ensures D.IsNullSource(m.amountSourceOper) ==>
      r == transform(m, M.Map(m.sourceOper, StateAt(state, m.sourceOper.ControllerType()), curves))
  {
    var primary := M.Map(m.sourceOper, StateAt(state, m.sourceOper.ControllerType()), curves);
    var secondary := if D.IsNullSource(m.amountSourceOper) then M.Finite(1.0)
      else M.Map(m.amountSourceOper, StateAt(state, m.amountSourceOper.ControllerType()), curves);
    assert D.IsNullSource(m.amountSourceOper) ==> primary.Times(secondary) == primary;
    transform(m, primary.Times(secondary))
  }

  /** The contributions of `ms` added up, skipping the NaN ones, as the inner loop of `transformParams` sums them. */
  function Sum(ms: seq<M.Modulator>, state: seq<M.Num>, curves: M.Curves, transform: Transform): real {
    if ms == [] then 0.0
    else
      var s := Contribution(ms[|ms| - 1], state, curves, transform);
      Sum(ms[..|ms| - 1], state, curves, transform) + (if s.NaN? then 0.0 else s.x)
  }

  /** One more modulator for `Sum`. */
  lemma SumStep(ms: seq<M.Modulator>, j: int, state: seq<M.Num>, curves: M.Curves, transform: Transform)
    requires 0 <= j < |ms|
    ensures var s := Contribution(ms[j], state, curves, transform);
      Sum(ms[..j + 1], state, curves, transform) == Sum(ms[..j], state, curves, transform) + (if s.NaN? then 0.0 else s.x)
  {
    assert ms[..j + 1][..j] == ms[..j];
  }

  /** A falsy controller value: 0, NaN or `undefined`. */
  predicate Falsy(v: M.Num) {
    v.NaN? || v.x == 0.0
  }

  /** `GeneratorKeys[destinationOper]` when it names a value generator. */
  function ValueTarget(d: int): (r: Option<GenKey>)
    ensures r.Some? ==> r == KeyOfCode(d) && G.IsValueGenerator(r.value) && KeyCode(r.value) == d
    ensures r.None? <==> KeyOfCode(d).None? || !G.IsValueGenerator(KeyOfCode(d).value)
  {
    var k := KeyOfCode(d);
    if k.Some? && G.IsValueGenerator(k.value) then (CodeRoundTrip(d); k) else None
  }

  /** A value generator's destination names it. */
  lemma TargetOfCode(k: GenKey)
    requires G.IsValueGenerator(k)
    ensures ValueTarget(KeyCode(k)).Some? && ValueTarget(KeyCode(k)).value == k
  {
  }

  /** What one modulator does to the numbers in `transformAllParams`. */
  function Apply(before: map<GenKey, real>, m: M.Modulator, state: seq<M.Num>, curves: M.Curves, transform: Transform):
    (r: map<GenKey, real>)
    requires Covers(before)
    ensures r.Keys == before.Keys
  {
    var t := ValueTarget(m.destinationOper);
    var s := Contribution(m, state, curves, transform);
    if Falsy(StateAt(state, m.sourceOper.ControllerType())) || t.None? || s.NaN? then before
    else before[t.value := before[t.value] + s.x]
  }

  /** `transformAllParams` over the modulators `ms`, starting from the numbers `nums`. */
  function Transformed(nums: map<GenKey, real>, ms: seq<M.Modulator>, state: seq<M.Num>, curves: M.Curves, transform: Transform):
    (r: map<GenKey, real>)
    requires Covers(nums)
    ensures r.Keys == nums.Keys
  {
    if ms == [] then nums
    else Apply(Transformed(nums, ms[..|ms| - 1], state, curves, transform), ms[|ms| - 1], state, curves, transform)
  }

  /** One more modulator for `Transformed`. */
  lemma TransformedStep(nums: map<GenKey, real>, ms: seq<M.Modulator>, i: int, state: seq<M.Num>, curves: M.Curves, transform: Transform)
    requires Covers(nums) && 0 <= i < |ms|
    ensures Transformed(nums, ms[..i + 1], state, curves, transform) ==
      Apply(Transformed(nums, ms[..i], state, curves, transform), ms[i], state, curves, transform)
  {
    assert ms[..i + 1][..i] == ms[..i];
  }

  /** A modulator whose controller is falsy, whose destination is no value generator or whose contribution is NaN changes nothing. */
  lemma ApplySkips(before: map<GenKey, real>, m: M.Modulator, state: seq<M.Num>, curves: M.Curves, transform: Transform)
    requires Covers(before)
    requires Falsy(StateAt(state, m.sourceOper.ControllerType())) || KeyOfCode(m.destinationOper).None? ||
      !G.IsValueGenerator(KeyOfCode(m.destinationOper).value) || Contribution(m, state, curves, transform).NaN?
    ensures Apply(before, m, state, curves, transform) == before
  {
  }

  /** Otherwise it adds its contribution to its destination. */
  lemma ApplyAdds(before: map<GenKey, real>, m: M.Modulator, state: seq<M.Num>, curves: M.Curves, transform: Transform)
    requires Covers(before)
    requires !Falsy(StateAt(state, m.sourceOper.ControllerType())) && KeyOfCode(m.destinationOper).Some? &&
      G.IsValueGenerator(KeyOfCode(m.destinationOper).value) && Contribution(m, state, curves, transform).Finite?
    ensures var k := KeyOfCode(m.destinationOper).value;
      Apply(before, m, state, curves, transform) == before[k := before[k] + Contribution(m, state, curves, transform).x]
  {
  }

  /** The body of the loop in `transformAllParams`: one modulator, with its early `continue`s. */
  method ApplyModulator(params: map<GenKey, real>, modulator: M.Modulator, controllerState: seq<M.Num>, curves: M.Curves,
                        transform: Transform)
    returns (next: map<GenKey, real>)
    requires Covers(params)
    ensures next == Apply(params, modulator, controllerState, curves, transform)
  {
    next := params;
    var controllerType := modulator.sourceOper.ControllerType();
    var controllerValue := StateAt(controllerState, controllerType);
    if Falsy(controllerValue) {
      ApplySkips(params, modulator, controllerState, curves, transform);
      return;
    }
    var generatorKey := KeyOfCode(modulator.destinationOper);
    if generatorKey.None? {
      ApplySkips(params, modulator, controllerState, curves, transform);
      return;
    }
    if !G.IsValueGenerator(generatorKey.value) {
      ApplySkips(params, modulator, controllerState, curves, transform);
      return;
    }
    var summingValue := Contribution(modulator, controllerState, curves, transform);
    if summingValue.NaN? {
      ApplySkips(params, modulator, controllerState, curves, transform);
      return;
    }
    ApplyAdds(params, modulator, controllerState, curves, transform);
    next := params[generatorKey.value := params[generatorKey.value] + summingValue.x];
  }

  /** Whether modulator `m` moves generator `k` under `transformAllParams`: its controller is set and it targets `k`. */
  predicate Moves(m: M.Modulator, k: GenKey, state: seq<M.Num>) {
    !Falsy(StateAt(state, m.sourceOper.ControllerType())) && ValueTarget(m.destinationOper).Some? &&
    ValueTarget(m.destinationOper).value == k
  }

  /** The amount by which the modulators of `ms` that move `k` change it. */
  function Gain(ms: seq<M.Modulator>, k: GenKey, state: seq<M.Num>, curves: M.Curves, transform: Transform): real {
    if ms == [] then 0.0
    else
      var m := ms[|ms| - 1];
      var s := Contribution(m, state, curves, transform);
      Gain(ms[..|ms| - 1], k, state, curves, transform) + (if Moves(m, k, state) && !s.NaN? then s.x else 0.0)
  }

  /**
   * `transformAllParams` adds to each generator exactly the contributions of the
   * modulators that move it; a modulator whose controller value is 0, NaN or
   * missing, or whose destination is not a value generator, changes nothing.
   */
  lemma {:induction false} TransformedGain(nums: map<GenKey, real>, ms: seq<M.Modulator>, state: seq<M.Num>, curves: M.Curves, transform: Transform)
    requires Covers(nums)
    ensures forall k | k in nums :: Transformed(nums, ms, state, curves, transform)[k] == nums[k] + Gain(ms, k, state, curves, transform)
  {
    if ms != [] {
      TransformedGain(nums, ms[..|ms| - 1], state, curves, transform);
    }
  }

  /** A generator no modulator moves keeps its value. */
  lemma {:induction false} UnmovedKeepsValue(nums: map<GenKey, real>, ms: seq<M.Modulator>, k: GenKey, state: seq<M.Num>, curves: M.Curves, transform: Transform)
    requires Covers(nums) && k in nums
    requires forall i | 0 <= i < |ms| :: !Moves(ms[i], k, state)
    ensures Transformed(nums, ms, state, curves, transform)[k] == nums[k]
  {
    GainOfUnmoved(ms, k, state, curves, transform);
    TransformedGain(nums, ms, state, curves, transform);
  }

  lemma {:induction false} GainOfUnmoved(ms: seq<M.Modulator>, k: GenKey, state: seq<M.Num>, curves: M.Curves, transform: Transform)
    requires forall i | 0 <= i < |ms| :: !Moves(ms[i], k, state)
    ensures Gain(ms, k, state, curves, transform) == 0.0
  {
    if ms != [] {
      var ms' := ms[..|ms| - 1];
      assert forall i | 0 <= i < |ms'| :: ms'[i] == ms[i];
      GainOfUnmoved(ms', k, state, curves, transform);
    }
  }

  // ---------------------------------------------------------------- ordered records

  /** A JavaScript object from names to numbers: its keys in insertion order, and its values. */
  datatype Record = Record(order: seq<GenKey>, values: map<GenKey, real>) {
    /** The keys listed once each, exactly the keys with a value. */
    predicate Valid() {
      NoDuplicates(order) && forall k :: k in order <==> k in values
    }

    /** `object[k] = v`: a new key goes last, an existing key keeps its place. */
    function Set(k: GenKey, v: real): (r: Record)
      ensures Valid() ==> r.Valid()
      ensures r.values == values[k := v]
      ensures k in values ==> r.order == order
    {
      Record(if k in values then order else order + [k], values[k := v])
    }
  }

  /** Setting a key and then adding `b` to it sets it to the sum. */
  lemma SetAdd(r: Record, k: GenKey, a: real, b: real)
    ensures r.Set(k, a).Set(k, r.Set(k, a).values[k] + b) == r.Set(k, a + b)
  {
  }

  /** Setting a key twice keeps only the second value. */
  lemma SetTwice(r: Record, k: GenKey, v1: real, v2: real)
    ensures r.Set(k, v1).Set(k, v2) == r.Set(k, v2)
  {
  }

  // ---------------------------------------------------------------- transformParams

  /**
   * The loop of `transformParams` over the destinations `ds` of one controller: a
   * destination that names a value generator and has modulators gets that
   * generator's number plus the contributions of all its modulators.
   */
  function Updates(ds: seq<int>, byDestination: map<int, seq<M.Modulator>>, nums: map<GenKey, real>,
                   state: seq<M.Num>, curves: M.Curves, transform: Transform): Record
    requires Covers(nums)
  {
    if ds == [] then Record([], map[])
    else UpdateOne(Updates(ds[..|ds| - 1], byDestination, nums, state, curves, transform), ds[|ds| - 1],
                   byDestination, nums, state, curves, transform)
  }

  /** One destination of that loop. */
  function UpdateOne(before: Record, d: int, byDestination: map<int, seq<M.Modulator>>, nums: map<GenKey, real>,
                     state: seq<M.Num>, curves: M.Curves, transform: Transform): Record
    requires Covers(nums)
  {
    var t := ValueTarget(d);
    if t.None? || d !in byDestination then before
    else before.Set(t.value, nums[t.value] + Sum(byDestination[d], state, curves, transform))
  }


  /** A destination that names no value generator, or has no modulators, changes nothing. */
  lemma UpdateOneSkips(before: Record, d: int, byDestination: map<int, seq<M.Modulator>>, nums: map<GenKey, real>,
                       state: seq<M.Num>, curves: M.Curves, transform: Transform)
    requires Covers(nums)
    requires KeyOfCode(d).None? || !G.IsValueGenerator(KeyOfCode(d).value) || d !in byDestination
    ensures UpdateOne(before, d, byDestination, nums, state, curves, transform) == before
  {
  }

  /** A destination naming a value generator and having modulators sets that generator to its number plus their contributions. */
  lemma UpdateOneSets(before: Record, d: int, byDestination: map<int, seq<M.Modulator>>, nums: map<GenKey, real>, v: real,
                      state: seq<M.Num>, curves: M.Curves, transform: Transform)
    requires Covers(nums)
    requires KeyOfCode(d).Some? && G.IsValueGenerator(KeyOfCode(d).value) && d in byDestination
    requires nums[KeyOfCode(d).value] == v
    ensures var k := KeyOfCode(d).value;
      var written := before.Set(k, v);
      UpdateOne(before, d, byDestination, nums, state, curves, transform) ==
        written.Set(k, written.values[k] + Sum(byDestination[d], state, curves, transform))
  {
    SetAdd(before, KeyOfCode(d).value, v, Sum(byDestination[d], state, curves, transform));
  }

  /** One more destination for `Updates`. */
  lemma UpdatesStep(ds: seq<int>, i: int, byDestination: map<int, seq<M.Modulator>>, nums: map<GenKey, real>,
                    state: seq<M.Num>, curves: M.Curves, transform: Transform)
    requires Covers(nums) && 0 <= i < |ds|
    ensures Updates(ds[..i + 1], byDestination, nums, state, curves, transform) ==
      UpdateOne(Updates(ds[..i], byDestination, nums, state, curves, transform), ds[i], byDestination, nums, state, curves, transform)
  {
    assert ds[..i + 1][..i] == ds[..i];
  }


  /** `transformParams(controllerType, controllerState)` of a voice with modulators `ms` and generator numbers `nums`. */
  function UpdatedParams(ct: int, ms: seq<M.Modulator>, nums: map<GenKey, real>,
                         state: seq<M.Num>, curves: M.Curves, transform: Transform): Record
    requires Covers(nums)
  {
    var byController := ControllerIndex(map[], ms);
    if ct !in byController then Record([], map[])
    else Updates(byController[ct], DestinationIndex(map[], ms), nums, state, curves, transform)
  }

  /** The destinations `ds` reach exactly the value generators they name that have modulators. */
  lemma {:induction false} UpdatesExact(ds: seq<int>, byDestination: map<int, seq<M.Modulator>>, nums: map<GenKey, real>,
                                        state: seq<M.Num>, curves: M.Curves, transform: Transform)
    requires Covers(nums)
    ensures var r := Updates(ds, byDestination, nums, state, curves, transform);
      r.Valid() &&
      (forall k :: k in r.values <==> G.IsValueGenerator(k) && KeyCode(k) in ds && KeyCode(k) in byDestination) &&
      (forall k | k in r.values :: k in nums && KeyCode(k) in byDestination &&
        r.values[k] == nums[k] + Sum(byDestination[KeyCode(k)], state, curves, transform))
  {
    if ds != [] {
      var ds' := ds[..|ds| - 1];
      var d := ds[|ds| - 1];
      UpdatesExact(ds', byDestination, nums, state, curves, transform);
      assert forall x :: x in ds <==> x in ds' || x == d;
      forall k | G.IsValueGenerator(k)
        ensures KeyCode(k) == d <==> ValueTarget(d).Some? && ValueTarget(d).value == k
      {
        TargetOfCode(k);
      }
    }
  }

  /** A modulator routing a controller to a destination reads that controller and targets that destination. */
  lemma RoutesReadsTargets(ms: seq<M.Modulator>)
    ensures forall c, d | Routes(ms, c, d) :: Reads(ms, c) && Targets(ms, d)
  {
    forall c, d | Routes(ms, c, d) ensures Reads(ms, c) && Targets(ms, d) {
      var i :| 0 <= i < |ms| && ms[i].sourceOper.ControllerType() == c && ms[i].destinationOper == d;
    }
  }

  /**
   * `transformParams` returns `{}` for a controller no modulator reads.  Otherwise its
   * keys are exactly the value generators some modulator reading the controller
   * targets, and each holds the generator's number plus the contributions of every
   * modulator with that destination, whatever controller it reads.
   */
  /** The record `transformParams` returns lists each of its keys once. */
  lemma UpdatedValid(ct: int, ms: seq<M.Modulator>, nums: map<GenKey, real>,
                     state: seq<M.Num>, curves: M.Curves, transform: Transform)
    requires Covers(nums)
    ensures UpdatedParams(ct, ms, nums, state, curves, transform).Valid()
  {
    UpdatedExact(ct, ms, nums, state, curves, transform);
  }

  lemma UpdatedExact(ct: int, ms: seq<M.Modulator>, nums: map<GenKey, real>,
                     state: seq<M.Num>, curves: M.Curves, transform: Transform)
    requires Covers(nums)
    ensures var r := UpdatedParams(ct, ms, nums, state, curves, transform);
      r.Valid() &&
      (!Reads(ms, ct) ==> r == Record([], map[])) &&
      (forall k :: k in r.values <==> G.IsValueGenerator(k) && Routes(ms, ct, KeyCode(k))) &&
      (forall k | k in r.values :: k in nums &&
        r.values[k] == nums[k] + Sum(WithDestination(ms, KeyCode(k)), state, curves, transform))
  {
    RoutesReadsTargets(ms);
    var byController := ControllerIndex(map[], ms);
    var byDestination := DestinationIndex(map[], ms);
    ControllerIndexExact(ms);
    DestinationIndexExact(ms);
    if ct in byController {
      UpdatesExact(byController[ct], byDestination, nums, state, curves, transform);
    }
  }

  // ---------------------------------------------------------------- getParams and getAllParams

  /** The loop of `getParams` that copies the updated values over the generator numbers, in the order of `ks`. */
  function Override(nums: map<GenKey, real>, ks: seq<GenKey>, values: map<GenKey, real>): map<GenKey, real>
    requires forall i | 0 <= i < |ks| :: ks[i] in values
  {
    if ks == [] then nums
    else Override(nums, ks[..|ks| - 1], values)[ks[|ks| - 1] := values[ks[|ks| - 1]]]
  }

  /** Copying the values of the keys `ks` over `nums` gives those values at `ks` and keeps `nums` elsewhere. */
  lemma {:induction false} OverrideValues(nums: map<GenKey, real>, ks: seq<GenKey>, values: map<GenKey, real>)
    requires forall i | 0 <= i < |ks| :: ks[i] in values
    ensures forall k :: k in Override(nums, ks, values) <==> k in nums || k in ks
    ensures forall k | k in Override(nums, ks, values) :: Override(nums, ks, values)[k] == if k in ks then values[k] else nums[k]
  {
    if ks != [] {
      var ks' := ks[..|ks| - 1];
      OverrideValues(nums, ks', values);
      assert forall k :: k in ks <==> k in ks' || k == ks[|ks| - 1];
    }
  }

  /** One more key for `Override`. */
  lemma OverrideStep(nums: map<GenKey, real>, ks: seq<GenKey>, i: int, values: map<GenKey, real>)
    requires forall j | 0 <= j < |ks| :: ks[j] in values
    requires 0 <= i < |ks|
    ensures Override(nums, ks[..i + 1], values) == Override(nums, ks[..i], values)[ks[i] := values[ks[i]]]
  {
    assert ks[..i + 1][..i] == ks[..i];
  }

  /** One more handler for `RunHandlers`. */
  lemma RunHandlersStep(params: Params, ks: seq<GenKey>, i: int, nums: map<GenKey, real>, key: int, sampleHeader: Option<S.SampleHeader>)
    requires Covers(nums) && 0 <= i < |ks|
    ensures var before := RunHandlers(params, ks[..i], nums, key, sampleHeader);
      RunHandlers(params, ks[..i + 1], nums, key, sampleHeader) ==
        if before.Err? then before else Handle(ks[i], before.value, nums, key, sampleHeader)
  {
    assert ks[..i + 1][..i] == ks[..i];
  }

  /** Copying all the keys of a record over `nums` is the map union. */
  lemma OverrideRecord(nums: map<GenKey, real>, u: Record)
    requires u.Valid()
    ensures Override(nums, u.order, u.values) == nums + u.values
  {
    OverrideValues(nums, u.order, u.values);
  }

  /** Once the handlers of a prefix of `ks` have thrown, the later ones never run. */
  lemma {:induction false} RunHandlersStop(params: Params, ks: seq<GenKey>, n: int, nums: map<GenKey, real>, key: int,
                                           sampleHeader: Option<S.SampleHeader>)
    requires Covers(nums) && 0 <= n <= |ks|
    requires RunHandlers(params, ks[..n], nums, key, sampleHeader).Err?
    ensures RunHandlers(params, ks, nums, key, sampleHeader) == RunHandlers(params, ks[..n], nums, key, sampleHeader)
    decreases |ks| - n
  {
    if n < |ks| {
      assert ks[..n + 1][..n] == ks[..n];
      RunHandlersStop(params, ks, n + 1, nums, key, sampleHeader);
    } else {
      assert ks[..n] == ks;
    }
  }

  /**
   * `getParams(controllerType, controllerState)`: the generator numbers with the
   * values of `transformParams` copied over them, and the handlers of the updated
   * keys run on that in the order `transformParams` added them.
   */
  function ParamsOf(ct: int, ms: seq<M.Modulator>, z: G.Zone, key: int, sampleHeader: Option<S.SampleHeader>,
                    state: seq<M.Num>, curves: M.Curves, transform: Transform): Result<Params, JsError>
    requires Complete(z)
  {
    CompleteCovers(z);
    var u := UpdatedParams(ct, ms, Numbers(z), state, curves, transform);
    RunHandlers(map[], u.order, Numbers(z) + u.values, key, sampleHeader)
  }

  /** The handlers of a record's keys, all value generators, throw exactly when one of them is a tuning generator and there is no sample header. */
  lemma OrderFails(u: Record, sampleHeader: Option<S.SampleHeader>)
    requires u.Valid() && forall k | k in u.values :: G.IsValueGenerator(k)
    ensures (exists i | 0 <= i < |u.order| :: Fails(u.order[i], sampleHeader)) <==>
      sampleHeader.None? && exists k | k in u.values :: IsTuning(k)
  {
    if sampleHeader.None? && exists k | k in u.values :: IsTuning(k) {
      var k :| k in u.values && IsTuning(k);
      var i :| 0 <= i < |u.order| && u.order[i] == k;
      assert Fails(u.order[i], sampleHeader);
    }
  }

  /** The handlers of a record's keys, all value generators, write exactly the fields of those keys. */
  lemma OrderWritten(u: Record)
    requires u.Valid() && forall k | k in u.values :: G.IsValueGenerator(k)
    ensures forall p :: p in Written(u.order) <==> exists k | k in u.values && G.IsValueGenerator(k) :: WriteOf(k) == p
  {
    forall p | exists k | k in u.values && G.IsValueGenerator(k) :: WriteOf(k) == p
      ensures p in Written(u.order)
    {
      var k :| k in u.values && G.IsValueGenerator(k) && WriteOf(k) == p;
      InWritten(u.order, k);
    }
  }

  /** A value generator among `ks` has its field among the written ones. */
  lemma InWritten(ks: seq<GenKey>, k: GenKey)
    requires k in ks && G.IsValueGenerator(k)
    ensures WriteOf(k) in Written(ks)
  {
    var i :| 0 <= i < |ks| && ks[i] == k;
  }

  /** `getParams` throws exactly when it has no sample header and the controller is routed to a tuning generator. */
  lemma GetParamsFails(ct: int, ms: seq<M.Modulator>, z: G.Zone, key: int, sampleHeader: Option<S.SampleHeader>,
                       state: seq<M.Num>, curves: M.Curves, transform: Transform)
    requires Complete(z)
    ensures ParamsOf(ct, ms, z, key, sampleHeader, state, curves, transform).Err? <==>
      sampleHeader.None? && exists k :: IsTuning(k) && Routes(ms, ct, KeyCode(k))
  {
    CompleteCovers(z);
    var nums := Numbers(z);
    var u := UpdatedParams(ct, ms, nums, state, curves, transform);
    UpdatedExact(ct, ms, nums, state, curves, transform);
    RunHandlersFails(map[], u.order, nums + u.values, key, sampleHeader);
    OrderFails(u, sampleHeader);
    if exists k :: IsTuning(k) && Routes(ms, ct, KeyCode(k)) {
      var k :| IsTuning(k) && Routes(ms, ct, KeyCode(k));
      TuningIsValue(k);
      assert k in u.values;
    }
  }

  /**
   * When `getParams` succeeds it has written exactly the fields of the handlers of
   * the value generators the controller is routed to, and no other field.
   */
  lemma GetParamsWrites(ct: int, ms: seq<M.Modulator>, z: G.Zone, key: int, sampleHeader: Option<S.SampleHeader>,
                        state: seq<M.Num>, curves: M.Curves, transform: Transform)
    requires Complete(z)
    ensures var r := ParamsOf(ct, ms, z, key, sampleHeader, state, curves, transform);
      r.Ok? ==> forall p :: p in r.value <==> exists k :: G.IsValueGenerator(k) && Routes(ms, ct, KeyCode(k)) && WriteOf(k) == p
  {
    CompleteCovers(z);
    var nums := Numbers(z);
    var u := UpdatedParams(ct, ms, nums, state, curves, transform);
    UpdatedExact(ct, ms, nums, state, curves, transform);
    RunHandlersWrites(map[], u.order, nums + u.values, key, sampleHeader);
    OrderWritten(u);
  }

  /** The fields `getAllParams` sets before it runs the handlers: start and end addresses, loop points, and the sample's own fields. */
  function SampleParams(z: G.Zone, sample: Option<seq<byte>>, h: S.SampleHeader): (r: Params)
    requires Complete(z)
    ensures forall p :: p in r <==> p.SampleField()
  {
    CompleteCovers(z);
    var nums := Numbers(z);
    map[
      Param.Start := Number(nums[StartAddrsCoarseOffset] * 32768.0 + nums[StartAddrsOffset]),
      Param.End := Number(nums[EndAddrsCoarseOffset] * 32768.0 + nums[EndAddrsOffset]),
      Param.LoopStart := Number(h.loopStart as real + nums[StartloopAddrsCoarseOffset] * 32768.0 + nums[StartloopAddrsOffset]),
      Param.LoopEnd := Number(h.loopEnd as real + nums[EndloopAddrsCoarseOffset] * 32768.0 + nums[EndloopAddrsOffset]),
      Param.Sample := Bytes(sample),
      Param.SampleRate := Number(h.sampleRate as real),
      Param.SampleName := Text(h.sampleName),
      Param.SampleModes := Number(nums[GenKey.SampleModes]),
      Param.ExclusiveClass := Number(Clamp(GenKey.ExclusiveClass, nums))
    ]
  }

  /**
   * `getAllParams(controllerValues)`: it reads the sample header's loop points, so
   * without a header it throws; otherwise the handlers of every value generator run,
   * in enumerator order, on the numbers `transformAllParams` computes.
   */
  function AllParamsOf(ms: seq<M.Modulator>, z: G.Zone, key: int, sample: Option<seq<byte>>, sampleHeader: Option<S.SampleHeader>,
                       state: seq<M.Num>, curves: M.Curves, transform: Transform): Result<Params, JsError>
    requires Complete(z)
  {
    CompleteCovers(z);
    if sampleHeader.None? then Err(UndefinedRead)
    else RunHandlers(SampleParams(z, sample, sampleHeader.value), G.ValueGeneratorKeys,
                     Transformed(Numbers(z), ms, state, curves, transform), key, sampleHeader)
  }

  /** The value generator whose handler writes field `p`, for each field other than the sample fields. */
  function Writer(p: Param): GenKey
    requires !p.SampleField()
  {
    match p
    case ModLfoToPitch => GenKey.ModLfoToPitch
    case VibLfoToPitch => GenKey.VibLfoToPitch
    case ModEnvToPitch => GenKey.ModEnvToPitch
    case InitialFilterFc => GenKey.InitialFilterFc
    case InitialFilterQ => GenKey.InitialFilterQ
    case ModLfoToFilterFc => GenKey.ModLfoToFilterFc
    case ModEnvToFilterFc => GenKey.ModEnvToFilterFc
    case ModLfoToVolume => GenKey.ModLfoToVolume
    case ChorusEffectsSend => GenKey.ChorusEffectsSend
    case ReverbEffectsSend => GenKey.ReverbEffectsSend
    case Pan => GenKey.Pan
    case DelayModLFO => GenKey.DelayModLFO
    case FreqModLFO => GenKey.FreqModLFO
    case DelayVibLFO => GenKey.DelayVibLFO
    case FreqVibLFO => GenKey.FreqVibLFO
    case ModDelay => DelayModEnv
    case ModAttack => AttackModEnv
    case ModHold => HoldModEnv
    case ModDecay => DecayModEnv
    case ModSustain => SustainModEnv
    case ModRelease => ReleaseModEnv
    case VolDelay => DelayVolEnv
    case VolAttack => AttackVolEnv
    case VolHold => HoldVolEnv
    case VolDecay => DecayVolEnv
    case VolSustain => SustainVolEnv
    case VolRelease => ReleaseVolEnv
    case InitialAttenuation => GenKey.InitialAttenuation
    case PlaybackRate => CoarseTune
  }

  /** Every field other than the sample fields has a handler writing it. */
  lemma Writers(p: Param)
    requires !p.SampleField()
    ensures G.IsValueGenerator(Writer(p)) && WriteOf(Writer(p)) == p
  {
    if p.ModLfoToPitch? || p.VibLfoToPitch? || p.ModEnvToPitch? || p.InitialFilterFc? || p.InitialFilterQ? || p.ModLfoToFilterFc? || p.ModEnvToFilterFc? || p.ModLfoToVolume? || p.ChorusEffectsSend? || p.ReverbEffectsSend? || p.Pan? {
      ControlsWriters(p);
    } else if p.DelayModLFO? || p.FreqModLFO? || p.DelayVibLFO? || p.FreqVibLFO? || p.ModDelay? || p.ModAttack? || p.ModHold? || p.ModDecay? || p.ModSustain? || p.ModRelease? {
      LfosWriters(p);
    } else {
      VolumeEnvelopeWriters(p);
    }
  }

  /** `Writers` for the fields of the pitch, filter, volume and effects handlers. */
  lemma ControlsWriters(p: Param)
    requires p.ModLfoToPitch? || p.VibLfoToPitch? || p.ModEnvToPitch? || p.InitialFilterFc? || p.InitialFilterQ? || p.ModLfoToFilterFc? || p.ModEnvToFilterFc? || p.ModLfoToVolume? || p.ChorusEffectsSend? || p.ReverbEffectsSend? || p.Pan?
    ensures G.IsValueGenerator(Writer(p)) && WriteOf(Writer(p)) == p
  {
  }

  /** `Writers` for the fields of the LFO and modulation-envelope handlers. */
  lemma LfosWriters(p: Param)
    requires p.DelayModLFO? || p.FreqModLFO? || p.DelayVibLFO? || p.FreqVibLFO? || p.ModDelay? || p.ModAttack? || p.ModHold? || p.ModDecay? || p.ModSustain? || p.ModRelease?
    ensures G.IsValueGenerator(Writer(p)) && WriteOf(Writer(p)) == p
  {
  }

  /** `Writers` for the fields of the volume-envelope, attenuation and tuning handlers. */
  lemma VolumeEnvelopeWriters(p: Param)
    requires p.VolDelay? || p.VolAttack? || p.VolHold? || p.VolDecay? || p.VolSustain? || p.VolRelease? || p.InitialAttenuation? || p.PlaybackRate?
    ensures G.IsValueGenerator(Writer(p)) && WriteOf(Writer(p)) == p
  {
  }

  /** The handlers of all value generators, in any order, write exactly the fields other than the sample fields. */
  lemma AllWritten(ks: seq<GenKey>)
    requires forall k :: k in ks <==> G.IsValueGenerator(k)
    ensures forall p: Param :: p in Written(ks) <==> !p.SampleField()
  {
    forall p: Param | !p.SampleField() ensures p in Written(ks) {
      Writers(p);
      InWritten(ks, Writer(p));
    }
    forall p | p in Written(ks) ensures !p.SampleField() {
      var i :| 0 <= i < |ks| && G.IsValueGenerator(ks[i]) && WriteOf(ks[i]) == p;
      HandlerWrites(ks[i]);
    }
  }

  /**
   * The handlers of all value generators, run on a record that holds exactly the
   * sample fields, succeed when there is a sample header, set every field, and keep
   * the sample fields.
   */
  lemma RunAllHandlers(start: Params, ks: seq<GenKey>, nums: map<GenKey, real>, key: int, sampleHeader: Option<S.SampleHeader>)
    requires Covers(nums) && sampleHeader.Some?
    requires forall k :: k in ks <==> G.IsValueGenerator(k)
    requires forall p: Param :: p in start <==> p.SampleField()
    ensures var r := RunHandlers(start, ks, nums, key, sampleHeader);
      r.Ok? && (forall p: Param :: p in r.value) && (forall p: Param | p.SampleField() :: r.value[p] == start[p])
  {
    forall i | 0 <= i < |ks| ensures !Fails(ks[i], sampleHeader) {
      assert ks[i] in ks;
    }
    AllWritten(ks);
    RunHandlersFails(start, ks, nums, key, sampleHeader);
    RunHandlersWrites(start, ks, nums, key, sampleHeader);
  }

  /**
   * With a sample header `getAllParams` returns a complete `VoiceParams`: every
   * field is set, and the sample fields keep the values it computed before running
   * the handlers.  Without one it throws.
   */
  lemma AllParamsComplete(ms: seq<M.Modulator>, z: G.Zone, key: int, sample: Option<seq<byte>>, sampleHeader: Option<S.SampleHeader>,
                          state: seq<M.Num>, curves: M.Curves, transform: Transform)
    requires Complete(z)
    ensures var r := AllParamsOf(ms, z, key, sample, sampleHeader, state, curves, transform);
      (r.Ok? <==> sampleHeader.Some?) &&
      (r.Ok? ==>
        (forall p: Param :: p in r.value) &&
        (forall p: Param | p.SampleField() :: r.value[p] == SampleParams(z, sample, sampleHeader.value)[p]))
  {
    CompleteCovers(z);
    if sampleHeader.Some? {
      G.ValueGeneratorKeysExact();
      RunAllHandlers(SampleParams(z, sample, sampleHeader.value), G.ValueGeneratorKeys,
                     Transformed(Numbers(z), ms, state, curves, transform), key, sampleHeader);
    }
  }

  /** A start address split into its coarse part, in 32768-sample units, and the rest comes back whole. */
  lemma AddressSplit(z: G.Zone, sample: Option<seq<byte>>, h: S.SampleHeader, a: int)
    requires Complete(z)
    requires z[StartAddrsCoarseOffset].b.value == a / 32768 && z[StartAddrsOffset].b.value == a % 32768
    ensures SampleParams(z, sample, h)[Param.Start] == Number(a as real)
  {
  }

  /**
   * The inner loop of `transformParams`: the contribution of each modulator of
   * `list`, skipping NaN, added in turn onto the value of `k`.
   */
  method AddContributions(params: Record, k: GenKey, list: seq<M.Modulator>, controllerState: seq<M.Num>,
                          curves: M.Curves, transform: Transform) returns (r: Record)
    requires k in params.values
    ensures r == params.Set(k, params.values[k] + Sum(list, controllerState, curves, transform))
  {
    r := params;
    for j := 0 to |list|
      invariant k in r.values && r.order == params.order
      invariant r.values == params.values[k := r.values[k]]
      invariant r.values[k] == params.values[k] + Sum(list[..j], controllerState, curves, transform)
    {
      SumStep(list, j, controllerState, curves, transform);
      var summingValue := Contribution(list[j], controllerState, curves, transform);
      if summingValue.NaN? {
        continue;
      }
      r := r.Set(k, r.values[k] + summingValue.x);
    }
    assert list[..|list|] == list;
    ghost var target := params.Set(k, params.values[k] + Sum(list, controllerState, curves, transform));
    assert r.values == target.values;
  }

  // ---------------------------------------------------------------- the voice

  /** `voiceHandlers[k](params, generators)` for each `k` of `keys` in turn; the first that throws ends the call. */
  method RunVoiceHandlers(params: Params, keys: seq<GenKey>, generators: map<GenKey, real>, key: int,
                          sampleHeader: Option<S.SampleHeader>)
    returns (r: Result<Params, JsError>)
    requires Covers(generators)
    ensures r == RunHandlers(params, keys, generators, key, sampleHeader)
  {
    var current := params;
    for i := 0 to |keys|
      invariant RunHandlers(params, keys[..i], generators, key, sampleHeader) == Ok(current)
    {
      RunHandlersStep(params, keys, i, generators, key, sampleHeader);
      var handled := Handle(keys[i], current, generators, key, sampleHeader);
      if handled.Err? {
        RunHandlersStop(params, keys, i + 1, generators, key, sampleHeader);
        return handled;
      }
      current := handled.value;
    }
    assert keys[..|keys|] == keys;
    r := Ok(current);
  }

  /**
   * `Voice`: the key, the resolved generators, the modulators, the sample and its
   * header, and the two indexes the constructor builds from the modulators.
   */
  class Voice {
    const key: int
    const generators: G.Zone
    const modulators: seq<M.Modulator>
    const sample: Option<seq<byte>>
    const sampleHeader: Option<S.SampleHeader>
    var controllerToDestinations: map<int, seq<int>>
    var destinationToModulators: map<int, seq<M.Modulator>>

    /** The generators name every generator, and both indexes are those of the modulators. */
    ghost predicate Valid()
      reads this
    {
      Complete(generators) &&
      controllerToDestinations == ControllerIndex(map[], modulators) &&
      destinationToModulators == DestinationIndex(map[], modulators)
    }

    constructor (key: int, generators: G.Zone, modulators: seq<M.Modulator>, sample: Option<seq<byte>>,
                 sampleHeader: Option<S.SampleHeader>)
      requires Complete(generators)
      ensures Valid()
      ensures this.key == key && this.generators == generators && this.modulators == modulators
      ensures this.sample == sample && this.sampleHeader == sampleHeader
    {
      this.key := key;
      this.generators := generators;
      this.modulators := modulators;
      this.sample := sample;
      this.sampleHeader := sampleHeader;
      controllerToDestinations := map[];
      destinationToModulators := map[];
      new;
      SetControllerToDestinations();
      SetDestinationToModulators();
    }

    /** `setControllerToDestinations`: add every modulator's destination to the set of its source controller. */
    method SetControllerToDestinations()
      modifies this
      ensures controllerToDestinations == ControllerIndex(old(controllerToDestinations), modulators)
      ensures destinationToModulators == old(destinationToModulators)
    {
      for i := 0 to |modulators|
        invariant controllerToDestinations == ControllerIndex(old(controllerToDestinations), modulators[..i])
        invariant destinationToModulators == old(destinationToModulators)
      {
        var modulator := modulators[i];
        var controllerType := modulator.sourceOper.ControllerType();
        var destinationOper := modulator.destinationOper;
        if controllerType in controllerToDestinations {
          var list := controllerToDestinations[controllerType];
          controllerToDestinations := controllerToDestinations[controllerType := Add(list, destinationOper)];
        } else {
          controllerToDestinations := controllerToDestinations[controllerType := [destinationOper]];
        }
        assert modulators[..i + 1][..i] == modulators[..i];
      }
      assert modulators[..|modulators|] == modulators;
    }

    /** `setDestinationToModulators`: append every modulator to the list of its destination. */
    method SetDestinationToModulators()
      modifies this
      ensures destinationToModulators == DestinationIndex(old(destinationToModulators), modulators)
      ensures controllerToDestinations == old(controllerToDestinations)
    {
      for i := 0 to |modulators|
        invariant destinationToModulators == DestinationIndex(old(destinationToModulators), modulators[..i])
        invariant controllerToDestinations == old(controllerToDestinations)
      {
        var modulator := modulators[i];
        var generatorKey := modulator.destinationOper;
        if generatorKey in destinationToModulators {
          var list := destinationToModulators[generatorKey];
          destinationToModulators := destinationToModulators[generatorKey := list + [modulator]];
        } else {
          destinationToModulators := destinationToModulators[generatorKey := [modulator]];
        }
        assert modulators[..i + 1][..i] == modulators[..i];
      }
      assert modulators[..|modulators|] == modulators;
    }

    /** `transformParams(controllerType, controllerState)`. */
    method TransformParams(controllerType: int, controllerState: seq<M.Num>, curves: M.Curves, transform: Transform)
      returns (params: Record)
      requires Valid()
      ensures params == UpdatedParams(controllerType, modulators, Numbers(generators), controllerState, curves, transform)
    {
      CompleteCovers(generators);
      var nums := Numbers(generators);
      params := Record([], map[]);
      if controllerType !in controllerToDestinations {
        return;
      }
      var destinations := controllerToDestinations[controllerType];
      for i := 0 to |destinations|
        invariant params == Updates(destinations[..i], destinationToModulators, nums, controllerState, curves, transform)
      {
        UpdatesStep(destinations, i, destinationToModulators, nums, controllerState, curves, transform);
        var destinationOper := destinations[i];
        var generatorKey := KeyOfCode(destinationOper);
        if generatorKey.None? {
          UpdateOneSkips(params, destinationOper, destinationToModulators, nums, controllerState, curves, transform);
          continue;
        }
        if !G.IsValueGenerator(generatorKey.value) {
          UpdateOneSkips(params, destinationOper, destinationToModulators, nums, controllerState, curves, transform);
          continue;
        }
        if destinationOper !in destinationToModulators {
          UpdateOneSkips(params, destinationOper, destinationToModulators, nums, controllerState, curves, transform);
          continue;
        }
        var k := generatorKey.value;
        var list := destinationToModulators[destinationOper];
        UpdateOneSets(params, destinationOper, destinationToModulators, nums, generators[k].b.value as real,
                      controllerState, curves, transform);
        params := params.Set(k, generators[k].b.value as real);
        params := AddContributions(params, k, list, controllerState, curves, transform);
      }
      assert destinations[..|destinations|] == destinations;
    }

    /** `transformAllParams(controllerState)`. */
    method TransformAllParams(controllerState: seq<M.Num>, curves: M.Curves, transform: Transform)
      returns (params: map<GenKey, real>)
      requires Valid()
      ensures params == Transformed(Numbers(generators), modulators, controllerState, curves, transform)
    {
      CompleteCovers(generators);
      var nums := Numbers(generators);
      params := nums;
      for i := 0 to |modulators|
        invariant Covers(params)
        invariant params == Transformed(nums, modulators[..i], controllerState, curves, transform)
      {
        TransformedStep(nums, modulators, i, controllerState, curves, transform);
        params := ApplyModulator(params, modulators[i], controllerState, curves, transform);
      }
      assert modulators[..|modulators|] == modulators;
    }

    /** `getParams(controllerType, controllerState)`. */
    method GetParams(controllerType: int, controllerState: seq<M.Num>, curves: M.Curves, transform: Transform)
      returns (r: Result<Params, JsError>)
      requires Valid()
      ensures r == ParamsOf(controllerType, modulators, generators, key, sampleHeader, controllerState, curves, transform)
    {
      CompleteCovers(generators);
      var params: Params := map[];
      var generators := Numbers(this.generators);
      var updatedParams := TransformParams(controllerType, controllerState, curves, transform);
      UpdatedValid(controllerType, modulators, generators, controllerState, curves, transform);
      var updatedKeys := updatedParams.order;
      for i := 0 to |updatedKeys|
        invariant generators == Override(Numbers(this.generators), updatedKeys[..i], updatedParams.values)
      {
        OverrideStep(Numbers(this.generators), updatedKeys, i, updatedParams.values);
        generators := generators[updatedKeys[i] := updatedParams.values[updatedKeys[i]]];
      }
      assert updatedKeys[..|updatedKeys|] == updatedKeys;
      OverrideRecord(Numbers(this.generators), updatedParams);
      r := RunVoiceHandlers(params, updatedKeys, generators, key, sampleHeader);
    }

    /** `getAllParams(controllerValues)`. */
    method GetAllParams(controllerValues: seq<M.Num>, curves: M.Curves, transform: Transform)
      returns (r: Result<Params, JsError>)
      requires Valid()
      ensures r == AllParamsOf(modulators, generators, key, sample, sampleHeader, controllerValues, curves, transform)
    {
      if sampleHeader.None? {
        return Err(UndefinedRead);
      }
      var params := SampleParams(generators, sample, sampleHeader.value);
      var generators := TransformAllParams(controllerValues, curves, transform);
      CompleteCovers(this.generators);
      r := RunVoiceHandlers(params, G.ValueGeneratorKeys, generators, key, sampleHeader);
    }
  }
}
