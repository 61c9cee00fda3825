/**
 * Zone resolution (src/SoundFont.ts): the per-zone generator and modulator lists of
 * a preset or an instrument, cut out of the parsed records by bag index; the lookup
 * of the first preset zone and instrument zone matching a key and a velocity, each
 * laid over the most recent global zone before it; and the voice built from the two.
 *
 * JavaScript failures are results: `new Array` of a negative length throws a
 * `RangeError`, and reading a property of a missing array element throws a
 * `TypeError` (`UndefinedRead`).
 */
module SoundFont {
  import opened Wrappers
  import opened ByteStream
  import opened Constants
  import S = Structs
  import G = Generator
  import M = Modulator
  import D = DefaultModulators
  import P = Parser
  import R = RiffParser
  import V = Voice

  // ---------------------------------------------------------------- zone segments

  /** `Array.prototype.slice(b, e)`: negative positions count from the end and both are clipped to the array. */
  function Slice<T>(s: seq<T>, b: int, e: int): (r: seq<T>)
    ensures 0 <= b <= e <= |s| ==> r == s[b..e]
    ensures forall x | x in r :: x in s
  {
    var lo := Clip(b, |s|);
    var hi := Clip(e, |s|);
    if hi <= lo then [] else s[lo..hi]
  }

  /** The bag field a segment starts at. */
  function GeneratorIndex(b: S.Bag): int {
    b.generatorIndex
  }

  function ModulatorIndex(b: S.Bag): int {
    b.modulatorIndex
  }

  /**
   * `getGeneratorParams` and `getModulators`: for each bag from `from` up to `to`,
   * the records from its index to the next bag's index.  A negative length throws a
   * `RangeError`; a bag position outside the bag list reads `undefined`.
   */
  function Segments<T>(list: seq<T>, zone: seq<S.Bag>, index: S.Bag -> int, from: int, to: int)
    : (r: Result<seq<seq<T>>, JsError>)
    ensures r == Err(RangeError) <==> to < from
    ensures r == Err(UndefinedRead) <==> from < to && (from < 0 || |zone| <= to)
    ensures r.Ok? ==> |r.value| == to - from
    ensures r.Ok? ==>
      forall j | 0 <= j < to - from :: r.value[j] == Slice(list, index(zone[from + j]), index(zone[from + j + 1]))
  {
    if to < from then Err(RangeError)
    else if from < to && (from < 0 || |zone| <= to) then Err(UndefinedRead)
    else Ok(seq(to - from, j requires 0 <= j < to - from => Slice(list, index(zone[from + j]), index(zone[from + j + 1]))))
  }

  /** The loop of `getGeneratorParams` and `getModulators`, over the bag field `index`. */
  method GetSegments<T>(list: seq<T>, zone: seq<S.Bag>, index: S.Bag -> int, from: int, to: int)
    returns (r: Result<seq<seq<T>>, JsError>)
    ensures r == Segments(list, zone, index, from, to)
  {
    if to - from < 0 {
      return Err(RangeError);
    }
    var result: seq<seq<T>> := [];
    for i := from to to
      invariant |result| == i - from
      invariant from < i ==> 0 <= from && i < |zone|
      invariant forall j | 0 <= j < i - from :: result[j] == Slice(list, index(zone[from + j]), index(zone[from + j + 1]))
    {
      if i < 0 || |zone| <= i + 1 {
        return Err(UndefinedRead);
      }
      var segmentFrom := index(zone[i]);
      var segmentTo := index(zone[i + 1]);
      result := result + [Slice(list, segmentFrom, segmentTo)];
    }
    assert result == Segments(list, zone, index, from, to).value;
    r := Ok(result);
  }

  /** Every segment holds records of the list only. */
  lemma SegmentsFromList<T>(list: seq<T>, zone: seq<S.Bag>, index: S.Bag -> int, from: int, to: int)
    requires Segments(list, zone, index, from, to).Ok?
    ensures var r := Segments(list, zone, index, from, to).value;
      forall j, x | 0 <= j < |r| && x in r[j] :: x in list
  {
  }

  /**
   * The bags of preset `i`: from its bag index to the next preset's, or to the last
   * bag for the last preset.  A preset position outside the list reads `undefined`.
   */
  function PresetBags(p: P.ParseResult, i: int): (r: Result<(int, int), JsError>)
    ensures r.Err? <==> !(0 <= i < |p.presetHeaders|)
    ensures r.Ok? ==> r.value.0 == p.presetHeaders[i].presetBagIndex
    ensures r.Ok? && i + 1 < |p.presetHeaders| ==> r.value.1 == p.presetHeaders[i + 1].presetBagIndex
    ensures r.Ok? && i + 1 == |p.presetHeaders| ==> r.value.1 == |p.presetZone| - 1
  {
    if !(0 <= i < |p.presetHeaders|) then Err(UndefinedRead)
    else
      var next := if i + 1 < |p.presetHeaders| then p.presetHeaders[i + 1].presetBagIndex else |p.presetZone| - 1;
      Ok((p.presetHeaders[i].presetBagIndex, next))
  }

  /** The bags of instrument `i`, likewise. */
  function InstrumentBags(p: P.ParseResult, i: int): (r: Result<(int, int), JsError>)
    ensures r.Err? <==> !(0 <= i < |p.instruments|)
    ensures r.Ok? ==> r.value.0 == p.instruments[i].instrumentBagIndex
    ensures r.Ok? && i + 1 < |p.instruments| ==> r.value.1 == p.instruments[i + 1].instrumentBagIndex
    ensures r.Ok? && i + 1 == |p.instruments| ==> r.value.1 == |p.instrumentZone| - 1
  {
    if !(0 <= i < |p.instruments|) then Err(UndefinedRead)
    else
      var next := if i + 1 < |p.instruments| then p.instruments[i + 1].instrumentBagIndex else |p.instrumentZone| - 1;
      Ok((p.instruments[i].instrumentBagIndex, next))
  }

  /** Consecutive presets share a boundary: each preset's bags end where the next one's begin. */
  lemma PresetBagsTile(p: P.ParseResult, i: int)
    requires 0 <= i && i + 1 < |p.presetHeaders|
    ensures PresetBags(p, i).value.1 == PresetBags(p, i + 1).value.0
  {
  }

  /** Consecutive instruments share a boundary likewise. */
  lemma InstrumentBagsTile(p: P.ParseResult, i: int)
    requires 0 <= i && i + 1 < |p.instruments|
    ensures InstrumentBags(p, i).value.1 == InstrumentBags(p, i + 1).value.0
  {
  }

  /** The segments of a bag range, or what reading the range threw. */
  function Zones<T>(range: Result<(int, int), JsError>, list: seq<T>, zone: seq<S.Bag>, index: S.Bag -> int)
    : Result<seq<seq<T>>, JsError>
  {
    if range.Err? then Err(range.error) else Segments(list, zone, index, range.value.0, range.value.1)
  }

  /** Each segment of a list of well-typed records is a list of well-typed records. */
  lemma SegmentsWellTyped(list: seq<S.GeneratorList>, zone: seq<S.Bag>, from: int, to: int)
    requires G.AllWellTyped(list)
    requires Segments(list, zone, GeneratorIndex, from, to).Ok?
    ensures forall j | 0 <= j < |Segments(list, zone, GeneratorIndex, from, to).value| ::
      G.AllWellTyped(Segments(list, zone, GeneratorIndex, from, to).value[j])
  {
    var r := Segments(list, zone, GeneratorIndex, from, to).value;
    forall j, k | 0 <= j < |r| && 0 <= k < |r[j]| ensures S.WellTyped(r[j][k]) {
      SegmentsFromList(list, zone, GeneratorIndex, from, to);
      assert r[j][k] in r[j];
    }
  }

  // ---------------------------------------------------------------- zone lookup

  /** `InstrumentZone`: the generators of an instrument zone, with the global zone laid under them, and its modulators. */
  datatype InstrumentZone = InstrumentZone(generators: G.Zone, modulators: seq<S.ModulatorList>)

  /** `PresetZone`. */
  datatype PresetZone = PresetZone(generators: G.Zone, modulators: seq<S.ModulatorList>)

  /** Zone dictionaries, each with ranges exactly at the range names, one modulator list per dictionary. */
  predicate ZoneLists(zs: seq<G.Zone>, mods: seq<seq<S.ModulatorList>>) {
    |zs| == |mods| && forall j | 0 <= j < |zs| :: G.Shaped(zs[j])
  }

  /** `createInstrumentGeneratorObject` of every segment. */
  function InstrumentObjects(gens: seq<seq<S.GeneratorList>>): (zs: seq<G.Zone>)
    requires forall j | 0 <= j < |gens| :: G.AllWellTyped(gens[j])
    ensures |zs| == |gens|
    ensures forall j | 0 <= j < |gens| :: zs[j] == G.InstrumentObject(gens[j]) && G.Shaped(zs[j])
  {
    forall j | 0 <= j < |gens| ensures G.Shaped(G.InstrumentObject(gens[j])) {
      G.InstrumentShaped(gens[j]);
    }
    seq(|gens|, j requires 0 <= j < |gens| => G.InstrumentObject(gens[j]))
  }

  /** The key and velocity lie in the zone's keyRange and velRange, where those are set. */
  predicate Accepts(z: G.Zone, key: int, velocity: int)
    requires G.Shaped(z)
  {
    (KeyRange in z ==> z[KeyRange].r.In(key)) && (VelRange in z ==> z[VelRange].r.In(velocity))
  }

  /** An instrument zone the lookup returns: it names a sample and accepts the key and velocity. */
  predicate SelectsInstrumentZone(z: G.Zone, key: int, velocity: int)
    requires G.Shaped(z)
  {
    SampleID in z && Accepts(z, key, velocity)
  }

  /** `{...global, ...zone}` and `[...globalModulators, ...modulators]`; without a global zone, the zone itself. */
  function LayInstrument(global: Option<InstrumentZone>, z: G.Zone, ms: seq<S.ModulatorList>): (r: InstrumentZone)
    ensures forall k | k in z :: k in r.generators && r.generators[k] == z[k]
    ensures forall k | k !in z :: (k in r.generators <==> global.Some? && k in global.value.generators)
    ensures forall k | k !in z && k in r.generators :: r.generators[k] == global.value.generators[k]
    ensures r.modulators == (if global.Some? then global.value.modulators else []) + ms
  {
    if global.Some? then InstrumentZone(global.value.generators + z, global.value.modulators + ms)
    else InstrumentZone(z, ms)
  }

  /**
   * The loop of `findInstrumentZone` from zone `i` on, with `global` the most recent
   * zone without a sampleID seen so far.
   */
  function SearchInstrumentZone(zs: seq<G.Zone>, mods: seq<seq<S.ModulatorList>>, key: int, velocity: int,
                                i: nat, global: Option<InstrumentZone>): Option<InstrumentZone>
    requires ZoneLists(zs, mods)
    decreases |zs| - i
  {
    if i >= |zs| then None
    else if SampleID !in zs[i] then SearchInstrumentZone(zs, mods, key, velocity, i + 1, Some(InstrumentZone(zs[i], mods[i])))
    else if !Accepts(zs[i], key, velocity) then SearchInstrumentZone(zs, mods, key, velocity, i + 1, global)
    else Some(LayInstrument(global, zs[i], mods[i]))
  }

  /**
   * The merge base for zone `j` when the lookup starts at `i` with `global`: the last
   * zone before `j` without a sampleID, or `global` when there is none from `i` on.
   */
  function InstrumentBase(zs: seq<G.Zone>, mods: seq<seq<S.ModulatorList>>, i: nat, j: int,
                          global: Option<InstrumentZone>): Option<InstrumentZone>
    requires ZoneLists(zs, mods) && j <= |zs|
    decreases j
  {
    if j <= i then global
    else if SampleID !in zs[j - 1] then Some(InstrumentZone(zs[j - 1], mods[j - 1]))
    else InstrumentBase(zs, mods, i, j - 1, global)
  }

  /** Starting one zone later with the base updated by zone `i` finds the same base. */
  lemma {:induction false} InstrumentBaseShift(zs: seq<G.Zone>, mods: seq<seq<S.ModulatorList>>, i: nat, j: int,
                                               global: Option<InstrumentZone>)
    requires ZoneLists(zs, mods) && i < j <= |zs|
    ensures var next := if SampleID !in zs[i] then Some(InstrumentZone(zs[i], mods[i])) else global;
      InstrumentBase(zs, mods, i + 1, j, next) == InstrumentBase(zs, mods, i, j, global)
    decreases j
  {
    if j > i + 1 {
      InstrumentBaseShift(zs, mods, i, j - 1, global);
    }
  }

  /** Zone `j` is the first zone from `i` on that the lookup selects. */
  predicate FirstInstrumentZone(zs: seq<G.Zone>, key: int, velocity: int, i: nat, j: int)
    requires forall l | 0 <= l < |zs| :: G.Shaped(zs[l])
  {
    i <= j < |zs| && SelectsInstrumentZone(zs[j], key, velocity) &&
    forall l | i <= l < j :: !SelectsInstrumentZone(zs[l], key, velocity)
  }

  /** The lookup finds nothing exactly when no zone from `i` on names a sample and accepts the key and velocity. */
  lemma {:induction false} SearchInstrumentZoneNone(zs: seq<G.Zone>, mods: seq<seq<S.ModulatorList>>,
                                                    key: int, velocity: int, i: nat, global: Option<InstrumentZone>)
    requires ZoneLists(zs, mods) && i <= |zs|
    ensures SearchInstrumentZone(zs, mods, key, velocity, i, global).None? <==>
      forall j | i <= j < |zs| :: !SelectsInstrumentZone(zs[j], key, velocity)
    decreases |zs| - i
  {
    if i < |zs| {
      var next := if SampleID !in zs[i] then Some(InstrumentZone(zs[i], mods[i])) else global;
      SearchInstrumentZoneNone(zs, mods, key, velocity, i + 1, next);
    }
  }

  /**
   * Otherwise it returns the first such zone laid over the most recent zone without
   * a sampleID before it, so that the zone's own values win.
   */
  lemma {:induction false} SearchInstrumentZoneFirst(zs: seq<G.Zone>, mods: seq<seq<S.ModulatorList>>,
                                                     key: int, velocity: int, i: nat, j: int, global: Option<InstrumentZone>)
    requires ZoneLists(zs, mods) && FirstInstrumentZone(zs, key, velocity, i, j)
    ensures SearchInstrumentZone(zs, mods, key, velocity, i, global) ==
      Some(LayInstrument(InstrumentBase(zs, mods, i, j, global), zs[j], mods[j]))
    decreases |zs| - i
  {
    if i < j {
      var next := if SampleID !in zs[i] then Some(InstrumentZone(zs[i], mods[i])) else global;
      assert FirstInstrumentZone(zs, key, velocity, i + 1, j);
      SearchInstrumentZoneFirst(zs, mods, key, velocity, i + 1, j, next);
      InstrumentBaseShift(zs, mods, i, j, global);
    }
  }

  /** A zone the lookup returns always names a sample. */
  lemma {:induction false} SearchInstrumentZoneNamesSample(zs: seq<G.Zone>, mods: seq<seq<S.ModulatorList>>,
                                                           key: int, velocity: int, i: nat, global: Option<InstrumentZone>)
    requires ZoneLists(zs, mods) && i <= |zs|
    ensures var r := SearchInstrumentZone(zs, mods, key, velocity, i, global);
      r.Some? ==> SampleID in r.value.generators
    decreases |zs| - i
  {
    if i < |zs| {
      var next := if SampleID !in zs[i] then Some(InstrumentZone(zs[i], mods[i])) else global;
      SearchInstrumentZoneNamesSample(zs, mods, key, velocity, i + 1, next);
    }
  }

  // ---------------------------------------------------------------- voice construction

  /** `convertToInstrumentGeneratorParams(defaultInstrumentZone)`: a fresh copy of the default table. */
  function DefaultZone(): (z: G.Zone)
    ensures forall k :: k in z && z[k] == G.DefaultValue(k)
  {
    G.ValueGeneratorKeysExact();
    map k | k in G.AllKeys :: G.DefaultValue(k)
  }

  /** The non-range entries of a preset zone among the names `ks`. */
  function Overrides(preset: G.Zone, ks: set<GenKey>): (o: G.Zone)
    ensures forall k :: k in o <==> k in ks && k in preset && !G.IsRangeGenerator(k)
    ensures forall k | k in o :: o[k] == preset[k]
  {
    map k | k in ks && k in preset && !G.IsRangeGenerator(k) :: preset[k]
  }

  /** The generators of the voice: the defaults, then the instrument zone, then every non-range preset name. */
  function VoiceGenerators(preset: G.Zone, inst: G.Zone): G.Zone {
    (DefaultZone() + inst) + Overrides(preset, preset.Keys)
  }

  /**
   * A preset value replaces the instrument's (it is not added to it) for every name
   * but keyRange and velRange; otherwise the instrument's value wins over the
   * default.  With both zones shaped, the voice names every generator, ranges at the
   * range names.
   */
  lemma VoiceGeneratorsRule(preset: G.Zone, inst: G.Zone)
    requires G.Shaped(preset) && G.Shaped(inst)
    ensures var z := VoiceGenerators(preset, inst);
      forall k :: k in z && z[k] ==
        if k in preset && !G.IsRangeGenerator(k) then preset[k]
        else if k in inst then inst[k]
        else G.DefaultValue(k)
    ensures V.Complete(VoiceGenerators(preset, inst))
  {
    G.DefaultsInBounds();
  }

  /** The modulator records of a zone, their sources decoded. */
  function DecodeAll(ms: seq<S.ModulatorList>): (r: seq<M.Modulator>)
    ensures |r| == |ms| && forall i | 0 <= i < |ms| :: r[i] == M.Decode(ms[i])
  {
    seq(|ms|, i requires 0 <= i < |ms| => M.Decode(ms[i]))
  }

  /** Decoding a concatenation concatenates the decodings. */
  lemma DecodeAllAppend(a: seq<S.ModulatorList>, b: seq<S.ModulatorList>)
    ensures DecodeAll(a + b) == DecodeAll(a) + DecodeAll(b)
  {
  }

  /** The element at `i`, or `None` for `undefined` outside the array. */
  function At<T>(s: seq<T>, i: int): (r: Option<T>)
    ensures r.Some? <==> 0 <= i < |s|
    ensures r.Some? ==> r.value == s[i]
  {
    if 0 <= i < |s| then Some(s[i]) else None
  }

  /** `defaultInstrumentZone.sampleID` clamping the voice's sampleID into `[-1, 32767]`. */
  function SampleIndex(z: G.Zone): (r: int)
    requires V.Complete(z)
    ensures -1 <= r <= G.Int16Max
    ensures -1 <= z[SampleID].b.value <= G.Int16Max ==> r == z[SampleID].b.value
  {
    G.DefaultSampleIndex();
    S.BoundedValue(G.DefaultValue(SampleID).b.min, z[SampleID].b.value, G.DefaultValue(SampleID).b.max).Clamp()
  }

  /** What `new Voice(...)` is built from. */
  datatype VoiceArgs = VoiceArgs(
    key: int, generators: G.Zone, modulators: seq<M.Modulator>,
    sample: Option<seq<byte>>, sampleHeader: Option<S.SampleHeader>)

  /** `createVoice`. */
  function VoiceOf(p: P.ParseResult, key: int, preset: PresetZone, inst: InstrumentZone): (a: VoiceArgs)
    requires G.Shaped(preset.generators) && G.Shaped(inst.generators)
    ensures V.Complete(a.generators)
    ensures a.key == key && a.generators == VoiceGenerators(preset.generators, inst.generators)
    ensures a.modulators == D.DefaultModulators + DecodeAll(preset.modulators) + DecodeAll(inst.modulators)
    ensures a.sample == At(p.samples, SampleIndex(a.generators))
    ensures a.sampleHeader == At(p.sampleHeaders, SampleIndex(a.generators))
  {
    VoiceGeneratorsRule(preset.generators, inst.generators);
    var generators := VoiceGenerators(preset.generators, inst.generators);
    var sampleID := SampleIndex(generators);
    VoiceArgs(key, generators, D.DefaultModulators + DecodeAll(preset.modulators) + DecodeAll(inst.modulators),
              At(p.samples, sampleID), At(p.sampleHeaders, sampleID))
  }

  /** A voice object holds exactly these arguments. */
  predicate Describes(v: V.Voice, a: VoiceArgs) {
    v.key == a.key && v.generators == a.generators && v.modulators == a.modulators &&
    v.sample == a.sample && v.sampleHeader == a.sampleHeader
  }

  /** The voice's entry for one name, as `VoiceGeneratorsRule` states it. */
  lemma VoiceGeneratorAt(preset: G.Zone, inst: G.Zone, k: GenKey)
    ensures var z := VoiceGenerators(preset, inst);
      k in z && z[k] == if k in preset && !G.IsRangeGenerator(k) then preset[k] else if k in inst then inst[k] else G.DefaultValue(k)
  {
    var d, o := DefaultZone(), Overrides(preset, preset.Keys);
    assert k in d;
    if k in o {
      assert VoiceGenerators(preset, inst)[k] == preset[k];
    } else if k in inst {
      assert VoiceGenerators(preset, inst)[k] == inst[k];
    } else {
      assert VoiceGenerators(preset, inst)[k] == d[k];
    }
  }

  /** Without a preset override, the voice plays the instrument zone's sample and header when the index is in range. */
  lemma VoiceSampleFromInstrument(p: P.ParseResult, key: int, preset: PresetZone, inst: InstrumentZone)
    requires G.Shaped(preset.generators) && G.Shaped(inst.generators)
    requires SampleID in inst.generators && SampleID !in preset.generators
    requires 0 <= inst.generators[SampleID].b.value < |p.sampleHeaders| && inst.generators[SampleID].b.value <= G.Int16Max
    ensures VoiceOf(p, key, preset, inst).sampleHeader == Some(p.sampleHeaders[inst.generators[SampleID].b.value])
  {
    VoiceGeneratorAt(preset.generators, inst.generators, SampleID);
    G.DefaultSampleIndex();
  }

  /** With sampleID set by neither zone, the default -1 indexes nothing: the voice has neither sample nor header. */
  lemma VoiceWithoutSample(p: P.ParseResult, key: int, preset: PresetZone, inst: InstrumentZone)
    requires G.Shaped(preset.generators) && G.Shaped(inst.generators)
    requires SampleID !in inst.generators && SampleID !in preset.generators
    ensures VoiceOf(p, key, preset, inst).sample == None && VoiceOf(p, key, preset, inst).sampleHeader == None
  {
    VoiceGeneratorAt(preset.generators, inst.generators, SampleID);
    G.DefaultSampleIndex();
  }

  // ---------------------------------------------------------------- preset lookup

  /** The generator lists of the parse are well typed, as decoding makes them. */
  predicate GeneratorsWellTyped(p: P.ParseResult) {
    G.AllWellTyped(p.presetGenerators) && G.AllWellTyped(p.instrumentGenerators)
  }

  /** What the parser returns meets the lookups' requirement. */
  lemma ParsedWellTyped(input: seq<byte>, opts: R.Options)
    requires P.Parsed(input, opts).Ok?
    ensures GeneratorsWellTyped(P.Parsed(input, opts).value)
  {
    P.ParsedGeneratorsWellTyped(input, opts);
  }

  /** Both kinds of segment of one bag range fail alike and have the same number of zones. */
  lemma ZonesAgree<A, B>(range: Result<(int, int), JsError>, gl: seq<A>, ml: seq<B>, zone: seq<S.Bag>)
    ensures var g := Zones(range, gl, zone, GeneratorIndex);
      var m := Zones(range, ml, zone, ModulatorIndex);
      (g.Err? <==> m.Err?) && (g.Err? ==> g.error == m.error) &&
      (g.Ok? ==> |g.value| == |m.value|)
  {
  }

  /** The generator and modulator lists of each zone of a preset or an instrument. */
  datatype Segmented = Segmented(generators: seq<seq<S.GeneratorList>>, modulators: seq<seq<S.ModulatorList>>)

  /** One modulator list per generator list, and every generator record well typed. */
  predicate WellSegmented(s: Segmented) {
    |s.generators| == |s.modulators| && forall j | 0 <= j < |s.generators| :: G.AllWellTyped(s.generators[j])
  }

  /** Both lists of a bag range, or what cutting them threw. */
  function SegmentsOf(range: Result<(int, int), JsError>, gl: seq<S.GeneratorList>, ml: seq<S.ModulatorList>, zone: seq<S.Bag>)
    : (r: Result<Segmented, JsError>)
    requires G.AllWellTyped(gl)
    ensures r.Ok? ==> WellSegmented(r.value)
    ensures r.Err? <==> Zones(range, gl, zone, GeneratorIndex).Err?
    ensures r.Err? ==> r.error == Zones(range, gl, zone, GeneratorIndex).error
    ensures r.Ok? ==> r.value == Segmented(Zones(range, gl, zone, GeneratorIndex).value, Zones(range, ml, zone, ModulatorIndex).value)
  {
    ZonesAgree(range, gl, ml, zone);
    var gens :- Zones(range, gl, zone, GeneratorIndex);
    SegmentsWellTyped(gl, zone, range.value.0, range.value.1);
    Ok(Segmented(gens, Zones(range, ml, zone, ModulatorIndex).value))
  }

  /** `findInstrumentZone`: the instrument's zones, then the lookup from its first zone without a global zone. */
  function InstrumentZoneLookup(p: P.ParseResult, id: int, key: int, velocity: int): (r: Result<Option<InstrumentZone>, JsError>)
    requires GeneratorsWellTyped(p)
    ensures r.Err? <==> Zones(InstrumentBags(p, id), p.instrumentGenerators, p.instrumentZone, GeneratorIndex).Err?
    ensures r.Ok? && r.value.Some? ==> G.Shaped(r.value.value.generators) && SampleID in r.value.value.generators
  {
    var segments :- SegmentsOf(InstrumentBags(p, id), p.instrumentGenerators, p.instrumentModulators, p.instrumentZone);
    var zs := InstrumentObjects(segments.generators);
    SearchInstrumentZoneNamesSample(zs, segments.modulators, key, velocity, 0, None);
    SearchInstrumentZoneShaped(zs, segments.modulators, key, velocity, 0, None);
    Ok(SearchInstrumentZone(zs, segments.modulators, key, velocity, 0, None))
  }

  /** A union of shaped dictionaries is shaped. */
  lemma UnionShaped(a: G.Zone, b: G.Zone)
    requires G.Shaped(a) && G.Shaped(b)
    ensures G.Shaped(a + b)
  {
  }

  /** The lookup lays shaped dictionaries over each other, so what it returns is shaped. */
  lemma {:induction false} SearchInstrumentZoneShaped(zs: seq<G.Zone>, mods: seq<seq<S.ModulatorList>>,
                                                      key: int, velocity: int, i: nat, global: Option<InstrumentZone>)
    requires ZoneLists(zs, mods) && i <= |zs|
    requires global.Some? ==> G.Shaped(global.value.generators)
    ensures var r := SearchInstrumentZone(zs, mods, key, velocity, i, global);
      r.Some? ==> G.Shaped(r.value.generators)
    decreases |zs| - i
  {
    if i < |zs| {
      var next := if SampleID !in zs[i] then Some(InstrumentZone(zs[i], mods[i])) else global;
      SearchInstrumentZoneShaped(zs, mods, key, velocity, i + 1, next);
      if global.Some? {
        UnionShaped(global.value.generators, zs[i]);
      }
    }
  }

  /** `createPresetGeneratorObject` of every segment. */
  function PresetObjects(gens: seq<seq<S.GeneratorList>>): (zs: seq<G.Zone>)
    requires forall j | 0 <= j < |gens| :: G.AllWellTyped(gens[j])
    ensures |zs| == |gens|
    ensures forall j | 0 <= j < |gens| :: zs[j] == G.PresetObject(gens[j]) && G.Shaped(zs[j])
  {
    forall j | 0 <= j < |gens| ensures G.Shaped(G.PresetObject(gens[j])) {
      G.PresetShaped(gens[j]);
    }
    seq(|gens|, j requires 0 <= j < |gens| => G.PresetObject(gens[j]))
  }

  /** `{...global, ...zone}` and `[...globalModulators, ...modulators]` for a preset zone. */
  function LayPreset(global: Option<PresetZone>, z: G.Zone, ms: seq<S.ModulatorList>): (r: PresetZone)
    ensures forall k | k in z :: k in r.generators && r.generators[k] == z[k]
    ensures forall k | k !in z :: (k in r.generators <==> global.Some? && k in global.value.generators)
    ensures forall k | k !in z && k in r.generators :: r.generators[k] == global.value.generators[k]
    ensures r.modulators == (if global.Some? then global.value.modulators else []) + ms
    ensures G.Shaped(z) && (global.Some? ==> G.Shaped(global.value.generators)) ==> G.Shaped(r.generators)
  {
    if global.Some? then PresetZone(global.value.generators + z, global.value.modulators + ms)
    else PresetZone(z, ms)
  }

  /** A preset zone that is not global names its instrument by a bounded value; its number is that value. */
  function InstrumentOf(z: G.Zone): (id: int)
    requires G.Shaped(z) && Instrument in z
  {
    z[Instrument].b.value
  }

  /** The instrument lookup of a preset zone, by instrument number, for a fixed key and velocity. */
  type Lookup = int -> Result<Option<InstrumentZone>, JsError>

  /** Every instrument zone the lookup finds holds ranges exactly at the range names. */
  ghost predicate LookupShaped(lookup: Lookup) {
    forall id :: lookup(id).Ok? && lookup(id).value.Some? ==> G.Shaped(lookup(id).value.value.generators)
  }

  /** `findInstrumentZone` of the parse, for the key and velocity. */
  function InstrumentLookup(p: P.ParseResult, key: int, velocity: int): (lookup: Lookup)
    requires GeneratorsWellTyped(p)
    ensures LookupShaped(lookup)
    ensures forall id :: lookup(id) == InstrumentZoneLookup(p, id, key, velocity)
  {
    id => InstrumentZoneLookup(p, id, key, velocity)
  }

  /** The preset zone and the instrument zone a voice is made of. */
  datatype Selection = Selection(preset: PresetZone, instrument: InstrumentZone)

  /** Both zones of a selection hold ranges exactly at the range names. */
  predicate ShapedSelection(m: Selection) {
    G.Shaped(m.preset.generators) && G.Shaped(m.instrument.generators)
  }

  /**
   * The loop of `findInstrument` from zone `i` on: a zone without an instrument is
   * the new global zone; a zone that accepts the key and velocity looks up its
   * instrument, and the first that finds an instrument zone is the selection.
   */
  function SearchPreset(lookup: Lookup, zs: seq<G.Zone>, mods: seq<seq<S.ModulatorList>>, key: int, velocity: int,
                        i: nat, global: Option<PresetZone>): (r: Result<Option<Selection>, JsError>)
    requires LookupShaped(lookup) && ZoneLists(zs, mods)
    requires global.Some? ==> G.Shaped(global.value.generators)
    ensures r.Ok? && r.value.Some? ==> ShapedSelection(r.value.value) && Instrument in r.value.value.preset.generators
    decreases |zs| - i
  {
    if i >= |zs| then Ok(None)
    else if Instrument !in zs[i] then SearchPreset(lookup, zs, mods, key, velocity, i + 1, Some(PresetZone(zs[i], mods[i])))
    else if !Accepts(zs[i], key, velocity) then SearchPreset(lookup, zs, mods, key, velocity, i + 1, global)
    else
      var found :- lookup(InstrumentOf(zs[i]));
      if found.None? then SearchPreset(lookup, zs, mods, key, velocity, i + 1, global)
      else Ok(Some(Selection(LayPreset(global, zs[i], mods[i]), found.value)))
  }

  /** The voice of a selection, if any. */
  function VoiceOfSelection(p: P.ParseResult, key: int, found: Option<Selection>): (r: Option<VoiceArgs>)
    requires found.Some? ==> ShapedSelection(found.value)
    ensures r.Some? <==> found.Some?
    ensures r.Some? ==> r.value == VoiceOf(p, key, found.value.preset, found.value.instrument)
  {
    if found.None? then None else Some(VoiceOf(p, key, found.value.preset, found.value.instrument))
  }

  /** `findInstrument`: the preset's zones, the lookup from its first zone, then `createVoice`. */
  function PresetLookup(p: P.ParseResult, presetIndex: int, key: int, velocity: int): (r: Result<Option<VoiceArgs>, JsError>)
    requires GeneratorsWellTyped(p)
  {
    var segments :- SegmentsOf(PresetBags(p, presetIndex), p.presetGenerators, p.presetModulators, p.presetZone);
    var found :- SearchPreset(InstrumentLookup(p, key, velocity), PresetObjects(segments.generators), segments.modulators, key, velocity, 0, None);
    Ok(VoiceOfSelection(p, key, found))
  }

  /** A preset zone the lookup turns into a voice: it names an instrument and accepts the key and velocity. */
  predicate SelectsPresetZone(z: G.Zone, key: int, velocity: int)
    requires G.Shaped(z)
  {
    Instrument in z && Accepts(z, key, velocity)
  }

  /** Zone `j`'s instrument has a zone for the key and velocity. */
  predicate PresetHit(lookup: Lookup, zs: seq<G.Zone>, key: int, velocity: int, j: int)
    requires LookupShaped(lookup) && 0 <= j < |zs| && G.Shaped(zs[j])
  {
    SelectsPresetZone(zs[j], key, velocity) && lookup(InstrumentOf(zs[j])).Ok? &&
    lookup(InstrumentOf(zs[j])).value.Some?
  }

  /** Zone `j` does not accept the key and velocity, names no instrument, or its instrument has no zone for them. */
  predicate PresetMiss(lookup: Lookup, zs: seq<G.Zone>, key: int, velocity: int, j: int)
    requires LookupShaped(lookup) && 0 <= j < |zs| && G.Shaped(zs[j])
  {
    !SelectsPresetZone(zs[j], key, velocity) || lookup(InstrumentOf(zs[j])) == Ok(None)
  }

  /** The merge base for preset zone `j`: the last zone before it without an instrument, or `global`. */
  function PresetBase(zs: seq<G.Zone>, mods: seq<seq<S.ModulatorList>>, i: nat, j: int,
                      global: Option<PresetZone>): (r: Option<PresetZone>)
    requires ZoneLists(zs, mods) && j <= |zs|
    requires global.Some? ==> G.Shaped(global.value.generators)
    ensures r.Some? ==> G.Shaped(r.value.generators)
    decreases j
  {
    if j <= i then global
    else if Instrument !in zs[j - 1] then Some(PresetZone(zs[j - 1], mods[j - 1]))
    else PresetBase(zs, mods, i, j - 1, global)
  }

  lemma {:induction false} PresetBaseShift(zs: seq<G.Zone>, mods: seq<seq<S.ModulatorList>>, i: nat, j: int,
                                           global: Option<PresetZone>)
    requires ZoneLists(zs, mods) && i < j <= |zs|
    requires global.Some? ==> G.Shaped(global.value.generators)
    ensures var next := if Instrument !in zs[i] then Some(PresetZone(zs[i], mods[i])) else global;
      PresetBase(zs, mods, i + 1, j, next) == PresetBase(zs, mods, i, j, global)
    decreases j
  {
    if j > i + 1 {
      PresetBaseShift(zs, mods, i, j - 1, global);
    }
  }

  /** A zone that misses leaves the lookup to the next zone, with itself as the global zone when it names no instrument. */
  lemma SearchPresetSkip(lookup: Lookup, zs: seq<G.Zone>, mods: seq<seq<S.ModulatorList>>,
                         key: int, velocity: int, i: nat, global: Option<PresetZone>)
    requires LookupShaped(lookup) && ZoneLists(zs, mods) && i < |zs|
    requires global.Some? ==> G.Shaped(global.value.generators)
    requires PresetMiss(lookup, zs, key, velocity, i)
    ensures var next := if Instrument !in zs[i] then Some(PresetZone(zs[i], mods[i])) else global;
      SearchPreset(lookup, zs, mods, key, velocity, i, global) == SearchPreset(lookup, zs, mods, key, velocity, i + 1, next)
  {
  }

  /** A zone that hits is the selection, laid over the global zone. */
  lemma SearchPresetHit(lookup: Lookup, zs: seq<G.Zone>, mods: seq<seq<S.ModulatorList>>,
                        key: int, velocity: int, j: nat, global: Option<PresetZone>)
    requires LookupShaped(lookup) && ZoneLists(zs, mods) && j < |zs|
    requires global.Some? ==> G.Shaped(global.value.generators)
    requires PresetHit(lookup, zs, key, velocity, j)
    ensures SearchPreset(lookup, zs, mods, key, velocity, j, global) ==
      Ok(Some(Selection(LayPreset(global, zs[j], mods[j]), lookup(InstrumentOf(zs[j])).value.value)))
  {
  }

  /**
   * The selection is the first zone from `i` on whose instrument has a zone for the
   * key and velocity, when every zone before it misses: that preset zone laid over the
   * most recent global zone, and the instrument zone found.
   */
  lemma {:induction false} SearchPresetFirst(lookup: Lookup, zs: seq<G.Zone>, mods: seq<seq<S.ModulatorList>>,
                                             key: int, velocity: int, i: nat, j: int, global: Option<PresetZone>)
    requires LookupShaped(lookup) && ZoneLists(zs, mods) && i <= j < |zs|
    requires global.Some? ==> G.Shaped(global.value.generators)
    requires PresetHit(lookup, zs, key, velocity, j) && forall l | i <= l < j :: PresetMiss(lookup, zs, key, velocity, l)
    ensures var preset := LayPreset(PresetBase(zs, mods, i, j, global), zs[j], mods[j]);
      SearchPreset(lookup, zs, mods, key, velocity, i, global) ==
        Ok(Some(Selection(preset, lookup(InstrumentOf(zs[j])).value.value)))
    decreases |zs| - i
  {
    if i < j {
      var next := if Instrument !in zs[i] then Some(PresetZone(zs[i], mods[i])) else global;
      SearchPresetSkip(lookup, zs, mods, key, velocity, i, global);
      SearchPresetFirst(lookup, zs, mods, key, velocity, i + 1, j, next);
      PresetBaseShift(zs, mods, i, j, global);
    } else {
      SearchPresetHit(lookup, zs, mods, key, velocity, j, global);
    }
  }

  /** No selection when every zone from `i` on misses. */
  lemma {:induction false} SearchPresetNone(lookup: Lookup, zs: seq<G.Zone>, mods: seq<seq<S.ModulatorList>>,
                                            key: int, velocity: int, i: nat, global: Option<PresetZone>)
    requires LookupShaped(lookup) && ZoneLists(zs, mods) && i <= |zs|
    requires global.Some? ==> G.Shaped(global.value.generators)
    requires forall j | i <= j < |zs| :: PresetMiss(lookup, zs, key, velocity, j)
    ensures SearchPreset(lookup, zs, mods, key, velocity, i, global) == Ok(None)
    decreases |zs| - i
  {
    if i < |zs| {
      var next := if Instrument !in zs[i] then Some(PresetZone(zs[i], mods[i])) else global;
      SearchPresetSkip(lookup, zs, mods, key, velocity, i, global);
      SearchPresetNone(lookup, zs, mods, key, velocity, i + 1, next);
    }
  }

  /** The lookup fails only with what the instrument lookup of an accepting zone threw. */
  lemma {:induction false} SearchPresetError(lookup: Lookup, zs: seq<G.Zone>, mods: seq<seq<S.ModulatorList>>,
                                             key: int, velocity: int, i: nat, global: Option<PresetZone>)
    requires LookupShaped(lookup) && ZoneLists(zs, mods) && i <= |zs|
    requires global.Some? ==> G.Shaped(global.value.generators)
    ensures var r := SearchPreset(lookup, zs, mods, key, velocity, i, global);
      r.Err? ==> exists j | i <= j < |zs| && SelectsPresetZone(zs[j], key, velocity) ::
        lookup(InstrumentOf(zs[j])) == Err(r.error)
    decreases |zs| - i
  {
    if i < |zs| {
      var next := if Instrument !in zs[i] then Some(PresetZone(zs[i], mods[i])) else global;
      SearchPresetError(lookup, zs, mods, key, velocity, i + 1, next);
    }
  }

  // ---------------------------------------------------------------- presets by number

  /** `presetHeaders.findIndex(p => p.preset === instrumentNumber && p.bank === bankNumber)`. */
  function FirstPreset(headers: seq<S.PresetHeader>, bank: int, program: int): (r: int)
    ensures -1 <= r < |headers|
    ensures r == -1 <==> forall j | 0 <= j < |headers| :: !(headers[j].preset == program && headers[j].bank == bank)
    ensures r >= 0 ==> headers[r].preset == program && headers[r].bank == bank
    ensures r >= 0 ==> forall j | 0 <= j < r :: !(headers[j].preset == program && headers[j].bank == bank)
  {
    if |headers| == 0 then -1
    else
      var r := FirstPreset(headers[..|headers| - 1], bank, program);
      var h := headers[|headers| - 1];
      if r >= 0 then r
      else if h.preset == program && h.bank == bank then |headers| - 1
      else -1
  }

  /** `getVoice`: no voice when no header has the bank and program; otherwise that preset's lookup. */
  function VoiceLookup(p: P.ParseResult, bank: int, program: int, key: int, velocity: int): Result<Option<VoiceArgs>, JsError>
    requires GeneratorsWellTyped(p)
  {
    var index := FirstPreset(p.presetHeaders, bank, program);
    if index < 0 then Ok(None) else PresetLookup(p, index, key, velocity)
  }

  /** One step of `getPresetNames`: make the bank's table when missing, then name the preset in it. */
  function NameStep(bank: map<int, map<int, string>>, h: S.PresetHeader): map<int, map<int, string>> {
    var table := if h.bank in bank then bank[h.bank] else map[];
    bank[h.bank := table[h.preset := h.presetName]]
  }

  /** `getPresetNames` over a prefix of the headers. */
  function PresetNames(headers: seq<S.PresetHeader>): map<int, map<int, string>> {
    if |headers| == 0 then map[]
    else NameStep(PresetNames(headers[..|headers| - 1]), headers[|headers| - 1])
  }

  /** What one step does to the table: it adds the header's bank and program and names it. */
  lemma NameStepRule(bank: map<int, map<int, string>>, h: S.PresetHeader)
    ensures var r := NameStep(bank, h);
      (forall b :: b in r <==> b in bank || b == h.bank) &&
      (forall b, n | b in r :: n in r[b] <==> (b in bank && n in bank[b]) || (b == h.bank && n == h.preset)) &&
      (forall b, n | b in r && n in r[b] :: r[b][n] == if b == h.bank && n == h.preset then h.presetName else bank[b][n])
  {
  }

  /** The table has a bank exactly when a header has it. */
  lemma {:induction false} PresetNamesBanks(headers: seq<S.PresetHeader>)
    ensures forall b :: b in PresetNames(headers) <==> exists j | 0 <= j < |headers| :: headers[j].bank == b
  {
    if |headers| > 0 {
      var init := headers[..|headers| - 1];
      PresetNamesBanks(init);
      NameStepRule(PresetNames(init), headers[|headers| - 1]);
      forall b ensures b in PresetNames(headers) <==> exists j | 0 <= j < |headers| :: headers[j].bank == b {
        if j :| 0 <= j < |init| && init[j].bank == b {
          assert headers[j].bank == b;
        }
        if j :| 0 <= j < |headers| && headers[j].bank == b {
          if j < |init| { assert init[j].bank == b; }
        }
      }
    }
  }

  /** A bank's table has a program exactly when a header has both. */
  lemma {:induction false} PresetNamesPrograms(headers: seq<S.PresetHeader>)
    ensures forall b, n | b in PresetNames(headers) ::
      n in PresetNames(headers)[b] <==> exists j | 0 <= j < |headers| :: headers[j].bank == b && headers[j].preset == n
  {
    if |headers| > 0 {
      var init := headers[..|headers| - 1];
      PresetNamesPrograms(init);
      NameStepRule(PresetNames(init), headers[|headers| - 1]);
      forall b, n | b in PresetNames(headers)
        ensures n in PresetNames(headers)[b] <==> exists j | 0 <= j < |headers| :: headers[j].bank == b && headers[j].preset == n
      {
        if j :| 0 <= j < |init| && init[j].bank == b && init[j].preset == n {
          assert headers[j].bank == b && headers[j].preset == n;
          PresetNamesBanks(init);
        }
        if j :| 0 <= j < |headers| && headers[j].bank == b && headers[j].preset == n {
          if j < |init| { assert init[j].bank == b && init[j].preset == n; }
        }
      }
    }
  }

  /** Header `i` is the last one with bank `b` and program `n`. */
  predicate LastNamed(headers: seq<S.PresetHeader>, b: int, n: int, i: int) {
    0 <= i < |headers| && headers[i].bank == b && headers[i].preset == n &&
    forall j | i < j < |headers| :: !(headers[j].bank == b && headers[j].preset == n)
  }

  /** The name at a bank and program is that of the last header with both: later headers overwrite earlier ones. */
  lemma {:induction false} PresetNamesLastWins(headers: seq<S.PresetHeader>)
    ensures forall b, n | b in PresetNames(headers) && n in PresetNames(headers)[b] ::
      exists i | LastNamed(headers, b, n, i) :: PresetNames(headers)[b][n] == headers[i].presetName
  {
    if |headers| > 0 {
      var init := headers[..|headers| - 1];
      var h := headers[|headers| - 1];
      PresetNamesLastWins(init);
      NameStepRule(PresetNames(init), h);
      forall b, n | b in PresetNames(headers) && n in PresetNames(headers)[b]
        ensures exists i | LastNamed(headers, b, n, i) :: PresetNames(headers)[b][n] == headers[i].presetName
      {
        if b == h.bank && n == h.preset {
          assert LastNamed(headers, b, n, |headers| - 1);
        } else {
          var i :| LastNamed(init, b, n, i) && PresetNames(init)[b][n] == init[i].presetName;
          assert LastNamed(headers, b, n, i);
        }
      }
    }
  }

  // ---------------------------------------------------------------- the resolver object

  /** The lookup's global zone: the last generators and modulators of a zone without a sampleID. */
  function GlobalInstrument(generators: Option<G.Zone>, modulators: seq<S.ModulatorList>): Option<InstrumentZone> {
    if generators.Some? then Some(InstrumentZone(generators.value, modulators)) else None
  }

  function GlobalPreset(generators: Option<G.Zone>, modulators: seq<S.ModulatorList>): Option<PresetZone> {
    if generators.Some? then Some(PresetZone(generators.value, modulators)) else None
  }

  /** The zone loop of `findInstrumentZone`: the first zone with a sampleID accepting the key and velocity, over its global zone. */
  method SelectInstrumentZone(instrumentGenerators: seq<seq<S.GeneratorList>>, instrumentModulators: seq<seq<S.ModulatorList>>,
                              key: int, velocity: int) returns (r: Option<InstrumentZone>)
    requires WellSegmented(Segmented(instrumentGenerators, instrumentModulators))
    ensures r == SearchInstrumentZone(InstrumentObjects(instrumentGenerators), instrumentModulators, key, velocity, 0, None)
  {
    ghost var zs := InstrumentObjects(instrumentGenerators);
    var globalGenerators: Option<G.Zone> := None;
    var globalModulators: seq<S.ModulatorList> := [];
    for i := 0 to |instrumentGenerators|
      invariant SearchInstrumentZone(zs, instrumentModulators, key, velocity, 0, None) ==
        SearchInstrumentZone(zs, instrumentModulators, key, velocity, i, GlobalInstrument(globalGenerators, globalModulators))
    {
      var generators := G.CreateInstrumentGeneratorObject(instrumentGenerators[i]);
      if SampleID !in generators {
        globalGenerators := Some(generators);
        globalModulators := instrumentModulators[i];
        continue;
      }
      if KeyRange in generators && !generators[KeyRange].r.In(key) {
        continue;
      }
      if VelRange in generators && !generators[VelRange].r.In(velocity) {
        continue;
      }
      if globalGenerators.Some? {
        var gen := globalGenerators.value + generators;
        var mod := globalModulators + instrumentModulators[i];
        return Some(InstrumentZone(gen, mod));
      } else {
        return Some(InstrumentZone(generators, instrumentModulators[i]));
      }
    }
    return None;
  }

  /** A voice object stands for what the lookup describes: the same error, no voice, or a voice with its arguments. */
  predicate Yields(r: Result<Option<V.Voice>, JsError>, spec: Result<Option<VoiceArgs>, JsError>) {
    match spec
    case Err(e) => r == Err(e)
    case Ok(None) => r == Ok(None)
    case Ok(Some(a)) => r.Ok? && r.value.Some? && Describes(r.value.value, a)
  }

  /** Overriding one more name of the preset zone. */
  lemma OverridesStep(base: G.Zone, preset: G.Zone, done: set<GenKey>, k: GenKey)
    requires k in preset
    ensures !G.IsRangeGenerator(k) ==> base + Overrides(preset, done + {k}) == (base + Overrides(preset, done))[k := preset[k]]
    ensures G.IsRangeGenerator(k) ==> base + Overrides(preset, done + {k}) == base + Overrides(preset, done)
  {
  }

  /** The preset loop of `createVoice`: every name of the preset zone but keyRange and velRange overwrites the dictionary. */
  method OverridePresetValues(generators: G.Zone, preset: G.Zone) returns (r: G.Zone)
    ensures r == generators + Overrides(preset, preset.Keys)
  {
    r := generators;
    var keys := preset.Keys;
    ghost var done: set<GenKey> := {};
    while keys != {}
      invariant keys !! done && keys + done == preset.Keys
      invariant r == generators + Overrides(preset, done)
      decreases keys
    {
      var k :| k in keys;
      OverridesStep(generators, preset, done, k);
      keys := keys - {k};
      if !G.IsRangeGenerator(k) {
        r := r[k := preset[k]];
      }
      done := done + {k};
    }
  }

  /** `SoundFont`: lookups over one parse result, which it never changes. */
  class SoundFont {
    const parsed: P.ParseResult

    constructor (parsed: P.ParseResult)
      ensures this.parsed == parsed
    {
      this.parsed := parsed;
    }

    /** `getGeneratorParams`. */
    method GetGeneratorParams(generators: seq<S.GeneratorList>, zone: seq<S.Bag>, from: int, to: int)
      returns (r: Result<seq<seq<S.GeneratorList>>, JsError>)
      ensures r == Segments(generators, zone, GeneratorIndex, from, to)
    {
      r := GetSegments(generators, zone, GeneratorIndex, from, to);
    }

    /** `getModulators`. */
    method GetModulators(modulators: seq<S.ModulatorList>, zone: seq<S.Bag>, from: int, to: int)
      returns (r: Result<seq<seq<S.ModulatorList>>, JsError>)
      ensures r == Segments(modulators, zone, ModulatorIndex, from, to)
    {
      r := GetSegments(modulators, zone, ModulatorIndex, from, to);
    }

    /** `getPresetGenerators`. */
    method GetPresetGenerators(presetHeaderIndex: int) returns (r: Result<seq<seq<S.GeneratorList>>, JsError>)
      ensures r == Zones(PresetBags(parsed, presetHeaderIndex), parsed.presetGenerators, parsed.presetZone, GeneratorIndex)
    {
      if !(0 <= presetHeaderIndex < |parsed.presetHeaders|) {
        return Err(UndefinedRead);
      }
      var presetHeader := parsed.presetHeaders[presetHeaderIndex];
      var nextPresetBagIndex := if presetHeaderIndex + 1 < |parsed.presetHeaders|
        then parsed.presetHeaders[presetHeaderIndex + 1].presetBagIndex else |parsed.presetZone| - 1;
      r := GetGeneratorParams(parsed.presetGenerators, parsed.presetZone, presetHeader.presetBagIndex, nextPresetBagIndex);
    }

    /** `getInstrumentGenerators`. */
    method GetInstrumentGenerators(instrumentID: int) returns (r: Result<seq<seq<S.GeneratorList>>, JsError>)
      ensures r == Zones(InstrumentBags(parsed, instrumentID), parsed.instrumentGenerators, parsed.instrumentZone, GeneratorIndex)
    {
      if !(0 <= instrumentID < |parsed.instruments|) {
        return Err(UndefinedRead);
      }
      var instrument := parsed.instruments[instrumentID];
      var nextInstrumentBagIndex := if instrumentID + 1 < |parsed.instruments|
        then parsed.instruments[instrumentID + 1].instrumentBagIndex else |parsed.instrumentZone| - 1;
      r := GetGeneratorParams(parsed.instrumentGenerators, parsed.instrumentZone, instrument.instrumentBagIndex, nextInstrumentBagIndex);
    }

    /** `getPresetModulators`. */
    method GetPresetModulators(presetHeaderIndex: int) returns (r: Result<seq<seq<S.ModulatorList>>, JsError>)
      ensures r == Zones(PresetBags(parsed, presetHeaderIndex), parsed.presetModulators, parsed.presetZone, ModulatorIndex)
    {
      if !(0 <= presetHeaderIndex < |parsed.presetHeaders|) {
        return Err(UndefinedRead);
      }
      var presetHeader := parsed.presetHeaders[presetHeaderIndex];
      var nextPresetBagIndex := if presetHeaderIndex + 1 < |parsed.presetHeaders|
        then parsed.presetHeaders[presetHeaderIndex + 1].presetBagIndex else |parsed.presetZone| - 1;
      r := GetModulators(parsed.presetModulators, parsed.presetZone, presetHeader.presetBagIndex, nextPresetBagIndex);
    }

    /** `getInstrumentModulators`. */
    method GetInstrumentModulators(instrumentID: int) returns (r: Result<seq<seq<S.ModulatorList>>, JsError>)
      ensures r == Zones(InstrumentBags(parsed, instrumentID), parsed.instrumentModulators, parsed.instrumentZone, ModulatorIndex)
    {
      if !(0 <= instrumentID < |parsed.instruments|) {
        return Err(UndefinedRead);
      }
      var instrument := parsed.instruments[instrumentID];
      var nextInstrumentBagIndex := if instrumentID + 1 < |parsed.instruments|
        then parsed.instruments[instrumentID + 1].instrumentBagIndex else |parsed.instrumentZone| - 1;
      r := GetModulators(parsed.instrumentModulators, parsed.instrumentZone, instrument.instrumentBagIndex, nextInstrumentBagIndex);
    }

    /** `getInstrumentGenerators` and `getInstrumentModulators` of one instrument. */
    method GetInstrumentSegments(instrumentID: int) returns (r: Result<Segmented, JsError>)
      requires GeneratorsWellTyped(parsed)
      ensures r == SegmentsOf(InstrumentBags(parsed, instrumentID), parsed.instrumentGenerators, parsed.instrumentModulators, parsed.instrumentZone)
    {
      var generators := GetInstrumentGenerators(instrumentID);
      if generators.Err? {
        return Err(generators.error);
      }
      var modulators := GetInstrumentModulators(instrumentID);
      ZonesAgree(InstrumentBags(parsed, instrumentID), parsed.instrumentGenerators, parsed.instrumentModulators, parsed.instrumentZone);
      r := Ok(Segmented(generators.value, modulators.value));
    }

    /** `getPresetGenerators` and `getPresetModulators` of one preset. */
    method GetPresetSegments(presetHeaderIndex: int) returns (r: Result<Segmented, JsError>)
      requires GeneratorsWellTyped(parsed)
      ensures r == SegmentsOf(PresetBags(parsed, presetHeaderIndex), parsed.presetGenerators, parsed.presetModulators, parsed.presetZone)
    {
      var generators := GetPresetGenerators(presetHeaderIndex);
      if generators.Err? {
        return Err(generators.error);
      }
      var modulators := GetPresetModulators(presetHeaderIndex);
      ZonesAgree(PresetBags(parsed, presetHeaderIndex), parsed.presetGenerators, parsed.presetModulators, parsed.presetZone);
      r := Ok(Segmented(generators.value, modulators.value));
    }

    /** `findInstrumentZone`. */
    method FindInstrumentZone(instrumentID: int, key: int, velocity: int) returns (r: Result<Option<InstrumentZone>, JsError>)
      requires GeneratorsWellTyped(parsed)
      ensures r == InstrumentZoneLookup(parsed, instrumentID, key, velocity)
    {
      var segments := GetInstrumentSegments(instrumentID);
      if segments.Err? {
        return Err(segments.error);
      }
      var zone := SelectInstrumentZone(segments.value.generators, segments.value.modulators, key, velocity);
      r := Ok(zone);
    }

    /** The loop of `findInstrument`: the first preset zone whose instrument has a zone for the key and velocity. */
    method SelectZones(presetGenerators: seq<seq<S.GeneratorList>>, presetModulators: seq<seq<S.ModulatorList>>,
                       key: int, velocity: int) returns (r: Result<Option<Selection>, JsError>)
      requires GeneratorsWellTyped(parsed) && WellSegmented(Segmented(presetGenerators, presetModulators))
      ensures r == SearchPreset(InstrumentLookup(parsed, key, velocity), PresetObjects(presetGenerators), presetModulators, key, velocity, 0, None)
    {
      ghost var lookup := InstrumentLookup(parsed, key, velocity);
      ghost var zs := PresetObjects(presetGenerators);
      var globalGenerators: Option<G.Zone> := None;
      var globalModulators: seq<S.ModulatorList> := [];
      for i := 0 to |presetGenerators|
        invariant globalGenerators.Some? ==> G.Shaped(globalGenerators.value)
        invariant SearchPreset(lookup, zs, presetModulators, key, velocity, 0, None) ==
          SearchPreset(lookup, zs, presetModulators, key, velocity, i, GlobalPreset(globalGenerators, globalModulators))
      {
        var generators := G.CreatePresetGeneratorObject(presetGenerators[i]);
        if Instrument !in generators {
          globalGenerators := Some(generators);
          globalModulators := presetModulators[i];
          continue;
        }
        if KeyRange in generators && !generators[KeyRange].r.In(key) {
          continue;
        }
        if VelRange in generators && !generators[VelRange].r.In(velocity) {
          continue;
        }
        var instrumentZone := FindInstrumentZone(generators[Instrument].b.value, key, velocity);
        if instrumentZone.Err? {
          return Err(instrumentZone.error);
        }
        if instrumentZone.value.Some? {
          var presetZone;
          if globalGenerators.Some? {
            var gen := globalGenerators.value + generators;
            var mod := globalModulators + presetModulators[i];
            presetZone := PresetZone(gen, mod);
          } else {
            presetZone := PresetZone(generators, presetModulators[i]);
          }
          return Ok(Some(Selection(presetZone, instrumentZone.value.value)));
        }
      }
      return Ok(None);
    }

    /** `findInstrument`: the preset's zones, the zone selection, then `createVoice`. */
    method FindInstrument(presetHeaderIndex: int, key: int, velocity: int) returns (r: Result<Option<V.Voice>, JsError>)
      requires GeneratorsWellTyped(parsed)
      ensures Yields(r, PresetLookup(parsed, presetHeaderIndex, key, velocity))
      ensures r.Ok? && r.value.Some? ==> fresh(r.value.value) && r.value.value.Valid()
    {
      var segments := GetPresetSegments(presetHeaderIndex);
      if segments.Err? {
        return Err(segments.error);
      }
      var found := SelectZones(segments.value.generators, segments.value.modulators, key, velocity);
      if found.Err? {
        return Err(found.error);
      }
      if found.value.None? {
        return Ok(None);
      }
      var voice := CreateVoice(key, found.value.value.preset, found.value.value.instrument);
      return Ok(Some(voice));
    }

    /**
     * `createVoice`: the defaults, overwritten by the instrument zone, then by every
     * non-range name of the preset zone; the default, preset and instrument
     * modulators; and the sample and header at the clamped sampleID.
     */
    method CreateVoice(key: int, presetZone: PresetZone, instrumentZone: InstrumentZone) returns (v: V.Voice)
      requires G.Shaped(presetZone.generators) && G.Shaped(instrumentZone.generators)
      ensures fresh(v) && v.Valid() && Describes(v, VoiceOf(parsed, key, presetZone, instrumentZone))
    {
      var instrumentGenerators := DefaultZone();
      instrumentGenerators := instrumentGenerators + instrumentZone.generators;
      instrumentGenerators := OverridePresetValues(instrumentGenerators, presetZone.generators);
      VoiceGeneratorsRule(presetZone.generators, instrumentZone.generators);
      var modulators := D.DefaultModulators + DecodeAll(presetZone.modulators) + DecodeAll(instrumentZone.modulators);
      var sampleID := SampleIndex(instrumentGenerators);
      var sample := At(parsed.samples, sampleID);
      var sampleHeader := At(parsed.sampleHeaders, sampleID);
      v := new V.Voice(key, instrumentGenerators, modulators, sample, sampleHeader);
    }

    /** `getVoice`: the first preset with the bank and program, then its lookup. */
    method GetVoice(bankNumber: int, instrumentNumber: int, key: int, velocity: int) returns (r: Result<Option<V.Voice>, JsError>)
      requires GeneratorsWellTyped(parsed)
      ensures Yields(r, VoiceLookup(parsed, bankNumber, instrumentNumber, key, velocity))
      ensures r.Ok? && r.value.Some? ==> fresh(r.value.value) && r.value.value.Valid()
    {
      var presetHeaderIndex := FirstPreset(parsed.presetHeaders, bankNumber, instrumentNumber);
      if presetHeaderIndex < 0 {
        return Ok(None);
      }
      r := FindInstrument(presetHeaderIndex, key, velocity);
    }

    /** `getPresetNames`: bank number to preset number to name. */
    method GetPresetNames() returns (bank: map<int, map<int, string>>)
      ensures bank == PresetNames(parsed.presetHeaders)
    {
      bank := map[];
      var presetHeaders := parsed.presetHeaders;
      for i := 0 to |presetHeaders|
        invariant bank == PresetNames(presetHeaders[..i])
      {
        var preset := presetHeaders[i];
        if preset.bank !in bank {
          bank := bank[preset.bank := map[]];
        }
        bank := bank[preset.bank := bank[preset.bank][preset.preset := preset.presetName]];
        assert presetHeaders[..i + 1][..i] == presetHeaders[..i];
      }
      assert presetHeaders[..|presetHeaders|] == presetHeaders;
    }
  }
}
