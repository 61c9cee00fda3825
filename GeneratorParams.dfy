/**
 * The older generator resolver (src/GeneratorParams.ts), kept beside
 * src/Generator.ts: its own list of names a preset zone may not set, in a different
 * order, and its own copy of the default table.  Its two functions run the same
 * loops as the newer resolver's, so they are modelled by running those loops with
 * this file's exclusions and table; the lemmas show that the exclusions and the
 * table are the same, so both resolvers build the same dictionaries.
 */
module GeneratorParams {
  import opened Constants
  import S = Structs
  import G = Generator

  /** `presetExcludedNames`: keynum and velocity sit between the address names and sampleModes. */
  const PresetExcludedNames: seq<GenKey> := [
    StartAddrsOffset, EndAddrsOffset, StartloopAddrsOffset, EndloopAddrsOffset,
    StartAddrsCoarseOffset, EndAddrsCoarseOffset, StartloopAddrsCoarseOffset,
    EndloopAddrsCoarseOffset, Keynum, Velocity, SampleModes, ExclusiveClass, OverridingRootKey
  ]

  /** `presetExcludedIndices`. */
  const PresetExcludedIndices: set<int> := set k | k in PresetExcludedNames :: KeyCode(k)

  /** The same thirteen names as the newer resolver's, so the same codes. */
  lemma SameExclusions()
    ensures |PresetExcludedNames| == |G.PresetExcludedKeys| == 13
    ensures forall k :: k in PresetExcludedNames <==> k in G.PresetExcludedKeys
    ensures PresetExcludedIndices == G.PresetExcludedIndices
  {
    assert forall k :: k in PresetExcludedNames <==> k in G.PresetExcludedKeys;
  }

  /** `int16min` and `int16max`. */
  const Int16Min := -32768
  const Int16Max := 32767

  /** `defaultInstrumentZone`. */
  function DefaultValue(k: GenKey): G.GenValue {
    match k
    case StartAddrsOffset => G.Bounded(S.BoundedValue(0, 0, Int16Max))
    case EndAddrsOffset => G.Bounded(S.BoundedValue(Int16Min, 0, 0))
    case StartloopAddrsOffset => G.Bounded(S.BoundedValue(Int16Min, 0, Int16Max))
    case EndloopAddrsOffset => G.Bounded(S.BoundedValue(Int16Min, 0, Int16Max))
    case StartAddrsCoarseOffset => G.Bounded(S.BoundedValue(0, 0, Int16Max))
    case ModLfoToPitch => G.Bounded(S.BoundedValue(-12000, 0, 12000))
    case VibLfoToPitch => G.Bounded(S.BoundedValue(-12000, 0, 12000))
    case ModEnvToPitch => G.Bounded(S.BoundedValue(-12000, 0, 12000))
    case InitialFilterFc => G.Bounded(S.BoundedValue(1500, 13500, 13500))
    case InitialFilterQ => G.Bounded(S.BoundedValue(0, 0, 960))
    case ModLfoToFilterFc => G.Bounded(S.BoundedValue(-12000, 0, 12000))
    case ModEnvToFilterFc => G.Bounded(S.BoundedValue(-12000, 0, 12000))
    case EndAddrsCoarseOffset => G.Bounded(S.BoundedValue(Int16Min, 0, 0))
    case ModLfoToVolume => G.Bounded(S.BoundedValue(-960, 0, 960))
    case ChorusEffectsSend => G.Bounded(S.BoundedValue(0, 0, 1000))
    case ReverbEffectsSend => G.Bounded(S.BoundedValue(0, 0, 1000))
    case Pan => G.Bounded(S.BoundedValue(-500, 0, 500))
    case DelayModLFO => G.Bounded(S.BoundedValue(-12000, -12000, 5000))
    case FreqModLFO => G.Bounded(S.BoundedValue(-16000, 0, 4500))
    case DelayVibLFO => G.Bounded(S.BoundedValue(-12000, -12000, 5000))
    case FreqVibLFO => G.Bounded(S.BoundedValue(-16000, 0, 4500))
    case DelayModEnv => G.Bounded(S.BoundedValue(-12000, -12000, 5000))
    case AttackModEnv => G.Bounded(S.BoundedValue(-12000, -12000, 8000))
    case HoldModEnv => G.Bounded(S.BoundedValue(-12000, -12000, 5000))
    case DecayModEnv => G.Bounded(S.BoundedValue(-12000, -12000, 8000))
    case SustainModEnv => G.Bounded(S.BoundedValue(0, 0, 1000))
    case ReleaseModEnv => G.Bounded(S.BoundedValue(-12000, -12000, 8000))
    case KeynumToModEnvHold => G.Bounded(S.BoundedValue(-1200, 0, 1200))
    case KeynumToModEnvDecay => G.Bounded(S.BoundedValue(-1200, 0, 1200))
    case DelayVolEnv => G.Bounded(S.BoundedValue(-12000, -12000, 5000))
    case AttackVolEnv => G.Bounded(S.BoundedValue(-12000, -12000, 8000))
    case HoldVolEnv => G.Bounded(S.BoundedValue(-12000, -12000, 5000))
    case DecayVolEnv => G.Bounded(S.BoundedValue(-12000, -12000, 8000))
    case SustainVolEnv => G.Bounded(S.BoundedValue(0, 0, 1440))
    case ReleaseVolEnv => G.Bounded(S.BoundedValue(-12000, -12000, 8000))
    case KeynumToVolEnvHold => G.Bounded(S.BoundedValue(-1200, 0, 1200))
    case KeynumToVolEnvDecay => G.Bounded(S.BoundedValue(-1200, 0, 1200))
    case Instrument => G.Bounded(S.BoundedValue(-1, -1, Int16Max))
    case KeyRange => G.Ranged(S.RangeValue(0, 127))
    case VelRange => G.Ranged(S.RangeValue(0, 127))
    case StartloopAddrsCoarseOffset => G.Bounded(S.BoundedValue(Int16Min, 0, Int16Max))
    case Keynum => G.Bounded(S.BoundedValue(-1, -1, 127))
    case Velocity => G.Bounded(S.BoundedValue(-1, -1, 127))
    case InitialAttenuation => G.Bounded(S.BoundedValue(0, 0, 1440))
    case EndloopAddrsCoarseOffset => G.Bounded(S.BoundedValue(Int16Min, 0, Int16Max))
    case CoarseTune => G.Bounded(S.BoundedValue(-120, 0, 120))
    case FineTune => G.Bounded(S.BoundedValue(-99, 0, 99))
    case SampleID => G.Bounded(S.BoundedValue(-1, -1, Int16Max))
    case SampleModes => G.Bounded(S.BoundedValue(0, 0, 3))
    case ScaleTuning => G.Bounded(S.BoundedValue(0, 100, 100))
    case ExclusiveClass => G.Bounded(S.BoundedValue(0, 0, 127))
    case OverridingRootKey => G.Bounded(S.BoundedValue(-1, -1, 127))
  }


  /** The table agrees with the newer resolver's entry for entry. */
  lemma SameDefaults(k: GenKey)
    ensures DefaultValue(k) == G.DefaultValue(k)
  {
    match k {
      case StartAddrsOffset =>
      case EndAddrsOffset =>
      case StartloopAddrsOffset =>
      case EndloopAddrsOffset =>
      case StartAddrsCoarseOffset =>
      case ModLfoToPitch =>
      case VibLfoToPitch =>
      case ModEnvToPitch =>
      case InitialFilterFc =>
      case InitialFilterQ =>
      case ModLfoToFilterFc =>
      case ModEnvToFilterFc =>
      case EndAddrsCoarseOffset =>
      case ModLfoToVolume =>
      case ChorusEffectsSend =>
      case ReverbEffectsSend =>
      case Pan =>
      case DelayModLFO =>
      case FreqModLFO =>
      case DelayVibLFO =>
      case FreqVibLFO =>
      case DelayModEnv =>
      case AttackModEnv =>
      case HoldModEnv =>
      case DecayModEnv =>
      case SustainModEnv =>
      case ReleaseModEnv =>
      case KeynumToModEnvHold =>
      case KeynumToModEnvDecay =>
      case DelayVolEnv =>
      case AttackVolEnv =>
      case HoldVolEnv =>
      case DecayVolEnv =>
      case SustainVolEnv =>
      case ReleaseVolEnv =>
      case KeynumToVolEnvHold =>
      case KeynumToVolEnvDecay =>
      case Instrument =>
      case KeyRange =>
      case VelRange =>
      case StartloopAddrsCoarseOffset =>
      case Keynum =>
      case Velocity =>
      case InitialAttenuation =>
      case EndloopAddrsCoarseOffset =>
      case CoarseTune =>
      case FineTune =>
      case SampleID =>
      case SampleModes =>
      case ScaleTuning =>
      case ExclusiveClass =>
      case OverridingRootKey =>
    }
  }

  /** So it is well formed too: every bounded default lies inside its bounds. */
  lemma DefaultsInBounds()
    ensures G.WellFormedDefaults(DefaultValue)
  {
    G.DefaultsInBounds();
    forall k ensures DefaultValue(k) == G.DefaultValue(k)
    {
      SameDefaults(k);
    }
  }

  /** Entries built with this file's exclusions and table are the newer resolver's. */
  lemma SameEntries(gs: seq<S.GeneratorList>, excluded: set<int>)
    requires G.AllWellTyped(gs)
    ensures G.Defined(G.EntryOf(excluded, DefaultValue), gs) && G.Defined(G.EntryOf(excluded, G.DefaultValue), gs)
    ensures G.Fold(gs, G.EntryOf(excluded, DefaultValue)) == G.Fold(gs, G.EntryOf(excluded, G.DefaultValue))
  {
    forall k ensures DefaultValue(k) == G.DefaultValue(k)
    {
      SameDefaults(k);
    }
    G.FoldCongruent(gs, G.EntryOf(excluded, DefaultValue), G.EntryOf(excluded, G.DefaultValue));
  }

  /** `createPresetGeneratorObject`: the same dictionary as the newer resolver's. */
  method CreatePresetGeneratorObject(generators: seq<S.GeneratorList>) returns (result: G.Zone)
    requires G.AllWellTyped(generators)
    ensures result == G.PresetObject(generators)
    ensures forall k | k in result :: k !in PresetExcludedNames
  {
    result := G.FillZone(generators, PresetExcludedIndices, DefaultValue);
    SameExclusions();
    SameEntries(generators, PresetExcludedIndices);
    G.PresetNeverExcluded(generators);
  }

  /** `createInstrumentGeneratorObject`: the same dictionary as the newer resolver's. */
  method CreateInstrumentGeneratorObject(generators: seq<S.GeneratorList>) returns (result: G.Zone)
    requires G.AllWellTyped(generators)
    ensures result == G.InstrumentObject(generators)
  {
    result := G.FillZone(generators, {}, DefaultValue);
    SameEntries(generators, {});
    result := G.ApplyFixedGenerators(result);
  }
}
