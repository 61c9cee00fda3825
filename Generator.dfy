/**
 * The generator resolver (src/Generator.ts): one zone's generator records become a
 * dictionary from generator name to a value, a (lo, hi) range for keyRange and
 * velRange and a bounded value carrying the default's bounds for every other name.
 * Preset zones drop the sample and substitution names; instrument zones turn a
 * non-negative keynum or velocity into a one-point key or velocity range.
 *
 * The dictionary is a `map`; a JavaScript object whose property is rewritten keeps
 * its first position, and no caller depends on that order.
 */
module Generator {
  import opened Wrappers
  import opened Constants
  import S = Structs

  /** A zone entry: a `BoundedValue`, or a `RangeValue` for the range names. */
  datatype GenValue = Bounded(b: S.BoundedValue) | Ranged(r: S.RangeValue) {
    /** `min` of a bounded value (the low end of a range). */
    function Min(): int {
      if Bounded? then b.min else r.lo
    }

    /** `max` of a bounded value (the high end of a range). */
    function Max(): int {
      if Bounded? then b.max else r.hi
    }
  }

  /** A generator dictionary of one zone. */
  type Zone = map<GenKey, GenValue>

  /** A default table, indexed by name. */
  type Defaults = GenKey -> GenValue

  const IndexGeneratorKeys: seq<GenKey> := [Instrument, SampleID]
  const RangeGeneratorKeys: seq<GenKey> := [KeyRange, VelRange]
  const SubstitutionGeneratorKeys: seq<GenKey> := [Keynum, Velocity]
  const SampleGeneratorKeys: seq<GenKey> := [
    StartAddrsOffset, EndAddrsOffset, StartloopAddrsOffset, EndloopAddrsOffset,
    StartAddrsCoarseOffset, EndAddrsCoarseOffset, StartloopAddrsCoarseOffset,
    EndloopAddrsCoarseOffset, SampleModes, ExclusiveClass, OverridingRootKey
  ]

  /** The names a preset zone may not set: the sample group, then the substitution group. */
  const PresetExcludedKeys: seq<GenKey> := SampleGeneratorKeys + SubstitutionGeneratorKeys

  /** `presetExcludedIndices`: the enumerator codes of the excluded names. */
  const PresetExcludedIndices: set<int> := set k | k in PresetExcludedKeys :: KeyCode(k)

  /** `isRangeGenerator`: keyRange or velRange. */
  predicate IsRangeGenerator(k: GenKey) {
    k.KeyRange? || k.VelRange?
  }

  /** The range names are exactly those of `RangeGeneratorKeys`, the names whose amount decodes as a range. */
  lemma RangeGenerators(g: S.GeneratorList)
    ensures forall k :: IsRangeGenerator(k) <==> k in RangeGeneratorKeys
    ensures S.IsRangeCode(g.code) <==> g.Type().Some? && IsRangeGenerator(g.Type().value)
  {
  }

  /** Membership of a code in `presetExcludedIndices` is membership of its name in the excluded names. */
  lemma ExcludedIndices(g: S.GeneratorList)
    requires g.Type().Some?
    ensures g.code in PresetExcludedIndices <==> g.Type().value in PresetExcludedKeys
  {
    CodeRoundTrip(g.code);
    if g.code in PresetExcludedIndices {
      var k :| k in PresetExcludedKeys && KeyCode(k) == g.code;
      KeyCodeInjective(k, g.Type().value);
    }
  }

  /** The names that are neither sample, substitution, index nor range names. */
  predicate IsValueGenerator(k: GenKey) {
    !(k.StartAddrsOffset? || k.EndAddrsOffset? || k.StartloopAddrsOffset? || k.EndloopAddrsOffset? ||
      k.StartAddrsCoarseOffset? || k.EndAddrsCoarseOffset? || k.StartloopAddrsCoarseOffset? ||
      k.EndloopAddrsCoarseOffset? || k.SampleModes? || k.ExclusiveClass? || k.OverridingRootKey? ||
      k.Keynum? || k.Velocity? || k.Instrument? || k.SampleID? || k.KeyRange? || k.VelRange?)
  }

  /** The value names are the names outside the four groups `NonValueGeneratorKey` unites. */
  lemma ValueGenerators(k: GenKey)
    ensures IsValueGenerator(k) <==>
      k !in SampleGeneratorKeys && k !in SubstitutionGeneratorKeys && k !in IndexGeneratorKeys && k !in RangeGeneratorKeys
  {
    SampleKeys(k);
  }

  /** Membership in the sample group, name by name. */
  lemma SampleKeys(k: GenKey)
    ensures k in SampleGeneratorKeys <==>
      k.StartAddrsOffset? || k.EndAddrsOffset? || k.StartloopAddrsOffset? || k.EndloopAddrsOffset? ||
      k.StartAddrsCoarseOffset? || k.EndAddrsCoarseOffset? || k.StartloopAddrsCoarseOffset? ||
      k.EndloopAddrsCoarseOffset? || k.SampleModes? || k.ExclusiveClass? || k.OverridingRootKey?
  {
    if k in SampleGeneratorKeys {
      var i :| 0 <= i < |SampleGeneratorKeys| && SampleGeneratorKeys[i] == k;
      assert i < 11;
    }
  }

  /** The names of the codes from `code` up, in code order. */
  function NamesFrom(code: nat): seq<GenKey>
    decreases 59 - code
  {
    if code >= 59 then [] else Prepend(KeyOfCode(code), NamesFrom(code + 1))
  }

  /** `rest` with the name `t`, if there is one, in front. */
  function Prepend(t: Option<GenKey>, rest: seq<GenKey>): (r: seq<GenKey>)
    ensures forall k | k in rest :: k in r
    ensures t.Some? ==> t.value in r
  {
    if t.Some? then [t.value] + rest else rest
  }

  /** Every name, in enumerator order. */
  const AllKeys: seq<GenKey> := NamesFrom(0)

  /** The elements of `ks` satisfying `p`, in order. */
  function Filter(ks: seq<GenKey>, p: GenKey -> bool): (r: seq<GenKey>)
    ensures forall k :: k in r <==> k in ks && p(k)
  {
    if |ks| == 0 then []
    else
      var rest := Filter(ks[1..], p);
      assert forall k :: k in ks <==> k == ks[0] || k in ks[1..];
      if p(ks[0]) then [ks[0]] + rest else rest
  }

  /** `ValueGeneratorKeys`: the value names, in enumerator order. */
  const ValueGeneratorKeys: seq<GenKey> := Filter(AllKeys, IsValueGenerator)

  /** The name of a code from `code` up is among the names from `code` up. */
  lemma {:induction false} InNamesFrom(code: nat, c: int)
    requires code <= c < 59 && KeyOfCode(c).Some?
    ensures KeyOfCode(c).value in NamesFrom(code)
    decreases 59 - code
  {
    if code < c {
      InNamesFrom(code + 1, c);
    }
  }

  /** Every name occurs in `AllKeys`, and the value-name sequence holds exactly the value names. */
  lemma ValueGeneratorKeysExact()
    ensures forall k :: k in AllKeys
    ensures forall k :: k in ValueGeneratorKeys <==> IsValueGenerator(k)
  {
    forall k ensures k in AllKeys
    {
      InNamesFrom(0, KeyCode(k));
    }
  }

  const Int16Min := -32768
  const Int16Max := 32767

  /** `defaultInstrumentZone`. */
  function DefaultValue(k: GenKey): GenValue {
    match k
    case StartAddrsOffset => Bounded(S.BoundedValue(0, 0, Int16Max))
    case EndAddrsOffset => Bounded(S.BoundedValue(Int16Min, 0, 0))
    case StartloopAddrsOffset => Bounded(S.BoundedValue(Int16Min, 0, Int16Max))
    case EndloopAddrsOffset => Bounded(S.BoundedValue(Int16Min, 0, Int16Max))
    case StartAddrsCoarseOffset => Bounded(S.BoundedValue(0, 0, Int16Max))
    case ModLfoToPitch => Bounded(S.BoundedValue(-12000, 0, 12000))
    case VibLfoToPitch => Bounded(S.BoundedValue(-12000, 0, 12000))
    case ModEnvToPitch => Bounded(S.BoundedValue(-12000, 0, 12000))
    case InitialFilterFc => Bounded(S.BoundedValue(1500, 13500, 13500))
    case InitialFilterQ => Bounded(S.BoundedValue(0, 0, 960))
    case ModLfoToFilterFc => Bounded(S.BoundedValue(-12000, 0, 12000))
    case ModEnvToFilterFc => Bounded(S.BoundedValue(-12000, 0, 12000))
    case EndAddrsCoarseOffset => Bounded(S.BoundedValue(Int16Min, 0, 0))
    case ModLfoToVolume => Bounded(S.BoundedValue(-960, 0, 960))
    case ChorusEffectsSend => Bounded(S.BoundedValue(0, 0, 1000))
    case ReverbEffectsSend => Bounded(S.BoundedValue(0, 0, 1000))
    case Pan => Bounded(S.BoundedValue(-500, 0, 500))
    case DelayModLFO => Bounded(S.BoundedValue(-12000, -12000, 5000))
    case FreqModLFO => Bounded(S.BoundedValue(-16000, 0, 4500))
    case DelayVibLFO => Bounded(S.BoundedValue(-12000, -12000, 5000))
    case FreqVibLFO => Bounded(S.BoundedValue(-16000, 0, 4500))
    case DelayModEnv => Bounded(S.BoundedValue(-12000, -12000, 5000))
    case AttackModEnv => Bounded(S.BoundedValue(-12000, -12000, 8000))
    case HoldModEnv => Bounded(S.BoundedValue(-12000, -12000, 5000))
    case DecayModEnv => Bounded(S.BoundedValue(-12000, -12000, 8000))
    case SustainModEnv => Bounded(S.BoundedValue(0, 0, 1000))
    case ReleaseModEnv => Bounded(S.BoundedValue(-12000, -12000, 8000))
    case KeynumToModEnvHold => Bounded(S.BoundedValue(-1200, 0, 1200))
    case KeynumToModEnvDecay => Bounded(S.BoundedValue(-1200, 0, 1200))
    case DelayVolEnv => Bounded(S.BoundedValue(-12000, -12000, 5000))
    case AttackVolEnv => Bounded(S.BoundedValue(-12000, -12000, 8000))
    case HoldVolEnv => Bounded(S.BoundedValue(-12000, -12000, 5000))
    case DecayVolEnv => Bounded(S.BoundedValue(-12000, -12000, 8000))
    case SustainVolEnv => Bounded(S.BoundedValue(0, 0, 1440))
    case ReleaseVolEnv => Bounded(S.BoundedValue(-12000, -12000, 8000))
    case KeynumToVolEnvHold => Bounded(S.BoundedValue(-1200, 0, 1200))
    case KeynumToVolEnvDecay => Bounded(S.BoundedValue(-1200, 0, 1200))
    case Instrument => Bounded(S.BoundedValue(-1, -1, Int16Max))
    case KeyRange => Ranged(S.RangeValue(0, 127))
    case VelRange => Ranged(S.RangeValue(0, 127))
    case StartloopAddrsCoarseOffset => Bounded(S.BoundedValue(Int16Min, 0, Int16Max))
    case Keynum => Bounded(S.BoundedValue(-1, -1, 127))
    case Velocity => Bounded(S.BoundedValue(-1, -1, 127))
    case InitialAttenuation => Bounded(S.BoundedValue(0, 0, 1440))
    case EndloopAddrsCoarseOffset => Bounded(S.BoundedValue(Int16Min, 0, Int16Max))
    case CoarseTune => Bounded(S.BoundedValue(-120, 0, 120))
    case FineTune => Bounded(S.BoundedValue(-99, 0, 99))
    case SampleID => Bounded(S.BoundedValue(-1, -1, Int16Max))
    case SampleModes => Bounded(S.BoundedValue(0, 0, 3))
    case ScaleTuning => Bounded(S.BoundedValue(0, 100, 100))
    case ExclusiveClass => Bounded(S.BoundedValue(0, 0, 127))
    case OverridingRootKey => Bounded(S.BoundedValue(-1, -1, 127))
  }

  /** The defaults a table must have: a range exactly at the range names, and every bounded default inside its bounds. */
  ghost predicate WellFormedDefaults(defaults: Defaults) {
    forall k :: (defaults(k).Ranged? <==> IsRangeGenerator(k)) &&
      (defaults(k).Bounded? ==> defaults(k).b.min <= defaults(k).b.value <= defaults(k).b.max)
  }

  /** The default sampleID is -1, inside its own bounds. */
  lemma DefaultSampleIndex()
    ensures DefaultValue(SampleID) == Bounded(S.BoundedValue(-1, -1, Int16Max))
  {
  }

  /** The bounds of the three tuning generators. */
  lemma TuningBounds()
    ensures DefaultValue(CoarseTune).Min() == -120 && DefaultValue(CoarseTune).Max() == 120
    ensures DefaultValue(FineTune).Min() == -99 && DefaultValue(FineTune).Max() == 99
    ensures DefaultValue(ScaleTuning).Min() == 0 && DefaultValue(ScaleTuning).Max() == 100
  {
  }

  /**
   * The default table is well formed, so clamping a default gives the default, and
   * both ranges default to `[0, 127]`.
   */
  lemma DefaultsInBounds()
    ensures WellFormedDefaults(DefaultValue)
    ensures forall k | DefaultValue(k).Bounded? :: DefaultValue(k).b.Clamp() == DefaultValue(k).b.value
    ensures DefaultValue(KeyRange) == Ranged(S.RangeValue(0, 127)) && DefaultValue(VelRange) == Ranged(S.RangeValue(0, 127))
  {
    forall k ensures (DefaultValue(k).Ranged? <==> IsRangeGenerator(k)) &&
      (DefaultValue(k).Bounded? ==> DefaultValue(k).b.min <= DefaultValue(k).b.value <= DefaultValue(k).b.max)
    {
      DefaultInBounds(k);
    }
  }

  lemma DefaultInBounds(k: GenKey)
    ensures DefaultValue(k).Ranged? <==> IsRangeGenerator(k)
    ensures DefaultValue(k).Bounded? ==> DefaultValue(k).b.min <= DefaultValue(k).b.value <= DefaultValue(k).b.max
  {
  }

  /** Every record of a generator list has the shape decoding gives it. */
  predicate AllWellTyped(gs: seq<S.GeneratorList>) {
    forall i | 0 <= i < |gs| :: S.WellTyped(gs[i])
  }

  // ---------------------------------------------------------------- the fold

  /** Whether `entry` lets record `r` set key `k`. */
  ghost predicate Sets<R, K, V>(entry: R --> Option<(K, V)>, r: R, k: K)
    requires entry.requires(r)
  {
    entry(r).Some? && entry(r).value.0 == k
  }

  ghost predicate Defined<R, K, V>(entry: R --> Option<(K, V)>, rs: seq<R>) {
    forall i | 0 <= i < |rs| :: entry.requires(rs[i])
  }

  /**
   * A loop that fills a dictionary: each record sets at most one entry, and a
   * later record overwrites an earlier one.
   */
  function Fold<R, K, V>(rs: seq<R>, entry: R --> Option<(K, V)>): map<K, V>
    requires Defined(entry, rs)
  {
    if |rs| == 0 then map[]
    else
      var prev := Fold(rs[..|rs| - 1], entry);
      var e := entry(rs[|rs| - 1]);
      if e.Some? then prev[e.value.0 := e.value.1] else prev
  }

  /** No record after position `i` sets `k`. */
  ghost predicate LastSetting<R, K, V>(entry: R --> Option<(K, V)>, rs: seq<R>, i: int, k: K)
    requires Defined(entry, rs)
  {
    forall j | 0 <= j < |rs| && i < j :: !Sets(entry, rs[j], k)
  }

  /**
   * The dictionary holds exactly the keys some record sets, and for each the value
   * of the last record setting it: the last entry wins.
   */
  lemma {:induction false} FoldLastWins<R, K, V>(rs: seq<R>, entry: R --> Option<(K, V)>)
    requires Defined(entry, rs)
    ensures forall k :: k in Fold(rs, entry) <==> exists i | 0 <= i < |rs| :: Sets(entry, rs[i], k)
    ensures forall i, k | 0 <= i < |rs| && Sets(entry, rs[i], k) && LastSetting(entry, rs, i, k) ::
      k in Fold(rs, entry) && Fold(rs, entry)[k] == entry(rs[i]).value.1
  {
    if |rs| > 0 {
      var n := |rs| - 1;
      var pre := rs[..n];
      FoldLastWins(pre, entry);
      assert forall i | 0 <= i < n :: pre[i] == rs[i];
      forall k ensures k in Fold(rs, entry) <==> exists i | 0 <= i < |rs| :: Sets(entry, rs[i], k)
      {
        if !Sets(entry, rs[n], k) && exists i | 0 <= i < |rs| :: Sets(entry, rs[i], k) {
          var i :| 0 <= i < |rs| && Sets(entry, rs[i], k);
          assert Sets(entry, pre[i], k);
        }
      }
      forall i, k | 0 <= i < |rs| && Sets(entry, rs[i], k) && LastSetting(entry, rs, i, k)
        ensures k in Fold(rs, entry) && Fold(rs, entry)[k] == entry(rs[i]).value.1
      {
        if i < n {
          assert !Sets(entry, rs[n], k);
          assert Sets(entry, pre[i], k) && LastSetting(entry, pre, i, k);
        }
      }
    }
  }

  /** A property every entry a record sets has holds of every entry of the dictionary. */
  lemma {:induction false} FoldInvariant<R, K, V>(rs: seq<R>, entry: R --> Option<(K, V)>, p: (K, V) -> bool)
    requires Defined(entry, rs)
    requires forall i | 0 <= i < |rs| :: entry(rs[i]).Some? ==> p(entry(rs[i]).value.0, entry(rs[i]).value.1)
    ensures forall k | k in Fold(rs, entry) :: p(k, Fold(rs, entry)[k])
  {
    if |rs| > 0 {
      var n := |rs| - 1;
      var pre := rs[..n];
      assert forall i | 0 <= i < n :: pre[i] == rs[i];
      FoldInvariant(pre, entry, p);
    }
  }

  /** Two entry functions that agree on every record fill the same dictionary. */
  lemma {:induction false} FoldCongruent<R, K, V>(rs: seq<R>, e1: R --> Option<(K, V)>, e2: R --> Option<(K, V)>)
    requires Defined(e1, rs) && Defined(e2, rs)
    requires forall i | 0 <= i < |rs| :: e1(rs[i]) == e2(rs[i])
    ensures Fold(rs, e1) == Fold(rs, e2)
  {
    if |rs| > 0 {
      var pre := rs[..|rs| - 1];
      assert forall i | 0 <= i < |pre| :: pre[i] == rs[i];
      FoldCongruent(pre, e1, e2);
    }
  }

  // ---------------------------------------------------------------- generator entries

  /**
   * What one record sets, if anything: nothing for a code without a name or an
   * excluded code; its range verbatim for a range name; otherwise its raw number
   * between the default's bounds, not clamped.
   */
  function Entry(g: S.GeneratorList, excluded: set<int>, defaults: Defaults): (e: Option<(GenKey, GenValue)>)
    requires S.WellTyped(g)
    ensures e.Some? <==> g.Type().Some? && g.code !in excluded
    ensures e.Some? ==> e.value.0 == g.Type().value && (e.value.1.Ranged? <==> IsRangeGenerator(e.value.0))
    ensures e.Some? && e.value.1.Ranged? ==> g.value == S.RangeAmount(e.value.1.r)
    ensures e.Some? && e.value.1.Bounded? ==>
      g.value == S.IntAmount(e.value.1.b.value) &&
      e.value.1.b.min == defaults(e.value.0).Min() && e.value.1.b.max == defaults(e.value.0).Max()
  {
    var t := g.Type();
    if t.None? || g.code in excluded then None
    else if IsRangeGenerator(t.value) then Some((t.value, Ranged(g.value.range)))
    else Some((t.value, Bounded(S.BoundedValue(defaults(t.value).Min(), g.value.amount, defaults(t.value).Max()))))
  }

  /** `Entry` with its table and exclusions fixed, as the function the fold applies. */
  function EntryOf(excluded: set<int>, defaults: Defaults): S.GeneratorList --> Option<(GenKey, GenValue)> {
    g requires S.WellTyped(g) => Entry(g, excluded, defaults)
  }

  lemma FoldSnoc<R, K, V>(rs: seq<R>, entry: R --> Option<(K, V)>)
    requires rs != [] && Defined(entry, rs)
    ensures Defined(entry, rs[..|rs| - 1])
    ensures var e := entry(rs[|rs| - 1]);
      Fold(rs, entry) == if e.Some? then Fold(rs[..|rs| - 1], entry)[e.value.0 := e.value.1] else Fold(rs[..|rs| - 1], entry)
  {
  }

  /** The first loop of both `create*GeneratorObject` functions. */
  method FillZone(generators: seq<S.GeneratorList>, excluded: set<int>, defaults: Defaults) returns (result: Zone)
    requires AllWellTyped(generators)
    ensures Defined(EntryOf(excluded, defaults), generators)
    ensures result == Fold(generators, EntryOf(excluded, defaults))
  {
    ghost var entry := EntryOf(excluded, defaults);
    result := map[];
    for i := 0 to |generators|
      invariant result == Fold(generators[..i], entry)
    {
      var gen := generators[i];
      var t := gen.Type();
      FoldSnoc(generators[..i + 1], entry);
      assert generators[..i + 1][..i] == generators[..i];
      if t.Some? && gen.code !in excluded {
        if IsRangeGenerator(t.value) {
          result := result[t.value := Ranged(gen.value.range)];
        } else {
          var defaultValue := defaults(t.value);
          result := result[t.value := Bounded(S.BoundedValue(defaultValue.Min(), gen.value.amount, defaultValue.Max()))];
        }
      }
    }
    assert generators[..|generators|] == generators;
  }

  /** The dictionary of a preset zone. */
  function PresetObject(gs: seq<S.GeneratorList>): Zone
    requires AllWellTyped(gs)
  {
    Fold(gs, EntryOf(PresetExcludedIndices, DefaultValue))
  }

  /** Not a name a preset zone may hold. */
  predicate Allowed(k: GenKey, v: GenValue) {
    k !in PresetExcludedKeys
  }

  /** A preset zone never holds a sample, address, sampleModes, exclusiveClass, overridingRootKey, keynum or velocity entry. */
  lemma PresetNeverExcluded(gs: seq<S.GeneratorList>)
    requires AllWellTyped(gs)
    ensures forall k | k in PresetObject(gs) :: k !in PresetExcludedKeys
  {
    var entry := EntryOf(PresetExcludedIndices, DefaultValue);
    forall i | 0 <= i < |gs| && entry(gs[i]).Some?
      ensures Allowed(entry(gs[i]).value.0, entry(gs[i]).value.1)
    {
      ExcludedIndices(gs[i]);
    }
    FoldInvariant(gs, entry, Allowed);
  }

  /** `createPresetGeneratorObject`. */
  method CreatePresetGeneratorObject(generators: seq<S.GeneratorList>) returns (result: Zone)
    requires AllWellTyped(generators)
    ensures result == PresetObject(generators)
    ensures forall k | k in result :: k !in PresetExcludedKeys
  {
    result := FillZone(generators, PresetExcludedIndices, DefaultValue);
    PresetNeverExcluded(generators);
  }

  /** `fixedGenerators`: the substitution name and the range it fixes. */
  const FixedGenerators: seq<(GenKey, GenKey)> := [(Keynum, KeyRange), (Velocity, VelRange)]

  /** One step of the second loop: a bounded `src` with a value of at least 0 fixes `dst` to `[v, v]`. */
  function Fix(z: Zone, src: GenKey, dst: GenKey): Zone {
    if src in z && z[src].Bounded? && 0 <= z[src].b.value then
      z[dst := Ranged(S.RangeValue(z[src].b.value, z[src].b.value))]
    else z
  }

  /** The second loop over a prefix of the fixed pairs. */
  function FixAll(z: Zone, fixed: seq<(GenKey, GenKey)>): Zone {
    if |fixed| == 0 then z
    else
      var p := fixed[|fixed| - 1];
      Fix(FixAll(z, fixed[..|fixed| - 1]), p.0, p.1)
  }

  /** The dictionary of an instrument zone: nothing is excluded, then the substitutions apply. */
  function InstrumentObject(gs: seq<S.GeneratorList>): Zone
    requires AllWellTyped(gs)
  {
    FixAll(Fold(gs, EntryOf({}, DefaultValue)), FixedGenerators)
  }

  /**
   * The second loop: a keynum of at least 0 makes keyRange `[keynum, keynum]`,
   * whatever range was there; otherwise keyRange is left as it was.  The same holds
   * for velocity and velRange, and no other entry changes.
   */
  lemma FixedGeneratorsRule(z: Zone)
    ensures var r := FixAll(z, FixedGenerators);
      (forall p | p in FixedGenerators ::
        if p.0 in z && z[p.0].Bounded? && 0 <= z[p.0].b.value then
          p.1 in r && r[p.1] == Ranged(S.RangeValue(z[p.0].b.value, z[p.0].b.value))
        else
          (p.1 in r <==> p.1 in z) && (p.1 in z ==> r[p.1] == z[p.1])) &&
      (forall k | k != KeyRange && k != VelRange :: (k in r <==> k in z) && (k in z ==> r[k] == z[k]))
  {
    var z1 := Fix(z, Keynum, KeyRange);
    assert FixedGenerators[..1] == [(Keynum, KeyRange)];
    assert FixedGenerators[..1][..0] == [];
    assert FixAll(z, FixedGenerators[..1]) == z1;
    assert FixAll(z, FixedGenerators) == Fix(z1, Velocity, VelRange);
    assert Velocity in z1 <==> Velocity in z;
    assert Velocity in z ==> z1[Velocity] == z[Velocity];
  }

  /** A range exactly at the range names. */
  predicate RangeAtRangeNames(k: GenKey, v: GenValue) {
    v.Ranged? <==> IsRangeGenerator(k)
  }

  /**
   * In an instrument zone keynum and velocity, when present, are bounded values, so
   * the rule above always applies to them.
   */
  lemma InstrumentSubstitution(gs: seq<S.GeneratorList>)
    requires AllWellTyped(gs)
    ensures var z := Fold(gs, EntryOf({}, DefaultValue));
      (Keynum in z ==> z[Keynum].Bounded?) && (Velocity in z ==> z[Velocity].Bounded?) &&
      InstrumentObject(gs) == FixAll(z, FixedGenerators)
  {
    FoldInvariant(gs, EntryOf({}, DefaultValue), RangeAtRangeNames);
  }

  /** A dictionary with a range exactly at the range names. */
  predicate Shaped(z: Zone) {
    forall k | k in z :: RangeAtRangeNames(k, z[k])
  }

  /** A preset zone holds ranges exactly at the range names. */
  lemma PresetShaped(gs: seq<S.GeneratorList>)
    requires AllWellTyped(gs)
    ensures Shaped(PresetObject(gs))
  {
    FoldInvariant(gs, EntryOf(PresetExcludedIndices, DefaultValue), RangeAtRangeNames);
  }

  /** So does an instrument zone: the substitutions write ranges at the range names. */
  lemma InstrumentShaped(gs: seq<S.GeneratorList>)
    requires AllWellTyped(gs)
    ensures Shaped(InstrumentObject(gs))
  {
    var z := Fold(gs, EntryOf({}, DefaultValue));
    FoldInvariant(gs, EntryOf({}, DefaultValue), RangeAtRangeNames);
    FixedGeneratorsRule(z);
    assert FixedGenerators[0] == (Keynum, KeyRange) && FixedGenerators[1] == (Velocity, VelRange);
  }

  /** The second loop of `createInstrumentGeneratorObject`. */
  method ApplyFixedGenerators(z: Zone) returns (result: Zone)
    ensures result == FixAll(z, FixedGenerators)
  {
    result := z;
    for i := 0 to |FixedGenerators|
      invariant result == FixAll(z, FixedGenerators[..i])
    {
      var (src, dst) := FixedGenerators[i];
      assert FixedGenerators[..i + 1][..i] == FixedGenerators[..i];
      if src in result && result[src].Bounded? && 0 <= result[src].b.value {
        var v := result[src].b.value;
        result := result[dst := Ranged(S.RangeValue(v, v))];
      }
    }
    assert FixedGenerators[..|FixedGenerators|] == FixedGenerators;
  }

  /** `createInstrumentGeneratorObject`. */
  method CreateInstrumentGeneratorObject(generators: seq<S.GeneratorList>) returns (result: Zone)
    requires AllWellTyped(generators)
    ensures result == InstrumentObject(generators)
  {
    result := FillZone(generators, {}, DefaultValue);
    result := ApplyFixedGenerators(result);
  }
}
