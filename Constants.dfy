/**
 * Generator names and their enumerator codes.  The code-to-name table lives in
 * Constants.ts, which is not part of this model; it is given here after section
 * 8.1.2 of the SoundFont 2.04 specification.  Codes 14, 18, 19, 20, 42, 49 and 55
 * are reserved, and no code from 59 on has a name: those codes index to
 * `undefined` in the table.
 */
module Constants {
  import opened Wrappers

  /** The 52 generator names, in enumerator order. */
  datatype GenKey =
      StartAddrsOffset
    | EndAddrsOffset
    | StartloopAddrsOffset
    | EndloopAddrsOffset
    | StartAddrsCoarseOffset
    | ModLfoToPitch
    | VibLfoToPitch
    | ModEnvToPitch
    | InitialFilterFc
    | InitialFilterQ
    | ModLfoToFilterFc
    | ModEnvToFilterFc
    | EndAddrsCoarseOffset
    | ModLfoToVolume
    | ChorusEffectsSend
    | ReverbEffectsSend
    | Pan
    | DelayModLFO
    | FreqModLFO
    | DelayVibLFO
    | FreqVibLFO
    | DelayModEnv
    | AttackModEnv
    | HoldModEnv
    | DecayModEnv
    | SustainModEnv
    | ReleaseModEnv
    | KeynumToModEnvHold
    | KeynumToModEnvDecay
    | DelayVolEnv
    | AttackVolEnv
    | HoldVolEnv
    | DecayVolEnv
    | SustainVolEnv
    | ReleaseVolEnv
    | KeynumToVolEnvHold
    | KeynumToVolEnvDecay
    | Instrument
    | KeyRange
    | VelRange
    | StartloopAddrsCoarseOffset
    | Keynum
    | Velocity
    | InitialAttenuation
    | EndloopAddrsCoarseOffset
    | CoarseTune
    | FineTune
    | SampleID
    | SampleModes
    | ScaleTuning
    | ExclusiveClass
    | OverridingRootKey

  /** The enumerator of a generator name; reading it back through the table gives the name. */
  function KeyCode(k: GenKey): (code: nat)
    ensures code < 59
    ensures KeyOfCode(code) == Some(k)
  {
    match k
    case StartAddrsOffset => 0
    case EndAddrsOffset => 1
    case StartloopAddrsOffset => 2
    case EndloopAddrsOffset => 3
    case StartAddrsCoarseOffset => 4
    case ModLfoToPitch => 5
    case VibLfoToPitch => 6
    case ModEnvToPitch => 7
    case InitialFilterFc => 8
    case InitialFilterQ => 9
    case ModLfoToFilterFc => 10
    case ModEnvToFilterFc => 11
    case EndAddrsCoarseOffset => 12
    case ModLfoToVolume => 13
    case ChorusEffectsSend => 15
    case ReverbEffectsSend => 16
    case Pan => 17
    case DelayModLFO => 21
    case FreqModLFO => 22
    case DelayVibLFO => 23
    case FreqVibLFO => 24
    case DelayModEnv => 25
    case AttackModEnv => 26
    case HoldModEnv => 27
    case DecayModEnv => 28
    case SustainModEnv => 29
    case ReleaseModEnv => 30
    case KeynumToModEnvHold => 31
    case KeynumToModEnvDecay => 32
    case DelayVolEnv => 33
    case AttackVolEnv => 34
    case HoldVolEnv => 35
    case DecayVolEnv => 36
    case SustainVolEnv => 37
    case ReleaseVolEnv => 38
    case KeynumToVolEnvHold => 39
    case KeynumToVolEnvDecay => 40
    case Instrument => 41
    case KeyRange => 43
    case VelRange => 44
    case StartloopAddrsCoarseOffset => 45
    case Keynum => 46
    case Velocity => 47
    case InitialAttenuation => 48
    case EndloopAddrsCoarseOffset => 50
    case CoarseTune => 51
    case FineTune => 52
    case SampleID => 53
    case SampleModes => 54
    case ScaleTuning => 56
    case ExclusiveClass => 57
    case OverridingRootKey => 58
  }

  /** `GeneratorNames[code]`: the name at a code, `None` where the table holds `undefined`. */
  function KeyOfCode(code: int): Option<GenKey> {
    match code
    case 0 => Some(StartAddrsOffset)
    case 1 => Some(EndAddrsOffset)
    case 2 => Some(StartloopAddrsOffset)
    case 3 => Some(EndloopAddrsOffset)
    case 4 => Some(StartAddrsCoarseOffset)
    case 5 => Some(ModLfoToPitch)
    case 6 => Some(VibLfoToPitch)
    case 7 => Some(ModEnvToPitch)
    case 8 => Some(InitialFilterFc)
    case 9 => Some(InitialFilterQ)
    case 10 => Some(ModLfoToFilterFc)
    case 11 => Some(ModEnvToFilterFc)
    case 12 => Some(EndAddrsCoarseOffset)
    case 13 => Some(ModLfoToVolume)
    case 15 => Some(ChorusEffectsSend)
    case 16 => Some(ReverbEffectsSend)
    case 17 => Some(Pan)
    case 21 => Some(DelayModLFO)
    case 22 => Some(FreqModLFO)
    case 23 => Some(DelayVibLFO)
    case 24 => Some(FreqVibLFO)
    case 25 => Some(DelayModEnv)
    case 26 => Some(AttackModEnv)
    case 27 => Some(HoldModEnv)
    case 28 => Some(DecayModEnv)
    case 29 => Some(SustainModEnv)
    case 30 => Some(ReleaseModEnv)
    case 31 => Some(KeynumToModEnvHold)
    case 32 => Some(KeynumToModEnvDecay)
    case 33 => Some(DelayVolEnv)
    case 34 => Some(AttackVolEnv)
    case 35 => Some(HoldVolEnv)
    case 36 => Some(DecayVolEnv)
    case 37 => Some(SustainVolEnv)
    case 38 => Some(ReleaseVolEnv)
    case 39 => Some(KeynumToVolEnvHold)
    case 40 => Some(KeynumToVolEnvDecay)
    case 41 => Some(Instrument)
    case 43 => Some(KeyRange)
    case 44 => Some(VelRange)
    case 45 => Some(StartloopAddrsCoarseOffset)
    case 46 => Some(Keynum)
    case 47 => Some(Velocity)
    case 48 => Some(InitialAttenuation)
    case 50 => Some(EndloopAddrsCoarseOffset)
    case 51 => Some(CoarseTune)
    case 52 => Some(FineTune)
    case 53 => Some(SampleID)
    case 54 => Some(SampleModes)
    case 56 => Some(ScaleTuning)
    case 57 => Some(ExclusiveClass)
    case 58 => Some(OverridingRootKey)
    case _ => None
  }

  /** The reserved and out-of-table codes are exactly the ones without a name. */
  lemma UnnamedCodes(code: int)
    ensures KeyOfCode(code) == None <==>
      code < 0 || code >= 59 || code in {14, 18, 19, 20, 42, 49, 55}
  {
  }

  /** Every named code reads back to itself. */
  lemma CodeRoundTrip(code: int)
    requires KeyOfCode(code).Some?
    ensures KeyCode(KeyOfCode(code).value) == code
  {
    if code < 20 {
      LowRoundTrip(code);
    } else if code < 40 {
      MiddleRoundTrip(code);
    } else if code < 45 {
      HighRoundTrip(code);
    } else if code < 50 {
      UpperRoundTrip(code);
    } else {
      TopRoundTrip(code);
    }
  }

  lemma LowRoundTrip(code: int)
    requires 0 <= code < 20 && KeyOfCode(code).Some?
    ensures KeyCode(KeyOfCode(code).value) == code
  {
  }

  lemma MiddleRoundTrip(code: int)
    requires 20 <= code < 40 && KeyOfCode(code).Some?
    ensures KeyCode(KeyOfCode(code).value) == code
  {
  }

  lemma HighRoundTrip(code: int)
    requires 40 <= code < 45 && KeyOfCode(code).Some?
    ensures KeyCode(KeyOfCode(code).value) == code
  {
    assert code == 40 || code == 41 || code == 43 || code == 44;
  }

  lemma UpperRoundTrip(code: int)
    requires 45 <= code < 50 && KeyOfCode(code).Some?
    ensures KeyCode(KeyOfCode(code).value) == code
  {
  }

  lemma TopRoundTrip(code: int)
    requires 50 <= code && KeyOfCode(code).Some?
    ensures KeyCode(KeyOfCode(code).value) == code
  {
  }

  /** Distinct names have distinct codes. */
  lemma KeyCodeInjective(a: GenKey, b: GenKey)
    requires KeyCode(a) == KeyCode(b)
    ensures a == b
  {
    assert KeyOfCode(KeyCode(a)) == Some(a);
  }
}
