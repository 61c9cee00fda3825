/**
 * The default modulators every voice starts with (src/DefaultModulators.ts), after
 * section 8.4 of the SoundFont 2.04 specification; the fifth entry's source (0x0587) differs
 * from the specification's on purpose.
 */
module DefaultModulators {
  import opened Modulator

  /** `DefaultModulators`: sources decoded, transOper 0. */
  const DefaultModulators: seq<Modulator> := [
    Modulator(ParseSource(0x0502), 48, 960.0, ParseSource(0x0), 0),
    Modulator(ParseSource(0x0102), 8, -2400.0, ParseSource(0x0), 0),
    Modulator(ParseSource(0x000d), 6, 50.0, ParseSource(0x0), 0),
    Modulator(ParseSource(0x0081), 6, 50.0, ParseSource(0x0), 0),
    Modulator(ParseSource(0x0587), 48, 960.0, ParseSource(0x0), 0),
    Modulator(ParseSource(0x028a), 48, 1.0, ParseSource(0x0), 0),
    Modulator(ParseSource(0x058b), 48, 960.0, ParseSource(0x0), 0),
    Modulator(ParseSource(0x00db), 16, 0.2, ParseSource(0x0), 0),
    Modulator(ParseSource(0x00dd), 15, 0.2, ParseSource(0x0), 0),
    Modulator(ParseSource(0x020e), 51, 127.0, ParseSource(0x0010), 0)
  ]

  /** The source operands of the table, in order. */
  const SourceOpers: seq<int> := [0x0502, 0x0102, 0x000d, 0x0081, 0x0587, 0x028a, 0x058b, 0x00db, 0x00dd, 0x020e]

  /** A source with CC flag 0 and index 0, the "no controller" source. */
  predicate IsNullSource(s: ModulatorSource) {
    s.cc == 0 && s.index == 0
  }

  /** Ten entries, each with transOper 0, with these destinations in this order. */
  lemma TableShape()
    ensures |DefaultModulators| == 10
    ensures forall i | 0 <= i < 10 :: DefaultModulators[i].transOper == 0
    ensures seq(10, i requires 0 <= i < 10 => DefaultModulators[i].destinationOper) == [48, 8, 6, 6, 48, 48, 48, 16, 15, 51]
  {
  }

  /** The first nine amount sources are the null source; the last is index 16 without the CC flag. */
  lemma AmountSources()
    ensures forall i | 0 <= i < 9 :: IsNullSource(DefaultModulators[i].amountSourceOper)
    ensures DefaultModulators[9].amountSourceOper == ModulatorSource(0, 0, 0, 0, 16)
    ensures !IsNullSource(DefaultModulators[9].amountSourceOper)
  {
  }

  /** The decoded sources are the (type, polarity, direction, cc, index) tuples of src/Modulator.test.ts. */
  lemma DecodedSources()
    ensures DefaultModulators[0].sourceOper == ModulatorSource(1, 0, 1, 0, 2)
    ensures DefaultModulators[1].sourceOper == ModulatorSource(0, 0, 1, 0, 2)
    ensures DefaultModulators[2].sourceOper == ModulatorSource(0, 0, 0, 0, 13)
    ensures DefaultModulators[3].sourceOper == ModulatorSource(0, 0, 0, 1, 1)
    ensures DefaultModulators[4].sourceOper == ModulatorSource(1, 0, 1, 1, 7)
    ensures DefaultModulators[5].sourceOper == ModulatorSource(0, 1, 0, 1, 10)
    ensures DefaultModulators[6].sourceOper == ModulatorSource(1, 0, 1, 1, 11)
    ensures DefaultModulators[7].sourceOper == ModulatorSource(0, 0, 0, 1, 91)
    ensures DefaultModulators[8].sourceOper == ModulatorSource(0, 0, 0, 1, 93)
    ensures DefaultModulators[9].sourceOper == ModulatorSource(0, 1, 0, 0, 14)
  {
    TestVectors();
  }

  /** Each source packs back to the operand it was decoded from. */
  lemma {:induction false} SourcesPackBack()
    ensures forall i | 0 <= i < 10 :: Pack(DefaultModulators[i].sourceOper) == SourceOpers[i]
  {
    forall i | 0 <= i < 10
      ensures Pack(DefaultModulators[i].sourceOper) == SourceOpers[i]
    {
      PackParse(SourceOpers[i]);
    }
  }
}
