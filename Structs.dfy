/**
 * The fixed-width records of the pdta list and the INFO list (src/Structs.ts),
 * laid out as in sections 5 and 7.2-7.10 of the SoundFont 2.04 specification.
 *
 * Each record has a decoding function over the byte buffer (`...At`), a `Parse...`
 * method that reads it through a cursor and is proved equal to that function, and an
 * encoder with a round-trip lemma.
 */
module Structs {
  import opened Wrappers
  import opened ByteStream
  import Constants
  import opened RiffParser

  // Record widths in bytes.
  const BagSize: nat := 4
  const PresetHeaderSize: nat := 38
  const ModulatorListSize: nat := 10
  const GeneratorListSize: nat := 4
  const InstrumentSize: nat := 22
  const SampleHeaderSize: nat := 46

  /** A name that a NUL-padded field of `size` bytes holds exactly. */
  predicate ValidName(name: string, size: nat) {
    |name| <= size && forall i | 0 <= i < |name| :: 0 < name[i] as int < 0x100
  }

  /** Two adjacent fields of an encoded record. */
  lemma Split(data: seq<byte>, o: int, a: seq<byte>, b: seq<byte>)
    requires 0 <= o && o + |a| + |b| <= |data| && data[o..o + |a| + |b|] == a + b
    ensures data[o..o + |a|] == a
    ensures data[o + |a|..o + |a| + |b|] == b
  {
    var w := data[o..o + |a| + |b|];
    assert forall k | 0 <= k < |a| :: data[o + k] == w[k] == a[k];
    assert forall k | 0 <= k < |b| :: data[o + |a| + k] == w[|a| + k] == b[k];
  }

  // ---------------------------------------------------------------- VersionTag

  /** `ifil`/`iver`: two signed bytes. */
  datatype VersionTag = VersionTag(major: int, minor: int)

  function VersionTagAt(data: seq<byte>, o: int): VersionTag {
    VersionTag(Signed8(ByteAt(data, o)), Signed8(ByteAt(data, o + 1)))
  }

  method ParseVersionTag(s: Stream) returns (v: VersionTag)
    modifies s
    ensures s.offset == old(s.offset) + 2
    ensures v == VersionTagAt(s.data, old(s.offset))
  {
    var major := s.ReadInt8();
    var minor := s.ReadInt8();
    v := VersionTag(major, minor);
  }

  // ---------------------------------------------------------------- Info

  /**
   * The INFO list.  `name`, `version` and `soundEngine` are mandatory in the
   * standard, but a missing sub-chunk still gives null, so every field is optional.
   */
  datatype Info = Info(
    comment: Option<string>,
    copyright: Option<string>,
    creationDate: Option<string>,
    engineer: Option<string>,
    name: Option<string>,
    product: Option<string>,
    software: Option<string>,
    version: Option<VersionTag>,
    soundEngine: Option<string>,
    romName: Option<string>,
    romVersion: Option<VersionTag>)

  /** `getChunk(type)`: the first chunk carrying the tag. */
  function FindChunk(chunks: seq<Chunk>, tag: string): (r: Option<Chunk>)
    ensures r.Some? <==> exists i | 0 <= i < |chunks| :: chunks[i].chunkType == tag
    ensures r.Some? ==> r.value.chunkType == tag && r.value in chunks
  {
    if |chunks| == 0 then None
    else if chunks[0].chunkType == tag then Some(chunks[0])
    else
      var r := FindChunk(chunks[1..], tag);
      assert forall i | 1 <= i < |chunks| :: chunks[i] == chunks[1..][i - 1];
      r
  }

  /** The first match wins: FindChunk returns the chunk at the first index with the tag. */
  lemma {:induction false} FindChunkFirst(chunks: seq<Chunk>, tag: string, i: nat)
    requires i < |chunks| && chunks[i].chunkType == tag
    requires forall j | 0 <= j < i :: chunks[j].chunkType != tag
    ensures FindChunk(chunks, tag) == Some(chunks[i])
  {
    if i > 0 {
      assert chunks[0].chunkType != tag;
      FindChunkFirst(chunks[1..], tag, i - 1);
    }
  }

  /** The loop of `getChunk`. */
  method GetChunk(chunks: seq<Chunk>, tag: string) returns (r: Option<Chunk>)
    ensures r == FindChunk(chunks, tag)
  {
    for i := 0 to |chunks|
      invariant forall j | 0 <= j < i :: chunks[j].chunkType != tag
    {
      if chunks[i].chunkType == tag {
        FindChunkFirst(chunks, tag, i);
        return Some(chunks[i]);
      }
    }
    return None;
  }

  /** `readString(type)` of Info.parse: the chunk's whole payload as a fixed-width string. */
  function InfoString(data: seq<byte>, chunks: seq<Chunk>, tag: string): Option<string> {
    match FindChunk(chunks, tag)
    case None => None
    case Some(c) => Some(FixedString(data, c.offset, c.size))
  }

  /** `readVersionTag(type)` of Info.parse. */
  function InfoVersion(data: seq<byte>, chunks: seq<Chunk>, tag: string): Option<VersionTag> {
    match FindChunk(chunks, tag)
    case None => None
    case Some(c) => Some(VersionTagAt(data, c.offset))
  }

  /** `Info.parse(data, chunks)` as a value. */
  function InfoOf(data: seq<byte>, chunks: seq<Chunk>): Info {
    Info(
      InfoString(data, chunks, "ICMT"),
      InfoString(data, chunks, "ICOP"),
      InfoString(data, chunks, "ICRD"),
      InfoString(data, chunks, "IENG"),
      InfoString(data, chunks, "INAM"),
      InfoString(data, chunks, "IPRD"),
      InfoString(data, chunks, "ISFT"),
      InfoVersion(data, chunks, "ifil"),
      InfoString(data, chunks, "isng"),
      InfoString(data, chunks, "irom"),
      InfoVersion(data, chunks, "iver"))
  }

  /** A tag that no chunk carries yields null; otherwise the first chunk with it is read. */
  lemma InfoStringSource(data: seq<byte>, chunks: seq<Chunk>, tag: string, i: nat)
    ensures InfoString(data, chunks, tag).None? <==> forall j | 0 <= j < |chunks| :: chunks[j].chunkType != tag
    ensures i < |chunks| && chunks[i].chunkType == tag && (forall j | 0 <= j < i :: chunks[j].chunkType != tag) ==>
      InfoString(data, chunks, tag) == Some(FixedString(data, chunks[i].offset, chunks[i].size))
  {
    if i < |chunks| && chunks[i].chunkType == tag && (forall j | 0 <= j < i :: chunks[j].chunkType != tag) {
      FindChunkFirst(chunks, tag, i);
    }
  }

  method ReadInfoString(data: seq<byte>, chunks: seq<Chunk>, tag: string) returns (r: Option<string>)
    ensures r == InfoString(data, chunks, tag)
  {
    var chunk := GetChunk(chunks, tag);
    if chunk.None? {
      return None;
    }
    var s := new Stream(data, chunk.value.offset);
    var str := s.ReadString(chunk.value.size);
    return Some(str);
  }

  method ReadInfoVersion(data: seq<byte>, chunks: seq<Chunk>, tag: string) returns (r: Option<VersionTag>)
    ensures r == InfoVersion(data, chunks, tag)
  {
    var chunk := GetChunk(chunks, tag);
    if chunk.None? {
      return None;
    }
    var s := new Stream(data, chunk.value.offset);
    var v := ParseVersionTag(s);
    return Some(v);
  }

  /** `Info.parse`. */
  method ParseInfo(data: seq<byte>, chunks: seq<Chunk>) returns (info: Info)
    ensures info == InfoOf(data, chunks)
  {
    var comment := ReadInfoString(data, chunks, "ICMT");
    var copyright := ReadInfoString(data, chunks, "ICOP");
    var creationDate := ReadInfoString(data, chunks, "ICRD");
    var engineer := ReadInfoString(data, chunks, "IENG");
    var name := ReadInfoString(data, chunks, "INAM");
    var product := ReadInfoString(data, chunks, "IPRD");
    var software := ReadInfoString(data, chunks, "ISFT");
    var version := ReadInfoVersion(data, chunks, "ifil");
    var soundEngine := ReadInfoString(data, chunks, "isng");
    var romName := ReadInfoString(data, chunks, "irom");
    var romVersion := ReadInfoVersion(data, chunks, "iver");
    info := Info(comment, copyright, creationDate, engineer, name, product, software,
                 version, soundEngine, romName, romVersion);
  }

  // ---------------------------------------------------------------- Bag

  /** pbag/ibag record (section 7.3): where a zone's generators and modulators begin. */
  datatype Bag = Bag(generatorIndex: u16, modulatorIndex: u16)

  function BagAt(data: seq<byte>, o: int): Bag {
    Bag(Word(data, o), Word(data, o + 2))
  }

  method ParseBag(s: Stream) returns (b: Bag)
    modifies s
    ensures s.offset == old(s.offset) + BagSize
    ensures b == BagAt(s.data, old(s.offset))
  {
    var generatorIndex := s.ReadWORD();
    var modulatorIndex := s.ReadWORD();
    b := Bag(generatorIndex, modulatorIndex);
  }

  function EncodeBag(b: Bag): (e: seq<byte>)
    ensures |e| == BagSize
  {
    EncodeU16(b.generatorIndex) + EncodeU16(b.modulatorIndex)
  }

  lemma {:induction false} BagRoundTrip(data: seq<byte>, o: int, b: Bag)
    requires 0 <= o && o + BagSize <= |data| && data[o..o + BagSize] == EncodeBag(b)
    ensures BagAt(data, o) == b
  {
    Split(data, o, EncodeU16(b.generatorIndex), EncodeU16(b.modulatorIndex));
    WordRoundTrip(data, o, b.generatorIndex);
    WordRoundTrip(data, o + 2, b.modulatorIndex);
  }

  // ---------------------------------------------------------------- PresetHeader

  /** phdr record (section 7.2). */
  datatype PresetHeader = PresetHeader(
    presetName: string, preset: u16, bank: u16, presetBagIndex: u16,
    library: u32, genre: u32, morphology: u32)
  {
    /** The terminal record. */
    predicate IsEnd() {
      presetName == "EOP"
    }
  }

  function PresetHeaderAt(data: seq<byte>, o: int): PresetHeader {
    PresetHeader(FixedString(data, o, 20), Word(data, o + 20), Word(data, o + 22), Word(data, o + 24),
                 DWord(data, o + 26, false), DWord(data, o + 30, false), DWord(data, o + 34, false))
  }

  method ParsePresetHeader(s: Stream) returns (h: PresetHeader)
    modifies s
    ensures s.offset == old(s.offset) + PresetHeaderSize
    ensures h == PresetHeaderAt(s.data, old(s.offset))
  {
    var presetName := s.ReadString(20);
    var preset := s.ReadWORD();
    var bank := s.ReadWORD();
    var presetBagIndex := s.ReadWORD();
    var library := s.ReadDWORD(false);
    var genre := s.ReadDWORD(false);
    var morphology := s.ReadDWORD(false);
    h := PresetHeader(presetName, preset, bank, presetBagIndex, library, genre, morphology);
  }

  function EncodePresetHeader(h: PresetHeader): (e: seq<byte>)
    requires ValidName(h.presetName, 20)
    ensures |e| == PresetHeaderSize
  {
    EncodeFixedString(h.presetName, 20) + (EncodeU16(h.preset) + (EncodeU16(h.bank) + (EncodeU16(h.presetBagIndex)
      + (EncodeU32(h.library, false) + (EncodeU32(h.genre, false) + EncodeU32(h.morphology, false))))))
  }

  lemma {:induction false} PresetHeaderRoundTrip(data: seq<byte>, o: int, h: PresetHeader)
    requires ValidName(h.presetName, 20)
    requires 0 <= o && o + PresetHeaderSize <= |data| && data[o..o + PresetHeaderSize] == EncodePresetHeader(h)
    ensures PresetHeaderAt(data, o) == h
  {
    var m := EncodeU32(h.morphology, false);
    var g := EncodeU32(h.genre, false) + m;
    var l := EncodeU32(h.library, false) + g;
    var i := EncodeU16(h.presetBagIndex) + l;
    var b := EncodeU16(h.bank) + i;
    var p := EncodeU16(h.preset) + b;
    Split(data, o, EncodeFixedString(h.presetName, 20), p);
    Split(data, o + 20, EncodeU16(h.preset), b);
    Split(data, o + 22, EncodeU16(h.bank), i);
    Split(data, o + 24, EncodeU16(h.presetBagIndex), l);
    Split(data, o + 26, EncodeU32(h.library, false), g);
    Split(data, o + 30, EncodeU32(h.genre, false), m);
    FixedStringRoundTrip(data, o, h.presetName, 20);
    WordRoundTrip(data, o + 20, h.preset);
    WordRoundTrip(data, o + 22, h.bank);
    WordRoundTrip(data, o + 24, h.presetBagIndex);
    DWordRoundTrip(data, o + 26, h.library, false);
    DWordRoundTrip(data, o + 30, h.genre, false);
    DWordRoundTrip(data, o + 34, h.morphology, false);
  }

  // ---------------------------------------------------------------- RangeValue

  /** A key or velocity range (section 7.5): two unsigned bytes. */
  datatype RangeValue = RangeValue(lo: int, hi: int) {
    /** `in(value)`. */
    predicate In(v: int) {
      lo <= v && v <= hi
    }
  }

  /** The degenerate range `[v, v]` holds exactly `v`. */
  lemma DegenerateRange(v: int, x: int)
    ensures RangeValue(v, v).In(x) <==> x == v
  {
  }

  function RangeValueAt(data: seq<byte>, o: int): RangeValue {
    RangeValue(ByteAt(data, o), ByteAt(data, o + 1))
  }

  method ParseRangeValue(s: Stream) returns (r: RangeValue)
    modifies s
    ensures s.offset == old(s.offset) + 2
    ensures r == RangeValueAt(s.data, old(s.offset))
  {
    var lo := s.ReadByte();
    var hi := s.ReadByte();
    r := RangeValue(lo, hi);
  }

  // ---------------------------------------------------------------- ModulatorList

  /** pmod/imod record (section 7.4); only `value` is signed. */
  datatype ModulatorList = ModulatorList(
    sourceOper: u16, destinationOper: u16, value: int, amountSourceOper: u16, transOper: u16)
  {
    /** The terminal record: every field zero. */
    predicate IsEnd() {
      sourceOper == 0 && destinationOper == 0 && value == 0 && amountSourceOper == 0 && transOper == 0
    }
  }

  function ModulatorListAt(data: seq<byte>, o: int): ModulatorList {
    ModulatorList(Word(data, o), Word(data, o + 2), Signed16(Word(data, o + 4)), Word(data, o + 6), Word(data, o + 8))
  }

  method ParseModulatorList(s: Stream) returns (m: ModulatorList)
    modifies s
    ensures s.offset == old(s.offset) + ModulatorListSize
    ensures m == ModulatorListAt(s.data, old(s.offset))
  {
    var sourceOper := s.ReadWORD();
    var destinationOper := s.ReadWORD();
    var value := s.ReadInt16();
    var amountSourceOper := s.ReadWORD();
    var transOper := s.ReadWORD();
    m := ModulatorList(sourceOper, destinationOper, value, amountSourceOper, transOper);
  }

  /** A decoded modulator record is the terminal one exactly when its ten bytes are zero. */
  lemma {:induction false} ModulatorEndIsZeroBytes(data: seq<byte>, o: int)
    requires 0 <= o && o + ModulatorListSize <= |data|
    ensures ModulatorListAt(data, o).IsEnd() <==> data[o..o + ModulatorListSize] == seq(10, _ => 0)
  {
    var w := data[o..o + ModulatorListSize];
    assert forall k | 0 <= k < 10 :: w[k] == data[o + k];
    if ModulatorListAt(data, o).IsEnd() {
      assert forall k | 0 <= k < 10 :: w[k] == 0;
    }
  }

  function EncodeModulatorList(m: ModulatorList): (e: seq<byte>)
    requires -0x8000 <= m.value < 0x8000
    ensures |e| == ModulatorListSize
  {
    EncodeU16(m.sourceOper) + (EncodeU16(m.destinationOper) + (EncodeU16(Unsigned16(m.value))
      + (EncodeU16(m.amountSourceOper) + EncodeU16(m.transOper))))
  }

  lemma {:induction false} ModulatorListRoundTrip(data: seq<byte>, o: int, m: ModulatorList)
    requires -0x8000 <= m.value < 0x8000
    requires 0 <= o && o + ModulatorListSize <= |data| && data[o..o + ModulatorListSize] == EncodeModulatorList(m)
    ensures ModulatorListAt(data, o) == m
  {
    var t := EncodeU16(m.transOper);
    var a := EncodeU16(m.amountSourceOper) + t;
    var v := EncodeU16(Unsigned16(m.value)) + a;
    var d := EncodeU16(m.destinationOper) + v;
    Split(data, o, EncodeU16(m.sourceOper), d);
    Split(data, o + 2, EncodeU16(m.destinationOper), v);
    Split(data, o + 4, EncodeU16(Unsigned16(m.value)), a);
    Split(data, o + 6, EncodeU16(m.amountSourceOper), t);
    WordRoundTrip(data, o, m.sourceOper);
    WordRoundTrip(data, o + 2, m.destinationOper);
    Signed16RoundTrip(data, o + 4, m.value);
    WordRoundTrip(data, o + 6, m.amountSourceOper);
    WordRoundTrip(data, o + 8, m.transOper);
  }

  // ---------------------------------------------------------------- GeneratorList

  /** The amount of a generator: a range for keyRange/velRange, a signed word otherwise. */
  datatype GenAmount = RangeAmount(range: RangeValue) | IntAmount(amount: int)

  /** pgen/igen record (section 7.5). */
  datatype GeneratorList = GeneratorList(code: u16, value: GenAmount) {
    /** The name of the generator, if its code has one. */
    function Type(): Option<Constants.GenKey> {
      Constants.KeyOfCode(code)
    }

    /** The terminal record: code 0 with the number 0 (a range is never `=== 0`). */
    predicate IsEnd() {
      code == 0 && value == IntAmount(0)
    }
  }

  /** Codes whose amount is a (lo, hi) byte pair. */
  predicate IsRangeCode(code: int) {
    Constants.KeyOfCode(code) == Some(Constants.KeyRange) || Constants.KeyOfCode(code) == Some(Constants.VelRange)
  }

  function GeneratorListAt(data: seq<byte>, o: int): GeneratorList {
    var code := Word(data, o);
    if IsRangeCode(code) then GeneratorList(code, RangeAmount(RangeValueAt(data, o + 2)))
    else GeneratorList(code, IntAmount(Signed16(Word(data, o + 2))))
  }

  method ParseGeneratorList(s: Stream) returns (g: GeneratorList)
    modifies s
    ensures s.offset == old(s.offset) + GeneratorListSize
    ensures g == GeneratorListAt(s.data, old(s.offset))
  {
    var code := s.ReadWORD();
    var value: GenAmount;
    var t := Constants.KeyOfCode(code);
    if t == Some(Constants.KeyRange) || t == Some(Constants.VelRange) {
      var r := ParseRangeValue(s);
      value := RangeAmount(r);
    } else {
      var v := s.ReadInt16();
      value := IntAmount(v);
    }
    g := GeneratorList(code, value);
  }

  /**
   * The shape a decoded generator has: a range exactly for the range codes, with byte
   * bounds, and a signed 16-bit number otherwise.
   */
  predicate WellTyped(g: GeneratorList) {
    match g.value
    case RangeAmount(r) => IsRangeCode(g.code) && 0 <= r.lo < 0x100 && 0 <= r.hi < 0x100
    case IntAmount(v) => !IsRangeCode(g.code) && -0x8000 <= v < 0x8000
  }

  lemma DecodedGeneratorWellTyped(data: seq<byte>, o: int)
    ensures WellTyped(GeneratorListAt(data, o))
  {
  }

  /** A decoded generator is the terminal one exactly when its four bytes are zero. */
  lemma {:induction false} GeneratorEndIsZeroBytes(data: seq<byte>, o: int)
    requires 0 <= o && o + GeneratorListSize <= |data|
    ensures GeneratorListAt(data, o).IsEnd() <==> data[o..o + GeneratorListSize] == [0, 0, 0, 0]
  {
    var w := data[o..o + GeneratorListSize];
    assert w[0] == data[o] && w[1] == data[o + 1] && w[2] == data[o + 2] && w[3] == data[o + 3];
  }

  function EncodeGeneratorList(g: GeneratorList): (e: seq<byte>)
    requires WellTyped(g)
    ensures |e| == GeneratorListSize
  {
    EncodeU16(g.code) + match g.value
      case RangeAmount(r) => [r.lo as byte, r.hi as byte]
      case IntAmount(v) => EncodeU16(Unsigned16(v))
  }

  lemma {:induction false} GeneratorListRoundTrip(data: seq<byte>, o: int, g: GeneratorList)
    requires WellTyped(g)
    requires 0 <= o && o + GeneratorListSize <= |data| && data[o..o + GeneratorListSize] == EncodeGeneratorList(g)
    ensures GeneratorListAt(data, o) == g
  {
    var rest := EncodeGeneratorList(g)[2..];
    assert EncodeGeneratorList(g) == EncodeU16(g.code) + rest;
    Split(data, o, EncodeU16(g.code), rest);
    WordRoundTrip(data, o, g.code);
    match g.value
    case RangeAmount(r) =>
      assert data[o + 2] == rest[0] && data[o + 3] == rest[1];
    case IntAmount(v) =>
      Signed16RoundTrip(data, o + 2, v);
  }

  // ---------------------------------------------------------------- Instrument

  /** inst record (section 7.6). */
  datatype Instrument = Instrument(instrumentName: string, instrumentBagIndex: u16) {
    /** The terminal record. */
    predicate IsEnd() {
      instrumentName == "EOI"
    }
  }

  function InstrumentAt(data: seq<byte>, o: int): Instrument {
    Instrument(FixedString(data, o, 20), Word(data, o + 20))
  }

  method ParseInstrument(s: Stream) returns (t: Instrument)
    modifies s
    ensures s.offset == old(s.offset) + InstrumentSize
    ensures t == InstrumentAt(s.data, old(s.offset))
  {
    var instrumentName := s.ReadString(20);
    var instrumentBagIndex := s.ReadWORD();
    t := Instrument(instrumentName, instrumentBagIndex);
  }

  function EncodeInstrument(t: Instrument): (e: seq<byte>)
    requires ValidName(t.instrumentName, 20)
    ensures |e| == InstrumentSize
  {
    EncodeFixedString(t.instrumentName, 20) + EncodeU16(t.instrumentBagIndex)
  }

  lemma {:induction false} InstrumentRoundTrip(data: seq<byte>, o: int, t: Instrument)
    requires ValidName(t.instrumentName, 20)
    requires 0 <= o && o + InstrumentSize <= |data| && data[o..o + InstrumentSize] == EncodeInstrument(t)
    ensures InstrumentAt(data, o) == t
  {
    Split(data, o, EncodeFixedString(t.instrumentName, 20), EncodeU16(t.instrumentBagIndex));
    FixedStringRoundTrip(data, o, t.instrumentName, 20);
    WordRoundTrip(data, o + 20, t.instrumentBagIndex);
  }

  // ---------------------------------------------------------------- SampleHeader

  /**
   * shdr record (section 7.10).  For SoundFont 2 files the loop points are made
   * relative to `start`; SoundFont 3 files keep them as stored.
   */
  datatype SampleHeader = SampleHeader(
    sampleName: string, start: u32, end: u32, loopStart: int, loopEnd: int, sampleRate: u32,
    originalPitch: byte, pitchCorrection: int, sampleLink: u16, sampleType: u16)
  {
    /** The terminal record. */
    predicate IsEnd() {
      sampleName == "EOS"
    }
  }

  function SampleHeaderAt(data: seq<byte>, o: int, isSF3: bool): SampleHeader {
    var start := DWord(data, o + 20, false);
    var loopStart := DWord(data, o + 28, false);
    var loopEnd := DWord(data, o + 32, false);
    SampleHeader(
      FixedString(data, o, 20), start, DWord(data, o + 24, false),
      if isSF3 then loopStart else loopStart - start,
      if isSF3 then loopEnd else loopEnd - start,
      DWord(data, o + 36, false), ByteAt(data, o + 40), Signed8(ByteAt(data, o + 41)),
      Word(data, o + 42), Word(data, o + 44))
  }

  method ParseSampleHeader(s: Stream, isSF3: bool) returns (h: SampleHeader)
    modifies s
    ensures s.offset == old(s.offset) + SampleHeaderSize
    ensures h == SampleHeaderAt(s.data, old(s.offset), isSF3)
  {
    ghost var o := s.offset;
    h := ReadSampleFields(s);
    if !isSF3 {
      h := h.(loopStart := h.loopStart - h.start, loopEnd := h.loopEnd - h.start);
    }
    LoopPointsRelative(s.data, o);
  }

  /** The ten fields of a sample header as stored, loop points absolute. */
  method ReadSampleFields(s: Stream) returns (h: SampleHeader)
    modifies s
    ensures s.offset == old(s.offset) + SampleHeaderSize
    ensures h == SampleHeaderAt(s.data, old(s.offset), true)
  {
    var sampleName := s.ReadString(20);
    var start := s.ReadDWORD(false);
    var end := s.ReadDWORD(false);
    var loopStart := s.ReadDWORD(false);
    var loopEnd := s.ReadDWORD(false);
    var sampleRate := s.ReadDWORD(false);
    var originalPitch := s.ReadByte();
    var pitchCorrection := s.ReadInt8();
    var sampleLink := s.ReadWORD();
    var sampleType := s.ReadWORD();
    h := SampleHeader(sampleName, start, end, loopStart, loopEnd, sampleRate,
                      originalPitch, pitchCorrection, sampleLink, sampleType);
  }

  /** SoundFont 2 loop points are the SoundFont 3 ones less `start`; nothing else differs. */
  lemma LoopPointsRelative(data: seq<byte>, o: int)
    ensures var sf2, sf3 := SampleHeaderAt(data, o, false), SampleHeaderAt(data, o, true);
      sf2.loopStart == sf3.loopStart - sf3.start && sf2.loopEnd == sf3.loopEnd - sf3.start
      && sf2.(loopStart := sf3.loopStart, loopEnd := sf3.loopEnd) == sf3
  {
  }

  /** The stored loop points: the header's, made absolute again for SoundFont 2. */
  function StoredLoop(h: SampleHeader, p: int, isSF3: bool): int {
    if isSF3 then p else p + h.start
  }

  predicate Encodable(h: SampleHeader, isSF3: bool) {
    ValidName(h.sampleName, 20) && -0x80 <= h.pitchCorrection < 0x80
    && 0 <= StoredLoop(h, h.loopStart, isSF3) < 0x1_0000_0000
    && 0 <= StoredLoop(h, h.loopEnd, isSF3) < 0x1_0000_0000
  }

  function EncodeSampleHeader(h: SampleHeader, isSF3: bool): (e: seq<byte>)
    requires Encodable(h, isSF3)
    ensures |e| == SampleHeaderSize
  {
    var pc := PitchByte(h.pitchCorrection);
    EncodeFixedString(h.sampleName, 20) + (EncodeU32(h.start, false) + (EncodeU32(h.end, false)
      + (EncodeU32(StoredLoop(h, h.loopStart, isSF3), false) + (EncodeU32(StoredLoop(h, h.loopEnd, isSF3), false)
      + (EncodeU32(h.sampleRate, false) + ([h.originalPitch, pc] + (EncodeU16(h.sampleLink) + EncodeU16(h.sampleType))))))))
  }

  /** The byte of a pitch correction in its two's-complement form. */
  function PitchByte(pitchCorrection: int): byte
    requires -0x80 <= pitchCorrection < 0x80
  {
    if pitchCorrection < 0 then pitchCorrection + 0x100 else pitchCorrection
  }

  /** Where each field of an encoded sample header lies. */
  lemma {:induction false} SampleHeaderFields(data: seq<byte>, o: int, h: SampleHeader, isSF3: bool)
    requires Encodable(h, isSF3)
    requires 0 <= o && o + SampleHeaderSize <= |data| && data[o..o + SampleHeaderSize] == EncodeSampleHeader(h, isSF3)
    ensures data[o..o + 20] == EncodeFixedString(h.sampleName, 20)
    ensures data[o + 20..o + 24] == EncodeU32(h.start, false)
    ensures data[o + 24..o + 28] == EncodeU32(h.end, false)
    ensures data[o + 28..o + 32] == EncodeU32(StoredLoop(h, h.loopStart, isSF3), false)
    ensures data[o + 32..o + 36] == EncodeU32(StoredLoop(h, h.loopEnd, isSF3), false)
    ensures data[o + 36..o + 40] == EncodeU32(h.sampleRate, false)
    ensures data[o + 40] == h.originalPitch && data[o + 41] == PitchByte(h.pitchCorrection)
    ensures data[o + 42..o + 44] == EncodeU16(h.sampleLink)
    ensures data[o + 44..o + 46] == EncodeU16(h.sampleType)
  {
    var pc := PitchByte(h.pitchCorrection);
    var ty := EncodeU16(h.sampleType);
    var li := EncodeU16(h.sampleLink) + ty;
    var pi := [h.originalPitch, pc] + li;
    var ra := EncodeU32(h.sampleRate, false) + pi;
    var le := EncodeU32(StoredLoop(h, h.loopEnd, isSF3), false) + ra;
    var ls := EncodeU32(StoredLoop(h, h.loopStart, isSF3), false) + le;
    var en := EncodeU32(h.end, false) + ls;
    var st := EncodeU32(h.start, false) + en;
    Split(data, o, EncodeFixedString(h.sampleName, 20), st);
    Split(data, o + 20, EncodeU32(h.start, false), en);
    Split(data, o + 24, EncodeU32(h.end, false), ls);
    Split(data, o + 28, EncodeU32(StoredLoop(h, h.loopStart, isSF3), false), le);
    Split(data, o + 32, EncodeU32(StoredLoop(h, h.loopEnd, isSF3), false), ra);
    Split(data, o + 36, EncodeU32(h.sampleRate, false), pi);
    Split(data, o + 40, [h.originalPitch, pc], li);
    Split(data, o + 42, EncodeU16(h.sampleLink), ty);
    assert data[o + 40] == data[o + 40..o + 42][0] && data[o + 41] == data[o + 40..o + 42][1];
  }

  lemma {:induction false} SampleHeaderRoundTrip(data: seq<byte>, o: int, h: SampleHeader, isSF3: bool)
    requires Encodable(h, isSF3)
    requires 0 <= o && o + SampleHeaderSize <= |data| && data[o..o + SampleHeaderSize] == EncodeSampleHeader(h, isSF3)
    ensures SampleHeaderAt(data, o, isSF3) == h
  {
    SampleHeaderFields(data, o, h, isSF3);
    FixedStringRoundTrip(data, o, h.sampleName, 20);
    DWordRoundTrip(data, o + 20, h.start, false);
    DWordRoundTrip(data, o + 24, h.end, false);
    DWordRoundTrip(data, o + 28, StoredLoop(h, h.loopStart, isSF3), false);
    DWordRoundTrip(data, o + 32, StoredLoop(h, h.loopEnd, isSF3), false);
    DWordRoundTrip(data, o + 36, h.sampleRate, false);
    WordRoundTrip(data, o + 42, h.sampleLink);
    WordRoundTrip(data, o + 44, h.sampleType);
  }

  // Sample link types (section 7.10).
  const MonoSample: u16 := 1
  const RightSample: u16 := 2
  const LeftSample: u16 := 4
  const LinkedSample: u16 := 8
  const RomMonoSample: u16 := 0x8001
  const RomRightSample: u16 := 0x8002
  const RomLeftSample: u16 := 0x8004
  const RomLinkedSample: u16 := 0x8008

  // ---------------------------------------------------------------- BoundedValue

  /** A generator amount with the bounds it is clamped to when consumed. */
  datatype BoundedValue = BoundedValue(min: int, value: int, max: int) {
    /** `clamp()`: `max(min, min(value, max))`. */
    function Clamp(): (r: int)
      ensures min <= max ==> min <= r <= max
      ensures min <= value <= max ==> r == value
      ensures r == value || r == min || r == max
      ensures min <= max ==> (value < min ==> r == min) && (value > max ==> r == max)
    {
      var inner := if value < max then value else max;
      if min > inner then min else inner
    }
  }

  /** Clamping twice is clamping once. */
  lemma ClampIdempotent(b: BoundedValue)
    requires b.min <= b.max
    ensures b.(value := b.Clamp()).Clamp() == b.Clamp()
  {
  }
}
