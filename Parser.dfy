/**
 * The file parser (src/Parser.ts): one top-level RIFF chunk whose `sfbk` form holds
 * the INFO, sdta and pdta lists (section 5 of the SoundFont 2.04 specification); the
 * pdta list holds the nine record chunks phdr, pbag, pmod, pgen, inst, ibag, imod,
 * igen and shdr, in that order (section 7.1).
 *
 * Each step is a function returning a `Result` whose error is what the parser
 * throws, and the steps the parser runs as loops or by mutation are methods proved
 * equal to those functions.
 */
module Parser {
  import opened Wrappers
  import opened ByteStream
  import opened RiffParser
  import opened Structs

  /** What `parse` throws. */
  datatype ParseError =
    | WrongChunkLength                   // "wrong chunk length"
    | InvalidChunkType(chunkType: string) // "invalid chunk type:" + type
    | InvalidSignature(signature: string) // "invalid signature:" + signature
    | InvalidSfbkStructure               // "invalid sfbk structure"
    | InvalidPdtaChunk                   // "invalid pdta chunk"
    | TypeError(property: string)        // a property read on undefined or null

  /** `SamplingData`: where the sample data starts; the 24-bit part is optional. */
  datatype SamplingData = SamplingData(offsetMSB: int, offsetLSB: Option<int>)

  /** What `parsePdtaList` returns. */
  datatype Pdta = Pdta(
    presetHeaders: seq<PresetHeader>,
    presetZone: seq<Bag>,
    presetModulators: seq<ModulatorList>,
    presetGenerators: seq<GeneratorList>,
    instruments: seq<Instrument>,
    instrumentZone: seq<Bag>,
    instrumentModulators: seq<ModulatorList>,
    instrumentGenerators: seq<GeneratorList>,
    sampleHeaders: seq<SampleHeader>)

  /** What `parseRiffChunk` returns: the INFO list, the sdta offsets and the pdta records. */
  datatype Sfbk = Sfbk(info: Info, samplingData: SamplingData, pdta: Pdta)

  /** `ParseResult`. */
  datatype ParseResult = ParseResult(
    presetHeaders: seq<PresetHeader>,
    presetZone: seq<Bag>,
    presetModulators: seq<ModulatorList>,
    presetGenerators: seq<GeneratorList>,
    instruments: seq<Instrument>,
    instrumentZone: seq<Bag>,
    instrumentModulators: seq<ModulatorList>,
    instrumentGenerators: seq<GeneratorList>,
    sampleHeaders: seq<SampleHeader>,
    samples: seq<seq<byte>>,
    samplingData: SamplingData,
    info: Info)

  // ---------------------------------------------------------------- getChunkList

  /**
   * `getChunkList(chunk, data, type, signature, option)`: check the list's type and
   * its four-byte signature, then walk the `size - 4` bytes after the signature.
   */
  function ChunkList(chunk: Chunk, data: seq<byte>, expectedType: string, expectedSignature: string, opts: Options)
    : (r: Result<seq<Chunk>, ParseError>)
    ensures chunk.chunkType != expectedType ==> r == Err(InvalidChunkType(chunk.chunkType))
    ensures chunk.chunkType == expectedType && FixedString(data, chunk.offset, 4) != expectedSignature ==>
      r == Err(InvalidSignature(FixedString(data, chunk.offset, 4)))
    ensures r.Ok? <==> chunk.chunkType == expectedType && FixedString(data, chunk.offset, 4) == expectedSignature
    ensures r.Ok? ==> r.value == Riff(data, chunk.offset + 4, chunk.size - 4, opts)
    ensures r.Ok? ==> forall k | 0 <= k < |r.value| ::
      chunk.offset + 4 <= Start(r.value[k]) < chunk.offset + chunk.size
  {
    if chunk.chunkType != expectedType then Err(InvalidChunkType(chunk.chunkType))
    else
      var signature := FixedString(data, chunk.offset, 4);
      if signature != expectedSignature then Err(InvalidSignature(signature))
      else
        RiffBounds(data, chunk.offset + 4, chunk.size - 4, opts);
        Ok(Riff(data, chunk.offset + 4, chunk.size - 4, opts))
  }

  /** `getChunkList`: a cursor reads the signature, then the walk starts at the cursor. */
  method GetChunkList(chunk: Chunk, data: seq<byte>, expectedType: string, expectedSignature: string, opts: Options)
    returns (r: Result<seq<Chunk>, ParseError>)
    ensures r == ChunkList(chunk, data, expectedType, expectedSignature, opts)
  {
    if chunk.chunkType != expectedType {
      return Err(InvalidChunkType(chunk.chunkType));
    }
    var stream := new Stream(data, chunk.offset);
    var signature := stream.ReadString(4);
    if signature != expectedSignature {
      return Err(InvalidSignature(signature));
    }
    var chunkList := ParseRiff(data, stream.offset, chunk.size - 4, opts);
    return Ok(chunkList);
  }

  // ---------------------------------------------------------------- parseChunkObjecs

  /** `terminate && terminate(obj)`. */
  predicate Stops<T>(terminate: Option<T -> bool>, obj: T) {
    terminate.Some? && terminate.value(obj)
  }

  /**
   * The records the loop of `parseChunkObjecs` collects: one `width`-byte record at
   * each cursor position below `end`, stopping before the first one that `terminate`
   * accepts.
   */
  function Records<T>(data: seq<byte>, offset: int, end: int, width: nat,
                      decode: (seq<byte>, int) -> T, terminate: Option<T -> bool>): seq<T>
    requires width > 0
    decreases end - offset
  {
    if offset >= end then []
    else
      var obj := decode(data, offset);
      if Stops(terminate, obj) then []
      else [obj] + Records(data, offset + width, end, width, decode, terminate)
  }

  /**
   * `r` is the `k`-th record for each of its positions, none of them a terminator,
   * and the next position is either past `end` or holds a terminator.
   */
  ghost predicate LongestRun<T>(r: seq<T>, data: seq<byte>, offset: int, end: int, width: nat,
                          decode: (seq<byte>, int) -> T, terminate: Option<T -> bool>) {
    (forall k | 0 <= k < |r| ::
      offset + k * width < end && r[k] == decode(data, offset + k * width) && !Stops(terminate, r[k]))
    && (offset + |r| * width >= end || Stops(terminate, decode(data, offset + |r| * width)))
  }

  /** The records collected are exactly the run of non-terminating records from `offset`. */
  lemma {:induction false} RecordsAreLongestRun<T>(data: seq<byte>, offset: int, end: int, width: nat,
                                                   decode: (seq<byte>, int) -> T, terminate: Option<T -> bool>)
    requires width > 0
    ensures LongestRun(Records(data, offset, end, width, decode, terminate), data, offset, end, width, decode, terminate)
    decreases end - offset
  {
    var r := Records(data, offset, end, width, decode, terminate);
    if offset < end && !Stops(terminate, decode(data, offset)) {
      var next := offset + width;
      var rest := Records(data, next, end, width, decode, terminate);
      RecordsAreLongestRun(data, next, end, width, decode, terminate);
      assert r == [decode(data, offset)] + rest;
      forall k | 0 <= k < |r|
        ensures offset + k * width < end && r[k] == decode(data, offset + k * width) && !Stops(terminate, r[k])
      {
        if k > 0 {
          Step(offset, width, k - 1);
          assert r[k] == rest[k - 1];
        }
      }
      Step(offset, width, |rest|);
    }
  }

  lemma Step(offset: int, width: nat, k: nat)
    ensures offset + width + k * width == offset + (k + 1) * width
  {
  }

  /** Without a terminator the run ends only at `end`: `|r|` records cover the range. */
  lemma UnterminatedCovers<T>(data: seq<byte>, offset: int, end: int, width: nat, decode: (seq<byte>, int) -> T)
    requires width > 0 && offset < end
    ensures var r := Records(data, offset, end, width, decode, None);
      |r| > 0 && offset + (|r| - 1) * width < end <= offset + |r| * width
  {
    RecordsAreLongestRun(data, offset, end, width, decode, None);
  }

  /** `parseChunkObjecs(chunk, data, type, clazz, terminate)` as a value. */
  function ChunkObjects<T>(chunk: Chunk, data: seq<byte>, chunkType: string, width: nat,
                           decode: (seq<byte>, int) -> T, terminate: Option<T -> bool>)
    : (r: Result<seq<T>, ParseError>)
    requires width > 0
    ensures r.Err? <==> chunk.chunkType != chunkType
    ensures r.Err? ==> r.error == InvalidChunkType(chunk.chunkType)
    ensures r.Ok? ==> forall k | 0 <= k < |r.value| :: !Stops(terminate, r.value[k])
    ensures r.Ok? ==> LongestRun(r.value, data, chunk.offset, chunk.offset + chunk.size, width, decode, terminate)
  {
    if chunk.chunkType != chunkType then Err(InvalidChunkType(chunk.chunkType))
    else
      var r := Records(data, chunk.offset, chunk.offset + chunk.size, width, decode, terminate);
      RecordsAreLongestRun(data, chunk.offset, chunk.offset + chunk.size, width, decode, terminate);
      Ok(r)
  }

  /**
   * `parseChunkObjecs`.  `decode` is the record's reader: each `Parse...` method of
   * Structs reads exactly `decode(data, offset)` and moves the cursor on by `width`.
   */
  method ParseChunkObjects<T>(chunk: Chunk, data: seq<byte>, chunkType: string, width: nat,
                              decode: (seq<byte>, int) -> T, terminate: Option<T -> bool>)
    returns (r: Result<seq<T>, ParseError>)
    requires width > 0
    ensures r == ChunkObjects(chunk, data, chunkType, width, decode, terminate)
  {
    if chunk.chunkType != chunkType {
      return Err(InvalidChunkType(chunk.chunkType));
    }
    var result: seq<T> := [];
    var stream := new Stream(data, chunk.offset);
    var size := chunk.offset + chunk.size;
    ghost var all := Records(data, chunk.offset, size, width, decode, terminate);
    while stream.offset < size
      invariant stream.data == data
      invariant result + Records(data, stream.offset, size, width, decode, terminate) == all
      decreases size - stream.offset
    {
      var obj := decode(stream.data, stream.offset);
      if terminate.Some? && terminate.value(obj) {
        assert Records(data, stream.offset, size, width, decode, terminate) == [];
        break;
      }
      ConcatAssoc(result, [obj], Records(data, stream.offset + width, size, width, decode, terminate));
      stream.offset := stream.offset + width;
      result := result + [obj];
    }
    assert result == all;
    return Ok(result);
  }

  // ---------------------------------------------------------------- the nine wrappers

  function EndOfPresets(h: PresetHeader): bool { h.IsEnd() }
  function EndOfInstruments(t: Instrument): bool { t.IsEnd() }
  function EndOfModulators(m: ModulatorList): bool { m.IsEnd() }
  function EndOfGenerators(g: GeneratorList): bool { g.IsEnd() }
  function EndOfSamples(h: SampleHeader): bool { h.IsEnd() }

  /** The sample-header reader for the file's version. */
  function SampleHeaderReader(isSF3: bool): (seq<byte>, int) -> SampleHeader {
    (d, o) => SampleHeaderAt(d, o, isSF3)
  }

  /** `parsePhdr`: preset headers up to the "EOP" terminator. */
  function Phdr(chunk: Chunk, data: seq<byte>): (r: Result<seq<PresetHeader>, ParseError>)
    ensures r.Ok? <==> chunk.chunkType == "phdr"
    ensures r.Ok? ==> forall k | 0 <= k < |r.value| :: !r.value[k].IsEnd()
    ensures r.Ok? ==> LongestRun(r.value, data, chunk.offset, chunk.offset + chunk.size, PresetHeaderSize, PresetHeaderAt, Some(EndOfPresets))
  {
    ChunkObjects(chunk, data, "phdr", PresetHeaderSize, PresetHeaderAt, Some(EndOfPresets))
  }

  /** `parsePbag`: bags until the chunk's end, no terminator. */
  function Pbag(chunk: Chunk, data: seq<byte>): (r: Result<seq<Bag>, ParseError>)
    ensures r.Ok? <==> chunk.chunkType == "pbag"
    ensures r.Ok? ==> LongestRun(r.value, data, chunk.offset, chunk.offset + chunk.size, BagSize, BagAt, None)
  {
    ChunkObjects(chunk, data, "pbag", BagSize, BagAt, None)
  }

  /** `parsePmod`: modulators up to the all-zero terminator. */
  function Pmod(chunk: Chunk, data: seq<byte>): (r: Result<seq<ModulatorList>, ParseError>)
    ensures r.Ok? <==> chunk.chunkType == "pmod"
    ensures r.Ok? ==> forall k | 0 <= k < |r.value| :: !r.value[k].IsEnd()
    ensures r.Ok? ==> LongestRun(r.value, data, chunk.offset, chunk.offset + chunk.size, ModulatorListSize, ModulatorListAt, Some(EndOfModulators))
  {
    ChunkObjects(chunk, data, "pmod", ModulatorListSize, ModulatorListAt, Some(EndOfModulators))
  }

  /** `parsePgen`: generators up to the zero terminator. */
  function Pgen(chunk: Chunk, data: seq<byte>): (r: Result<seq<GeneratorList>, ParseError>)
    ensures r.Ok? <==> chunk.chunkType == "pgen"
    ensures r.Ok? ==> forall k | 0 <= k < |r.value| :: !r.value[k].IsEnd()
    ensures r.Ok? ==> LongestRun(r.value, data, chunk.offset, chunk.offset + chunk.size, GeneratorListSize, GeneratorListAt, Some(EndOfGenerators))
  {
    ChunkObjects(chunk, data, "pgen", GeneratorListSize, GeneratorListAt, Some(EndOfGenerators))
  }

  /** `parseInst`: instruments up to the "EOI" terminator. */
  function Inst(chunk: Chunk, data: seq<byte>): (r: Result<seq<Instrument>, ParseError>)
    ensures r.Ok? <==> chunk.chunkType == "inst"
    ensures r.Ok? ==> forall k | 0 <= k < |r.value| :: !r.value[k].IsEnd()
    ensures r.Ok? ==> LongestRun(r.value, data, chunk.offset, chunk.offset + chunk.size, InstrumentSize, InstrumentAt, Some(EndOfInstruments))
  {
    ChunkObjects(chunk, data, "inst", InstrumentSize, InstrumentAt, Some(EndOfInstruments))
  }

  /** `parseIbag`: bags until the chunk's end, no terminator. */
  function Ibag(chunk: Chunk, data: seq<byte>): (r: Result<seq<Bag>, ParseError>)
    ensures r.Ok? <==> chunk.chunkType == "ibag"
    ensures r.Ok? ==> LongestRun(r.value, data, chunk.offset, chunk.offset + chunk.size, BagSize, BagAt, None)
  {
    ChunkObjects(chunk, data, "ibag", BagSize, BagAt, None)
  }

  /** `parseImod`: modulators up to the all-zero terminator. */
  function Imod(chunk: Chunk, data: seq<byte>): (r: Result<seq<ModulatorList>, ParseError>)
    ensures r.Ok? <==> chunk.chunkType == "imod"
    ensures r.Ok? ==> forall k | 0 <= k < |r.value| :: !r.value[k].IsEnd()
    ensures r.Ok? ==> LongestRun(r.value, data, chunk.offset, chunk.offset + chunk.size, ModulatorListSize, ModulatorListAt, Some(EndOfModulators))
  {
    ChunkObjects(chunk, data, "imod", ModulatorListSize, ModulatorListAt, Some(EndOfModulators))
  }

  /** `parseIgen`: generators until the chunk's end; unlike pgen, no terminator. */
  function Igen(chunk: Chunk, data: seq<byte>): (r: Result<seq<GeneratorList>, ParseError>)
    ensures r.Ok? <==> chunk.chunkType == "igen"
    ensures r.Ok? ==> LongestRun(r.value, data, chunk.offset, chunk.offset + chunk.size, GeneratorListSize, GeneratorListAt, None)
  {
    ChunkObjects(chunk, data, "igen", GeneratorListSize, GeneratorListAt, None)
  }

  /** `parseShdr`: sample headers up to the "EOS" terminator, loop points per version. */
  function Shdr(chunk: Chunk, data: seq<byte>, isSF3: bool): (r: Result<seq<SampleHeader>, ParseError>)
    ensures r.Ok? <==> chunk.chunkType == "shdr"
    ensures r.Ok? ==> forall k | 0 <= k < |r.value| :: !r.value[k].IsEnd()
    ensures r.Ok? ==> LongestRun(r.value, data, chunk.offset, chunk.offset + chunk.size, SampleHeaderSize, SampleHeaderReader(isSF3), Some(EndOfSamples))
  {
    ChunkObjects(chunk, data, "shdr", SampleHeaderSize, SampleHeaderReader(isSF3), Some(EndOfSamples))
  }

  /** The records read without a terminator are the records laid end to end over the whole chunk. */
  lemma BagsCoverChunk(chunk: Chunk, data: seq<byte>)
    requires chunk.chunkType == "pbag" && chunk.size > 0
    ensures var bags := Pbag(chunk, data).value;
      |bags| > 0 && (|bags| - 1) * BagSize < chunk.size <= |bags| * BagSize
      && forall k | 0 <= k < |bags| :: bags[k] == BagAt(data, chunk.offset + k * BagSize)
  {
    UnterminatedCovers(data, chunk.offset, chunk.offset + chunk.size, BagSize, BagAt);
    RecordsAreLongestRun(data, chunk.offset, chunk.offset + chunk.size, BagSize, BagAt, None);
  }

  /**
   * igen stops by size only, so a zero record inside the chunk is returned like any
   * other, while pgen stops before it.
   */
  lemma IgenKeepsZeroRecord(chunk: Chunk, data: seq<byte>)
    requires chunk.size > 0
    requires GeneratorListAt(data, chunk.offset).IsEnd()
    ensures Igen(chunk.(chunkType := "igen"), data).value[0].IsEnd()
    ensures Pgen(chunk.(chunkType := "pgen"), data).value == []
  {
  }

  // ---------------------------------------------------------------- lists

  /** `parseInfoList`. */
  function InfoList(chunk: Chunk, data: seq<byte>): (r: Result<Info, ParseError>)
    ensures r.Ok? <==> ChunkList(chunk, data, "LIST", "INFO", DefaultOptions).Ok?
    ensures r.Ok? ==> r.value == InfoOf(data, ChunkList(chunk, data, "LIST", "INFO", DefaultOptions).value)
  {
    var chunkList :- ChunkList(chunk, data, "LIST", "INFO", DefaultOptions);
    Ok(InfoOf(data, chunkList))
  }

  /**
   * `parseSdtaList`: the first sub-chunk's payload offset is the 16-bit sample data,
   * the second's (if any) the 24-bit extension.  No sub-chunk at all is a TypeError.
   */
  function SdtaList(chunk: Chunk, data: seq<byte>): (r: Result<SamplingData, ParseError>)
    ensures var cs := ChunkList(chunk, data, "LIST", "sdta", DefaultOptions);
      (r.Ok? <==> cs.Ok? && |cs.value| > 0)
      && (cs.Ok? && |cs.value| == 0 ==> r == Err(TypeError("offset")))
      && (r.Ok? ==> r.value.offsetMSB == cs.value[0].offset
                    && (r.value.offsetLSB.Some? <==> |cs.value| > 1)
                    && (|cs.value| > 1 ==> r.value.offsetLSB == Some(cs.value[1].offset)))
  {
    var chunkList :- ChunkList(chunk, data, "LIST", "sdta", DefaultOptions);
    if |chunkList| == 0 then Err(TypeError("offset"))
    else Ok(SamplingData(chunkList[0].offset, if |chunkList| > 1 then Some(chunkList[1].offset) else None))
  }

  /** The sub-chunk tags a successful pdta list had, in order. */
  predicate PdtaOrder(cs: seq<Chunk>) {
    |cs| == 9 && cs[0].chunkType == "phdr" && cs[1].chunkType == "pbag" && cs[2].chunkType == "pmod"
    && cs[3].chunkType == "pgen" && cs[4].chunkType == "inst" && cs[5].chunkType == "ibag"
    && cs[6].chunkType == "imod" && cs[7].chunkType == "igen" && cs[8].chunkType == "shdr"
  }

  /** No list read with a terminator holds one. */
  predicate NoTerminators(p: Pdta) {
    (forall k | 0 <= k < |p.presetHeaders| :: !p.presetHeaders[k].IsEnd())
    && (forall k | 0 <= k < |p.presetModulators| :: !p.presetModulators[k].IsEnd())
    && (forall k | 0 <= k < |p.presetGenerators| :: !p.presetGenerators[k].IsEnd())
    && (forall k | 0 <= k < |p.instruments| :: !p.instruments[k].IsEnd())
    && (forall k | 0 <= k < |p.instrumentModulators| :: !p.instrumentModulators[k].IsEnd())
    && (forall k | 0 <= k < |p.sampleHeaders| :: !p.sampleHeaders[k].IsEnd())
  }

  /** `parsePdtaList`: exactly nine sub-chunks, read in order phdr ... shdr. */
  function PdtaList(chunk: Chunk, data: seq<byte>, isSF3: bool): (r: Result<Pdta, ParseError>)
    ensures var cs := ChunkList(chunk, data, "LIST", "pdta", DefaultOptions);
      (cs.Err? ==> r == Err(cs.error))
      && (cs.Ok? && |cs.value| != 9 ==> r == Err(InvalidPdtaChunk))
      && (cs.Ok? && |cs.value| == 9 && r.Err? ==> r.error.InvalidChunkType?)
      && (r.Ok? <==> cs.Ok? && PdtaOrder(cs.value))
    ensures r.Ok? ==> NoTerminators(r.value)
    ensures r.Ok? ==> var cs := ChunkList(chunk, data, "LIST", "pdta", DefaultOptions).value;
      r.value == Pdta(Phdr(cs[0], data).value, Pbag(cs[1], data).value, Pmod(cs[2], data).value,
                      Pgen(cs[3], data).value, Inst(cs[4], data).value, Ibag(cs[5], data).value,
                      Imod(cs[6], data).value, Igen(cs[7], data).value, Shdr(cs[8], data, isSF3).value)
  {
    var chunkList :- ChunkList(chunk, data, "LIST", "pdta", DefaultOptions);
    if |chunkList| != 9 then Err(InvalidPdtaChunk)
    else
      var presetHeaders :- Phdr(chunkList[0], data);
      var presetZone :- Pbag(chunkList[1], data);
      var presetModulators :- Pmod(chunkList[2], data);
      var presetGenerators :- Pgen(chunkList[3], data);
      var instruments :- Inst(chunkList[4], data);
      var instrumentZone :- Ibag(chunkList[5], data);
      var instrumentModulators :- Imod(chunkList[6], data);
      var instrumentGenerators :- Igen(chunkList[7], data);
      var sampleHeaders :- Shdr(chunkList[8], data, isSF3);
      Ok(Pdta(presetHeaders, presetZone, presetModulators, presetGenerators, instruments,
              instrumentZone, instrumentModulators, instrumentGenerators, sampleHeaders))
  }

  method ParseInfoList(chunk: Chunk, data: seq<byte>) returns (r: Result<Info, ParseError>)
    ensures r == InfoList(chunk, data)
  {
    var chunkList :- GetChunkList(chunk, data, "LIST", "INFO", DefaultOptions);
    var info := ParseInfo(data, chunkList);
    return Ok(info);
  }

  method ParseSdtaList(chunk: Chunk, data: seq<byte>) returns (r: Result<SamplingData, ParseError>)
    ensures r == SdtaList(chunk, data)
  {
    var chunkList :- GetChunkList(chunk, data, "LIST", "sdta", DefaultOptions);
    if |chunkList| == 0 {
      return Err(TypeError("offset"));
    }
    var offsetLSB := if |chunkList| > 1 then Some(chunkList[1].offset) else None;
    return Ok(SamplingData(chunkList[0].offset, offsetLSB));
  }

  /** The record lists of pdta, each read by the record loop. */
  method ParsePdtaList(chunk: Chunk, data: seq<byte>, isSF3: bool) returns (r: Result<Pdta, ParseError>)
    ensures r == PdtaList(chunk, data, isSF3)
  {
    var chunkList :- GetChunkList(chunk, data, "LIST", "pdta", DefaultOptions);
    if |chunkList| != 9 {
      return Err(InvalidPdtaChunk);
    }
    var presetHeaders :- ParseChunkObjects(chunkList[0], data, "phdr", PresetHeaderSize, PresetHeaderAt, Some(EndOfPresets));
    var presetZone :- ParseChunkObjects(chunkList[1], data, "pbag", BagSize, BagAt, None);
    var presetModulators :- ParseChunkObjects(chunkList[2], data, "pmod", ModulatorListSize, ModulatorListAt, Some(EndOfModulators));
    var presetGenerators :- ParseChunkObjects(chunkList[3], data, "pgen", GeneratorListSize, GeneratorListAt, Some(EndOfGenerators));
    var instruments :- ParseChunkObjects(chunkList[4], data, "inst", InstrumentSize, InstrumentAt, Some(EndOfInstruments));
    var instrumentZone :- ParseChunkObjects(chunkList[5], data, "ibag", BagSize, BagAt, None);
    var instrumentModulators :- ParseChunkObjects(chunkList[6], data, "imod", ModulatorListSize, ModulatorListAt, Some(EndOfModulators));
    var instrumentGenerators :- ParseChunkObjects(chunkList[7], data, "igen", GeneratorListSize, GeneratorListAt, None);
    var sampleHeaders :- ParseChunkObjects(chunkList[8], data, "shdr", SampleHeaderSize, SampleHeaderReader(isSF3), Some(EndOfSamples));
    return Ok(Pdta(presetHeaders, presetZone, presetModulators, presetGenerators, instruments,
                   instrumentZone, instrumentModulators, instrumentGenerators, sampleHeaders));
  }

  // ---------------------------------------------------------------- parseRiffChunk

  /**
   * The SoundFont 3 shim: when the third sfbk entry of a version-3 file is not a LIST,
   * the walk has stepped over a pad byte the file did not have, and its header is read
   * again one byte earlier (payload offset less 9), always little-endian.
   */
  function PdtaChunk(data: seq<byte>, c: Chunk, isSF3: bool): (r: Chunk)
    ensures !(isSF3 && c.chunkType != "LIST") ==> r == c
    ensures isSF3 && c.chunkType != "LIST" ==> r == ChunkAt(data, Start(c) - 1, false) && Start(r) == Start(c) - 1
  {
    if isSF3 && c.chunkType != "LIST" then ChunkAt(data, c.offset - 9, false) else c
  }

  /** `info.version.major === 3`; reading `major` of a missing version is a TypeError. */
  function IsSF3(info: Info): (r: Result<bool, ParseError>)
    ensures r.Err? <==> info.version.None?
    ensures r.Ok? ==> (r.value <==> info.version.value.major == 3)
  {
    if info.version.None? then Err(TypeError("major")) else Ok(info.version.value.major == 3)
  }

  /**
   * `parseRiffChunk`: the RIFF chunk must be an sfbk form of exactly three lists, read
   * in order INFO, sdta, pdta (the pdta list possibly re-read by the shim).
   */
  function SfbkOf(chunk: Chunk, data: seq<byte>, opts: Options): (r: Result<Sfbk, ParseError>)
    ensures ChunkList(chunk, data, "RIFF", "sfbk", opts).Err? ==> r.Err?
    ensures ChunkList(chunk, data, "RIFF", "sfbk", opts).Ok? ==> r == SfbkLists(ChunkList(chunk, data, "RIFF", "sfbk", opts).value, data)
  {
    var chunkList :- ChunkList(chunk, data, "RIFF", "sfbk", opts);
    SfbkLists(chunkList, data)
  }

  /** The three lists of the sfbk form, in order INFO, sdta, pdta. */
  function SfbkLists(cs: seq<Chunk>, data: seq<byte>): (r: Result<Sfbk, ParseError>)
    ensures |cs| != 3 ==> r == Err(InvalidSfbkStructure)
    ensures r.Ok? ==>
      |cs| == 3 && r.value.info.version.Some?
      && Ok(r.value.info) == InfoList(cs[0], data)
      && Ok(r.value.samplingData) == SdtaList(cs[1], data)
      && Ok(r.value.pdta) == PdtaList(PdtaChunk(data, cs[2], r.value.info.version.value.major == 3),
                                      data, r.value.info.version.value.major == 3)
  {
    if |cs| != 3 then Err(InvalidSfbkStructure)
    else
      var info :- InfoList(cs[0], data);
      var isSF3 :- IsSF3(info);
      var samplingData :- SdtaList(cs[1], data);
      var pdta :- PdtaList(PdtaChunk(data, cs[2], isSF3), data, isSF3);
      Ok(Sfbk(info, samplingData, pdta))
  }

  /** `parseRiffChunk`, with the shim's in-place replacement of `chunkList[2]`. */
  method ParseRiffChunk(chunk: Chunk, data: seq<byte>, opts: Options) returns (r: Result<Sfbk, ParseError>)
    ensures r == SfbkOf(chunk, data, opts)
  {
    var chunkList :- GetChunkList(chunk, data, "RIFF", "sfbk", opts);
    ghost var cs := chunkList;
    assert SfbkOf(chunk, data, opts) == SfbkLists(cs, data);
    if |chunkList| != 3 {
      return Err(InvalidSfbkStructure);
    }
    var info :- ParseInfoList(chunkList[0], data);
    if info.version.None? {
      return Err(TypeError("major"));
    }
    var isSF3 := info.version.value.major == 3;
    if isSF3 && chunkList[2].chunkType != "LIST" {
      var c := ParseChunk(data, chunkList[2].offset - 9, false);
      chunkList := chunkList[2 := c];
    }
    assert chunkList[1] == cs[1] && chunkList[2] == PdtaChunk(data, cs[2], isSF3);
    var samplingData :- ParseSdtaList(chunkList[1], data);
    var pdta :- ParsePdtaList(chunkList[2], data, isSF3);
    return Ok(Sfbk(info, samplingData, pdta));
  }

  // ---------------------------------------------------------------- loadSample

  /** Sample positions count 16-bit words in a SoundFont 2 file and bytes in a SoundFont 3 file. */
  function Unit(isSF3: bool): nat {
    if isSF3 then 1 else 2
  }

  /** One sample's bytes: `data.subarray(msb + start·u, msb + end·u)`, copied. */
  function SampleBytes(h: SampleHeader, msb: int, data: seq<byte>, isSF3: bool): (s: seq<byte>)
    ensures var lo, hi := msb + Unit(isSF3) * h.start, msb + Unit(isSF3) * h.end;
      (0 <= lo <= hi <= |data| ==> s == data[lo..hi])
      && (h.start <= h.end ==> |s| <= Unit(isSF3) * (h.end - h.start))
  {
    var u := Unit(isSF3);
    assert u * h.end - u * h.start == u * (h.end - h.start) by {
      if isSF3 { assert u == 1; } else { assert u == 2; }
    }
    Subarray(data, msb + u * h.start, msb + u * h.end)
  }

  /** `loadSample`: one slice per header, in header order. */
  function LoadSample(sampleHeader: seq<SampleHeader>, offsetMSB: int, data: seq<byte>, isSF3: bool)
    : (samples: seq<seq<byte>>)
    ensures |samples| == |sampleHeader|
    ensures forall i | 0 <= i < |sampleHeader| :: samples[i] == SampleBytes(sampleHeader[i], offsetMSB, data, isSF3)
  {
    seq(|sampleHeader|, i requires 0 <= i < |sampleHeader| => SampleBytes(sampleHeader[i], offsetMSB, data, isSF3))
  }

  // ---------------------------------------------------------------- parse

  /** `parse(input, option)` as a value. */
  function Parsed(input: seq<byte>, opts: Options): (r: Result<ParseResult, ParseError>)
    ensures var cs := Riff(input, 0, |input|, opts);
      (|cs| != 1 ==> r == Err(WrongChunkLength))
      && (|cs| == 1 && SfbkOf(cs[0], input, opts).Err? ==> r == Err(SfbkOf(cs[0], input, opts).error))
      && (r.Ok? <==> |cs| == 1 && SfbkOf(cs[0], input, opts).Ok?)
    ensures r.Ok? ==> r.value.info.version.Some?
    ensures r.Ok? ==> var s := SfbkOf(Riff(input, 0, |input|, opts)[0], input, opts).value;
      r.value.info == s.info && r.value.samplingData == s.samplingData
      && r.value.presetHeaders == s.pdta.presetHeaders && r.value.presetZone == s.pdta.presetZone
      && r.value.presetModulators == s.pdta.presetModulators && r.value.presetGenerators == s.pdta.presetGenerators
      && r.value.instruments == s.pdta.instruments && r.value.instrumentZone == s.pdta.instrumentZone
      && r.value.instrumentModulators == s.pdta.instrumentModulators
      && r.value.instrumentGenerators == s.pdta.instrumentGenerators && r.value.sampleHeaders == s.pdta.sampleHeaders
    ensures r.Ok? ==> |r.value.samples| == |r.value.sampleHeaders|
    ensures r.Ok? ==>
      r.value.samples ==
        LoadSample(r.value.sampleHeaders, r.value.samplingData.offsetMSB, input, r.value.info.version.value.major == 3)
  {
    var chunkList := Riff(input, 0, |input|, opts);
    if |chunkList| != 1 then Err(WrongChunkLength)
    else
      var result :- SfbkOf(chunkList[0], input, opts);
      var isSF3 := result.info.version.value.major == 3;
      var p := result.pdta;
      Ok(ParseResult(p.presetHeaders, p.presetZone, p.presetModulators, p.presetGenerators, p.instruments,
                     p.instrumentZone, p.instrumentModulators, p.instrumentGenerators, p.sampleHeaders,
                     LoadSample(p.sampleHeaders, result.samplingData.offsetMSB, input, isSF3),
                     result.samplingData, result.info))
  }

  /** `parse`. */
  method Parse(input: seq<byte>, opts: Options) returns (r: Result<ParseResult, ParseError>)
    ensures r == Parsed(input, opts)
  {
    var chunkList := ParseRiff(input, 0, |input|, opts);
    if |chunkList| != 1 {
      return Err(WrongChunkLength);
    }
    var result :- ParseRiffChunk(chunkList[0], input, opts);
    var isSF3 := result.info.version.value.major == 3;
    var p := result.pdta;
    var samples := LoadSample(p.sampleHeaders, result.samplingData.offsetMSB, input, isSF3);
    return Ok(ParseResult(p.presetHeaders, p.presetZone, p.presetModulators, p.presetGenerators, p.instruments,
                          p.instrumentZone, p.instrumentModulators, p.instrumentGenerators, p.sampleHeaders,
                          samples, result.samplingData, result.info));
  }

  /** A successful parse read a single RIFF chunk, whose sfbk form split into three lists. */
  lemma ParsedStructure(input: seq<byte>, opts: Options)
    requires Parsed(input, opts).Ok?
    ensures var cs := Riff(input, 0, |input|, opts);
      |cs| == 1 && ChunkList(cs[0], input, "RIFF", "sfbk", opts).Ok?
      && |ChunkList(cs[0], input, "RIFF", "sfbk", opts).value| == 3
    ensures var p := Parsed(input, opts).value;
      (forall k | 0 <= k < |p.presetHeaders| :: !p.presetHeaders[k].IsEnd())
      && (forall k | 0 <= k < |p.instruments| :: !p.instruments[k].IsEnd())
      && (forall k | 0 <= k < |p.sampleHeaders| :: !p.sampleHeaders[k].IsEnd())
  {
  }

  /** Decoded generator records are well typed, so every run of them is. */
  lemma GeneratorRunWellTyped(r: seq<GeneratorList>, data: seq<byte>, offset: int, end: int,
                              terminate: Option<GeneratorList -> bool>)
    requires LongestRun(r, data, offset, end, GeneratorListSize, GeneratorListAt, terminate)
    ensures forall k | 0 <= k < |r| :: WellTyped(r[k])
  {
    forall k | 0 <= k < |r| ensures WellTyped(r[k]) {
      DecodedGeneratorWellTyped(data, offset + k * GeneratorListSize);
    }
  }

  /** pgen and igen hold decoded records only. */
  lemma GeneratorChunkWellTyped(chunk: Chunk, data: seq<byte>)
    ensures Pgen(chunk, data).Ok? ==> forall k | 0 <= k < |Pgen(chunk, data).value| :: WellTyped(Pgen(chunk, data).value[k])
    ensures Igen(chunk, data).Ok? ==> forall k | 0 <= k < |Igen(chunk, data).value| :: WellTyped(Igen(chunk, data).value[k])
  {
    var end := chunk.offset + chunk.size;
    if Pgen(chunk, data).Ok? {
      GeneratorRunWellTyped(Pgen(chunk, data).value, data, chunk.offset, end, Some(EndOfGenerators));
    }
    if Igen(chunk, data).Ok? {
      GeneratorRunWellTyped(Igen(chunk, data).value, data, chunk.offset, end, None);
    }
  }

  /** The generator lists of a pdta list are runs of decoded records. */
  lemma PdtaGeneratorsWellTyped(chunk: Chunk, data: seq<byte>, isSF3: bool)
    requires PdtaList(chunk, data, isSF3).Ok?
    ensures var p := PdtaList(chunk, data, isSF3).value;
      (forall k | 0 <= k < |p.presetGenerators| :: WellTyped(p.presetGenerators[k]))
      && (forall k | 0 <= k < |p.instrumentGenerators| :: WellTyped(p.instrumentGenerators[k]))
  {
    var cs := ChunkList(chunk, data, "LIST", "pdta", DefaultOptions).value;
    GeneratorChunkWellTyped(cs[3], data);
    GeneratorChunkWellTyped(cs[7], data);
  }

  /** Both generator lists of a successful parse hold only decoded, hence well-typed, records. */
  lemma ParsedGeneratorsWellTyped(input: seq<byte>, opts: Options)
    requires Parsed(input, opts).Ok?
    ensures var p := Parsed(input, opts).value;
      (forall k | 0 <= k < |p.presetGenerators| :: WellTyped(p.presetGenerators[k]))
      && (forall k | 0 <= k < |p.instrumentGenerators| :: WellTyped(p.instrumentGenerators[k]))
  {
    var cs := Riff(input, 0, |input|, opts);
    assert |cs| == 1 && SfbkOf(cs[0], input, opts).Ok?;
    var s := SfbkOf(cs[0], input, opts).value;
    var lists := ChunkList(cs[0], input, "RIFF", "sfbk", opts).value;
    assert SfbkLists(lists, input) == Ok(s);
    var isSF3 := s.info.version.value.major == 3;
    assert PdtaList(PdtaChunk(input, lists[2], isSF3), input, isSF3) == Ok(s.pdta);
    PdtaGeneratorsWellTyped(PdtaChunk(input, lists[2], isSF3), input, isSF3);
  }
}
