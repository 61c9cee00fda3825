# soundfont-parser in Dafny

A Dafny model of the decode-and-resolve core of soundfont-parser, a TypeScript
reader of SoundFont 2 and SoundFont 3 files, with proofs of what each part
promises. The model follows the code; where the code departs from the SoundFont
2.04 specification, so does the model.

The model follows the program's structure, one Dafny module per source file:

- `ByteStream` (src/Stream.ts) is a byte cursor `Stream`. Its fields are the buffer
  and an `offset` that every read advances. It provides little- and big-endian
  unsigned reads, two's-complement signed reads, and a fixed-width NUL-terminated
  string read, with encoders and round-trip lemmas. A read past the end of the
  buffer gives 0, as the JavaScript bit operators do with `undefined`.
- `StringReader` (src/readString.ts) is the stateless string reader. It cuts at the
  first NUL only when that NUL is not the first byte. The module proves where it
  agrees with the cursor's reader and where it differs.
- `RiffParser` is the chunk header reader and the `parseRiff` loop with its
  pad-byte rule. The loop is proved equal to a recursive walk. Lemmas show the
  walk's order, bounds and word alignment.
- `Structs` holds the record decoders:
  - version tag, INFO list, bag, preset header, range, modulator, generator,
    instrument and sample header;
  - their terminator predicates, `RangeValue.in` and `BoundedValue.clamp`;
  - an encoder for each record and a round-trip lemma.
  Each cursor method is proved equal to a decoding function.
- `Parser` models `parse`, which proceeds in this order:
  - it checks the top-level chunk, the sfbk form and the list types and
    signatures;
  - it reads terminated and unterminated record lists;
  - it applies the SoundFont 3 header shim;
  - it cuts one sample slice per sample header.
  Every error the code throws is a `ParseError` value, not an exception.
- `Constants` is the generator enumerator table of section 8.1.2 of the SoundFont
  2.04 specification (Constants.ts is not part of this model). Its 52 names are a
  datatype and the reserved codes have no name.
- `Generator` and `GeneratorParams` (the older twin) build the per-zone generator
  dictionaries:
  - the last record for a name wins;
  - names excluded from presets are skipped;
  - `keynum` and `velocity` become single-point ranges;
  - the default table supplies the bounds.
  `GeneratorParams` is proved to agree with `Generator` table for table and
  dictionary for dictionary.
- `Modulator` and `DefaultModulators` cover the modulator source bit fields, their
  packing and unpacking, the polarity, direction and curve mapping, and the table
  of ten default modulators.
- `Voice` is a class holding the resolved generators and modulators. Its
  constructor builds the controller-to-destinations and destination-to-modulators
  indexes. Its methods `transformParams`, `transformAllParams`, `getParams` and
  `getAllParams` are proved equal to functions, and lemmas state what those
  functions add, write and keep.
- `SoundFont` is the resolver class over a parse result. It covers:
  - the bag slicing;
  - the first-match instrument zone and preset zone searches, with the global
    zone overlay and the key and velocity filter;
  - `createVoice`, `getVoice` and `getPresetNames`.

Loops in the source are `while` or `for` loops here, proved against specification
functions. Errors the JavaScript would throw are `Result` values: a negative array
length is `RangeError`, a property read on `undefined` is `UndefinedRead`, and a
missing sample header in the voice is an error.

One point follows the code rather than the standard. `createVoice` overwrites an
instrument value with the preset value of the same name
(src/SoundFont.ts:191-195). Section 8.5 of the SoundFont 2.04 specification says
to add it. `SoundFont.VoiceGeneratorsRule` states the overwrite.

Some references in the source are dangling or mid-refactor. The model gives each
its evident meaning:
- `stream.ip` is the cursor `offset`.
- `DefaultInstrumentZone[key].clamp(x)` clamps the value of `x` into the default's
  bounds.
- `convertToInstrumentGeneratorParams(defaultInstrumentZone)` is a copy of the
  default table.
- `modulator.transform` is a function parameter.
- `sourceOper` and `amountSourceOper` are decoded sources (`Modulator.Decode`).
- A `BoundedValue` used as a number is its `.value`.
- `ValueGeneratorKeys` lists the value names in enumerator order.

## Model

| member | source | states |
|---|---|---|
| ByteStream.Signed8 | src/Stream.ts:59-61 | the `(b << 24) >> 24` reading of a byte lies in [-128, 128) and is congruent to the byte modulo 256 |
| ByteStream.Signed16 | src/Stream.ts:67-69 | the `(w << 16) >> 16` reading of a word lies in [-32768, 32768) and is congruent to the word modulo 65536 |
| ByteStream.Subarray | src/Stream.ts:11 | `subarray(b, e)` is the slice `data[b..e]` for in-range bounds and never longer than `e - b` |
| ByteStream.IndexOfZero | src/Stream.ts:11 | `indexOf(0)` is -1 or a position holding zero, and no zero byte precedes it (none at all when -1) |
| ByteStream.ZeroBeforeFirst | src/Stream.ts:11 | a zero at `p` with no zero before it is what `indexOf(0)` returns |
| ByteStream.FirstNul | src/Stream.ts:11 | the first NUL of the `size`-byte window is -1 or a position inside the window |
| ByteStream.FirstNulInside | src/Stream.ts:11 | inside the buffer, the first NUL of the window is a zero byte of the buffer and no NUL precedes it |
| ByteStream.FirstNulAt | src/Stream.ts:11 | inside the buffer, a zero with none before it is the first NUL of the window |
| ByteStream.FirstNulNone | src/Stream.ts:11-12 | a window inside the buffer without zero bytes has no first NUL |
| ByteStream.Chars | src/Stream.ts:13-16 | the copied characters number exactly `n` |
| ByteStream.CharsSlice | src/Stream.ts:13-18 | inside the buffer the copied characters are the Latin-1 string of the slice |
| ByteStream.FieldLength | src/Stream.ts:11-12 | the kept length never exceeds the field size |
| ByteStream.FixedString | src/Stream.ts:7-19 | the string read from a fixed field is at most `size` characters |
| ByteStream.FixedStringWhole | src/Stream.ts:11-18 | a field without NUL inside the buffer reads back as its whole Latin-1 text |
| ByteStream.FixedStringCut | src/Stream.ts:11-18 | a first NUL at `p` cuts the field to its first `p` characters |
| ByteStream.FixedStringLeadingNul | src/Stream.ts:11-18 | a NUL in the first byte of the field gives the empty string |
| ByteStream.EncodeFixedString | src/Stream.ts:7-19 | the NUL-padded encoding of a name fills exactly `size` bytes (the inverse used by the round trips) |
| ByteStream.WordRoundTrip | src/Stream.ts:21-23 | reading a little-endian word back from its two-byte encoding gives the value |
| ByteStream.DWordRoundTrip | src/Stream.ts:25-43 | reading a double word back from its four-byte encoding gives the value, in both byte orders |
| ByteStream.Signed16RoundTrip | src/Stream.ts:67-69 | a signed 16-bit value stored as two's complement reads back as itself |
| ByteStream.EncodedFieldLength | src/Stream.ts:11-12 | the padding of an encoded field makes the kept length the name's length |
| ByteStream.FixedStringRoundTrip | src/Stream.ts:7-19 | a name of non-NUL Latin-1 characters encoded in a field reads back as the same name |
| ByteStream.CopyChars | src/Stream.ts:13-16 | the character loop produces exactly the characters of the `n` bytes from `start` |
| ByteStream.Stream.constructor | src/Stream.ts:2-5 | the stream holds the buffer and starts at the given offset |
| ByteStream.Stream.ReadString | src/Stream.ts:7-19 | returns the fixed-field string at the old cursor and moves the cursor by `size`, whatever the NUL position |
| ByteStream.Stream.ReadWORD | src/Stream.ts:21-23 | returns the little-endian word at the cursor and moves it by 2 |
| ByteStream.Stream.ReadDWORD | src/Stream.ts:25-43 | returns the unsigned 32-bit value at the cursor in the requested byte order and moves it by 4 |
| ByteStream.Stream.ReadByte | src/Stream.ts:45-47 | returns the byte at the cursor and moves it by 1 |
| ByteStream.Stream.ReadAt | src/Stream.ts:49-51 | returns the byte `k` places past the cursor and leaves the cursor alone |
| ByteStream.Stream.ReadUInt8 | src/Stream.ts:55-57 | the byte at the cursor, cursor moved by 1 |
| ByteStream.Stream.ReadInt8 | src/Stream.ts:59-61 | the signed byte at the cursor, cursor moved by 1 |
| ByteStream.Stream.ReadUInt16 | src/Stream.ts:63-65 | the unsigned word at the cursor, cursor moved by 2 |
| ByteStream.Stream.ReadInt16 | src/Stream.ts:67-69 | the signed word at the cursor, cursor moved by 2 |
| ByteStream.Stream.ReadUInt32 | src/Stream.ts:71-73 | the little-endian double word at the cursor, cursor moved by 4 |
| StringReader.ReadString | src/readString.ts:1-13 | the result is a prefix of the Latin-1 text of the window and no longer than the window |
| StringReader.Inside | src/readString.ts:6-8 | inside the buffer `subarray` is the slice and its first NUL is the window's first NUL |
| StringReader.ReadStringCut | src/readString.ts:8-11 | a first NUL at position `p > 0` cuts the result to the `p` characters before it |
| StringReader.ReadStringWhole | src/readString.ts:8-13 | without a NUL, or with the NUL in the first position, the whole window is returned |
| StringReader.AgreesWithStream | src/readString.ts:1-13 | this reader and the cursor's `readString` agree unless the window starts with NUL |
| StringReader.LeadingNulDiffers | src/readString.ts:9 | with a leading NUL the cursor's reader gives "" while this one returns the whole window |
| RiffParser.ParseChunk | src/RiffParser.ts:3-12 | the chunk read at `offset` is the 4-character tag, the size in the requested byte order and the payload offset `offset + 8` |
| RiffParser.ByteOrderOnlyAffectsSize | src/RiffParser.ts:9-11 | the byte order changes only the size, never the tag or the payload offset |
| RiffParser.ChunkHeaderRoundTrip | src/RiffParser.ts:3-12 | a header encoded as tag then size reads back as exactly that chunk |
| RiffParser.NextOffset | src/RiffParser.ts:31-36 | the walk always moves to the end of the payload or one byte past it |
| RiffParser.ParseRiff | src/RiffParser.ts:19-42 | the header loop returns exactly the chunk walk from `index` to `index + length` |
| RiffParser.PadRule | src/RiffParser.ts:31-36 | the loop's offset update, including the pad byte on an odd distance, is the walk's next offset |
| RiffParser.WalkStep | src/RiffParser.ts:29-39 | one loop iteration reads a chunk and continues the walk from its next offset |
| RiffParser.RiffEmpty | src/RiffParser.ts:26-29 | a non-positive length yields no chunks |
| RiffParser.RiffFirst | src/RiffParser.ts:26-30 | the list is nonempty exactly when the length is positive, and then starts with the chunk at `index` |
| RiffParser.WalkChained | src/RiffParser.ts:29-39 | every chunk of the walk is the header read at its own position and each starts where its predecessor's next offset lies |
| RiffParser.WalkHead | src/RiffParser.ts:29-30 | a walk with room starts with the chunk at its offset |
| RiffParser.RiffInFileOrder | src/RiffParser.ts:29-39 | chunks come back in file order, each at least 8 header bytes plus its predecessor's size after it |
| RiffParser.RiffBounds | src/RiffParser.ts:26-30 | every chunk starts inside `[index, index + length)` |
| RiffParser.PaddedNextIsEven | src/RiffParser.ts:34-36 | with padding on, the next offset lies an even distance from `index` |
| RiffParser.WalkEven | src/RiffParser.ts:29-39 | with padding on, a walk begun at an even distance stays at even distances |
| RiffParser.RiffPaddingEven | src/RiffParser.ts:23-39 | with padding on, every chunk header starts an even distance from `index` (word alignment of section 5 of the RIFF format) |
| Structs.ParseVersionTag | src/Structs.ts:11-15 | reads the signed major and minor bytes at the cursor and advances it by 2 |
| Structs.FindChunk | src/Structs.ts:34-39 | a chunk is found exactly when some chunk carries the tag, and the one found carries it |
| Structs.FindChunkFirst | src/Structs.ts:35-37 | the first chunk with the tag is the one returned |
| Structs.GetChunk | src/Structs.ts:34-39 | the search loop returns exactly the first chunk carrying the tag, or nothing |
| Structs.InfoStringSource | src/Structs.ts:45-49 | a tag no chunk carries yields null; otherwise the fixed string of the first chunk with the tag is read |
| Structs.ReadInfoString | src/Structs.ts:45-49 | the INFO string reader yields the string of the first chunk with the tag, or null |
| Structs.ReadInfoVersion | src/Structs.ts:51-55 | the INFO version reader yields the version tag of the first chunk with the tag, or null |
| Structs.ParseInfo | src/Structs.ts:33-81 | every INFO field is read from the first sub-chunk carrying its tag |
| Structs.ParseBag | src/Structs.ts:90-94 | reads the generator and modulator indices as two words and advances the cursor by 4 |
| Structs.EncodeBag | src/Structs.ts:90-94 | the encoding of a bag is 4 bytes |
| Structs.BagRoundTrip | src/Structs.ts:90-94 | an encoded bag reads back as the same bag |
| Structs.ParsePresetHeader | src/Structs.ts:112-129 | reads the 38-byte preset header field by field and advances the cursor by 38 |
| Structs.EncodePresetHeader | src/Structs.ts:112-129 | the encoding of a preset header is 38 bytes |
| Structs.PresetHeaderRoundTrip | src/Structs.ts:112-129 | an encoded preset header reads back as the same header |
| Structs.DegenerateRange | src/Structs.ts:141-143 | the range `[v, v]` holds exactly `v` |
| Structs.ParseRangeValue | src/Structs.ts:145-149 | reads the low and high bytes and advances the cursor by 2 |
| Structs.ParseModulatorList | src/Structs.ts:175-188 | reads the 10-byte modulator record, the amount signed, and advances the cursor by 10 |
| Structs.ModulatorEndIsZeroBytes | src/Structs.ts:165-173 | a decoded modulator is the terminal record exactly when its ten bytes are zero |
| Structs.EncodeModulatorList | src/Structs.ts:175-188 | the encoding of a modulator record is 10 bytes |
| Structs.ModulatorListRoundTrip | src/Structs.ts:175-188 | an encoded modulator record reads back as the same record |
| Structs.ParseGeneratorList | src/Structs.ts:205-221 | reads the code, then a byte range for keyRange and velRange or a signed word otherwise, and advances the cursor by 4 |
| Structs.DecodedGeneratorWellTyped | src/Structs.ts:207-218 | a decoded generator holds a range exactly when its code names keyRange or velRange |
| Structs.GeneratorEndIsZeroBytes | src/Structs.ts:201-203 | a decoded generator is the terminal record exactly when its four bytes are zero |
| Structs.EncodeGeneratorList | src/Structs.ts:205-221 | the encoding of a generator record is 4 bytes |
| Structs.GeneratorListRoundTrip | src/Structs.ts:205-221 | an encoded well-typed generator record reads back as the same record |
| Structs.ParseInstrument | src/Structs.ts:232-237 | reads the 20-character name and the bag index and advances the cursor by 22 |
| Structs.EncodeInstrument | src/Structs.ts:232-237 | the encoding of an instrument record is 22 bytes |
| Structs.InstrumentRoundTrip | src/Structs.ts:232-237 | an encoded instrument record reads back as the same record |
| Structs.ParseSampleHeader | src/Structs.ts:258-287 | reads the 46-byte sample header, loop points made relative to `start` unless SoundFont 3, and advances the cursor by 46 |
| Structs.ReadSampleFields | src/Structs.ts:259-268 | the ten stored fields in order, loop points as stored |
| Structs.LoopPointsRelative | src/Structs.ts:270-273 | SoundFont 2 loop points are the stored ones less `start`, and no other field differs |
| Structs.EncodeSampleHeader | src/Structs.ts:258-287 | the encoding of a sample header is 46 bytes |
| Structs.SampleHeaderFields | src/Structs.ts:259-268 | the byte position of each field of an encoded sample header |
| Structs.SampleHeaderRoundTrip | src/Structs.ts:258-287 | an encoded sample header reads back as the same header, in both format versions |
| Structs.BoundedValue.Clamp | src/Structs.ts:312-314 | the clamped value lies in `[min, max]`, is the value itself inside, and the nearer bound outside |
| Structs.ClampIdempotent | src/Structs.ts:312-314 | clamping twice is clamping once |
| Parser.ChunkList | src/Parser.ts:118-140 | a wrong list type and a wrong signature are the two errors, in that order; otherwise the result is the chunk walk over the `size - 4` bytes after the signature, every sub-chunk starting inside the list |
| Parser.GetChunkList | src/Parser.ts:118-140 | the cursor-based reader computes exactly that result |
| Parser.RecordsAreLongestRun | src/Parser.ts:170-181 | the records collected are those laid end to end from the chunk's start, stopping before the first terminating record or at the chunk's end |
| Parser.UnterminatedCovers | src/Parser.ts:173-179 | without a terminator the records cover the whole chunk, the last one reaching or passing its end |
| Parser.ChunkObjects | src/Parser.ts:156-182 | fails exactly on a wrong chunk type, with that error; otherwise returns the records laid end to end from the chunk's start, stopping before the first terminating record or at the chunk's end, none of them terminating |
| Parser.ParseChunkObjects | src/Parser.ts:156-182 | the record loop computes exactly that result |
| Parser.Phdr | src/Parser.ts:184-185 | succeeds exactly on a phdr chunk; the result is the 38-byte preset headers laid end to end from the chunk's start, stopping before the first "EOP" header or at the chunk's end |
| Parser.Pbag | src/Parser.ts:186-187 | succeeds exactly on a pbag chunk; the result is the 4-byte bags laid end to end over the whole chunk, with no terminator |
| Parser.Pmod | src/Parser.ts:192-193 | succeeds exactly on a pmod chunk; the result is the 10-byte modulator records from the chunk's start, stopping before the first all-zero record or at the chunk's end |
| Parser.Pgen | src/Parser.ts:196-197 | succeeds exactly on a pgen chunk; the result is the 4-byte generator records from the chunk's start, stopping before the first zero record or at the chunk's end |
| Parser.Inst | src/Parser.ts:188-189 | succeeds exactly on an inst chunk; the result is the 22-byte instruments from the chunk's start, stopping before the first "EOI" record or at the chunk's end |
| Parser.Ibag | src/Parser.ts:190-191 | succeeds exactly on an ibag chunk; the result is the 4-byte bags laid end to end over the whole chunk, with no terminator |
| Parser.Imod | src/Parser.ts:194-195 | succeeds exactly on an imod chunk; the result is the 10-byte modulator records from the chunk's start, stopping before the first all-zero record or at the chunk's end |
| Parser.Igen | src/Parser.ts:198-199 | succeeds exactly on an igen chunk; the result is the 4-byte generator records laid end to end over the whole chunk, zero records included |
| Parser.Shdr | src/Parser.ts:200-201 | succeeds exactly on an shdr chunk; the result is the 46-byte sample headers, decoded for the file's version, from the chunk's start, stopping before the first "EOS" header or at the chunk's end |
| Parser.BagsCoverChunk | src/Parser.ts:186-187 | the bags of a nonempty pbag chunk are the 4-byte records laid out over the whole chunk |
| Parser.IgenKeepsZeroRecord | src/Parser.ts:196-199 | igen keeps a leading zero record that pgen stops at |
| Parser.InfoList | src/Parser.ts:142-145 | succeeds exactly when the INFO list checks pass, giving the INFO fields of its sub-chunks |
| Parser.SdtaList | src/Parser.ts:147-154 | the 16-bit data offset is the first sub-chunk's payload, the 24-bit one the second's if present, and an empty list is a TypeError |
| Parser.PdtaList | src/Parser.ts:82-101 | a failed list read passes its error on and a list of other than nine sub-chunks is an error; a sub-chunk with the wrong tag is an invalid-chunk-type error, so it succeeds exactly on the nine tags phdr to shdr in order; each of the nine fields is that wrapper's result on its sub-chunk, and no list holds its terminator |
| Parser.ParseInfoList | src/Parser.ts:142-145 | computes exactly the INFO list result |
| Parser.ParseSdtaList | src/Parser.ts:147-154 | computes exactly the sdta list result |
| Parser.ParsePdtaList | src/Parser.ts:82-101 | computes exactly the pdta list result with the record loops |
| Parser.PdtaChunk | src/Parser.ts:66-69 | in a version-3 file whose third list is not a LIST the header is re-read one byte earlier, little-endian; otherwise the chunk is kept |
| Parser.IsSF3 | src/Parser.ts:66 | a missing version tag is a TypeError; otherwise the file is SoundFont 3 exactly when the major version is 3 |
| Parser.SfbkOf | src/Parser.ts:54-80 | an invalid RIFF form fails; otherwise the result is that of its sub-lists |
| Parser.SfbkLists | src/Parser.ts:61-79 | other than three lists is an error; a success read INFO, sdta and pdta from lists 0, 1 and 2, the last through the SoundFont 3 shim |
| Parser.ParseRiffChunk | src/Parser.ts:54-80 | computes exactly that result, replacing the third list in place |
| Parser.SampleBytes | src/Parser.ts:210-221 | a sample's bytes are the slice from `offsetMSB + start·u` to `offsetMSB + end·u`, u being 2 for SoundFont 2 and 1 for SoundFont 3 |
| Parser.LoadSample | src/Parser.ts:203-222 | one sample per header, the i-th being the slice that header names |
| Parser.Parsed | src/Parser.ts:38-116 | other than one top-level chunk is an error and a failed sfbk read passes its error on; a success carries the INFO fields, the sample data offsets and the nine record lists of the sfbk result, a version tag, and exactly the samples `loadSample` cuts for the sample headers |
| Parser.Parse | src/Parser.ts:38-116 | computes exactly the parse result |
| Parser.ParsedStructure | src/Parser.ts:43-101 | a successful parse read a single RIFF chunk of exactly three lists, and no preset, instrument or sample list holds its terminator |
| Parser.GeneratorRunWellTyped | src/Structs.ts:205-218 | every run of decoded generator records holds a range exactly at the keyRange and velRange codes and a signed 16-bit amount elsewhere |
| Parser.GeneratorChunkWellTyped | src/Parser.ts:196-199 | the records pgen and igen return are well typed |
| Parser.PdtaGeneratorsWellTyped | src/Parser.ts:82-101 | both generator lists of a pdta list are well typed |
| Parser.ParsedGeneratorsWellTyped | src/Parser.ts:38-116 | both generator lists of a successful parse are well typed |
| Constants.KeyCode | src/Generator.ts:6-8 | the index of a generator name is below 59 and the name table maps it back to the name |
| Constants.UnnamedCodes | src/Structs.ts:197-199 | a code has no name exactly when it is negative, at least 59, or one of the reserved codes 14, 18, 19, 20, 42, 49, 55 |
| Constants.CodeRoundTrip | src/Generator.ts:6-8 | every named code is the index of its name |
| Constants.KeyCodeInjective | src/Generator.ts:6-8 | distinct names have distinct indices |
| Generator.RangeGenerators | src/Generator.ts:14-17 | the range names are exactly keyRange and velRange, the names whose records decode as ranges |
| Generator.ExcludedIndices | src/Generator.ts:36-44 | a code is in `presetExcludedIndices` exactly when its name is a sample or substitution name |
| Generator.ValueGenerators | src/Generator.ts:49-54 | the value names are the names outside the sample, substitution, index and range groups |
| Generator.SampleKeys | src/Generator.ts:23-35 | the sample group is exactly its eleven names |
| Generator.ValueGeneratorKeysExact | src/Generator.ts:54 | every name is listed once among all names, and the value-name list holds exactly the value names |
| Generator.DefaultsInBounds | src/Generator.ts:131-186 | every bounded default lies within its bounds, so clamping it changes nothing, and both ranges default to `[0, 127]` |
| Generator.DefaultInBounds | src/Generator.ts:131-186 | a default is a range exactly for the range names, and a bounded default lies within its bounds |
| Generator.TuningBounds | src/Generator.ts:179-183 | the instrument defaults bound the coarse tune to [-120, 120] semitones, the fine tune to [-99, 99] cents and the scale tuning to [0, 100] |
| Generator.FoldLastWins | src/Generator.ts:83-99 | the dictionary holds exactly the names some record sets, each with the value of the last record setting it |
| Generator.FoldInvariant | src/Generator.ts:83-99 | a property of every entry a record sets holds of every entry of the dictionary |
| Generator.FoldCongruent | src/Generator.ts:83-99 | two entry rules that agree on every record fill the same dictionary |
| Generator.Entry | src/Generator.ts:84-98 | a record sets an entry exactly when its code has a name and is not excluded; a range name gets its range verbatim, any other name its raw number between the default's bounds, unclamped |
| Generator.FoldSnoc | src/Generator.ts:83-99 | the dictionary of records plus one more is the earlier dictionary updated with what the last record sets |
| Generator.FillZone | src/Generator.ts:83-99 | the first loop computes exactly the last-wins dictionary of the records |
| Generator.PresetNeverExcluded | src/Generator.ts:87 | a preset zone never holds a sample, address, sampleModes, exclusiveClass, overridingRootKey, keynum or velocity entry |
| Generator.CreatePresetGeneratorObject | src/Generator.ts:81-101 | returns the preset dictionary of the records, free of excluded names |
| Generator.FixedGeneratorsRule | src/Generator.ts:121-127 | a keynum (velocity) of at least 0 makes keyRange (velRange) the single point `[v, v]`; otherwise that range is left as it was, and no other entry changes |
| Generator.InstrumentSubstitution | src/Generator.ts:103-129 | keynum and velocity entries of an instrument zone are bounded values, and the zone is the dictionary with the substitutions applied |
| Generator.PresetShaped | src/Generator.ts:88-98 | a preset zone holds ranges exactly at the range names |
| Generator.InstrumentShaped | src/Generator.ts:103-129 | an instrument zone holds ranges exactly at the range names, substitutions included |
| Generator.ApplyFixedGenerators | src/Generator.ts:121-127 | the substitution loop computes exactly the substituted zone |
| Generator.CreateInstrumentGeneratorObject | src/Generator.ts:103-129 | returns the instrument dictionary of the records with the substitutions applied |
| GeneratorParams.SameExclusions | src/GeneratorParams.ts:9-27 | the older resolver excludes the same thirteen names, hence the same codes, as the newer one |
| GeneratorParams.SameDefaults | src/GeneratorParams.ts:96-151 | its default table agrees with the newer one name by name |
| GeneratorParams.DefaultsInBounds | src/GeneratorParams.ts:96-151 | every bounded default of this table lies inside its bounds |
| GeneratorParams.SameEntries | src/GeneratorParams.ts:47-85 | records read with this file's exclusions and table fill the same dictionary as with the newer resolver's |
| GeneratorParams.CreatePresetGeneratorObject | src/GeneratorParams.ts:47-67 | returns the same preset dictionary as the newer resolver, free of the excluded names |
| GeneratorParams.CreateInstrumentGeneratorObject | src/GeneratorParams.ts:69-94 | returns the same instrument dictionary as the newer resolver, substitutions included |
| Modulator.ModulatorSource.ControllerType | src/Modulator.ts:10-12 | `cc << 7 \| index` lies below 256, with `cc` as its high bit and `index` as its low seven bits |
| Modulator.ControllerOfOperand | src/Modulator.ts:10-21 | the controller a decoded source reads is the operand's low byte |
| Modulator.TestVectors | src/Modulator.ts:14-21 | the ten operands of the test file decode to the expected (type, polarity, direction, cc, index) tuples |
| Modulator.Pack | src/Modulator.ts:14-21 | packing places `index` in the low seven bits and the type in bits 10 to 15 |
| Modulator.PackParse | src/Modulator.ts:14-21 | every 16-bit operand is the packing of its decoded fields |
| Modulator.ParsePack | src/Modulator.ts:14-21 | decoding a packed source gives back its fields |
| Modulator.Polarize | src/Modulator.ts:24-33 | bipolar maps `v` to `2(v - 0.5)`, negated for direction 1; unipolar direction 1 maps `v` to `1 - v`; otherwise `v` is kept |
| Modulator.PolarizeRange | src/Modulator.ts:24-33 | a value in [0, 1] stays in [0, 1] when unipolar and lands in [-1, 1] when bipolar |
| Modulator.Curve | src/Modulator.ts:34-46 | the concave curve is NaN exactly at 0, and every type other than 1 and 2 is linear |
| Modulator.Map | src/Modulator.ts:23-48 | NaN maps to NaN; a number goes through the polarity step, then the curve of the source type |
| Modulator.MapIdentity | src/Modulator.ts:23-48 | a linear, unipolar, positive source maps every value to itself |
| Modulator.UnexpectedTypeIsLinear | src/Modulator.ts:43-45 | a type above 2 maps exactly as the linear type does |
| Modulator.Decode | src/DefaultModulators.ts:5-11 | a modulator record with both sources decoded: each packs back to the stored operand, and the destination, amount and transform are kept |
| DefaultModulators.TableShape | src/DefaultModulators.ts:4-75 | ten modulators, every transOper 0, with destinations 48, 8, 6, 6, 48, 48, 48, 16, 15, 51 in this order |
| DefaultModulators.AmountSources | src/DefaultModulators.ts:4-75 | the first nine amount sources are the null source; the last reads controller 16 without the CC flag |
| DefaultModulators.DecodedSources | src/DefaultModulators.ts:4-75 | the ten primary sources decode to the tuples of the test file |
| DefaultModulators.SourcesPackBack | src/DefaultModulators.ts:4-75 | each primary source packs back to the operand written in the table |
| Voice.Add | src/Voice.ts:36-41 | `Set.add` keeps the earlier members, adds the new one, and never duplicates |
| Voice.WithDestination | src/Voice.ts:45-56 | the modulators kept all come from the list and have the given destination |
| Voice.SplitLast | src/Voice.ts:31-56 | one more modulator adds its controller, its route and its destination, and nothing else |
| Voice.ControllerIndexExact | src/Voice.ts:31-43 | the controller index maps each controller exactly to the destinations some modulator routes from it, each once |
| Voice.ControllerStep | src/Voice.ts:32-42 | one loop iteration of `setControllerToDestinations` keeps the index exact |
| Voice.DestinationIndexExact | src/Voice.ts:45-56 | the destination index maps each destination exactly to its modulators, in list order |
| Voice.DestinationStep | src/Voice.ts:46-55 | one loop iteration of `setDestinationToModulators` keeps the index exact |
| Voice.NoneWithDestination | src/Voice.ts:45-56 | a destination no modulator targets has no modulators |
| Voice.Numbers | src/Voice.ts:104-141 | the numbers the handlers read are exactly the bounded generators of the zone |
| Voice.CompleteCovers | src/Voice.ts:20-26 | a complete zone gives a number to every name outside the ranges |
| Voice.Clamp | src/Voice.ts:146-151 | the number clamped into the default's bounds is within them, unchanged inside, and the nearer bound outside |
| Voice.TuningIsValue | src/Voice.ts:393-411 | the tuning generators are value generators |
| Voice.HandlerWrites | src/Voice.ts:153-414 | no handler writes a field that `getAllParams` sets from the sample |
| Voice.HandlerReads | src/Voice.ts:274-379 | the envelope-time handlers read no range generator |
| Voice.HandlerTuning | src/Voice.ts:393-411 | coarseTune, fineTune and scaleTuning, and only they, share the playback-rate handler |
| Voice.VolumeKeynumHandlers | src/Voice.ts:364-379 | the keynum-to-volume-envelope handlers write the modulation envelope's hold and decay from the volume envelope's generators |
| Voice.RootKey | src/Voice.ts:84-86 | the root key is the sample's original pitch when the clamped overriding root key is -1, and that key otherwise |
| Voice.PlaybackRateOf | src/Voice.ts:78-89 | without a sample header the playback rate throws; otherwise it is the symbolic rate `(2^(1/12))^e` of the exponent `e` the tuning generators and the sample header give |
| Voice.DefaultTuningExponent | src/Voice.ts:78-89 | with no coarse or fine tuning and scale tuning 100, the exponent is the key's distance from the root key plus the pitch correction in semitones |
| Voice.Run | src/Voice.ts:163-411 | only the tuning handler can throw, and only without a sample header; each handler writes its one field |
| Voice.Handle | src/Voice.ts:153-414 | a handler throws exactly when it is a tuning handler without a sample header, writes its one field and keeps every other |
| Voice.RunHandlersFails | src/Voice.ts:427-429 | running handlers in turn throws exactly when one of them throws |
| Voice.RunHandlersWrites | src/Voice.ts:427-429 | a successful run adds the fields the handlers write and keeps every other field |
| Voice.RunHandlersStop | src/Voice.ts:427-429 | once a handler has thrown, the later ones never run |
| Voice.StateAt | src/Voice.ts:107 | a controller read inside the state is its value, past its end NaN |
| Voice.Contribution | src/Voice.ts:106-114 | with the null amount source a modulator contributes the transform of its mapped source value, the amount factor being 1 |
| Voice.SumStep | src/Voice.ts:105-117 | one more modulator adds its contribution, or nothing when that is NaN |
| Voice.ValueTarget | src/Voice.ts:99-101 | a destination is used exactly when it names a value generator, and then it is that generator's code |
| Voice.TargetOfCode | src/Voice.ts:99-101 | a value generator's code names it |
| Voice.Apply | src/Voice.ts:124-141 | one modulator changes no key set |
| Voice.Transformed | src/Voice.ts:122-144 | `transformAllParams` keeps the set of generators |
| Voice.TransformedStep | src/Voice.ts:124-142 | one more modulator applies its step |
| Voice.ApplySkips | src/Voice.ts:126-140 | a modulator whose controller value is falsy, whose destination is no value generator, or whose contribution is NaN changes nothing |
| Voice.ApplyAdds | src/Voice.ts:128-141 | otherwise it adds its contribution to its destination and changes nothing else |
| Voice.ApplyModulator | src/Voice.ts:125-141 | one pass of the loop body, with its early exits, yields exactly the change `Apply` specifies for that modulator |
| Voice.TransformedGain | src/Voice.ts:122-144 | every generator ends at its value plus the contributions of the modulators that move it |
| Voice.UnmovedKeepsValue | src/Voice.ts:122-144 | a generator no modulator moves keeps its value |
| Voice.GainOfUnmoved | src/Voice.ts:124-142 | a generator no modulator moves gains nothing |
| Voice.Record.Set | src/Voice.ts:104 | setting a property keeps each key once, places a new key last, leaves an existing key in place, and sets its value |
| Voice.SetAdd | src/Voice.ts:104-116 | setting a property and then adding to it sets it to the sum |
| Voice.SetTwice | src/Voice.ts:104 | setting a property twice keeps only the second value |
| Voice.UpdateOneSkips | src/Voice.ts:99-103 | a destination naming no value generator, or without modulators, changes nothing |
| Voice.UpdateOneSets | src/Voice.ts:104-117 | a destination naming a value generator with modulators sets that generator to its value plus their contributions |
| Voice.UpdatesStep | src/Voice.ts:98-118 | one more destination applies its update |
| Voice.UpdatesExact | src/Voice.ts:98-118 | the result holds exactly the value generators named by the destinations that have modulators, each at its value plus their contributions |
| Voice.RoutesReadsTargets | src/Voice.ts:31-56 | a modulator routing a controller to a destination appears in both indices |
| Voice.UpdatedValid | src/Voice.ts:91-120 | the object `transformParams` returns lists each key once |
| Voice.UpdatedExact | src/Voice.ts:91-120 | an unrouted controller gives the empty object; otherwise the result holds exactly the value generators the controller is routed to, each at its value plus the contributions of its modulators |
| Voice.OverrideValues | src/Voice.ts:423-426 | copying the updated keys gives their new values and keeps every other generator |
| Voice.OverrideStep | src/Voice.ts:424-426 | one more key copies its value |
| Voice.RunHandlersStep | src/Voice.ts:427-429 | one more handler runs unless an earlier one threw |
| Voice.OverrideRecord | src/Voice.ts:423-426 | copying every key of the updated object is the map union |
| Voice.OrderFails | src/Voice.ts:427-429 | the handlers of the updated keys throw exactly when one of them is a tuning generator and there is no sample header |
| Voice.OrderWritten | src/Voice.ts:427-429 | the handlers of the updated keys write exactly the fields of those keys |
| Voice.InWritten | src/Voice.ts:427-429 | a value generator among the keys has its field written |
| Voice.GetParamsFails | src/Voice.ts:416-431 | `getParams` throws exactly when there is no sample header and the controller is routed to a tuning generator |
| Voice.GetParamsWrites | src/Voice.ts:416-431 | a successful `getParams` writes exactly the fields of the value generators the controller is routed to |
| Voice.SampleParams | src/Voice.ts:434-450 | the fields set before the handlers run are exactly the address, loop and sample fields |
| Voice.Writers | src/Voice.ts:460-532 | every field other than the sample fields has a handler writing it |
| Voice.AllWritten | src/Voice.ts:452-455 | the handlers of all value generators write exactly the fields other than the sample fields |
| Voice.RunAllHandlers | src/Voice.ts:452-455 | with a sample header the handlers of all value generators succeed, set every field and keep the sample fields |
| Voice.AllParamsComplete | src/Voice.ts:433-457 | with a sample header `getAllParams` returns every `VoiceParams` field, the sample fields as computed before the handlers; without one it throws |
| Voice.AddressSplit | src/Voice.ts:435-436 | a start address split into 32768-sample coarse units and the rest comes back whole |
| Voice.AddContributions | src/Voice.ts:105-117 | the inner loop adds the sum of the non-NaN contributions onto the generator's value |
| Voice.RunVoiceHandlers | src/Voice.ts:427-429 | the handler loop computes exactly the handlers run in turn, stopping at the first throw |
| Voice.Voice.constructor | src/Voice.ts:20-29 | the voice holds its key, generators, modulators, sample and header, with both indices built exactly |
| Voice.Voice.SetControllerToDestinations | src/Voice.ts:31-43 | adds every modulator's destination to the set of its controller and leaves the other index alone |
| Voice.Voice.SetDestinationToModulators | src/Voice.ts:45-56 | appends every modulator to the list of its destination and leaves the other index alone |
| Voice.Voice.TransformParams | src/Voice.ts:91-120 | returns exactly the updated object of the controller, read through both indices |
| Voice.Voice.TransformAllParams | src/Voice.ts:122-144 | returns the generators moved by every modulator in turn |
| Voice.Voice.GetParams | src/Voice.ts:416-431 | returns exactly the handlers' fields for the updated keys, or the throw |
| Voice.Voice.GetAllParams | src/Voice.ts:433-457 | returns exactly the sample fields plus every handler's field over the transformed generators, or the throw |
| SoundFont.Slice | src/SoundFont.ts:42 | `slice(b, e)` is the subsequence for in-range bounds and never holds anything from outside the list |
| SoundFont.Segments | src/SoundFont.ts:32-45 | a negative length is a RangeError, a bag read outside the list an undefined read; otherwise segment j is the slice of records from bag j's index to bag j+1's |
| SoundFont.GetSegments | src/SoundFont.ts:38-44 | the segment loop computes exactly those segments or that error |
| SoundFont.SegmentsFromList | src/SoundFont.ts:42 | every segment holds records of the list only |
| SoundFont.PresetBags | src/SoundFont.ts:48-52 | a preset outside the list is an undefined read; otherwise its bags run from its bag index to the next preset's, or to the last bag for the last preset |
| SoundFont.InstrumentBags | src/SoundFont.ts:62-66 | likewise for an instrument |
| SoundFont.PresetBagsTile | src/SoundFont.ts:48-52 | consecutive presets share a boundary |
| SoundFont.InstrumentBagsTile | src/SoundFont.ts:62-66 | consecutive instruments share a boundary |
| SoundFont.SegmentsWellTyped | src/SoundFont.ts:42 | each segment of well-typed records is well typed |
| SoundFont.ParsedWellTyped | src/SoundFont.ts:30 | what a successful parse returns meets the lookup methods' requirement on the generator lists |
| SoundFont.InstrumentObjects | src/SoundFont.ts:124-126 | one instrument dictionary per segment, each holding ranges exactly at the range names |
| SoundFont.LayInstrument | src/SoundFont.ts:134-140 | `{...global, ...zone}`: the zone's entries win, other names come from the global zone; the modulators are the global ones followed by the zone's |
| SoundFont.InstrumentBaseShift | src/SoundFont.ts:127-131 | a zone without sampleID before the chosen zone becomes the global zone for the rest of the search |
| SoundFont.SearchInstrumentZoneNone | src/SoundFont.ts:123-142 | no zone is found exactly when no zone names a sample and accepts the key and velocity |
| SoundFont.SearchInstrumentZoneFirst | src/SoundFont.ts:123-141 | otherwise the first such zone is returned, laid over the most recent global zone before it |
| SoundFont.SearchInstrumentZoneNamesSample | src/SoundFont.ts:127-131 | a zone returned always names a sample |
| SoundFont.DefaultZone | src/SoundFont.ts:184-186 | the fresh copy of the default table holds every name at its default |
| SoundFont.Overrides | src/SoundFont.ts:191-195 | the overriding entries are exactly the preset's names outside keyRange and velRange, with the preset's values |
| SoundFont.VoiceGeneratorsRule | src/SoundFont.ts:184-195 | every name is set: the preset's value for a non-range name it holds, else the instrument zone's, else the default |
| SoundFont.DecodeAll | src/Voice.ts:34 | each modulator record with its sources decoded |
| SoundFont.DecodeAllAppend | src/SoundFont.ts:196-200 | decoding a concatenation concatenates the decodings |
| SoundFont.At | src/SoundFont.ts:204-205 | an index inside the array gives its element, one outside gives nothing |
| SoundFont.SampleIndex | src/SoundFont.ts:201-203 | the sample index lies in [-1, 32767] and is the zone's own sampleID when that lies inside |
| SoundFont.VoiceOf | src/SoundFont.ts:179-213 | the voice is complete, holds the resolved generators, the default, preset and instrument modulators in that order, and the sample and header at the clamped sampleID |
| SoundFont.VoiceGeneratorAt | src/SoundFont.ts:184-195 | the rule of the resolved generators for one name |
| Generator.DefaultSampleIndex | src/Generator.ts:181 | the default sampleID is -1 with bounds [-1, 32767] |
| SoundFont.VoiceSampleFromInstrument | src/SoundFont.ts:201-205 | without a preset sampleID the voice plays the header the instrument zone names, when that index is in range |
| SoundFont.VoiceWithoutSample | src/SoundFont.ts:201-205 | with sampleID set by neither zone the default -1 indexes nothing: no sample and no header |
| SoundFont.ZonesAgree | src/SoundFont.ts:119-120 | the generator and modulator segments of one bag range fail alike and number the same |
| SoundFont.SegmentsOf | src/SoundFont.ts:119-120 | fails exactly when cutting the generators fails, with that error; otherwise both lists of segments, one per zone |
| SoundFont.InstrumentZoneLookup | src/SoundFont.ts:118-143 | fails exactly when cutting the instrument's generators fails; a zone found holds ranges only at the range names and names a sample |
| SoundFont.UnionShaped | src/SoundFont.ts:135 | a union of dictionaries with ranges only at the range names has that shape too |
| SoundFont.SearchInstrumentZoneShaped | src/SoundFont.ts:134-140 | the zone returned has ranges only at the range names |
| SoundFont.PresetObjects | src/SoundFont.ts:151 | one preset dictionary per segment, each with ranges only at the range names |
| SoundFont.LayPreset | src/SoundFont.ts:165-173 | `{...global, ...zone}` for a preset zone: the zone's entries win, others come from the global zone; modulators global first |
| SoundFont.InstrumentLookup | src/SoundFont.ts:159-163 | the instrument lookup the preset loop calls is `findInstrumentZone` for that key and velocity |
| SoundFont.SearchPreset | src/SoundFont.ts:150-176 | a selection found has ranges only at the range names and holds an instrument |
| SoundFont.VoiceOfSelection | src/SoundFont.ts:164-176 | a voice is built exactly when a selection was found, from its preset and instrument zones |
| SoundFont.PresetBase | src/SoundFont.ts:152-156 | the global zone the chosen zone is laid over has ranges only at the range names |
| SoundFont.PresetBaseShift | src/SoundFont.ts:152-156 | a zone without an instrument before the chosen zone becomes the global zone for the rest of the search |
| SoundFont.SearchPresetSkip | src/SoundFont.ts:152-164 | a zone that misses passes the search to the next zone, as the global zone when it names no instrument |
| SoundFont.SearchPresetHit | src/SoundFont.ts:164-173 | a zone that hits is the selection, laid over the global zone, with its instrument's zone |
| SoundFont.SearchPresetFirst | src/SoundFont.ts:150-174 | the selection is the first zone whose instrument has a zone for the key and velocity, all before it missing, laid over the most recent global zone |
| SoundFont.SearchPresetNone | src/SoundFont.ts:150-176 | no selection when every zone misses |
| SoundFont.SearchPresetError | src/SoundFont.ts:159-163 | the search throws only what the instrument lookup of an accepting zone threw |
| SoundFont.FirstPreset | src/SoundFont.ts:221-223 | `findIndex` is -1 exactly when no header has the bank and program, and otherwise the first header that has both |
| SoundFont.NameStepRule | src/SoundFont.ts:249-253 | one header adds its bank and program and names that entry, leaving every other alone |
| SoundFont.PresetNamesBanks | src/SoundFont.ts:245-256 | the table has a bank exactly when some header has it |
| SoundFont.PresetNamesPrograms | src/SoundFont.ts:245-256 | a bank's table has a program exactly when some header has both |
| SoundFont.PresetNamesLastWins | src/SoundFont.ts:248-254 | the name at a bank and program is that of the last header with both |
| SoundFont.OverridesStep | src/SoundFont.ts:191-195 | one more preset name overwrites its entry, or changes nothing for a range name |
| SoundFont.OverridePresetValues | src/SoundFont.ts:188-195 | the preset loop overwrites the dictionary with every non-range entry of the preset zone |
| SoundFont.SoundFont.constructor | src/SoundFont.ts:30 | the resolver holds the parse result |
| SoundFont.SoundFont.GetGeneratorParams | src/SoundFont.ts:32-45 | returns exactly the generator segments of the bags, or the error |
| SoundFont.SoundFont.GetModulators | src/SoundFont.ts:75-88 | returns exactly the modulator segments of the bags, or the error |
| SoundFont.SoundFont.GetPresetGenerators | src/SoundFont.ts:47-59 | the generator segments of the preset's bags |
| SoundFont.SoundFont.GetInstrumentGenerators | src/SoundFont.ts:61-73 | the generator segments of the instrument's bags |
| SoundFont.SoundFont.GetPresetModulators | src/SoundFont.ts:90-102 | the modulator segments of the preset's bags |
| SoundFont.SoundFont.GetInstrumentModulators | src/SoundFont.ts:104-116 | the modulator segments of the instrument's bags |
| SoundFont.SoundFont.GetInstrumentSegments | src/SoundFont.ts:119-120 | both lists of segments of the instrument, or the error |
| SoundFont.SoundFont.GetPresetSegments | src/SoundFont.ts:146-147 | both lists of segments of the preset, or the error |
| SoundFont.SoundFont.FindInstrumentZone | src/SoundFont.ts:118-143 | returns exactly the zone lookup of the instrument, including the errors of cutting its bag range |
| SoundFont.SelectInstrumentZone | src/SoundFont.ts:121-142 | the zone loop returns exactly the search over the instrument's zones: the first zone with a sampleID that accepts the key and velocity, laid over the last global zone before it |
| SoundFont.SoundFont.SelectZones | src/SoundFont.ts:148-176 | the preset loop returns exactly the selection search over the preset's zones |
| SoundFont.SoundFont.FindInstrument | src/SoundFont.ts:145-177 | returns a fresh voice exactly as the preset lookup describes it, nothing when no zone matches, or the error |
| SoundFont.SoundFont.CreateVoice | src/SoundFont.ts:179-213 | returns a fresh voice holding exactly the voice the zones describe |
| SoundFont.SoundFont.GetVoice | src/SoundFont.ts:215-242 | nothing when no header has the bank and program; otherwise the voice the first such preset yields |
| SoundFont.SoundFont.GetPresetNames | src/SoundFont.ts:245-256 | returns exactly the bank-to-program-to-name table of the preset headers |

## Left out

- src/AudioData.ts, the PCM to float conversion and the asynchronous `decodeAudioData` path: floating-point audio I/O outside the decoder.
- build_npm.ts: packaging.
- `timecentToSecond` and the `Math.pow` of `getPlaybackRate` (src/Voice.ts:12-14, src/Voice.ts:88): powers are the symbolic values `Seconds(timecents)` and `Rate(exponent)`, because Dafny reals have no exponentiation. The exponents themselves are exact.
- `Math.log` and `Math.exp` of the concave and convex curves (src/Modulator.ts:37-42): these are parameters without semantics. Only the NaN of `sign(0)·log(0)` is modelled.
- Floating-point rounding: numbers are exact reals with an explicit NaN, and `Float32Array` controller values are `Num` values.
- `console.warn` (src/SoundFont.ts:225-238, src/Modulator.ts:44): this is logging only.
- `structuredClone` (src/Voice.ts:123, src/Voice.ts:418): this is a value copy, which Dafny maps are by nature.
- The 24-bit sample extension `offsetLSB`: it is read but not used to load samples, as in the code (src/Parser.ts:206-216).
- Constants.ts is not part of this model. The code-to-name table follows section 8.1.2 of the SoundFont 2.04 specification, and `ValueGeneratorKeys` is taken in enumerator order.
- src/SoundFont.test.ts: it calls functions the current modules do not provide, so its expectations cannot be stated against this API.
- Object key order: generator dictionaries are maps. The preset loop of `createVoice` visits the preset's names in an unspecified order; the result does not depend on it. The order of the objects `transformParams` returns is kept in `Voice.Record`, because `getParams` runs the handlers in that order.
- JavaScript `Set` and `Map`: they are modelled as duplicate-free sequences and Dafny maps.
- `ByteStream.Stream.ReadByte`: past the end of the buffer it gives 0, where JavaScript gives `undefined` (src/Stream.ts:45-47). The word, double-word, signed-byte and string reads agree with JavaScript there.
- `ByteStream.Stream.ReadAt`: past the end of the buffer it gives 0, where `readAt` gives `undefined` (src/Stream.ts:49-51).
- `ByteStream.Stream.ReadUInt8`: it reads through `ReadByte`, so past the end it gives 0 where JavaScript gives `undefined` (src/Stream.ts:55-57).
- `Structs.ParseRangeValue`: past the end its bounds are 0, where the TypeScript builds `RangeValue(undefined, undefined)` (src/Structs.ts:145-149).
- `Structs.ParseSampleHeader`: past the end its `originalPitch` is 0, where the TypeScript reads `undefined` (src/Structs.ts:265).
- `SoundFont.SoundFont.FindInstrumentZone`, `SelectZones`, `FindInstrument`, `GetVoice`, `GetInstrumentSegments` and `GetPresetSegments` require the parsed generator lists to be well typed. A range amount must sit exactly at keyRange and velRange codes, which is what `Structs.ParseGeneratorList` produces; `SoundFont.ParsedWellTyped` proves that every successful `Parser.Parsed` result meets it. The TypeScript casts assume the same.
- `SoundFont.SoundFont.FindInstrument`: it is split into `GetPresetSegments`, `SelectZones` (the zone loop) and `CreateVoice`. The steps run in the same order as the source.
- `Voice.Voice.TransformAllParams`: its loop body is the module-level method `ApplyModulator`, and its early `continue`s are early returns there.
- `SoundFont.SoundFont.FindInstrumentZone`: its zone loop is the module-level method `SelectInstrumentZone`, which reads nothing but the two segment lists.
- `SoundFont.SoundFont.CreateVoice`: a missing sample header is `None`, where the TypeScript passes `undefined` to the `Voice` constructor. The resulting throw is then that of the tuning handler in `getParams` and `getAllParams`.
- Aliasing between a `Voice` and the parse result: the voice holds values, so later mutation through shared objects is not modelled.
