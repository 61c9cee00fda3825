/**
 * The RIFF walker (src/RiffParser.ts): an 8-byte chunk header (a four-character
 * tag and a 32-bit size) followed by the payload, chunks laid end to end and, with
 * padding on, an odd-length payload followed by one pad byte (RIFF, section 3.1 of
 * the SoundFont 2.04 specification).  LIST interiors are not entered.
 */
module RiffParser {
  import opened ByteStream

  /** A chunk header: `offset` is where the payload starts, 8 bytes past the tag. */
  datatype Chunk = Chunk(chunkType: string, size: u32, offset: int)

  datatype Options = Options(padding: bool, bigEndian: bool)

  /** `{ padding = true, bigEndian = false }`. */
  const DefaultOptions := Options(true, false)

  /** Where the header of `c` started. */
  function Start(c: Chunk): int {
    c.offset - 8
  }

  /** The header read at `offset`. */
  function ChunkAt(input: seq<byte>, offset: int, bigEndian: bool): Chunk {
    Chunk(FixedString(input, offset, 4), DWord(input, offset + 4, bigEndian), offset + 8)
  }

  /** `parseChunk(input, offset, bigEndian)`: a fresh cursor reads the tag and the size. */
  method ParseChunk(input: seq<byte>, offset: int, bigEndian: bool) returns (c: Chunk)
    ensures c == ChunkAt(input, offset, bigEndian)
    ensures Start(c) == offset
  {
    var stream := new Stream(input, offset);
    var chunkType := stream.ReadString(4);
    var size := stream.ReadDWORD(bigEndian);
    c := Chunk(chunkType, size, stream.offset);
  }

  /** The byte order changes the size field only, never the tag or the position. */
  lemma ByteOrderOnlyAffectsSize(input: seq<byte>, offset: int)
    ensures ChunkAt(input, offset, true).chunkType == ChunkAt(input, offset, false).chunkType
    ensures ChunkAt(input, offset, true).offset == ChunkAt(input, offset, false).offset
  {
  }

  /** A header written as tag then size reads back as that tag, size and payload offset. */
  lemma {:induction false} ChunkHeaderRoundTrip(input: seq<byte>, offset: int, tag: string, size: u32, bigEndian: bool)
    requires |tag| == 4 && forall i | 0 <= i < 4 :: 0 < tag[i] as int < 0x100
    requires 0 <= offset && offset + 8 <= |input|
    requires input[offset..offset + 4] == EncodeFixedString(tag, 4)
    requires input[offset + 4..offset + 8] == EncodeU32(size, bigEndian)
    ensures ChunkAt(input, offset, bigEndian) == Chunk(tag, size, offset + 8)
  {
    FixedStringRoundTrip(input, offset, tag, 4);
    DWordRoundTrip(input, offset + 4, size, bigEndian);
  }

  /**
   * Where the walk goes after `c`: the end of its payload, plus the pad byte when
   * padding is on and that end lies an odd distance from `index`.  JavaScript's
   * `(x & 1) === 1` is `x % 2 == 1` here: the distance is never negative in the walk
   * and `ToInt32` keeps parity.
   */
  function NextOffset(c: Chunk, index: int, padding: bool): (next: int)
    ensures next >= c.offset + c.size
  {
    var offset := c.offset + c.size;
    if padding && (offset - index) % 2 == 1 then offset + 1 else offset
  }

  /** The chunks the loop collects from `offset` while `offset < end`. */
  function Walk(input: seq<byte>, offset: int, end: int, index: int, opts: Options): seq<Chunk>
    decreases end - offset
  {
    if offset >= end then []
    else
      var c := ChunkAt(input, offset, opts.bigEndian);
      [c] + Walk(input, NextOffset(c, index, opts.padding), end, index, opts)
  }

  /** `parseRiff(input, index, length, opts)` as a value. */
  function Riff(input: seq<byte>, index: int, length: int, opts: Options): seq<Chunk> {
    Walk(input, index, length + index, index, opts)
  }

  /** `parseRiff`: the loop over chunk headers. */
  method ParseRiff(input: seq<byte>, index: int, length: int, opts: Options) returns (chunkList: seq<Chunk>)
    ensures chunkList == Riff(input, index, length, opts)
  {
    chunkList := [];
    var end := length + index;
    var offset := index;
    ghost var all := Walk(input, offset, end, index, opts);
    assert chunkList + all == all;
    while offset < end
      invariant chunkList + Walk(input, offset, end, index, opts) == all
      decreases end - offset
    {
      var chunk := ParseChunk(input, offset, opts.bigEndian);
      WalkStep(input, offset, end, index, opts);
      offset := chunk.offset + chunk.size;
      ghost var unpadded := offset;
      if opts.padding && (offset - index) % 2 == 1 {
        offset := offset + 1;
      }
      PadRule(chunk, index, opts.padding, unpadded, offset);
      ConcatAssoc(chunkList, [chunk], Walk(input, offset, end, index, opts));
      chunkList := chunkList + [chunk];
    }
    assert Walk(input, offset, end, index, opts) == [];
    assert chunkList + [] == chunkList;
  }

  lemma PadRule(c: Chunk, index: int, padding: bool, unpadded: int, offset: int)
    requires unpadded == c.offset + c.size
    requires offset == if padding && (unpadded - index) % 2 == 1 then unpadded + 1 else unpadded
    ensures offset == NextOffset(c, index, padding)
  {
  }

  lemma ConcatAssoc<T>(a: seq<T>, b: seq<T>, c: seq<T>)
    ensures a + b + c == a + (b + c)
  {
  }

  /** One step of the walk. */
  lemma WalkStep(input: seq<byte>, offset: int, end: int, index: int, opts: Options)
    requires offset < end
    ensures var c := ChunkAt(input, offset, opts.bigEndian);
      Walk(input, offset, end, index, opts) == [c] + Walk(input, NextOffset(c, index, opts.padding), end, index, opts)
  {
  }

  /** A non-positive length yields no chunks. */
  lemma RiffEmpty(input: seq<byte>, index: int, length: int, opts: Options)
    requires length <= 0
    ensures Riff(input, index, length, opts) == []
  {
  }

  /** The walk is nonempty exactly when it has room to start, and then starts at its origin. */
  lemma RiffFirst(input: seq<byte>, index: int, length: int, opts: Options)
    ensures |Riff(input, index, length, opts)| > 0 <==> length > 0
    ensures length > 0 ==> Riff(input, index, length, opts)[0] == ChunkAt(input, index, opts.bigEndian)
  {
  }

  /** Every chunk of `cs` starts in `[lo, end)` and is the header read there. */
  predicate HeadersRead(cs: seq<Chunk>, input: seq<byte>, lo: int, end: int, bigEndian: bool) {
    forall k | 0 <= k < |cs| :: lo <= Start(cs[k]) < end && cs[k] == ChunkAt(input, Start(cs[k]), bigEndian)
  }

  /** Each chunk of `cs` starts where `NextOffset` of its predecessor points. */
  predicate Linked(cs: seq<Chunk>, index: int, padding: bool) {
    forall k | 0 <= k < |cs| - 1 :: Start(cs[k + 1]) == NextOffset(cs[k], index, padding)
  }

  lemma {:induction false} WalkChained(input: seq<byte>, offset: int, end: int, index: int, opts: Options)
    ensures HeadersRead(Walk(input, offset, end, index, opts), input, offset, end, opts.bigEndian)
    ensures Linked(Walk(input, offset, end, index, opts), index, opts.padding)
    decreases end - offset
  {
    if offset < end {
      var c := ChunkAt(input, offset, opts.bigEndian);
      var next := NextOffset(c, index, opts.padding);
      WalkChained(input, next, end, index, opts);
      var rest := Walk(input, next, end, index, opts);
      var cs := Walk(input, offset, end, index, opts);
      WalkStep(input, offset, end, index, opts);
      if |rest| > 0 {
        WalkHead(input, next, end, index, opts);
      }
      forall k | 0 <= k < |cs|
        ensures offset <= Start(cs[k]) < end && cs[k] == ChunkAt(input, Start(cs[k]), opts.bigEndian)
      {
        if k > 0 {
          assert cs[k] == rest[k - 1];
        } else {
          assert cs[k] == c && Start(c) == offset;
        }
      }
      forall k | 0 <= k < |cs| - 1
        ensures Start(cs[k + 1]) == NextOffset(cs[k], index, opts.padding)
      {
        if k > 0 {
          assert cs[k] == rest[k - 1] && cs[k + 1] == rest[k];
        }
      }
    }
  }

  lemma WalkHead(input: seq<byte>, offset: int, end: int, index: int, opts: Options)
    requires offset < end
    ensures Walk(input, offset, end, index, opts)[0] == ChunkAt(input, offset, opts.bigEndian)
  {
  }

  /** Chunks come back in file order: each starts at least 8 bytes after its predecessor. */
  lemma RiffInFileOrder(input: seq<byte>, index: int, length: int, opts: Options)
    ensures var cs := Riff(input, index, length, opts);
      forall k | 0 <= k < |cs| - 1 :: Start(cs[k]) + 8 + cs[k].size <= Start(cs[k + 1])
  {
    var cs := Riff(input, index, length, opts);
    WalkChained(input, index, length + index, index, opts);
    assert Linked(cs, index, opts.padding);
    forall k | 0 <= k < |cs| - 1
      ensures Start(cs[k]) + 8 + cs[k].size <= Start(cs[k + 1])
    {
      assert Start(cs[k + 1]) == NextOffset(cs[k], index, opts.padding);
    }
  }

  /** Every chunk of the walk starts inside `[index, index + length)`. */
  lemma RiffBounds(input: seq<byte>, index: int, length: int, opts: Options)
    ensures var cs := Riff(input, index, length, opts);
      forall k | 0 <= k < |cs| :: index <= Start(cs[k]) < index + length
  {
    var cs := Riff(input, index, length, opts);
    WalkChained(input, index, length + index, index, opts);
    assert HeadersRead(cs, input, index, length + index, opts.bigEndian);
  }

  /** Position `p` lies an even distance from `index`. */
  predicate EvenFrom(p: int, index: int) {
    (p - index) % 2 == 0
  }

  /** Every chunk of `cs` starts an even distance from `index`. */
  predicate EvenStarts(cs: seq<Chunk>, index: int) {
    forall k | 0 <= k < |cs| :: EvenFrom(Start(cs[k]), index)
  }

  /** With padding on, the next chunk starts an even distance from `index`. */
  lemma PaddedNextIsEven(c: Chunk, index: int)
    ensures EvenFrom(NextOffset(c, index, true), index)
  {
  }

  /** With padding on, a walk begun at an even distance from `index` stays even. */
  lemma {:induction false} WalkEven(input: seq<byte>, offset: int, end: int, index: int, opts: Options)
    requires opts.padding && EvenFrom(offset, index)
    ensures EvenStarts(Walk(input, offset, end, index, opts), index)
    decreases end - offset
  {
    if offset < end {
      var c := ChunkAt(input, offset, opts.bigEndian);
      var next := NextOffset(c, index, opts.padding);
      PaddedNextIsEven(c, index);
      WalkEven(input, next, end, index, opts);
      var rest := Walk(input, next, end, index, opts);
      var cs := Walk(input, offset, end, index, opts);
      WalkStep(input, offset, end, index, opts);
      forall k | 0 <= k < |cs|
        ensures EvenFrom(Start(cs[k]), index)
      {
        if k > 0 {
          assert cs[k] == rest[k - 1];
        } else {
          assert Start(cs[k]) == offset;
        }
      }
    }
  }

  /** With padding on, every chunk the walk returns starts an even distance from `index`. */
  lemma RiffPaddingEven(input: seq<byte>, index: int, length: int, opts: Options)
    requires opts.padding
    ensures EvenStarts(Riff(input, index, length, opts), index)
  {
    WalkEven(input, index, length + index, index, opts);
  }
}
