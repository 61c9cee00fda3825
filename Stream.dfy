/**
 * The byte cursor over a Uint8Array (src/Stream.ts).
 *
 * Indexing a Uint8Array outside its bounds yields `undefined`; the JavaScript bit
 * operators used by every multi-byte read and `String.fromCharCode` both read
 * `undefined` as 0, so `ByteAt` extends the buffer with zeros on both sides.
 */
module ByteStream {

  type byte = x: int | 0 <= x < 0x100
  type u16 = x: int | 0 <= x < 0x1_0000
  type u32 = x: int | 0 <= x < 0x1_0000_0000

  /** `data[i]` as the bit operators see it. */
  function ByteAt(data: seq<byte>, i: int): byte {
    if 0 <= i < |data| then data[i] else 0
  }

  /** Little-endian unsigned 16-bit field at `o` (`data[o] | data[o+1] << 8`). */
  function Word(data: seq<byte>, o: int): u16 {
    ByteAt(data, o) + 0x100 * ByteAt(data, o + 1)
  }

  /** Unsigned 32-bit field at `o`; `bigEndian` reverses the byte weights. */
  function DWord(data: seq<byte>, o: int, bigEndian: bool): u32 {
    if bigEndian then
      ByteAt(data, o) * 0x100_0000 + ByteAt(data, o + 1) * 0x1_0000
      + ByteAt(data, o + 2) * 0x100 + ByteAt(data, o + 3)
    else
      ByteAt(data, o) + ByteAt(data, o + 1) * 0x100
      + ByteAt(data, o + 2) * 0x1_0000 + ByteAt(data, o + 3) * 0x100_0000
  }

  /** Two's-complement reading of a byte: `(b << 24) >> 24`. */
  function Signed8(b: byte): (r: int)
    ensures -0x80 <= r < 0x80
    ensures r % 0x100 == b
  {
    if b < 0x80 then b else b - 0x100
  }

  /** Two's-complement reading of a 16-bit word: `(w << 16) >> 16`. */
  function Signed16(w: u16): (r: int)
    ensures -0x8000 <= r < 0x8000
    ensures r % 0x1_0000 == w
  {
    if w < 0x8000 then w else w - 0x1_0000
  }

  /** The character `String.fromCharCode` makes of a byte. */
  function CharOf(b: byte): char {
    b as char
  }

  /** The string of a byte sequence, one character per byte. */
  function Latin1(bytes: seq<byte>): (s: string)
    ensures |s| == |bytes|
  {
    seq(|bytes|, i requires 0 <= i < |bytes| => CharOf(bytes[i]))
  }

  /** Index normalisation of `TypedArray.subarray`: negative indices count from the end. */
  function Clip(i: int, len: nat): (r: nat)
    ensures r <= len
  {
    if i < 0 then (if len + i < 0 then 0 else len + i)
    else if i > len then len
    else i
  }

  lemma ClipSpan(b: int, e: int, len: nat)
    ensures b <= e ==> Clip(e, len) - Clip(b, len) <= e - b
  {
    if b < 0 && len + b < 0 {
    } else if b < 0 {
      if e < 0 {
      } else if e > len {
      }
    }
  }

  /** `data.subarray(b, e)`. */
  function Subarray(data: seq<byte>, b: int, e: int): (r: seq<byte>)
    ensures 0 <= b <= e <= |data| ==> r == data[b..e]
    ensures b <= e ==> |r| <= e - b
  {
    var lo := Clip(b, |data|);
    var hi := Clip(e, |data|);
    ClipSpan(b, e, |data|);
    if hi <= lo then [] else data[lo..hi]
  }

  /** `w.indexOf(0)`: the position of the first zero byte, or -1 when there is none. */
  function IndexOfZero(w: seq<byte>): (r: int)
    ensures -1 <= r < |w|
    ensures r >= 0 ==> w[r] == 0
    ensures forall i | 0 <= i < |w| && (r < 0 || i < r) :: w[i] != 0
  {
    if |w| == 0 then -1
    else if w[0] == 0 then 0
    else
      var r := IndexOfZero(w[1..]);
      assert forall i | 1 <= i < |w| :: w[i] == w[1..][i - 1];
      if r < 0 then -1 else r + 1
  }

  /** The first zero of `w` is at `p` when `w[p]` is zero and none precedes it. */
  lemma ZeroBeforeFirst(w: seq<byte>, p: nat)
    requires p < |w| && w[p] == 0 && forall i | 0 <= i < p :: w[i] != 0
    ensures IndexOfZero(w) == p
  {
  }

  /** `data.subarray(start, start + size).indexOf(0)`. */
  function FirstNul(data: seq<byte>, start: int, size: nat): (r: int)
    ensures -1 <= r < size
  {
    IndexOfZero(Subarray(data, start, start + size))
  }

  /** Inside the buffer the first NUL of the window is found among the buffer's own bytes. */
  lemma FirstNulInside(data: seq<byte>, start: int, size: nat)
    requires 0 <= start && start + size <= |data|
    ensures var r := FirstNul(data, start, size);
      (r >= 0 ==> data[start + r] == 0)
      && forall i | start <= i < start + size && (r < 0 || i < start + r) :: data[i] != 0
  {
    var w := data[start..start + size];
    assert Subarray(data, start, start + size) == w;
    assert forall i | start <= i < start + size :: data[i] == w[i - start];
  }

  /** Inside the buffer, the first NUL of the window is at `p` when no NUL precedes it. */
  lemma FirstNulAt(data: seq<byte>, start: int, size: nat, p: nat)
    requires 0 <= start && start + size <= |data| && p < size
    requires data[start + p] == 0 && forall i | start <= i < start + p :: data[i] != 0
    ensures FirstNul(data, start, size) == p
  {
    var r := FirstNul(data, start, size);
    FirstNulInside(data, start, size);
  }

  /** Inside the buffer, a window free of NUL has none. */
  lemma FirstNulNone(data: seq<byte>, start: int, size: nat)
    requires 0 <= start && start + size <= |data|
    requires forall i | start <= i < start + size :: data[i] != 0
    ensures FirstNul(data, start, size) == -1
  {
    var r := FirstNul(data, start, size);
    FirstNulInside(data, start, size);
  }

  /** The characters of the `n` bytes from `start`. */
  function Chars(data: seq<byte>, start: int, n: nat): (s: string)
    ensures |s| == n
  {
    seq(n, i => CharOf(ByteAt(data, start + i)))
  }

  /** Inside the buffer, `Chars` is the string of a slice. */
  lemma CharsSlice(data: seq<byte>, start: int, n: nat)
    requires 0 <= start && start + n <= |data|
    ensures Chars(data, start, n) == Latin1(data[start..start + n])
  {
    var w := data[start..start + n];
    forall i | 0 <= i < n
      ensures Chars(data, start, n)[i] == Latin1(w)[i]
    {
      assert w[i] == data[start + i];
    }
  }

  /** How many characters `readString(size)` keeps: up to the first NUL of the window. */
  function FieldLength(data: seq<byte>, start: int, size: nat): (n: nat)
    ensures n <= size
  {
    var nul := FirstNul(data, start, size);
    if nul < 0 then size else nul
  }

  /**
   * `readString(size)` at `start`: the bytes before the first NUL of the
   * `size`-byte window, or `size` characters when the window holds no NUL.
   */
  function FixedString(data: seq<byte>, start: int, size: nat): (s: string)
    ensures |s| <= size
  {
    Chars(data, start, FieldLength(data, start, size))
  }

  /** A window wholly inside the buffer and without NUL reads back whole. */
  lemma {:induction false} FixedStringWhole(data: seq<byte>, start: int, size: nat)
    requires 0 <= start && start + size <= |data|
    requires forall i | start <= i < start + size :: data[i] != 0
    ensures FixedString(data, start, size) == Latin1(data[start..start + size])
  {
    FirstNulNone(data, start, size);
    CharsSlice(data, start, size);
  }

  /** A NUL at position `p` of a window inside the buffer cuts the string to `p` characters. */
  lemma {:induction false} FixedStringCut(data: seq<byte>, start: int, size: nat, p: nat)
    requires 0 <= start && start + size <= |data| && p < size
    requires data[start + p] == 0 && forall i | start <= i < start + p :: data[i] != 0
    ensures FixedString(data, start, size) == Latin1(data[start..start + p])
  {
    FirstNulAt(data, start, size, p);
    CharsSlice(data, start, p);
  }

  /** A NUL in the first byte gives the empty string. */
  lemma {:induction false} FixedStringLeadingNul(data: seq<byte>, start: int, size: nat)
    requires 0 <= start && start < |data| && 0 < size
    requires data[start] == 0
    ensures FixedString(data, start, size) == ""
  {
    var w := Subarray(data, start, start + size);
    assert w[0] == 0;
  }

  // Encoders, the partners of the readers.

  function EncodeU16(v: u16): (e: seq<byte>)
    ensures |e| == 2
  {
    [v % 0x100, v / 0x100]
  }

  function EncodeU32(v: u32, bigEndian: bool): (e: seq<byte>)
    ensures |e| == 4
  {
    var b0, b1, b2, b3 := v % 0x100, (v / 0x100) % 0x100, (v / 0x1_0000) % 0x100, v / 0x100_0000;
    if bigEndian then [b3, b2, b1, b0] else [b0, b1, b2, b3]
  }

  /** The 16-bit pattern of a signed 16-bit value. */
  function Unsigned16(v: int): (w: u16)
    requires -0x8000 <= v < 0x8000
  {
    if v < 0 then v + 0x1_0000 else v
  }

  /** A string as a NUL-padded field of `size` bytes. */
  function EncodeFixedString(name: string, size: nat): (e: seq<byte>)
    requires |name| <= size && forall i | 0 <= i < |name| :: name[i] as int < 0x100
    ensures |e| == size
  {
    seq(size, i requires 0 <= i < size => if i < |name| then name[i] as int as byte else 0)
  }

  lemma WordRoundTrip(data: seq<byte>, o: int, v: u16)
    requires 0 <= o && o + 2 <= |data| && data[o..o + 2] == EncodeU16(v)
    ensures Word(data, o) == v
  {
    assert data[o] == data[o..o + 2][0] && data[o + 1] == data[o..o + 2][1];
  }

  lemma DWordRoundTrip(data: seq<byte>, o: int, v: u32, bigEndian: bool)
    requires 0 <= o && o + 4 <= |data| && data[o..o + 4] == EncodeU32(v, bigEndian)
    ensures DWord(data, o, bigEndian) == v
  {
    var w := data[o..o + 4];
    assert data[o] == w[0] && data[o + 1] == w[1] && data[o + 2] == w[2] && data[o + 3] == w[3];
    var q1 := v / 0x100;
    var q2 := v / 0x1_0000;
    assert v == q1 * 0x100 + v % 0x100;
    assert q1 == (q1 / 0x100) * 0x100 + q1 % 0x100;
    assert q1 / 0x100 == q2;
    assert q2 == (q2 / 0x100) * 0x100 + q2 % 0x100;
    assert q2 / 0x100 == v / 0x100_0000;
  }

  lemma Signed16RoundTrip(data: seq<byte>, o: int, v: int)
    requires -0x8000 <= v < 0x8000
    requires 0 <= o && o + 2 <= |data| && data[o..o + 2] == EncodeU16(Unsigned16(v))
    ensures Signed16(Word(data, o)) == v
  {
    WordRoundTrip(data, o, Unsigned16(v));
  }

  /** The NUL padding of an encoded field ends the string at the name's length. */
  lemma {:induction false} EncodedFieldLength(data: seq<byte>, o: int, name: string, size: nat)
    requires |name| <= size && forall i | 0 <= i < |name| :: 0 < name[i] as int < 0x100
    requires 0 <= o && o + size <= |data| && data[o..o + size] == EncodeFixedString(name, size)
    ensures FieldLength(data, o, size) == |name|
  {
    var w := data[o..o + size];
    var n := |name|;
    assert forall i | o <= i < o + n :: data[i] == w[i - o] == name[i - o] as int;
    if n < size {
      assert data[o + n] == w[n] == 0;
      FirstNulAt(data, o, size, n);
    } else {
      FirstNulNone(data, o, size);
    }
  }

  lemma {:induction false} FixedStringRoundTrip(data: seq<byte>, o: int, name: string, size: nat)
    requires |name| <= size && forall i | 0 <= i < |name| :: 0 < name[i] as int < 0x100
    requires 0 <= o && o + size <= |data| && data[o..o + size] == EncodeFixedString(name, size)
    ensures FixedString(data, o, size) == name
  {
    var n := |name|;
    EncodedFieldLength(data, o, name, size);
    forall i | 0 <= i < n
      ensures Chars(data, o, n)[i] == name[i]
    {
      var b := data[o..o + size][i];
      assert b == EncodeFixedString(name, size)[i] == name[i] as int;
      assert ByteAt(data, o + i) == b;
    }
    assert Chars(data, o, n) == name;
  }

  /** The `String.fromCharCode` loop of `readString`: one character per byte. */
  method CopyChars(data: seq<byte>, start: int, n: nat) returns (s: string)
    ensures s == Chars(data, start, n)
  {
    var arr := new char[n];
    for i := 0 to n
      invariant forall j | 0 <= j < i :: arr[j] == CharOf(ByteAt(data, start + j))
    {
      arr[i] := CharOf(ByteAt(data, start + i));
    }
    s := arr[..];
  }

  /**
   * The cursor: a Uint8Array and the `offset` every read advances.
   * `readAt` is the only read that leaves the cursor in place.
   */
  class Stream {
    const data: seq<byte>
    var offset: int

    constructor (data: seq<byte>, offset: int)
      ensures this.data == data && this.offset == offset
    {
      this.data := data;
      this.offset := offset;
    }

    method ReadString(size: nat) returns (s: string)
      modifies this
      ensures offset == old(offset) + size
      ensures s == FixedString(data, old(offset), size)
    {
      var start := offset;
      var end := start + size;
      var nul := IndexOfZero(Subarray(data, start, end));
      if nul < 0 {
        nul := size;
      }
      s := CopyChars(data, start, nul);
      offset := end;
    }

    method ReadWORD() returns (w: u16)
      modifies this
      ensures offset == old(offset) + 2
      ensures w == Word(data, old(offset))
    {
      var lo: int := ByteAt(data, offset);
      offset := offset + 1;
      var hi: int := ByteAt(data, offset);
      offset := offset + 1;
      w := lo + hi * 0x100;
    }

    method ReadDWORD(bigEndian: bool) returns (d: u32)
      modifies this
      ensures offset == old(offset) + 4
      ensures d == DWord(data, old(offset), bigEndian)
    {
      var b0: int := ByteAt(data, offset);
      offset := offset + 1;
      var b1: int := ByteAt(data, offset);
      offset := offset + 1;
      var b2: int := ByteAt(data, offset);
      offset := offset + 1;
      var b3: int := ByteAt(data, offset);
      offset := offset + 1;
      if bigEndian {
        d := b0 * 0x100_0000 + b1 * 0x1_0000 + b2 * 0x100 + b3;
      } else {
        d := b0 + b1 * 0x100 + b2 * 0x1_0000 + b3 * 0x100_0000;
      }
    }

    method ReadByte() returns (b: byte)
      modifies this
      ensures offset == old(offset) + 1
      ensures b == ByteAt(data, old(offset))
    {
      b := ByteAt(data, offset);
      offset := offset + 1;
    }

    /** The byte `k` places past the cursor; the cursor does not move. */
    method ReadAt(k: int) returns (b: byte)
      ensures b == ByteAt(data, offset + k)
    {
      b := ByteAt(data, offset + k);
    }

    method ReadUInt8() returns (b: byte)
      modifies this
      ensures offset == old(offset) + 1
      ensures b == ByteAt(data, old(offset))
    {
      b := ReadByte();
    }

    method ReadInt8() returns (r: int)
      modifies this
      ensures offset == old(offset) + 1
      ensures r == Signed8(ByteAt(data, old(offset)))
    {
      var b := ReadByte();
      r := Signed8(b);
    }

    method ReadUInt16() returns (w: u16)
      modifies this
      ensures offset == old(offset) + 2
      ensures w == Word(data, old(offset))
    {
      w := ReadWORD();
    }

    method ReadInt16() returns (r: int)
      modifies this
      ensures offset == old(offset) + 2
      ensures r == Signed16(Word(data, old(offset)))
    {
      var w := ReadWORD();
      r := Signed16(w);
    }

    method ReadUInt32() returns (d: u32)
      modifies this
      ensures offset == old(offset) + 4
      ensures d == DWord(data, old(offset), false)
    {
      d := ReadDWORD(false);
    }
  }
}
