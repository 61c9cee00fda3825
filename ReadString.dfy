/**
 * The free-standing `readString(data, start, end)` (src/readString.ts): the whole
 * window as characters, cut at the first NUL only when that NUL is not the first
 * character.  Unlike `Stream.readString`, a leading NUL keeps the whole window.
 */
module StringReader {
  import opened ByteStream

  /** `readString(data, start, end)`. */
  function ReadString(data: seq<byte>, start: int, end: int): (s: string)
    ensures s <= Latin1(Subarray(data, start, end))
    ensures start <= end ==> |s| <= end - start
  {
    var window := Subarray(data, start, end);
    var str := Latin1(window);
    // One character per byte, so the first "\0" of `str` is the first zero byte.
    var nul := IndexOfZero(window);
    if nul > 0 then str[..nul] else str
  }

  /** Inside the buffer the search runs over the buffer's own window. */
  lemma Inside(data: seq<byte>, start: int, end: int)
    requires 0 <= start <= end <= |data|
    ensures Subarray(data, start, end) == data[start..end]
    ensures IndexOfZero(data[start..end]) == FirstNul(data, start, end - start)
  {
  }

  /** A first NUL at position `p > 0` cuts the result to the `p` characters before it. */
  lemma {:induction false} ReadStringCut(data: seq<byte>, start: int, end: int, p: nat)
    requires 0 <= start <= end <= |data| && 0 < p < end - start
    requires data[start + p] == 0 && forall i | start <= i < start + p :: data[i] != 0
    ensures ReadString(data, start, end) == Latin1(data[start..start + p])
  {
    Inside(data, start, end);
    FirstNulAt(data, start, end - start, p);
    var w := data[start..end];
    assert w[..p] == data[start..start + p];
    assert Latin1(w)[..p] == Latin1(w[..p]);
  }

  /** Without a NUL, or with a NUL in the first position, the whole window comes back. */
  lemma {:induction false} ReadStringWhole(data: seq<byte>, start: int, end: int)
    requires 0 <= start <= end <= |data|
    requires (forall i | start <= i < end :: data[i] != 0) || (start < end && data[start] == 0)
    ensures ReadString(data, start, end) == Latin1(data[start..end])
  {
    Inside(data, start, end);
    if start < end && data[start] == 0 {
      FirstNulAt(data, start, end - start, 0);
    } else {
      FirstNulNone(data, start, end - start);
    }
  }

  /**
   * Both string readers agree on a window inside the buffer unless that window
   * starts with a NUL: then the cursor's reader gives "" and this one the whole window.
   */
  lemma {:induction false} AgreesWithStream(data: seq<byte>, start: int, size: nat)
    requires 0 <= start && start + size <= |data|
    requires size == 0 || data[start] != 0
    ensures ReadString(data, start, start + size) == FixedString(data, start, size)
  {
    Inside(data, start, start + size);
    var nul := FirstNul(data, start, size);
    FirstNulInside(data, start, size);
    if nul < 0 {
      FixedStringWhole(data, start, size);
    } else {
      assert nul > 0;
      FixedStringCut(data, start, size, nul);
      ReadStringCut(data, start, start + size, nul);
    }
  }

  /** The leading-NUL case where the two readers differ. */
  lemma LeadingNulDiffers(data: seq<byte>, start: int, size: nat)
    requires 0 <= start && start + size <= |data| && 0 < size
    requires data[start] == 0
    ensures FixedString(data, start, size) == ""
    ensures |ReadString(data, start, start + size)| == size
  {
    FixedStringLeadingNul(data, start, size);
    ReadStringWhole(data, start, start + size);
  }
}
