/** Little-endian integer codecs over byte sequences, as `struct` packs and
    unpacks them with the `<` (little-endian, standard size) prefix. */
module Bytes {

  type byte = b: int | 0 <= b < 256

  const U16_LIMIT: nat := 0x1_0000
  const U32_LIMIT: nat := 0x1_0000_0000
  const I16_MIN: int := -0x8000
  const I16_MAX: int := 0x7FFF
  const I32_MIN: int := -0x8000_0000
  const I32_MAX: int := 0x7FFF_FFFF

  /** `struct.unpack_from('<H', s, off)`: s[off] is the least significant byte. */
  function U16At(s: seq<byte>, off: nat): (r: nat)
    requires off + 2 <= |s|
    ensures r < U16_LIMIT
  {
    s[off] as nat + 0x100 * (s[off + 1] as nat)
  }

  /** `struct.unpack_from('<L', s, off)`. */
  function U32At(s: seq<byte>, off: nat): (r: nat)
    requires off + 4 <= |s|
    ensures r < U32_LIMIT
  {
    U16At(s, off) + U16_LIMIT * U16At(s, off + 2)
  }

  /** `struct.unpack_from('<h', s, off)`: two's complement. */
  function I16At(s: seq<byte>, off: nat): (r: int)
    requires off + 2 <= |s|
    ensures I16_MIN <= r <= I16_MAX
    ensures r == U16At(s, off) || r == U16At(s, off) - U16_LIMIT
  {
    var u := U16At(s, off);
    if u <= I16_MAX then u else u - U16_LIMIT
  }

  /** `struct.unpack_from('<l', s, off)`: two's complement. */
  function I32At(s: seq<byte>, off: nat): (r: int)
    requires off + 4 <= |s|
    ensures I32_MIN <= r <= I32_MAX
    ensures r == U32At(s, off) || r == U32At(s, off) - U32_LIMIT
    ensures U32At(s, off) <= I32_MAX ==> r == U32At(s, off)
  {
    var u := U32At(s, off);
    if u <= I32_MAX then u else u - U32_LIMIT
  }

  /** A field reads the same in a longer sequence that holds it. */
  lemma I32AtAppend(a: seq<byte>, b: seq<byte>, off: nat)
    requires off + 4 <= |a + b|
    ensures off + 4 <= |a| ==> I32At(a + b, off) == I32At(a, off)
    ensures |a| <= off ==> I32At(a + b, off) == I32At(b, off - |a|)
  {
  }

  /** `struct.pack('<H', x)`. */
  function PackU16(x: nat): (r: seq<byte>)
    requires x < U16_LIMIT
    ensures |r| == 2 && U16At(r, 0) == x
  {
    [x % 0x100, x / 0x100]
  }

  /** `struct.pack('<L', x)`: the low half, then the high half. */
  function PackU32(x: nat): (r: seq<byte>)
    requires x < U32_LIMIT
    ensures |r| == 4 && U32At(r, 0) == x
  {
    var lo, hi := PackU16(x % U16_LIMIT), PackU16(x / U16_LIMIT);
    assert U32At(lo + hi, 0) == U16At(lo, 0) + U16_LIMIT * U16At(hi, 0);
    lo + hi
  }

  /** `struct.pack('<h', x)`. */
  function PackI16(x: int): (r: seq<byte>)
    requires I16_MIN <= x <= I16_MAX
    ensures |r| == 2 && I16At(r, 0) == x
  {
    PackU16(if x >= 0 then x else x + U16_LIMIT)
  }

  /** `struct.pack('<l', x)`. */
  function PackI32(x: int): (r: seq<byte>)
    requires I32_MIN <= x <= I32_MAX
    ensures |r| == 4 && I32At(r, 0) == x
  {
    PackU32(if x >= 0 then x else x + U32_LIMIT)
  }

  /** Packing the value two bytes hold gives the bytes back. */
  lemma PackReadU16(s: seq<byte>, off: nat)
    requires off + 2 <= |s|
    ensures PackU16(U16At(s, off)) == s[off..off + 2]
  {
    var u := U16At(s, off);
    assert u % 0x100 == s[off] && u / 0x100 == s[off + 1];
  }

  /** Packing the value four bytes hold gives the bytes back. */
  lemma PackReadU32(s: seq<byte>, off: nat)
    requires off + 4 <= |s|
    ensures PackU32(U32At(s, off)) == s[off..off + 4]
  {
    var lo, hi := U16At(s, off), U16At(s, off + 2);
    assert (lo + U16_LIMIT * hi) % U16_LIMIT == lo && (lo + U16_LIMIT * hi) / U16_LIMIT == hi;
    PackReadU16(s, off);
    PackReadU16(s, off + 2);
  }

  /** Packing the signed value four bytes hold gives the bytes back. */
  lemma PackReadI32(s: seq<byte>, off: nat)
    requires off + 4 <= |s|
    ensures PackI32(I32At(s, off)) == s[off..off + 4]
  {
    PackReadU32(s, off);
  }

  /** Packing the signed value two bytes hold gives the bytes back. */
  lemma PackReadI16(s: seq<byte>, off: nat)
    requires off + 2 <= |s|
    ensures PackI16(I16At(s, off)) == s[off..off + 2]
  {
    PackReadU16(s, off);
  }

  /** A non-negative value packed signed or unsigned gives the same bytes, so
      it reads back the same through `<L`. */
  lemma PackI32Unsigned(x: nat)
    requires x <= I32_MAX
    ensures PackI32(x) == PackU32(x) && U32At(PackI32(x), 0) == x
  {
  }
}
