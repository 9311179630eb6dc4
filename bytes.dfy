/**
 * Vocabulary shared by every component: an optional value, bytes,
 * fixed-width unsigned integers, big-endian field encodings and the UTF-8
 * encoding that Python's `str.encode()` applies to file names and modes.
 */
module Bytes {

  datatype Option<T> = None | Some(value: T)

  type byte = b: int | 0 <= b < 0x100
  type u16 = n: int | 0 <= n < 0x1_0000
  type u32 = n: int | 0 <= n < 0x1_0000_0000

  /** `n.to_bytes(2, 'big')` for a value that fits. */
  function Be16(n: u16): seq<byte> {
    [n / 0x100, n % 0x100]
  }

  /** `(hi << 8) | lo`: how both ends read a 16-bit field. */
  function Be16Value(hi: byte, lo: byte): u16 {
    hi * 0x100 + lo
  }

  /** `n.to_bytes(4, 'big')`. */
  function Be32(n: u32): seq<byte> {
    [n / 0x100_0000, (n / 0x1_0000) % 0x100, (n / 0x100) % 0x100, n % 0x100]
  }

  /** `(b0 << 24) | (b1 << 16) | (b2 << 8) | b3`. */
  function Be32Value(b0: byte, b1: byte, b2: byte, b3: byte): u32 {
    b0 * 0x100_0000 + b1 * 0x1_0000 + b2 * 0x100 + b3
  }

  lemma Be16RoundTrip(n: u16)
    ensures |Be16(n)| == 2 && Be16Value(Be16(n)[0], Be16(n)[1]) == n
  {
  }

  /** Distinct 16-bit values have distinct encodings. */
  lemma Be16Injective(m: u16, n: u16)
    ensures Be16(m) == Be16(n) <==> m == n
  {
    Be16RoundTrip(m);
    Be16RoundTrip(n);
  }

  lemma Be32RoundTrip(n: u32)
    ensures |Be32(n)| == 4 && Be32Value(Be32(n)[0], Be32(n)[1], Be32(n)[2], Be32(n)[3]) == n
  {
    var b := Be32(n);
    assert n == (n / 0x100_0000) * 0x100_0000 + ((n / 0x1_0000) % 0x100) * 0x1_0000
                + ((n / 0x100) % 0x100) * 0x100 + n % 0x100;
  }

  /** The UTF-8 encoding of one Unicode scalar value. */
  function Utf8Char(c: char): (r: seq<byte>)
    ensures 1 <= |r| <= 4
  {
    var n := c as int;
    if n < 0x80 then [n]
    else if n < 0x800 then [0xC0 + n / 0x40, 0x80 + n % 0x40]
    else if n < 0x1_0000 then [0xE0 + n / 0x1000, 0x80 + (n / 0x40) % 0x40, 0x80 + n % 0x40]
    else [0xF0 + n / 0x4_0000, 0x80 + (n / 0x1000) % 0x40, 0x80 + (n / 0x40) % 0x40, 0x80 + n % 0x40]
  }

  /** `s.encode()` (UTF-8). */
  function Utf8(s: string): seq<byte>
  {
    if s == [] then [] else Utf8Char(s[0]) + Utf8(s[1..])
  }

  /** A character other than NUL never encodes to a zero byte. */
  lemma Utf8CharNonZero(c: char)
    requires c != '\0'
    ensures 0 !in Utf8Char(c)
  {
  }

  /** A string without NUL encodes to bytes without a zero byte, so a
    * NUL terminator after it is the first zero byte. */
  lemma {:induction false} Utf8NoZero(s: string)
    requires '\0' !in s
    ensures 0 !in Utf8(s)
  {
    if s != [] {
      Utf8CharNonZero(s[0]);
      Utf8NoZero(s[1..]);
    }
  }

  /** On ASCII text the encoding is one byte per character. */
  lemma {:induction false} Utf8Ascii(s: string)
    requires forall i :: 0 <= i < |s| ==> s[i] as int < 0x80
    ensures |Utf8(s)| == |s|
    ensures forall i :: 0 <= i < |s| ==> Utf8(s)[i] == s[i] as int
  {
    if s != [] {
      Utf8Ascii(s[1..]);
    }
  }

  /** Encoding distributes over concatenation. */
  lemma {:induction false} Utf8Append(s: string, t: string)
    ensures Utf8(s + t) == Utf8(s) + Utf8(t)
  {
    if s == [] {
      assert s + t == t;
    } else {
      assert (s + t)[1..] == s[1..] + t;
      Utf8Append(s[1..], t);
    }
  }
}
