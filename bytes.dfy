/// Bytes, big-endian unsigned integers and UTF-8 encoding, as the packet
/// builders and readers use them (`byteorder`'s `BigEndian` writers and
/// readers, `str::as_bytes`).
module Bytes {
  import opened Common

  type Byte = x: nat | x < 256

  const U16_LIMIT: nat := 0x1_0000
  const U32_LIMIT: nat := 0x1_0000_0000

  /// 256 to the power `n`: one more than the largest `n`-byte value.
  function Pow256(n: nat): (r: nat)
    ensures r >= 1
  {
    if n == 0 then 1 else 256 * Pow256(n - 1)
  }

  /// `n` bytes holding `v` most significant first; `v` is cut to its low
  /// `n` bytes, as a write of a narrower integer type would.
  function BeBytes(v: nat, n: nat): (r: seq<Byte>)
    ensures |r| == n
  {
    if n == 0 then [] else BeBytes(v / 256, n - 1) + [v % 256]
  }

  /// The unsigned value of bytes read most significant first.
  function BeValue(bs: seq<Byte>): (r: nat)
    ensures r < Pow256(|bs|)
  {
    if |bs| == 0 then 0 else BeValue(bs[..|bs| - 1]) * 256 + bs[|bs| - 1]
  }

  /// Reading back what was written recovers the value, when it fits.
  lemma {:induction false} BeValueOfBytes(v: nat, n: nat)
    requires v < Pow256(n)
    ensures BeValue(BeBytes(v, n)) == v
  {
    if n > 0 {
      var bs := BeBytes(v, n);
      assert bs[..n - 1] == BeBytes(v / 256, n - 1);
      BeValueOfBytes(v / 256, n - 1);
    }
  }

  /// Writing back what was read recovers the bytes.
  lemma {:induction false} BeBytesOfValue(bs: seq<Byte>)
    ensures BeBytes(BeValue(bs), |bs|) == bs
  {
    if |bs| > 0 {
      var init := bs[..|bs| - 1];
      BeBytesOfValue(init);
      var v := BeValue(bs);
      assert v / 256 == BeValue(init) && v % 256 == bs[|bs| - 1];
      assert bs == init + [bs[|bs| - 1]];
    }
  }

  // ---------------------------------------------------------------------
  // UTF-8
  // ---------------------------------------------------------------------

  /// The UTF-8 bytes of one character (section 3 of RFC 3629).
  function Utf8Char(c: char): (r: seq<Byte>)
    ensures |r| == Utf8Width(c)
  {
    var v := c as int;
    if v < 0x80 then [v]
    else if v < 0x800 then [0xC0 + v / 0x40, 0x80 + v % 0x40]
    else if v < 0x10000 then [0xE0 + v / 0x1000, 0x80 + (v / 0x40) % 0x40, 0x80 + v % 0x40]
    else [0xF0 + v / 0x40000, 0x80 + (v / 0x1000) % 0x40, 0x80 + (v / 0x40) % 0x40, 0x80 + v % 0x40]
  }

  /// `s.as_bytes()`.
  function Utf8(s: string): (r: seq<Byte>)
    ensures |r| == ByteLen(s)
  {
    if |s| == 0 then [] else Utf8Char(s[0]) + Utf8(s[1..])
  }

  /// Encoding distributes over concatenation.
  lemma {:induction false} Utf8Append(a: string, b: string)
    ensures Utf8(a + b) == Utf8(a) + Utf8(b)
    decreases |a|
  {
    if |a| > 0 {
      assert (a + b)[1..] == a[1..] + b;
      Utf8Append(a[1..], b);
    } else {
      assert a + b == b;
    }
  }

  /// ASCII text encodes byte for byte.
  lemma {:induction false} Utf8Ascii(s: string)
    requires forall i :: 0 <= i < |s| ==> s[i] as int < 0x80
    ensures Utf8(s) == seq(|s|, i requires 0 <= i < |s| => s[i] as int)
    decreases |s|
  {
    if |s| > 0 {
      Utf8Ascii(s[1..]);
    }
  }
}
