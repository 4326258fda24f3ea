/** Byte encodings of characteristic values. */
module Encoding {
  import opened DBus

  /** A 16-bit field in little-endian order: least significant octet first. */
  function Le16(v: bv16): (b: seq<Byte>)
    ensures |b| == 2
  {
    [(v & 0xFF) as bv8, ((v >> 8) & 0xFF) as bv8]
  }

  /** The 16-bit value a little-endian octet pair denotes. */
  function Le16Value(b: seq<Byte>): bv16
    requires |b| == 2
  {
    ((b[1] as bv16) << 8) | (b[0] as bv16)
  }

  lemma Le16RoundTrip(v: bv16)
    ensures Le16Value(Le16(v)) == v
  {
  }

  lemma Le16ValueInverse(b: seq<Byte>)
    requires |b| == 2
    ensures Le16(Le16Value(b)) == b
  {
    assert Le16(Le16Value(b))[0] == b[0];
    assert Le16(Le16Value(b))[1] == b[1];
  }

  predicate IsAscii(s: string) {
    forall i :: 0 <= i < |s| ==> s[i] < 128 as char
  }

  /** The octet of one ASCII character. */
  function AsciiByte(c: char): (b: Byte)
    requires c < 128 as char
    ensures b as int == c as int
  {
    var n := c as int;
    (n as bv7) as Byte
  }

  /** The octets of an ASCII string, one per character. */
  function AsciiBytes(s: string): (b: seq<Byte>)
    requires IsAscii(s)
    ensures |b| == |s|
    ensures forall i :: 0 <= i < |s| ==> b[i] as int == s[i] as int
  {
    if s == [] then [] else AsciiBytes(s[..|s| - 1]) + [AsciiByte(s[|s| - 1])]
  }
}
