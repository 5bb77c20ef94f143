/** Bytes, fixed-width unsigned integers and the byte orders used on the wire. */
module Bytes {

  type byte = x: int | 0 <= x < 0x100
  type uint24 = x: int | 0 <= x < 0x1_000000
  type uint32 = x: int | 0 <= x < 0x1_0000_0000
  type int32 = x: int | -0x8000_0000 <= x < 0x8000_0000

  const MAX_UINT24: uint24 := 0xff_ffff
  const MAX_UINT32: uint32 := 0xffff_ffff

  function Min(a: int, b: int): int {
    if a < b then a else b
  }

  /** Go's `uint32(x)` on any integer. */
  function Wrap32(x: int): uint32 {
    x % 0x1_0000_0000
  }

  lemma WrapAdds(x: nat, y: nat)
    ensures Wrap32(Wrap32(x) + y) == Wrap32(x + y)
  {
  }

  /** Big-endian, 32 bits. */
  function BE32(x: uint32): (s: seq<byte>)
    ensures |s| == 4
  {
    var y := x / 0x100;
    var z := y / 0x100;
    [z / 0x100, z % 0x100, y % 0x100, x % 0x100]
  }

  function U32(s: seq<byte>): uint32
    requires |s| == 4
  {
    ((((s[0] as int) * 0x100 + s[1]) * 0x100) + s[2]) * 0x100 + s[3]
  }

  /** Big-endian, low 24 bits: the three last bytes of the 32-bit form. */
  function BE24(x: uint32): (s: seq<byte>)
    ensures |s| == 3
  {
    BE32(x)[1..]
  }

  function U24(s: seq<byte>): uint32
    requires |s| == 3
  {
    U32([0] + s)
  }

  /** Little-endian, 32 bits. */
  function LE32(x: uint32): (s: seq<byte>)
    ensures |s| == 4
  {
    var y := x / 0x100;
    var z := y / 0x100;
    [x % 0x100, y % 0x100, z % 0x100, z / 0x100]
  }

  function FromLE32(s: seq<byte>): uint32
    requires |s| == 4
  {
    U32([s[3], s[2], s[1], s[0]])
  }

  /** Big-endian, 16 bits. */
  function BE16(x: int): (s: seq<byte>)
    requires 0 <= x < 0x1_0000
    ensures |s| == 2
  {
    [x / 0x100, x % 0x100]
  }

  function U16(s: seq<byte>): (x: int)
    requires |s| == 2
    ensures 0 <= x < 0x1_0000
  {
    (s[0] as int) * 0x100 + s[1]
  }

  /** Two's complement reading of 32 bits: Go's `int32(u)`. */
  function ToInt32(u: uint32): int32 {
    if u < 0x8000_0000 then u else u - 0x1_0000_0000
  }

  lemma QuotientAndRemainder(x: int, q: int, r: byte)
    requires x == q * 0x100 + r
    ensures x / 0x100 == q && x % 0x100 == r
  {
  }

  lemma BE32RoundTrip(x: uint32)
    ensures U32(BE32(x)) == x
  {
    var y := x / 0x100;
    var z := y / 0x100;
    assert x == y * 0x100 + x % 0x100 && y == z * 0x100 + y % 0x100 && z == z / 0x100 * 0x100 + z % 0x100;
  }

  lemma U32RoundTrip(s: seq<byte>)
    requires |s| == 4
    ensures BE32(U32(s)) == s
  {
    var z: int := (s[0] as int) * 0x100 + s[1];
    var y := z * 0x100 + s[2];
    QuotientAndRemainder(U32(s), y, s[3]);
    QuotientAndRemainder(y, z, s[2]);
    QuotientAndRemainder(z, s[0], s[1]);
  }

  /** Twenty-four bits survive exactly; anything above them is dropped. */
  lemma BE24RoundTrip(x: uint32)
    ensures U24(BE24(x)) == x % 0x1_000000
  {
    BE32RoundTrip(x);
    var b := BE32(x);
    assert [0] + BE24(x) == [0, b[1], b[2], b[3]];
  }

  lemma U24RoundTrip(s: seq<byte>)
    requires |s| == 3
    ensures U24(s) < 0x1_000000 && BE24(U24(s)) == s
  {
    U32RoundTrip([0] + s);
  }

  lemma LE32RoundTrip(x: uint32)
    ensures FromLE32(LE32(x)) == x
  {
    BE32RoundTrip(x);
    var b := BE32(x);
    var l := LE32(x);
    assert [l[3], l[2], l[1], l[0]] == b;
  }
}
