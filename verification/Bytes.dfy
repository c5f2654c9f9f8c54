/** Octets, optional values and the big-endian integers of frame headers. */
module Bytes {
  type byte = b: int | 0 <= b < 256

  datatype Option<+T> = None | Some(value: T)

  const TWO_31: int := 0x8000_0000
  const TWO_32: int := 0x1_0000_0000
  const TWO_63: int := 0x8000_0000_0000_0000
  const TWO_64: int := 0x1_0000_0000_0000_0000

  function Pow256(width: nat): (p: nat)
    ensures p > 0
  {
    if width == 0 then 1 else 256 * Pow256(width - 1)
  }

  lemma FourOctets()
    ensures Pow256(4) == TWO_32
  {
    assert Pow256(2) == 0x1_0000 && Pow256(3) == 0x100_0000;
  }

  /** The low octets of n, the most significant first: htonl for a width of four. */
  function BigEndian(n: nat, width: nat): (s: seq<byte>)
    ensures |s| == width
  {
    if width == 0 then [] else BigEndian(n / 256, width - 1) + [n % 256]
  }

  /** ntohl, for any number of octets. */
  function FromBigEndian(s: seq<byte>): (n: nat)
    ensures n < Pow256(|s|)
  {
    if s == [] then 0 else FromBigEndian(s[..|s| - 1]) * 256 + s[|s| - 1]
  }

  lemma {:induction false} BigEndianRoundTrip(n: nat, width: nat)
    requires n < Pow256(width)
    ensures FromBigEndian(BigEndian(n, width)) == n
    decreases width
  {
    if width > 0 {
      BigEndianRoundTrip(n / 256, width - 1);
      var s := BigEndian(n, width);
      assert s[..width - 1] == BigEndian(n / 256, width - 1);
    }
  }

  lemma {:induction false} BigEndianOfOctets(s: seq<byte>)
    ensures BigEndian(FromBigEndian(s), |s|) == s
    decreases |s|
  {
    if s != [] {
      var high := s[..|s| - 1];
      BigEndianOfOctets(high);
      assert FromBigEndian(s) / 256 == FromBigEndian(high) && FromBigEndian(s) % 256 == s[|s| - 1];
      assert s == high + [s[|s| - 1]];
    }
  }

  /** Of four octets the first is the most significant. */
  lemma MostSignificantFirst(a: byte, b: byte, c: byte, d: byte)
    ensures BigEndian(a * 0x100_0000 + b * 0x1_0000 + c * 0x100 + d, 4) == [a, b, c, d]
  {
    var n := a * 0x100_0000 + b * 0x1_0000 + c * 0x100 + d;
    assert n % 256 == d && n / 256 == a * 0x1_0000 + b * 0x100 + c;
    assert (n / 256) % 256 == c && n / 256 / 256 == a * 0x100 + b;
    assert (n / 256 / 256) % 256 == b && n / 256 / 256 / 256 == a;
    assert BigEndian(a, 1) == [a];
    assert BigEndian(a * 0x100 + b, 2) == [a, b];
    assert BigEndian(a * 0x1_0000 + b * 0x100 + c, 3) == [a, b, c];
  }
}
