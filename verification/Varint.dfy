/** Base 128 varints, as the Protocol Buffers Encoding specification defines them in its
    section "Base 128 Varints": seven bits an octet, least significant group first. */
module Varint {
  import opened Bytes

  /** A decoder gives up after ten octets. */
  const MAX_VARINT_BYTES: nat := 10

  datatype Read = Read(value: nat, used: nat)

  function Pow128(k: nat): (p: nat)
    ensures p > 0
  {
    if k == 0 then 1 else 128 * Pow128(k - 1)
  }

  function Encode(n: nat): (s: seq<byte>)
    ensures |s| >= 1
  {
    if n < 128 then [n] else [n % 128 + 128] + Encode(n / 128)
  }

  function Size(n: nat): (k: nat)
    ensures k >= 1
  {
    if n < 128 then 1 else 1 + Size(n / 128)
  }

  function Decode(s: seq<byte>, limit: nat): (r: Option<Read>)
    ensures r.Some? ==> 1 <= r.value.used <= |s| && r.value.used <= limit
    decreases |s|
  {
    if limit == 0 || |s| == 0 then None
    else if s[0] < 128 then Some(Read(s[0], 1))
    else
      match Decode(s[1..], limit - 1)
      case None => None
      case Some(r) => Some(Read((s[0] as int) - 128 + 128 * r.value, r.used + 1))
  }

  lemma {:induction false} EncodeSize(n: nat)
    ensures |Encode(n)| == Size(n)
  {
    if n >= 128 {
      EncodeSize(n / 128);
    }
  }

  /** A varint of n takes at most k octets exactly when n has at most 7 k bits. */
  lemma {:induction false} SizeIsSevenBitsAnOctet(n: nat, k: nat)
    requires k >= 1
    ensures Size(n) <= k <==> n < Pow128(k)
    decreases k
  {
    if k == 1 {
      assert Pow128(1) == 128;
    } else if n >= 128 {
      SizeIsSevenBitsAnOctet(n / 128, k - 1);
    } else {
      assert Pow128(k - 1) > 0;
    }
  }

  /** The low seven bits of the octets, the first the least significant. */
  function Groups(s: seq<byte>): nat {
    if s == [] then 0 else s[0] % 128 + 128 * Groups(s[1..])
  }

  /** The octets carry n in groups of seven bits, and all but the last have the high bit set. */
  lemma {:induction false} LeastSignificantFirst(n: nat)
    ensures Groups(Encode(n)) == n
    ensures forall i :: 0 <= i < |Encode(n)| ==> (Encode(n)[i] >= 128 <==> i < |Encode(n)| - 1)
  {
    if n >= 128 {
      LeastSignificantFirst(n / 128);
      assert Encode(n)[1..] == Encode(n / 128);
    } else {
      assert [n][1..] == [];
    }
  }

  /** What follows a varint does not change how it is read. */
  lemma {:induction false} DecodeAppend(s: seq<byte>, t: seq<byte>, limit: nat)
    requires Decode(s, limit).Some?
    ensures Decode(s + t, limit) == Decode(s, limit)
    decreases |s|
  {
    assert (s + t)[0] == s[0];
    if s[0] >= 128 {
      assert (s + t)[1..] == s[1..] + t;
      DecodeAppend(s[1..], t, limit - 1);
    }
  }

  lemma {:induction false} RoundTrip(n: nat, t: seq<byte>, limit: nat)
    requires limit > 0 && n < Pow128(limit)
    ensures Decode(Encode(n) + t, limit) == Some(Read(n, |Encode(n)|))
    decreases limit
  {
    var s := Encode(n) + t;
    if n < 128 {
      assert s[0] == n;
    } else {
      assert s[0] == n % 128 + 128;
      assert s[1..] == Encode(n / 128) + t;
      assert n / 128 < Pow128(limit - 1);
      RoundTrip(n / 128, t, limit - 1);
    }
  }

  lemma TenBytesHold64Bits()
    ensures TWO_64 <= Pow128(MAX_VARINT_BYTES)
  {
    assert Pow128(2) == 0x4000;
    assert Pow128(4) == 0x1000_0000;
    assert Pow128(6) == 0x400_0000_0000;
    assert Pow128(8) == 0x100_0000_0000_0000;
    assert Pow128(10) == 0x40_0000_0000_0000_0000;
  }

  /** A 64-bit value always comes back, whatever follows it. */
  lemma RoundTrip64(n: nat, t: seq<byte>)
    requires n < TWO_64
    ensures Decode(Encode(n) + t, MAX_VARINT_BYTES) == Some(Read(n, |Encode(n)|))
  {
    TenBytesHold64Bits();
    RoundTrip(n, t, MAX_VARINT_BYTES);
  }

  /** int32 and int64 fields both travel as 64-bit two's complement. */
  function ToWire(i: int): (n: nat)
    requires -TWO_63 <= i < TWO_63
    ensures n < TWO_64
  {
    if i < 0 then i + TWO_64 else i
  }

  function FromWire64(n: nat): (i: int)
    ensures -TWO_63 <= i < TWO_63
  {
    var w := n % TWO_64;
    if w >= TWO_63 then w - TWO_64 else w
  }

  /** An int32 reader keeps the low 32 bits of what it read. */
  function FromWire32(n: nat): (i: int)
    ensures -TWO_31 <= i < TWO_31
  {
    var w := n % TWO_32;
    if w >= TWO_31 then w - TWO_32 else w
  }

  lemma SignedRoundTrip(i: int)
    requires -TWO_63 <= i < TWO_63
    ensures FromWire64(ToWire(i)) == i
    ensures -TWO_31 <= i < TWO_31 ==> FromWire32(ToWire(i)) == i
  {
    if -TWO_31 <= i < 0 {
      assert (i + TWO_64) % TWO_32 == i + TWO_32 by {
        assert i + TWO_64 == (i + TWO_32) + (TWO_32 - 1) * TWO_32;
      }
    }
  }

  /** Written, a number is its own remainder modulo 2^64; read, it is the one of its type that is
      equal to what was read modulo the type's width. */
  lemma TwosComplement(i: int, n: nat)
    requires -TWO_63 <= i < TWO_63
    ensures ToWire(i) == i % TWO_64
    ensures FromWire64(n) % TWO_64 == n % TWO_64
    ensures FromWire32(n) % TWO_32 == n % TWO_32
  {
  }

  /** So every negative number takes ten octets. */
  lemma NegativeTakesTen(i: int)
    requires -TWO_63 <= i < 0
    ensures |Encode(ToWire(i))| == 10
  {
    EncodeSize(ToWire(i));
    TenBytesHold64Bits();
    SizeIsSevenBitsAnOctet(ToWire(i), 10);
    SizeIsSevenBitsAnOctet(ToWire(i), 9);
    assert Pow128(9) == TWO_63 by {
      assert Pow128(3) == 0x20_0000 && Pow128(6) == 0x400_0000_0000;
    }
  }
}
