/** Bytes and the fixed-width little-endian integers that bincode writes. */
module Bincode {
  type byte = x: int | 0 <= x < 0x100
  type Bytes = seq<byte>
  type u16 = x: int | 0 <= x < 0x1_0000
  type u32 = x: int | 0 <= x < 0x1_0000_0000

  /** Why a message could not be read or written. */
  datatype WireError = UnexpectedEof | Malformed | VersionMismatch | ConnectionLost

  function U16(n: u16): Bytes {
    [n % 0x100, n / 0x100]
  }

  function FromU16(s: Bytes): u16
    requires |s| == 2
  {
    var (low: int, high: int) := (s[0], s[1]);
    low + 0x100 * high
  }

  function U32(n: u32): Bytes {
    U16(n % 0x1_0000) + U16(n / 0x1_0000)
  }

  function FromU32(s: Bytes): u32
    requires |s| == 4
  {
    var (low: int, high: int) := (FromU16(s[..2]), FromU16(s[2..]));
    low + 0x1_0000 * high
  }

  /** Least significant byte first. */
  lemma U32Bytes(n: u32)
    ensures U32(n) == [n % 0x100, n / 0x100 % 0x100, n / 0x1_0000 % 0x100, n / 0x100_0000]
  {
    assert n % 0x1_0000 % 0x100 == n % 0x100 && n % 0x1_0000 / 0x100 == n / 0x100 % 0x100;
    assert n / 0x1_0000 / 0x100 == n / 0x100_0000;
  }

  lemma FromU16Inverts(s: Bytes)
    requires |s| == 2
    ensures U16(FromU16(s)) == s
  {
  }

  /** Any four bytes are some integer's. */
  lemma FromU32Inverts(s: Bytes)
    requires |s| == 4
    ensures U32(FromU32(s)) == s
  {
    assert s[..2] + s[2..] == s;
    FromU16Inverts(s[..2]);
    FromU16Inverts(s[2..]);
  }

  lemma U16RoundTrip(n: u16)
    ensures FromU16(U16(n)) == n
  {
  }

  lemma U32RoundTrip(n: u32)
    ensures FromU32(U32(n)) == n
  {
    assert U32(n)[..2] == U16(n % 0x1_0000) && U32(n)[2..] == U16(n / 0x1_0000);
    U16RoundTrip(n % 0x1_0000);
    U16RoundTrip(n / 0x1_0000);
  }

  /** Three strings laid end to end come apart again at their lengths. */
  lemma Split3(a: Bytes, b: Bytes, c: Bytes)
    ensures (a + b + c)[..|a|] == a
    ensures (a + b + c)[|a|..] == b + c
    ensures (a + b + c)[|a|..][..|b|] == b
    ensures (a + b + c)[|a| + |b|..] == c
  {
    assert (a + b + c)[|a|..] == b + c;
  }
}
