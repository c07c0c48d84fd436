/** Octets, fixed-width unsigned integers and their big-endian form. */
module Octets {

  type octet = n: nat | n < 256
  type u16 = n: nat | n < 0x1_0000
  type u32 = n: nat | n < 0x1_0000_0000

  /** Conversion to an unsigned 32-bit integer, which keeps the low 32 bits. */
  function ToU32(n: nat): (r: u32)
    ensures r == n <==> n < 0x1_0000_0000
    ensures r <= n
  {
    n % 0x1_0000_0000
  }

  function PutU16(n: u16): (b: seq<octet>)
    ensures |b| == 2
  {
    [n / 256, n % 256]
  }

  function GetU16(b: seq<octet>): (n: u16)
    requires |b| == 2
  {
    (b[0] as int) * 256 + b[1]
  }

  function PutU32(n: u32): (b: seq<octet>)
    ensures |b| == 4
  {
    PutU16(n / 0x1_0000) + PutU16(n % 0x1_0000)
  }

  function GetU32(b: seq<octet>): (n: u32)
    requires |b| == 4
  {
    (GetU16(b[..2]) as int) * 0x1_0000 + GetU16(b[2..])
  }

  lemma {:induction false} U16RoundTrip(n: u16)
    ensures GetU16(PutU16(n)) == n
  {
  }

  lemma {:induction false} U16Reread(b: seq<octet>)
    requires |b| == 2
    ensures PutU16(GetU16(b)) == b
  {
  }

  lemma {:induction false} U32RoundTrip(n: u32)
    ensures GetU32(PutU32(n)) == n
  {
    var b := PutU32(n);
    assert b[..2] == PutU16(n / 0x1_0000);
    assert b[2..] == PutU16(n % 0x1_0000);
  }

  lemma {:induction false} U32Reread(b: seq<octet>)
    requires |b| == 4
    ensures PutU32(GetU32(b)) == b
  {
    U16Reread(b[..2]);
    U16Reread(b[2..]);
    assert b == b[..2] + b[2..];
  }
}
