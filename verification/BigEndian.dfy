/** Fixed-width big-endian numbers. */
module BigEndian {
  import opened Wrappers

  type u16 = n: nat | n < 0x1_0000
  type u32 = n: nat | n < 0x1_0000_0000

  function Bytes16(n: u16): (b: Bytes)
    ensures |b| == 2
  {
    [n / 0x100, n % 0x100]
  }

  function Bytes32(n: u32): (b: Bytes)
    ensures |b| == 4
  {
    Bytes16(n / 0x1_0000) + Bytes16(n % 0x1_0000)
  }

  function Number16(b: Bytes): u16
    requires |b| == 2
  {
    (b[0] as int) * 0x100 + b[1] as int
  }

  function Number32(b: Bytes): u32
    requires |b| == 4
  {
    Number16(b[..2]) * 0x1_0000 + Number16(b[2..])
  }

  lemma Number16OfBytes(n: u16)
    ensures Number16(Bytes16(n)) == n
  {
  }

  lemma Number32OfBytes(n: u32)
    ensures Number32(Bytes32(n)) == n
  {
    assert Bytes32(n)[..2] == Bytes16(n / 0x1_0000);
    assert Bytes32(n)[2..] == Bytes16(n % 0x1_0000);
  }
}
