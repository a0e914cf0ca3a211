/** Bytes and big-endian words. */
module Bytes {

  type byte = n: nat | n < 256

  /** The `len` low bytes of `value`, most significant first. */
  function BigEndian(value: nat, len: nat): (bytes: seq<byte>)
    ensures |bytes| == len
  {
    if len == 0 then [] else BigEndian(value / 256, len - 1) + [value % 256]
  }

  function FromBigEndian(bytes: seq<byte>): nat {
    if bytes == [] then 0 else FromBigEndian(bytes[..|bytes| - 1]) * 256 + bytes[|bytes| - 1]
  }

  function Power256(n: nat): (p: nat)
    ensures p > 0
  {
    if n == 0 then 1 else 256 * Power256(n - 1)
  }

  /** Reading back what was written gives the value, as long as it fits. */
  lemma {:induction false} BigEndianRoundTrip(value: nat, len: nat)
    requires value < Power256(len)
    ensures FromBigEndian(BigEndian(value, len)) == value
  {
    if len > 0 {
      BigEndianRoundTrip(value / 256, len - 1);
      var bytes := BigEndian(value, len);
      assert bytes[..len - 1] == BigEndian(value / 256, len - 1);
    }
  }

  lemma BigEndianInjective(a: nat, b: nat, len: nat)
    requires a < Power256(len) && b < Power256(len) && BigEndian(a, len) == BigEndian(b, len)
    ensures a == b
  {
    BigEndianRoundTrip(a, len);
    BigEndianRoundTrip(b, len);
  }

  /** 32 bytes hold exactly the 256-bit numbers. */
  lemma Power256Of32()
    ensures Power256(32) == 0x1_0000_0000_0000_0000_0000_0000_0000_0000_0000_0000_0000_0000_0000_0000_0000_0000
  {
    assert Power256(8) == 0x1_0000_0000_0000_0000;
    assert Power256(16) == 0x1_0000_0000_0000_0000_0000_0000_0000_0000;
    assert Power256(24) == 0x1_0000_0000_0000_0000_0000_0000_0000_0000_0000_0000_0000_0000;
  }
}
