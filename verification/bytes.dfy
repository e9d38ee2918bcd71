/** Bytes and the big-endian 32-bit integers PNG uses for chunk lengths, CRCs and
    the IHDR width and height (section 7.1 of the PNG specification, ISO/IEC 15948). */
module Bytes {

  newtype byte = x: int | 0 <= x < 256

  const TWO_TO_32: nat := 0x1_0000_0000

  /** The 32-bit unsigned range that `struct.pack('>I', n)` and `n.to_bytes(4, 'big')` accept. */
  predicate IsU32(n: int) {
    0 <= n < TWO_TO_32
  }

  /** Reads four bytes as a big-endian unsigned integer. */
  function DecodeBE32(s: seq<byte>): (n: nat)
    requires |s| == 4
    ensures IsU32(n)
  {
    ((s[0] as nat * 256 + s[1] as nat) * 256 + s[2] as nat) * 256 + s[3] as nat
  }

  /** `struct.pack('>I', n)`: the four big-endian bytes of `n`; the inverse of DecodeBE32. */
  function BE32(n: nat): (r: seq<byte>)
    requires IsU32(n)
    ensures |r| == 4
    ensures DecodeBE32(r) == n
  {
    var n1 := n / 256;
    var n2 := n1 / 256;
    var n3 := n2 / 256;
    [(n3 % 256) as byte, (n2 % 256) as byte, (n1 % 256) as byte, (n % 256) as byte]
  }

  /** Every four-byte string is the encoding of the number it decodes to. */
  lemma BE32OfDecode(s: seq<byte>)
    requires |s| == 4
    ensures BE32(DecodeBE32(s)) == s
  {
    var n := DecodeBE32(s);
    var a, b, c, d := s[0] as nat, s[1] as nat, s[2] as nat, s[3] as nat;
    assert n / 256 == (a * 256 + b) * 256 + c;
    assert n / 256 / 256 == a * 256 + b;
    assert n / 256 / 256 / 256 == a;
  }
}
