/** Bytes and little-endian integers, the primitive layer under struct.unpack
    with the '=' prefix on a little-endian host. */
module Bytes {

  type byte = x: int | 0 <= x < 256

  function Pow256(n: nat): (r: nat)
    ensures r >= 1
  {
    if n == 0 then 1 else 256 * Pow256(n - 1)
  }

  /** The unsigned value of s read least significant byte first. */
  function LittleEndian(s: seq<byte>): (v: nat)
    ensures v < Pow256(|s|)
  {
    if s == [] then 0 else s[0] + 256 * LittleEndian(s[1..])
  }

  /** The n bytes that encode v least significant byte first. */
  function ToLittleEndian(v: nat, n: nat): (s: seq<byte>)
    ensures |s| == n
  {
    if n == 0 then [] else [v % 256] + ToLittleEndian(v / 256, n - 1)
  }

  /** Decoding inverts encoding for every value that fits in n bytes. */
  lemma {:induction false} LittleEndianOfEncoding(v: nat, n: nat)
    requires v < Pow256(n)
    ensures LittleEndian(ToLittleEndian(v, n)) == v
  {
    if n > 0 {
      LittleEndianOfEncoding(v / 256, n - 1);
      assert ToLittleEndian(v, n)[1..] == ToLittleEndian(v / 256, n - 1);
    }
  }

  /** Encoding inverts decoding: a byte string is determined by its value and length. */
  lemma {:induction false} EncodingOfLittleEndian(s: seq<byte>)
    ensures ToLittleEndian(LittleEndian(s), |s|) == s
  {
    if s != [] {
      ByteDivMod(s[0], LittleEndian(s[1..]));
      EncodingOfLittleEndian(s[1..]);
    }
  }

  /** Two byte strings of one length are equal exactly when their values are. */
  lemma LittleEndianInjective(a: seq<byte>, b: seq<byte>)
    requires |a| == |b|
    ensures LittleEndian(a) == LittleEndian(b) <==> a == b
  {
    EncodingOfLittleEndian(a);
    EncodingOfLittleEndian(b);
  }

  lemma ByteDivMod(low: byte, high: nat)
    ensures (low + 256 * high) % 256 == low && (low + 256 * high) / 256 == high
  {
  }

  /** Two's-complement reading of an unsigned n-byte value u. */
  function TwosComplement(u: nat, n: nat): (v: int)
    requires 0 < n && u < Pow256(n)
    ensures 0 <= 2 * v + Pow256(n) && 2 * v < Pow256(n)
    ensures v == u || v == u - Pow256(n)
  {
    if 2 * u < Pow256(n) then u else u - Pow256(n)
  }
}
