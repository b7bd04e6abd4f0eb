/** Octet strings: the wire vocabulary shared by the codecs and the security envelope. */
module Bytes {

  type byte = bv8

  type Block = s: seq<byte> | |s| == 16 witness Zeros(16)

  /** The octet with value `n`, by counting: integers and bit vectors never meet in a proof. */
  function Octet(n: nat): byte
    requires n < 256
  {
    if n == 0 then 0 else Octet(n - 1) + 1
  }

  /** Counting reaches the octet whose value is the count. */
  lemma {:induction false} OctetValue(n: nat)
    requires n < 256
    ensures Octet(n) as nat == n
  {
    if n > 0 {
      OctetValue(n - 1);
      NextOctet(Octet(n - 1));
    }
  }

  lemma NextOctet(b: byte)
    requires b as nat < 255
    ensures (b + 1) as nat == b as nat + 1
  {
  }

  /** An octet is determined by its value. */
  lemma OctetOf(b: byte)
    ensures b as nat < 256 && Octet(b as nat) == b
  {
    OctetValue(b as nat);
  }

  function Zeros(n: nat): (s: seq<byte>)
    ensures |s| == n && forall i :: 0 <= i < n ==> s[i] == 0
  {
    if n == 0 then [] else Zeros(n - 1) + [0]
  }

  predicate ZeroFrom(s: seq<byte>, p: nat) {
    forall i :: p <= i < |s| ==> s[i] == 0
  }

  lemma XorZero(a: seq<byte>, b: seq<byte>)
    requires |a| == |b| && ZeroFrom(a, 0)
    ensures Xor(a, b) == b
  {
    forall i | 0 <= i < |a|
      ensures Xor(a, b)[i] == b[i]
    {
      ZeroXorByte(a[i], b[i]);
    }
  }

  lemma ZeroXorByte(x: byte, y: byte)
    requires x == 0
    ensures x ^ y == y
  {
  }

  /** The low `n` octets are `s`; the rest is zero. */
  function Pad(s: seq<byte>, n: nat): (r: seq<byte>)
    requires |s| <= n
    ensures |r| == n && r[..|s|] == s
  {
    s + Zeros(n - |s|)
  }

  function Xor(a: seq<byte>, b: seq<byte>): (r: seq<byte>)
    requires |a| == |b|
    ensures |r| == |a|
    ensures forall i :: 0 <= i < |a| ==> r[i] == a[i] ^ b[i]
  {
    seq(|a|, i requires 0 <= i < |a| => a[i] ^ b[i])
  }

  lemma XorByteTwice(x: byte, y: byte)
    ensures (x ^ y) ^ y == x
  {
  }

  /** Two octets, least significant first, as a 16-bit word. */
  function ReadLe16(lo: byte, hi: byte): bv16 {
    lo as bv16 | (hi as bv16 << 8)
  }

  function Low(v: bv16): byte {
    (v & 0xff) as byte
  }

  function High(v: bv16): byte {
    (v >> 8) as byte
  }

  lemma Le16RoundTrip(v: bv16)
    ensures ReadLe16(Low(v), High(v)) == v
  {
  }

  lemma Le16Bytes(lo: byte, hi: byte)
    ensures Low(ReadLe16(lo, hi)) == lo && High(ReadLe16(lo, hi)) == hi
  {
  }

  /** The first octet is the low one. */
  lemma Le16Value(lo: byte, hi: byte)
    ensures ReadLe16(lo, hi) == 256 * (hi as bv16) + lo as bv16
    ensures Low(ReadLe16(lo, hi)) == lo && High(ReadLe16(lo, hi)) == hi
  {
  }
}
