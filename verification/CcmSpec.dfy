/**
 CCM* as sections 2.2 and 2.3 of RFC 3610 define it (L = 2), over an arbitrary block cipher.
 Nothing here mentions the streaming accumulator that computes it.
 */
module CcmSpec {
  import opened Bytes

  /** One keyed block encryption: key, plaintext block, ciphertext block. */
  type Cipher = (Block, Block) -> Block

  const MAX_AAD := 132
  const MAX_MESSAGE := 116

  datatype Option<+T> = None | Some(value: T)

  predicate TagLength(m: nat) {
    m == 4 || m == 8 || m == 16
  }

  function CeilDiv16(n: nat): nat {
    (n + 15) / 16
  }

  /** A length below 2^16 as the two octets l(m), most significant first. */
  function Be16(n: nat): (r: seq<byte>)
    requires n < 0x10000
    ensures |r| == 2
  {
    [Octet(n / 256), Octet(n % 256)]
  }

  function PadBlocks(s: seq<byte>): (r: seq<byte>)
    ensures |r| % 16 == 0 && |r| == 16 * CeilDiv16(|s|)
  {
    s + Zeros(16 * CeilDiv16(|s|) - |s|)
  }

  // ---------- authentication (section 2.2) ----------

  /** Bit 6 Adata, bits 5..3 M' = (M-2)/2, bits 2..0 L' = 1. */
  function FlagsOctet(hasAad: bool, tag: nat): byte
    requires TagLength(tag)
  {
    (if hasAad then 0x40 else 0) + 8 * Octet((tag - 2) / 2) + 1
  }

  function FirstBlock(nonce: seq<byte>, hasAad: bool, size: nat, tag: nat): (b: Block)
    requires |nonce| == 13 && size < 0x10000 && TagLength(tag)
  {
    [FlagsOctet(hasAad, tag)] + nonce + Be16(size)
  }

  /** The additional data as it is authenticated: length-prefixed and padded, or nothing at all. */
  function AadBlocks(aad: seq<byte>): (r: seq<byte>)
    requires |aad| < 0xff00
    ensures |r| % 16 == 0
  {
    if aad == [] then [] else PadBlocks(Be16(|aad|) + aad)
  }

  /** X_{i+1} = E(K, X_i XOR B_i), from chaining value `x` over the whole blocks of `s`. */
  function Cbc(e: Cipher, key: Block, x: Block, s: seq<byte>): Block
    decreases |s|
  {
    if |s| < 16 then x
    else Cbc(e, key, e(key, Xor(x, s[..16])), s[16..])
  }

  /** X_1 = E(K, B_0), then the additional data and the message. */
  function Mac(e: Cipher, key: Block, nonce: seq<byte>, aad: seq<byte>, m: seq<byte>, tag: nat): Block
    requires |nonce| == 13 && |aad| < 0xff00 && |m| < 0x10000 && TagLength(tag)
  {
    Cbc(e, key, e(key, FirstBlock(nonce, aad != [], |m|, tag)), AadBlocks(aad) + PadBlocks(m))
  }

  // ---------- encryption (section 2.3) ----------

  function KeyStreamBlock(e: Cipher, key: Block, nonce: seq<byte>, i: nat): Block
    requires |nonce| == 13 && i < 0x10000
  {
    e(key, [1] + nonce + Be16(i))
  }

  /** XOR with the first |m| octets of S_1 || S_2 || ... */
  function Ctr(e: Cipher, key: Block, nonce: seq<byte>, m: seq<byte>): (r: seq<byte>)
    requires |nonce| == 13 && |m| < 0xffff0
    ensures |r| == |m|
  {
    seq(|m|, i requires 0 <= i < |m| => m[i] ^ KeyStreamBlock(e, key, nonce, 1 + i / 16)[i % 16])
  }

  /** U = T XOR first-M-bytes(S_0). */
  function EncryptedTag(e: Cipher, key: Block, nonce: seq<byte>, aad: seq<byte>, m: seq<byte>, tag: nat): (u: seq<byte>)
    requires |nonce| == 13 && |aad| < 0xff00 && |m| < 0x10000 && TagLength(tag)
    ensures |u| == tag
  {
    Xor(Mac(e, key, nonce, aad, m, tag)[..tag], KeyStreamBlock(e, key, nonce, 0)[..tag])
  }

  function Seal(e: Cipher, key: Block, nonce: seq<byte>, aad: seq<byte>, m: seq<byte>, tag: nat): (r: seq<byte>)
    requires |nonce| == 13 && |aad| < 0xff00 && |m| < 0x10000 && TagLength(tag)
    ensures |r| == |m| + tag
  {
    Ctr(e, key, nonce, m) + EncryptedTag(e, key, nonce, aad, m, tag)
  }

  function Open(e: Cipher, key: Block, nonce: seq<byte>, aad: seq<byte>, c: seq<byte>, tag: nat): (r: Option<seq<byte>>)
    requires |nonce| == 13 && |aad| < 0xff00 && TagLength(tag) && tag <= |c| < 0x10000
    ensures r.Some? ==> |r.value| == |c| - tag
  {
    var m := Ctr(e, key, nonce, c[..|c| - tag]);
    if EncryptedTag(e, key, nonce, aad, m, tag) == c[|c| - tag..] then Some(m) else None
  }

  /** Cipher calls of one successful operation on `size` message octets and `aad` additional octets. */
  function CipherCalls(size: nat, aad: nat): nat {
    2 + 2 * CeilDiv16(size) + (if aad > 0 then CeilDiv16(aad + 2) else 0)
  }

  lemma CipherCallsBounded(size: nat, aad: nat)
    requires size <= MAX_MESSAGE && aad <= MAX_AAD
    ensures CipherCalls(size, aad) <= 27
  {
  }

  // ---------- laws ----------

  lemma CtrInvolution(e: Cipher, key: Block, nonce: seq<byte>, m: seq<byte>)
    requires |nonce| == 13 && |m| < 0xffff0
    ensures Ctr(e, key, nonce, Ctr(e, key, nonce, m)) == m
  {
    var c := Ctr(e, key, nonce, m);
    forall i | 0 <= i < |m|
      ensures Ctr(e, key, nonce, c)[i] == m[i]
    {
      XorByteTwice(m[i], KeyStreamBlock(e, key, nonce, 1 + i / 16)[i % 16]);
    }
  }

  lemma OpenByParts(e: Cipher, key: Block, nonce: seq<byte>, aad: seq<byte>, body: seq<byte>, mic: seq<byte>, tag: nat)
    requires |nonce| == 13 && |aad| < 0xff00 && TagLength(tag) && |mic| == tag && |body| + tag < 0x10000
    ensures var m := Ctr(e, key, nonce, body);
            Open(e, key, nonce, aad, body + mic, tag)
            == if EncryptedTag(e, key, nonce, aad, m, tag) == mic then Some(m) else None
  {
    var c := body + mic;
    assert c[..|c| - tag] == body && c[|c| - tag..] == mic;
  }

  /** Opening what was sealed under the same key, nonce and additional data returns the message. */
  lemma OpenUndoesSeal(e: Cipher, key: Block, nonce: seq<byte>, aad: seq<byte>, m: seq<byte>, tag: nat)
    requires |nonce| == 13 && |aad| < 0xff00 && |m| + tag < 0x10000 && TagLength(tag)
    ensures Open(e, key, nonce, aad, Seal(e, key, nonce, aad, m, tag), tag) == Some(m)
  {
    var c := Seal(e, key, nonce, aad, m, tag);
    assert c[..|c| - tag] == Ctr(e, key, nonce, m);
    assert c[|c| - tag..] == EncryptedTag(e, key, nonce, aad, m, tag);
    CtrInvolution(e, key, nonce, m);
  }

  /** Whatever opens is the sealing of what it opens to. */
  lemma SealUndoesOpen(e: Cipher, key: Block, nonce: seq<byte>, aad: seq<byte>, c: seq<byte>, tag: nat)
    requires |nonce| == 13 && |aad| < 0xff00 && TagLength(tag) && tag <= |c| < 0x10000
    requires Open(e, key, nonce, aad, c, tag).Some?
    ensures Seal(e, key, nonce, aad, Open(e, key, nonce, aad, c, tag).value, tag) == c
  {
    var body, mic := c[..|c| - tag], c[|c| - tag..];
    var m := Ctr(e, key, nonce, body);
    CtrInvolution(e, key, nonce, body);
    assert EncryptedTag(e, key, nonce, aad, m, tag) == mic;
    assert c == body + mic;
  }

  /** Acceptance is exactly membership in the image of Seal. */
  lemma OpensExactlySealed(e: Cipher, key: Block, nonce: seq<byte>, aad: seq<byte>, c: seq<byte>, tag: nat, m: seq<byte>)
    requires |nonce| == 13 && |aad| < 0xff00 && TagLength(tag) && tag <= |c| < 0x10000 && |m| + tag < 0x10000
    ensures Open(e, key, nonce, aad, c, tag) == Some(m) <==> c == Seal(e, key, nonce, aad, m, tag)
  {
    if c == Seal(e, key, nonce, aad, m, tag) {
      OpenUndoesSeal(e, key, nonce, aad, m, tag);
    } else if Open(e, key, nonce, aad, c, tag) == Some(m) {
      SealUndoesOpen(e, key, nonce, aad, c, tag);
    }
  }

  /** Chaining over a concatenation whose first part is whole blocks. */
  lemma {:induction false} CbcAppend(e: Cipher, key: Block, x: Block, s: seq<byte>, t: seq<byte>)
    requires |s| % 16 == 0
    ensures Cbc(e, key, x, s + t) == Cbc(e, key, Cbc(e, key, x, s), t)
    decreases |s|
  {
    if |s| == 0 {
      assert s + t == t;
    } else {
      assert (s + t)[..16] == s[..16] && (s + t)[16..] == s[16..] + t;
      CbcAppend(e, key, e(key, Xor(x, s[..16])), s[16..], t);
    }
  }
}
