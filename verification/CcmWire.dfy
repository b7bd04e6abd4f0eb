/**
 What CCM* puts out, octet by octet and in terms of the block cipher alone: sections 2.2 and 2.3 of RFC 3610 with
 L = 2, stated without the functions that compute it.
 */
module CcmWire {
  import opened Bytes
  import opened CcmSpec

  /** Two octets hold a number, most significant first. */
  predicate Holds(hi: byte, lo: byte, n: nat) {
    256 * (hi as nat) + (lo as nat) == n
  }

  lemma Be16Holds(n: nat)
    requires n < 0x10000
    ensures Holds(Be16(n)[0], Be16(n)[1], n)
  {
    OctetValue(n / 256);
    OctetValue(n % 256);
  }

  lemma HeldOnce(hi: byte, lo: byte, n: nat)
    requires n < 0x10000 && Holds(hi, lo, n)
    ensures Be16(n) == [hi, lo]
  {
    OctetOf(hi);
    OctetOf(lo);
    assert n / 256 == hi as nat && n % 256 == lo as nat;
  }

  // ---------- encryption ----------

  /** Message octet i is masked with the cipher of flags 1, the nonce and the counter 1 + i / 16, most significant octet first. */
  lemma SealedOctet(e: Cipher, key: Block, nonce: seq<byte>, aad: seq<byte>, m: seq<byte>, tag: nat, i: nat, hi: byte, lo: byte)
    requires |nonce| == 13 && |aad| < 0xff00 && |m| + tag < 0x10000 && TagLength(tag) && i < |m|
    requires Holds(hi, lo, 1 + i / 16)
    ensures Seal(e, key, nonce, aad, m, tag)[i] == m[i] ^ e(key, [1] + nonce + [hi, lo])[i % 16]
  {
    hide Ctr, KeyStreamBlock, EncryptedTag, Holds;
    MaskedOctet(e, key, nonce, m, i);
    StreamBlock(e, key, nonce, 1 + i / 16, hi, lo);
    SealHead(e, key, nonce, aad, m, tag, i);
    hide Seal;
  }

  lemma SealHead(e: Cipher, key: Block, nonce: seq<byte>, aad: seq<byte>, m: seq<byte>, tag: nat, i: nat)
    requires |nonce| == 13 && |aad| < 0xff00 && |m| + tag < 0x10000 && TagLength(tag) && i < |m|
    ensures Seal(e, key, nonce, aad, m, tag)[i] == Ctr(e, key, nonce, m)[i]
  {
    hide Ctr, EncryptedTag;
  }

  lemma MaskedOctet(e: Cipher, key: Block, nonce: seq<byte>, m: seq<byte>, i: nat)
    requires |nonce| == 13 && |m| < 0xffff0 && i < |m|
    ensures Ctr(e, key, nonce, m)[i] == m[i] ^ KeyStreamBlock(e, key, nonce, 1 + i / 16)[i % 16]
  {
    hide KeyStreamBlock;
  }

  lemma StreamBlock(e: Cipher, key: Block, nonce: seq<byte>, k: nat, hi: byte, lo: byte)
    requires |nonce| == 13 && k < 0x10000 && Holds(hi, lo, k)
    ensures KeyStreamBlock(e, key, nonce, k) == e(key, [1] + nonce + [hi, lo])
  {
    HeldOnce(hi, lo, k);
    hide Be16;
  }

  // ---------- authentication ----------

  /** B_0: flags, nonce, and the message length most significant first. */
  predicate FirstOctets(b: Block, nonce: seq<byte>, aad: seq<byte>, size: nat, tag: nat)
    requires |nonce| == 13
  {
    && b[0] == (if tag == 4 then (if aad == [] then 0x09 else 0x49)
                else if tag == 8 then (if aad == [] then 0x19 else 0x59)
                else (if aad == [] then 0x39 else 0x79))
    && (forall i :: 0 <= i < 13 ==> b[1 + i] == nonce[i])
    && Holds(b[14], b[15], size)
  }

  /** Octets the additional data take: two of length, the data, zeros up to a block; nothing at all when there is none. */
  function AadSpan(aad: seq<byte>): nat {
    if aad == [] then 0 else (|aad| + 2 + 15) / 16 * 16
  }

  /** Octet k of what follows B_0. */
  predicate Follows(c: byte, k: nat, aad: seq<byte>, m: seq<byte>) {
    var n := AadSpan(aad);
    if k < n then
      if k == 0 then c as nat == |aad| / 256
      else if k == 1 then c as nat == |aad| % 256
      else if k < 2 + |aad| then c == aad[k - 2]
      else c == 0
    else if k < n + |m| then c == m[k - n]
    else c == 0
  }

  /** One block of chaining: the cipher of the old value XOR the next sixteen octets. */
  ghost predicate Links(e: Cipher, key: Block, x: Block, b: Block, y: Block) {
    exists z: Block :: y == e(key, z) && forall j :: 0 <= j < 16 ==> z[j] == x[j] ^ b[j]
  }

  /** The chaining values of a whole message: first the cipher of B_0, then one link for each block that follows. */
  ghost predicate Chains(e: Cipher, key: Block, nonce: seq<byte>, aad: seq<byte>, m: seq<byte>, tag: nat, x: seq<Block>)
    requires |nonce| == 13
  {
    && |x| == 1 + (AadSpan(aad) + (|m| + 15) / 16 * 16) / 16
    && (exists b: Block :: FirstOctets(b, nonce, aad, |m|, tag) && x[0] == e(key, b))
    && forall i :: 0 <= i < |x| - 1 ==> LinksOn(e, key, aad, m, i, x[i], x[i + 1])
  }

  /** Link i is over octets 16 i to 16 i + 15 of what follows B_0. */
  ghost predicate LinksOn(e: Cipher, key: Block, aad: seq<byte>, m: seq<byte>, i: nat, x: Block, y: Block) {
    exists b: Block :: Links(e, key, x, b, y) && forall j :: 0 <= j < 16 ==> Follows(b[j], 16 * i + j, aad, m)
  }

  /** The text after B_0. */
  function Text(aad: seq<byte>, m: seq<byte>): seq<byte>
    requires |aad| < 0xff00
  {
    AadBlocks(aad) + PadBlocks(m)
  }

  lemma PadFollows(s: seq<byte>, k: nat)
    requires k < |PadBlocks(s)|
    ensures PadBlocks(s)[k] == if k < |s| then s[k] else 0
  {
  }

  lemma AadFollows(aad: seq<byte>, m: seq<byte>, k: nat)
    requires |aad| < 0xff00 && k < |AadBlocks(aad)|
    ensures Follows(AadBlocks(aad)[k], k, aad, m)
  {
    OctetValue(|aad| / 256);
    OctetValue(|aad| % 256);
    PadFollows(Be16(|aad|) + aad, k);
    hide PadBlocks;
  }

  lemma TextFollows(aad: seq<byte>, m: seq<byte>, k: nat)
    requires |aad| < 0xff00 && k < |Text(aad, m)|
    ensures Follows(Text(aad, m)[k], k, aad, m)
  {
    var n := |AadBlocks(aad)|;
    if k < n {
      AadFollows(aad, m, k);
      hide Follows;
    } else {
      PadFollows(m, k - n);
    }
    hide AadBlocks, PadBlocks;
  }

  lemma FirstBlockIs(nonce: seq<byte>, aad: seq<byte>, size: nat, tag: nat)
    requires |nonce| == 13 && size < 0x10000 && TagLength(tag)
    ensures FirstOctets(FirstBlock(nonce, aad != [], size, tag), nonce, aad, size, tag)
  {
    Be16Holds(size);
    assert Octet(1) == 1 && Octet(3) == Octet(1) + 2 && Octet(7) == Octet(3) + 4;
    hide Be16;
  }

  /** Whole blocks are chained one link at a time. */
  lemma {:induction false} CbcLinks(e: Cipher, key: Block, x0: Block, s: seq<byte>) returns (x: seq<Block>)
    requires |s| % 16 == 0
    ensures |x| == 1 + |s| / 16 && x[0] == x0 && Cbc(e, key, x0, s) == x[|x| - 1]
    ensures forall i :: 0 <= i < |x| - 1 ==> x[i + 1] == e(key, Xor(x[i], BlockAt(s, i)))
    decreases |s|
  {
    if |s| == 0 {
      x := [x0];
    } else {
      var rest := s[16..];
      var y := CbcLinks(e, key, e(key, Xor(x0, s[..16])), rest);
      x := [x0] + y;
      forall i | 0 <= i < |x| - 1
        ensures x[i + 1] == e(key, Xor(x[i], BlockAt(s, i)))
      {
        if i > 0 {
          BlockShifts(s, i);
          assert x[i + 1] == y[i] && x[i] == y[i - 1];
        }
      }
    }
  }

  function BlockAt(s: seq<byte>, i: nat): Block
    requires 16 * i + 16 <= |s|
  {
    s[16 * i..16 * i + 16]
  }

  lemma BlockShifts(s: seq<byte>, i: nat)
    requires |s| >= 16 && 0 < i && 16 * i + 16 <= |s|
    ensures BlockAt(s, i) == BlockAt(s[16..], i - 1)
  {
  }

  lemma BlockFollows(aad: seq<byte>, m: seq<byte>, i: nat)
    requires |aad| < 0xff00 && 16 * i + 16 <= |Text(aad, m)|
    ensures forall j :: 0 <= j < 16 ==> Follows(BlockAt(Text(aad, m), i)[j], 16 * i + j, aad, m)
  {
    hide Follows;
    forall j | 0 <= j < 16
      ensures Follows(BlockAt(Text(aad, m), i)[j], 16 * i + j, aad, m)
    {
      TextFollows(aad, m, 16 * i + j);
      assert BlockAt(Text(aad, m), i)[j] == Text(aad, m)[16 * i + j];
      hide Text;
    }
  }

  lemma LinkIs(e: Cipher, key: Block, x: Block, b: Block)
    ensures Links(e, key, x, b, e(key, Xor(x, b)))
  {
  }

  lemma LinksByBlock(e: Cipher, key: Block, aad: seq<byte>, m: seq<byte>, x: seq<Block>, i: nat)
    requires |aad| < 0xff00 && i < |x| - 1 && 16 * i + 16 <= |Text(aad, m)|
    requires x[i + 1] == e(key, Xor(x[i], BlockAt(Text(aad, m), i)))
    ensures LinksOn(e, key, aad, m, i, x[i], x[i + 1])
  {
    var b := BlockAt(Text(aad, m), i);
    BlockFollows(aad, m, i);
    LinkIs(e, key, x[i], b);
    hide Follows, Text, BlockAt, Links, Xor;
  }

  /** The MIC is masked with the cipher of flags 1, the nonce and the counter zero, over the last chaining value of the text. */
  lemma SealedTag(e: Cipher, key: Block, nonce: seq<byte>, aad: seq<byte>, m: seq<byte>, tag: nat) returns (x: seq<Block>)
    requires |nonce| == 13 && |aad| < 0xff00 && |m| + tag < 0x10000 && TagLength(tag)
    ensures Chains(e, key, nonce, aad, m, tag, x)
    ensures forall i :: 0 <= i < tag ==>
              Seal(e, key, nonce, aad, m, tag)[|m| + i] == x[|x| - 1][i] ^ e(key, [1] + nonce + [0, 0])[i]
  {
    x := MacLinks(e, key, nonce, aad, m, tag);
    StreamBlock(e, key, nonce, 0, 0, 0);
    var u := EncryptedTag(e, key, nonce, aad, m, tag);
    var c := Ctr(e, key, nonce, m);
    forall i | 0 <= i < tag
      ensures Seal(e, key, nonce, aad, m, tag)[|m| + i] == x[|x| - 1][i] ^ e(key, [1] + nonce + [0, 0])[i]
    {
      assert (c + u)[|m| + i] == u[i];
    }
    hide KeyStreamBlock, Ctr, Mac, Chains;
  }

  lemma MacLinks(e: Cipher, key: Block, nonce: seq<byte>, aad: seq<byte>, m: seq<byte>, tag: nat) returns (x: seq<Block>)
    requires |nonce| == 13 && |aad| < 0xff00 && |m| < 0x10000 && TagLength(tag)
    ensures Chains(e, key, nonce, aad, m, tag, x) && Mac(e, key, nonce, aad, m, tag) == x[|x| - 1]
  {
    var b := FirstBlock(nonce, aad != [], |m|, tag);
    FirstBlockIs(nonce, aad, |m|, tag);
    var s := Text(aad, m);
    TextSize(aad, m);
    x := CbcLinks(e, key, e(key, b), s);
    forall i | 0 <= i < |x| - 1
      ensures LinksOn(e, key, aad, m, i, x[i], x[i + 1])
    {
      LinksByBlock(e, key, aad, m, x, i);
    }
    hide FirstBlock, FirstOctets, LinksOn, AadBlocks, PadBlocks, Cbc;
  }

  lemma TextSize(aad: seq<byte>, m: seq<byte>)
    requires |aad| < 0xff00
    ensures |Text(aad, m)| == AadSpan(aad) + (|m| + 15) / 16 * 16 && |Text(aad, m)| % 16 == 0
  {
    assert |PadBlocks(m)| == 16 * CeilDiv16(|m|);
    if aad != [] {
      assert |AadBlocks(aad)| == 16 * CeilDiv16(|aad| + 2);
    }
    hide AadBlocks, PadBlocks;
  }
}
