/**
 The CCM* engine: a 16-octet accumulator fed octet by octet, and a counter keystream,
 over one block-encryption service that may fail at any call. Proved against CcmSpec.
 */
module CcmStar {
  import opened Bytes
  import opened CcmSpec

  datatype Result = Ok | Argument | Length | Tag | Space | Aes | Auth

  /** How one block-encryption call ended; status 0 is success. */
  datatype Reply = Reply(status: nat, polls: nat)

  /** Every behaviour of the service over time: the outcome of its n-th call. */
  type Replies = nat -> Reply

  datatype Info = Info(polls: nat, blocks: nat, aesStatus: nat)

  datatype Limits = Limits(blockTimeout: nat, blockPolls: nat)

  const HALF_RANGE := 0x800000

  /** What the diagnostics hold after calls `first .. last`. */
  ghost function Tally(replies: Replies, first: nat, last: nat): Info
    requires first <= last
    decreases last
  {
    if first == last then Info(0, 0, 0)
    else
      var t := Tally(replies, first, last - 1);
      Info(t.polls + replies(last - 1).polls, t.blocks + 1, replies(last - 1).status)
  }

  /** A stretch of work of exactly `n` calls: all succeed, or it stops just after the first failure. */
  ghost predicate Ran(replies: Replies, first: nat, last: nat, n: nat, ok: bool) {
    if ok then last == first + n && forall k :: first <= k < last ==> replies(k).status == 0
    else first < last <= first + n && replies(last - 1).status != 0
         && forall k :: first <= k < last - 1 ==> replies(k).status == 0
  }

  lemma RanNothing(replies: Replies, first: nat)
    ensures Ran(replies, first, first, 0, true)
  {
  }

  /** A completed stretch followed by another. */
  lemma RanThen(replies: Replies, first: nat, middle: nat, last: nat, n: nat, n': nat, ok: bool)
    requires Ran(replies, first, middle, n, true) && Ran(replies, middle, last, n', ok)
    ensures Ran(replies, first, last, n + n', ok)
  {
  }

  /** A stretch that stopped early stopped early in any longer one. */
  lemma RanShort(replies: Replies, first: nat, last: nat, n: nat, n': nat)
    requires Ran(replies, first, last, n, false) && n <= n'
    ensures Ran(replies, first, last, n', false)
  {
  }

  class BlockCipher {
    const encrypt: Cipher
    const replies: Replies
    var calls: nat

    constructor (encrypt: Cipher, replies: Replies)
      ensures this.encrypt == encrypt && this.replies == replies && calls == 0
    {
      this.encrypt, this.replies, calls := encrypt, replies, 0;
    }

    /** A failing call leaves the output block alone. */
    method EncryptBlock(key: Block, input: Block, output: Block) returns (r: Reply, c: Block)
      modifies `calls
      ensures calls == old(calls) + 1 && r == replies(old(calls))
      ensures c == if r.status == 0 then encrypt(key, input) else output
    {
      r := replies(calls);
      calls := calls + 1;
      c := if r.status == 0 then encrypt(key, input) else output;
    }
  }

  /** A stream padded to whole blocks: its whole blocks, then its zero-padded rest if there is one. */
  lemma PaddedEnd(s: seq<byte>, last: seq<byte>)
    requires |last| == 16 && last[..|s| % 16] == s[|s| - |s| % 16..] && ZeroFrom(last, |s| % 16)
    ensures var p := |s| % 16;
            if p == 0 then s[..|s| - p] == PadBlocks(s) && CeilDiv16(|s|) == |s| / 16
            else s[..|s| - p] + last == PadBlocks(s) && CeilDiv16(|s|) == |s| / 16 + 1
  {
    var p := |s| % 16;
    var whole := s[..|s| - p];
    assert s == whole + s[|s| - p..];
    if p != 0 {
      assert last == last[..p] + last[p..];
      assert last[p..] == Zeros(16 - p);
    }
  }

  lemma CbcNothing(e: Cipher, key: Block, x: Block)
    ensures Cbc(e, key, x, []) == x
  {
  }

  lemma CbcBlock(e: Cipher, key: Block, x: Block, s: seq<byte>, b: Block)
    requires |s| % 16 == 0
    ensures Cbc(e, key, x, s + b) == e(key, Xor(Cbc(e, key, x, s), b))
  {
    CbcAppend(e, key, x, s, b);
    assert b[..16] == b && b[16..] == [];
  }

  lemma CtrBlock(e: Cipher, key: Block, nonce: seq<byte>, m: seq<byte>, number: nat)
    requires |nonce| == 13 && 1 <= number < 256 && |m| <= MAX_MESSAGE
    ensures var begin := 16 * (number - 1);
            forall q :: begin <= q < begin + 16 && q < |m| ==>
              Ctr(e, key, nonce, m)[q] == m[q] ^ KeyStreamBlock(e, key, nonce, number)[q - begin]
  {
    forall q | 16 * (number - 1) <= q < 16 * number && q < |m|
      ensures Ctr(e, key, nonce, m)[q] == m[q] ^ KeyStreamBlock(e, key, nonce, number)[q - 16 * (number - 1)]
    {
      assert q / 16 == number - 1 && q % 16 == q - 16 * (number - 1);
    }
  }

  /** One octet more on a stream cut into whole blocks and a rest. */
  lemma StreamOctet(s: seq<byte>, b: byte)
    ensures var p, t := |s| % 16, s + [b];
            && t[..|s| - p] == s[..|s| - p] && t[|s| - p..] == s[|s| - p..] + [b]
            && t == t[..|s| - p] + t[|s| - p..]
            && if p == 15 then |t| % 16 == 0 && |t| / 16 == |s| / 16 + 1
               else |t| % 16 == p + 1 && |t| / 16 == |s| / 16
  {
  }

  class Engine {
    const aes: BlockCipher
    var key: Block
    var nonce: seq<byte>
    var cipher: Block
    var tag: Block
    const mac: array<byte>
    const block: array<byte>
    const work: array<byte>
    var position: nat
    var info: Info
    ghost var start: nat  // the service's call count when the running operation began

    ghost predicate Shape()
      reads `nonce
    {
      && |nonce| == 13
      && mac.Length == block.Length == 16 && work.Length == MAX_MESSAGE + 16
      && mac != block && mac != work && block != work
    }

    ghost predicate Valid()
      reads this, aes
    {
      Shape() && start <= aes.calls && info == Tally(aes.replies, start, aes.calls)
    }

    constructor (aes: BlockCipher)
      ensures Valid() && this.aes == aes && fresh({this, mac, block, work})
    {
      this.aes := aes;
      key, nonce, cipher, tag := Zeros(16), Zeros(13), Zeros(16), Zeros(16);
      mac, block, work := new byte[16], new byte[16], new byte[MAX_MESSAGE + 16];
      position, info, start := 0, Info(0, 0, 0), aes.calls;
    }

    method Encrypt() returns (ok: bool)
      requires Valid()
      modifies `info, `cipher, aes`calls
      ensures Valid() && Ran(aes.replies, old(aes.calls), aes.calls, 1, ok)
      ensures ok ==> cipher == aes.encrypt(key, block[..])
    {
      var r: Reply;
      r, cipher := aes.EncryptBlock(key, block[..], cipher);
      info := Info(info.polls + r.polls, info.blocks + 1, r.status);
      ok := r.status == 0;
    }

    method Flush() returns (ok: bool)
      requires Valid()
      modifies `info, `cipher, `position, aes`calls, mac, block
      ensures Valid() && Ran(aes.replies, old(aes.calls), aes.calls, 1, ok)
      ensures ok ==> mac[..] == aes.encrypt(key, Xor(old(mac[..]), old(block[..])))
      ensures ok ==> ZeroFrom(block[..], 0) && position == 0
    {
      for i := 0 to 16
        invariant forall k :: 0 <= k < i ==> block[k] == old(mac[k]) ^ old(block[k])
        invariant forall k :: i <= k < 16 ==> block[k] == old(block[k])
        modifies block
      {
        block[i] := block[i] ^ mac[i];
      }
      assert block[..] == Xor(old(mac[..]), old(block[..]));
      ok := Encrypt();
      if ok {
        forall i | 0 <= i < 16 { mac[i] := cipher[i]; }
        assert mac[..] == cipher;
        forall i | 0 <= i < 16 { block[i] := 0; }
        position := 0;
      }
    }

    /** `s` has been absorbed on top of chaining value `x`: whole blocks chained, the rest buffered. */
    ghost predicate Absorbed(x: Block, s: seq<byte>)
      requires Shape()
      reads this, aes, mac, block
    {
      && position == |s| % 16
      && mac[..] == Cbc(aes.encrypt, key, x, s[..|s| - position])
      && block[..position] == s[|s| - position..]
      && ZeroFrom(block[..], position)
    }

    method FeedOctet(b: byte, ghost x: Block, ghost s: seq<byte>) returns (ok: bool)
      requires Valid() && Absorbed(x, s)
      modifies `info, `cipher, `position, aes`calls, mac, block
      ensures Valid() && Ran(aes.replies, old(aes.calls), aes.calls, |s + [b]| / 16 - |s| / 16, ok)
      ensures ok ==> Absorbed(x, s + [b])
    {
      hide Cbc, Tally, Ran;
      RanNothing(aes.replies, aes.calls);
      StreamOctet(s, b);
      ghost var t, whole := s + [b], s[..|s| - position];
      ok := true;
      block[position] := b;
      position := position + 1;
      assert block[..position] == t[|whole|..];
      if position == 16 {
        ghost var last := block[..];
        assert last == t[|whole|..];
        ok := Flush();
        if ok {
          CbcBlock(aes.encrypt, key, x, whole, last);
          assert t[..|t|] == t;
        }
      }
    }

    method Feed(data: seq<byte>, ghost x: Block, ghost s: seq<byte>) returns (ok: bool)
      requires Valid() && Absorbed(x, s)
      modifies `info, `cipher, `position, aes`calls, mac, block
      ensures Valid() && Ran(aes.replies, old(aes.calls), aes.calls, |s + data| / 16 - |s| / 16, ok)
      ensures ok ==> Absorbed(x, s + data)
    {
      hide Absorbed, Cbc, Tally, Ran;
      assert s + data[..0] == s;
      RanNothing(aes.replies, aes.calls);
      ghost var n := |s + data| / 16 - |s| / 16;
      for i := 0 to |data|
        invariant Valid() && Absorbed(x, s + data[..i])
        invariant Ran(aes.replies, old(aes.calls), aes.calls, |s + data[..i]| / 16 - |s| / 16, true)
      {
        ghost var t, middle := s + data[..i], aes.calls;
        assert s + data[..i + 1] == t + [data[i]];
        ok := FeedOctet(data[i], x, t);
        ghost var n0, n1 := |t| / 16 - |s| / 16, |t + [data[i]]| / 16 - |t| / 16;
        RanThen(aes.replies, old(aes.calls), middle, aes.calls, n0, n1, ok);
        if !ok {
          RanShort(aes.replies, old(aes.calls), aes.calls, n0 + n1, n);
          return;
        }
      }
      ok := true;
      assert s + data[..|data|] == s + data;
    }

    /** Nothing buffered on top of chaining value `x`. */
    ghost predicate Idle(x: Block)
      requires Shape()
      reads this, mac, block
    {
      position == 0 && mac[..] == x && ZeroFrom(block[..], 0)
    }

    /** Zero padding: a non-empty buffer is flushed as it stands. */
    method Finish(ghost x: Block, ghost s: seq<byte>) returns (ok: bool)
      requires Valid() && Absorbed(x, s)
      modifies `info, `cipher, `position, aes`calls, mac, block
      ensures Valid() && Ran(aes.replies, old(aes.calls), aes.calls, CeilDiv16(|s|) - |s| / 16, ok)
      ensures ok ==> Idle(Cbc(aes.encrypt, key, x, PadBlocks(s)))
    {
      hide Cbc, Tally, Ran;
      RanNothing(aes.replies, aes.calls);
      PaddedEnd(s, block[..]);
      ghost var whole, last := s[..|s| - position], block[..];
      if position != 0 {
        CbcBlock(aes.encrypt, key, x, whole, last);
        ok := Flush();
      } else {
        ok := true;
      }
    }

    /** Feed, then pad: one of the two padded parts of the authenticated blocks. */
    method FeedPadded(data: seq<byte>, ghost x: Block, ghost s: seq<byte>) returns (ok: bool)
      requires Valid() && Absorbed(x, s)
      modifies `info, `cipher, `position, aes`calls, mac, block
      ensures Valid() && Ran(aes.replies, old(aes.calls), aes.calls, CeilDiv16(|s + data|) - |s| / 16, ok)
      ensures ok ==> Idle(Cbc(aes.encrypt, key, x, PadBlocks(s + data)))
    {
      hide Absorbed, Idle, Cbc, PadBlocks, Tally, Ran;
      ok := Feed(data, x, s);
      ghost var middle, n0 := aes.calls, |s + data| / 16 - |s| / 16;
      ghost var n1 := CeilDiv16(|s + data|) - |s + data| / 16;
      if ok {
        ok := Finish(x, s + data);
        RanThen(aes.replies, old(aes.calls), middle, aes.calls, n0, n1, ok);
      } else {
        RanShort(aes.replies, old(aes.calls), aes.calls, n0, n0 + n1);
      }
    }

    /** The length-prefixed additional data, padded; nothing at all when there is none. */
    method FeedAad(aad: seq<byte>, ghost x: Block) returns (ok: bool)
      requires Valid() && |aad| <= MAX_AAD && Idle(x)
      modifies `info, `cipher, `position, aes`calls, mac, block
      ensures Valid()
      ensures Ran(aes.replies, old(aes.calls), aes.calls, if |aad| > 0 then CeilDiv16(|aad| + 2) else 0, ok)
      ensures ok ==> Idle(AfterAad(aad, x))
    {
      hide Cbc, PadBlocks, Tally, Ran;
      ok := true;
      RanNothing(aes.replies, aes.calls);
      CbcNothing(aes.encrypt, key, x);
      if |aad| > 0 {
        ghost var header := Be16(|aad|);
        assert header[..0] == [] && header[0..] == header;
        assert header == [0, Octet(|aad|)];
        block[0] := 0;
        block[1] := Octet(|aad|);
        position := 2;
        assert block[..2] == header;
        ok := FeedPadded(aad, x, header);
      }
    }

    ghost function AfterAad(aad: seq<byte>, x: Block): Block
      requires |aad| <= MAX_AAD
      reads `key
    {
      Cbc(aes.encrypt, key, x, AadBlocks(aad))
    }

    lemma IdleIsAbsorbed(x: Block)
      requires Shape() && Idle(x)
      ensures Absorbed(x, [])
    {
      CbcNothing(aes.encrypt, key, x);
    }

    method FeedMessage(size: nat, ghost x: Block) returns (ok: bool)
      requires Valid() && size <= MAX_MESSAGE && Idle(x)
      modifies `info, `cipher, `position, aes`calls, mac, block
      ensures Valid() && Ran(aes.replies, old(aes.calls), aes.calls, CeilDiv16(size), ok)
      ensures ok ==> Idle(Cbc(aes.encrypt, key, x, PadBlocks(work[..size])))
    {
      hide Cbc, PadBlocks, Absorbed, Idle, Tally, Ran;
      var m := work[..size];
      assert [] + m == m;
      IdleIsAbsorbed(x);
      ok := FeedPadded(m, x, []);
      assert work[..size] == m;
    }

    method Authenticate(aad: seq<byte>, size: nat, tagLength: nat) returns (ok: bool)
      requires Valid() && size <= MAX_MESSAGE && |aad| <= MAX_AAD && TagLength(tagLength)
      modifies `info, `cipher, `position, aes`calls, mac, block
      ensures Valid()
      ensures Ran(aes.replies, old(aes.calls), aes.calls,
                  1 + CeilDiv16(size) + (if |aad| > 0 then CeilDiv16(|aad| + 2) else 0), ok)
      ensures ok ==> mac[..] == Mac(aes.encrypt, key, nonce, aad, work[..size], tagLength)
    {
      hide Cbc, PadBlocks, Mac, FirstBlock, Tally, Ran;
      ghost var m, n1, n2 := work[..size], if |aad| > 0 then CeilDiv16(|aad| + 2) else 0, CeilDiv16(size);
      ok := FirstFlush(|aad| > 0, size, tagLength);
      if !ok {
        RanShort(aes.replies, old(aes.calls), aes.calls, 1, 1 + n1 + n2);
        return;
      }
      ghost var x1: Block, c1 := mac[..], aes.calls;
      ok := FeedAad(aad, x1);
      RanThen(aes.replies, old(aes.calls), c1, aes.calls, 1, n1, ok);
      if !ok {
        RanShort(aes.replies, old(aes.calls), aes.calls, 1 + n1, 1 + n1 + n2);
        return;
      }
      ghost var x2: Block, c2 := mac[..], aes.calls;
      ok := FeedMessage(size, x2);
      RanThen(aes.replies, old(aes.calls), c2, aes.calls, 1 + n1, n2, ok);
      if !ok { return; }
      AuthenticatedChain(aad, m, tagLength, x1);
    }

    /** The chaining value after B_0, after the additional data and after the message. */
    lemma AuthenticatedChain(aad: seq<byte>, m: seq<byte>, tagLength: nat, x1: Block)
      requires |nonce| == 13 && |m| <= MAX_MESSAGE && |aad| <= MAX_AAD && TagLength(tagLength)
      requires x1 == aes.encrypt(key, FirstBlock(nonce, aad != [], |m|, tagLength))
      ensures Cbc(aes.encrypt, key, AfterAad(aad, x1), PadBlocks(m)) == Mac(aes.encrypt, key, nonce, aad, m, tagLength)
    {
      CbcAppend(aes.encrypt, key, x1, AadBlocks(aad), PadBlocks(m));
    }

    /** Flags octet, nonce, two-octet number: the layout B_0 and the counter blocks share. */
    method FillBlock(first: byte, number: nat)
      requires Shape() && number < 256
      modifies block
      ensures block[..] == [first] + nonce + Be16(number)
    {
      block[0] := first;
      forall i | 0 <= i < 13 { block[1 + i] := nonce[i]; }
      block[14] := 0;
      block[15] := Octet(number);
      assert Be16(number) == [0, Octet(number)];
    }

    method FirstFlush(hasAad: bool, size: nat, tagLength: nat) returns (ok: bool)
      requires Valid() && size <= MAX_MESSAGE && TagLength(tagLength)
      modifies `info, `cipher, `position, aes`calls, mac, block
      ensures Valid() && Ran(aes.replies, old(aes.calls), aes.calls, 1, ok)
      ensures ok ==> Idle(aes.encrypt(key, FirstBlock(nonce, hasAad, size, tagLength)))
    {
      forall i | 0 <= i < 16 { mac[i] := 0; }
      FlagsByFields(hasAad, tagLength);
      FillBlock((1 | (Octet((tagLength - 2) / 2) << 3)) | (if hasAad then 0x40 else 0), size);
      XorZero(mac[..], block[..]);
      ok := Flush();
    }

    method Counter(number: nat) returns (ok: bool)
      requires Valid() && number < 256
      modifies `info, `cipher, aes`calls, block
      ensures Valid() && Ran(aes.replies, old(aes.calls), aes.calls, 1, ok)
      ensures ok ==> cipher == KeyStreamBlock(aes.encrypt, key, nonce, number)
    {
      FillBlock(1, number);
      ok := Encrypt();
    }

    /** Octets up to `offset` are text `c`, the rest of the message is still `m`. */
    ghost predicate Converted(m: seq<byte>, c: seq<byte>, offset: nat)
      requires |m| == |c| <= work.Length
      reads work
    {
      && offset <= |m|
      && (forall q :: 0 <= q < offset ==> work[q] == c[q])
      && (forall q :: offset <= q < |m| ==> work[q] == m[q])
    }

    /** XOR one keystream block, or as much of it as the message needs, into the work buffer. */
    method Mask(begin: nat, size: nat, ghost m: seq<byte>, ghost c: seq<byte>) returns (offset: nat)
      requires size == |m| == |c| <= work.Length && Converted(m, c, begin)
      requires forall q :: begin <= q < begin + 16 && q < size ==> c[q] == m[q] ^ cipher[q - begin]
      modifies work
      ensures offset == if begin + 16 <= size then begin + 16 else size
      ensures Converted(m, c, offset)
      ensures forall q :: size <= q < work.Length ==> work[q] == old(work[q])
    {
      var i := 0;
      offset := begin;
      while i < 16 && offset < size
        invariant 0 <= i <= 16 && offset == begin + i <= size
        invariant Converted(m, c, offset)
        invariant forall q :: size <= q < work.Length ==> work[q] == old(work[q])
      {
        work[offset] := work[offset] ^ cipher[i];
        i, offset := i + 1, offset + 1;
      }
    }

    method Transform(size: nat) returns (ok: bool)
      requires Valid() && size <= MAX_MESSAGE
      modifies `info, `cipher, aes`calls, block, work
      ensures Valid() && Ran(aes.replies, old(aes.calls), aes.calls, CeilDiv16(size), ok)
      ensures ok ==> work[..size] == Ctr(aes.encrypt, key, nonce, old(work[..size]))
      ensures work[size..] == old(work[size..])
    {
      hide Ctr, KeyStreamBlock, Tally, Ran;
      RanNothing(aes.replies, aes.calls);
      ghost var m, rest := work[..size], work[size..];
      ghost var c := Ctr(aes.encrypt, key, nonce, m);
      var offset, number := 0, 1;
      while offset < size
        invariant Valid() && 1 <= number <= 1 + CeilDiv16(size)
        invariant offset == if 16 * (number - 1) <= size then 16 * (number - 1) else size
        invariant Ran(aes.replies, old(aes.calls), aes.calls, number - 1, true)
        invariant Converted(m, c, offset)
        invariant forall q :: size <= q < work.Length ==> work[q] == old(work[q])
        decreases size - offset
      {
        ghost var middle := aes.calls;
        ok := Counter(number);
        RanThen(aes.replies, old(aes.calls), middle, aes.calls, number - 1, 1, ok);
        if !ok {
          RanShort(aes.replies, old(aes.calls), aes.calls, number, CeilDiv16(size));
          assert work[size..] == rest;
          return;
        }
        CtrBlock(aes.encrypt, key, nonce, m, number);
        offset := Mask(offset, size, m, c);
        number := number + 1;
      }
      ok := true;
      assert work[..size] == c && work[size..] == rest;
    }

    /** Turn T into U in place; when opening, also accumulate every difference from the received tag. */
    method MaskTag(open: bool, tagLength: nat) returns (different: byte)
      requires Shape() && tagLength <= 16
      modifies mac
      ensures mac[..tagLength] == Xor(old(mac[..tagLength]), cipher[..tagLength])
      ensures different == 0 <==> !open || mac[..tagLength] == tag[..tagLength]
    {
      hide WithDifference, Tally;
      different := 0;
      ghost var same := true;
      for i := 0 to tagLength
        invariant forall k :: 0 <= k < i ==> mac[k] == old(mac[k]) ^ cipher[k]
        invariant forall k :: i <= k < 16 ==> mac[k] == old(mac[k])
        invariant same <==> forall k :: 0 <= k < i ==> mac[k] == tag[k]
        invariant different == 0 <==> !open || same
      {
        mac[i] := mac[i] ^ cipher[i];
        if open {
          different := WithDifference(different, mac[i], tag[i]);
        }
        same := same && mac[i] == tag[i];
      }
    }

    /** What the work buffer holds, with the received tag appended when opening. */
    ghost function Received(open: bool, size: nat, tagLength: nat): (r: seq<byte>)
      requires size <= work.Length && tagLength <= 16
      reads `tag, work
      ensures |r| == size + if open then tagLength else 0
    {
      work[..size] + if open then tag[..tagLength] else []
    }

    /** Start an operation: everything zero, then the copied inputs. */
    method Load(open: bool, key: Block, nonce: seq<byte>, input: seq<byte>, size: nat, tagLength: nat)
      requires Valid() && |nonce| == 13 && tagLength <= 16
      requires size <= MAX_MESSAGE && |input| == size + if open then tagLength else 0
      modifies this, mac, block, work
      ensures Valid() && start == aes.calls
      ensures this.key == key && this.nonce == nonce && Received(open, size, tagLength) == input
    {
      info, position, start := Info(0, 0, 0), 0, aes.calls;
      this.key, this.nonce, cipher := key, nonce, Zeros(16);
      forall i | 0 <= i < 16 { mac[i] := 0; }
      forall i | 0 <= i < 16 { block[i] := 0; }
      forall i | 0 <= i < work.Length { work[i] := if i < size then input[i] else 0; }
      tag := if open then Pad(input[size..], 16) else Zeros(16);
      assert work[..size] == input[..size];
      assert open ==> tag[..tagLength] == input[size..];
    }

    /** Authenticate the work buffer and turn T into U; when opening, compare U with the received tag. */
    method MakeTag(open: bool, aad: seq<byte>, size: nat, tagLength: nat) returns (ok: bool, different: byte)
      requires Valid() && size <= MAX_MESSAGE && |aad| <= MAX_AAD && TagLength(tagLength)
      modifies `info, `cipher, `position, aes`calls, mac, block
      ensures Valid()
      ensures Ran(aes.replies, old(aes.calls), aes.calls,
                  2 + CeilDiv16(size) + (if |aad| > 0 then CeilDiv16(|aad| + 2) else 0), ok)
      ensures ok ==>
                var u := EncryptedTag(aes.encrypt, key, nonce, aad, work[..size], tagLength);
                mac[..tagLength] == u && (different == 0 <==> !open || u == tag[..tagLength])
    {
      hide Mac, KeyStreamBlock, Tally, Ran;
      different := 0;
      ghost var n := 1 + CeilDiv16(size) + (if |aad| > 0 then CeilDiv16(|aad| + 2) else 0);
      ok := Authenticate(aad, size, tagLength);
      if !ok {
        RanShort(aes.replies, old(aes.calls), aes.calls, n, n + 1);
        return;
      }
      ghost var t, middle := mac[..], aes.calls;
      ok := Counter(0);
      RanThen(aes.replies, old(aes.calls), middle, aes.calls, n, 1, ok);
      if !ok { return; }
      assert mac[..tagLength] == t[..tagLength];
      different := MaskTag(open, tagLength);
    }

    /** The result and the work buffer agree with `text`: its octets, or an authentication failure. */
    ghost predicate Settled(result: Result, text: Option<seq<byte>>)
      reads work
    {
      match text
      case None => result == Auth
      case Some(t) => result == Ok && |t| <= work.Length && work[..|t|] == t
    }

    method OpenInPlace(aad: seq<byte>, size: nat, tagLength: nat) returns (result: Result)
      requires Valid() && size <= MAX_MESSAGE && |aad| <= MAX_AAD && TagLength(tagLength)
      modifies `info, `cipher, `position, aes`calls, mac, block, work
      ensures Valid()
      ensures Ran(aes.replies, old(aes.calls), aes.calls, CipherCalls(size, |aad|), result != Aes)
      ensures result != Aes ==>
                Settled(result, Open(aes.encrypt, key, nonce, aad, old(Received(true, size, tagLength)), tagLength))
    {
      hide Ctr, EncryptedTag, Open, Tally, Ran;
      ghost var m := Ctr(aes.encrypt, key, nonce, work[..size]);
      OpenByParts(aes.encrypt, key, nonce, aad, work[..size], tag[..tagLength], tagLength);
      result := Aes;
      ghost var n, n' := CeilDiv16(size), CipherCalls(size, |aad|) - CeilDiv16(size);
      var ok := Transform(size);
      if !ok {
        RanShort(aes.replies, old(aes.calls), aes.calls, n, n + n');
        return;
      }
      assert work[..size] == m;
      ghost var middle := aes.calls;
      var different: byte;
      ok, different := MakeTag(true, aad, size, tagLength);
      RanThen(aes.replies, old(aes.calls), middle, aes.calls, n, n', ok);
      if !ok { return; }
      result := if different != 0 then Auth else Ok;
    }

    method SealInPlace(aad: seq<byte>, size: nat, tagLength: nat) returns (result: Result)
      requires Valid() && size <= MAX_MESSAGE && |aad| <= MAX_AAD && TagLength(tagLength)
      modifies `info, `cipher, `position, aes`calls, mac, block, work
      ensures Valid()
      ensures Ran(aes.replies, old(aes.calls), aes.calls, CipherCalls(size, |aad|), result != Aes)
      ensures result != Aes ==>
                Settled(result, Some(Seal(aes.encrypt, key, nonce, aad, old(Received(false, size, tagLength)), tagLength)))
    {
      hide Ctr, EncryptedTag, Tally, Ran;
      ghost var m := Received(false, size, tagLength);
      assert m == work[..size];
      result := Aes;
      ghost var n, n' := CipherCalls(size, |aad|) - CeilDiv16(size), CeilDiv16(size);
      var ok, _ := MakeTag(false, aad, size, tagLength);
      if !ok {
        RanShort(aes.replies, old(aes.calls), aes.calls, n, n + n');
        return;
      }
      ghost var u, middle := mac[..tagLength], aes.calls;
      ok := Transform(size);
      RanThen(aes.replies, old(aes.calls), middle, aes.calls, n, n', ok);
      if !ok { return; }
      assert mac[..tagLength] == u;
      AppendTag(size, tagLength);
      result := Ok;
    }

    method AppendTag(size: nat, tagLength: nat)
      requires Shape() && size + tagLength <= work.Length && tagLength <= 16
      modifies work
      ensures work[..size + tagLength] == old(work[..size]) + mac[..tagLength]
    {
      forall i | 0 <= i < tagLength { work[size + i] := mac[i]; }
    }

    /** Decrypt (when opening), authenticate, compare (when opening), encrypt (when sealing). */
    method Process(open: bool, aad: seq<byte>, size: nat, tagLength: nat) returns (result: Result)
      requires Valid() && size <= MAX_MESSAGE && |aad| <= MAX_AAD && TagLength(tagLength)
      modifies `info, `cipher, `position, aes`calls, mac, block, work
      ensures Valid()
      ensures Ran(aes.replies, old(aes.calls), aes.calls, CipherCalls(size, |aad|), result != Aes)
      ensures result != Aes ==>
                Settled(result, Text(aes.encrypt, if open then 1 else 0, key, nonce, aad,
                                     old(Received(open, size, tagLength)), tagLength))
    {
      if open {
        result := OpenInPlace(aad, size, tagLength);
      } else {
        result := SealInPlace(aad, size, tagLength);
      }
    }

    method Publish(total: nat, output: array<byte>, written: array<nat>)
      requires total <= work.Length && total <= output.Length && written.Length == 1
      requires output != work && output as object != written
      modifies output, written
      ensures output[..] == work[..total] + old(output[total..]) && written[0] == total
    {
      written[0] := total;
      ghost var rest, text := output[total..], work[..total];
      forall i | 0 <= i < total { output[i] := work[i]; }
      assert output[..] == text + rest;
    }

    /**
     Seal (open = 0) or open (open = 1). Output, the written count and the report stay as they were on a
     preflight error; any later failure leaves output and the written count alone.
     */
    method Crypt(open: nat, key: Block, nonce: seq<byte>, aad: seq<byte>, input: seq<byte>, tagLength: nat,
                 output: array<byte>, capacity: nat, written: array<nat>, limits: Limits, report: array<Info>)
      returns (result: Result)
      requires Valid() && |nonce| == 13 && capacity <= output.Length && written.Length == report.Length == 1
      requires output !in {mac, block, work}
      requires output as object != written && output as object != report && written as object != report
      modifies this, aes, mac, block, work, output, written, report
      ensures Valid()
      ensures var p := Preflight(open, |aad|, |input|, tagLength, capacity, limits);
              if p != Ok then
                result == p && aes.calls == old(aes.calls) && output[..] == old(output[..])
                && written[0] == old(written[0]) && report[0] == old(report[0])
              else
                && Ran(aes.replies, old(aes.calls), aes.calls,
                       CipherCalls(MessageSize(open, |input|, tagLength), |aad|), result != Aes)
                && report[0] == Tally(aes.replies, old(aes.calls), aes.calls)
                && (result != Aes ==>
                      match Text(aes.encrypt, open, key, nonce, aad, input, tagLength)
                      case None => result == Auth
                      case Some(text) =>
                        result == Ok && |text| <= capacity && written[0] == |text|
                        && output[..] == text + old(output[|text|..]))
                && (result != Ok ==> output[..] == old(output[..]) && written[0] == old(written[0]))
    {
      hide Text, Ran;
      result := Preflight(open, |aad|, |input|, tagLength, capacity, limits);
      if result != Ok { return; }
      var size := MessageSize(open, |input|, tagLength);
      Load(open == 1, key, nonce, input, size, tagLength);
      result := Process(open == 1, aad, size, tagLength);
      if result == Ok {
        Publish(size + (if open == 1 then 0 else tagLength), output, written);
      }
      report[0] := info;
    }
  }

  function MessageSize(open: nat, length: nat, tagLength: nat): nat {
    if open == 1 && tagLength <= length then length - tagLength else length
  }

  /** What is refused before any state, output or service call is touched. */
  function Preflight(open: nat, aad: nat, length: nat, tagLength: nat, capacity: nat, limits: Limits): Result {
    if open > 1 || limits.blockTimeout == 0 || limits.blockTimeout >= HALF_RANGE || limits.blockPolls == 0 then Argument
    else if !TagLength(tagLength) then Tag
    else if aad > MAX_AAD || (open == 1 && length < tagLength)
            || length > MAX_MESSAGE + (if open == 1 then tagLength else 0) then Length
    else if capacity < MessageSize(open, length, tagLength) + (if open == 1 then 0 else tagLength) then Space
    else Ok
  }

  /** The text an operation publishes when the service never fails; None when the tag does not match. */
  function Text(e: Cipher, open: nat, key: Block, nonce: seq<byte>, aad: seq<byte>, input: seq<byte>, tagLength: nat)
    : (r: Option<seq<byte>>)
    requires |nonce| == 13 && |aad| <= MAX_AAD && TagLength(tagLength) && |input| <= MAX_MESSAGE + tagLength
    requires open == 1 ==> tagLength <= |input|
    ensures r.Some? ==> |r.value| == MessageSize(open, |input|, tagLength) + (if open == 1 then 0 else tagLength)
  {
    if open == 1 then Open(e, key, nonce, aad, input, tagLength)
    else Some(Seal(e, key, nonce, aad, input, tagLength))
  }

  /** What is refused, and for what: the direction and the limits, the tag, the lengths, then the room for the output. */
  lemma PreflightExactly(open: nat, aad: nat, length: nat, tagLength: nat, capacity: nat, limits: Limits)
    ensures Preflight(open, aad, length, tagLength, capacity, limits) ==
              if open > 1 || !(1 <= limits.blockTimeout < 0x80_0000) || limits.blockPolls == 0 then Argument
              else if tagLength !in {4, 8, 16} then Tag
              else if aad > 132 || (open == 1 && !(tagLength <= length <= tagLength + 116)) then Length
              else if open == 0 && length > 116 then Length
              else if open == 1 && capacity < length - tagLength then Space
              else if open == 0 && capacity < length + tagLength then Space
              else Ok
  {
  }

  /** Direction 1 opens, 0 seals. */
  lemma DirectionsExactly(e: Cipher, key: Block, nonce: seq<byte>, aad: seq<byte>, input: seq<byte>, tagLength: nat)
    requires |nonce| == 13 && |aad| <= MAX_AAD && TagLength(tagLength)
    ensures tagLength <= |input| <= MAX_MESSAGE + tagLength ==>
              Text(e, 1, key, nonce, aad, input, tagLength) == Open(e, key, nonce, aad, input, tagLength)
    ensures |input| <= MAX_MESSAGE ==>
              Text(e, 0, key, nonce, aad, input, tagLength) == Some(Seal(e, key, nonce, aad, input, tagLength))
  {
    hide Open, Seal;
  }

  /** Every difference so far, as one octet. */
  function WithDifference(d: byte, x: byte, y: byte): (r: byte)
    ensures r == 0 <==> d == 0 && x == y
  {
    d | (x ^ y)
  }

  lemma FlagsByFields(hasAad: bool, tag: nat)
    requires TagLength(tag)
    ensures FlagsOctet(hasAad, tag) == (1 | (Octet((tag - 2) / 2) << 3)) | (if hasAad then 0x40 else 0)
  {
    assert Octet(1) == 1 && Octet(2) == 2 && Octet(3) == 3;
    assert Octet(4) == 4 && Octet(5) == 5 && Octet(6) == 6 && Octet(7) == 7;
  }
}
