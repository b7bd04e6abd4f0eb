/**
 The APS security envelope in octets: which frames are sealed and which are opened, and what is handed to the cipher
 mode, stated without the functions that parse and build them.
 */
module EdWireOctets {
  import opened Bytes
  import Aps = ApsFrame
  import Ccm = CcmStar
  import CcmSpec
  import opened EdWire

  /**
   Header octets of an unsecured frame: unicast data, with or without a requested acknowledgement, and broadcast data; a
   command, likewise; and an acknowledgement, in full or in the short format.
   */
  predicate PlainControl(c: byte) {
    c == 0 || c == 0x40 || c == 0x08 || c == 0x01 || c == 0x41 || c == 0x02 || c == 0x12
  }

  /** Commands and short acknowledgements have two header octets, everything else eight. */
  function HeaderOctetsOf(c: byte): nat {
    if c == 0x01 || c == 0x41 || c == 0x12 then 2 else 8
  }

  /** A frame whose header is understood; `c` is its first octet without the security bit. */
  predicate Understood(frame: seq<byte>, c: byte) {
    && 2 <= |frame| <= 108 && PlainControl(c) && HeaderOctetsOf(c) <= |frame|
    && (HeaderOctetsOf(c) == 8 ==> frame[6] != 0xff)
  }

  lemma ControlsSupported(c: byte)
    ensures ControlSupported(c) <==> PlainControl(c & 0xdf)
    ensures PlainControl(c & 0xdf) ==> (ShortHeader(c) <==> HeaderOctetsOf(c & 0xdf) == 2)
    ensures PlainControl(c & 0xdf) ==> c & 0x40 == 0 || c & 0x40 == 0x40
  {
  }

  lemma ReadsExactly(frame: seq<byte>)
    ensures ReadAps(frame).Done? <==> frame != [] && Understood(frame, frame[0] & 0xdf)
    ensures ReadAps(frame).Done? ==> ReadAps(frame).value.payloadOffset == HeaderOctetsOf(frame[0] & 0xdf)
  {
    if frame != [] {
      ControlsSupported(frame[0]);
      if |frame| >= 8 {
        Aps.AcceptsExactly(frame[0 := frame[0] & Aps.FLAG_ACK_REQUEST]);
        KeptAckRequest(frame[0]);
      }
      hide ControlSupported, ShortHeader, PlainControl, Aps.Decode;
    }
  }

  lemma KeptAckRequest(c: byte)
    ensures c & 0x40 == 0 || c & 0x40 == 0x40
  {
  }

  // ---------- what the cipher mode is given ----------

  /** The counter, least significant octet first. */
  predicate Counts(o: seq<byte>, c: bv32) {
    |o| == 4 && c == 0x100_0000 * (o[3] as bv32) + 0x1_0000 * (o[2] as bv32) + 0x100 * (o[1] as bv32) + o[0] as bv32
  }

  lemma CounterCounts(c: bv32)
    ensures Counts(CounterOctets(c), c)
  {
  }

  lemma ValueCounts(b0: byte, b1: byte, b2: byte, b3: byte)
    ensures Counts([b0, b1, b2, b3], CounterValue(b0, b1, b2, b3))
  {
  }

  /** Level 5, extended nonce, and the key identifier in bits 3 and 4. */
  predicate Control(c: byte, identifier: byte) {
    c == if identifier == 0 then 0x25 else if identifier == 2 then 0x35 else 0x3d
  }

  /** Source, counter, control octet. */
  predicate NonceOf(nonce: seq<byte>, key: Key, counter: bv32) {
    && |nonce| == 13 && nonce[..8] == key.source && Counts(nonce[8..12], counter) && Control(nonce[12], key.keyIdentifier)
  }

  /** The header with its security bit set, then control octet, counter and source. */
  predicate AadOf(aad: seq<byte>, key: Key, counter: bv32, header: seq<byte>) {
    var h := |header|;
    && 0 < h && |aad| == h + 13 && aad[0] == header[0] | 0x20 && aad[1..h] == header[1..]
    && Control(aad[h], key.keyIdentifier) && Counts(aad[h + 1..h + 5], counter) && aad[h + 5..] == key.source
  }

  predicate Identifier(id: byte) {
    id == 0 || id == 2 || id == 3
  }

  lemma NonceIs(key: Key, counter: bv32)
    requires |key.source| == 8 && Identifier(key.keyIdentifier)
    ensures NonceOf(Nonce(key, counter), key, counter)
  {
    CounterCounts(counter);
    var n := Nonce(key, counter);
    hide CounterOctets, Counts;
    assert n[8..12] == CounterOctets(counter);
  }

  lemma AadIs(key: Key, counter: bv32, header: seq<byte>)
    requires |key.source| == 8 && |header| > 0 && Identifier(key.keyIdentifier)
    ensures AadOf(Authenticated(key, counter, header), key, counter, header)
  {
    CounterCounts(counter);
    AuthenticatedByParts(key, counter, header);
    var a, h := Authenticated(key, counter, header), |header|;
    hide CounterOctets, Counts;
    assert a[1..h] == header[1..] && a[h + 5..] == key.source;
  }

  // ---------- sealing ----------

  /** What a key must say, and what the cipher service is allowed: a poll at least, and less than half its timer's range. */
  predicate Usable(key: Key) {
    key.level == 5 && key.extendedNonce == 1 && Identifier(key.keyIdentifier)
  }

  predicate Served(l: Ccm.Limits) {
    0 < l.blockTimeout < 0x80_0000 && l.blockPolls > 0
  }

  /** Commands carry something, acknowledgements nothing; only commands may name a key other than the data key. */
  predicate Carries(c: byte, size: nat, identifier: byte) {
    && (c & 3 == 1 ==> size > 0) && (c & 3 == 2 ==> size == 0) && (c & 3 != 1 ==> identifier == 0)
  }

  /** The frames that are sealed. */
  lemma SealsExactly(e: CcmSpec.Cipher, key: Key, frame: seq<byte>, capacity: nat)
    requires |key.source| == 8
    ensures SealFrame(e, key, frame, capacity).Done? <==>
              && Usable(key) && frame != [] && Understood(frame, frame[0]) && key.counter != 0xffff_ffff
              && Carries(frame[0], |frame| - HeaderOctetsOf(frame[0]), key.keyIdentifier)
              && |frame| + 17 <= 108 && |frame| + 17 <= capacity && Served(key.limits)
  {
    ReadsExactly(frame);
    if frame != [] {
      PlainHasNoSecurity(frame[0]);
    }
    hide ReadAps, Sealed, PlainControl, HeaderOctetsOf;
  }

  lemma PlainHasNoSecurity(c: byte)
    ensures PlainControl(c) ==> c & 0x20 == 0 && c & 0xdf == c
    ensures c & 0x20 == 0 ==> c & 0xdf == c
    ensures c & 0x20 != 0 ==> !PlainControl(c) && (c & 0xdf) | 0x20 == c
  {
  }

  /**
   What is put out: the header with its security bit set, the control octet with its level bits zero, counter and source,
   and then what the cipher mode seals under this very nonce and additional data, with four octets of MIC.
   */
  lemma SealedWire(e: CcmSpec.Cipher, key: Key, frame: seq<byte>, capacity: nat) returns (nonce: seq<byte>, aad: seq<byte>)
    requires |key.source| == 8 && SealFrame(e, key, frame, capacity).Done?
    ensures var h := HeaderOctetsOf(frame[0]); var w := SealFrame(e, key, frame, capacity).value.0;
            && h <= |frame| <= 91 && |w| == |frame| + 17
            && NonceOf(nonce, key, key.counter) && AadOf(aad, key, key.counter, frame[..h])
            && w[0] == frame[0] | 0x20 && w[1..h] == frame[1..h]
            && w[h] == (if key.keyIdentifier == 0 then 0x20 else if key.keyIdentifier == 2 then 0x30 else 0x38)
            && Counts(w[h + 1..h + 5], key.counter) && w[h + 5..h + 13] == key.source
            && w[h + 13..] == CcmSpec.Seal(e, key.key, nonce, aad, frame[h..], 4)
            && SealFrame(e, key, frame, capacity).value.1
               == Meta(key.counter, key.source, 5, key.keyIdentifier, 0, 1, h, 13, |frame| - h)
  {
    hide ReadAps, Sealed, PlainControl, HeaderOctetsOf, Counts, CounterOctets, CcmSpec.Seal, Authenticated, Nonce, NonceOf, AadOf;
    SealsExactly(e, key, frame, capacity);
    ReadsExactly(frame);
    PlainHasNoSecurity(frame[0]);
    var h := HeaderOctetsOf(frame[0]);
    nonce, aad := Nonce(key, key.counter), Authenticated(key, key.counter, frame[..h]);
    NonceIs(key, key.counter);
    AadIs(key, key.counter, frame[..h]);
    SealedParts(e, key, frame, h);
    CounterCounts(key.counter);
    hide KeyCheck, Admit, Understood;
  }

  // ---------- opening ----------

  /** A received frame `w` with header length h that the key may open, before its MIC is looked at. */
  predicate Admitted(key: Key, w: seq<byte>, h: nat, capacity: nat) {
    && Usable(key) && w != [] && w[0] & 0x20 != 0 && Understood(w, w[0] & 0xdf) && h == HeaderOctetsOf(w[0] & 0xdf)
    && |w| >= h + 17
    && w[h] & 0xf8 == (if key.keyIdentifier == 0 then 0x20 else if key.keyIdentifier == 2 then 0x30 else 0x38)
    && w[h + 1..h + 5] != [0xff, 0xff, 0xff, 0xff] && w[h + 5..h + 13] == key.source
    && Carries(w[0], |w| - h - 17, key.keyIdentifier) && |w| - 17 <= capacity && Served(key.limits)
  }

  /** The key identifier a received control octet asks for; none if it is not one the envelope knows. */
  function Asked(c: byte): byte {
    if c & 0xf8 == 0x20 then 0 else if c & 0xf8 == 0x30 then 2 else if c & 0xf8 == 0x38 then 3 else 0xff
  }

  /** What can be said of a received frame before a key is looked at. */
  predicate Protected(w: seq<byte>, h: nat) {
    && w != [] && w[0] & 0x20 != 0 && Understood(w, w[0] & 0xdf) && h == HeaderOctetsOf(w[0] & 0xdf) && |w| >= h + 17
    && Asked(w[h]) != 0xff && (w[0] & 3 != 1 ==> Asked(w[h]) == 0) && w[h + 1..h + 5] != [0xff, 0xff, 0xff, 0xff]
  }

  lemma InspectsExactly(w: seq<byte>)
    ensures Inspect(w).Done? <==> w != [] && Protected(w, HeaderOctetsOf(w[0] & 0xdf))
    ensures Inspect(w).Done? ==>
              var h := HeaderOctetsOf(w[0] & 0xdf); var p := Inspect(w).value;
              && p.kind == w[0] & 3 && Counts(w[h + 1..h + 5], p.meta.counter)
              && p.meta == Meta(p.meta.counter, w[h + 5..h + 13], 5, Asked(w[h]), 0, 1, h, 13, |w| - h - 17)
  {
    ReadsExactly(w);
    if w != [] && Understood(w, w[0] & 0xdf) {
      var h := HeaderOctetsOf(w[0] & 0xdf);
      if |w| >= h + 5 {
        ValueCounts(w[h + 1], w[h + 2], w[h + 3], w[h + 4]);
        LastCounter(w[h + 1], w[h + 2], w[h + 3], w[h + 4]);
        assert w[h + 1..h + 5] == [w[h + 1], w[h + 2], w[h + 3], w[h + 4]];
        AuxiliaryControl(w[h]);
      }
    }
    hide ReadAps, PlainControl, HeaderOctetsOf, Counts, CounterValue, Understood, AuxiliaryLength, Asked;
  }

  lemma OpenPlansExactly(key: Key, w: seq<byte>, capacity: nat)
    requires |key.source| == 8
    ensures OpenPlan(key, w, capacity).Done? <==> w != [] && Admitted(key, w, HeaderOctetsOf(w[0] & 0xdf), capacity)
    ensures OpenPlan(key, w, capacity).Done? ==>
              var m := OpenPlan(key, w, capacity).value.meta; var h := m.headerLength;
              && h == HeaderOctetsOf(w[0] & 0xdf) && Counts(w[h + 1..h + 5], m.counter)
              && m == Meta(m.counter, key.source, 5, key.keyIdentifier, 0, 1, h, 13, |w| - h - 17)
  {
    InspectsExactly(w);
    hide Inspect, HeaderOctetsOf, Counts, Understood;
  }

  lemma LastCounter(b0: byte, b1: byte, b2: byte, b3: byte)
    ensures CounterValue(b0, b1, b2, b3) == 0xffff_ffff <==> [b0, b1, b2, b3] == [0xff, 0xff, 0xff, 0xff]
  {
    CounterBytes(b0, b1, b2, b3);
  }

  lemma AuxiliaryControl(c: byte)
    ensures Asked(c) != 0xff <==> c & 0xc0 == 0 && c & 0x20 != 0 && (c >> 3) & 3 != 1
    ensures Asked(c) != 0xff ==> (c >> 3) & 3 == Asked(c) && (c >> 5) & 1 == 1 && AuxiliaryLength(c) == 13
  {
  }

  /** The frames that are opened, and what each opens to: the header without its security bit, and the text the cipher mode opens. */
  lemma OpensExactly(e: CcmSpec.Cipher, key: Key, w: seq<byte>, capacity: nat) returns (h: nat, counter: bv32, nonce: seq<byte>, aad: seq<byte>)
    requires |key.source| == 8
    ensures OpenFrame(e, key, w, capacity).Done? ==> Admitted(key, w, h, capacity)
    ensures w != [] ==> h == HeaderOctetsOf(w[0] & 0xdf)
    ensures Admitted(key, w, h, capacity) ==>
              && Counts(w[h + 1..h + 5], counter) && NonceOf(nonce, key, counter) && AadOf(aad, key, counter, w[..h])
              && match CcmSpec.Open(e, key.key, nonce, aad, w[h + 13..], 4)
                 case None => OpenFrame(e, key, w, capacity) == Failed(AuthFailure)
                 case Some(text) => OpenFrame(e, key, w, capacity).Done?
                                    && OpenFrame(e, key, w, capacity).value
                                       == ([w[0] & 0xdf] + w[1..h] + text,
                                           Meta(counter, key.source, 5, key.keyIdentifier, 0, 1, h, 13, |w| - h - 17))
  {
    hide OpenFrame, OpenPlan, HeaderOctetsOf, Counts, CounterOctets, CcmSpec.Open, Authenticated, Nonce, NonceOf, AadOf, Understood, Carries;
    h, counter, nonce, aad := 0, 0, [], [];
    OpenPlansExactly(key, w, capacity);
    OpensPlanned(e, key, w, capacity);
    if w != [] {
      h := HeaderOctetsOf(w[0] & 0xdf);
      if Admitted(key, w, h, capacity) {
        counter := OpenPlan(key, w, capacity).value.meta.counter;
        nonce, aad := Nonce(key, counter), Authenticated(key, counter, w[..h]);
        NonceIs(key, counter);
        AadIs(key, counter, w[..h]);
      }
    }
  }

  /** Opening, by the plan. */
  lemma OpensPlanned(e: CcmSpec.Cipher, key: Key, w: seq<byte>, capacity: nat)
    requires |key.source| == 8
    ensures OpenPlan(key, w, capacity).Failed? ==> OpenFrame(e, key, w, capacity).Failed?
    ensures OpenPlan(key, w, capacity).Done? ==>
              var m := OpenPlan(key, w, capacity).value.meta; var h := m.headerLength;
              match CcmSpec.Open(e, key.key, Nonce(key, m.counter), Authenticated(key, m.counter, w[..h]), w[h + 13..], 4)
              case None => OpenFrame(e, key, w, capacity) == Failed(AuthFailure)
              case Some(text) => OpenFrame(e, key, w, capacity).Done?
                                 && OpenFrame(e, key, w, capacity).value == ([w[0] & 0xdf] + w[1..h] + text, m)
  {
    hide OpenPlan, CcmSpec.Open, Authenticated, Nonce;
    if OpenPlan(key, w, capacity).Done? {
      var h := OpenPlan(key, w, capacity).value.meta.headerLength;
      assert w[..h][0 := w[0] & 0xdf] == [w[0] & 0xdf] + w[1..h];
    }
  }

  /** Direction 1 opens, 0 seals, and there is no other. */
  lemma DirectionsExactly(e: CcmSpec.Cipher, key: Key, frame: seq<byte>, capacity: nat, open: nat)
    requires |key.source| == 8
    ensures PlanOf(open, key, frame, capacity) == if open == 0 then SealPlan(key, frame, capacity)
                                                  else if open == 1 then OpenPlan(key, frame, capacity)
                                                  else Failed(Argument)
    ensures FrameOf(e, 0, key, frame, capacity) == SealFrame(e, key, frame, capacity)
    ensures FrameOf(e, 1, key, frame, capacity) == OpenFrame(e, key, frame, capacity)
  {
    hide SealPlan, OpenPlan, SealFrame, OpenFrame;
  }
}
