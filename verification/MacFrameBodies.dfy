/**
 The bodies the MAC codec admits, kind by kind and in their own octets: which frames a device may send and which it
 takes, without the policies that decide it.
 */
module MacFrameBodies {
  import opened Bytes
  import opened MacFrame
  import opened MacFrameLaws

  /** The broadcast address and the one that stands for no address. */
  predicate Special(lo: byte, hi: byte) {
    hi == 0xff && lo >= 0xfe
  }

  lemma SpecialWords(lo: byte, hi: byte)
    ensures ReadLe16(lo, hi) >= 0xfffe <==> Special(lo, hi)
    ensures ReadLe16(lo, hi) == 0xffff <==> hi == 0xff && lo == 0xff
    ensures ReadLe16(lo, hi) == 0xfffe <==> hi == 0xff && lo == 0xfe
  {
  }

  // ---------- the header of a command ----------

  /** The second octet: both addresses, or one of them, each short or extended; version 0. */
  predicate Addressed(b1: byte) {
    Both(b1) || b1 == 0x08 || b1 == 0x0c || b1 == 0x80 || b1 == 0xc0
  }

  predicate Both(b1: byte) {
    b1 == 0x88 || b1 == 0x8c || b1 == 0xc8 || b1 == 0xcc
  }

  predicate ShortDestination(b1: byte) {
    b1 & 0x0c == 0x08
  }

  predicate ShortSource(b1: byte) {
    b1 & 0xc0 == 0x80
  }

  /** Where the source field starts: after the destination's PAN and address, if there are any. */
  function SourceAt(b1: byte): nat {
    if b1 & 0x0c == 0 then 3 else if ShortDestination(b1) then 7 else 13
  }

  /** Where its address starts: after its PAN, unless that is the destination's. */
  function SourceAddressAt(b0: byte, b1: byte): nat {
    SourceAt(b1) + if b0 & 0x40 != 0 then 0 else 2
  }

  function PayloadAt(b0: byte, b1: byte): nat {
    if b1 & 0xc0 == 0 then SourceAt(b1) else SourceAddressAt(b0, b1) + if ShortSource(b1) then 2 else 8
  }

  /** A command's control octets: no security, nothing reserved, compression only with both addresses. */
  predicate CommandControl(b0: byte, b1: byte) {
    b0 & 0x8f == 0x03 && Addressed(b1) && (b0 & 0x40 != 0 ==> Both(b1))
  }

  lemma CommandShape(b0: byte, b1: byte, b2: byte)
    requires b1 & 3 == 0
    ensures var c := ControlHeader(b0, b1, b2);
            && (c.kind == COMMAND && HeaderShape(c).Done? <==> CommandControl(b0, b1))
            && (CommandControl(b0, b1) ==> HeaderSize(c) == PayloadAt(b0, b1) && SourceOffset(c) == SourceAt(b1))
  {
  }

  /** The header a command's octets carry. */
  function Read(b: seq<byte>): Header
    requires |b| >= 3 && HeaderSize(ControlHeader(b[0], b[1], b[2])) <= |b|
  {
    WithSource(WithDestination(ControlHeader(b[0], b[1], b[2]), b), b)
  }

  lemma ReadFields(b: seq<byte>)
    requires |b| >= 3 && CommandControl(b[0], b[1]) && PayloadAt(b[0], b[1]) <= |b|
    ensures HeaderSize(ControlHeader(b[0], b[1], b[2])) <= |b|
    ensures var h := Read(b); var p := SourceAt(b[1]);
            && h.kind == COMMAND && h.flags == b[0] & 0xf8 && h.destinationMode == (b[1] >> 2) & 3 && h.sourceMode == (b[1] >> 6) & 3
            && (b[1] & 0x0c != 0 ==> h.destinationPan == ReadLe16(b[3], b[4]))
            && (ShortDestination(b[1]) ==> ShortOf(h.destination) == ReadLe16(b[5], b[6]))
            && (b[1] & 0xc0 != 0 && b[0] & 0x40 == 0 ==> h.sourcePan == ReadLe16(b[p], b[p + 1]))
            && (ShortSource(b[1]) ==> ShortOf(h.source) == ReadLe16(b[SourceAddressAt(b[0], b[1])], b[SourceAddressAt(b[0], b[1]) + 1]))
            && (b[0] & 0x40 != 0 ==> h.sourcePan == h.destinationPan)
  {
    var c := ControlHeader(b[0], b[1], b[2]);
    CommandShape(b[0], b[1], b[2]);
    Modes(b[0], b[1], b[2]);
    DestinationFields(c, b);
    SourceFields(WithDestination(c, b), b);
    hide HeaderShape, ReadLe16, ControlHeader, WithDestination, WithSource, Widen, AddressSize;
  }

  lemma Modes(b0: byte, b1: byte, b2: byte)
    requires CommandControl(b0, b1)
    ensures var c := ControlHeader(b0, b1, b2);
            && c.flags == b0 & 0xf8 && c.destinationMode == (b1 >> 2) & 3 && c.sourceMode == (b1 >> 6) & 3
            && (AddressSize(c.destinationMode) > 0 <==> b1 & 0x0c != 0) && (AddressSize(c.destinationMode) == 2 <==> ShortDestination(b1))
            && (AddressSize(c.sourceMode) > 0 <==> b1 & 0xc0 != 0) && (AddressSize(c.sourceMode) == 2 <==> ShortSource(b1))
            && (Compressed(c) <==> b0 & 0x40 != 0)
  {
  }

  lemma DestinationFields(c: Header, b: seq<byte>)
    requires HeaderSize(c) <= |b|
    ensures var d := AddressSize(c.destinationMode); var r := WithDestination(c, b);
            && r == c.(destinationPan := r.destinationPan, destination := r.destination)
            && (d > 0 ==> r.destinationPan == ReadLe16(b[3], b[4])) && (d == 2 ==> ShortOf(r.destination) == ReadLe16(b[5], b[6]))
  {
    hide ReadLe16;
  }

  lemma SourceFields(r: Header, b: seq<byte>)
    requires HeaderSize(r) <= |b|
    ensures var s, p := AddressSize(r.sourceMode), SourceOffset(r); var h := WithSource(r, b);
            && h == r.(sourcePan := h.sourcePan, source := h.source)
            && (s > 0 && Compressed(r) ==> h.sourcePan == r.destinationPan)
            && (s > 0 && !Compressed(r) ==> h.sourcePan == ReadLe16(b[p], b[p + 1]))
            && (s == 2 ==> var q := p + if Compressed(r) then 0 else 2; ShortOf(h.source) == ReadLe16(b[q], b[q + 1]))
  {
    hide ReadLe16;
  }

  // ---------- the commands ----------

  predicate Acknowledged(b0: byte) {
    b0 & 0x20 != 0
  }

  /** Neither address is one of the special short ones. */
  predicate Individual(b: seq<byte>)
    requires |b| >= 3 && CommandControl(b[0], b[1]) && PayloadAt(b[0], b[1]) <= |b|
  {
    && !(ShortDestination(b[1]) && Special(b[5], b[6]))
    && !(ShortSource(b[1]) && Special(b[SourceAddressAt(b[0], b[1])], b[SourceAddressAt(b[0], b[1]) + 1]))
  }

  /** A body of this size after its header, by its control octets. */
  predicate Sized(b: seq<byte>, payload: nat) {
    3 <= |b| <= 125 && CommandControl(b[0], b[1]) && |b| == PayloadAt(b[0], b[1]) + payload
  }

  /** Broadcast to every PAN by nobody in particular, with no acknowledgement asked for. */
  predicate BeaconRequest(b: seq<byte>) {
    && |b| == 8 && (b[0] == 0x03 || b[0] == 0x13) && b[1] == 0x08
    && b[3] == 0xff && b[4] == 0xff && b[5] == 0xff && b[6] == 0xff && b[7] == 7
  }

  /** From somebody, compressed exactly if it names a destination. */
  predicate DataRequest(b: seq<byte>) {
    && Sized(b, 1) && Acknowledged(b[0]) && Individual(b) && b[|b| - 1] == 4
    && b[1] & 0xc0 != 0 && (b[0] & 0x40 != 0 <==> b[1] & 0x0c != 0)
  }

  /** From an extended address in no PAN, uncompressed, with the reserved capability bits clear. */
  predicate AssociationRequest(b: seq<byte>) {
    && Sized(b, 2) && Acknowledged(b[0]) && Individual(b) && b[|b| - 2] == 1 && b[|b| - 1] & 0x30 == 0
    && (b[1] == 0xc8 || b[1] == 0xcc) && b[0] & 0x40 == 0 && b[SourceAt(b[1])] == 0xff && b[SourceAt(b[1]) + 1] == 0xff
  }

  /** Between extended addresses; success carries an address, refusal the value for none. R22 also takes it uncompressed. */
  predicate AssociationResponse(b: seq<byte>, profile: nat) {
    && Sized(b, 4) && Acknowledged(b[0]) && b[|b| - 4] == 2 && b[1] == 0xcc && (b[0] & 0x40 != 0 || profile == 1)
    && b[|b| - 1] <= 2 && (b[|b| - 1] == 0 <==> !(b[|b| - 3] == 0xff && b[|b| - 2] == 0xff))
  }

  /** From an extended address, compressed, for one of the two reasons. */
  predicate DisassociationNotice(b: seq<byte>) {
    && Sized(b, 2) && Acknowledged(b[0]) && Individual(b) && b[|b| - 2] == 3 && (b[|b| - 1] == 1 || b[|b| - 1] == 2)
    && (b[1] == 0xc8 || b[1] == 0xcc) && b[0] & 0x40 != 0
  }

  lemma CommandDecoded(b: seq<byte>, profile: nat)
    requires 3 <= |b| <= 125 && b[1] & 3 == 0 && profile <= 1
    ensures var n := PayloadAt(b[0], b[1]);
            && (Decode(b, profile).Done? && b[0] & 7 == 3 <==>
                  CommandControl(b[0], b[1]) && n <= |b| && HeaderSize(ControlHeader(b[0], b[1], b[2])) <= |b|
                  && AddressPolicy(Read(b)) == Ok && CommandHeaderPolicy(Read(b), b[n..], 2 * profile) == Ok)
            && (Decode(b, profile).Done? && b[0] & 7 == 3 ==> Decode(b, profile).value.payloadOffset == n)
  {
    CommandShape(b[0], b[1], b[2]);
    var c := ControlHeader(b[0], b[1], b[2]);
    if HeaderSize(c) <= |b| {
      DecodedShape(b, c);
    }
    hide HeaderShape, AddressPolicy, CommandHeaderPolicy, WithSource, WithDestination;
  }

  /** One of the five commands. */
  predicate Command(b: seq<byte>, profile: nat) {
    BeaconRequest(b) || DataRequest(b) || AssociationRequest(b) || AssociationResponse(b, profile) || DisassociationNotice(b)
  }

  /** What the payload alone must be. */
  lemma PayloadsExactly(q: seq<byte>)
    ensures CommandDecode(q).Done? <==>
              || (|q| == 1 && (q[0] == 4 || q[0] == 7)) || (|q| == 2 && q[0] == 1 && q[1] & 0x30 == 0)
              || (|q| == 2 && q[0] == 3 && (q[1] == 1 || q[1] == 2))
              || (|q| == 4 && q[0] == 2 && q[3] <= 2 && (q[3] == 0 <==> !(q[1] == 0xff && q[2] == 0xff)))
  {
    if |q| == 4 {
      SpecialWords(q[1], q[2]);
    }
    hide ReadLe16;
  }

  /** The code of every command payload that is refused. */
  lemma CommandRefusals(q: seq<byte>)
    ensures var size := if |q| == 0 then 0 else if q[0] == 4 || q[0] == 7 then 1 else if q[0] == 1 || q[0] == 3 then 2
                        else if q[0] == 2 then 4 else 0;
            CommandDecode(q).Rejected? ==>
              CommandDecode(q).code == if |q| > 4 then TooLong
                                       else if |q| > 0 && size == 0 then UnsupportedCommand
                                       else if |q| == 0 || |q| < size then Truncated
                                       else InvalidCommand
  {
    hide ReadLe16;
  }

  /** The header as far as the policies look at it, in octets. */
  predicate Seen(h: Header, b: seq<byte>)
    requires 3 <= |b| <= 125 && CommandControl(b[0], b[1]) && PayloadAt(b[0], b[1]) <= |b|
  {
    && h.kind == COMMAND && h.flags == b[0] & 0xf8
    && (h.destinationMode == NONE <==> b[1] & 0x0c == 0) && (h.destinationMode == SHORT <==> ShortDestination(b[1]))
    && (h.destinationMode == EXTENDED <==> b[1] & 0x0c == 0x0c)
    && (h.sourceMode == NONE <==> b[1] & 0xc0 == 0) && (h.sourceMode == SHORT <==> ShortSource(b[1]))
    && (h.sourceMode == EXTENDED <==> b[1] & 0xc0 == 0xc0)
    && (b[1] & 0x0c != 0 ==> (h.destinationPan == 0xffff <==> b[3] == 0xff && b[4] == 0xff))
    && (ShortDestination(b[1]) ==> (ShortOf(h.destination) >= 0xfffe <==> Special(b[5], b[6]))
                                   && (ShortOf(h.destination) == 0xffff <==> b[5] == 0xff && b[6] == 0xff))
    && (b[1] & 0xc0 != 0 && b[0] & 0x40 == 0 ==>
          (h.sourcePan == 0xffff <==> b[SourceAt(b[1])] == 0xff && b[SourceAt(b[1]) + 1] == 0xff))
    && (ShortSource(b[1]) ==>
          (ShortOf(h.source) >= 0xfffe <==> Special(b[SourceAddressAt(b[0], b[1])], b[SourceAddressAt(b[0], b[1]) + 1])))
    && (b[0] & 0x40 != 0 ==> h.sourcePan == h.destinationPan)
  }

  lemma ReadSeen(b: seq<byte>)
    requires 3 <= |b| <= 125 && CommandControl(b[0], b[1]) && PayloadAt(b[0], b[1]) <= |b|
    ensures HeaderSize(ControlHeader(b[0], b[1], b[2])) <= |b| && Seen(Read(b), b)
  {
    ReadFields(b);
    if b[1] & 0x0c != 0 {
      SpecialWords(b[3], b[4]);
    }
    if ShortDestination(b[1]) {
      SpecialWords(b[5], b[6]);
    }
    if b[1] & 0xc0 != 0 && b[0] & 0x40 == 0 {
      SpecialWords(b[SourceAt(b[1])], b[SourceAt(b[1]) + 1]);
    }
    if ShortSource(b[1]) {
      SpecialWords(b[SourceAddressAt(b[0], b[1])], b[SourceAddressAt(b[0], b[1]) + 1]);
    }
    hide ReadLe16, ShortOf, Read, HeaderSize, ControlHeader;
  }

  /** Header and payload policy together, in octets. */
  lemma CommandJudged(h: Header, b: seq<byte>, profile: nat)
    requires 3 <= |b| <= 125 && CommandControl(b[0], b[1]) && PayloadAt(b[0], b[1]) <= |b| && profile <= 1 && Seen(h, b)
    ensures AddressPolicy(h) == Ok && CommandHeaderPolicy(h, b[PayloadAt(b[0], b[1])..], 2 * profile) == Ok <==> Command(b, profile)
  {
    var q := b[PayloadAt(b[0], b[1])..];
    PayloadsExactly(q);
    hide CommandDecode, ShortOf;
  }

  /** The commands either profile admits, octet for octet, and no others. */
  lemma CommandsExactly(b: seq<byte>, profile: nat)
    requires profile <= 1
    ensures |b| >= 3 && Decode(b, profile).Done? && b[0] & 7 == 3 <==> Command(b, profile)
  {
    if 3 <= |b| <= 125 && b[1] & 3 == 0 {
      CommandDecoded(b, profile);
      if CommandControl(b[0], b[1]) && PayloadAt(b[0], b[1]) <= |b| {
        ReadSeen(b);
        CommandJudged(Read(b), b, profile);
      }
    }
    hide Decode, Read, AddressPolicy, CommandHeaderPolicy, HeaderSize, ControlHeader;
  }

  // ---------- data, acknowledgements, beacons ----------

  /** A data frame between two addresses, of either version; nobody sends from broadcast, and broadcasts ask for no acknowledgement. */
  predicate DataFrame(b: seq<byte>) {
    && 3 <= |b| <= 125 && b[0] & 0x8f == 1 && b[1] & 0x23 == 0 && Both(b[1] & 0xcc) && PayloadAt(b[0], b[1] & 0xcc) <= |b|
    && (var q := SourceAddressAt(b[0], b[1] & 0xcc); !(ShortSource(b[1]) && b[q] == 0xff && b[q + 1] == 0xff))
    && !(Acknowledged(b[0]) && ShortDestination(b[1]) && b[5] == 0xff && b[6] == 0xff)
  }

  /** Three octets and nothing else. */
  predicate Acknowledgement(b: seq<byte>) {
    |b| == 3 && (b[0] == 0x02 || b[0] == 0x12) && b[1] == 0
  }

  /** A beacon from an address in a PAN. */
  predicate BeaconFrame(b: seq<byte>) {
    && 3 <= |b| <= 125 && (b[0] == 0x00 || b[0] == 0x10) && (b[1] == 0x80 || b[1] == 0xc0) && PayloadAt(b[0], b[1]) <= |b|
    && !(b[3] == 0xff && b[4] == 0xff) && !(ShortSource(b[1]) && Special(b[5], b[6]))
    && BeaconPayload(b[PayloadAt(b[0], b[1])..])
  }

  /** Superframe, no guaranteed slots, the pending addresses its octet counts, and at most 52 octets of beacon payload. */
  predicate BeaconPayload(q: seq<byte>) {
    && |q| >= 4 && q[1] & 0x20 == 0 && q[2] & 0x7f == 0 && q[3] & 0x88 == 0
    && var s, e := (q[3] & 7) as nat, (q[3] >> 4) as nat;
       && s + e <= 7 && 4 + 2 * s + 8 * e <= |q| <= 4 + 2 * s + 8 * e + 52
       && NoBroadcast(q, s)
  }

  /** None of the first pending short addresses is broadcast. */
  predicate NoBroadcast(q: seq<byte>, shorts: nat) {
    4 + 2 * shorts <= |q| && forall i :: 0 <= i < shorts ==> !(q[4 + 2 * i] == 0xff && q[5 + 2 * i] == 0xff)
  }

  lemma PendingExactly(q: seq<byte>, shorts: nat)
    ensures ShortPendingValid(q, shorts) <==> NoBroadcast(q, shorts)
  {
    if 4 + 2 * shorts <= |q| {
      forall i | 0 <= i < shorts
        ensures ReadLe16(q[4 + 2 * i], q[5 + 2 * i]) == 0xffff <==> q[4 + 2 * i] == 0xff && q[5 + 2 * i] == 0xff
      {
        SpecialWords(q[4 + 2 * i], q[5 + 2 * i]);
      }
    }
    hide ReadLe16;
  }

  lemma ThreeBitsValue(b: byte)
    ensures ThreeBits(b) == (b & 7) as nat
  {
    assert b & 7 == (if b & 1 != 0 then 1 else 0) + (if b & 2 != 0 then 2 else 0) + (if b & 4 != 0 then 4 else 0);
  }

  lemma BeaconsExactly(q: seq<byte>)
    ensures BeaconDecode(q).Done? <==> BeaconPayload(q)
    ensures BeaconDecode(q).Done? ==>
              var i := BeaconDecode(q).value; var s, e := (q[3] & 7) as nat, (q[3] >> 4) as nat;
              && i.superframe == 256 * (q[1] as bv16) + q[0] as bv16 && i.gtsPermit == (if q[2] == 0x80 then 1 else 0)
              && i.shortCount == s && i.extendedCount == e && i.shortOffset == 4 && i.extendedOffset == 4 + 2 * s
              && i.payloadOffset == 4 + 2 * s + 8 * e && i.payloadLength == |q| - i.payloadOffset
  {
    if |q| >= 4 {
      ThreeBitsValue(q[3]);
      ThreeBitsValue(q[3] >> 4);
      BeaconBits(q[2], q[3]);
      Le16Value(q[0], q[1]);
      PendingExactly(q, ThreeBits(q[3]));
    }
    hide ThreeBits, ReadLe16, ShortPendingValid, NoBroadcast;
  }

  /** The code of every beacon payload that is refused. */
  lemma BeaconRefusals(q: seq<byte>)
    ensures BeaconDecode(q).Rejected? ==>
              BeaconDecode(q).code ==
                if |q| > 112 then TooLong
                else if |q| < 4 then Truncated
                else if q[1] & 0x20 == 0 && q[2] & 0x78 == 0 && q[2] & 7 != 0 then UnsupportedBeacon
                else if q[1] & 0x20 != 0 || q[2] & 0x78 != 0 || q[3] & 0x88 != 0 then InvalidBeacon
                else
                  var s, e := (q[3] & 7) as nat, (q[3] >> 4) as nat;
                  if s + e > 7 then InvalidBeacon
                  else if |q| < 4 + 2 * s + 8 * e then Truncated
                  else if |q| > 56 + 2 * s + 8 * e then TooLong
                  else InvalidBeacon
  {
    if |q| >= 4 {
      ThreeBitsValue(q[3]);
      ThreeBitsValue(q[3] >> 4);
      BeaconBits(q[2], q[3]);
    }
    hide ThreeBits, ReadLe16, ShortPendingValid;
  }

  lemma BeaconBits(c: byte, d: byte)
    ensures c & 0x78 == 0 && c & 7 == 0 <==> c & 0x7f == 0
    ensures c & 0x7f == 0 ==> c >> 7 == (if c == 0x80 then 1 else 0)
    ensures d & 0x88 == 0 ==> (d >> 4) & 7 == d >> 4
  {
  }

  lemma OtherShapes(b0: byte, b1: byte, b2: byte)
    requires b1 & 3 == 0
    ensures var c := ControlHeader(b0, b1, b2);
            && (c.kind == DATA && HeaderShape(c).Done? <==> b0 & 0x8f == 1 && b1 & 0x23 == 0 && Both(b1 & 0xcc))
            && (c.kind == ACK && HeaderShape(c).Done? <==> (b0 == 0x02 || b0 == 0x12) && b1 == 0)
            && (c.kind == BEACON && HeaderShape(c).Done? <==> (b0 == 0x00 || b0 == 0x10) && (b1 == 0x80 || b1 == 0xc0))
  {
  }

  lemma OtherSizes(b0: byte, b1: byte, b2: byte)
    requires b1 & 3 == 0
    ensures var c := ControlHeader(b0, b1, b2);
            && (Both(b1 & 0xcc) ==> HeaderSize(c) == PayloadAt(b0, b1 & 0xcc) && SourceOffset(c) == SourceAt(b1 & 0xcc))
            && (b0 & 0x40 == 0 && (b1 == 0x80 || b1 == 0xc0) ==> HeaderSize(c) == PayloadAt(b0, b1) && SourceOffset(c) == 3)
            && (b1 == 0 ==> HeaderSize(c) == 3)
            && c.flags == b0 & 0xf8 && (c.destinationMode == SHORT <==> ShortDestination(b1)) && (c.sourceMode == SHORT <==> ShortSource(b1))
            && (c.destinationMode == NONE <==> b1 & 0x0c == 0) && (c.sourceMode == NONE <==> b1 & 0xc0 == 0)
            && (Compressed(c) <==> b0 & 0x40 != 0) && (Acknowledged(b0) <==> c.flags & FLAG_ACK_REQUEST != 0)
  {
  }

  /** A data frame's header as far as the policy looks at it, in octets. */
  predicate DataSeen(h: Header, b: seq<byte>)
    requires 3 <= |b| <= 125 && Both(b[1] & 0xcc) && PayloadAt(b[0], b[1] & 0xcc) <= |b|
  {
    var q := SourceAddressAt(b[0], b[1] & 0xcc);
    && h.kind == DATA && (h.flags & FLAG_ACK_REQUEST != 0 <==> Acknowledged(b[0]))
    && (Compressed(h) ==> h.sourcePan == h.destinationPan)
    && (h.destinationMode == SHORT <==> ShortDestination(b[1])) && (h.sourceMode == SHORT <==> ShortSource(b[1]))
    && (ShortDestination(b[1]) ==> (ShortOf(h.destination) == 0xffff <==> b[6] == 0xff && b[5] == 0xff))
    && (ShortSource(b[1]) ==> (ShortOf(h.source) == 0xffff <==> b[q + 1] == 0xff && b[q] == 0xff))
  }

  lemma DataRead(b: seq<byte>)
    requires 3 <= |b| <= 125 && b[0] & 0x8f == 1 && b[1] & 0x23 == 0 && Both(b[1] & 0xcc) && PayloadAt(b[0], b[1] & 0xcc) <= |b|
    ensures HeaderSize(ControlHeader(b[0], b[1], b[2])) <= |b| && DataSeen(Read(b), b)
  {
    var c := ControlHeader(b[0], b[1], b[2]);
    OtherShapes(b[0], b[1], b[2]);
    OtherSizes(b[0], b[1], b[2]);
    SizeByMode(c);
    if ShortDestination(b[1]) {
      SpecialWords(b[5], b[6]);
    }
    if ShortSource(b[1]) {
      var q := SourceAddressAt(b[0], b[1] & 0xcc);
      SpecialWords(b[q], b[q + 1]);
    }
    BothFields(c, b);
    SourceAddressPlace(b[0], b[1] & 0xcc, c);
    hide HeaderShape, ReadLe16, ControlHeader, WithDestination, WithSource, Widen, ShortOf, AddressSize, PayloadAt, Special, SourceOffset,
         HeaderSize, SourceAt, SourceAddressAt, Both;
  }

  lemma SourceAddressPlace(b0: byte, modes: byte, c: Header)
    requires SourceOffset(c) == SourceAt(modes) && (Compressed(c) <==> b0 & 0x40 != 0)
    ensures SourceAddressAt(b0, modes) == SourceOffset(c) + if Compressed(c) then 0 else 2
  {
  }

  /** Both addresses of a header, read after one another. */
  lemma BothFields(c: Header, b: seq<byte>)
    requires HeaderSize(c) <= |b| && AddressSize(c.sourceMode) > 0
    ensures var h := WithSource(WithDestination(c, b), b); var p := SourceOffset(c); var q := p + if Compressed(c) then 0 else 2;
            && h == c.(destinationPan := h.destinationPan, destination := h.destination, sourcePan := h.sourcePan, source := h.source)
            && (AddressSize(c.destinationMode) == 2 ==> ShortOf(h.destination) == ReadLe16(b[5], b[6]))
            && (AddressSize(c.sourceMode) == 2 ==> ShortOf(h.source) == ReadLe16(b[q], b[q + 1]))
            && (Compressed(c) ==> h.sourcePan == h.destinationPan)
  {
    DestinationFields(c, b);
    var r := WithDestination(c, b);
    assert SourceOffset(r) == SourceOffset(c) && HeaderSize(r) == HeaderSize(c);
    SourceFields(r, b);
    hide ReadLe16, WithDestination, WithSource, ShortOf, AddressSize;
  }

  lemma SizeByMode(c: Header)
    ensures (AddressSize(c.destinationMode) == 2 <==> c.destinationMode == SHORT) && (AddressSize(c.sourceMode) == 2 <==> c.sourceMode == SHORT)
    ensures AddressSize(c.sourceMode) > 0 <==> c.sourceMode != NONE
  {
  }

  lemma DataJudged(b: seq<byte>)
    requires 3 <= |b| <= 125 && b[0] & 0x8f == 1 && b[1] & 0x23 == 0 && Both(b[1] & 0xcc) && PayloadAt(b[0], b[1] & 0xcc) <= |b|
    ensures HeaderSize(ControlHeader(b[0], b[1], b[2])) <= |b|
    ensures Read(b).kind == DATA && (AddressPolicy(Read(b)) == Ok <==> DataFrame(b))
  {
    DataRead(b);
    hide Read, ShortOf, PayloadAt, HeaderSize, ControlHeader;
  }

  lemma BeaconJudged(b: seq<byte>)
    requires 3 <= |b| <= 125 && (b[0] == 0x00 || b[0] == 0x10) && (b[1] == 0x80 || b[1] == 0xc0) && PayloadAt(b[0], b[1]) <= |b|
    ensures HeaderSize(ControlHeader(b[0], b[1], b[2])) <= |b|
    ensures Read(b).kind == BEACON
    ensures AddressPolicy(Read(b)) == Ok <==> !(b[3] == 0xff && b[4] == 0xff) && !(ShortSource(b[1]) && Special(b[5], b[6]))
  {
    var c := ControlHeader(b[0], b[1], b[2]);
    OtherShapes(b[0], b[1], b[2]);
    OtherSizes(b[0], b[1], b[2]);
    DestinationFields(c, b);
    SourceFields(WithDestination(c, b), b);
    SpecialWords(b[3], b[4]);
    if ShortSource(b[1]) {
      SpecialWords(b[5], b[6]);
    }
    hide HeaderShape, ReadLe16, ControlHeader, WithDestination, WithSource, Widen, ShortOf;
  }

  /** Everything else either profile admits, octet for octet. */
  lemma FramesExactly(b: seq<byte>, profile: nat)
    requires profile <= 1
    ensures |b| >= 3 && Decode(b, profile).Done? && b[0] & 7 == 1 <==> DataFrame(b)
    ensures |b| >= 3 && Decode(b, profile).Done? && b[0] & 7 == 2 <==> Acknowledgement(b)
    ensures |b| >= 3 && Decode(b, profile).Done? && b[0] & 7 == 0 <==> BeaconFrame(b)
    ensures |b| >= 3 && Decode(b, profile).Done? ==> b[0] & 7 <= 3
  {
    if 3 <= |b| <= 125 && b[1] & 3 == 0 {
      var c := ControlHeader(b[0], b[1], b[2]);
      OtherShapes(b[0], b[1], b[2]);
      OtherSizes(b[0], b[1], b[2]);
      FramesJudged(b);
      if HeaderSize(c) <= |b| {
        DecodedShape(b, c);
        BeaconsExactly(b[HeaderSize(c)..]);
      }
      KindOf(b[0], b[1], b[2]);
    }
    hide HeaderShape, AddressPolicy, CommandHeaderPolicy, WithSource, WithDestination, BeaconDecode, BeaconPayload, HeaderSize, ControlHeader;
  }

  lemma FramesJudged(b: seq<byte>)
    requires 3 <= |b| <= 125 && b[1] & 3 == 0
    ensures var c := ControlHeader(b[0], b[1], b[2]);
            HeaderShape(c).Done? && HeaderSize(c) <= |b| ==>
              && (c.kind == DATA ==> (AddressPolicy(Read(b)) == Ok <==> DataFrame(b)))
              && (c.kind == BEACON ==> (AddressPolicy(Read(b)) == Ok && BeaconPayload(b[HeaderSize(c)..]) <==> BeaconFrame(b)))
  {
    var c := ControlHeader(b[0], b[1], b[2]);
    OtherShapes(b[0], b[1], b[2]);
    OtherSizes(b[0], b[1], b[2]);
    if HeaderShape(c).Done? && HeaderSize(c) <= |b| {
      if c.kind == DATA {
        DataJudged(b);
      } else if c.kind == BEACON {
        BeaconJudged(b);
      }
    }
    hide HeaderShape, AddressPolicy, Read, BeaconPayload, HeaderSize, ControlHeader;
  }

  lemma KindOf(b0: byte, b1: byte, b2: byte)
    ensures ControlHeader(b0, b1, b2).kind == b0 & 7 && (HeaderShape(ControlHeader(b0, b1, b2)).Done? ==> b0 & 7 <= 3)
  {
    hide Widen;
  }

  /** Either profile's admitted bodies. */
  predicate Admits(b: seq<byte>, profile: nat) {
    DataFrame(b) || Acknowledgement(b) || BeaconFrame(b) || Command(b, profile)
  }

  lemma DecodesExactly(b: seq<byte>, profile: nat)
    requires profile <= 1
    ensures Decode(b, profile).Done? <==> Admits(b, profile)
  {
    CommandsExactly(b, profile);
    FramesExactly(b, profile);
    if |b| >= 3 {
      LowBits(b[0]);
    }
    hide DataFrame, Acknowledgement, BeaconFrame, Command;
    if |b| < 3 {
      TooShort(b, profile);
    }
  }

  lemma LowBits(c: byte)
    ensures c & 7 <= 3 ==> c & 7 == 0 || c & 7 == 1 || c & 7 == 2 || c & 7 == 3
  {
  }

  lemma TooShort(b: seq<byte>, profile: nat)
    requires |b| < 3
    ensures !Decode(b, profile).Done? && !Admits(b, profile)
  {
  }

  /** The fields of an admitted frame, by position. */
  lemma HeaderInOctets(b: seq<byte>, profile: nat)
    requires profile <= 1 && Decode(b, profile).Done?
    ensures var i := Decode(b, profile).value; var h, p := i.header, SourceAt(b[1]);
            && |b| >= 3 && h.kind == b[0] & 7 && h.flags == b[0] & 0xf8 && h.sequence == b[2]
            && h.version == (b[1] >> 4) & 3 && h.destinationMode == (b[1] >> 2) & 3 && h.sourceMode == b[1] >> 6
            && i.payloadOffset <= |b| && i.payloadLength == |b| - i.payloadOffset
  {
    var c := ControlHeader(b[0], b[1], b[2]);
    TopBits(b[1]);
    ReadKeeps(c, b);
    hide HeaderShape, AddressPolicy, PayloadPolicy, WithSource, WithDestination;
  }

  lemma TopBits(c: byte)
    ensures (c >> 6) & 3 == c >> 6
  {
  }

  /** Addresses where they belong: the destination's PAN and address first, then the source's, whose PAN is the destination's when compressed. */
  predicate Placed(h: Header, b: seq<byte>) {
    PlacedDestination(h, b) && PlacedSource(h, b)
  }

  predicate PlacedDestination(h: Header, b: seq<byte>) {
    var d := AddressSize(h.destinationMode);
    if d == 0 then h.destinationPan == 0 && h.destination == NO_ADDRESS
    else |b| >= 5 + d && h.destinationPan == 256 * (b[4] as bv16) + b[3] as bv16 && h.destination[..d] == b[5..5 + d]
  }

  predicate PlacedSource(h: Header, b: seq<byte>) {
    SourceLies(b, AddressSize(h.sourceMode), SourceOffset(h), h.flags & 0x40 != 0, h.destinationPan, h.sourcePan, h.source)
    && SourceOffset(h) == if AddressSize(h.destinationMode) > 0 then 5 + AddressSize(h.destinationMode) else 3
  }

  /** A source of s octets whose field starts at p. */
  predicate SourceLies(b: seq<byte>, s: nat, p: nat, compressed: bool, destinationPan: bv16, pan: bv16, source: Address)
    requires s <= 8
  {
    var q := if compressed then p else p + 2;
    if s == 0 then pan == 0 && source == NO_ADDRESS
    else |b| >= q + s && source[..s] == b[q..q + s]
         && pan == if compressed then destinationPan else 256 * (b[p + 1] as bv16) + b[p] as bv16
  }

  lemma AddressesInOctets(b: seq<byte>, profile: nat)
    requires profile <= 1 && Decode(b, profile).Done?
    ensures Placed(Decode(b, profile).value.header, b)
  {
    var c := ControlHeader(b[0], b[1], b[2]);
    ReadsPlaced(c, b);
    hide HeaderShape, AddressPolicy, PayloadPolicy, WithSource, WithDestination, Placed;
  }

  lemma ReadsPlaced(c: Header, b: seq<byte>)
    requires HeaderSize(c) <= |b| && c.destinationPan == 0 && c.sourcePan == 0 && c.destination == NO_ADDRESS && c.source == NO_ADDRESS
    ensures Placed(WithSource(WithDestination(c, b), b), b)
  {
    var r := WithDestination(c, b);
    DestinationPlaced(c, b);
    hide WithDestination, ReadLe16, Widen, PlacedDestination;
    assert HeaderSize(r) == HeaderSize(c);
    SourcePlaced(r, b);
    DestinationStays(r, WithSource(r, b), b);
    hide WithSource, AddressSize, PlacedSource;
  }

  lemma DestinationStays(r: Header, h: Header, b: seq<byte>)
    requires h == r.(sourcePan := h.sourcePan, source := h.source)
    ensures PlacedDestination(h, b) == PlacedDestination(r, b)
  {
  }

  lemma DestinationPlaced(c: Header, b: seq<byte>)
    requires HeaderSize(c) <= |b| && c.destinationPan == 0 && c.destination == NO_ADDRESS
    ensures var r := WithDestination(c, b);
            r == c.(destinationPan := r.destinationPan, destination := r.destination) && PlacedDestination(r, b)
  {
    DestinationOctetsRead(c, b);
    hide WithDestination;
  }

  lemma SourcePlaced(r: Header, b: seq<byte>)
    requires HeaderSize(r) <= |b| && r.sourcePan == 0 && r.source == NO_ADDRESS
    ensures var h := WithSource(r, b);
            h == r.(sourcePan := h.sourcePan, source := h.source) && PlacedSource(h, b)
  {
    SourceOctetsRead(r, b);
    hide WithSource, AddressSize, SourceLies;
  }

  const NO_ADDRESS: Address := [0, 0, 0, 0, 0, 0, 0, 0]

  lemma DestinationOctetsRead(c: Header, b: seq<byte>)
    requires HeaderSize(c) <= |b| && c.destinationPan == 0 && c.destination == NO_ADDRESS
    ensures var d := AddressSize(c.destinationMode); var r := WithDestination(c, b);
            if d == 0 then r == c
            else r == c.(destinationPan := 256 * (b[4] as bv16) + b[3] as bv16, destination := r.destination) && r.destination[..d] == b[5..5 + d]
  {
    if AddressSize(c.destinationMode) > 0 {
      Le16Value(b[3], b[4]);
    }
    hide ReadLe16;
  }

  lemma SourceOctetsRead(r: Header, b: seq<byte>)
    requires HeaderSize(r) <= |b| && r.sourcePan == 0 && r.source == NO_ADDRESS
    ensures var h := WithSource(r, b);
            && h == r.(sourcePan := h.sourcePan, source := h.source)
            && SourceLies(b, AddressSize(r.sourceMode), SourceOffset(r), r.flags & 0x40 != 0, r.destinationPan, h.sourcePan, h.source)
  {
    var s, p := AddressSize(r.sourceMode), SourceOffset(r);
    hide AddressSize, SourceOffset;
    if s > 0 {
      if Compressed(r) {
        SourceShared(r, b);
      } else {
        SourceOwn(r, b);
      }
      hide WithSource, SourceLies;
    }
  }

  lemma SourceShared(r: Header, b: seq<byte>)
    requires HeaderSize(r) <= |b| && AddressSize(r.sourceMode) > 0 && Compressed(r)
    ensures var h := WithSource(r, b);
            && h == r.(sourcePan := h.sourcePan, source := h.source)
            && SourceLies(b, AddressSize(r.sourceMode), SourceOffset(r), true, r.destinationPan, h.sourcePan, h.source)
  {
    WidenPrefix(b[SourceOffset(r)..SourceOffset(r) + AddressSize(r.sourceMode)]);
    hide Widen, AddressSize, SourceOffset;
  }

  lemma SourceOwn(r: Header, b: seq<byte>)
    requires HeaderSize(r) <= |b| && AddressSize(r.sourceMode) > 0 && !Compressed(r)
    ensures var h := WithSource(r, b);
            && h == r.(sourcePan := h.sourcePan, source := h.source)
            && SourceLies(b, AddressSize(r.sourceMode), SourceOffset(r), false, r.destinationPan, h.sourcePan, h.source)
  {
    var p := SourceOffset(r);
    WidenPrefix(b[p + 2..p + 2 + AddressSize(r.sourceMode)]);
    Le16Value(b[p], b[p + 1]);
    hide ReadLe16, Widen, AddressSize, SourceOffset;
  }

  // ---------- what may be sent ----------

  /** Header fields that fit their bits; a compressed source is in the destination's PAN. */
  predicate Fits(h: Header) {
    && h.kind <= 7 && h.version <= 3 && h.flags & 7 == 0 && h.destinationMode <= 3 && h.sourceMode <= 3
    && (h.flags & 0x40 != 0 && h.kind != ACK ==> h.sourcePan == h.destinationPan)
  }

  /** The encoder sends exactly the admitted bodies, commands only with Pending clear. */
  lemma EncodesExactly(h: Header, payload: seq<byte>)
    requires Fits(h)
    ensures EncodeStatus(h, payload, MAX_BODY) == Ok <==>
              Admits(HeaderOctets(h) + payload, 0) && !(h.kind == 3 && h.flags & 0x10 != 0)
  {
    var b := HeaderOctets(h) + payload;
    DecodesExactly(b, 0);
    if EncodeStatus(h, payload, MAX_BODY) == Ok {
      DecodeUndoesEncode(h, payload);
      TransmitPolicy(h, payload);
    } else if Decode(b, 0).Done? {
      SentAsRead(h, payload);
      TransmitPolicy(h, payload);
    }
    hide Admits, HeaderShape, AddressPolicy, PayloadPolicy, HeaderOctets, Decode;
  }

  /** What the encoder looks at first: the version, the security flag, the flags there are, the type, the address modes. */
  lemma HeaderRefusals(h: Header, payload: seq<byte>, capacity: nat)
    ensures var plain := h.kind == 0 || h.kind == 2 || h.kind == 3; var c := EncodeStatus(h, payload, capacity);
            if h.version > 1 || (plain && h.version != 0) then c == UnsupportedVersion
            else if h.flags & 0x08 != 0 then c == UnsupportedSecurity
            else if h.flags & 0x87 != 0 then c == InvalidHeader
            else if h.kind > 3 then c == UnsupportedType
            else if h.kind != 2 && (h.destinationMode > 3 || h.destinationMode == 1 || h.sourceMode > 3 || h.sourceMode == 1)
                 then c == UnsupportedAddressing
            else c != UnsupportedVersion && c != UnsupportedSecurity && c != UnsupportedType
  {
    hide AddressPolicy, PayloadPolicy;
    PolicyCodes(h, payload);
  }

  lemma PolicyCodes(h: Header, payload: seq<byte>)
    ensures var a, c := AddressPolicy(h), PayloadPolicy(h, payload, 1);
            && (a == Ok || a == InvalidHeader)
            && c != UnsupportedVersion && c != UnsupportedSecurity && c != UnsupportedType
  {
    CommandRefusals(payload);
    BeaconRefusals(payload);
    hide CommandDecode, BeaconDecode, ShortOf;
  }

  lemma FitsOctets(h: Header)
    requires Fits(h)
    ensures var o := ControlOctets(h);
            o[1] & 3 == 0 && ControlHeader(o[0], o[1], o[2]) == Blank(h)
  {
    FirstBits(h.kind, h.flags);
    SecondBits(h.destinationMode, h.version, h.sourceMode);
  }

  lemma FirstBits(kind: byte, flags: byte)
    requires kind <= 7 && flags & 7 == 0
    ensures (kind | flags) & 7 == kind && (kind | flags) & 0xf8 == flags
  {
  }

  lemma SecondBits(d: byte, v: byte, s: byte)
    requires d <= 3 && v <= 3 && s <= 3
    ensures var c := (d << 2) | (v << 4) | (s << 6);
            c & 3 == 0 && (c >> 2) & 3 == d && (c >> 4) & 3 == v && (c >> 6) & 3 == s
  {
  }

  /** What decodes was fit to be sent, but for Pending. */
  lemma SentAsRead(h: Header, payload: seq<byte>)
    requires Fits(h) && Decode(HeaderOctets(h) + payload, 0).Done?
    ensures HeaderShape(h).Done? && AddressPolicy(h) == Ok && (h.kind == ACK ==> payload == [])
    ensures HeaderSize(h) + |payload| <= MAX_BODY && PayloadPolicy(h, payload, 0) == Ok
  {
    var b := HeaderOctets(h) + payload;
    FitsOctets(h);
    ShapeOfBlank(h);
    assert b[0] == ControlOctets(h)[0] && b[1] == ControlOctets(h)[1] && b[2] == ControlOctets(h)[2];
    DestinationRead(h, payload);
    SourceRead(h, payload);
    assert b[HeaderSize(h)..] == payload;
    hide ControlHeader, ControlOctets, HeaderShape, WithDestination, WithSource, AddressPolicy, PayloadPolicy, Normalised;
    PolicyFromNormalised(h);
    if AddressPolicy(h) == Ok {
      PolicyOfNormalised(h, payload, 0);
    }
  }

  lemma PolicyFromNormalised(h: Header)
    requires HeaderShape(h).Done? && Fits(h) && AddressPolicy(Normalised(h)) == Ok
    ensures AddressPolicy(h) == Ok
  {
    WidenTwice(h.destination, AddressSize(h.destinationMode));
    WidenTwice(h.source, AddressSize(h.sourceMode));
    hide ShortOf, Widen;
  }
}
