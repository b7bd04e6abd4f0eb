/** What the two directions of the MAC codec promise each other, and how the receive profiles differ. */
module MacFrameLaws {
  import opened Bytes
  import opened MacFrame

  /** A header as the receiver sees it: fields that are not on the wire cleared, a compressed source PAN filled in. */
  function Normalised(h: Header): Header {
    var d, s := AddressSize(h.destinationMode), AddressSize(h.sourceMode);
    h.(destinationPan := if d > 0 then h.destinationPan else 0,
       destination := Widen(h.destination[..d]),
       sourcePan := if s == 0 then 0 else if Compressed(h) then (if d > 0 then h.destinationPan else 0) else h.sourcePan,
       source := Widen(h.source[..s]))
  }

  function Blank(h: Header): Header {
    h.(destinationPan := 0, sourcePan := 0, destination := Widen([]), source := Widen([]))
  }

  // ---------- control octets ----------

  lemma ControlRoundTrip(h: Header)
    requires HeaderShape(h).Done?
    ensures var c := ControlOctets(h);
            c[1] & 3 == 0 && ControlHeader(c[0], c[1], c[2]) == Blank(h)
  {
    var c := ControlOctets(h);
    FirstOctet(h.kind, h.flags);
    SecondOctet(h.destinationMode, h.version, h.sourceMode);
  }

  lemma FirstOctet(kind: byte, flags: byte)
    requires kind <= 3 && flags & 0x8f == 0
    ensures (kind | flags) & 7 == kind && (kind | flags) & 0xf8 == flags
  {
  }

  lemma SecondOctet(d: byte, v: byte, s: byte)
    requires d <= 3 && v <= 1 && s <= 3
    ensures var c := (d << 2) | (v << 4) | (s << 6);
            c & 3 == 0 && (c >> 2) & 3 == d && (c >> 4) & 3 == v && (c >> 6) & 3 == s
  {
  }

  lemma ControlRestored(b0: byte, b1: byte, b2: byte)
    requires b1 & 3 == 0
    ensures ControlOctets(ControlHeader(b0, b1, b2)) == [b0, b1, b2]
  {
    hide Widen;
    FirstOctetBits(b0);
    SecondOctetBits(b1);
  }

  lemma FirstOctetBits(b: byte)
    ensures (b & 7) | (b & 0xf8) == b
  {
  }

  lemma SecondOctetBits(b: byte)
    requires b & 3 == 0
    ensures (((b >> 2) & 3) << 2) | (((b >> 4) & 3) << 4) | (((b >> 6) & 3) << 6) == b
  {
  }

  /** The shape depends on the control fields alone. */
  lemma ShapeOfBlank(h: Header)
    ensures HeaderShape(Blank(h)) == HeaderShape(h) && HeaderSize(Blank(h)) == HeaderSize(h)
  {
  }

  // ---------- printing, then parsing ----------

  lemma WidenTwice(a: Address, n: nat)
    requires n == 0 || n == 2 || n == 8
    ensures Widen(a[..n])[..n] == a[..n] && (n >= 2 ==> ShortOf(Widen(a[..n])) == ShortOf(a))
  {
  }

  lemma DestinationRead(h: Header, payload: seq<byte>)
    requires HeaderShape(h).Done?
    ensures var body := HeaderOctets(h) + payload;
            var r := WithDestination(Blank(h), body);
            r == Blank(h).(destinationPan := Normalised(h).destinationPan, destination := Normalised(h).destination)
  {
    hide ControlOctets, HeaderShape, Low, High, ReadLe16;
    var body := HeaderOctets(h) + payload;
    var d := AddressSize(h.destinationMode);
    if d > 0 {
      var field := DestinationOctets(h);
      assert body[3..5 + d] == field;
      assert body[3] == field[0] && body[4] == field[1] && body[5..5 + d] == field[2..];
      Le16RoundTrip(h.destinationPan);
    }
  }

  lemma SourceRead(h: Header, payload: seq<byte>)
    requires HeaderShape(h).Done?
    ensures var body := HeaderOctets(h) + payload;
            var r := Blank(h).(destinationPan := Normalised(h).destinationPan, destination := Normalised(h).destination);
            WithSource(r, body) == Normalised(h)
  {
    hide ControlOctets, HeaderShape, Low, High, ReadLe16, DestinationOctets, Widen, AddressSize;
    SourceField(h, payload);
    Le16RoundTrip(h.sourcePan);
  }

  lemma SourceField(h: Header, payload: seq<byte>)
    ensures var body := HeaderOctets(h) + payload;
            var s, p := AddressSize(h.sourceMode), SourceOffset(h);
            s > 0 ==>
              if Compressed(h) then body[p..p + s] == h.source[..s]
              else body[p] == Low(h.sourcePan) && body[p + 1] == High(h.sourcePan) && body[p + 2..p + 2 + s] == h.source[..s]
  {
    hide ControlOctets, Low, High, DestinationOctets, AddressSize;
    var body := HeaderOctets(h) + payload;
    var s, p := AddressSize(h.sourceMode), SourceOffset(h);
    var field := SourceOctets(h);
    assert body[p..p + |field|] == field;
    if s > 0 && !Compressed(h) {
      assert body[p] == field[0] && body[p + 1] == field[1] && body[p + 2..p + 2 + s] == field[2..];
    }
  }

  /** Every policy reads only what the wire carries. */
  lemma PolicyOfNormalised(h: Header, payload: seq<byte>, mode: nat)
    requires HeaderShape(h).Done? && AddressPolicy(h) == Ok
    ensures AddressPolicy(Normalised(h)) == Ok
    ensures PayloadPolicy(Normalised(h), payload, mode) == PayloadPolicy(h, payload, mode)
  {
    hide CommandDecode, BeaconDecode, ShortOf, Widen;
    WidenTwice(h.destination, AddressSize(h.destinationMode));
    WidenTwice(h.source, AddressSize(h.sourceMode));
  }

  /** Transmission asks one thing more: a command must not have Pending set. */
  lemma TransmitPolicy(h: Header, payload: seq<byte>)
    ensures PayloadPolicy(h, payload, 1) == Ok <==>
              PayloadPolicy(h, payload, 0) == Ok && !(h.kind == COMMAND && h.flags & FLAG_PENDING != 0)
    ensures PayloadPolicy(h, payload, 0) == Ok && PayloadPolicy(h, payload, 1) != Ok ==>
              PayloadPolicy(h, payload, 1) == InvalidHeader
  {
    hide CommandDecode, BeaconDecode, ShortOf;
  }

  /** A well-shaped header that satisfies the receive policies is read back from its octets. */
  lemma DecodeOctets(h: Header, payload: seq<byte>, profile: nat)
    requires profile <= R22 && HeaderShape(h).Done? && AddressPolicy(h) == Ok && PayloadPolicy(h, payload, 2 * profile) == Ok
    requires HeaderSize(h) + |payload| <= MAX_BODY && (h.kind == ACK ==> payload == [])
    ensures var body := HeaderOctets(h) + payload;
            Decode(body, profile) == Done(Info(Normalised(h), HeaderSize(h), |payload|))
            && body[HeaderSize(h)..] == payload
  {
    var body := HeaderOctets(h) + payload;
    ControlRoundTrip(h);
    ShapeOfBlank(h);
    DestinationRead(h, payload);
    SourceRead(h, payload);
    PolicyOfNormalised(h, payload, 2 * profile);
    hide ControlHeader, ControlOctets, HeaderShape, WithDestination, WithSource, AddressPolicy, PayloadPolicy, Normalised;
    assert body[0] == ControlOctets(h)[0] && body[1] == ControlOctets(h)[1] && body[2] == ControlOctets(h)[2];
    assert body[HeaderSize(h)..] == payload;
  }

  /** Whatever the encoder accepts, the decoder accepts, with the same payload and the normalised header. */
  lemma DecodeUndoesEncode(h: Header, payload: seq<byte>)
    requires EncodeStatus(h, payload, MAX_BODY) == Ok
    ensures var body := HeaderOctets(h) + payload;
            Decode(body, IEEE2006) == Done(Info(Normalised(h), HeaderSize(h), |payload|))
            && body[HeaderSize(h)..] == payload
  {
    hide HeaderShape, AddressPolicy, PayloadPolicy, Normalised;
    TransmitPolicy(h, payload);
    DecodeOctets(h, payload, IEEE2006);
  }

  // ---------- parsing, then printing ----------

  lemma WidenPrefix(s: seq<byte>)
    requires |s| == 0 || |s| == 2 || |s| == 8
    ensures Widen(s)[..|s|] == s
  {
  }

  lemma SliceHead(body: seq<byte>, p: nat, n: nat)
    requires p + 2 + n <= |body|
    ensures body[p..p + 2 + n] == [body[p], body[p + 1]] + body[p + 2..p + 2 + n]
  {
  }

  lemma DestinationWritten(c: Header, body: seq<byte>)
    requires HeaderSize(c) <= |body|
    ensures DestinationOctets(WithDestination(c, body)) == body[3..SourceOffset(c)]
  {
    hide Low, High, ReadLe16, Widen, AddressSize;
    var d := AddressSize(c.destinationMode);
    if d > 0 {
      Le16Bytes(body[3], body[4]);
      WidenPrefix(body[5..5 + d]);
      SliceHead(body, 3, d);
    }
  }

  lemma SourceWritten(h: Header, body: seq<byte>)
    requires HeaderSize(h) <= |body|
    ensures SourceOctets(WithSource(h, body)) == body[SourceOffset(h)..HeaderSize(h)]
  {
    hide Low, High, ReadLe16, Widen, AddressSize;
    var s, p := AddressSize(h.sourceMode), SourceOffset(h);
    if s > 0 {
      if Compressed(h) {
        WidenPrefix(body[p..p + s]);
      } else {
        Le16Bytes(body[p], body[p + 1]);
        WidenPrefix(body[p + 2..p + 2 + s]);
        SliceHead(body, p, s);
      }
    }
  }

  /** Reading addresses leaves the control fields, and reading the source leaves the destination. */
  lemma ReadKeeps(c: Header, body: seq<byte>)
    requires HeaderSize(c) <= |body|
    ensures var r := WithDestination(c, body);
            var h := WithSource(r, body);
            && Blank(h) == Blank(r) == Blank(c) && DestinationOctets(h) == DestinationOctets(r)
            && SourceOffset(r) == SourceOffset(c) && HeaderSize(h) == HeaderSize(r) == HeaderSize(c)
  {
    hide ReadLe16, Widen, AddressSize, Low, High;
  }

  /** Header octets and payload of anything either profile accepts are the received body. */
  lemma DecodedOctets(body: seq<byte>, profile: nat)
    requires Decode(body, profile).Done?
    ensures var info := Decode(body, profile).value;
            info.payloadOffset == HeaderSize(info.header) && HeaderOctets(info.header) + body[info.payloadOffset..] == body
  {
    hide HeaderShape, AddressPolicy, PayloadPolicy;
    var c := ControlHeader(body[0], body[1], body[2]);
    ControlRestored(body[0], body[1], body[2]);
    OctetsRestored(c, body);
  }

  lemma OctetsRestored(c: Header, body: seq<byte>)
    requires HeaderSize(c) <= |body| && ControlOctets(c) == [body[0], body[1], body[2]]
    ensures var h := WithSource(WithDestination(c, body), body);
            HeaderSize(h) == HeaderSize(c) && HeaderOctets(h) + body[HeaderSize(c)..] == body
  {
    ReadKeeps(c, body);
    hide *;
    var r := WithDestination(c, body);
    var h := WithSource(r, body);
    DestinationWritten(c, body);
    SourceWritten(r, body);
    ControlOfBlank(h);
    ControlOfBlank(c);
    FourPieces(body, SourceOffset(c), HeaderSize(c));
    HeaderByParts(h);
  }

  lemma FourPieces(body: seq<byte>, p: nat, n: nat)
    requires 3 <= p <= n <= |body|
    ensures body == [body[0], body[1], body[2]] + body[3..p] + body[p..n] + body[n..]
  {
  }

  lemma ControlOfBlank(h: Header)
    ensures ControlOctets(Blank(h)) == ControlOctets(h)
  {
  }

  lemma HeaderByParts(h: Header)
    ensures HeaderOctets(h) == ControlOctets(h) + DestinationOctets(h) + SourceOctets(h)
  {
  }

  /** Decoding is injective. */
  lemma DecodeInjective(a: seq<byte>, b: seq<byte>, profile: nat)
    requires Decode(a, profile).Done? && Decode(b, profile).Done?
    requires Decode(a, profile).value == Decode(b, profile).value
    requires var o := Decode(a, profile).value.payloadOffset; a[o..] == b[o..]
    ensures a == b
  {
    DecodedOctets(a, profile);
    DecodedOctets(b, profile);
  }

  /**
   Every body the IEEE profile accepts re-encodes to itself, except a command received with Pending set,
   which the encoder refuses.
   */
  lemma EncodeUndoesDecode(body: seq<byte>)
    requires Decode(body, IEEE2006).Done?
    ensures var info := Decode(body, IEEE2006).value;
            var payload := body[info.payloadOffset..];
            && HeaderOctets(info.header) + payload == body
            && EncodeStatus(info.header, payload, MAX_BODY)
               == if info.header.kind == COMMAND && info.header.flags & FLAG_PENDING != 0 then InvalidHeader else Ok
  {
    var h := Decode(body, IEEE2006).value.header;
    DecodedOctets(body, IEEE2006);
    TransmitPolicy(h, body[HeaderSize(h)..]);
    var c := ControlHeader(body[0], body[1], body[2]);
    DecodedShape(body, c);
    hide HeaderShape, AddressPolicy, PayloadPolicy, ControlHeader, WithSource, WithDestination, HeaderOctets;
  }

  lemma DecodedShape(body: seq<byte>, c: Header)
    requires HeaderSize(c) <= |body|
    ensures var h := WithSource(WithDestination(c, body), body);
            HeaderShape(h) == HeaderShape(c) && h.kind == c.kind
  {
    ReadKeeps(c, body);
    hide HeaderShape, WithSource, WithDestination, AddressSize;
    var h := WithSource(WithDestination(c, body), body);
    ShapeOfBlank(h);
    ShapeOfBlank(c);
    assert h.kind == Blank(h).kind == Blank(c).kind;
  }

  // ---------- receive profiles ----------

  predicate UncompressedResponse(body: seq<byte>) {
    Decode(body, R22).Done?
    && var info := Decode(body, R22).value;
       info.header.kind == COMMAND && !Compressed(info.header)
       && body[info.payloadOffset..] != [] && body[info.payloadOffset] == ASSOCIATION_RESPONSE
  }

  /** R22 accepts more, and only uncompressed Association Responses more; everything else is decided alike. */
  lemma Profiles(body: seq<byte>)
    ensures Decode(body, IEEE2006).Done? ==> Decode(body, R22) == Decode(body, IEEE2006)
    ensures Decode(body, R22) != Decode(body, IEEE2006) <==> UncompressedResponse(body)
    ensures UncompressedResponse(body) ==> Decode(body, IEEE2006) == Rejected(InvalidHeader)
  {
    if 3 <= |body| <= MAX_BODY && body[1] & 3 == 0 {
      var c := ControlHeader(body[0], body[1], body[2]);
      if HeaderShape(c).Done? && HeaderSize(c) <= |body| {
        var h := WithSource(WithDestination(c, body), body);
        ProfilePolicies(h, body[HeaderSize(c)..]);
        DecodedShape(body, c);
        hide HeaderShape, AddressPolicy, PayloadPolicy, WithSource, WithDestination, ControlHeader;
      }
    }
  }

  lemma ProfilePolicies(h: Header, payload: seq<byte>)
    ensures PayloadPolicy(h, payload, 0) == Ok ==> PayloadPolicy(h, payload, 2) == Ok
    ensures PayloadPolicy(h, payload, 0) != PayloadPolicy(h, payload, 2) <==>
              PayloadPolicy(h, payload, 2) == Ok && h.kind == COMMAND && !Compressed(h)
              && payload != [] && payload[0] == ASSOCIATION_RESPONSE
    ensures PayloadPolicy(h, payload, 0) != PayloadPolicy(h, payload, 2) ==> PayloadPolicy(h, payload, 0) == InvalidHeader
  {
    hide CommandDecode, BeaconDecode, ShortOf;
  }
}
