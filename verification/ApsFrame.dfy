/** The bare APS data-frame codec: an 8-octet header followed by an opaque payload. */
module ApsFrame {
  import opened Bytes

  const MAX_BODY := 108
  const HEADER_SIZE := 8

  const FLAG_ACK_FORMAT: byte := 0x10
  const FLAG_SECURITY: byte := 0x20
  const FLAG_ACK_REQUEST: byte := 0x40
  const FLAG_EXTENDED_HEADER: byte := 0x80

  const DELIVERY_UNICAST: byte := 0
  const DELIVERY_BROADCAST: byte := 2
  const DELIVERY_GROUP: byte := 3

  datatype Code =
    | Ok | Truncated | TooLong | BufferTooSmall | UnsupportedType
    | UnsupportedDelivery | UnsupportedSecurity | UnsupportedLayout | InvalidHeader

  datatype Result<+T> = Done(value: T) | Rejected(code: Code)

  datatype Header = Header(kind: byte, delivery: byte, flags: byte, destinationEndpoint: byte,
                           cluster: bv16, profile: bv16, sourceEndpoint: byte, counter: byte)

  datatype Info = Info(header: Header, payloadOffset: nat, payloadLength: nat)

  function ValidateHeader(h: Header): (c: Code)
  {
    if h.kind != 0 then UnsupportedType
    else if h.flags & FLAG_SECURITY != 0 then UnsupportedSecurity
    else if h.flags & (FLAG_ACK_FORMAT | FLAG_EXTENDED_HEADER) != 0 then UnsupportedLayout
    else if h.flags & !FLAG_ACK_REQUEST != 0 then InvalidHeader
    else if h.delivery == 1 || h.delivery > DELIVERY_GROUP then InvalidHeader
    else if h.delivery != DELIVERY_UNICAST then UnsupportedDelivery
    else if h.sourceEndpoint == 0xff then InvalidHeader
    else Ok
  }

  function Decode(body: seq<byte>): (r: Result<Info>)
    ensures r.Done? ==> |body| == HEADER_SIZE + r.value.payloadLength <= MAX_BODY && r.value.payloadOffset == HEADER_SIZE
  {
    if |body| > MAX_BODY then Rejected(TooLong)
    else if |body| == 0 then Rejected(Truncated)
    else if body[0] & 3 != 0 then Rejected(UnsupportedType)
    else if |body| < HEADER_SIZE then Rejected(Truncated)
    else
      var h := Header(body[0] & 3, (body[0] >> 2) & 3, body[0] & 0xf0, body[1],
                      ReadLe16(body[2], body[3]), ReadLe16(body[4], body[5]), body[6], body[7]);
      var code := ValidateHeader(h);
      if code != Ok then Rejected(code) else Done(Info(h, HEADER_SIZE, |body| - HEADER_SIZE))
  }

  function HeaderOctets(h: Header): (r: seq<byte>)
    ensures |r| == HEADER_SIZE
  {
    [h.kind | (h.delivery << 2) | h.flags, h.destinationEndpoint, Low(h.cluster), High(h.cluster),
     Low(h.profile), High(h.profile), h.sourceEndpoint, h.counter]
  }

  function EncodeStatus(h: Header, payload: nat, capacity: nat): Code {
    if ValidateHeader(h) != Ok then ValidateHeader(h)
    else if payload > MAX_BODY - HEADER_SIZE then TooLong
    else if capacity < HEADER_SIZE + payload then BufferTooSmall
    else Ok
  }

  method EmitHeader(h: Header, body: array<byte>)
    requires HEADER_SIZE <= body.Length
    modifies body
    ensures body[..HEADER_SIZE] == HeaderOctets(h) && body[HEADER_SIZE..] == old(body[HEADER_SIZE..])
  {
    body[0] := h.kind | (h.delivery << 2) | h.flags;
    body[1] := h.destinationEndpoint;
    body[2], body[3] := Low(h.cluster), High(h.cluster);
    body[4], body[5] := Low(h.profile), High(h.profile);
    body[6] := h.sourceEndpoint;
    body[7] := h.counter;
  }

  method EmitFrame(h: Header, payload: seq<byte>, body: array<byte>)
    requires HEADER_SIZE + |payload| <= body.Length
    modifies body
    ensures body[..HEADER_SIZE + |payload|] == HeaderOctets(h) + payload
    ensures body[HEADER_SIZE + |payload|..] == old(body[HEADER_SIZE + |payload|..])
  {
    hide HeaderOctets;
    ghost var rest := body[HEADER_SIZE + |payload|..];
    EmitHeader(h, body);
    assert body[HEADER_SIZE + |payload|..] == rest;
    for i := 0 to |payload|
      invariant body[..HEADER_SIZE] == HeaderOctets(h)
      invariant body[HEADER_SIZE..HEADER_SIZE + i] == payload[..i]
      invariant body[HEADER_SIZE + |payload|..] == rest
    {
      body[HEADER_SIZE + i] := payload[i];
      assert body[HEADER_SIZE..HEADER_SIZE + i + 1] == body[HEADER_SIZE..HEADER_SIZE + i] + [payload[i]];
    }
    assert body[..HEADER_SIZE + |payload|] == body[..HEADER_SIZE] + body[HEADER_SIZE..HEADER_SIZE + |payload|];
  }

  method Encode(h: Header, payload: seq<byte>, body: array<byte>, capacity: nat, length: array<nat>) returns (code: Code)
    requires capacity <= body.Length && length.Length == 1 && body as object != length
    modifies body, length
    ensures code == EncodeStatus(h, |payload|, capacity)
    ensures code != Ok ==> body[..] == old(body[..]) && length[0] == old(length[0])
    ensures code == Ok ==> length[0] == HEADER_SIZE + |payload| <= capacity
                           && body[..length[0]] == HeaderOctets(h) + payload
                           && body[length[0]..] == old(body[HEADER_SIZE + |payload|..])
  {
    code := ValidateHeader(h);
    if code != Ok { return; }
    if |payload| > MAX_BODY - HEADER_SIZE { return TooLong; }
    if capacity < HEADER_SIZE + |payload| { return BufferTooSmall; }
    EmitFrame(h, payload, body);
    length[0] := HEADER_SIZE + |payload|;
  }

  /** The octets a valid header is written as determine it. */
  lemma ControlOctet(h: Header)
    requires ValidateHeader(h) == Ok
    ensures var c := h.kind | (h.delivery << 2) | h.flags;
            c & 3 == h.kind && (c >> 2) & 3 == h.delivery && c & 0xf0 == h.flags
  {
  }

  lemma DecodeUndoesEncode(h: Header, payload: seq<byte>)
    requires EncodeStatus(h, |payload|, MAX_BODY) == Ok
    ensures Decode(HeaderOctets(h) + payload) == Done(Info(h, HEADER_SIZE, |payload|))
    ensures (HeaderOctets(h) + payload)[HEADER_SIZE..] == payload
  {
    ControlOctet(h);
    Le16RoundTrip(h.cluster);
    Le16RoundTrip(h.profile);
  }

  lemma EncodeUndoesDecode(body: seq<byte>)
    requires Decode(body).Done?
    ensures var h := Decode(body).value.header;
            EncodeStatus(h, |body| - HEADER_SIZE, MAX_BODY) == Ok
            && HeaderOctets(h) + body[HEADER_SIZE..] == body
  {
    var h := Decode(body).value.header;
    ControlBits(body[0]);
    Le16Bytes(body[2], body[3]);
    Le16Bytes(body[4], body[5]);
    assert h.kind | (h.delivery << 2) | h.flags == body[0];
    assert HeaderOctets(h) == body[..HEADER_SIZE];
  }

  lemma ControlBits(c: byte)
    ensures (c & 3) | (((c >> 2) & 3) << 2) | (c & 0xf0) == c
  {
  }

  // ---------- which frames, in octets ----------

  /** Accepted bodies: type data, unicast, nothing set but perhaps the acknowledgement request, and a sender. */
  lemma AcceptsExactly(body: seq<byte>)
    ensures Decode(body).Done? <==> 8 <= |body| <= 108 && (body[0] == 0 || body[0] == 0x40) && body[6] != 0xff
    ensures Decode(body).Done? ==>
              var i := Decode(body).value;
              && i.payloadOffset == 8 && i.payloadLength == |body| - 8
              && i.header.flags == body[0] && i.header.destinationEndpoint == body[1] && i.header.sourceEndpoint == body[6]
              && i.header.cluster == 256 * (body[3] as bv16) + body[2] as bv16
              && i.header.profile == 256 * (body[5] as bv16) + body[4] as bv16 && i.header.counter == body[7]
  {
    if |body| >= 8 {
      Le16Value(body[2], body[3]);
      Le16Value(body[4], body[5]);
      ControlAccepted(body[0]);
    }
  }

  /** The first objection to every other body. */
  lemma RefusesBy(body: seq<byte>)
    requires Decode(body).Rejected?
    ensures Decode(body).code ==
              if |body| > 108 then TooLong
              else if |body| == 0 then Truncated
              else if body[0] & 3 != 0 then UnsupportedType
              else if |body| < 8 then Truncated
              else if body[0] & 0x20 != 0 then UnsupportedSecurity
              else if body[0] & 0x90 != 0 then UnsupportedLayout
              else if body[0] & 8 != 0 then UnsupportedDelivery
              else InvalidHeader
  {
  }

  lemma ControlAccepted(c: byte)
    ensures c & 3 == 0 && c & 0x20 == 0 && c & 0x90 == 0 && (c >> 2) & 3 == 0 <==> c == 0 || c == 0x40
  {
  }

  /** Headers the encoder takes, and the first objection to every other, in the order the objections are raised. */
  lemma EncodesExactly(h: Header, payload: nat, capacity: nat)
    ensures EncodeStatus(h, payload, capacity) ==
              if h.kind != 0 then UnsupportedType
              else if h.flags & 0x20 != 0 then UnsupportedSecurity
              else if h.flags & 0x90 != 0 then UnsupportedLayout
              else if h.flags != 0 && h.flags != 0x40 then InvalidHeader
              else if h.delivery == 2 || h.delivery == 3 then UnsupportedDelivery
              else if h.delivery != 0 || h.sourceEndpoint == 0xff then InvalidHeader
              else if payload > 100 then TooLong
              else if payload + 8 > capacity then BufferTooSmall
              else Ok
  {
  }
}
