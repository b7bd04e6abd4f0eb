/**
 The IEEE 802.15.4-2006 MAC codec: header shapes and policies, command and beacon payloads, the printer that
 fills a buffer with a moving position, and the parser of the two receive profiles.
 */
module MacFrame {
  import opened Bytes

  const MAX_BODY := 125
  const BEACON_MAX_PENDING := 7
  const BEACON_MAX_PAYLOAD := 52
  const COMMAND_MAX_PAYLOAD := 4

  const BEACON: byte := 0
  const DATA: byte := 1
  const ACK: byte := 2
  const COMMAND: byte := 3

  const NONE: byte := 0
  const SHORT: byte := 2
  const EXTENDED: byte := 3

  const FLAG_SECURITY: byte := 0x08
  const FLAG_PENDING: byte := 0x10
  const FLAG_ACK_REQUEST: byte := 0x20
  const FLAG_COMPRESSION: byte := 0x40

  const ASSOCIATION_REQUEST: byte := 1
  const ASSOCIATION_RESPONSE: byte := 2
  const DISASSOCIATION: byte := 3
  const DATA_REQUEST: byte := 4
  const BEACON_REQUEST: byte := 7

  const IEEE2006 := 0
  const R22 := 1

  datatype Code =
    | Ok | InvalidArgument | Truncated | TooLong | BufferTooSmall | UnsupportedType | UnsupportedVersion
    | UnsupportedSecurity | UnsupportedAddressing | InvalidHeader | UnsupportedCommand | InvalidCommand
    | UnsupportedBeacon | InvalidBeacon

  datatype Result<+T> = Done(value: T) | Rejected(code: Code)

  type Address = s: seq<byte> | |s| == 8 witness [0, 0, 0, 0, 0, 0, 0, 0]

  datatype Header = Header(kind: byte, version: byte, flags: byte, sequence: byte,
                           destinationMode: byte, sourceMode: byte, destinationPan: bv16, sourcePan: bv16,
                           destination: Address, source: Address)

  datatype Info = Info(header: Header, payloadOffset: nat, payloadLength: nat)

  /** Sizes of the address fields and of the whole header on the wire. */
  datatype Shape = Shape(destination: nat, source: nat, header: nat)

  // ---------- commands ----------

  datatype Command = Command(identifier: byte, capability: byte, shortAddress: bv16, status: byte, reason: byte)

  function CommandSize(identifier: byte): nat {
    if identifier == ASSOCIATION_REQUEST || identifier == DISASSOCIATION then 2
    else if identifier == ASSOCIATION_RESPONSE then 4
    else if identifier == DATA_REQUEST || identifier == BEACON_REQUEST then 1
    else 0
  }

  function CommandPolicy(c: Command): Code {
    if c.identifier == ASSOCIATION_REQUEST then
      if c.capability & 0x30 != 0 then InvalidCommand else Ok
    else if c.identifier == ASSOCIATION_RESPONSE then
      if c.status > 2 || (c.status == 0 && c.shortAddress == 0xffff) || (c.status != 0 && c.shortAddress != 0xffff)
      then InvalidCommand else Ok
    else if c.identifier == DISASSOCIATION then
      if c.reason != 1 && c.reason != 2 then InvalidCommand else Ok
    else if c.identifier == DATA_REQUEST || c.identifier == BEACON_REQUEST then Ok
    else UnsupportedCommand
  }

  function CommandDecode(payload: seq<byte>): (r: Result<Command>)
    ensures r.Done? ==> |payload| > 0 && |payload| == CommandSize(payload[0]) && CommandPolicy(r.value) == Ok
    ensures r.Done? ==> r.value.identifier == payload[0]
    ensures r.Rejected? ==> r.code != Ok
  {
    if |payload| > COMMAND_MAX_PAYLOAD then Rejected(TooLong)
    else if |payload| == 0 then Rejected(Truncated)
    else
      var size := CommandSize(payload[0]);
      if size == 0 then Rejected(UnsupportedCommand)
      else if |payload| < size then Rejected(Truncated)
      else if |payload| != size then Rejected(InvalidCommand)
      else
        var id := payload[0];
        var c := if id == ASSOCIATION_REQUEST then Command(id, payload[1], 0, 0, 0)
                 else if id == ASSOCIATION_RESPONSE then Command(id, 0, ReadLe16(payload[1], payload[2]), payload[3], 0)
                 else if id == DISASSOCIATION then Command(id, 0, 0, 0, payload[1])
                 else Command(id, 0, 0, 0, 0);
        if CommandPolicy(c) != Ok then Rejected(CommandPolicy(c)) else Done(c)
  }

  function CommandOctets(c: Command): seq<byte> {
    if c.identifier == ASSOCIATION_REQUEST then [c.identifier, c.capability]
    else if c.identifier == ASSOCIATION_RESPONSE then [c.identifier, Low(c.shortAddress), High(c.shortAddress), c.status]
    else if c.identifier == DISASSOCIATION then [c.identifier, c.reason]
    else [c.identifier]
  }

  method CommandEncode(c: Command, payload: array<byte>, capacity: nat, length: array<nat>) returns (code: Code)
    requires capacity <= payload.Length && length.Length == 1 && payload as object != length
    modifies payload, length
    ensures code == if CommandPolicy(c) != Ok then CommandPolicy(c)
                    else if capacity < |CommandOctets(c)| then BufferTooSmall else Ok
    ensures code != Ok ==> payload[..] == old(payload[..]) && length[0] == old(length[0])
    ensures code == Ok ==> payload[..] == CommandOctets(c) + old(payload[|CommandOctets(c)|..])
                           && length[0] == |CommandOctets(c)|
  {
    code := CommandPolicy(c);
    if code != Ok { return; }
    var size := CommandSize(c.identifier);
    if capacity < size { return BufferTooSmall; }
    payload[0] := c.identifier;
    if c.identifier == ASSOCIATION_REQUEST {
      payload[1] := c.capability;
    } else if c.identifier == ASSOCIATION_RESPONSE {
      payload[1], payload[2] := Low(c.shortAddress), High(c.shortAddress);
      payload[3] := c.status;
    } else if c.identifier == DISASSOCIATION {
      payload[1] := c.reason;
    }
    length[0] := size;
  }

  /** Fields its identifier does not carry, cleared. */
  function CommandNormalised(c: Command): Command {
    Command(c.identifier, if c.identifier == ASSOCIATION_REQUEST then c.capability else 0,
            if c.identifier == ASSOCIATION_RESPONSE then c.shortAddress else 0,
            if c.identifier == ASSOCIATION_RESPONSE then c.status else 0,
            if c.identifier == DISASSOCIATION then c.reason else 0)
  }

  lemma CommandDecodeUndoesEncode(c: Command)
    requires CommandPolicy(c) == Ok
    ensures CommandDecode(CommandOctets(c)) == Done(CommandNormalised(c))
  {
    Le16RoundTrip(c.shortAddress);
  }

  lemma CommandEncodeUndoesDecode(payload: seq<byte>)
    requires CommandDecode(payload).Done?
    ensures CommandOctets(CommandDecode(payload).value) == payload
  {
    if |payload| == 4 {
      Le16Bytes(payload[1], payload[2]);
    }
  }

  // ---------- beacons ----------

  datatype BeaconInfo = BeaconInfo(superframe: bv16, gtsPermit: byte, shortCount: nat, extendedCount: nat,
                                   shortOffset: nat, extendedOffset: nat, payloadOffset: nat, payloadLength: nat)

  /** The value of the low three bits. */
  function ThreeBits(b: byte): (n: nat)
    ensures n <= 7
  {
    (if b & 1 != 0 then 1 else 0) + (if b & 2 != 0 then 2 else 0) + (if b & 4 != 0 then 4 else 0)
  }

  predicate ShortPendingValid(payload: seq<byte>, count: nat) {
    4 + 2 * count <= |payload| && forall i :: 0 <= i < count ==> ReadLe16(payload[4 + 2 * i], payload[5 + 2 * i]) != 0xffff
  }

  function BeaconDecode(payload: seq<byte>): (r: Result<BeaconInfo>)
    ensures r.Rejected? ==> r.code != Ok
  {
    if |payload| > 4 + 8 * BEACON_MAX_PENDING + BEACON_MAX_PAYLOAD then Rejected(TooLong)
    else if |payload| < 4 then Rejected(Truncated)
    else if payload[1] & 0x20 != 0 || payload[2] & 0x78 != 0 then Rejected(InvalidBeacon)
    else if payload[2] & 7 != 0 then Rejected(UnsupportedBeacon)
    else if payload[3] & 0x88 != 0 then Rejected(InvalidBeacon)
    else
      var shorts, extended := ThreeBits(payload[3]), ThreeBits(payload[3] >> 4);
      var offset := 4 + 2 * shorts + 8 * extended;
      if shorts + extended > BEACON_MAX_PENDING then Rejected(InvalidBeacon)
      else if |payload| < offset then Rejected(Truncated)
      else if |payload| > offset + BEACON_MAX_PAYLOAD then Rejected(TooLong)
      else if !ShortPendingValid(payload, shorts) then Rejected(InvalidBeacon)
      else Done(BeaconInfo(ReadLe16(payload[0], payload[1]), payload[2] >> 7, shorts, extended,
                           4, 4 + 2 * shorts, offset, |payload| - offset))
  }

  /** The same decision with the pending list walked by a moving position. */
  method BeaconFields(payload: seq<byte>) returns (r: Result<BeaconInfo>)
    ensures r == BeaconDecode(payload)
  {
    if |payload| > 4 + 8 * BEACON_MAX_PENDING + BEACON_MAX_PAYLOAD { return Rejected(TooLong); }
    if |payload| < 4 { return Rejected(Truncated); }
    if payload[1] & 0x20 != 0 || payload[2] & 0x78 != 0 { return Rejected(InvalidBeacon); }
    if payload[2] & 7 != 0 { return Rejected(UnsupportedBeacon); }
    if payload[3] & 0x88 != 0 { return Rejected(InvalidBeacon); }
    var shorts, extended := ThreeBits(payload[3]), ThreeBits(payload[3] >> 4);
    if shorts + extended > BEACON_MAX_PENDING { return Rejected(InvalidBeacon); }
    var extendedOffset := 4 + 2 * shorts;
    var offset := extendedOffset + 8 * extended;
    if |payload| < offset { return Rejected(Truncated); }
    if |payload| > offset + BEACON_MAX_PAYLOAD { return Rejected(TooLong); }
    var i := 4;
    ghost var walked := 0;
    while i < extendedOffset
      invariant i == 4 + 2 * walked <= extendedOffset
      invariant ShortPendingValid(payload, walked)
    {
      if ReadLe16(payload[i], payload[i + 1]) == 0xffff {
        assert ReadLe16(payload[4 + 2 * walked], payload[5 + 2 * walked]) == 0xffff;
        return Rejected(InvalidBeacon);
      }
      i := i + 2;
      walked := walked + 1;
    }
    r := Done(BeaconInfo(ReadLe16(payload[0], payload[1]), payload[2] >> 7, shorts, extended,
                         4, extendedOffset, offset, |payload| - offset));
  }

  // ---------- header shape and policies ----------

  function AddressSize(mode: byte): (n: nat)
    ensures n == 0 || n == 2 || n == 8
  {
    if mode == NONE then 0 else if mode == SHORT then 2 else 8
  }

  function HeaderShape(h: Header): (r: Result<Shape>)
    ensures r.Done? ==> h.kind <= 3 && h.version <= 1 && h.flags & 0x8f == 0
                        && h.destinationMode <= 3 && h.destinationMode != 1 && h.sourceMode <= 3 && h.sourceMode != 1
    ensures r.Done? ==> r.value.destination == AddressSize(h.destinationMode) && r.value.source == AddressSize(h.sourceMode)
    ensures r.Done? ==> r.value.header == HeaderSize(h) <= 23
  {
    if h.version > 1 || ((h.kind == BEACON || h.kind == ACK || h.kind == COMMAND) && h.version != 0) then Rejected(UnsupportedVersion)
    else if h.flags & FLAG_SECURITY != 0 then Rejected(UnsupportedSecurity)
    else if h.flags & !(FLAG_PENDING | FLAG_ACK_REQUEST | FLAG_COMPRESSION) != 0 then Rejected(InvalidHeader)
    else if h.kind == BEACON then
      if h.destinationMode != NONE || (h.sourceMode != SHORT && h.sourceMode != EXTENDED) then Rejected(UnsupportedAddressing)
      else if h.flags & (FLAG_ACK_REQUEST | FLAG_COMPRESSION) != 0 then Rejected(InvalidHeader)
      else Done(Shape(0, AddressSize(h.sourceMode), 5 + AddressSize(h.sourceMode)))
    else if h.kind == ACK then
      if h.destinationMode != NONE || h.sourceMode != NONE || h.flags & (FLAG_ACK_REQUEST | FLAG_COMPRESSION) != 0 then Rejected(InvalidHeader)
      else Done(Shape(0, 0, 3))
    else if h.kind != DATA && h.kind != COMMAND then Rejected(UnsupportedType)
    else if h.destinationMode > EXTENDED || h.destinationMode == 1 || h.sourceMode > EXTENDED || h.sourceMode == 1 then Rejected(UnsupportedAddressing)
    else if (h.destinationMode == NONE || h.sourceMode == NONE)
            && (h.kind == DATA || Compressed(h) || h.destinationMode == h.sourceMode) then Rejected(UnsupportedAddressing)
    else
      var d, s := AddressSize(h.destinationMode), AddressSize(h.sourceMode);
      Done(Shape(d, s, 3 + d + s + (if d > 0 then 2 else 0) + (if s > 0 && !Compressed(h) then 2 else 0)))
  }

  predicate Compressed(h: Header) {
    h.flags & FLAG_COMPRESSION != 0
  }

  function HeaderSize(h: Header): nat {
    var d, s := AddressSize(h.destinationMode), AddressSize(h.sourceMode);
    3 + (if d > 0 then 2 + d else 0) + (if s > 0 then (if Compressed(h) then 0 else 2) + s else 0)
  }

  function ShortOf(a: Address): bv16 {
    ReadLe16(a[0], a[1])
  }

  function AddressPolicy(h: Header): Code {
    if h.kind == ACK then Ok
    else if Compressed(h) && h.sourcePan != h.destinationPan then InvalidHeader
    else if h.sourceMode == SHORT && ShortOf(h.source) == 0xffff then InvalidHeader
    else if h.kind == BEACON && (h.sourcePan == 0xffff || (h.sourceMode == SHORT && ShortOf(h.source) == 0xfffe)) then InvalidHeader
    else if h.flags & FLAG_ACK_REQUEST != 0 && h.destinationMode == SHORT && ShortOf(h.destination) == 0xffff then InvalidHeader
    else Ok
  }

  /** What a command asks of its header; mode 0 is IEEE receive, 1 transmit, 2 R22 receive. */
  function CommandHeaderPolicy(h: Header, payload: seq<byte>, mode: nat): Code {
    if |payload| == 0 then Truncated
    else
      match CommandDecode(payload)
      case Rejected(code) => code
      case Done(c) =>
        if mode == 1 && h.flags & FLAG_PENDING != 0 then InvalidHeader
        else if c.identifier == BEACON_REQUEST then
          if h.destinationMode != SHORT || h.sourceMode != NONE || h.destinationPan != 0xffff
             || ShortOf(h.destination) != 0xffff || h.flags & FLAG_ACK_REQUEST != 0 then InvalidHeader else Ok
        else if h.flags & FLAG_ACK_REQUEST == 0
                || (h.destinationMode == SHORT && ShortOf(h.destination) >= 0xfffe)
                || (h.sourceMode == SHORT && ShortOf(h.source) >= 0xfffe) then InvalidHeader
        else if c.identifier == DATA_REQUEST then
          if h.sourceMode == NONE || Compressed(h) != (h.destinationMode != NONE) then InvalidHeader else Ok
        else if h.sourceMode != EXTENDED || h.destinationMode == NONE then InvalidHeader
        else if c.identifier == ASSOCIATION_REQUEST then
          if Compressed(h) || h.sourcePan != 0xffff then InvalidHeader else Ok
        else if (c.identifier == ASSOCIATION_RESPONSE && h.destinationMode != EXTENDED)
                || (!Compressed(h) && !(mode == 2 && c.identifier == ASSOCIATION_RESPONSE)) then InvalidHeader
        else Ok
  }

  /** What the payload of this kind of frame asks of header and payload together. */
  function PayloadPolicy(h: Header, payload: seq<byte>, mode: nat): Code {
    if h.kind == COMMAND then CommandHeaderPolicy(h, payload, mode)
    else if h.kind == BEACON then (match BeaconDecode(payload) case Rejected(code) => code case Done(_) => Ok)
    else Ok
  }

  // ---------- the wire form ----------

  function Le16(v: bv16): (r: seq<byte>)
    ensures |r| == 2
  {
    [Low(v), High(v)]
  }

  function ControlOctets(h: Header): (r: seq<byte>)
    ensures |r| == 3
  {
    [h.kind | h.flags, (h.destinationMode << 2) | (h.version << 4) | (h.sourceMode << 6), h.sequence]
  }

  function DestinationOctets(h: Header): (r: seq<byte>)
    ensures |r| == if AddressSize(h.destinationMode) > 0 then 2 + AddressSize(h.destinationMode) else 0
  {
    var d := AddressSize(h.destinationMode);
    if d > 0 then Le16(h.destinationPan) + h.destination[..d] else []
  }

  function SourceOctets(h: Header): (r: seq<byte>)
    ensures |r| == if AddressSize(h.sourceMode) > 0 then (if Compressed(h) then 0 else 2) + AddressSize(h.sourceMode) else 0
  {
    var s := AddressSize(h.sourceMode);
    if s > 0 then (if Compressed(h) then [] else Le16(h.sourcePan)) + h.source[..s] else []
  }

  function HeaderOctets(h: Header): (r: seq<byte>)
    ensures |r| == HeaderSize(h)
  {
    ControlOctets(h) + DestinationOctets(h) + SourceOctets(h)
  }

  function EncodeStatus(h: Header, payload: seq<byte>, capacity: nat): (c: Code)
    ensures c == Ok ==> HeaderShape(h).Done? && HeaderSize(h) + |payload| <= MAX_BODY && HeaderSize(h) + |payload| <= capacity
  {
    match HeaderShape(h)
    case Rejected(code) => code
    case Done(shape) =>
      if AddressPolicy(h) != Ok then AddressPolicy(h)
      else if h.kind == ACK && payload != [] then InvalidHeader
      else if |payload| > MAX_BODY - shape.header then TooLong
      else if PayloadPolicy(h, payload, 1) != Ok then PayloadPolicy(h, payload, 1)
      else if capacity < shape.header + |payload| then BufferTooSmall
      else Ok
  }

  /** A wire address field widened to eight octets. */
  function Widen(s: seq<byte>): Address
    requires |s| == 0 || |s| == 2 || |s| == 8
  {
    if |s| == 8 then s
    else if |s| == 2 then [s[0], s[1], 0, 0, 0, 0, 0, 0]
    else [0, 0, 0, 0, 0, 0, 0, 0]
  }

  /** The header fields its first three octets determine; the rest still blank. */
  function ControlHeader(b0: byte, b1: byte, b2: byte): Header {
    Header(b0 & 7, (b1 >> 4) & 3, b0 & 0xf8, b2, (b1 >> 2) & 3, (b1 >> 6) & 3, 0, 0, Widen([]), Widen([]))
  }

  /** Where the source field starts. */
  function SourceOffset(h: Header): (n: nat)
    ensures 3 <= n <= HeaderSize(h)
  {
    3 + if AddressSize(h.destinationMode) > 0 then 2 + AddressSize(h.destinationMode) else 0
  }

  function WithDestination(h: Header, body: seq<byte>): (r: Header)
    requires |body| >= HeaderSize(h)
  {
    var d := AddressSize(h.destinationMode);
    if d == 0 then h
    else h.(destinationPan := ReadLe16(body[3], body[4]), destination := Widen(body[5..5 + d]))
  }

  function WithSource(h: Header, body: seq<byte>): (r: Header)
    requires |body| >= HeaderSize(h)
  {
    var s := AddressSize(h.sourceMode);
    var p := SourceOffset(h);
    if s == 0 then h
    else if Compressed(h) then h.(sourcePan := h.destinationPan, source := Widen(body[p..p + s]))
    else h.(sourcePan := ReadLe16(body[p], body[p + 1]), source := Widen(body[p + 2..p + 2 + s]))
  }

  /** What remains to be judged once the header octets are known to be there. */
  function DecodeFields(body: seq<byte>, c: Header, profile: nat): (r: Result<Info>)
    requires HeaderSize(c) <= |body|
    ensures r.Done? ==> |body| == r.value.payloadOffset + r.value.payloadLength && r.value.payloadOffset == HeaderSize(c)
  {
    hide AddressPolicy, PayloadPolicy;
    var h := WithSource(WithDestination(c, body), body);
    var size := HeaderSize(c);
    if AddressPolicy(h) != Ok then Rejected(AddressPolicy(h))
    else
      var code := PayloadPolicy(h, body[size..], 2 * profile);
      if code != Ok then Rejected(code) else Done(Info(h, size, |body| - size))
  }

  function Decode(body: seq<byte>, profile: nat): (r: Result<Info>)
    ensures r.Done? ==> |body| == r.value.payloadOffset + r.value.payloadLength <= MAX_BODY
  {
    hide HeaderShape, DecodeFields;
    if profile > R22 then Rejected(InvalidArgument)
    else if |body| > MAX_BODY then Rejected(TooLong)
    else if |body| < 3 then Rejected(Truncated)
    else if body[1] & 3 != 0 then Rejected(InvalidHeader)
    else
      var c := ControlHeader(body[0], body[1], body[2]);
      match HeaderShape(c)
      case Rejected(code) => Rejected(code)
      case Done(shape) =>
        if |body| < shape.header then Rejected(Truncated)
        else if c.kind == ACK && |body| != shape.header then Rejected(InvalidHeader)
        else DecodeFields(body, c, profile)
  }

  // ---------- printing and parsing by position ----------

  method EmitDestination(h: Header, body: array<byte>, position: nat, size: nat) returns (next: nat)
    requires size == AddressSize(h.destinationMode) && position + |DestinationOctets(h)| <= body.Length
    modifies body
    ensures next == position + |DestinationOctets(h)| && body[..next] == old(body[..position]) + DestinationOctets(h)
    ensures forall k :: next <= k < body.Length ==> body[k] == old(body[k])
  {
    hide Low, High, AddressSize;
    next := position;
    if size > 0 {
      next := EmitOctets(Le16(h.destinationPan), body, next);
      next := EmitOctets(h.destination[..size], body, next);
    }
  }

  method EmitSource(h: Header, body: array<byte>, position: nat, size: nat) returns (next: nat)
    requires size == AddressSize(h.sourceMode) && position + |SourceOctets(h)| <= body.Length
    modifies body
    ensures next == position + |SourceOctets(h)| && body[..next] == old(body[..position]) + SourceOctets(h)
    ensures forall k :: next <= k < body.Length ==> body[k] == old(body[k])
  {
    hide Low, High, AddressSize;
    next := position;
    if size > 0 {
      if !Compressed(h) {
        next := EmitOctets(Le16(h.sourcePan), body, next);
      }
      next := EmitOctets(h.source[..size], body, next);
    }
  }

  method EmitFrame(h: Header, payload: seq<byte>, body: array<byte>, destination: nat, source: nat)
    requires destination == AddressSize(h.destinationMode) && source == AddressSize(h.sourceMode)
    requires HeaderSize(h) + |payload| <= body.Length
    modifies body
    ensures body[..] == HeaderOctets(h) + payload + old(body[HeaderSize(h) + |payload|..])
  {
    hide ControlOctets, DestinationOctets, SourceOctets, AddressSize;
    ghost var n := HeaderSize(h) + |payload|;
    ghost var rest := body[n..];
    var position := EmitOctets(ControlOctets(h), body, 0);
    position := EmitDestination(h, body, position, destination);
    position := EmitSource(h, body, position, source);
    assert position == HeaderSize(h) && body[..position] == HeaderOctets(h);
    hide *;
    position := EmitOctets(payload, body, position);
    assert body[n..] == rest;
    assert body[..] == body[..n] + body[n..];
  }

  method EmitOctets(s: seq<byte>, body: array<byte>, position: nat) returns (next: nat)
    requires position + |s| <= body.Length
    modifies body
    ensures next == position + |s| && body[..next] == old(body[..position]) + s
    ensures forall k :: next <= k < body.Length ==> body[k] == old(body[k])
  {
    next := position;
    for i := 0 to |s|
      invariant next == position + i && body[..next] == old(body[..position]) + s[..i]
      invariant forall k :: next <= k < body.Length ==> body[k] == old(body[k])
    {
      body[next] := s[i];
      next := next + 1;
    }
  }

  method Encode(h: Header, payload: seq<byte>, body: array<byte>, capacity: nat, length: array<nat>) returns (code: Code)
    requires capacity <= body.Length && length.Length == 1 && body as object != length
    modifies body, length
    ensures code == EncodeStatus(h, payload, capacity)
    ensures code != Ok ==> body[..] == old(body[..]) && length[0] == old(length[0])
    ensures code == Ok ==> length[0] == HeaderSize(h) + |payload| <= capacity
                           && body[..] == HeaderOctets(h) + payload + old(body[HeaderSize(h) + |payload|..])
  {
    hide CommandHeaderPolicy, AddressPolicy, HeaderOctets;
    var shape := HeaderShape(h);
    if shape.Rejected? { return shape.code; }
    code := AddressPolicy(h);
    if code != Ok { return; }
    if h.kind == ACK && |payload| != 0 { return InvalidHeader; }
    if |payload| > MAX_BODY - shape.value.header { return TooLong; }
    if h.kind == COMMAND {
      code := CommandHeaderPolicy(h, payload, 1);
      if code != Ok { return; }
    }
    if h.kind == BEACON {
      var fields := BeaconFields(payload);
      if fields.Rejected? { return fields.code; }
    }
    if capacity < shape.value.header + |payload| { return BufferTooSmall; }
    EmitFrame(h, payload, body, shape.value.destination, shape.value.source);
    length[0] := shape.value.header + |payload|;
    code := Ok;
  }

  method DecodeProfile(body: seq<byte>, profile: nat) returns (r: Result<Info>)
    ensures r == Decode(body, profile)
  {
    hide HeaderShape, DecodeFields, ControlHeader;
    if profile > R22 { return Rejected(InvalidArgument); }
    if |body| > MAX_BODY { return Rejected(TooLong); }
    if |body| < 3 { return Rejected(Truncated); }
    if body[1] & 3 != 0 { return Rejected(InvalidHeader); }
    var h := ControlHeader(body[0], body[1], body[2]);
    var shape := HeaderShape(h);
    if shape.Rejected? { return Rejected(shape.code); }
    if |body| < shape.value.header { return Rejected(Truncated); }
    if h.kind == ACK && |body| != shape.value.header { return Rejected(InvalidHeader); }
    r := ReadFields(body, h, shape.value, profile);
  }

  /** Address fields read at a moving position. */
  method ReadAddresses(body: seq<byte>, control: Header, shape: Shape) returns (h: Header)
    requires HeaderSize(control) <= |body|
    requires shape.destination == AddressSize(control.destinationMode) && shape.source == AddressSize(control.sourceMode)
    ensures h == WithSource(WithDestination(control, body), body)
  {
    hide Widen, ReadLe16, AddressSize;
    h := control;
    var position := 3;
    if shape.destination > 0 {
      h := h.(destinationPan := ReadLe16(body[position], body[position + 1]));
      position := position + 2;
      h := h.(destination := Widen(body[position..position + shape.destination]));
      position := position + shape.destination;
    }
    assert h == WithDestination(control, body) && position == SourceOffset(h);
    if shape.source > 0 {
      if Compressed(h) {
        h := h.(sourcePan := h.destinationPan);
      } else {
        h := h.(sourcePan := ReadLe16(body[position], body[position + 1]));
        position := position + 2;
      }
      h := h.(source := Widen(body[position..position + shape.source]));
    }
  }

  method ReadFields(body: seq<byte>, control: Header, shape: Shape, profile: nat) returns (r: Result<Info>)
    requires HeaderSize(control) == shape.header <= |body|
    requires shape.destination == AddressSize(control.destinationMode) && shape.source == AddressSize(control.sourceMode)
    ensures r == DecodeFields(body, control, profile)
  {
    hide CommandHeaderPolicy, AddressPolicy, BeaconDecode, WithSource, WithDestination, AddressSize;
    var h := ReadAddresses(body, control, shape);
    var code := AddressPolicy(h);
    if code != Ok { return Rejected(code); }
    if h.kind == COMMAND {
      code := CommandHeaderPolicy(h, body[shape.header..], 2 * profile);
      if code != Ok { return Rejected(code); }
    }
    if h.kind == BEACON {
      var fields := BeaconFields(body[shape.header..]);
      if fields.Rejected? { return Rejected(fields.code); }
    }
    r := Done(Info(h, shape.header, |body| - shape.header));
  }
}
