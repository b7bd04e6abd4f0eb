/**
 The APS security envelope: header parsing, nonce and additional-data construction, and the replacement of
 the wire's zero level bits by the trusted level 5. The functions below say what is sealed and what is
 accepted; class Envelope does it by patching one frame buffer around the CCM* engine.
 */
module EdWire {
  import opened Bytes
  import Aps = ApsFrame
  import Ccm = CcmStar
  import CcmSpec

  const COMMAND: byte := 1
  const ACK: byte := 2
  const TAG_LENGTH := 4
  const BUFFER := 116

  datatype Code =
    | Argument | Length | Header | Level | Counter | Selector | Source | Space | AesFailure | AuthFailure | CcmFailure

  datatype Result<+T> = Done(value: T) | Failed(code: Code)

  datatype Key = Key(key: Block, source: seq<byte>, counter: bv32, level: nat, keyIdentifier: byte,
                     keySequence: byte, extendedNonce: nat, limits: Ccm.Limits)

  datatype Meta = Meta(counter: bv32, source: seq<byte>, level: nat, keyIdentifier: byte, keySequence: byte,
                       extendedNonce: byte, headerLength: nat, auxiliaryLength: nat, payloadLength: nat)

  /** What one call is going to do once every syntactic check has passed. */
  datatype Plan = Plan(kind: byte, meta: Meta)

  // ---------- octets ----------

  function CounterOctets(c: bv32): (r: seq<byte>)
    ensures |r| == 4
  {
    [(c & 0xff) as byte, ((c >> 8) & 0xff) as byte, ((c >> 16) & 0xff) as byte, (c >> 24) as byte]
  }

  function CounterValue(b0: byte, b1: byte, b2: byte, b3: byte): bv32 {
    b0 as bv32 | (b1 as bv32 << 8) | (b2 as bv32 << 16) | (b3 as bv32 << 24)
  }

  lemma CounterRoundTrip(c: bv32)
    ensures var o := CounterOctets(c); CounterValue(o[0], o[1], o[2], o[3]) == c
  {
  }

  lemma CounterBytes(b0: byte, b1: byte, b2: byte, b3: byte)
    ensures CounterOctets(CounterValue(b0, b1, b2, b3)) == [b0, b1, b2, b3]
  {
  }

  // ---------- header syntax ----------

  predicate ShortHeader(control: byte) {
    control & 3 == COMMAND || (control & 3 == ACK && control & Aps.FLAG_ACK_FORMAT != 0)
  }

  predicate ControlSupported(control: byte) {
    var kind, delivery := control & 3, (control >> 2) & 3;
    && kind <= ACK
    && (delivery == 0 || delivery == Aps.DELIVERY_BROADCAST)
    && control & Aps.FLAG_EXTENDED_HEADER == 0
    && (kind == 0 || delivery == 0)
    && (kind == ACK || control & Aps.FLAG_ACK_FORMAT == 0)
    && !((kind == ACK || delivery != 0) && control & Aps.FLAG_ACK_REQUEST != 0)
  }

  function ReadAps(frame: seq<byte>): (r: Result<Aps.Info>)
    ensures r.Done? ==> 2 <= |frame| == r.value.payloadOffset + r.value.payloadLength <= Aps.MAX_BODY
    ensures r.Done? ==> r.value.payloadOffset == if ShortHeader(frame[0]) then 2 else 8
    ensures r.Done? ==> r.value.header.kind == frame[0] & 3
  {
    if |frame| < 2 || |frame| > Aps.MAX_BODY then Failed(Length)
    else
      var c := frame[0];
      if !ControlSupported(c) then Failed(Header)
      else if ShortHeader(c) then
        Done(Aps.Info(Aps.Header(c & 3, (c >> 2) & 3, c & 0xf0, 0, 0, 0, 0, frame[1]), 2, |frame| - 2))
      else if |frame| < 8 then Failed(Length)
      else
        match Aps.Decode(frame[0 := c & Aps.FLAG_ACK_REQUEST])
        case Rejected(_) => Failed(Header)
        case Done(info) =>
          Done(info.(header := info.header.(kind := c & 3, delivery := (c >> 2) & 3, flags := c & 0xf0)))
  }

  function AuxiliaryLength(control: byte): nat {
    5 + (if control & 0x20 != 0 then 8 else 0) + (if (control >> 3) & 3 == 1 then 1 else 0)
  }

  /** Untrusted metadata of a protected frame. */
  function Inspect(frame: seq<byte>): (r: Result<Plan>)
    ensures r.Done? ==>
              var m := r.value.meta;
              m.auxiliaryLength == 13 && |frame| == m.headerLength + 13 + m.payloadLength + TAG_LENGTH
              && ReadAps(frame).Done? && m.headerLength == ReadAps(frame).value.payloadOffset
              && 2 <= m.headerLength && |m.source| == 8 && |frame| <= Aps.MAX_BODY
  {
    match ReadAps(frame)
    case Failed(code) => Failed(code)
    case Done(info) =>
      var h := info.payloadOffset;
      if frame[0] & Aps.FLAG_SECURITY == 0 then Failed(Header)
      else if |frame| < h + 5 then Failed(Length)
      else
        var c := frame[h];
        var a := AuxiliaryLength(c);
        if c & 0xc0 != 0 || |frame| < h + a + 4 then Failed(Length)
        else
          var identifier := (c >> 3) & 3;
          var meta := Meta(CounterValue(frame[h + 1], frame[h + 2], frame[h + 3], frame[h + 4]),
                           if c & 0x20 != 0 then frame[h + 5..h + 13] else Zeros(8),
                           5, identifier, if identifier == 1 then frame[h + a - 1] else 0,
                           (c >> 5) & 1, h, a, |frame| - h - a - 4);
          if meta.counter == 0xffffffff then Failed(Counter)
          else if identifier == 1 || c & 0x20 == 0 || (info.header.kind != COMMAND && identifier != 0) then Failed(Selector)
          else Done(Plan(info.header.kind, meta))
  }

  // ---------- admission ----------

  predicate LimitsUsable(l: Ccm.Limits) {
    0 < l.blockTimeout < Ccm.HALF_RANGE && l.blockPolls > 0
  }

  /** The checks both directions share, after the frame itself has been understood. */
  function Admit(plan: Plan, total: nat, capacity: nat, limits: Ccm.Limits): Result<Plan> {
    var p := plan.meta.payloadLength;
    if (plan.kind == COMMAND && p == 0) || (plan.kind == ACK && p != 0) then Failed(Length)
    else if capacity < total then Failed(Space)
    else if !LimitsUsable(limits) then Failed(CcmFailure)
    else Done(plan)
  }

  function KeyCheck(key: Key): Result<()> {
    if key.level != 5 || key.extendedNonce != 1 then Failed(Level)
    else if key.keyIdentifier == 1 || key.keyIdentifier > 3 then Failed(Selector)
    else Done(())
  }

  function SealPlan(key: Key, frame: seq<byte>, capacity: nat): (r: Result<Plan>)
    requires |key.source| == 8
    ensures r.Done? ==> 2 <= r.value.meta.headerLength <= |frame| <= Aps.MAX_BODY - 17
  {
    match (KeyCheck(key), ReadAps(frame))
    case (Failed(code), _) => Failed(code)
    case (_, Failed(code)) => Failed(code)
    case (_, Done(info)) =>
      if frame[0] & Aps.FLAG_SECURITY != 0 then Failed(Header)
      else if key.counter == 0xffffffff then Failed(Counter)
      else if info.header.kind != COMMAND && key.keyIdentifier != 0 then Failed(Selector)
      else
        var h := info.payloadOffset;
        var total := |frame| + 13 + 4;
        if total > Aps.MAX_BODY then Failed(Length)
        else
          var meta := Meta(key.counter, key.source, 5, key.keyIdentifier, 0, 1, h, 13, |frame| - h);
          Admit(Plan(info.header.kind, meta), total, capacity, key.limits)
  }

  function OpenPlan(key: Key, frame: seq<byte>, capacity: nat): (r: Result<Plan>)
    requires |key.source| == 8
    ensures r.Done? ==>
              var m := r.value.meta;
              2 <= m.headerLength && |frame| == m.headerLength + 13 + m.payloadLength + TAG_LENGTH <= Aps.MAX_BODY
  {
    match (KeyCheck(key), Inspect(frame))
    case (Failed(code), _) => Failed(code)
    case (_, Failed(code)) => Failed(code)
    case (_, Done(plan)) =>
      if plan.meta.keyIdentifier != key.keyIdentifier || plan.meta.source != key.source then Failed(Source)
      else Admit(plan, plan.meta.headerLength + plan.meta.payloadLength, capacity, key.limits)
  }

  // ---------- what is authenticated, sealed and opened ----------

  /** Level 5, extended nonce, the key identifier: the control octet both sides authenticate. */
  function TrustedControl(keyIdentifier: byte): byte {
    0x25 | (keyIdentifier << 3)
  }

  /** The additional data: secured APS header, trusted control, counter and source. */
  function Authenticated(key: Key, counter: bv32, header: seq<byte>): (r: seq<byte>)
    requires |key.source| == 8 && |header| > 0
    ensures |r| == |header| + 13
  {
    header[0 := header[0] | Aps.FLAG_SECURITY] + [TrustedControl(key.keyIdentifier)] + CounterOctets(counter) + key.source
  }

  function Nonce(key: Key, counter: bv32): (r: seq<byte>)
    requires |key.source| == 8
    ensures |r| == 13
  {
    key.source + CounterOctets(counter) + [TrustedControl(key.keyIdentifier)]
  }

  /** The protected wire form: the additional data with its level bits zeroed, then ciphertext and MIC. */
  function Sealed(e: CcmSpec.Cipher, key: Key, frame: seq<byte>, h: nat): (r: seq<byte>)
    requires |key.source| == 8 && 0 < h <= |frame| <= Aps.MAX_BODY
    ensures |r| == |frame| + 17
  {
    var aad := Authenticated(key, key.counter, frame[..h]);
    aad[h := aad[h] & 0xf8] + CcmSpec.Seal(e, key.key, Nonce(key, key.counter), aad, frame[h..], TAG_LENGTH)
  }

  /** The plain form behind a received protected frame, if its MIC matches. */
  function Opened(e: CcmSpec.Cipher, key: Key, frame: seq<byte>, m: Meta): (r: CcmSpec.Option<seq<byte>>)
    requires |key.source| == 8 && 0 < m.headerLength && |frame| == m.headerLength + 13 + m.payloadLength + TAG_LENGTH
    requires |frame| <= Aps.MAX_BODY
    ensures r.Some? ==> |r.value| == m.headerLength + m.payloadLength
  {
    var h := m.headerLength;
    var aad := Authenticated(key, m.counter, frame[..h]);
    match CcmSpec.Open(e, key.key, Nonce(key, m.counter), aad, frame[h + 13..], TAG_LENGTH)
    case None => CcmSpec.None
    case Some(text) => CcmSpec.Some(frame[..h][0 := frame[0] & !Aps.FLAG_SECURITY] + text)
  }

  /** Outcome of sealing when the block cipher does not fail. */
  function SealFrame(e: CcmSpec.Cipher, key: Key, frame: seq<byte>, capacity: nat): Result<(seq<byte>, Meta)>
    requires |key.source| == 8
  {
    match SealPlan(key, frame, capacity)
    case Failed(code) => Failed(code)
    case Done(plan) => Done((Sealed(e, key, frame, plan.meta.headerLength), plan.meta))
  }

  /** Outcome of opening when the block cipher does not fail. */
  function OpenFrame(e: CcmSpec.Cipher, key: Key, frame: seq<byte>, capacity: nat): Result<(seq<byte>, Meta)>
    requires |key.source| == 8
  {
    match OpenPlan(key, frame, capacity)
    case Failed(code) => Failed(code)
    case Done(plan) =>
      match Opened(e, key, frame, plan.meta)
      case None => Failed(AuthFailure)
      case Some(text) => Done((text, plan.meta))
  }

  // ---------- laws ----------

  /** Setting the security flag hides nothing the header reader looks at. */
  lemma SecurityFlagNeutral(c: byte)
    requires c & Aps.FLAG_SECURITY == 0
    ensures var s := c | Aps.FLAG_SECURITY;
            && s & Aps.FLAG_SECURITY != 0 && s & !Aps.FLAG_SECURITY == c
            && s & 3 == c & 3 && (s >> 2) & 3 == (c >> 2) & 3
            && s & Aps.FLAG_ACK_REQUEST == c & Aps.FLAG_ACK_REQUEST
            && ControlSupported(s) == ControlSupported(c) && ShortHeader(s) == ShortHeader(c)
  {
  }

  lemma SecurityFlagRestored(c: byte)
    requires c & Aps.FLAG_SECURITY != 0
    ensures (c & !Aps.FLAG_SECURITY) & Aps.FLAG_SECURITY == 0
    ensures (c & !Aps.FLAG_SECURITY) | Aps.FLAG_SECURITY == c
  {
  }

  lemma WireControl(id: byte)
    requires id <= 3 && id != 1
    ensures var c := TrustedControl(id) & 0xf8;
            c & 0xc0 == 0 && c & 0x20 != 0 && (c >> 3) & 3 == id && (c >> 5) & 1 == 1 && AuxiliaryLength(c) == 13
  {
  }

  lemma ReceivedControl(c: byte)
    requires c & 0xc0 == 0 && c & 0x20 != 0
    ensures TrustedControl((c >> 3) & 3) & 0xf8 == c & 0xf8 && (c >> 5) & 1 == 1
  {
  }

  /** Two frames with the same header octets, up to the security flag, read alike. */
  lemma ReadApsAlike(f: seq<byte>, g: seq<byte>)
    requires ReadAps(f).Done? && f[0] & Aps.FLAG_SECURITY == 0
    requires var h := ReadAps(f).value.payloadOffset;
             h <= |g| <= Aps.MAX_BODY && g[0] == f[0] | Aps.FLAG_SECURITY && g[1..h] == f[1..h]
    ensures ReadAps(g).Done? && ReadAps(g).value.payloadOffset == ReadAps(f).value.payloadOffset
  {
    SecurityFlagNeutral(f[0]);
    var h := ReadAps(f).value.payloadOffset;
    assert forall i :: 1 <= i < h ==> g[i] == g[1..h][i - 1] && f[i] == f[1..h][i - 1];
  }

  lemma ReadApsCleared(f: seq<byte>, g: seq<byte>)
    requires ReadAps(f).Done? && f[0] & Aps.FLAG_SECURITY != 0
    requires var h := ReadAps(f).value.payloadOffset;
             h <= |g| <= Aps.MAX_BODY && g[0] == f[0] & !Aps.FLAG_SECURITY && g[1..h] == f[1..h]
    ensures ReadAps(g).Done? && ReadAps(g).value.payloadOffset == ReadAps(f).value.payloadOffset
  {
    SecurityFlagRestored(f[0]);
    SecurityFlagNeutral(g[0]);
    var h := ReadAps(f).value.payloadOffset;
    assert forall i :: 1 <= i < h ==> g[i] == g[1..h][i - 1] && f[i] == f[1..h][i - 1];
  }

  /** The parts of a sealed frame: the header marked secured, the wire control octet, counter, source, text. */
  lemma SealedParts(e: CcmSpec.Cipher, key: Key, frame: seq<byte>, h: nat)
    requires |key.source| == 8 && 0 < h <= |frame| <= Aps.MAX_BODY
    ensures var w := Sealed(e, key, frame, h);
            var aad := Authenticated(key, key.counter, frame[..h]);
            && w[0] == frame[0] | Aps.FLAG_SECURITY && w[1..h] == frame[1..h]
            && w[h] == TrustedControl(key.keyIdentifier) & 0xf8
            && w[h + 1..h + 5] == CounterOctets(key.counter)
            && w[h + 5..h + 13] == key.source
            && w[h + 13..] == CcmSpec.Seal(e, key.key, Nonce(key, key.counter), aad, frame[h..], TAG_LENGTH)
  {
    var header := frame[..h];
    var aad := Authenticated(key, key.counter, header);
    var text := CcmSpec.Seal(e, key.key, Nonce(key, key.counter), aad, frame[h..], TAG_LENGTH);
    var wire := aad[h := aad[h] & 0xf8];
    var w := Sealed(e, key, frame, h);
    assert w == wire + text;
    assert w[..h + 13] == wire && w[h + 13..] == text;
    assert wire[1..h] == frame[1..h];
    assert w[1..h] == wire[1..h];
    assert aad[h] == TrustedControl(key.keyIdentifier);
    assert w[h + 1..h + 5] == wire[h + 1..h + 5] == aad[h + 1..h + 5];
    assert w[h + 5..h + 13] == wire[h + 5..h + 13] == aad[h + 5..h + 13];
  }

  /** A sealed frame is understood exactly as it was built. */
  lemma InspectSealed(e: CcmSpec.Cipher, key: Key, frame: seq<byte>, capacity: nat)
    requires |key.source| == 8 && SealPlan(key, frame, capacity).Done?
    ensures var plan := SealPlan(key, frame, capacity).value;
            Inspect(Sealed(e, key, frame, plan.meta.headerLength)) == Done(plan)
  {
    hide ReadAps, Sealed, CcmSpec.Seal, ControlSupported, ShortHeader, CounterOctets, CounterValue;
    var plan := SealPlan(key, frame, capacity).value;
    var h := plan.meta.headerLength;
    var w := Sealed(e, key, frame, h);
    SealedParts(e, key, frame, h);
    ReadApsAlike(frame, w);
    SecurityFlagNeutral(frame[0]);
    WireControl(key.keyIdentifier);
    CounterRoundTrip(key.counter);
    var o := w[h + 1..h + 5];
    assert w[h + 1] == o[0] && w[h + 2] == o[1] && w[h + 3] == o[2] && w[h + 4] == o[3];
  }

  /** Both sides hand the cipher mode the same additional data, although the wire carries no level. */
  lemma SameAuthenticated(e: CcmSpec.Cipher, key: Key, frame: seq<byte>, h: nat)
    requires |key.source| == 8 && 0 < h <= |frame| <= Aps.MAX_BODY
    ensures var w := Sealed(e, key, frame, h);
            Authenticated(key, key.counter, w[..h]) == Authenticated(key, key.counter, frame[..h])
  {
    var w := Sealed(e, key, frame, h);
    SealedParts(e, key, frame, h);
    var s, t := w[..h][0 := w[0] | Aps.FLAG_SECURITY], frame[..h][0 := frame[0] | Aps.FLAG_SECURITY];
    forall i | 0 <= i < h
      ensures s[i] == t[i]
    {
      if i > 0 {
        assert w[i] == w[1..h][i - 1] && frame[i] == frame[1..h][i - 1];
      } else {
        OrTwice(frame[0], Aps.FLAG_SECURITY);
      }
    }
    assert s == t;
  }

  lemma OrTwice(x: byte, y: byte)
    ensures (x | y) | y == x | y
  {
  }

  /** Every frame that seals opens again to itself, with the same metadata. */
  lemma OpenUndoesSeal(e: CcmSpec.Cipher, key: Key, frame: seq<byte>, capacity: nat)
    requires |key.source| == 8 && SealFrame(e, key, frame, capacity).Done?
    ensures var (wire, meta) := SealFrame(e, key, frame, capacity).value;
            OpenFrame(e, key, wire, capacity) == Done((frame, meta))
  {
    hide ReadAps, Inspect, Sealed, Authenticated, Nonce, CcmSpec.Seal, CcmSpec.Open;
    var plan := SealPlan(key, frame, capacity).value;
    var h := plan.meta.headerLength;
    var w := Sealed(e, key, frame, h);
    InspectSealed(e, key, frame, capacity);
    SealedParts(e, key, frame, h);
    SameAuthenticated(e, key, frame, h);
    var aad := Authenticated(key, key.counter, frame[..h]);
    CcmSpec.OpenUndoesSeal(e, key.key, Nonce(key, key.counter), aad, frame[h..], TAG_LENGTH);
    SecurityFlagNeutral(frame[0]);
    RestoredFrame(frame, w, h);
  }

  lemma RestoredFrame(frame: seq<byte>, w: seq<byte>, h: nat)
    requires 0 < h <= |frame| && h <= |w| && w[1..h] == frame[1..h] && w[0] & !Aps.FLAG_SECURITY == frame[0]
    ensures w[..h][0 := w[0] & !Aps.FLAG_SECURITY] + frame[h..] == frame
  {
    forall i | 1 <= i < h
      ensures w[i] == frame[i]
    {
      assert w[i] == w[1..h][i - 1] && frame[i] == frame[1..h][i - 1];
    }
  }

  /**
   Nothing but a sealed frame opens: whatever opens is, up to the three level bits of its control octet,
   the sealing of what it opens to under the counter it carries.
   */
  lemma SealUndoesOpen(e: CcmSpec.Cipher, key: Key, wire: seq<byte>, capacity: nat, room: nat)
    requires |key.source| == 8 && OpenFrame(e, key, wire, capacity).Done? && room >= |wire|
    ensures var (frame, meta) := OpenFrame(e, key, wire, capacity).value;
            var h := meta.headerLength;
            h < |wire| && SealFrame(e, key.(counter := meta.counter), frame, room) == Done((wire[h := wire[h] & 0xf8], meta))
  {
    hide ReadAps, Inspect, Sealed, CcmSpec.Open;
    var plan := OpenPlan(key, wire, capacity).value;
    var h := plan.meta.headerLength;
    var k := key.(counter := plan.meta.counter);
    var frame := Opened(e, key, wire, plan.meta).value;
    PlanOfOpened(e, key, wire, capacity, room);
    SealedOfOpened(e, key, wire, capacity);
  }

  /** A wire with the level bits of its control octet, at `h`, cleared. */
  function LevelCleared(wire: seq<byte>, h: nat): (r: seq<byte>)
    ensures |r| == |wire|
  {
    if h < |wire| then wire[h := wire[h] & 0xf8] else wire
  }

  /** Two wires that differ at most in the level bits of the octet at `h`. */
  predicate LevelAlike(a: seq<byte>, b: seq<byte>, h: nat) {
    |a| == |b| && h < |a| && a[h] & 0xf8 == b[h] & 0xf8 && forall i :: 0 <= i < |a| && i != h ==> a[i] == b[i]
  }

  lemma LevelBits(c: byte, d: byte)
    requires c & 0xf8 == d & 0xf8
    ensures c & 0xc0 == d & 0xc0 && c & 0x20 == d & 0x20 && (c >> 3) & 3 == (d >> 3) & 3 && (c >> 5) & 1 == (d >> 5) & 1
  {
  }

  /** Only the header octets matter to the header reader. */
  lemma ReadApsSame(f: seq<byte>, g: seq<byte>)
    requires ReadAps(f).Done? && |g| == |f|
    requires forall i :: 0 <= i < ReadAps(f).value.payloadOffset ==> g[i] == f[i]
    ensures ReadAps(g) == ReadAps(f)
  {
  }

  lemma SliceAlike(a: seq<byte>, b: seq<byte>, h: nat, i: nat, j: nat)
    requires LevelAlike(a, b, h) && h < i <= j <= |a|
    ensures a[i..j] == b[i..j]
  {
  }

  /** Whatever the level bits of a received control octet say, the frame is understood alike. */
  lemma InspectIgnoresLevel(a: seq<byte>, b: seq<byte>)
    requires Inspect(a).Done? && LevelAlike(a, b, Inspect(a).value.meta.headerLength)
    ensures Inspect(b) == Inspect(a)
  {
    var h := Inspect(a).value.meta.headerLength;
    ReadApsSame(a, b);
    LevelBits(a[h], b[h]);
    SliceAlike(a, b, h, h + 5, h + 13);
    hide ReadAps, LevelAlike;
  }

  /** Neither key, counter, source nor text depends on them: wires that differ there open to the same frame and metadata, or neither opens. */
  lemma LevelBitsUnauthenticated(e: CcmSpec.Cipher, key: Key, a: seq<byte>, b: seq<byte>, capacity: nat)
    requires |key.source| == 8 && OpenPlan(key, a, capacity).Done?
    requires LevelAlike(a, b, OpenPlan(key, a, capacity).value.meta.headerLength)
    ensures OpenFrame(e, key, b, capacity) == OpenFrame(e, key, a, capacity)
  {
    PlanMeansInspected(key, a, capacity);
    var m := OpenPlan(key, a, capacity).value.meta;
    hide Inspect, OpenPlan, Opened, LevelAlike;
    InspectIgnoresLevel(a, b);
    PlanByInspection(key, a, b, capacity);
    OpenedAlike(e, key, a, b, m);
  }

  lemma PlanMeansInspected(key: Key, wire: seq<byte>, capacity: nat)
    requires |key.source| == 8 && OpenPlan(key, wire, capacity).Done?
    ensures Inspect(wire) == OpenPlan(key, wire, capacity)
  {
    hide Inspect;
  }

  lemma PlanByInspection(key: Key, a: seq<byte>, b: seq<byte>, capacity: nat)
    requires |key.source| == 8 && Inspect(a) == Inspect(b)
    ensures OpenPlan(key, a, capacity) == OpenPlan(key, b, capacity)
  {
    hide Inspect;
  }

  lemma OpenedAlike(e: CcmSpec.Cipher, key: Key, wire: seq<byte>, w: seq<byte>, m: Meta)
    requires |key.source| == 8 && 0 < m.headerLength && |wire| == m.headerLength + 13 + m.payloadLength + TAG_LENGTH <= Aps.MAX_BODY
    requires LevelAlike(wire, w, m.headerLength)
    ensures Opened(e, key, w, m) == Opened(e, key, wire, m)
  {
    var h := m.headerLength;
    assert w[..h] == wire[..h] && w[h + 13..] == wire[h + 13..];
    hide Authenticated, CcmSpec.Open;
  }

  /** Two accepted wires open alike if and only if they agree once the level bits are cleared. */
  lemma OpensAlike(e: CcmSpec.Cipher, key: Key, a: seq<byte>, b: seq<byte>, capacity: nat)
    requires |key.source| == 8 && OpenFrame(e, key, a, capacity).Done? && OpenFrame(e, key, b, capacity).Done?
    ensures var h := OpenFrame(e, key, a, capacity).value.1.headerLength;
            OpenFrame(e, key, a, capacity) == OpenFrame(e, key, b, capacity) <==> LevelCleared(a, h) == LevelCleared(b, h)
  {
    var h := OpenFrame(e, key, a, capacity).value.1.headerLength;
    SealUndoesOpen(e, key, a, capacity, |a| + |b|);
    SealUndoesOpen(e, key, b, capacity, |a| + |b|);
    if LevelCleared(a, h) == LevelCleared(b, h) {
      ClearedAlike(a, b, h);
      LevelBitsUnauthenticated(e, key, a, b, capacity);
    }
    hide OpenFrame, SealFrame, LevelAlike;
  }

  lemma ClearedAlike(a: seq<byte>, b: seq<byte>, h: nat)
    requires h < |a| && LevelCleared(a, h) == LevelCleared(b, h)
    ensures LevelAlike(a, b, h)
  {
    var c, d := LevelCleared(a, h), LevelCleared(b, h);
    assert |a| == |b| && c[h] == a[h] & 0xf8 && d[h] == b[h] & 0xf8;
    forall i | 0 <= i < |a| && i != h
      ensures a[i] == b[i]
    {
      assert c[i] == a[i] && d[i] == b[i];
    }
  }

  /** The wire with these level bits. */
  function AtLevel(wire: seq<byte>, h: nat, v: byte): (r: seq<byte>)
    requires h < |wire|
    ensures |r| == |wire|
  {
    wire[h := (wire[h] & 0xf8) | v]
  }

  /** So every frame that opens does so from eight wires, one for each value of the level bits. */
  lemma EightWires(e: CcmSpec.Cipher, key: Key, wire: seq<byte>, capacity: nat, v: byte)
    requires |key.source| == 8 && OpenFrame(e, key, wire, capacity).Done? && v < 8
    ensures var h := OpenFrame(e, key, wire, capacity).value.1.headerLength;
            h < |wire| && OpenFrame(e, key, AtLevel(wire, h, v), capacity) == OpenFrame(e, key, wire, capacity)
            && (AtLevel(wire, h, v) == wire <==> v == wire[h] & 7)
  {
    SealUndoesOpen(e, key, wire, capacity, |wire|);
    var h := OpenFrame(e, key, wire, capacity).value.1.headerLength;
    hide AtLevel, LevelAlike, SealFrame;
    LeveledAlike(wire, h, v);
    LevelBitsUnauthenticated(e, key, wire, AtLevel(wire, h, v), capacity);
  }

  lemma LeveledAlike(wire: seq<byte>, h: nat, v: byte)
    requires h < |wire| && v < 8
    ensures LevelAlike(wire, AtLevel(wire, h, v), h) && (AtLevel(wire, h, v) == wire <==> v == wire[h] & 7)
  {
    LevelSet(wire[h], v);
    var w := AtLevel(wire, h, v);
    assert w[h] == (wire[h] & 0xf8) | v;
    if v == wire[h] & 7 {
      assert w == wire;
    }
  }

  lemma LevelSet(c: byte, v: byte)
    requires v < 8
    ensures ((c & 0xf8) | v) & 0xf8 == c & 0xf8 && ((c & 0xf8) | v == c <==> v == c & 7)
  {
  }

  lemma PlanOfOpened(e: CcmSpec.Cipher, key: Key, wire: seq<byte>, capacity: nat, room: nat)
    requires |key.source| == 8 && OpenFrame(e, key, wire, capacity).Done? && room >= |wire|
    ensures var plan := OpenPlan(key, wire, capacity).value;
            SealPlan(key.(counter := plan.meta.counter), Opened(e, key, wire, plan.meta).value, room) == Done(plan)
  {
    hide CcmSpec.Open, CcmSpec.Ctr, Nonce, Authenticated;
    var plan := OpenPlan(key, wire, capacity).value;
    var frame := Opened(e, key, wire, plan.meta).value;
    OpenedParts(e, key, wire, capacity);
    SecurityFlagRestored(wire[0]);
    SecurityFlagNeutral(frame[0]);
    ReadApsCleared(wire, frame);
    ReceivedControl(wire[plan.meta.headerLength]);
  }

  /** What an admitted received frame carries ahead of its text. */
  lemma InspectedParts(key: Key, wire: seq<byte>, capacity: nat)
    requires |key.source| == 8 && OpenPlan(key, wire, capacity).Done?
    ensures var m := OpenPlan(key, wire, capacity).value.meta;
            var h := m.headerLength;
            && wire[0] & Aps.FLAG_SECURITY != 0
            && wire[h] & 0xf8 == TrustedControl(key.keyIdentifier) & 0xf8
            && wire[h + 1..h + 5] == CounterOctets(m.counter)
            && wire[h + 5..h + 13] == key.source
  {
    hide ReadAps, CounterValue, CounterOctets, TrustedControl;
    var h := OpenPlan(key, wire, capacity).value.meta.headerLength;
    assert wire[h + 1..h + 5] == [wire[h + 1], wire[h + 2], wire[h + 3], wire[h + 4]];
    ReceivedControl(wire[h]);
    CounterBytes(wire[h + 1], wire[h + 2], wire[h + 3], wire[h + 4]);
  }

  lemma SealedOfOpened(e: CcmSpec.Cipher, key: Key, wire: seq<byte>, capacity: nat)
    requires |key.source| == 8 && OpenFrame(e, key, wire, capacity).Done?
    ensures var m := OpenPlan(key, wire, capacity).value.meta;
            var h := m.headerLength;
            Sealed(e, key.(counter := m.counter), Opened(e, key, wire, m).value, h) == wire[h := wire[h] & 0xf8]
  {
    hide ReadAps, Inspect, CcmSpec.Seal, CcmSpec.Open;
    var m := OpenPlan(key, wire, capacity).value.meta;
    var h := m.headerLength;
    var k := key.(counter := m.counter);
    var frame := Opened(e, key, wire, m).value;
    InspectedParts(key, wire, capacity);
    OpenedParts(e, key, wire, capacity);
    SealedParts(e, k, frame, h);
    SameHeaders(wire, frame, h);
    assert Authenticated(k, m.counter, frame[..h]) == Authenticated(key, m.counter, wire[..h]);
    SealedText(e, key, m.counter, wire, frame, h);
    SecurityFlagRestored(wire[0]);
    SplitAtAuxiliary(Sealed(e, k, frame, h), wire[h := wire[h] & 0xf8], h);
  }

  lemma SealedText(e: CcmSpec.Cipher, key: Key, counter: bv32, wire: seq<byte>, frame: seq<byte>, h: nat)
    requires |key.source| == 8 && 0 < h <= |frame| && h + 17 <= |wire| <= Aps.MAX_BODY && |frame| <= Aps.MAX_BODY
    requires CcmSpec.Open(e, key.key, Nonce(key, counter), Authenticated(key, counter, wire[..h]),
                          wire[h + 13..], TAG_LENGTH) == CcmSpec.Some(frame[h..])
    ensures CcmSpec.Seal(e, key.key, Nonce(key, counter), Authenticated(key, counter, wire[..h]),
                         frame[h..], TAG_LENGTH) == wire[h + 13..]
  {
    CcmSpec.SealUndoesOpen(e, key.key, Nonce(key, counter), Authenticated(key, counter, wire[..h]),
                           wire[h + 13..], TAG_LENGTH);
  }

  lemma OpenedParts(e: CcmSpec.Cipher, key: Key, wire: seq<byte>, capacity: nat)
    requires |key.source| == 8 && OpenFrame(e, key, wire, capacity).Done?
    ensures var m := OpenPlan(key, wire, capacity).value.meta;
            var h := m.headerLength;
            var frame := Opened(e, key, wire, m).value;
            && |frame| == h + m.payloadLength
            && frame[0] == wire[0] & !Aps.FLAG_SECURITY && frame[1..h] == wire[1..h]
            && CcmSpec.Open(e, key.key, Nonce(key, m.counter), Authenticated(key, m.counter, wire[..h]),
                            wire[h + 13..], TAG_LENGTH) == CcmSpec.Some(frame[h..])
  {
    hide ReadAps, Inspect, CcmSpec.Open;
    var m := OpenPlan(key, wire, capacity).value.meta;
    var h := m.headerLength;
    var head := wire[..h][0 := wire[0] & !Aps.FLAG_SECURITY];
    var frame := Opened(e, key, wire, m).value;
    assert frame[..h] == head;
    assert frame[1..h] == head[1..h] == wire[1..h];
  }

  lemma SameHeaders(wire: seq<byte>, frame: seq<byte>, h: nat)
    requires 0 < h <= |wire| && h <= |frame| && frame[1..h] == wire[1..h]
    requires wire[0] & Aps.FLAG_SECURITY != 0 && frame[0] == wire[0] & !Aps.FLAG_SECURITY
    ensures frame[..h][0 := frame[0] | Aps.FLAG_SECURITY] == wire[..h][0 := wire[0] | Aps.FLAG_SECURITY] == wire[..h]
  {
    SecurityFlagRestored(wire[0]);
    assert wire[0] | Aps.FLAG_SECURITY == wire[0];
    forall i | 1 <= i < h
      ensures frame[i] == wire[i]
    {
      assert wire[i] == wire[1..h][i - 1] && frame[i] == frame[1..h][i - 1];
    }
  }

  /** Equality of two frames, part by part. */
  lemma SplitAtAuxiliary(a: seq<byte>, b: seq<byte>, h: nat)
    requires |a| == |b| && 0 < h && h + 13 <= |a|
    requires a[0] == b[0] && a[1..h] == b[1..h] && a[h] == b[h]
    requires a[h + 1..h + 5] == b[h + 1..h + 5] && a[h + 5..h + 13] == b[h + 5..h + 13] && a[h + 13..] == b[h + 13..]
    ensures a == b
  {
    assert a == [a[0]] + a[1..h] + [a[h]] + a[h + 1..h + 5] + a[h + 5..h + 13] + a[h + 13..];
    assert b == [b[0]] + b[1..h] + [b[h]] + b[h + 1..h + 5] + b[h + 5..h + 13] + b[h + 13..];
  }

  // ---------- the operation ----------

  datatype Status = Ok | Error(code: Code)

  datatype Report = Report(meta: Meta, crypto: Ccm.Info, length: nat)

  function PlanOf(open: nat, key: Key, frame: seq<byte>, capacity: nat): (r: Result<Plan>)
    requires |key.source| == 8
  {
    if open > 1 then Failed(Argument)
    else if open == 1 then OpenPlan(key, frame, capacity)
    else SealPlan(key, frame, capacity)
  }

  function FrameOf(e: CcmSpec.Cipher, open: nat, key: Key, frame: seq<byte>, capacity: nat): Result<(seq<byte>, Meta)>
    requires |key.source| == 8
  {
    if open == 1 then OpenFrame(e, key, frame, capacity) else SealFrame(e, key, frame, capacity)
  }

  class Envelope {
    const ccm: Ccm.Engine
    const frame: array<byte>
    const text: array<byte>
    const written: array<nat>
    const crypto: array<Ccm.Info>

    ghost predicate Valid()
      reads ccm, ccm.aes
    {
      && ccm.Valid() && Shape()
    }

    ghost predicate Shape() {
      && frame.Length == BUFFER && text.Length == BUFFER && written.Length == 1 && crypto.Length == 1
      && frame != text && {frame, text} !! {ccm.mac, ccm.block, ccm.work}
      && text as object != written && text as object != crypto && written as object != crypto
      && frame as object != written && frame as object != crypto
    }

    constructor (ccm: Ccm.Engine)
      requires ccm.Valid()
      ensures Valid() && this.ccm == ccm && fresh({this, frame, text}) && fresh(written) && fresh(crypto)
    {
      this.ccm := ccm;
      frame, text := new byte[BUFFER], new byte[BUFFER];
      written, crypto := new nat[1], new Ccm.Info[1];
    }

    /** Copy a run of octets behind the first `at` octets of the frame buffer. */
    method Append(at: nat, s: seq<byte>)
      requires at + |s| <= frame.Length
      modifies frame
      ensures frame[..at + |s|] == old(frame[..at]) + s
    {
      forall i | 0 <= i < |s| { frame[at + i] := s[i]; }
    }

    /** Header marked secured, trusted control, counter, source. */
    method BuildAad(key: Key, input: seq<byte>, h: nat)
      requires Shape() && |key.source| == 8 && 0 < h <= |input| && |input| + 13 <= BUFFER
      modifies frame
      ensures frame[..h + 13] == Authenticated(key, key.counter, input[..h])
    {
      hide CounterOctets, TrustedControl, Authenticated;
      var control, counter := TrustedControl(key.keyIdentifier), CounterOctets(key.counter);
      Append(0, input[..h]);
      frame[0] := frame[0] | Aps.FLAG_SECURITY;
      ghost var head := input[..h][0 := input[0] | Aps.FLAG_SECURITY];
      assert frame[..h] == head;
      hide *;
      Append(h, [control]);
      assert frame[..h + 1] == head + [control];
      Append(h + 1, counter);
      assert frame[..h + 5] == head + [control] + counter;
      Append(h + 5, key.source);
      assert frame[..h + 13] == head + [control] + counter + key.source;
      AuthenticatedByParts(key, key.counter, input[..h]);
    }

    method BuildSealed(key: Key, input: seq<byte>, h: nat)
      requires Shape() && |key.source| == 8 && 0 < h <= |input| && |input| + 13 <= BUFFER
      modifies frame
      ensures frame[..|input| + 13] == Authenticated(key, key.counter, input[..h]) + input[h..]
    {
      hide Authenticated;
      BuildAad(key, input, h);
      Append(h + 13, input[h..]);
    }

    /** The received octets with the three level bits of the control octet replaced. */
    method BuildOpened(input: seq<byte>, h: nat)
      requires Shape() && h < |input| <= BUFFER
      modifies frame
      ensures frame[..|input|] == input[h := (input[h] & 0xf8) | 5]
    {
      Append(0, input);
      frame[h] := (frame[h] & 0xf8) | 5;
    }

    /** Hand the frame buffer to the cipher mode: additional data up to h + 13, input behind it. */
    method RunCcm(open: nat, key: Key, h: nat, n: nat, ghost counter: bv32, ghost header: seq<byte>, ghost payload: seq<byte>)
      returns (r: Ccm.Result)
      requires Valid() && |key.source| == 8 && open <= 1 && LimitsUsable(key.limits)
      requires 0 < h == |header| <= 8 && n == h + 13 + |payload| <= BUFFER
      requires |payload| + 4 <= BUFFER && (open == 1 ==> TAG_LENGTH <= |payload|)
      requires frame[..n] == Authenticated(key, counter, header) + payload
      modifies ccm, ccm.aes, ccm.mac, ccm.block, ccm.work, text, written, crypto
      ensures Valid()
      ensures Ccm.Ran(ccm.aes.replies, old(ccm.aes.calls), ccm.aes.calls,
                      CcmSpec.CipherCalls(Ccm.MessageSize(open, |payload|, TAG_LENGTH), h + 13), r != Ccm.Aes)
      ensures crypto[0] == Ccm.Tally(ccm.aes.replies, old(ccm.aes.calls), ccm.aes.calls)
      ensures r != Ccm.Aes ==>
                match Ccm.Text(ccm.aes.encrypt, open, key.key, Nonce(key, counter), Authenticated(key, counter, header),
                               payload, TAG_LENGTH)
                case None => r == Ccm.Auth
                case Some(t) => r == Ccm.Ok && |t| == written[0] <= BUFFER && text[..|t|] == t
    {
      hide Ccm.Text, CcmSpec.CipherCalls, Ccm.Ran, Ccm.Tally, Authenticated, CounterOctets, TrustedControl;
      ghost var aad := Authenticated(key, counter, header);
      AuthenticatedByParts(key, counter, header);
      assert frame[..h + 13] == aad && frame[h + 13..n] == payload by {
        assert frame[..h + 13] == frame[..n][..h + 13] && frame[h + 13..n] == frame[..n][h + 13..];
      }
      var nonce := key.source + frame[h + 1..h + 5] + [frame[h]];
      assert frame[h] == aad[h] && frame[h + 1..h + 5] == aad[h + 1..h + 5];
      r := ccm.Crypt(open, key.key, nonce, frame[..h + 13], frame[h + 13..n], TAG_LENGTH,
                     text, BUFFER, written, key.limits, crypto);
    }

    /** Put the plain text behind the header and clear its security flag. */
    method FinishOpened(h: nat, plain: seq<byte>)
      requires Shape() && 0 < h && h + |plain| <= BUFFER
      modifies frame
      ensures frame[..h + |plain|] == old(frame[..h])[0 := old(frame[0]) & !Aps.FLAG_SECURITY] + plain
    {
      frame[0] := frame[0] & !Aps.FLAG_SECURITY;
      Append(h, plain);
    }

    /** Put ciphertext and MIC behind the auxiliary header and zero the level bits on the wire. */
    method FinishSealed(h: nat, cipher: seq<byte>)
      requires Shape() && h + 13 + |cipher| <= BUFFER
      modifies frame
      ensures frame[..h + 13 + |cipher|] == old(frame[..h + 13])[h := old(frame[h]) & 0xf8] + cipher
    {
      frame[h] := frame[h] & 0xf8;
      Append(h + 13, cipher);
    }

    /** The frame buffer and the result agree with the outcome: its octets, or an authentication failure. */
    ghost predicate Framed(result: Status, outcome: Result<(seq<byte>, Meta)>)
      reads frame
    {
      match outcome
      case Failed(_) => result == Error(AuthFailure)
      case Done((t, _)) => result == Ok && |t| <= frame.Length && frame[..|t|] == t
    }

    method SealInBuffer(key: Key, input: seq<byte>, h: nat) returns (r: Ccm.Result)
      requires Valid() && |key.source| == 8 && LimitsUsable(key.limits)
      requires 0 < h <= 8 && h <= |input| && |input| + 17 <= Aps.MAX_BODY
      modifies ccm, ccm.aes, ccm.mac, ccm.block, ccm.work, frame, text, written, crypto
      ensures Valid()
      ensures Ccm.Ran(ccm.aes.replies, old(ccm.aes.calls), ccm.aes.calls,
                      CcmSpec.CipherCalls(|input| - h, h + 13), r != Ccm.Aes)
      ensures crypto[0] == Ccm.Tally(ccm.aes.replies, old(ccm.aes.calls), ccm.aes.calls)
      ensures r != Ccm.Aes ==> r == Ccm.Ok && frame[..|input| + 17] == Sealed(ccm.aes.encrypt, key, input, h)
    {
      hide Authenticated, Nonce, CcmSpec.Seal, CcmSpec.CipherCalls, Ccm.Ran, Ccm.Tally, LimitsUsable;
      BuildSealed(key, input, h);
      r := RunCcm(0, key, h, |input| + 13, key.counter, input[..h], input[h..]);
      if r == Ccm.Ok {
        ghost var aad := Authenticated(key, key.counter, input[..h]);
        assert frame[..h + 13] == frame[..|input| + 13][..h + 13] == aad;
        FinishSealed(h, text[..written[0]]);
      }
    }

    method OpenInBuffer(key: Key, input: seq<byte>, ghost m: Meta, h: nat) returns (r: Ccm.Result)
      requires Valid() && |key.source| == 8 && LimitsUsable(key.limits)
      requires m.headerLength == h && 0 < h <= 8 && |input| == h + 13 + m.payloadLength + TAG_LENGTH <= Aps.MAX_BODY
      requires input[h := (input[h] & 0xf8) | 5] == Authenticated(key, m.counter, input[..h]) + input[h + 13..]
      modifies ccm, ccm.aes, ccm.mac, ccm.block, ccm.work, frame, text, written, crypto
      ensures Valid()
      ensures Ccm.Ran(ccm.aes.replies, old(ccm.aes.calls), ccm.aes.calls,
                      CcmSpec.CipherCalls(m.payloadLength, h + 13), r != Ccm.Aes)
      ensures crypto[0] == Ccm.Tally(ccm.aes.replies, old(ccm.aes.calls), ccm.aes.calls)
      ensures r != Ccm.Aes ==>
                match Opened(ccm.aes.encrypt, key, input, m)
                case None => r == Ccm.Auth
                case Some(t) => r == Ccm.Ok && frame[..|t|] == t
    {
      hide Authenticated, Nonce, CcmSpec.Open, CcmSpec.CipherCalls, Ccm.Ran, Ccm.Tally, LimitsUsable;
      BuildOpened(input, h);
      assert frame[..h] == frame[..|input|][..h] == input[..h];
      ghost var head := frame[..h];
      r := RunCcm(1, key, h, |input|, m.counter, input[..h], input[h + 13..]);
      if r == Ccm.Ok {
        assert frame[..h] == head;
        FinishOpened(h, text[..written[0]]);
      }
    }

    method SealNow(key: Key, input: seq<byte>, plan: Plan, ghost capacity: nat) returns (result: Status)
      requires Valid() && |key.source| == 8 && SealPlan(key, input, capacity) == Done(plan)
      modifies ccm, ccm.aes, ccm.mac, ccm.block, ccm.work, frame, text, written, crypto
      ensures Valid()
      ensures Ccm.Ran(ccm.aes.replies, old(ccm.aes.calls), ccm.aes.calls,
                      CcmSpec.CipherCalls(plan.meta.payloadLength, plan.meta.headerLength + 13), result != Error(AesFailure))
      ensures crypto[0] == Ccm.Tally(ccm.aes.replies, old(ccm.aes.calls), ccm.aes.calls)
      ensures result != Error(AesFailure) ==> Framed(result, SealFrame(ccm.aes.encrypt, key, input, capacity))
    {
      hide SealPlan, Sealed, ReadAps, CcmSpec.CipherCalls, Ccm.Ran, Ccm.Tally, LimitsUsable;
      hide Admit, KeyCheck, ShortHeader, ControlSupported, CounterOctets, TrustedControl;
      SealPlanFacts(key, input, capacity);
      var r := SealInBuffer(key, input, plan.meta.headerLength);
      result := if r == Ccm.Aes then Error(AesFailure) else Ok;
    }

    method OpenNow(key: Key, input: seq<byte>, plan: Plan, ghost capacity: nat) returns (result: Status)
      requires Valid() && |key.source| == 8 && OpenPlan(key, input, capacity) == Done(plan)
      modifies ccm, ccm.aes, ccm.mac, ccm.block, ccm.work, frame, text, written, crypto
      ensures Valid()
      ensures Ccm.Ran(ccm.aes.replies, old(ccm.aes.calls), ccm.aes.calls,
                      CcmSpec.CipherCalls(plan.meta.payloadLength, plan.meta.headerLength + 13), result != Error(AesFailure))
      ensures crypto[0] == Ccm.Tally(ccm.aes.replies, old(ccm.aes.calls), ccm.aes.calls)
      ensures result != Error(AesFailure) ==> Framed(result, OpenFrame(ccm.aes.encrypt, key, input, capacity))
    {
      hide OpenPlan, Opened, Authenticated, Inspect, ReadAps, CcmSpec.CipherCalls, Ccm.Ran, Ccm.Tally, LimitsUsable;
      hide AuxiliaryLength, Admit, KeyCheck, ShortHeader, ControlSupported, CounterValue, CounterOctets, TrustedControl;
      OpenPlanFacts(key, input, capacity);
      TrustedFrame(key, input, capacity);
      var r := OpenInBuffer(key, input, plan.meta, plan.meta.headerLength);
      result := if r == Ccm.Aes then Error(AesFailure) else if r == Ccm.Auth then Error(AuthFailure) else Ok;
    }

    /**
     Seal (open = 0) or open (open = 1) one APS frame. Syntax, key, space and limit errors come before any
     cipher call; every error leaves output and report as they were.
     */
    method Crypt(open: nat, key: Key, input: seq<byte>, output: array<byte>, capacity: nat, report: array<Report>)
      returns (result: Status)
      requires Valid() && |key.source| == 8 && capacity <= output.Length && report.Length == 1
      requires output !in {frame, text, ccm.mac, ccm.block, ccm.work}
      requires output as object != written && output as object != crypto && output as object != report
      requires report as object != written && report as object != crypto && report as object != frame && report as object != text
      requires report as object != ccm.mac && report as object != ccm.block && report as object != ccm.work
      modifies ccm, ccm.aes, ccm.mac, ccm.block, ccm.work, frame, text, written, crypto, output, report
      ensures Valid()
      ensures match PlanOf(open, key, input, capacity)
              case Failed(code) =>
                result == Error(code) && ccm.aes.calls == old(ccm.aes.calls)
              case Done(plan) =>
                && Ccm.Ran(ccm.aes.replies, old(ccm.aes.calls), ccm.aes.calls,
                           CcmSpec.CipherCalls(plan.meta.payloadLength, plan.meta.headerLength + 13),
                           result != Error(AesFailure))
                && (result != Error(AesFailure) ==>
                      match FrameOf(ccm.aes.encrypt, open, key, input, capacity)
                      case Failed(_) => result == Error(AuthFailure)
                      case Done((t, meta)) =>
                        && result == Ok && |t| <= capacity
                        && output[..] == t + old(output[|t|..])
                        && report[0] == Report(meta, Ccm.Tally(ccm.aes.replies, old(ccm.aes.calls), ccm.aes.calls), |t|))
      ensures result != Ok ==> output[..] == old(output[..]) && report[0] == old(report[0])
    {
      hide SealPlan, OpenPlan, FrameOf, Ccm.Ran, Ccm.Tally, CcmSpec.CipherCalls;
      if open > 1 {
        return Error(Argument);
      }
      var plan := PlanOf(open, key, input, capacity);
      if plan.Failed? {
        return Error(plan.code);
      }
      var total: nat;
      result, total := Run(open, key, input, plan.value, capacity);
      if result == Ok {
        CopyOut(total, output);
        report[0] := Report(plan.value.meta, crypto[0], total);
      }
    }

    method Run(open: nat, key: Key, input: seq<byte>, plan: Plan, ghost capacity: nat) returns (result: Status, total: nat)
      requires Valid() && |key.source| == 8 && PlanOf(open, key, input, capacity) == Done(plan)
      modifies ccm, ccm.aes, ccm.mac, ccm.block, ccm.work, frame, text, written, crypto
      ensures Valid()
      ensures Ccm.Ran(ccm.aes.replies, old(ccm.aes.calls), ccm.aes.calls,
                      CcmSpec.CipherCalls(plan.meta.payloadLength, plan.meta.headerLength + 13), result != Error(AesFailure))
      ensures crypto[0] == Ccm.Tally(ccm.aes.replies, old(ccm.aes.calls), ccm.aes.calls)
      ensures result != Error(AesFailure) ==>
                match FrameOf(ccm.aes.encrypt, open, key, input, capacity)
                case Failed(_) => result == Error(AuthFailure)
                case Done((t, meta)) =>
                  result == Ok && |t| == total <= capacity && total <= BUFFER && frame[..total] == t && meta == plan.meta
      ensures result == Ok ==> FrameOf(ccm.aes.encrypt, open, key, input, capacity).Done?
    {
      hide SealPlan, OpenPlan, Sealed, Opened, Ccm.Ran, Ccm.Tally, CcmSpec.CipherCalls;
      if open == 1 {
        OpenPlanFacts(key, input, capacity);
        result := OpenNow(key, input, plan, capacity);
        total := plan.meta.headerLength + plan.meta.payloadLength;
      } else {
        SealPlanFacts(key, input, capacity);
        result := SealNow(key, input, plan, capacity);
        total := |input| + 17;
      }
    }

    method CopyOut(total: nat, output: array<byte>)
      requires total <= frame.Length && total <= output.Length && output != frame
      modifies output
      ensures output[..] == frame[..total] + old(output[total..])
    {
      ghost var rest, text := output[total..], frame[..total];
      forall i | 0 <= i < total { output[i] := frame[i]; }
      assert output[..] == text + rest;
    }
  }

  /** The additional data, part by part; the nonce takes counter and control octet from it. */
  lemma AuthenticatedByParts(key: Key, counter: bv32, header: seq<byte>)
    requires |key.source| == 8 && |header| > 0
    ensures var aad, h := Authenticated(key, counter, header), |header|;
            && aad == header[0 := header[0] | Aps.FLAG_SECURITY] + [TrustedControl(key.keyIdentifier)] + CounterOctets(counter) + key.source
            && aad[h] == TrustedControl(key.keyIdentifier) && aad[h + 1..h + 5] == CounterOctets(counter)
  {
    hide CounterOctets, TrustedControl;
  }

  lemma SealPlanFacts(key: Key, frame: seq<byte>, capacity: nat)
    requires |key.source| == 8 && SealPlan(key, frame, capacity).Done?
    ensures var m := SealPlan(key, frame, capacity).value.meta;
            && |frame| == m.headerLength + m.payloadLength && |frame| + 17 <= capacity
            && m.headerLength <= 8 && LimitsUsable(key.limits)
  {
    hide ReadAps, ShortHeader;
  }

  lemma OpenPlanFacts(key: Key, frame: seq<byte>, capacity: nat)
    requires |key.source| == 8 && OpenPlan(key, frame, capacity).Done?
    ensures var m := OpenPlan(key, frame, capacity).value.meta;
            m.headerLength <= 8 && m.headerLength + m.payloadLength <= capacity && LimitsUsable(key.limits)
  {
    hide ReadAps, ShortHeader, CounterValue, CounterOctets, TrustedControl;
  }

  /** A received frame, level replaced, is the sealer's additional data ahead of ciphertext and MIC. */
  lemma TrustedFrame(key: Key, frame: seq<byte>, capacity: nat)
    requires |key.source| == 8 && OpenPlan(key, frame, capacity).Done?
    ensures var m := OpenPlan(key, frame, capacity).value.meta;
            var h := m.headerLength;
            frame[h := (frame[h] & 0xf8) | 5] == Authenticated(key, m.counter, frame[..h]) + frame[h + 13..]
  {
    InspectedParts(key, frame, capacity);
    var m := OpenPlan(key, frame, capacity).value.meta;
    IdentifierBound(key, frame, capacity);
    ForcedLevel(frame[m.headerLength], key.keyIdentifier);
    SecurityFlagSet(frame[0]);
    AuthenticatedByParts(key, m.counter, frame[..m.headerLength]);
    FrameByParts(key, frame, m.headerLength, m.counter);
  }

  lemma FrameByParts(key: Key, frame: seq<byte>, h: nat, counter: bv32)
    requires |key.source| == 8 && 0 < h && h + 13 <= |frame|
    requires frame[0] | Aps.FLAG_SECURITY == frame[0] && (frame[h] & 0xf8) | 5 == TrustedControl(key.keyIdentifier)
    requires frame[h + 1..h + 5] == CounterOctets(counter) && frame[h + 5..h + 13] == key.source
    ensures frame[h := (frame[h] & 0xf8) | 5] == Authenticated(key, counter, frame[..h]) + frame[h + 13..]
  {
    hide CounterOctets, TrustedControl;
    assert frame[..h][0 := frame[0] | Aps.FLAG_SECURITY] == frame[..h];
    assert frame == frame[..h] + [frame[h]] + frame[h + 1..h + 5] + frame[h + 5..h + 13] + frame[h + 13..];
  }

  lemma IdentifierBound(key: Key, frame: seq<byte>, capacity: nat)
    requires |key.source| == 8 && OpenPlan(key, frame, capacity).Done?
    ensures key.keyIdentifier <= 3
  {
    hide ReadAps, Inspect, Admit;
  }

  lemma SecurityFlagSet(c: byte)
    requires c & Aps.FLAG_SECURITY != 0
    ensures c | Aps.FLAG_SECURITY == c
  {
  }

  lemma ForcedLevel(c: byte, id: byte)
    requires c & 0xf8 == TrustedControl(id) & 0xf8 && id <= 3
    ensures (c & 0xf8) | 5 == TrustedControl(id)
  {
  }
}
