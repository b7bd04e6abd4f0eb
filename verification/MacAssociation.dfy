/**
 A bounded one-shot context that recognises the Association Response of one selected coordinator
 (section 7.5.3.1 of IEEE 802.15.4-2006), over time and generation counters of 32 bits.
 */
module MacAssociation {
  import opened Bytes
  import opened Words
  import opened MacFrame
  import opened MacFrameLaws

  const VERSION := 1
  const MAX_LIFETIME := 65535
  const MAX_WORK := 4096
  const UINT32_MAX := 0xffff_ffff

  datatype Phase = Idle | Wait | Finished

  datatype Outcome = Okay | Invalid | BadState | GenerationLimit

  datatype Decision =
    | Waiting | Response | BadCrc | Malformed | Mismatch | Stale | Expired | Exhausted | Cancelled

  datatype Relation = Unbound | Matched

  datatype AddressKind = NoAddress | Allocated | ExtendedOnly | Refused

  datatype Request = Request(epoch: word, lifetime: word, workLimit: nat, pan: bv16, channel: nat,
                             coordinatorMode: byte, coordinator: Address, local: Address)

  datatype EventKind = FrameEvent | CancelEvent | OtherEvent

  datatype Event = Event(kind: EventKind, epoch: word, generation: word, stamp: word, body: seq<byte>,
                         channel: nat, crcValid: nat)

  datatype MaybeEvent = NoEvent | Some(event: Event)

  datatype Record = Record(epoch: word, generation: word, stamp: word, shortAddress: bv16, sourceIeee: Address,
                           outcome: Decision, status: byte, addressKind: AddressKind, relation: Relation, sequence: byte)

  const BLANK: Address := [0, 0, 0, 0, 0, 0, 0, 0]

  function BlankRecord(epoch: word, generation: word): Record {
    Record(epoch, generation, 0, 0, BLANK, Waiting, 0, NoAddress, Unbound, 0)
  }

  /** A snapshot of the context's fields. */
  datatype State = State(request: Request, record: Record, generation: word, openedAt: word, last: word,
                         remaining: nat, version: nat, phase: Phase)

  predicate RequestValid(r: Request) {
    && r.epoch != 0 && 0 < r.lifetime <= MAX_LIFETIME && 0 < r.workLimit <= MAX_WORK
    && r.pan != 0xffff && 11 <= r.channel <= 26
    && (r.coordinatorMode == SHORT || r.coordinatorMode == EXTENDED)
    && (r.coordinatorMode == SHORT ==> !(r.coordinator[1] == 0xff && r.coordinator[0] >= 0xfe) && r.coordinator[2..] == [0, 0, 0, 0, 0, 0])
  }

  predicate EventValid(e: MaybeEvent) {
    e.Some? ==> e.event.kind != OtherEvent && (e.event.kind == FrameEvent ==> e.event.crcValid <= 1 && 11 <= e.event.channel <= 26)
  }

  /** What the body of a frame says to a context with this request. */
  function JudgeBody(r: Request, body: seq<byte>, profile: nat): Decision {
    match Decode(body, profile)
    case Rejected(_) => Malformed
    case Done(info) =>
      var h := info.header;
      if h.kind != COMMAND then Mismatch
      else
        match CommandDecode(body[info.payloadOffset..])
        case Rejected(_) => Malformed
        case Done(c) =>
          if c.identifier != ASSOCIATION_RESPONSE || h.sourcePan != r.pan
             || (h.destinationPan != r.pan && (profile != R22 || h.destinationPan != 0xffff))
             || h.destination != r.local || (r.coordinatorMode == EXTENDED && h.source != r.coordinator) then Mismatch
          else Response
  }

  function Judge(r: Request, generation: word, last: word, now: word, e: Event, profile: nat): Decision {
    if e.epoch != r.epoch || e.generation != generation then Stale
    else if e.kind == CancelEvent then Cancelled
    else if Minus(e.stamp, last) >= HALF || Minus(now, e.stamp) >= HALF then Stale
    else if e.channel != r.channel then Mismatch
    else if e.crcValid == 0 then BadCrc
    else JudgeBody(r, e.body, profile)
  }

  predicate Terminal(d: Decision) {
    d == Response || d == Expired || d == Exhausted || d == Cancelled
  }

  function Decide(s: State, now: word, e: MaybeEvent, profile: nat): Decision {
    if Minus(now, s.openedAt) >= s.request.lifetime then Expired
    else if s.remaining == 0 then Exhausted
    else
      var d := if e.NoEvent? then Waiting else Judge(s.request, s.generation, s.last, now, e.event, profile);
      if d != Response && d != Cancelled && s.remaining == 1 then Exhausted else d
  }

  /** The record a Response leaves. */
  function ResponseRecord(r: Request, record: Record, e: Event, profile: nat): Record
    requires JudgeBody(r, e.body, profile) == Response
  {
    var info := Decode(e.body, profile).value;
    var c := CommandDecode(e.body[info.payloadOffset..]).value;
    record.(stamp := e.stamp, shortAddress := c.shortAddress, status := c.status, sequence := info.header.sequence,
              sourceIeee := info.header.source, outcome := Response,
              relation := if r.coordinatorMode == EXTENDED then Matched else Unbound,
              addressKind := if c.status != 0 then Refused else if c.shortAddress == 0xfffe then ExtendedOnly else Allocated)
  }

  predicate StepAdmitted(s: State, now: word, e: MaybeEvent, profile: nat) {
    s.version == VERSION && profile <= R22 && s.phase == Wait && Minus(now, s.last) < HALF && EventValid(e)
  }

  function StepResult(s: State, now: word, e: MaybeEvent, profile: nat): Outcome {
    if s.version != VERSION || profile > R22 then Invalid
    else if s.phase != Wait then BadState
    else if Minus(now, s.last) >= HALF || !EventValid(e) then Invalid
    else Okay
  }

  function AfterStep(s: State, now: word, e: MaybeEvent, profile: nat): State {
    if !StepAdmitted(s, now, e, profile) then s
    else
      var d := Decide(s, now, e, profile);
      var worked := Minus(now, s.openedAt) < s.request.lifetime && s.remaining > 0;
      var t := s.(last := now, remaining := if worked then s.remaining - 1 else s.remaining);
      if d == Response then t.(phase := Finished, record := ResponseRecord(s.request, s.record, e.event, profile))
      else if Terminal(d) then t.(phase := Finished, record := s.record.(outcome := d, stamp := now))
      else t
  }

  function StartResult(s: State, r: Request, now: word): Outcome {
    if s.version != VERSION || !RequestValid(r) then Invalid
    else if s.phase != Idle then BadState
    else if Minus(now, s.last) >= HALF then Invalid
    else if s.generation == UINT32_MAX then GenerationLimit
    else Okay
  }

  function AfterStart(s: State, r: Request, now: word): State {
    if StartResult(s, r, now) != Okay then s
    else s.(request := r, record := BlankRecord(r.epoch, s.generation + 1), generation := s.generation + 1,
            openedAt := now, last := now, remaining := r.workLimit, phase := Wait)
  }

  function TakeResult(s: State): Outcome {
    if s.version != VERSION then Invalid else if s.phase != Finished then BadState else Okay
  }

  function AfterTake(s: State): State {
    if TakeResult(s) == Okay then s.(phase := Idle) else s
  }

  class Association {
    var request: Request
    var record: Record
    var generation: word
    var openedAt: word
    var last: word
    var remaining: nat
    var version: nat
    var phase: Phase

    function Snapshot(): State
      reads this
    {
      State(request, record, generation, openedAt, last, remaining, version, phase)
    }

    constructor (now: word)
      ensures phase == Idle && generation == 0 && last == now && version == VERSION && remaining == 0
    {
      request := Request(0, 0, 0, 0, 0, 0, BLANK, BLANK);
      record := BlankRecord(0, 0);
      generation, openedAt, last, remaining, version, phase := 0, 0, now, 0, VERSION, Idle;
    }

    method Start(r: Request, now: word) returns (result: Outcome)
      modifies this
      ensures result == StartResult(old(Snapshot()), r, now) && Snapshot() == AfterStart(old(Snapshot()), r, now)
    {
      if version != VERSION || r.epoch == 0 || r.lifetime == 0 || r.lifetime > MAX_LIFETIME
         || r.workLimit == 0 || r.workLimit > MAX_WORK || r.pan == 0xffff || r.channel < 11 || r.channel > 26
         || (r.coordinatorMode != SHORT && r.coordinatorMode != EXTENDED) {
        return Invalid;
      }
      if r.coordinatorMode == SHORT {
        if r.coordinator[1] == 0xff && r.coordinator[0] >= 0xfe { return Invalid; }
        for i := 2 to 8
          invariant forall k :: 2 <= k < i ==> r.coordinator[k] == 0
        {
          if r.coordinator[i] != 0 {
            assert r.coordinator[2..][i - 2] != 0;
            return Invalid;
          }
        }
      }
      if phase != Idle { return BadState; }
      if Minus(now, last) >= HALF { return Invalid; }
      if generation == UINT32_MAX { return GenerationLimit; }
      request := r;
      generation := generation + 1;
      record := BlankRecord(r.epoch, generation);
      openedAt, last := now, now;
      remaining := r.workLimit;
      phase := Wait;
      result := Okay;
    }

    method StepRx(now: word, e: MaybeEvent, profile: nat) returns (result: Outcome, observation: Decision)
      modifies this
      ensures result == StepResult(old(Snapshot()), now, e, profile)
      ensures Snapshot() == AfterStep(old(Snapshot()), now, e, profile)
      ensures result == Okay ==> observation == Decide(old(Snapshot()), now, e, profile)
    {
      hide JudgeBody, Judge, ResponseRecord, EventValid, Minus;
      observation := Waiting;
      if version != VERSION || profile > R22 { return Invalid, Waiting; }
      if phase != Wait { return BadState, Waiting; }
      if Minus(now, last) >= HALF || !EventValid(e) { return Invalid, Waiting; }
      var decision := Waiting;
      if Minus(now, openedAt) >= request.lifetime {
        decision := Expired;
      } else if remaining == 0 {
        decision := Exhausted;
      } else {
        remaining := remaining - 1;
        if e.Some? {
          decision := Classify(now, e.event, profile);
        }
        if decision != Response && decision != Cancelled && remaining == 0 {
          decision := Exhausted;
        }
      }
      last := now;
      if Terminal(decision) {
        phase := Finished;
        record := record.(outcome := decision);
        if decision != Response {
          record := record.(stamp := now);
        }
      }
      result, observation := Okay, decision;
    }

    /** The event against the context; a Response fills the record. */
    method Classify(now: word, e: Event, profile: nat) returns (decision: Decision)
      modifies `record
      ensures decision == Judge(request, generation, last, now, e, profile)
      ensures decision != Response ==> record == old(record)
      ensures decision == Response ==> JudgeBody(request, e.body, profile) == Response
                                       && record.(outcome := Response) == ResponseRecord(request, old(record), e, profile)
    {
      hide CommandDecode, Decode;
      if e.epoch != request.epoch || e.generation != generation { return Stale; }
      if e.kind == CancelEvent { return Cancelled; }
      if Minus(e.stamp, last) >= HALF || Minus(now, e.stamp) >= HALF { return Stale; }
      if e.channel != request.channel { return Mismatch; }
      if e.crcValid == 0 { return BadCrc; }
      var frame := DecodeProfile(e.body, profile);
      if frame.Rejected? { return Malformed; }
      var h := frame.value.header;
      if h.kind != COMMAND { return Mismatch; }
      var command := CommandDecode(e.body[frame.value.payloadOffset..]);
      if command.Rejected? { return Malformed; }
      var c := command.value;
      if c.identifier != ASSOCIATION_RESPONSE || h.sourcePan != request.pan
         || (h.destinationPan != request.pan && (profile != R22 || h.destinationPan != 0xffff))
         || h.destination != request.local || (request.coordinatorMode == EXTENDED && h.source != request.coordinator) {
        return Mismatch;
      }
      record := record.(stamp := e.stamp, shortAddress := c.shortAddress, status := c.status, sequence := h.sequence,
                        sourceIeee := h.source,
                        relation := if request.coordinatorMode == EXTENDED then Matched else Unbound,
                        addressKind := if c.status != 0 then Refused
                                       else if c.shortAddress == 0xfffe then ExtendedOnly else Allocated);
      decision := Response;
    }

    method Take() returns (result: Outcome, taken: Record)
      modifies this
      ensures result == TakeResult(old(Snapshot())) && Snapshot() == AfterTake(old(Snapshot()))
      ensures taken == old(record)
    {
      taken := record;
      if version != VERSION { return Invalid, taken; }
      if phase != Finished { return BadState, taken; }
      phase := Idle;
      result := Okay;
    }
  }

  // ---------- which bodies are Responses ----------

  /** The facts an Association Response carries; `wide` is the destination PAN of an uncompressed one. */
  datatype Facts = Facts(pending: bool, sequence: byte, source: Address, shortAddress: bv16, status: byte, wide: bool, widePan: bv16)

  function ResponseHeader(r: Request, f: Facts): Header {
    Header(COMMAND, 0,
           FLAG_ACK_REQUEST | (if f.wide then 0 else FLAG_COMPRESSION) | (if f.pending then FLAG_PENDING else 0),
           f.sequence, EXTENDED, EXTENDED, if f.wide then f.widePan else r.pan, r.pan, r.local, f.source)
  }

  function ResponseFrame(r: Request, f: Facts): seq<byte> {
    HeaderOctets(ResponseHeader(r, f)) + CommandOctets(Command(ASSOCIATION_RESPONSE, 0, f.shortAddress, f.status, 0))
  }

  /** A status the codec knows, an address exactly when it is success, and the selected coordinator when its IEEE is known. */
  predicate FactsAcceptable(r: Request, f: Facts, profile: nat) {
    && f.status <= 2 && (f.status == 0 <==> f.shortAddress != 0xffff)
    && (r.coordinatorMode == EXTENDED ==> f.source == r.coordinator)
    && (f.wide ==> profile == R22 && (f.widePan == r.pan || f.widePan == 0xffff))
  }

  lemma ResponseControl(r: Request, f: Facts)
    ensures ControlOctets(ResponseHeader(r, f))
         == [if f.wide then (if f.pending then 0x33 else 0x23) else (if f.pending then 0x73 else 0x63), 0xcc, f.sequence]
  {
  }

  lemma ResponseAddresses(r: Request, f: Facts)
    ensures DestinationOctets(ResponseHeader(r, f)) == (if f.wide then Le16(f.widePan) else Le16(r.pan)) + r.local
    ensures SourceOctets(ResponseHeader(r, f)) == (if f.wide then Le16(r.pan) else []) + f.source
  {
    hide Low, High;
    assert r.local[..8] == r.local && f.source[..8] == f.source;
  }

  /** The whole wire form of a response, octet by octet. */
  lemma ResponseLayout(r: Request, f: Facts)
    ensures ResponseFrame(r, f)
         == [if f.wide then (if f.pending then 0x33 else 0x23) else (if f.pending then 0x73 else 0x63), 0xcc, f.sequence]
            + (if f.wide then Le16(f.widePan) else Le16(r.pan)) + r.local
            + (if f.wide then Le16(r.pan) else []) + f.source
            + [2, Low(f.shortAddress), High(f.shortAddress), f.status]
  {
    hide Low, High, ControlOctets, DestinationOctets, SourceOctets, ResponseHeader;
    var h := ResponseHeader(r, f);
    ResponseControl(r, f);
    ResponseAddresses(r, f);
    assert CommandOctets(Command(ASSOCIATION_RESPONSE, 0, f.shortAddress, f.status, 0))
        == [2, Low(f.shortAddress), High(f.shortAddress), f.status];
  }

  /** A fact sheet the context accepts makes a body it answers with Response. */
  lemma ResponseComplete(r: Request, f: Facts, profile: nat)
    requires profile <= R22 && FactsAcceptable(r, f, profile) && r.pan != 0xffff
    ensures JudgeBody(r, ResponseFrame(r, f), profile) == Response
    ensures var info := Decode(ResponseFrame(r, f), profile).value;
            && info.header.sequence == f.sequence && info.header.source == f.source
            && CommandDecode(ResponseFrame(r, f)[info.payloadOffset..])
               == Done(Command(ASSOCIATION_RESPONSE, 0, f.shortAddress, f.status, 0))
  {
    var h := ResponseHeader(r, f);
    var c := Command(ASSOCIATION_RESPONSE, 0, f.shortAddress, f.status, 0);
    var payload := CommandOctets(c);
    CommandDecodeUndoesEncode(c);
    ResponsePolicies(r, f, profile);
    DecodeOctets(h, payload, profile);
    ResponseNormal(r, f);
    hide Decode, HeaderShape, HeaderOctets, CommandDecode, AddressPolicy, PayloadPolicy, CommandOctets;
  }

  lemma ResponsePolicies(r: Request, f: Facts, profile: nat)
    requires profile <= R22 && FactsAcceptable(r, f, profile)
    ensures var h := ResponseHeader(r, f);
            var payload := CommandOctets(Command(ASSOCIATION_RESPONSE, 0, f.shortAddress, f.status, 0));
            && HeaderShape(h).Done? && AddressPolicy(h) == Ok && PayloadPolicy(h, payload, 2 * profile) == Ok
            && HeaderSize(h) <= 23 && |payload| == 4
  {
    CommandDecodeUndoesEncode(Command(ASSOCIATION_RESPONSE, 0, f.shortAddress, f.status, 0));
    hide CommandDecode;
  }

  lemma ResponseNormal(r: Request, f: Facts)
    ensures Normalised(ResponseHeader(r, f)) == ResponseHeader(r, f)
  {
    assert r.local[..8] == r.local && f.source[..8] == f.source;
  }

  /** The facts read out of a body that was answered with Response. */
  function FactsOf(r: Request, body: seq<byte>, profile: nat): Facts
    requires JudgeBody(r, body, profile) == Response
  {
    var info := Decode(body, profile).value;
    var h := info.header;
    var c := CommandDecode(body[info.payloadOffset..]).value;
    Facts(h.flags & FLAG_PENDING != 0, h.sequence, h.source, c.shortAddress, c.status, !Compressed(h), h.destinationPan)
  }

  /** Nothing else is: a body answered with Response is, octet for octet, the frame of acceptable facts. */
  lemma ResponseSound(r: Request, body: seq<byte>, profile: nat)
    requires r.pan != 0xffff && JudgeBody(r, body, profile) == Response
    ensures FactsAcceptable(r, FactsOf(r, body, profile), profile)
    ensures body == ResponseFrame(r, FactsOf(r, body, profile))
  {
    var info := Decode(body, profile).value;
    var payload := body[info.payloadOffset..];
    var f := FactsOf(r, body, profile);
    AcceptedResponse(body, profile);
    DecodedOctets(body, profile);
    CommandEncodeUndoesDecode(payload);
    ResponseFlags(info.header.flags);
    hide Decode, HeaderOctets, CommandDecode, CommandOctets;
    assert info.header == ResponseHeader(r, f);
  }

  /** Shape facts of any accepted response frame. */
  lemma AcceptedResponse(body: seq<byte>, profile: nat)
    requires Decode(body, profile).Done?
    requires var info := Decode(body, profile).value;
             && info.header.kind == COMMAND && CommandDecode(body[info.payloadOffset..]).Done?
             && CommandDecode(body[info.payloadOffset..]).value.identifier == ASSOCIATION_RESPONSE
    ensures var h := Decode(body, profile).value.header;
            && h.version == 0 && h.flags & 0x8f == 0 && h.flags & FLAG_ACK_REQUEST != 0
            && h.destinationMode == EXTENDED && h.sourceMode == EXTENDED
            && (Compressed(h) ==> h.sourcePan == h.destinationPan)
            && (!Compressed(h) ==> profile == R22)
            && var c := CommandDecode(body[Decode(body, profile).value.payloadOffset..]).value;
               c.status <= 2 && (c.status == 0 <==> c.shortAddress != 0xffff) && c.capability == 0 && c.reason == 0
  {
    var c := ControlHeader(body[0], body[1], body[2]);
    var h := WithSource(WithDestination(c, body), body);
    DecodedShape(body, c);
    hide WithSource, WithDestination, ControlHeader;
  }

  lemma ResponseFlags(flags: byte)
    requires flags & 0x8f == 0 && flags & FLAG_ACK_REQUEST != 0
    ensures flags == FLAG_ACK_REQUEST | (if flags & FLAG_COMPRESSION == 0 then 0 else FLAG_COMPRESSION)
                     | (if flags & FLAG_PENDING != 0 then FLAG_PENDING else 0)
  {
  }

  /** The two together: Response is exactly membership in the family of frames with acceptable facts. */
  lemma ResponseExactly(r: Request, body: seq<byte>, profile: nat)
    requires r.pan != 0xffff && profile <= R22
    ensures JudgeBody(r, body, profile) == Response
       <==> exists f: Facts :: FactsAcceptable(r, f, profile) && body == ResponseFrame(r, f)
  {
    hide JudgeBody, ResponseFrame, FactsAcceptable, FactsOf;
    if JudgeBody(r, body, profile) == Response {
      ResponseSound(r, body, profile);
    }
    forall f: Facts | FactsAcceptable(r, f, profile) && body == ResponseFrame(r, f)
      ensures JudgeBody(r, body, profile) == Response
    {
      ResponseComplete(r, f, profile);
    }
  }

  // ---------- each call, in its arguments' own fields ----------

  /** A request's own limits: an epoch, 1 to 65535 symbols, 1 to 4096 steps, a PAN, a channel, a coordinator's address. */
  predicate Startable(r: Request) {
    && r.epoch != 0 && 1 <= r.lifetime <= 65535 && 1 <= r.workLimit <= 4096 && r.pan != 0xffff && 11 <= r.channel <= 26
    && if r.coordinatorMode == 3 then true
       else r.coordinatorMode == 2 && 256 * (r.coordinator[1] as bv16) + r.coordinator[0] as bv16 < 0xfffe
            && forall k :: 2 <= k < 8 ==> r.coordinator[k] == 0
  }

  lemma ShortCoordinator(lo: byte, hi: byte)
    ensures 256 * (hi as bv16) + lo as bv16 < 0xfffe <==> !(hi == 0xff && lo >= 0xfe)
  {
  }

  lemma StartsExactly(s: State, r: Request, now: word)
    ensures StartResult(s, r, now) == if s.version != 1 || !Startable(r) then Invalid
                                      else if s.phase != Idle then BadState
                                      else if (now as int - s.last as int) % 0x1_0000_0000 >= 0x8000_0000 then Invalid
                                      else if s.generation == 0xffff_ffff then GenerationLimit
                                      else Okay
    ensures StartResult(s, r, now) == Okay ==>
              var t := AfterStart(s, r, now); var k := t.record;
              && t.phase == Wait && t.request == r && t.generation == s.generation + 1 && t.openedAt == t.last == now
              && t.remaining == r.workLimit && k.epoch == r.epoch && k.generation == t.generation && k.outcome == Waiting
              && k.stamp == 0 && k.shortAddress == 0 && k.status == 0 && k.sequence == 0 && k.addressKind == NoAddress
              && k.relation == Unbound && forall n :: 0 <= n < 8 ==> k.sourceIeee[n] == 0
    ensures StartResult(s, r, now) != Okay ==> AfterStart(s, r, now) == s
  {
    ShortCoordinator(r.coordinator[0], r.coordinator[1]);
    StartableIs(r);
    hide RequestValid, Startable;
  }

  lemma StartableIs(r: Request)
    ensures Startable(r) <==> RequestValid(r)
  {
    ShortCoordinator(r.coordinator[0], r.coordinator[1]);
    var rest := r.coordinator[2..];
    if forall k :: 2 <= k < 8 ==> r.coordinator[k] == 0 {
      assert rest == [0, 0, 0, 0, 0, 0];
    }
    if rest == [0, 0, 0, 0, 0, 0] {
      forall k | 2 <= k < 8
        ensures r.coordinator[k] == 0
      {
        assert r.coordinator[k] == rest[k - 2];
      }
    }
  }

  /** `t` is at or after `u`, less than half the counter's range. */
  predicate NotBefore(t: word, u: word) {
    (t as int - u as int) % 0x1_0000_0000 < 0x8000_0000
  }

  /** The event is this attempt's own. */
  predicate Own(s: State, e: MaybeEvent) {
    e.Some? && e.event.epoch == s.request.epoch && e.event.generation == s.generation
  }

  /** A frame of this attempt that counts: taken between the last step and now, on the channel, intact, and a Response. */
  predicate Heard(s: State, now: word, e: MaybeEvent, profile: nat) {
    && Own(s, e) && e.event.kind == FrameEvent && NotBefore(e.event.stamp, s.last) && NotBefore(now, e.event.stamp)
    && e.event.channel == s.request.channel && e.event.crcValid == 1 && JudgeBody(s.request, e.event.body, profile) == Response
  }

  /** The attempt is over, for this cause, at this instant. */
  predicate Over(s: State, t: State, cause: Decision, stamp: word) {
    && t.phase == Finished && t.record.outcome == cause && t.record.stamp == stamp
    && t.record.epoch == s.record.epoch && t.record.generation == s.record.generation
  }

  /** A step is admitted in a waiting context, in time order and with a well formed event. */
  lemma AdmitsExactly(s: State, now: word, e: MaybeEvent, profile: nat)
    ensures var formed := e.Some? ==> e.event.kind == CancelEvent
                                      || (e.event.kind == FrameEvent && e.event.crcValid <= 1 && 11 <= e.event.channel <= 26);
            StepResult(s, now, e, profile) == if s.version != 1 || profile > 1 then Invalid
                                              else if s.phase != Wait then BadState
                                              else if !NotBefore(now, s.last) || !formed then Invalid
                                              else Okay
    ensures StepResult(s, now, e, profile) == Okay <==> StepAdmitted(s, now, e, profile)
    ensures StepResult(s, now, e, profile) != Okay ==> AfterStep(s, now, e, profile) == s
  {
    hide JudgeBody, Decide;
  }

  /** What the step makes of its event; the cause that is reported while the attempt goes on is the first that applies. */
  lemma DecidesExactly(s: State, now: word, e: MaybeEvent, profile: nat)
    requires StepAdmitted(s, now, e, profile)
    ensures var d := Decide(s, now, e, profile); var elapsed := (now as int - s.openedAt as int) % 0x1_0000_0000;
            && (d == Expired <==> elapsed >= s.request.lifetime)
            && (elapsed < s.request.lifetime && s.remaining == 0 ==> d == Exhausted)
            && (elapsed < s.request.lifetime && s.remaining > 0 ==>
                  if Own(s, e) && e.event.kind == CancelEvent then d == Cancelled
                  else if Heard(s, now, e, profile) then d == Response
                  else if s.remaining == 1 then d == Exhausted
                  else if e.NoEvent? then d == Waiting
                  else if !Own(s, e) || !NotBefore(e.event.stamp, s.last) || !NotBefore(now, e.event.stamp) then d == Stale
                  else if e.event.channel != s.request.channel then d == Mismatch
                  else if e.event.crcValid == 0 then d == BadCrc
                  else d == JudgeBody(s.request, e.event.body, profile) && (d == Mismatch || d == Malformed))
  {
    hide JudgeBody;
    if e.Some? {
      JudgesBody(s.request, e.event.body, profile);
    }
  }

  lemma JudgesBody(r: Request, body: seq<byte>, profile: nat)
    ensures var d := JudgeBody(r, body, profile); d == Response || d == Mismatch || d == Malformed
  {
    hide Decode, CommandDecode;
  }

  /**
   A step. Past the lifetime or out of work the attempt ends; otherwise one unit of work is spent, and its own cancellation,
   a frame that counts or the last unit end it.
   */
  lemma StepsExactly(s: State, now: word, e: MaybeEvent, profile: nat)
    requires StepResult(s, now, e, profile) == Okay
    ensures var t := AfterStep(s, now, e, profile); var elapsed := (now as int - s.openedAt as int) % 0x1_0000_0000;
            && t.last == now && t.request == s.request && t.generation == s.generation && t.openedAt == s.openedAt
            && if elapsed >= s.request.lifetime then Over(s, t, Expired, now) && t.remaining == s.remaining
               else if s.remaining == 0 then Over(s, t, Exhausted, now) && t.remaining == 0
               else
                 && t.remaining == s.remaining - 1
                 && if Own(s, e) && e.event.kind == CancelEvent then Over(s, t, Cancelled, now)
                    else if Heard(s, now, e, profile) then Over(s, t, Response, e.event.stamp)
                    else if s.remaining == 1 then Over(s, t, Exhausted, now)
                    else t.phase == Wait && t.record == s.record
  {
    AdmitsExactly(s, now, e, profile);
    DecidesExactly(s, now, e, profile);
    hide Decide, Own, Heard, JudgeBody, StepAdmitted, StepResult;
  }

  /** The record of a Response is what its octets say. */
  lemma RecordsExactly(r: Request, record: Record, e: Event, f: Facts, profile: nat)
    requires profile <= 1 && r.pan != 0xffff && FactsAcceptable(r, f, profile) && e.body == ResponseFrame(r, f)
    ensures JudgeBody(r, e.body, profile) == Response
    ensures var k := ResponseRecord(r, record, e, profile);
            && k.outcome == Response && k.stamp == e.stamp && k.epoch == record.epoch && k.generation == record.generation
            && k.shortAddress == f.shortAddress && k.status == f.status && k.sequence == f.sequence && k.sourceIeee == f.source
            && k.relation == (if r.coordinatorMode == 3 then Matched else Unbound)
            && k.addressKind == if f.status != 0 then Refused else if f.shortAddress == 0xfffe then ExtendedOnly else Allocated
  {
    ResponseComplete(r, f, profile);
    hide JudgeBody, ResponseFrame, Decode, CommandDecode;
  }

  /** Only a finished context gives up its record, and is idle then. */
  lemma TakesExactly(s: State)
    ensures TakeResult(s) == if s.version != 1 then Invalid else if s.phase == Finished then Okay else BadState
    ensures var t := AfterTake(s);
            if s.version == 1 && s.phase == Finished then t.phase == Idle && t.record == s.record && t.generation == s.generation
            else t == s
  {
  }

  // ---------- runs ----------

  datatype Call = CallStart(request: Request, now: word) | CallStep(now: word, event: MaybeEvent, profile: nat) | CallTake

  function Apply(s: State, c: Call): State {
    match c
    case CallStart(r, now) => AfterStart(s, r, now)
    case CallStep(now, e, profile) => AfterStep(s, now, e, profile)
    case CallTake => AfterTake(s)
  }

  function Run(s: State, calls: seq<Call>): State
    decreases |calls|
  {
    if calls == [] then s else Run(Apply(s, calls[0]), calls[1..])
  }

  predicate Responds(s: State, c: Call) {
    c.CallStep? && StepAdmitted(s, c.now, c.event, c.profile) && Decide(s, c.now, c.event, c.profile) == Response
  }

  /** Generations of the Responses recorded along a run, in order. */
  function Recorded(s: State, calls: seq<Call>): seq<word>
    decreases |calls|
  {
    if calls == [] then []
    else (if Responds(s, calls[0]) then [s.generation] else []) + Recorded(Apply(s, calls[0]), calls[1..])
  }

  /** What every reachable context satisfies. */
  predicate Consistent(s: State) {
    s.version == VERSION
    && (s.phase == Wait ==> RequestValid(s.request) && 1 <= s.remaining <= s.request.workLimit
                            && s.record.generation == s.generation && s.record.epoch == s.request.epoch)
  }

  lemma ApplyKeeps(s: State, c: Call)
    requires Consistent(s)
    ensures Consistent(Apply(s, c)) && s.generation <= Apply(s, c).generation
  {
    hide JudgeBody, Judge, EventValid, Minus;
  }

  lemma {:induction false} RunKeeps(s: State, calls: seq<Call>)
    requires Consistent(s)
    ensures Consistent(Run(s, calls))
    decreases |calls|
  {
    if calls != [] {
      ApplyKeeps(s, calls[0]);
      RunKeeps(Apply(s, calls[0]), calls[1..]);
    }
  }

  predicate Rising(r: seq<word>, floor: nat) {
    && (forall i :: 0 <= i < |r| ==> r[i] >= floor)
    && (forall i, j :: 0 <= i < j < |r| ==> r[i] < r[j])
  }

  lemma RisingAfter(g: word, rest: seq<word>, floor: nat)
    requires g < floor && Rising(rest, floor)
    ensures Rising([g] + rest, g)
  {
    var r := [g] + rest;
    assert forall i :: 0 < i < |r| ==> r[i] == rest[i - 1];
  }

  /** At most one Response per generation, and generations only grow: no run records one twice. */
  lemma {:induction false} RecordedStrictlyIncreasing(s: State, calls: seq<Call>)
    requires Consistent(s)
    ensures Rising(Recorded(s, calls), Floor(s))
    decreases |calls|
  {
    if calls != [] {
      var next := Apply(s, calls[0]);
      ApplyKeeps(s, calls[0]);
      ApplyOrder(s, calls[0]);
      RecordedStrictlyIncreasing(next, calls[1..]);
      hide Responds, Apply, Consistent;
      var rest := Recorded(next, calls[1..]);
      if Responds(s, calls[0]) {
        RisingAfter(s.generation, rest, Floor(next));
        assert Recorded(s, calls) == [s.generation] + rest;
      } else {
        assert Recorded(s, calls) == rest;
      }
    }
  }

  /** The least generation a Response can still be recorded for. */
  function Floor(s: State): nat {
    if s.phase == Wait then s.generation else s.generation + 1
  }

  lemma ApplyOrder(s: State, c: Call)
    requires Consistent(s)
    ensures Floor(s) <= Floor(Apply(s, c))
    ensures Responds(s, c) ==> s.phase == Wait && s.generation < Floor(Apply(s, c))
  {
    hide Judge, RequestValid, ResponseRecord, EventValid, Minus;
  }

  /** A Response is recorded only for the current epoch, generation and channel, CRC good, and is the one the body carries. */
  lemma RespondsToCurrent(s: State, c: Call)
    requires Consistent(s) && Responds(s, c)
    ensures Minus(c.now, s.openedAt) < s.request.lifetime
    ensures c.event.Some? && c.event.event.kind == FrameEvent
    ensures var e := c.event.event;
            && e.epoch == s.request.epoch && e.generation == s.generation && e.channel == s.request.channel && e.crcValid == 1
            && Minus(e.stamp, s.last) < HALF && Minus(c.now, e.stamp) < HALF
            && JudgeBody(s.request, e.body, c.profile) == Response
            && Apply(s, c).record == ResponseRecord(s.request, s.record, e, c.profile)
            && Apply(s, c).record.generation == s.generation
  {
    hide JudgeBody;
  }

  // ---------- runs in true time ----------

  /** A call at a true instant; `at` is the true instant an event was captured. */
  datatype TrueCall =
    | TrueStart(request: Request, now: nat)
    | TrueStep(now: nat, event: MaybeEvent, at: nat, profile: nat)
    | TrueTake

  /** The call as the context sees it. */
  function Shown(t: TrueCall): Call {
    match t
    case TrueStart(r, now) => CallStart(r, Wrap(now))
    case TrueStep(now, e, at, profile) =>
      CallStep(Wrap(now), if e.Some? then Some(e.event.(stamp := Wrap(at))) else NoEvent, profile)
    case TrueTake => CallTake
  }

  /** A context, the true instant it was opened at, and the true instant it last accepted. */
  datatype Clocked = Clocked(state: State, begun: nat, last: nat)

  predicate Near(t: nat, u: nat) {
    t < u + HALF && u < t + HALF
  }

  /** The clock does not run backwards, and no gap from the last accepted instant reaches half a range; nor does an event's. */
  predicate InTime(c: Clocked, t: TrueCall) {
    match t
    case TrueStart(_, now) => c.last <= now < c.last + HALF
    case TrueStep(now, e, at, _) => c.last <= now < c.last + HALF && (e.Some? ==> Near(at, c.last) && Near(at, now))
    case TrueTake => true
  }

  function Tick(c: Clocked, t: TrueCall): Clocked {
    var next := Apply(c.state, Shown(t));
    match t
    case TrueStart(r, now) => if StartResult(c.state, r, Wrap(now)) == Okay then Clocked(next, now, now) else c
    case TrueStep(now, _, _, profile) =>
      if StepAdmitted(c.state, Wrap(now), Shown(t).event, profile) then Clocked(next, c.begun, now) else c
    case TrueTake => c.(state := next)
  }

  function TrueRun(c: Clocked, calls: seq<TrueCall>): Clocked
    decreases |calls|
  {
    if calls == [] then c else TrueRun(Tick(c, calls[0]), calls[1..])
  }

  predicate TimedRun(c: Clocked, calls: seq<TrueCall>)
    decreases |calls|
  {
    calls == [] || (InTime(c, calls[0]) && TimedRun(Tick(c, calls[0]), calls[1..]))
  }

  /** The wrapped fields show the true instants, and a waiting context is inside its lifetime, however often the counter wraps. */
  predicate Tracks(c: Clocked) {
    && Consistent(c.state) && c.state.last == Wrap(c.last)
    && (c.state.phase == Wait ==> c.state.openedAt == Wrap(c.begun) && c.begun <= c.last < c.begun + c.state.request.lifetime)
  }

  /** While it waits, the wrapped age is the true age. */
  lemma AgeIsTrue(c: Clocked, now: nat)
    requires Tracks(c) && c.state.phase == Wait && c.last <= now < c.last + HALF
    ensures Minus(Wrap(now), c.state.openedAt) == now - c.begun
    ensures Minus(Wrap(now), c.state.last) == now - c.last
  {
    var age := now - c.begun;
    WrapPlus(c.begun, age);
    DifferenceIsTrue(now, c.last);
    var o := Wrap(c.begun);
    assert Wrap(now) == (o + age) % MODULUS && age < MODULUS;
  }

  /** A tick is the wrapped call, and keeps the context true. */
  lemma TickTracks(c: Clocked, t: TrueCall)
    requires Tracks(c) && InTime(c, t)
    ensures Tick(c, t).state == Apply(c.state, Shown(t)) && Tracks(Tick(c, t))
  {
    ApplyKeeps(c.state, Shown(t));
    if t.TrueStep? && c.state.phase == Wait {
      AgeIsTrue(c, t.now);
    }
    hide Judge, JudgeBody, EventValid, Minus, Wrap, RequestValid;
  }

  lemma {:induction false} RunTracks(c: Clocked, calls: seq<TrueCall>, i: nat)
    requires Tracks(c) && TimedRun(c, calls) && i < |calls|
    ensures var d := TrueRun(c, calls[..i]); Tracks(d) && InTime(d, calls[i])
    decreases i
  {
    hide Tick, Tracks, InTime;
    if i > 0 {
      TickTracks(c, calls[0]);
      RunTracks(Tick(c, calls[0]), calls[1..], i - 1);
      assert calls[..i][1..] == calls[1..][..i - 1];
    }
  }

  /** Expiry is decided by true time: exactly from the end of the lifetime on. */
  lemma ExpiresExactly(c: Clocked, t: TrueCall)
    requires Tracks(c) && InTime(c, t) && t.TrueStep? && c.state.phase == Wait
    ensures Decide(c.state, Wrap(t.now), Shown(t).event, t.profile) == Expired <==> t.now >= c.begun + c.state.request.lifetime
  {
    AgeIsTrue(c, t.now);
    hide JudgeBody, EventValid, Minus, Wrap, RequestValid;
    NeverJudgedExpired(c.state.request, c.state.generation, c.state.last, Wrap(t.now), Shown(t).event, t.profile);
  }

  lemma NeverJudgedExpired(r: Request, generation: word, last: word, now: word, e: MaybeEvent, profile: nat)
    ensures e.Some? ==> Judge(r, generation, last, now, e.event, profile) != Expired
  {
    hide Decode, CommandDecode, Minus;
  }

  /**
   In every run with such a clock, from any tracked context: a Response is recorded only at a true instant before the end
   of the lifetime, for a frame captured between the last accepted instant and now, and its record carries that capture.
   */
  lemma RespondsOnlyInTime(c: Clocked, calls: seq<TrueCall>, i: nat)
    requires Tracks(c) && TimedRun(c, calls) && i < |calls|
    ensures var d, t := TrueRun(c, calls[..i]), calls[i];
            Responds(d.state, Shown(t)) ==>
              && t.TrueStep? && d.begun <= d.last <= t.at <= t.now < d.begun + d.state.request.lifetime
              && Tick(d, t).state.record.outcome == Response && Tick(d, t).state.record.stamp == Wrap(t.at)
              && Tick(d, t).state.record.generation == d.state.generation && Tick(d, t).state.phase == Finished
  {
    RunTracks(c, calls, i);
    var d, t := TrueRun(c, calls[..i]), calls[i];
    hide TrueRun, TimedRun;
    if Responds(d.state, Shown(t)) {
      StepRespondsInTime(d, t);
    }
  }

  lemma StepRespondsInTime(d: Clocked, t: TrueCall)
    requires Tracks(d) && InTime(d, t) && Responds(d.state, Shown(t))
    ensures t.TrueStep? && d.begun <= d.last <= t.at <= t.now < d.begun + d.state.request.lifetime
    ensures Tick(d, t).state.record.outcome == Response && Tick(d, t).state.record.stamp == Wrap(t.at)
    ensures Tick(d, t).state.record.generation == d.state.generation && Tick(d, t).state.phase == Finished
  {
    RespondsToCurrent(d.state, Shown(t));
    AgeIsTrue(d, t.now);
    ReachedIsOrder(t.at, d.last);
    ReachedIsOrder(t.now, t.at);
    hide Judge, JudgeBody, EventValid, Minus, Wrap, RequestValid, Decode, CommandDecode;
  }

  /** A new context tracks the instant it is given, and so does every run from it. */
  lemma NewTracks(s: State, now: nat)
    requires s.version == VERSION && s.phase == Idle && s.last == Wrap(now)
    ensures Tracks(Clocked(s, now, now))
  {
  }

  /** Steps the interface admits, in a row, while the context waits. */
  predicate AllAdmitted(s: State, calls: seq<Call>)
    decreases |calls|
  {
    calls == [] ||
    (calls[0].CallStep? && StepAdmitted(s, calls[0].now, calls[0].event, calls[0].profile)
     && AllAdmitted(Apply(s, calls[0]), calls[1..]))
  }

  /** Every waiting context ends: no more than the remaining work is ever admitted, whatever the events. */
  lemma {:induction false} EndsWithinWork(s: State, calls: seq<Call>)
    requires Consistent(s) && s.phase == Wait && AllAdmitted(s, calls)
    ensures |calls| <= s.remaining
    ensures |calls| == s.remaining ==> Run(s, calls).phase == Finished
    decreases |calls|
  {
    if calls != [] {
      hide Judge, RequestValid, ResponseRecord, EventValid;
      var next := Apply(s, calls[0]);
      ApplyKeeps(s, calls[0]);
      if next.phase == Wait {
        assert next.remaining == s.remaining - 1;
        EndsWithinWork(next, calls[1..]);
      } else {
        assert next.phase == Finished;
        assert calls[1..] == [];
      }
    }
  }
}
