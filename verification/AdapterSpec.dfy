/**
 The radio adapter as a machine over true time. Every instant is an unbounded count of fine increments
 and every comparison a plain one; `MacAdapter` runs the same machine on wrapped stamps.
 */
module AdapterSpec {
  import opened Bytes
  import opened Words
  import E = MacEpoch
  import A = MacAttempt

  const ACK_SYMBOLS := 54
  const UINT32_MAX := 0xffff_ffff
  const UNIT := E.FINE

  datatype Result =
    | OK | WAIT | EVENT | EXPIRED | INVALID | RANGE | STORAGE | STATE | RADIO_ERROR | PROTOCOL_ERROR | EXHAUSTED

  datatype Phase =
    | Cold | Rx | Off | Prepared | Scheduled | Report | WaitMac | Collect | Retiring | Closing | Draining | Fault

  datatype Goal = NoGoal | UserGoal | BusyGoal | AckGoal | RetireGoal

  datatype Policy = StopRx | KeepRaw | KeepAutoack

  datatype Kind = NoKind | TxEvent | RxEvent | ClosedEvent

  datatype Source = NoSource | SentInterval | AckInterval | RxClosed | BusyInterval | Retired

  datatype TxPhase = TxIdle | TxDraw | TxDrawWait | TxRadio | TxAckWait | TxStopping | TxDone | TxFault

  datatype TxOutcome =
    | NoOutcome | Acked | Unacknowledged | ChannelAccess | NoAck | Cancelled | Lifetime | WorkLimit | ClockError
    | AdapterError | StopFailed

  /** What the adapter reads of a transmission engine; `id` stands for its address, `copies` for the result of copying its body. */
  datatype Tx = Tx(id: nat, phase: TxPhase, generation: word, length: nat, ackRequested: bool, retries: nat, nb: nat,
                   at: word, deadline: word, stopAt: word, outcome: TxOutcome, copies: bool)

  datatype ActionKind = ActNone | ActRandom | ActAttempt | ActQuiesce | ActCollect

  datatype Action = Action(kind: ActionKind, generation: word, retry: nat, nb: nat, phase: TxPhase, outcome: TxOutcome,
                           at: word, until: word, length: nat, ackRequested: bool, through: E.Stamp)

  /** The adapter's own structures, with every stamp a true instant and every symbol count unbounded. */
  datatype Status = Status(live: nat, watermark: nat, generation: word, deliveries: nat, frames: nat, phase: Phase,
                           fault: Result, ready: bool, held: bool, retry: nat, nb: nat, length: nat, policy: Policy,
                           normalRx: bool, transmitted: bool, boundValid: bool, goal: Goal, stopStarted: bool,
                           waitThrough: bool, lossy: bool)

  datatype Receipt = Receipt(txLower: nat, txUpper: nat, rxUpper: nat, armed: nat, last: nat, frame: A.Frame,
                             transmitted: bool, received: bool, autoack: bool)

  datatype Observation = Observation(kind: Kind, source: Source, generation: word, retry: nat, nb: nat, stamp: int,
                                     lower: nat, upper: nat, through: nat, token: nat, serial: nat, normalRx: bool,
                                     lossy: bool)

  datatype Requested = Requested(at: int, until: int, ackRequested: bool, outcome: TxOutcome)

  datatype Owner = Nobody | Owned(id: nat)

  datatype Ideal = Ideal(status: Status, observation: Observation, receipt: Receipt, requested: Requested, began: nat,
                         through: nat, retired: nat, settled: bool, owner: Owner)

  /** What the radio and its clock answer during one step. */
  datatype StepIn = StepIn(clock: A.RadioResult, live: nat, run: A.RadioResult, receipt: Receipt, reply: A.RadioResult,
                           frame: A.Frame)

  datatype Operation = NoOp | RunOp | StopOp | ReceiveOp | HandoffOp

  /** The machine a call leaves and the call's result; for a step also the one radio operation it asked for. */
  datatype Answer = Answer(next: Ideal, result: Result)

  datatype Turned = Turned(next: Ideal, result: Result, operation: Operation)

  // ---------- instants ----------

  function Sym(t: nat): nat {
    t / UNIT
  }

  /** The first symbol boundary at or after an instant. */
  function Ceil(t: nat): (s: nat)
    ensures s * UNIT >= t && s * UNIT < t + UNIT
  {
    Sym(t) + if t % UNIT != 0 then 1 else 0
  }

  function StampOf(t: nat): E.Stamp {
    E.Stamp(Wrap(Sym(t)), t % UNIT)
  }

  /** The symbol count nearest to the live instant that a 32-bit counter shows as `w`. */
  function Nearest(live: nat, w: word): (s: int)
    ensures s % MODULUS == w
    ensures -HALF <= s - Sym(live) < HALF
  {
    var d := Minus(w, Wrap(Sym(live)));
    WrapPlus(Sym(live), d);
    assert (Wrap(Sym(live)) + d) % MODULUS == w;
    if d < HALF then Sym(live) + d else Sym(live) + d - MODULUS
  }

  /** A stamp at or after the live instant, less than half a range ahead. */
  predicate Ahead(live: nat, end: E.Stamp) {
    if end.symbols == Wrap(Sym(live)) then live % UNIT <= end.fine
    else Minus(end.symbols, Wrap(Sym(live))) < HALF
  }

  /** The true instant such a stamp names. */
  function Unwrap(live: nat, end: E.Stamp): nat {
    (Sym(live) + Minus(end.symbols, Wrap(Sym(live)))) * UNIT + end.fine
  }

  /** A stamp is accepted exactly when some instant in the half range from live on shows it, and that instant is unique. */
  lemma UnwrapExact(live: nat, end: E.Stamp)
    requires end.fine < UNIT
    ensures Ahead(live, end) ==> live <= Unwrap(live, end) && Sym(Unwrap(live, end)) < Sym(live) + HALF
                                 && StampOf(Unwrap(live, end)) == end
    ensures forall t: nat :: live <= t && Sym(t) < Sym(live) + HALF && StampOf(t) == end
                             ==> Ahead(live, end) && t == Unwrap(live, end)
  {
    var d := Minus(end.symbols, Wrap(Sym(live)));
    WrapPlus(Sym(live), d);
    SplitInstant(Sym(live) + d, end.fine);
    forall t: nat | live <= t && Sym(t) < Sym(live) + HALF && StampOf(t) == end
      ensures Ahead(live, end) && t == Unwrap(live, end)
    {
      DifferenceIsTrue(Sym(t), Sym(live));
      assert t == Sym(t) * UNIT + t % UNIT;
    }
  }

  lemma SplitInstant(s: nat, fine: nat)
    requires fine < UNIT
    ensures Sym(s * UNIT + fine) == s && (s * UNIT + fine) % UNIT == fine
  {
  }

  // ---------- the machine ----------

  function Fail(m: Ideal, why: Result): Ideal {
    m.(status := m.status.(phase := Fault, fault := why))
  }

  predicate MayPublish(m: Ideal) {
    m.status.deliveries != UINT32_MAX
  }

  function Publish(m: Ideal, kind: Kind, source: Source, lower: nat, upper: nat): Ideal {
    var s := m.status;
    m.(status := s.(deliveries := s.deliveries + 1, ready := true),
       observation := Observation(kind, source, s.generation, s.retry, s.nb, Sym(s.live), lower, upper, s.watermark,
                                  s.deliveries + 1, s.frames, s.normalRx, s.lossy))
  }

  predicate IsAck(f: A.Frame) {
    f.correlation & 0x80 != 0 && f.length == 3 && f.body != [] && f.body[0] & 7 == 2
  }

  /** A frame read from the FIFO is bounded by the first live instant after it. */
  function Bound(m: Ideal): Ideal {
    if m.status.boundValid then m
    else m.(receipt := m.receipt.(rxUpper := m.status.live), status := m.status.(boundValid := true))
  }

  /** Offer the held frame, once its receive bound has passed. */
  function Offer(m: Ideal): Answer {
    OfferBound(Bound(m))
  }

  function OfferBound(m: Ideal): Answer {
    if Sym(m.status.live) < Ceil(m.receipt.rxUpper) then Answer(m, WAIT)
    else if !MayPublish(m) then Answer(Fail(m, EXHAUSTED), EXHAUSTED)
    else
      var source := if m.status.phase == Collect && IsAck(m.receipt.frame) then AckInterval else NoSource;
      Answer(Publish(m, RxEvent, source, m.receipt.txLower, m.receipt.rxUpper), EVENT)
  }

  predicate SaysReady(r: A.RadioResult) {
    r == A.READY
  }

  predicate SaysStopped(r: A.RadioResult) {
    r == A.STOPPED
  }

  predicate SaysDrain(r: A.RadioResult) {
    r == A.DRAIN
  }

  predicate SaysFrame(r: A.RadioResult) {
    r == A.FRAME || r == A.BAD_CRC
  }

  predicate SaysLost(r: A.RadioResult) {
    r == A.RX_LOST
  }

  predicate SaysEmpty(r: A.RadioResult) {
    r == A.EMPTY
  }

  predicate SaysBusy(r: A.RadioResult) {
    r == A.CCA_BUSY
  }

  predicate RunEnds(r: A.RadioResult) {
    SaysFrame(r) || SaysEmpty(r) || SaysBusy(r)
  }

  function Begin(m: Ideal): Ideal {
    m.(began := m.status.live)
  }

  /** The attempt has ended with a receipt: a frame in it is held, and a busy channel goes straight to closing. */
  function Launched(m: Ideal, receipt: Receipt, busy: bool): Ideal {
    var s := m.status.(transmitted := receipt.transmitted, normalRx := receipt.autoack, held := receipt.received,
                       boundValid := receipt.received, frames := m.status.frames + if receipt.received then 1 else 0);
    var t := if busy then s.(goal := BusyGoal, stopStarted := false, waitThrough := false, phase := Closing)
             else s.(phase := Report);
    m.(receipt := receipt, status := t)
  }

  /** Start the attempt inside its requested window. */
  function Launch(m: Ideal, run: A.RadioResult, receipt: Receipt): Turned {
    if Sym(m.status.live) >= m.requested.until then Turned(m, EXPIRED, NoOp)
    else if Sym(m.status.live) < m.requested.at then Turned(m, WAIT, NoOp)
    else if !RunEnds(run) then Turned(Fail(Begin(m), RADIO_ERROR), RADIO_ERROR, RunOp)
    else Turned(Launched(Begin(m), receipt, SaysBusy(run)), WAIT, RunOp)
  }

  function ReportSent(m: Ideal): Answer {
    if !m.status.transmitted then Answer(Fail(m, PROTOCOL_ERROR), PROTOCOL_ERROR)
    else if Sym(m.status.live) < Ceil(m.receipt.txUpper) then Answer(m, WAIT)
    else if !MayPublish(m) then Answer(Fail(m, EXHAUSTED), EXHAUSTED)
    else Answer(Publish(m, TxEvent, SentInterval, m.receipt.txLower, m.receipt.txUpper), EVENT)
  }

  predicate Reportable(m: Ideal) {
    (m.status.phase == Rx && m.status.goal == RetireGoal) || (m.status.phase == Off && m.status.goal != NoGoal)
  }

  function Settle(m: Ideal): Ideal {
    if m.settled then m else m.(retired := m.status.live, settled := true)
  }

  function GoalSource(g: Goal): Source {
    match g
    case BusyGoal => BusyInterval
    case AckGoal => RxClosed
    case RetireGoal => Retired
    case _ => NoSource
  }

  /** With the radio off (or retained in normal reception), report the pending goal once a settled instant has passed. */
  function ReportGoal(m: Ideal): Answer {
    ReportSettled(Settle(m))
  }

  function ReportSettled(m: Ideal): Answer {
    if Sym(m.status.live) < Ceil(m.retired) then Answer(m, WAIT)
    else if !MayPublish(m) then Answer(Fail(m, EXHAUSTED), EXHAUSTED)
    else
      var source := GoalSource(m.status.goal);
      Answer(Publish(m, if source == NoSource then ClosedEvent else TxEvent, source, GoalLower(m, source), GoalUpper(m, source)), EVENT)
  }

  function GoalLower(m: Ideal, source: Source): nat {
    if source == BusyInterval then m.began + 8 * UNIT else 0
  }

  function GoalUpper(m: Ideal, source: Source): nat {
    if source == RxClosed then m.status.watermark else if source == BusyInterval then m.receipt.armed else m.retired
  }

  /** The watermark is the live instant before the first stop request. */
  function Mark(m: Ideal): Ideal {
    if m.status.stopStarted then m else m.(status := m.status.(watermark := m.status.live, stopStarted := true))
  }

  function StopRadio(m: Ideal, reply: A.RadioResult): Answer {
    var b := Mark(m);
    if SaysStopped(reply) then Answer(b.(settled := false, status := b.status.(phase := Off)), WAIT)
    else if SaysDrain(reply) then Answer(b.(status := b.status.(phase := Draining)), WAIT)
    else Answer(Fail(b, RADIO_ERROR), RADIO_ERROR)
  }

  /** Losing raw, never acknowledged frames is reported; losing any other is a fault. */
  predicate LossIsFault(s: Status) {
    || (!s.normalRx && s.goal != NoGoal && s.goal != UserGoal)
    || (s.phase == Collect && !s.normalRx)
    || (s.phase != Rx && s.phase != Collect && s.phase != Closing && s.phase != Draining)
  }

  function Held(m: Ideal, frame: A.Frame): Ideal {
    m.(receipt := m.receipt.(frame := frame),
       status := m.status.(held := true, boundValid := false, frames := m.status.frames + 1))
  }

  function Quiet(m: Ideal, lost: bool): Ideal {
    var s := m.status.(lossy := m.status.lossy || lost);
    m.(status := if s.phase == Draining then s.(phase := Closing, waitThrough := false) else s)
  }

  function Receive(m: Ideal, reply: A.RadioResult, frame: A.Frame): Answer {
    if SaysFrame(reply) then Answer(Held(m, frame), WAIT)
    else if SaysLost(reply) && LossIsFault(m.status) then Answer(Fail(m, RADIO_ERROR), RADIO_ERROR)
    else if !SaysLost(reply) && !SaysEmpty(reply) then Answer(Fail(m, RADIO_ERROR), RADIO_ERROR)
    else Answer(Quiet(m, SaysLost(reply)), WAIT)
  }

  /** The receiver stays on after retirement. */
  function Keep(m: Ideal, normal: bool): Ideal {
    m.(status := m.status.(phase := Rx, goal := RetireGoal, normalRx := normal), settled := false)
  }

  predicate KeepsAutoack(m: Ideal) {
    m.requested.outcome == Acked && m.status.policy == KeepAutoack
  }

  predicate KeepsRaw(m: Ideal) {
    m.status.transmitted && m.status.policy == KeepRaw && m.requested.outcome == Unacknowledged
  }

  function AsClosing(m: Ideal, goal: Goal): Ideal {
    m.(status := m.status.(goal := goal, phase := Closing, waitThrough := false))
  }

  /** Retirement: keep the receiver when the policy and the outcome allow it, otherwise close. */
  function Retire(m: Ideal, reply: A.RadioResult): Turned {
    if KeepsAutoack(m) then
      if m.status.normalRx then Turned(Keep(m, true), WAIT, NoOp)
      else if !SaysReady(reply) then Turned(Fail(m, RADIO_ERROR), RADIO_ERROR, HandoffOp)
      else Turned(Keep(m, true), WAIT, HandoffOp)
    else if KeepsRaw(m) then Turned(Keep(m, m.status.normalRx), WAIT, NoOp)
    else
      var r := StopRadio(AsClosing(m, m.status.goal), reply);
      Turned(r.next, r.result, StopOp)
  }

  predicate CloseDue(m: Ideal) {
    || (m.status.phase == Closing && (!m.status.waitThrough || m.through <= m.status.live))
    || (m.status.phase == Collect && m.through <= m.status.live)
  }

  function Turn(m: Ideal, reply: A.RadioResult, frame: A.Frame): Turned {
    if m.status.phase == Retiring && !m.status.stopStarted then Retire(m, reply)
    else if m.status.phase == Rx && m.status.goal == RetireGoal then
      var r := ReportGoal(m);
      Turned(r.next, r.result, NoOp)
    else if CloseDue(m) then
      var c := if m.status.phase == Collect then AsClosing(m, AckGoal) else m;
      var r := StopRadio(c, reply);
      Turned(r.next, r.result, StopOp)
    else if m.status.phase == Off then
      if m.status.goal == NoGoal then Turned(m, WAIT, NoOp)
      else
        var r := ReportGoal(m);
        Turned(r.next, r.result, NoOp)
    else
      var r := Receive(m, reply, frame);
      Turned(r.next, r.result, ReceiveOp)
  }

  /** After the clock has been sampled: at most one radio operation. */
  function Act(m: Ideal, x: StepIn): Turned {
    if m.status.phase == Scheduled then Launch(m, x.run, x.receipt)
    else if m.status.phase == Report then
      var r := ReportSent(m);
      Turned(r.next, r.result, NoOp)
    else if m.status.phase == WaitMac || m.status.phase == Prepared then Turned(m, WAIT, NoOp)
    else if m.status.held then
      var r := Offer(m);
      Turned(r.next, r.result, NoOp)
    else Turn(m, x.reply, x.frame)
  }

  function Step(m: Ideal, arguments: bool, x: StepIn): Turned {
    if m.status.fault != OK then Turned(m, m.status.fault, NoOp)
    else if !arguments then Turned(m, INVALID, NoOp)
    else if m.status.phase == Cold then Turned(m, STATE, NoOp)
    else if m.status.ready then Turned(m, EVENT, NoOp)
    else if m.status.deliveries == UINT32_MAX || m.status.frames == UINT32_MAX then Turned(Fail(m, EXHAUSTED), EXHAUSTED, NoOp)
    else if !SaysReady(x.clock) then Turned(Fail(m, RADIO_ERROR), RADIO_ERROR, NoOp)
    else Act(m.(status := m.status.(live := x.live)), x)
  }

  /** A step that can act on a sampled clock. */
  predicate Samples(m: Ideal, arguments: bool, x: StepIn) {
    m.status.fault == OK && arguments && m.status.phase != Cold && !m.status.ready
    && m.status.deliveries != UINT32_MAX && m.status.frames != UINT32_MAX && SaysReady(x.clock)
  }

  // ---------- the other calls ----------

  const BLANK_FRAME := A.Frame(0, 0, 0, [])

  function Blank(): Ideal {
    Ideal(Status(0, 0, 0, 0, 0, Cold, OK, false, false, 0, 0, 0, StopRx, false, false, false, NoGoal, false, false, false),
          Observation(NoKind, NoSource, 0, 0, 0, 0, 0, 0, 0, 0, 0, false, false),
          Receipt(0, 0, 0, 0, 0, BLANK_FRAME, false, false, false), Requested(0, 0, false, NoOutcome), 0, 0, 0, false, Nobody)
  }

  function Sample(m: Ideal, clock: A.RadioResult, live: nat): Answer {
    if !SaysReady(clock) then Answer(Fail(m, RADIO_ERROR), RADIO_ERROR)
    else Answer(m.(status := m.status.(live := live)), OK)
  }

  /** The configuration fields the adapter itself checks. */
  datatype Config = Config(channel: nat, power: byte)

  predicate ConfigValid(c: Config) {
    11 <= c.channel <= 26 && (c.power == 0x05 || c.power == 0xd5 || c.power == 0xf5)
  }

  /** Everything zero but the three stamps of earlier episodes. */
  function Cleared(m: Ideal): Ideal {
    Blank().(began := m.began, through := m.through, retired := m.retired)
  }

  /** A fresh reception state; any loss of an earlier one is no longer reported. */
  function Opened(m: Ideal): Ideal {
    m.(settled := false, status := m.status.(phase := Rx, normalRx := true, stopStarted := false, waitThrough := false,
                                             lossy := false))
  }

  function Init(m: Ideal, arguments: bool, c: Config, reply: A.RadioResult, clock: A.RadioResult, live: nat): Answer {
    if m.status.fault != OK then Answer(m, m.status.fault)
    else if !arguments then Answer(m, INVALID)
    else if m.status.phase != Cold then Answer(m, STATE)
    else if !ConfigValid(c) then Answer(m, INVALID)
    else
      var b := Cleared(m);
      if !SaysReady(reply) then Answer(Fail(b, RADIO_ERROR), RADIO_ERROR) else Sample(Opened(b), clock, live)
  }

  function Now(m: Ideal, arguments: bool, clock: A.RadioResult, live: nat): Answer {
    if m.status.fault != OK then Answer(m, m.status.fault)
    else if !arguments then Answer(m, INVALID)
    else if m.status.phase == Cold then Answer(m, STATE)
    else Sample(m, clock, live)
  }

  predicate MayPrepare(m: Ideal, tx: Tx, policy: Policy) {
    && m.status.phase == Off && !m.status.ready && !m.status.held
    && (m.owner == Nobody || m.owner == Owned(tx.id))
    && tx.phase == TxDraw && tx.generation != 0 && 0 < tx.length <= 125
    && (policy == KeepAutoack ==> tx.ackRequested)
  }

  /** `body` is the receipt's frame buffer after the engine's body was copied over it. */
  function Loaded(m: Ideal, length: nat, body: seq<byte>): Ideal {
    m.(receipt := m.receipt.(frame := m.receipt.frame.(body := body)), status := m.status.(length := length))
  }

  function Slotted(m: Ideal, tx: Tx, policy: Policy): Ideal {
    m.(owner := Owned(tx.id), settled := false,
       status := m.status.(generation := tx.generation, retry := tx.retries, nb := tx.nb, policy := policy, normalRx := false,
                           transmitted := false, stopStarted := false, waitThrough := false, lossy := false, goal := NoGoal,
                           phase := Prepared))
  }

  function Prepare(m: Ideal, arguments: bool, tx: Tx, policy: Policy, body: seq<byte>, reply: A.RadioResult): Answer {
    if m.status.fault != OK then Answer(m, m.status.fault)
    else if !arguments then Answer(m, INVALID)
    else if !MayPrepare(m, tx, policy) then Answer(m, STATE)
    else if !tx.copies then Answer(Fail(m, PROTOCOL_ERROR), PROTOCOL_ERROR)
    else
      var b := Loaded(m, tx.length, body);
      if !SaysReady(reply) then Answer(Fail(b, RADIO_ERROR), RADIO_ERROR) else Answer(Slotted(b, tx, policy), OK)
  }

  function Unprepare(m: Ideal, arguments: bool, tx: Tx, reply: A.RadioResult): Answer {
    if m.status.fault != OK then Answer(m, m.status.fault)
    else if !arguments then Answer(m, INVALID)
    else if m.owner != Owned(tx.id) || m.status.ready || m.status.phase != Prepared
            || tx.phase != TxDone || tx.generation != m.status.generation then Answer(m, STATE)
    else if !SaysStopped(reply) then Answer(Fail(m, RADIO_ERROR), RADIO_ERROR)
    else Answer(m.(status := m.status.(phase := Off)), OK)
  }

  /** The action names the slot the adapter holds and the engine as it stands. */
  predicate Identified(m: Ideal, tx: Tx, a: Action) {
    && !m.status.ready && m.owner == Owned(tx.id)
    && a.generation == m.status.generation && a.retry == m.status.retry && a.nb == m.status.nb
    && tx.generation == m.status.generation && tx.retries == m.status.retry && tx.nb == m.status.nb
    && a.phase == tx.phase && a.outcome == tx.outcome
  }

  function AsRequested(live: nat, a: Action): Requested {
    Requested(Nearest(live, a.at), Nearest(live, a.until), a.ackRequested, a.outcome)
  }

  predicate MayAttempt(m: Ideal, tx: Tx, a: Action) {
    && m.status.phase == Prepared && tx.phase == TxRadio && a.at == tx.at && a.until == tx.deadline
    && a.length == m.status.length && a.ackRequested == tx.ackRequested
  }

  function AsScheduled(m: Ideal, q: Requested): Ideal {
    m.(requested := q, status := m.status.(phase := Scheduled))
  }

  /** Collection runs through exactly the acknowledgement window after the transmission's upper bound. */
  predicate MayCollect(m: Ideal, tx: Tx, a: Action) {
    && m.status.phase == WaitMac && m.status.transmitted && tx.phase == TxAckWait
    && a.through == StampOf(m.receipt.txUpper + ACK_SYMBOLS * UNIT)
  }

  function AsCollecting(m: Ideal): Ideal {
    m.(through := m.receipt.txUpper + ACK_SYMBOLS * UNIT, status := m.status.(phase := Collect))
  }

  predicate MayQuiesce(m: Ideal, tx: Tx, a: Action) {
    && tx.phase == TxStopping && m.status.phase != Rx && m.status.phase != Cold && m.status.phase != Retiring
    && a.until == tx.stopAt
  }

  function AsRetiring(m: Ideal, q: Requested): Ideal {
    var phase := if m.status.phase == Draining || m.status.phase == Off then m.status.phase else Retiring;
    m.(requested := q, settled := false, status := m.status.(goal := RetireGoal, phase := phase))
  }

  function Accept(m: Ideal, tx: Tx, a: Action): Answer {
    if m.status.fault != OK then Answer(m, m.status.fault)
    else if !Identified(m, tx, a) then Answer(m, STATE)
    else
      match a.kind
      case ActAttempt => if MayAttempt(m, tx, a) then Answer(AsScheduled(m, AsRequested(m.status.live, a)), OK) else Answer(m, STATE)
      case ActCollect => if MayCollect(m, tx, a) then Answer(AsCollecting(m), OK) else Answer(m, STATE)
      case ActQuiesce => if MayQuiesce(m, tx, a) then Answer(AsRetiring(m, AsRequested(m.status.live, a)), OK) else Answer(m, STATE)
      case _ => Answer(m, INVALID)
  }

  datatype End = Immediately | At(stamp: E.Stamp)

  function Close(m: Ideal, end: End): Answer {
    if m.status.fault != OK then Answer(m, m.status.fault)
    else if m.status.phase != Rx || m.status.ready then Answer(m, STATE)
    else if end.At? && (end.stamp.fine >= UNIT || !Ahead(m.status.live, end.stamp)) then Answer(m, INVALID)
    else
      Answer(m.(through := if end.At? then Unwrap(m.status.live, end.stamp) else m.through, settled := false,
          status := m.status.(waitThrough := end.At?, stopStarted := false, goal := UserGoal, phase := Closing)), OK)
  }

  /** The event is used up: a frame is no longer held, a sent report waits for the engine, a goal is met. */
  function Released(m: Ideal): Ideal {
    var o := m.observation;
    m.(status := m.status.(
         ready := false,
         held := if o.kind == RxEvent then false else m.status.held,
         phase := if o.source == SentInterval then WaitMac else m.status.phase,
         goal := if o.kind == ClosedEvent || (o.kind == TxEvent && o.source != SentInterval) then NoGoal else m.status.goal))
  }

  function Consume(m: Ideal, token: nat): Answer {
    if m.status.fault != OK then Answer(m, m.status.fault)
    else if !m.status.ready || token != m.observation.token then Answer(m, STATE)
    else Answer(Released(m), OK)
  }

  predicate IdleOff(m: Ideal) {
    m.status.phase == Off && !m.status.ready && !m.status.held && m.status.goal == NoGoal
  }

  function Configure(m: Ideal, arguments: bool, c: Config, reply: A.RadioResult, clock: A.RadioResult, live: nat): Answer {
    if m.status.fault != OK then Answer(m, m.status.fault)
    else if !arguments then Answer(m, INVALID)
    else if !IdleOff(m) then Answer(m, STATE)
    else if !ConfigValid(c) || reply == A.INVALID_ARGUMENT then Answer(m, INVALID)
    else if !SaysReady(reply) then Answer(Fail(m, RADIO_ERROR), RADIO_ERROR)
    else Sample(m, clock, live)
  }

  function Open(m: Ideal, arguments: bool, reply: A.RadioResult, clock: A.RadioResult, live: nat): Answer {
    if m.status.fault != OK then Answer(m, m.status.fault)
    else if !arguments then Answer(m, INVALID)
    else if !IdleOff(m) then Answer(m, STATE)
    else if !SaysReady(reply) then Answer(Fail(m, RADIO_ERROR), RADIO_ERROR)
    else Sample(Opened(m), clock, live)
  }
}
