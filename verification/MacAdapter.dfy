/**
 The radio adapter on its real fields: stamps of 32-bit symbols, half-range comparisons, and the
 structures the source keeps. Every method refines the machine over true time of `AdapterSpec`, as long
 as the pairs of instants it compares are less than half a range apart.
 */
module MacAdapter {
  import opened Bytes
  import opened Words
  import E = MacEpoch
  import A = MacAttempt
  import opened AdapterSpec

  // ---------- the structures as they are stored ----------

  datatype StatusFields =
    StatusFields(live: E.Stamp, watermark: E.Stamp, generation: word, deliveries: nat, frames: nat, phase: Phase,
                 fault: Result, ready: bool, held: bool, retry: nat, nb: nat, length: nat, policy: Policy, normalRx: bool,
                 transmitted: bool, boundValid: bool, goal: Goal, stopStarted: bool, waitThrough: bool, lossy: bool)

  datatype ReceiptFields =
    ReceiptFields(txLower: E.Stamp, txUpper: E.Stamp, rxUpper: E.Stamp, armed: E.Stamp, last: E.Stamp, frame: A.Frame,
                  transmitted: bool, received: bool, autoack: bool)

  datatype ObservationFields =
    ObservationFields(kind: Kind, source: Source, generation: word, retry: nat, nb: nat, stamp: word, lower: E.Stamp,
                      upper: E.Stamp, through: E.Stamp, token: nat, serial: nat, normalRx: bool, lossy: bool)

  datatype RequestedFields = RequestedFields(at: word, until: word, ackRequested: bool, outcome: TxOutcome)

  /** What one step is given: the clock's sample and what the radio would answer. */
  datatype StepFields =
    StepFields(clock: A.RadioResult, live: E.Stamp, run: A.RadioResult, receipt: ReceiptFields, reply: A.RadioResult,
               frame: A.Frame)

  // ---------- what they show of true time ----------

  function WordOf(s: int): word {
    s % MODULUS
  }

  function ShowStatus(s: Status): StatusFields {
    StatusFields(StampOf(s.live), StampOf(s.watermark), s.generation, s.deliveries, s.frames, s.phase, s.fault, s.ready,
                 s.held, s.retry, s.nb, s.length, s.policy, s.normalRx, s.transmitted, s.boundValid, s.goal,
                 s.stopStarted, s.waitThrough, s.lossy)
  }

  function ShowReceipt(r: Receipt): ReceiptFields {
    ReceiptFields(StampOf(r.txLower), StampOf(r.txUpper), StampOf(r.rxUpper), StampOf(r.armed), StampOf(r.last), r.frame,
                  r.transmitted, r.received, r.autoack)
  }

  function ShowObservation(o: Observation): ObservationFields {
    ObservationFields(o.kind, o.source, o.generation, o.retry, o.nb, WordOf(o.stamp), StampOf(o.lower), StampOf(o.upper),
                      StampOf(o.through), o.token, o.serial, o.normalRx, o.lossy)
  }

  function ShowRequested(q: Requested): RequestedFields {
    RequestedFields(WordOf(q.at), WordOf(q.until), q.ackRequested, q.outcome)
  }

  function ShowIn(x: StepIn): StepFields {
    StepFields(x.clock, StampOf(x.live), x.run, ShowReceipt(x.receipt), x.reply, x.frame)
  }

  // ---------- wrapped comparisons ----------

  /** The first symbol boundary at or after a stamp. */
  function CeilOf(s: E.Stamp): word {
    Plus(s.symbols, if s.fine != 0 then 1 else 0)
  }

  predicate OrderedStamps(a: E.Stamp, b: E.Stamp) {
    if a.symbols == b.symbols then a.fine <= b.fine else Minus(b.symbols, a.symbols) < HALF
  }

  predicate Near(a: int, b: int) {
    -HALF < a - b < HALF
  }

  lemma ReachedShown(now: nat, at: int)
    requires Near(now, at)
    ensures Reached(Wrap(now), WordOf(at)) <==> at <= now
  {
    if at >= 0 {
      ReachedIsOrder(now, at);
    } else {
      assert WordOf(at) == at + MODULUS;
      assert Wrap(now) == now;
    }
  }

  lemma CeilShown(live: nat, at: nat)
    requires Near(Sym(live), Ceil(at))
    ensures Reached(StampOf(live).symbols, CeilOf(StampOf(at))) <==> Ceil(at) <= Sym(live)
  {
    WrapPlus(Sym(at), if at % UNIT != 0 then 1 else 0);
    ReachedShown(Sym(live), Ceil(at));
  }

  lemma OrderedShown(a: nat, b: nat)
    requires Near(Sym(a), Sym(b))
    ensures OrderedStamps(StampOf(a), StampOf(b)) <==> a <= b
  {
    DifferenceIsTrue(Sym(b), Sym(a));
    assert a == Sym(a) * UNIT + a % UNIT && b == Sym(b) * UNIT + b % UNIT;
  }

  lemma AddSymbols(t: nat, n: nat)
    ensures StampOf(t + n * UNIT) == E.Stamp(Plus(StampOf(t).symbols, n), StampOf(t).fine)
  {
    WrapPlus(Sym(t), n);
    assert t + n * UNIT == (Sym(t) + n) * UNIT + t % UNIT;
    SplitInstant(Sym(t) + n, t % UNIT);
  }

  /** A step goes on to the frame in hand, to a goal or to the radio. */
  predicate Attending(s: Status) {
    s.phase != Scheduled && s.phase != Report && s.phase != WaitMac && s.phase != Prepared
  }

  /** The pairs of instants a step compares, and no others, are closer than half a range. */
  predicate Timely(m: Ideal, live: nat) {
    var s := m.status;
    && (s.phase == Scheduled ==> Near(Sym(live), m.requested.until)
                                 && (Sym(live) < m.requested.until ==> Near(Sym(live), m.requested.at)))
    && (s.phase == Report && s.transmitted ==> Near(Sym(live), Ceil(m.receipt.txUpper)))
    && (Attending(s) && s.held && s.boundValid ==> Near(Sym(live), Ceil(m.receipt.rxUpper)))
    && (Reportable(m) && !s.held && m.settled ==> Near(Sym(live), Ceil(m.retired)))
    && ((s.phase == Collect || (s.phase == Closing && s.waitThrough)) && !s.held ==> Near(Sym(m.through), Sym(live)))
  }

  // ---------- how each move of the ideal machine shows in the fields ----------

  /** The parts of two machines a move of the status alone leaves equal. */
  predicate StatusOnly(m: Ideal, n: Ideal) {
    && n.observation == m.observation && n.receipt == m.receipt && n.requested == m.requested && n.began == m.began
    && n.through == m.through && n.retired == m.retired && n.owner == m.owner
  }

  function FaultStatus(s: StatusFields, why: Result): StatusFields {
    s.(phase := Fault, fault := why)
  }

  lemma FailShown(m: Ideal, why: Result)
    ensures ShowStatus(Fail(m, why).status) == FaultStatus(ShowStatus(m.status), why)
    ensures StatusOnly(m, Fail(m, why)) && Fail(m, why).settled == m.settled
  {
    hide StampOf;
  }

  function MarkedStatus(s: StatusFields): StatusFields {
    s.(watermark := if s.stopStarted then s.watermark else s.live, stopStarted := true)
  }

  lemma MarkShown(m: Ideal)
    ensures ShowStatus(Mark(m).status) == MarkedStatus(ShowStatus(m.status)) && Mark(m).settled == m.settled
    ensures StatusOnly(m, Mark(m))
  {
    hide StampOf;
    if m.status.stopStarted {
    } else {
    }
  }

  lemma ShowPhase(s: Status, phase: Phase, fault: Result)
    ensures ShowStatus(s.(phase := phase, fault := fault)) == ShowStatus(s).(phase := phase, fault := fault)
  {
    hide StampOf;
  }

  lemma StopShown(m: Ideal, reply: A.RadioResult)
    ensures var a := AdapterSpec.StopRadio(m, reply); var t := MarkedStatus(ShowStatus(m.status));
            && StatusOnly(m, a.next)
            && if SaysStopped(reply) then a.result == WAIT && ShowStatus(a.next.status) == t.(phase := Off) && !a.next.settled
               else if SaysDrain(reply) then
                 a.result == WAIT && ShowStatus(a.next.status) == t.(phase := Draining) && a.next.settled == m.settled
               else a.result == RADIO_ERROR && ShowStatus(a.next.status) == t.(phase := Fault, fault := RADIO_ERROR)
                    && a.next.settled == m.settled
  {
    var b := Mark(m);
    MarkShown(m);
    ShowPhase(b.status, Off, b.status.fault);
    ShowPhase(b.status, Draining, b.status.fault);
    ShowPhase(b.status, Fault, RADIO_ERROR);
    assert ShowStatus(b.status).fault == b.status.fault;
    hide ShowStatus, Mark, MarkedStatus, StampOf, SaysStopped, SaysDrain;
  }

  function RaisedStatus(s: StatusFields): StatusFields {
    s.(deliveries := s.deliveries + 1, ready := true)
  }

  function RaisedObservation(s: StatusFields, kind: Kind, source: Source, lower: E.Stamp, upper: E.Stamp): ObservationFields {
    ObservationFields(kind, source, s.generation, s.retry, s.nb, s.live.symbols, lower, upper, s.watermark,
                      s.deliveries + 1, s.frames, s.normalRx, s.lossy)
  }

  lemma PublishShown(m: Ideal, kind: Kind, source: Source, lower: nat, upper: nat)
    ensures var n := AdapterSpec.Publish(m, kind, source, lower, upper); var s := ShowStatus(m.status);
            && ShowStatus(n.status) == RaisedStatus(s)
            && ShowObservation(n.observation) == RaisedObservation(s, kind, source, StampOf(lower), StampOf(upper))
            && n == m.(status := n.status, observation := n.observation)
  {
    assert StampOf(m.status.live).symbols == WordOf(Sym(m.status.live));
    hide Sym;
  }

  lemma BoundShown(m: Ideal)
    ensures var n := Bound(m); var s := ShowStatus(m.status); var r := ShowReceipt(m.receipt);
            && n == m.(status := n.status, receipt := n.receipt)
            && ShowStatus(n.status) == s.(boundValid := true)
            && ShowReceipt(n.receipt) == if s.boundValid then r else r.(rxUpper := s.live)
  {
    hide StampOf;
    if m.status.boundValid {
    } else {
    }
  }

  lemma HeldShown(m: Ideal, frame: A.Frame)
    ensures var n := Held(m, frame); var s := ShowStatus(m.status); var r := ShowReceipt(m.receipt);
            && n == m.(status := n.status, receipt := n.receipt)
            && ShowStatus(n.status) == s.(held := true, boundValid := false, frames := s.frames + 1)
            && ShowReceipt(n.receipt) == r.(frame := frame)
  {
    hide StampOf;
  }

  function QuietStatus(s: StatusFields, lost: bool): StatusFields {
    var t := s.(lossy := s.lossy || lost);
    if t.phase == Draining then t.(phase := Closing, waitThrough := false) else t
  }

  /** Losing raw, never acknowledged frames is reported; losing any other is a fault. */
  predicate LossFaults(s: StatusFields) {
    || (!s.normalRx && s.goal != NoGoal && s.goal != UserGoal)
    || (s.phase == Collect && !s.normalRx)
    || (s.phase != Rx && s.phase != Collect && s.phase != Closing && s.phase != Draining)
  }

  lemma QuietShown(m: Ideal, lost: bool)
    ensures var n := Quiet(m, lost);
            ShowStatus(n.status) == QuietStatus(ShowStatus(m.status), lost) && n == m.(status := n.status)
  {
    hide StampOf;
    if m.status.phase == Draining {
    } else {
    }
  }

  function LaunchedStatus(s: StatusFields, r: ReceiptFields, busy: bool): StatusFields {
    var t := s.(transmitted := r.transmitted, normalRx := r.autoack, held := r.received, boundValid := r.received,
                frames := s.frames + if r.received then 1 else 0);
    if busy then t.(goal := BusyGoal, stopStarted := false, waitThrough := false, phase := Closing) else t.(phase := Report)
  }

  lemma LaunchedShown(m: Ideal, receipt: Receipt, busy: bool)
    ensures var n := Launched(m, receipt, busy);
            && n == m.(status := n.status, receipt := receipt)
            && ShowStatus(n.status) == LaunchedStatus(ShowStatus(m.status), ShowReceipt(receipt), busy)
  {
    hide StampOf;
    if busy {
    } else {
    }
  }

  lemma KeepShown(m: Ideal, normal: bool)
    ensures var n := Keep(m, normal);
            && n == m.(status := n.status, settled := false)
            && ShowStatus(n.status) == ShowStatus(m.status).(phase := Rx, goal := RetireGoal, normalRx := normal)
  {
    hide StampOf;
  }

  lemma ClosingShown(m: Ideal, goal: Goal)
    ensures var n := AsClosing(m, goal);
            && n == m.(status := n.status)
            && ShowStatus(n.status) == ShowStatus(m.status).(goal := goal, phase := Closing, waitThrough := false)
  {
    hide StampOf;
  }

  lemma LiveShown(m: Ideal, now: nat)
    ensures ShowStatus(m.status.(live := now)) == ShowStatus(m.status).(live := StampOf(now))
  {
    hide StampOf;
  }

  /** Sampling moves only the live instant, so what was timely at it still is. */
  lemma SampledTimely(m: Ideal, live: nat)
    requires Timely(m, live)
    ensures Timely(m.(status := m.status.(live := live)), live)
  {
    hide Near, Ceil, Sym;
  }

  predicate IdleFields(s: StatusFields) {
    s.phase == Off && !s.ready && !s.held && s.goal == NoGoal
  }

  lemma OpenShown(m: Ideal)
    ensures var n := Opened(m);
            && n == m.(status := n.status, settled := false)
            && ShowStatus(n.status) == ShowStatus(m.status).(phase := Rx, normalRx := true, stopStarted := false,
                                                             waitThrough := false, lossy := false)
  {
    hide StampOf;
  }

  lemma LoadShown(m: Ideal, length: nat, body: seq<byte>)
    ensures var n := Loaded(m, length, body); var r := ShowReceipt(m.receipt);
            && n == m.(status := n.status, receipt := n.receipt)
            && ShowStatus(n.status) == ShowStatus(m.status).(length := length)
            && ShowReceipt(n.receipt) == r.(frame := r.frame.(body := body))
  {
    hide StampOf;
  }

  lemma SlotShown(m: Ideal, tx: Tx, policy: Policy)
    ensures var n := Slotted(m, tx, policy);
            && n == m.(status := n.status, settled := false, owner := Owned(tx.id))
            && ShowStatus(n.status)
               == ShowStatus(m.status).(generation := tx.generation, retry := tx.retries, nb := tx.nb, policy := policy,
                                        normalRx := false, transmitted := false, stopStarted := false, waitThrough := false,
                                        lossy := false, goal := NoGoal, phase := Prepared)
  {
    hide StampOf;
  }

  lemma CloseShown(m: Ideal, wait: bool)
    ensures ShowStatus(m.status.(waitThrough := wait, stopStarted := false, goal := UserGoal, phase := Closing))
         == ShowStatus(m.status).(waitThrough := wait, stopStarted := false, goal := UserGoal, phase := Closing)
  {
    hide StampOf;
  }

  function ReleasedStatus(s: StatusFields, kind: Kind, source: Source): StatusFields {
    s.(ready := false, held := if kind == RxEvent then false else s.held,
       phase := if source == SentInterval then WaitMac else s.phase,
       goal := if kind == ClosedEvent || (kind == TxEvent && source != SentInterval) then NoGoal else s.goal)
  }

  lemma ReleaseShown(m: Ideal)
    ensures var n := Released(m);
            && n == m.(status := n.status)
            && ShowStatus(n.status) == ReleasedStatus(ShowStatus(m.status), m.observation.kind, m.observation.source)
  {
    hide StampOf;
  }

  // The calls by their guards, with every inner move left folded.

  lemma InitIs(m: Ideal, arguments: bool, c: Config, reply: A.RadioResult, clock: A.RadioResult, live: nat)
    ensures AdapterSpec.Init(m, arguments, c, reply, clock, live)
         == if m.status.fault != OK then Answer(m, m.status.fault)
            else if !arguments then Answer(m, INVALID)
            else if m.status.phase != Cold then Answer(m, STATE)
            else if !ConfigValid(c) then Answer(m, INVALID)
            else if !SaysReady(reply) then Answer(Fail(Cleared(m), RADIO_ERROR), RADIO_ERROR)
            else Sample(Opened(Cleared(m)), clock, live)
  {
    hide ConfigValid, SaysReady, Fail, Cleared, Opened, Sample;
  }

  lemma NowIs(m: Ideal, arguments: bool, clock: A.RadioResult, live: nat)
    ensures AdapterSpec.Now(m, arguments, clock, live)
         == if m.status.fault != OK then Answer(m, m.status.fault)
            else if !arguments then Answer(m, INVALID)
            else if m.status.phase == Cold then Answer(m, STATE)
            else Sample(m, clock, live)
  {
    hide Sample;
  }

  /** Off, nothing in hand, and an engine of this owner that has just drawn its backoff. */
  predicate Preparable(s: StatusFields, owner: Owner, tx: Tx, policy: Policy) {
    && s.phase == Off && !s.ready && !s.held && (owner == Nobody || owner == Owned(tx.id))
    && tx.phase == TxDraw && tx.generation != 0 && 0 < tx.length <= 125 && (policy == KeepAutoack ==> tx.ackRequested)
  }

  lemma PreparableShown(m: Ideal, tx: Tx, policy: Policy)
    ensures Preparable(ShowStatus(m.status), m.owner, tx, policy) == MayPrepare(m, tx, policy)
  {
  }

  lemma PrepareIs(m: Ideal, arguments: bool, tx: Tx, policy: Policy, body: seq<byte>, reply: A.RadioResult)
    ensures AdapterSpec.Prepare(m, arguments, tx, policy, body, reply)
         == if m.status.fault != OK then Answer(m, m.status.fault)
            else if !arguments then Answer(m, INVALID)
            else if !MayPrepare(m, tx, policy) then Answer(m, STATE)
            else if !tx.copies then Answer(Fail(m, PROTOCOL_ERROR), PROTOCOL_ERROR)
            else if !SaysReady(reply) then Answer(Fail(Loaded(m, tx.length, body), RADIO_ERROR), RADIO_ERROR)
            else Answer(Slotted(Loaded(m, tx.length, body), tx, policy), OK)
  {
    hide MayPrepare, SaysReady, Fail, Loaded, Slotted;
  }

  predicate Names(s: StatusFields, owner: Owner, tx: Tx, a: Action) {
    && !s.ready && owner == Owned(tx.id)
    && a.generation == s.generation && a.retry == s.retry && a.nb == s.nb
    && tx.generation == s.generation && tx.retries == s.retry && tx.nb == s.nb
    && a.phase == tx.phase && a.outcome == tx.outcome
  }

  lemma NamesShown(m: Ideal, tx: Tx, a: Action)
    ensures Names(ShowStatus(m.status), m.owner, tx, a) == Identified(m, tx, a)
  {
  }

  lemma RequestShown(live: nat, a: Action)
    ensures ShowRequested(AsRequested(live, a)) == RequestedFields(a.at, a.until, a.ackRequested, a.outcome)
  {
  }

  lemma RetiringShown(m: Ideal, q: Requested)
    ensures var n := AsRetiring(m, q); var s := ShowStatus(m.status);
            && n == m.(requested := q, settled := false, status := n.status)
            && ShowStatus(n.status)
               == s.(goal := RetireGoal, phase := if s.phase != Draining && s.phase != Off then Retiring else s.phase)
  {
    hide StampOf;
  }

  lemma AcceptIs(m: Ideal, tx: Tx, a: Action)
    ensures AdapterSpec.Accept(m, tx, a)
         == if m.status.fault != OK then Answer(m, m.status.fault)
            else if !Identified(m, tx, a) then Answer(m, STATE)
            else if a.kind == ActAttempt then
              if MayAttempt(m, tx, a) then Answer(AsScheduled(m, AsRequested(m.status.live, a)), OK) else Answer(m, STATE)
            else if a.kind == ActCollect then
              if MayCollect(m, tx, a) then Answer(AsCollecting(m), OK) else Answer(m, STATE)
            else if a.kind == ActQuiesce then
              if MayQuiesce(m, tx, a) then Answer(AsRetiring(m, AsRequested(m.status.live, a)), OK) else Answer(m, STATE)
            else Answer(m, INVALID)
  {
    hide Identified, MayAttempt, MayCollect, MayQuiesce, AsScheduled, AsCollecting, AsRetiring, AsRequested;
  }

  lemma ConsumeIs(m: Ideal, token: nat)
    ensures AdapterSpec.Consume(m, token)
         == if m.status.fault != OK then Answer(m, m.status.fault)
            else if !m.status.ready || token != m.observation.token then Answer(m, STATE)
            else Answer(Released(m), OK)
  {
    hide Released;
  }

  lemma ConfigureIs(m: Ideal, arguments: bool, c: Config, reply: A.RadioResult, clock: A.RadioResult, live: nat)
    ensures AdapterSpec.Configure(m, arguments, c, reply, clock, live)
         == if m.status.fault != OK then Answer(m, m.status.fault)
            else if !arguments then Answer(m, INVALID)
            else if !IdleOff(m) then Answer(m, STATE)
            else if !ConfigValid(c) || reply == A.INVALID_ARGUMENT then Answer(m, INVALID)
            else if !SaysReady(reply) then Answer(Fail(m, RADIO_ERROR), RADIO_ERROR)
            else Sample(m, clock, live)
  {
    hide IdleOff, ConfigValid, SaysReady, Fail, Sample;
  }

  lemma OpenIs(m: Ideal, arguments: bool, reply: A.RadioResult, clock: A.RadioResult, live: nat)
    ensures AdapterSpec.Open(m, arguments, reply, clock, live)
         == if m.status.fault != OK then Answer(m, m.status.fault)
            else if !arguments then Answer(m, INVALID)
            else if !IdleOff(m) then Answer(m, STATE)
            else if !SaysReady(reply) then Answer(Fail(m, RADIO_ERROR), RADIO_ERROR)
            else Sample(Opened(m), clock, live)
  {
    hide IdleOff, SaysReady, Fail, Opened, Sample;
  }

  lemma StepIs(m: Ideal, arguments: bool, x: StepIn)
    ensures AdapterSpec.Step(m, arguments, x)
         == if m.status.fault != OK then Turned(m, m.status.fault, NoOp)
            else if !arguments then Turned(m, INVALID, NoOp)
            else if m.status.phase == Cold then Turned(m, STATE, NoOp)
            else if m.status.ready then Turned(m, EVENT, NoOp)
            else if m.status.deliveries == UINT32_MAX || m.status.frames == UINT32_MAX
            then Turned(Fail(m, EXHAUSTED), EXHAUSTED, NoOp)
            else if SaysReady(x.clock) then AdapterSpec.Act(m.(status := m.status.(live := x.live)), x)
            else Turned(Fail(m, RADIO_ERROR), RADIO_ERROR, NoOp)
  {
    hide AdapterSpec.Act, Fail, SaysReady;
  }

  lemma ReceiveIs(m: Ideal, reply: A.RadioResult, frame: A.Frame)
    ensures var a := AdapterSpec.Receive(m, reply, frame);
            a == if SaysFrame(reply) then Answer(Held(m, frame), WAIT)
                 else if (SaysLost(reply) && LossIsFault(m.status)) || (!SaysLost(reply) && !SaysEmpty(reply))
                 then Answer(Fail(m, RADIO_ERROR), RADIO_ERROR)
                 else Answer(Quiet(m, SaysLost(reply)), WAIT)
  {
    hide Held, Fail, Quiet, LossIsFault, SaysFrame, SaysLost, SaysEmpty;
  }

  class Adapter {
    var status: StatusFields
    var observation: ObservationFields
    var receipt: ReceiptFields
    var requested: RequestedFields
    var began: E.Stamp
    var through: E.Stamp
    var retired: E.Stamp
    var settled: bool
    var owner: Owner
    /** The machine over true time that these fields show. */
    ghost var ideal: Ideal

    ghost predicate Shows(m: Ideal)
      reads `status, `observation, `receipt, `requested, `began, `through, `retired, `settled, `owner
    {
      && status == ShowStatus(m.status) && observation == ShowObservation(m.observation) && receipt == ShowReceipt(m.receipt)
      && requested == ShowRequested(m.requested) && began == StampOf(m.began) && through == StampOf(m.through)
      && retired == StampOf(m.retired) && settled == m.settled && owner == m.owner
    }

    constructor ()
      ensures Shows(ideal) && ideal == Blank()
    {
      var zero := E.Stamp(0, 0);
      status := StatusFields(zero, zero, 0, 0, 0, Cold, OK, false, false, 0, 0, 0, StopRx, false, false, false, NoGoal,
                             false, false, false);
      observation := ObservationFields(NoKind, NoSource, 0, 0, 0, 0, zero, zero, zero, 0, 0, false, false);
      receipt := ReceiptFields(zero, zero, zero, zero, zero, BLANK_FRAME, false, false, false);
      requested := RequestedFields(0, 0, false, NoOutcome);
      began, through, retired, settled, owner := zero, zero, zero, false, Nobody;
      ideal := Blank();
    }

    method FailWith(why: Result, ghost m: Ideal) returns (result: Result)
      requires Shows(m)
      modifies `status
      ensures result == why && Shows(Fail(m, why))
    {
      FailShown(m, why);
      hide Fail, ShowStatus, ShowObservation, ShowReceipt, ShowRequested, StampOf;
      status := status.(phase := Fault, fault := why);
      result := why;
    }

    /** Raises an event with the given bounds, unless the event numbers are used up. */
    method Publish(kind: Kind, source: Source, lower: E.Stamp, upper: E.Stamp, ghost m: Ideal, ghost from: nat, ghost until: nat)
        returns (result: Result)
      requires Shows(m) && lower == StampOf(from) && upper == StampOf(until)
      modifies `status, `observation
      ensures result == if MayPublish(m) then EVENT else EXHAUSTED
      ensures Shows(if MayPublish(m) then AdapterSpec.Publish(m, kind, source, from, until) else Fail(m, EXHAUSTED))
    {
      PublishShown(m, kind, source, from, until);
      assert status.deliveries == m.status.deliveries;
      hide Fail, AdapterSpec.Publish, ShowStatus, ShowObservation, ShowReceipt, ShowRequested, StampOf;
      if status.deliveries == UINT32_MAX {
        result := FailWith(EXHAUSTED, m);
        return;
      }
      observation := ObservationFields(kind, source, status.generation, status.retry, status.nb, status.live.symbols, lower,
                                       upper, status.watermark, status.deliveries + 1, status.frames, status.normalRx,
                                       status.lossy);
      status := status.(deliveries := status.deliveries + 1, ready := true);
      result := EVENT;
    }

    /** Offers the held frame once its bound has passed. */
    method Offer(ghost m: Ideal) returns (result: Result)
      requires Shows(m) && (m.status.boundValid ==> Near(Sym(m.status.live), Ceil(m.receipt.rxUpper)))
      modifies `status, `observation, `receipt
      ensures result == AdapterSpec.Offer(m).result && Shows(AdapterSpec.Offer(m).next)
    {
      ghost var b := Bound(m);
      BoundShown(m);
      assert b.status.live == m.status.live
             && (!m.status.boundValid ==> b.receipt.rxUpper == m.status.live) && (m.status.boundValid ==> b == m);
      assert status.live == StampOf(m.status.live);
      hide Bound, OfferBound, ShowStatus, ShowObservation, ShowReceipt, ShowRequested, StampOf;
      if !status.boundValid {
        receipt := receipt.(rxUpper := status.live);
        status := status.(boundValid := true);
      }
      result := OfferBounded(b);
    }

    method OfferBounded(ghost m: Ideal) returns (result: Result)
      requires Shows(m) && Near(Sym(m.status.live), Ceil(m.receipt.rxUpper))
      modifies `status, `observation
      ensures result == OfferBound(m).result && Shows(OfferBound(m).next)
    {
      assert status.live == StampOf(m.status.live) && status.phase == m.status.phase && receipt.frame == m.receipt.frame
             && receipt.rxUpper == StampOf(m.receipt.rxUpper) && receipt.txLower == StampOf(m.receipt.txLower);
      CeilShown(m.status.live, m.receipt.rxUpper);
      hide Ceil, Sym, IsAck, Reached, CeilOf, Fail, AdapterSpec.Publish, MayPublish, ShowStatus, ShowObservation, ShowReceipt,
           ShowRequested, StampOf;
      if !Reached(status.live.symbols, CeilOf(receipt.rxUpper)) { return WAIT; }
      var source := if status.phase == Collect && IsAck(receipt.frame) then AckInterval else NoSource;
      result := Publish(RxEvent, source, receipt.txLower, receipt.rxUpper, m, m.receipt.txLower, m.receipt.rxUpper);
    }

    method ReportSent(ghost m: Ideal) returns (result: Result)
      requires Shows(m) && (m.status.transmitted ==> Near(Sym(m.status.live), Ceil(m.receipt.txUpper)))
      modifies `status, `observation
      ensures result == AdapterSpec.ReportSent(m).result && Shows(AdapterSpec.ReportSent(m).next)
    {
      assert status.live == StampOf(m.status.live) && status.transmitted == m.status.transmitted
             && receipt.txUpper == StampOf(m.receipt.txUpper) && receipt.txLower == StampOf(m.receipt.txLower);
      if m.status.transmitted {
        CeilShown(m.status.live, m.receipt.txUpper);
      }
      hide Ceil, Sym, Reached, CeilOf, Fail, AdapterSpec.Publish, MayPublish, ShowStatus, ShowObservation, ShowReceipt,
           ShowRequested, StampOf;
      if !status.transmitted {
        result := FailWith(PROTOCOL_ERROR, m);
        return;
      }
      if !Reached(status.live.symbols, CeilOf(receipt.txUpper)) { return WAIT; }
      result := Publish(TxEvent, SentInterval, receipt.txLower, receipt.txUpper, m, m.receipt.txLower, m.receipt.txUpper);
    }

    method ReportGoal(ghost m: Ideal) returns (result: Result)
      requires Shows(m) && (m.settled ==> Near(Sym(m.status.live), Ceil(m.retired)))
      modifies `status, `observation, `retired, `settled
      ensures result == AdapterSpec.ReportGoal(m).result && Shows(AdapterSpec.ReportGoal(m).next)
    {
      ghost var b := Settle(m);
      assert status.live == StampOf(m.status.live);
      assert b == m.(retired := b.retired, settled := true) && (m.settled ==> b == m) && (!m.settled ==> b.retired == m.status.live);
      hide Settle, ReportSettled, ShowStatus, ShowObservation, ShowReceipt, ShowRequested, StampOf;
      if !settled {
        retired := status.live;
        settled := true;
      }
      result := ReportSettledGoal(b);
    }

    method ReportSettledGoal(ghost m: Ideal) returns (result: Result)
      requires Shows(m) && Near(Sym(m.status.live), Ceil(m.retired))
      modifies `status, `observation
      ensures result == ReportSettled(m).result && Shows(ReportSettled(m).next)
    {
      assert status.live == StampOf(m.status.live) && status.goal == m.status.goal
             && status.watermark == StampOf(m.status.watermark) && receipt.armed == StampOf(m.receipt.armed);
      CeilShown(m.status.live, m.retired);
      AddSymbols(m.began, 8);
      assert StampOf(0) == E.Stamp(0, 0);
      hide Ceil, Sym, Reached, CeilOf, Fail, AdapterSpec.Publish, MayPublish, GoalSource, Plus, ShowStatus, ShowObservation,
           ShowReceipt, ShowRequested, StampOf;
      if !Reached(status.live.symbols, CeilOf(retired)) { return WAIT; }
      var source := GoalSource(status.goal);
      var lower, upper := E.Stamp(0, 0), retired;
      if source == RxClosed {
        upper := status.watermark;
      } else if source == BusyInterval {
        upper, lower := receipt.armed, E.Stamp(Plus(began.symbols, 8), began.fine);
      }
      result := Publish(if source == NoSource then ClosedEvent else TxEvent, source, lower, upper, m, GoalLower(m, source),
                        GoalUpper(m, source));
    }

    method StopRadio(reply: A.RadioResult, ghost m: Ideal) returns (result: Result)
      requires Shows(m)
      modifies `status, `settled
      ensures result == AdapterSpec.StopRadio(m, reply).result && Shows(AdapterSpec.StopRadio(m, reply).next)
    {
      StopShown(m, reply);
      hide AdapterSpec.StopRadio, SaysStopped, SaysDrain, ShowStatus, ShowObservation, ShowReceipt, ShowRequested, StampOf;
      status := status.(watermark := if status.stopStarted then status.watermark else status.live, stopStarted := true);
      if SaysStopped(reply) {
        status := status.(phase := Off);
        settled := false;
        return WAIT;
      }
      if SaysDrain(reply) {
        status := status.(phase := Draining);
        return WAIT;
      }
      status := status.(phase := Fault, fault := RADIO_ERROR);
      result := RADIO_ERROR;
    }

    method Receive(reply: A.RadioResult, frame: A.Frame, ghost m: Ideal) returns (result: Result)
      requires Shows(m)
      modifies `status, `receipt
      ensures result == AdapterSpec.Receive(m, reply, frame).result && Shows(AdapterSpec.Receive(m, reply, frame).next)
    {
      assert LossIsFault(m.status) == LossFaults(status);
      ReceiveIs(m, reply, frame);
      hide *;
      if SaysFrame(reply) {
        Take(frame, m);
        result := WAIT;
      } else if (SaysLost(reply) && LossFaults(status)) || (!SaysLost(reply) && !SaysEmpty(reply)) {
        result := FailWith(RADIO_ERROR, m);
      } else {
        Drained(SaysLost(reply), m);
        result := WAIT;
      }
    }

    /** A frame read from the FIFO is held until its event is consumed. */
    method Take(frame: A.Frame, ghost m: Ideal)
      requires Shows(m)
      modifies `status, `receipt
      ensures Shows(Held(m, frame))
    {
      HeldShown(m, frame);
      hide Held, ShowStatus, ShowObservation, ShowReceipt, ShowRequested, StampOf;
      receipt := receipt.(frame := frame);
      status := status.(held := true, boundValid := false, frames := status.frames + 1);
    }

    method Drained(lost: bool, ghost m: Ideal)
      requires Shows(m)
      modifies `status
      ensures Shows(Quiet(m, lost))
    {
      QuietShown(m, lost);
      hide Quiet, QuietStatus, ShowStatus, ShowObservation, ShowReceipt, ShowRequested, StampOf;
      EndDrain(lost);
    }

    /** Nothing came: note a loss, and let a drain end. */
    method EndDrain(lost: bool)
      modifies `status
      ensures status == QuietStatus(old(status), lost)
    {
      if lost { status := status.(lossy := true); }
      if status.phase == Draining {
        status := status.(phase := Closing, waitThrough := false);
      }
    }

    method Launch(run: A.RadioResult, record: ReceiptFields, ghost m: Ideal, ghost truth: Receipt)
        returns (result: Result, op: Operation)
      requires Shows(m) && record == ShowReceipt(truth)
      requires Near(Sym(m.status.live), m.requested.until)
      requires Sym(m.status.live) < m.requested.until ==> Near(Sym(m.status.live), m.requested.at)
      modifies `status, `receipt, `began
      ensures var t := AdapterSpec.Launch(m, run, truth); result == t.result && op == t.operation && Shows(t.next)
    {
      assert status.live.symbols == Wrap(Sym(m.status.live)) && requested.at == WordOf(m.requested.at)
             && requested.until == WordOf(m.requested.until);
      ReachedShown(Sym(m.status.live), m.requested.until);
      if Sym(m.status.live) < m.requested.until {
        ReachedShown(Sym(m.status.live), m.requested.at);
      }
      hide Begin, Launched, Fail, RunEnds, SaysBusy, Sym, Reached, WordOf, Wrap, ShowStatus, ShowObservation, ShowReceipt,
           ShowRequested, StampOf;
      op := NoOp;
      if Reached(status.live.symbols, requested.until) { return EXPIRED, op; }
      if !Reached(status.live.symbols, requested.at) { return WAIT, op; }
      op := RunOp;
      Begins(m);
      if !RunEnds(run) {
        result := FailWith(RADIO_ERROR, Begin(m));
        return;
      }
      Ends(record, SaysBusy(run), Begin(m), truth);
      result := WAIT;
    }

    method Begins(ghost m: Ideal)
      requires Shows(m)
      modifies `began
      ensures Shows(Begin(m))
    {
      assert status.live == StampOf(m.status.live);
      hide ShowStatus, ShowObservation, ShowReceipt, ShowRequested, StampOf;
      began := status.live;
    }

    /** Takes over the receipt of a finished attempt. */
    method Ends(record: ReceiptFields, busy: bool, ghost m: Ideal, ghost truth: Receipt)
      requires Shows(m) && record == ShowReceipt(truth)
      modifies `status, `receipt
      ensures Shows(Launched(m, truth, busy))
    {
      LaunchedShown(m, truth, busy);
      hide Launched, LaunchedStatus, ShowStatus, ShowObservation, ShowReceipt, ShowRequested, StampOf;
      receipt := record;
      Settles(busy);
    }

    method Settles(busy: bool)
      modifies `status
      ensures status == LaunchedStatus(old(status), receipt, busy)
    {
      status := status.(transmitted := receipt.transmitted, normalRx := receipt.autoack, held := receipt.received,
                        boundValid := receipt.received);
      if status.held { status := status.(frames := status.frames + 1); }
      if busy {
        status := status.(goal := BusyGoal, stopStarted := false, waitThrough := false, phase := Closing);
      } else {
        status := status.(phase := Report);
      }
    }

    method KeepOn(normal: bool, ghost m: Ideal)
      requires Shows(m)
      modifies `status, `settled
      ensures Shows(Keep(m, normal))
    {
      KeepShown(m, normal);
      hide Keep, ShowStatus, ShowObservation, ShowReceipt, ShowRequested, StampOf;
      status := status.(phase := Rx, goal := RetireGoal, normalRx := normal);
      settled := false;
    }

    method EnterClosing(goal: Goal, ghost m: Ideal)
      requires Shows(m)
      modifies `status
      ensures Shows(AsClosing(m, goal))
    {
      ClosingShown(m, goal);
      hide AsClosing, ShowStatus, ShowObservation, ShowReceipt, ShowRequested, StampOf;
      status := status.(goal := goal, phase := Closing, waitThrough := false);
    }

    method Retire(reply: A.RadioResult, ghost m: Ideal) returns (result: Result, op: Operation)
      requires Shows(m)
      modifies `status, `settled
      ensures var t := AdapterSpec.Retire(m, reply); result == t.result && op == t.operation && Shows(t.next)
    {
      assert KeepsAutoack(m) == (requested.outcome == Acked && status.policy == KeepAutoack);
      assert KeepsRaw(m) == (status.transmitted && status.policy == KeepRaw && requested.outcome == Unacknowledged);
      assert status.normalRx == m.status.normalRx && status.goal == m.status.goal;
      hide KeepsAutoack, KeepsRaw, Keep, AsClosing, AdapterSpec.StopRadio, Fail, SaysReady, ShowStatus, ShowObservation,
           ShowReceipt, ShowRequested, StampOf, Shows;
      if requested.outcome == Acked && status.policy == KeepAutoack {
        op := if status.normalRx then NoOp else HandoffOp;
        if !status.normalRx && !SaysReady(reply) {
          result := FailWith(RADIO_ERROR, m);
          return;
        }
        KeepOn(true, m);
        return WAIT, op;
      }
      if status.transmitted && status.policy == KeepRaw && requested.outcome == Unacknowledged {
        KeepOn(status.normalRx, m);
        return WAIT, NoOp;
      }
      EnterClosing(status.goal, m);
      result := StopRadio(reply, AsClosing(m, m.status.goal));
      op := StopOp;
    }

    /** The end of a reception: a collected window first becomes a closing one. */
    method CloseNow(reply: A.RadioResult, ghost m: Ideal) returns (result: Result)
      requires Shows(m)
      modifies `status, `settled
      ensures var c := if m.status.phase == Collect then AsClosing(m, AckGoal) else m;
              result == AdapterSpec.StopRadio(c, reply).result && Shows(AdapterSpec.StopRadio(c, reply).next)
    {
      assert status.phase == m.status.phase;
      hide AdapterSpec.StopRadio, AsClosing, ShowStatus, ShowObservation, ShowReceipt, ShowRequested, StampOf, Shows;
      if status.phase == Collect {
        EnterClosing(AckGoal, m);
        result := StopRadio(reply, AsClosing(m, AckGoal));
      } else {
        result := StopRadio(reply, m);
      }
    }

    /** What is left once retirement has nothing to do: a due end, an end to report, or a look at the radio. */
    method Follow(reply: A.RadioResult, frame: A.Frame, ghost m: Ideal) returns (result: Result, op: Operation)
      requires Shows(m) && Timely(m, m.status.live) && !m.status.held
      requires !(m.status.phase == Retiring && !m.status.stopStarted) && !(m.status.phase == Rx && m.status.goal == RetireGoal)
      modifies `status, `observation, `receipt, `retired, `settled
      ensures var t := AdapterSpec.Turn(m, reply, frame); result == t.result && op == t.operation && Shows(t.next)
    {
      assert status.phase == m.status.phase && status.goal == m.status.goal
             && status.waitThrough == m.status.waitThrough && through == StampOf(m.through) && status.live == StampOf(m.status.live);
      if status.phase == Collect || (status.phase == Closing && status.waitThrough) {
        OrderedShown(m.through, m.status.live);
      }
      hide AdapterSpec.Retire, AdapterSpec.ReportGoal, AdapterSpec.StopRadio, AdapterSpec.Receive, AsClosing, Ceil, Sym, Near, OrderedStamps,
           ShowStatus, ShowObservation, ShowReceipt, ShowRequested, StampOf, Shows;
      op := NoOp;
      if (status.phase == Collect && OrderedStamps(through, status.live))
         || (status.phase == Closing && (!status.waitThrough || OrderedStamps(through, status.live))) {
        op := StopOp;
        result := CloseNow(reply, m);
      } else if status.phase == Off {
        if status.goal == NoGoal { return WAIT, op; }
        result := ReportGoal(m);
      } else {
        op := ReceiveOp;
        result := Receive(reply, frame, m);
      }
    }

    method Turn(reply: A.RadioResult, frame: A.Frame, ghost m: Ideal) returns (result: Result, op: Operation)
      requires Shows(m) && Timely(m, m.status.live) && !m.status.held
      modifies `status, `observation, `receipt, `retired, `settled
      ensures var t := AdapterSpec.Turn(m, reply, frame); result == t.result && op == t.operation && Shows(t.next)
    {
      assert status.phase == m.status.phase && status.stopStarted == m.status.stopStarted && status.goal == m.status.goal;
      hide AdapterSpec.Retire, AdapterSpec.ReportGoal, AdapterSpec.StopRadio, AdapterSpec.Receive, AsClosing, CloseDue, Ceil, Sym, Near,
           ShowStatus, ShowObservation, ShowReceipt, ShowRequested, StampOf, Shows;
      op := NoOp;
      if status.phase == Retiring && !status.stopStarted {
        result, op := Retire(reply, m);
      } else if status.phase == Rx && status.goal == RetireGoal {
        result := ReportGoal(m);
      } else {
        result, op := Follow(reply, frame, m);
      }
    }

    method Act(x: StepFields, ghost m: Ideal, ghost truth: StepIn) returns (result: Result, op: Operation)
      requires Shows(m) && Timely(m, m.status.live) && x == ShowIn(truth)
      modifies `status, `observation, `receipt, `retired, `settled, `began
      ensures var t := AdapterSpec.Act(m, truth); result == t.result && op == t.operation && Shows(t.next)
    {
      assert status.phase == m.status.phase && status.held == m.status.held;
      assert x.run == truth.run && x.receipt == ShowReceipt(truth.receipt) && x.reply == truth.reply && x.frame == truth.frame;
      hide AdapterSpec.Launch, AdapterSpec.ReportSent, AdapterSpec.Offer, AdapterSpec.Turn, Ceil, Sym, Near, ShowStatus, ShowObservation,
           ShowReceipt, ShowRequested, StampOf, Shows;
      op := NoOp;
      if status.phase == Scheduled {
        result, op := Launch(x.run, x.receipt, m, truth.receipt);
      } else if status.phase == Report {
        result := ReportSent(m);
      } else if status.phase == WaitMac || status.phase == Prepared {
        result := WAIT;
      } else if status.held {
        result := Offer(m);
      } else {
        result, op := Turn(x.reply, x.frame, m);
      }
    }

    /** Samples the clock into the live stamp, or faults. */
    method Clock(clock: A.RadioResult, live: E.Stamp, ghost m: Ideal, ghost now: nat) returns (result: Result)
      requires Shows(m) && live == StampOf(now)
      modifies `status
      ensures result == Sample(m, clock, now).result && Shows(Sample(m, clock, now).next)
    {
      LiveShown(m, now);
      hide Fail, SaysReady, ShowStatus, ShowObservation, ShowReceipt, ShowRequested, StampOf;
      if !SaysReady(clock) {
        result := FailWith(RADIO_ERROR, m);
        return;
      }
      status := status.(live := live);
      result := OK;
    }

    /** The clock, then the act at the sampled instant. */
    method Progress(x: StepFields, ghost m: Ideal, ghost truth: StepIn) returns (result: Result, op: Operation)
      requires Shows(m) && x == ShowIn(truth) && (SaysReady(truth.clock) ==> Timely(m, truth.live))
      modifies `status, `observation, `receipt, `retired, `settled, `began
      ensures var b := m.(status := m.status.(live := truth.live));
              if SaysReady(truth.clock) then
                var t := AdapterSpec.Act(b, truth); result == t.result && op == t.operation && Shows(t.next)
              else result == RADIO_ERROR && op == NoOp && Shows(Fail(m, RADIO_ERROR))
    {
      assert x.clock == truth.clock && x.live == StampOf(truth.live);
      if SaysReady(truth.clock) {
        SampledTimely(m, truth.live);
      }
      hide AdapterSpec.Act, Fail, Timely, ShowIn, ShowStatus, ShowObservation, ShowReceipt, ShowRequested, StampOf, Shows, SaysReady;
      result := Clock(x.clock, x.live, m, truth.live);
      if result != OK { return result, NoOp; }
      result, op := Act(x, m.(status := m.status.(live := truth.live)), truth);
    }

    /** Bounded progress with at most one radio operation, which `op` names. */
    method Step(arguments: bool, x: StepFields, ghost truth: StepIn) returns (result: Result, op: Operation)
      requires Shows(ideal) && x == ShowIn(truth)
      requires Samples(ideal, arguments, truth) ==> Timely(ideal, truth.live)
      modifies this
      ensures Shows(ideal)
      ensures var t := AdapterSpec.Step(old(ideal), arguments, truth);
              ideal == t.next && result == t.result && op == t.operation
    {
      assert status.fault == ideal.status.fault && status.phase == ideal.status.phase && status.ready == ideal.status.ready
             && status.deliveries == ideal.status.deliveries && status.frames == ideal.status.frames;
      StepIs(ideal, arguments, truth);
      hide *;
      op := NoOp;
      if status.fault != OK { return status.fault, op; }
      if !arguments { return INVALID, op; }
      if status.phase == Cold { return STATE, op; }
      if status.ready { return EVENT, op; }
      if status.deliveries == UINT32_MAX || status.frames == UINT32_MAX {
        result := FailWith(EXHAUSTED, ideal);
      } else {
        result, op := Progress(x, ideal, truth);
      }
      ideal := AdapterSpec.Step(ideal, arguments, truth).next;
    }

    method Init(arguments: bool, config: Config, reply: A.RadioResult, clock: A.RadioResult, live: E.Stamp, ghost now: nat)
        returns (result: Result)
      requires Shows(ideal) && live == StampOf(now)
      modifies this
      ensures Shows(ideal)
      ensures var a := AdapterSpec.Init(old(ideal), arguments, config, reply, clock, now); ideal == a.next && result == a.result
    {
      assert status.fault == ideal.status.fault && status.phase == ideal.status.phase;
      InitIs(ideal, arguments, config, reply, clock, now);
      hide *;
      if status.fault != OK { return status.fault; }
      if !arguments { return INVALID; }
      if status.phase != Cold { return STATE; }
      if !ConfigValid(config) { return INVALID; }
      ghost var b := Cleared(ideal);
      Clear(ideal);
      if !SaysReady(reply) {
        result := FailWith(RADIO_ERROR, b);
      } else {
        OpensUp(b);
        result := Clock(clock, live, Opened(b), now);
      }
      ideal := AdapterSpec.Init(ideal, arguments, config, reply, clock, now).next;
    }

    /** Everything zero but the three stamps of earlier episodes. */
    method Clear(ghost m: Ideal)
      requires Shows(m)
      modifies `status, `observation, `receipt, `requested, `settled, `owner
      ensures Shows(Cleared(m))
    {
      var zero := E.Stamp(0, 0);
      status := StatusFields(zero, zero, 0, 0, 0, Cold, OK, false, false, 0, 0, 0, StopRx, false, false, false, NoGoal,
                             false, false, false);
      observation := ObservationFields(NoKind, NoSource, 0, 0, 0, 0, zero, zero, zero, 0, 0, false, false);
      receipt := ReceiptFields(zero, zero, zero, zero, zero, BLANK_FRAME, false, false, false);
      requested, settled, owner := RequestedFields(0, 0, false, NoOutcome), false, Nobody;
    }

    /** A fresh reception state; any loss of an earlier one is no longer reported. */
    method OpensUp(ghost m: Ideal)
      requires Shows(m)
      modifies `status, `settled
      ensures Shows(Opened(m))
    {
      OpenShown(m);
      hide Opened, ShowStatus, ShowObservation, ShowReceipt, ShowRequested, StampOf;
      status := status.(phase := Rx, normalRx := true, stopStarted := false, waitThrough := false, lossy := false);
      settled := false;
    }

    method Now(arguments: bool, clock: A.RadioResult, live: E.Stamp, ghost now: nat) returns (result: Result, output: E.Stamp)
      requires Shows(ideal) && live == StampOf(now)
      modifies this
      ensures Shows(ideal)
      ensures var a := AdapterSpec.Now(old(ideal), arguments, clock, now); ideal == a.next && result == a.result
      ensures output == status.live
    {
      assert status.fault == ideal.status.fault && status.phase == ideal.status.phase;
      NowIs(ideal, arguments, clock, now);
      hide *;
      output := status.live;
      if status.fault != OK { return status.fault, output; }
      if !arguments { return INVALID, output; }
      if status.phase == Cold { return STATE, output; }
      result := Clock(clock, live, ideal, now);
      ideal := AdapterSpec.Now(ideal, arguments, clock, now).next;
      output := status.live;
    }

    /** Owns a transmit slot for the engine's frame; the copied body overlays the receipt's frame buffer. */
    method Prepare(arguments: bool, tx: Tx, policy: Policy, body: seq<byte>, reply: A.RadioResult) returns (result: Result)
      requires Shows(ideal)
      modifies this
      ensures Shows(ideal)
      ensures var a := AdapterSpec.Prepare(old(ideal), arguments, tx, policy, body, reply);
              ideal == a.next && result == a.result
    {
      assert status.fault == ideal.status.fault && status == ShowStatus(ideal.status) && owner == ideal.owner;
      PreparableShown(ideal, tx, policy);
      PrepareIs(ideal, arguments, tx, policy, body, reply);
      hide *;
      if status.fault != OK { return status.fault; }
      if !arguments { return INVALID; }
      if !Preparable(status, owner, tx, policy) { return STATE; }
      if tx.copies {
        result := Occupy(tx, policy, body, reply, ideal);
      } else {
        result := FailWith(PROTOCOL_ERROR, ideal);
      }
      ideal := AdapterSpec.Prepare(ideal, arguments, tx, policy, body, reply).next;
    }

    method Occupy(tx: Tx, policy: Policy, body: seq<byte>, reply: A.RadioResult, ghost m: Ideal) returns (result: Result)
      requires Shows(m)
      modifies `status, `receipt, `settled, `owner
      ensures result == if SaysReady(reply) then OK else RADIO_ERROR
      ensures var b := Loaded(m, tx.length, body); Shows(if SaysReady(reply) then Slotted(b, tx, policy) else Fail(b, RADIO_ERROR))
    {
      hide *;
      CopyBody(tx.length, body, m);
      if SaysReady(reply) {
        OwnSlot(tx, policy, Loaded(m, tx.length, body));
        result := OK;
      } else {
        result := FailWith(RADIO_ERROR, Loaded(m, tx.length, body));
      }
    }

    method CopyBody(length: nat, body: seq<byte>, ghost m: Ideal)
      requires Shows(m)
      modifies `status, `receipt
      ensures Shows(Loaded(m, length, body))
    {
      LoadShown(m, length, body);
      hide Loaded, ShowStatus, ShowObservation, ShowReceipt, ShowRequested, StampOf;
      receipt := receipt.(frame := receipt.frame.(body := body));
      status := status.(length := length);
    }

    method OwnSlot(tx: Tx, policy: Policy, ghost m: Ideal)
      requires Shows(m)
      modifies `status, `settled, `owner
      ensures Shows(Slotted(m, tx, policy))
    {
      SlotShown(m, tx, policy);
      hide Slotted, ShowStatus, ShowObservation, ShowReceipt, ShowRequested, StampOf;
      status := status.(generation := tx.generation, retry := tx.retries, nb := tx.nb, policy := policy, normalRx := false,
                        transmitted := false, stopStarted := false, waitThrough := false, lossy := false, goal := NoGoal,
                        phase := Prepared);
      owner, settled := Owned(tx.id), false;
    }

    method EnterPhase(phase: Phase, ghost m: Ideal)
      requires Shows(m)
      modifies `status
      ensures Shows(m.(status := m.status.(phase := phase)))
    {
      ShowPhase(m.status, phase, m.status.fault);
      assert status.fault == m.status.fault;
      hide ShowStatus, ShowObservation, ShowReceipt, ShowRequested, StampOf;
      status := status.(phase := phase);
    }

    method Unprepare(arguments: bool, tx: Tx, reply: A.RadioResult) returns (result: Result)
      requires Shows(ideal)
      modifies this
      ensures Shows(ideal)
      ensures var a := AdapterSpec.Unprepare(old(ideal), arguments, tx, reply); ideal == a.next && result == a.result
    {
      assert status.fault == ideal.status.fault && status.phase == ideal.status.phase && status.ready == ideal.status.ready
             && status.generation == ideal.status.generation && owner == ideal.owner;
      hide Fail, SaysStopped, ShowStatus, ShowObservation, ShowReceipt, ShowRequested, StampOf, Shows;
      if status.fault != OK { return status.fault; }
      if !arguments { return INVALID; }
      if owner != Owned(tx.id) || status.ready || status.phase != Prepared || tx.phase != TxDone
         || tx.generation != status.generation {
        return STATE;
      }
      if !SaysStopped(reply) {
        result := FailWith(RADIO_ERROR, ideal);
      } else {
        EnterPhase(Off, ideal);
        result := OK;
      }
      ideal := AdapterSpec.Unprepare(ideal, arguments, tx, reply).next;
    }

    /** A caller's close, now or at a stamp no more than half a range ahead. */
    method Close(end: End) returns (result: Result)
      requires Shows(ideal)
      modifies this
      ensures Shows(ideal)
      ensures var a := AdapterSpec.Close(old(ideal), end); ideal == a.next && result == a.result
    {
      assert status.fault == ideal.status.fault && status.phase == ideal.status.phase && status.ready == ideal.status.ready;
      ghost var m := ideal;
      if end.At? && end.stamp.fine < UNIT { UnwrapExact(m.status.live, end.stamp); }
      assert end.At? ==> OrderedStamps(status.live, end.stamp) == Ahead(m.status.live, end.stamp);
      CloseShown(m, end.At?);
      hide Ahead, Unwrap, OrderedStamps, ShowStatus, ShowObservation, ShowReceipt, ShowRequested, StampOf;
      if status.fault != OK { return status.fault; }
      if status.phase != Rx || status.ready { return STATE; }
      if end.At? {
        if end.stamp.fine >= UNIT || !OrderedStamps(status.live, end.stamp) { return INVALID; }
        through := end.stamp;
      }
      status := status.(waitThrough := end.At?, stopStarted := false, goal := UserGoal, phase := Closing);
      settled := false;
      ideal := AdapterSpec.Close(m, end).next;
      result := OK;
    }

    method Consume(token: nat) returns (result: Result)
      requires Shows(ideal)
      modifies this
      ensures Shows(ideal)
      ensures var a := AdapterSpec.Consume(old(ideal), token); ideal == a.next && result == a.result
    {
      assert status.fault == ideal.status.fault && status.ready == ideal.status.ready && observation.token == ideal.observation.token;
      ConsumeIs(ideal, token);
      hide *;
      if status.fault != OK { return status.fault; }
      if !status.ready || token != observation.token { return STATE; }
      Release(ideal);
      ideal := AdapterSpec.Consume(ideal, token).next;
      result := OK;
    }

    /** The event is used up: a frame is no longer held, a sent report waits for the engine, a goal is met. */
    method Release(ghost m: Ideal)
      requires Shows(m)
      modifies `status
      ensures Shows(Released(m))
    {
      ReleaseShown(m);
      assert observation.kind == m.observation.kind && observation.source == m.observation.source;
      hide Released, ReleasedStatus, ShowStatus, ShowObservation, ShowReceipt, ShowRequested, StampOf;
      ReleaseFields();
    }

    method ReleaseFields()
      modifies `status
      ensures status == ReleasedStatus(old(status), observation.kind, observation.source)
    {
      status := status.(ready := false);
      if observation.kind == RxEvent { status := status.(held := false); }
      if observation.source == SentInterval { status := status.(phase := WaitMac); }
      if observation.kind == ClosedEvent || (observation.kind == TxEvent && observation.source != SentInterval) {
        status := status.(goal := NoGoal);
      }
    }

    method Configure(arguments: bool, config: Config, reply: A.RadioResult, clock: A.RadioResult, live: E.Stamp, ghost now: nat)
        returns (result: Result)
      requires Shows(ideal) && live == StampOf(now)
      modifies this
      ensures Shows(ideal)
      ensures var a := AdapterSpec.Configure(old(ideal), arguments, config, reply, clock, now);
              ideal == a.next && result == a.result
    {
      assert status.fault == ideal.status.fault && IdleOff(ideal) == IdleFields(status);
      ConfigureIs(ideal, arguments, config, reply, clock, now);
      hide *;
      if status.fault != OK { return status.fault; }
      if !arguments { return INVALID; }
      if !IdleFields(status) { return STATE; }
      if !ConfigValid(config) || reply == A.INVALID_ARGUMENT { return INVALID; }
      if !SaysReady(reply) {
        result := FailWith(RADIO_ERROR, ideal);
      } else {
        result := Clock(clock, live, ideal, now);
      }
      ideal := AdapterSpec.Configure(ideal, arguments, config, reply, clock, now).next;
    }

    /** A new reception episode; the live sample after it bounds its start. */
    method Open(arguments: bool, reply: A.RadioResult, clock: A.RadioResult, live: E.Stamp, ghost now: nat)
        returns (result: Result)
      requires Shows(ideal) && live == StampOf(now)
      modifies this
      ensures Shows(ideal)
      ensures var a := AdapterSpec.Open(old(ideal), arguments, reply, clock, now); ideal == a.next && result == a.result
    {
      assert status.fault == ideal.status.fault && IdleOff(ideal) == IdleFields(status);
      OpenIs(ideal, arguments, reply, clock, now);
      hide *;
      if status.fault != OK { return status.fault; }
      if !arguments { return INVALID; }
      if !IdleFields(status) { return STATE; }
      if !SaysReady(reply) {
        result := FailWith(RADIO_ERROR, ideal);
      } else {
        OpensUp(ideal);
        result := Clock(clock, live, Opened(ideal), now);
      }
      ideal := AdapterSpec.Open(ideal, arguments, reply, clock, now).next;
    }

    /** One action of the engine: schedule the attempt, collect acknowledgements, or retire. */
    method Accept(tx: Tx, a: Action) returns (result: Result)
      requires Shows(ideal)
      modifies this
      ensures Shows(ideal)
      ensures var r := AdapterSpec.Accept(old(ideal), tx, a); ideal == r.next && result == r.result
    {
      assert status.fault == ideal.status.fault && status == ShowStatus(ideal.status) && owner == ideal.owner;
      NamesShown(ideal, tx, a);
      hide AdapterSpec.Accept, Identified, Names, ShowStatus, ShowObservation, ShowReceipt, ShowRequested, StampOf;
      AcceptIs(ideal, tx, a);
      if status.fault != OK { return status.fault; }
      if !Names(status, owner, tx, a) { return STATE; }
      if a.kind == ActAttempt {
        result := AcceptAttempt(tx, a, ideal);
      } else if a.kind == ActCollect {
        result := AcceptCollect(tx, a, ideal);
      } else if a.kind == ActQuiesce {
        result := AcceptQuiesce(tx, a, ideal);
      } else {
        result := INVALID;
      }
      ideal := AdapterSpec.Accept(ideal, tx, a).next;
    }

    method AcceptAttempt(tx: Tx, a: Action, ghost m: Ideal) returns (result: Result)
      requires Shows(m)
      modifies `status, `requested
      ensures result == if MayAttempt(m, tx, a) then OK else STATE
      ensures Shows(if MayAttempt(m, tx, a) then AsScheduled(m, AsRequested(m.status.live, a)) else m)
    {
      assert status.phase == m.status.phase && status.length == m.status.length && status.fault == m.status.fault;
      RequestShown(m.status.live, a);
      ShowPhase(m.status, Scheduled, m.status.fault);
      hide AsRequested, ShowStatus, ShowObservation, ShowReceipt, ShowRequested, StampOf;
      if status.phase != Prepared || tx.phase != TxRadio || a.at != tx.at || a.until != tx.deadline || a.length != status.length
         || a.ackRequested != tx.ackRequested {
        return STATE;
      }
      requested := RequestedFields(a.at, a.until, a.ackRequested, a.outcome);
      status := status.(phase := Scheduled);
      result := OK;
    }

    method AcceptCollect(tx: Tx, a: Action, ghost m: Ideal) returns (result: Result)
      requires Shows(m)
      modifies `status, `through
      ensures result == if MayCollect(m, tx, a) then OK else STATE
      ensures Shows(if MayCollect(m, tx, a) then AsCollecting(m) else m)
    {
      assert status.phase == m.status.phase && status.transmitted == m.status.transmitted && status.fault == m.status.fault
             && receipt.txUpper == StampOf(m.receipt.txUpper);
      AddSymbols(m.receipt.txUpper, ACK_SYMBOLS);
      ShowPhase(m.status, Collect, m.status.fault);
      hide Plus, ShowStatus, ShowObservation, ShowReceipt, ShowRequested, StampOf;
      if status.phase != WaitMac || !status.transmitted || tx.phase != TxAckWait
         || a.through.symbols != Plus(receipt.txUpper.symbols, ACK_SYMBOLS) || a.through.fine != receipt.txUpper.fine {
        return STATE;
      }
      through := a.through;
      status := status.(phase := Collect);
      result := OK;
    }

    method AcceptQuiesce(tx: Tx, a: Action, ghost m: Ideal) returns (result: Result)
      requires Shows(m)
      modifies `status, `requested, `settled
      ensures result == if MayQuiesce(m, tx, a) then OK else STATE
      ensures Shows(if MayQuiesce(m, tx, a) then AsRetiring(m, AsRequested(m.status.live, a)) else m)
    {
      assert status.phase == m.status.phase;
      RequestShown(m.status.live, a);
      ghost var q := AsRequested(m.status.live, a);
      RetiringShown(m, q);
      hide AsRequested, AsRetiring, ShowStatus, ShowObservation, ShowReceipt, ShowRequested, StampOf;
      if tx.phase != TxStopping || status.phase == Rx || status.phase == Cold || status.phase == Retiring || a.until != tx.stopAt {
        return STATE;
      }
      requested := RequestedFields(a.at, a.until, a.ackRequested, a.outcome);
      settled := false;
      status := status.(goal := RetireGoal,
                        phase := if status.phase != Draining && status.phase != Off then Retiring else status.phase);
      result := OK;
    }
  }
}
