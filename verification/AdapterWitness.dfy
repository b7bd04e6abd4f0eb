/** A run from reset, with an ordinary radio and clock, that ends with the adapter stranded. */
module AdapterWitness {
  import opened Bytes
  import opened Words
  import A = MacAttempt
  import opened AdapterSpec
  import opened AdapterSafety
  import opened AdapterTheorems

  const BLANK_RECEIPT := Receipt(0, 0, 0, 0, 0, BLANK_FRAME, false, false, false)

  /** The transmission engine and its request, as they stand in a given engine phase. */
  function Engine(phase: TxPhase): Tx {
    Tx(0, phase, 1, 1, false, 0, 0, 3, 10, 20, NoOutcome, true)
  }

  function Wanted(kind: ActionKind, phase: TxPhase, until: word): Action {
    Action(kind, 1, 0, 0, phase, NoOutcome, 3, until, 1, false, StampOf(0))
  }

  function Serve(symbol: nat, run: A.RadioResult, reply: A.RadioResult): Call {
    var receipt := BLANK_RECEIPT.(armed := symbol * UNIT, last := symbol * UNIT);
    StepCall(true, StepIn(A.READY, symbol * UNIT, run, receipt, reply, BLANK_FRAME))
  }

  /** In service, with nothing in hand. */
  predicate Serving(m: Ideal, phase: Phase) {
    && m.status.fault == OK && m.status.phase == phase && !m.status.ready && !m.status.held
    && m.status.frames == 0 && m.status.deliveries <= 1 && m.status.live <= 10 * UNIT
  }

  /** The slot prepared for the engine. */
  predicate Slot(m: Ideal) {
    m.owner == Owned(0) && m.status.generation == 1 && m.status.retry == 0 && m.status.nb == 0 && m.status.length == 1
  }

  predicate Leads(m: Ideal, h: History, calls: seq<Call>) {
    MonotoneRun(m, h, calls) && Stranded(Run(m, h, calls).machine)
  }

  lemma First(m: Ideal, h: History, c: Call, rest: seq<Call>)
    requires Monotone(h, m, c) && Leads(Apply(m, c).next, Observe(h, m, c), rest)
    ensures Leads(m, h, [c] + rest)
  {
    hide Monotone, Apply, Observe, Stranded;
    var calls := [c] + rest;
    assert calls[0] == c && calls[1..] == rest;
  }

  /** Closing after a drain, its stop already requested: a retirement is accepted, and strands it. */
  lemma Retired(m: Ideal, h: History)
    requires Serving(m, Closing) && Slot(m) && m.status.stopStarted
    ensures Leads(m, h, RETIRE)
  {
    hide Nearest, Wrap, StampOf;
    var c := AcceptCall(Engine(TxStopping), Wanted(ActQuiesce, TxStopping, 20));
    assert Stranded(Apply(m, c).next);
    Nothing(Apply(m, c).next, Observe(h, m, c));
    First(m, h, c, []);
    assert [c] + [] == [c];
  }

  lemma Nothing(m: Ideal, h: History)
    requires Stranded(m)
    ensures Leads(m, h, [])
  {
  }

  const RETIRE := [AcceptCall(Engine(TxStopping), Wanted(ActQuiesce, TxStopping, 20))]
  const DRAIN_DRY := [Serve(7, A.EMPTY, A.EMPTY)] + RETIRE
  const STOP := [Serve(6, A.EMPTY, A.DRAIN)] + DRAIN_DRY
  const SENSE := [Serve(4, A.CCA_BUSY, A.EMPTY)] + STOP
  const ATTEMPT := [AcceptCall(Engine(TxRadio), Wanted(ActAttempt, TxRadio, 10))] + SENSE
  const PREPARE := [PrepareCall(true, Engine(TxDraw), StopRx, [], A.READY)] + ATTEMPT
  const CONSUME := [ConsumeCall(1)] + PREPARE
  const REPORT := [Serve(2, A.EMPTY, A.EMPTY)] + CONSUME
  const SHUT := [Serve(1, A.EMPTY, A.STOPPED)] + REPORT
  const CLOSE := [CloseCall(Immediately)] + SHUT
  const WHOLE := [InitCall(true, Config(11, 0x05), A.READY, A.READY, 0)] + CLOSE

  /** The last request has found nothing more to receive. */
  lemma Drained(m: Ideal, h: History)
    requires Serving(m, Draining) && Slot(m) && m.status.stopStarted && h.clock <= 7 * UNIT
    ensures Leads(m, h, DRAIN_DRY)
  {
    var c := Serve(7, A.EMPTY, A.EMPTY);
    var n := Apply(m, c).next;
    assert Serving(n, Closing) && Slot(n) && n.status.stopStarted;
    hide Apply, Serve, Serving, Slot, Leads;
    Retired(n, Observe(h, m, c));
    First(m, h, c, RETIRE) by { ServedInTime(m, h, 7, A.EMPTY, A.EMPTY); }
  }

  lemma ServedInTime(m: Ideal, h: History, symbol: nat, run: A.RadioResult, reply: A.RadioResult)
    requires h.clock <= symbol * UNIT
    ensures Monotone(h, m, Serve(symbol, run, reply))
  {
  }

  /** A busy channel is closed at once; the radio asks for a drain first. */
  lemma Stopping(m: Ideal, h: History)
    requires Serving(m, Closing) && Slot(m) && !m.status.waitThrough && h.clock <= 6 * UNIT
    ensures Leads(m, h, STOP)
  {
    var c := Serve(6, A.EMPTY, A.DRAIN);
    var n := Apply(m, c).next;
    assert Serving(n, Draining) && Slot(n) && n.status.stopStarted;
    assert Observe(h, m, c).clock <= 7 * UNIT;
    hide Apply, Serve, Serving, Slot, Leads, Observe;
    Drained(n, Observe(h, m, c));
    First(m, h, c, DRAIN_DRY) by { ServedInTime(m, h, 6, A.EMPTY, A.DRAIN); }
  }

  /** The attempt is launched in its window and senses a busy channel. */
  lemma Sensed(m: Ideal, h: History)
    requires Serving(m, Scheduled) && Slot(m) && m.requested.at == 3 && m.requested.until == 10 && h.clock <= 4 * UNIT
    ensures Leads(m, h, SENSE)
  {
    var c := Serve(4, A.CCA_BUSY, A.EMPTY);
    var n := Apply(m, c).next;
    assert Serving(n, Closing) && Slot(n) && !n.status.waitThrough;
    assert Observe(h, m, c).clock <= 6 * UNIT;
    hide Apply, Serve, Serving, Slot, Leads, Observe;
    Stopping(n, Observe(h, m, c));
    First(m, h, c, STOP) by { ServedInTime(m, h, 4, A.CCA_BUSY, A.EMPTY); }
  }

  lemma Attempted(m: Ideal, h: History)
    requires Serving(m, Prepared) && Slot(m) && m.status.live == 2 * UNIT && h.clock <= 4 * UNIT
    ensures Leads(m, h, ATTEMPT)
  {
    var c := AcceptCall(Engine(TxRadio), Wanted(ActAttempt, TxRadio, 10));
    var n := Apply(m, c).next;
    assert Nearest(m.status.live, 3) == 3 && Nearest(m.status.live, 10) == 10;
    assert Serving(n, Scheduled) && Slot(n) && n.requested.at == 3 && n.requested.until == 10;
    assert Observe(h, m, c).clock <= 4 * UNIT && Monotone(h, m, c);
    hide Apply, Engine, Wanted, Serving, Slot, Leads, Observe, Monotone;
    Sensed(n, Observe(h, m, c));
    First(m, h, c, SENSE);
  }

  lemma Occupied(m: Ideal, h: History)
    requires Serving(m, Off) && m.owner == Nobody && m.status.live == 2 * UNIT && h.clock <= 4 * UNIT
    ensures Leads(m, h, PREPARE)
  {
    var c := PrepareCall(true, Engine(TxDraw), StopRx, [], A.READY);
    var n := Apply(m, c).next;
    assert Serving(n, Prepared) && Slot(n) && n.status.live == 2 * UNIT;
    assert Observe(h, m, c).clock <= 4 * UNIT && Monotone(h, m, c);
    hide Apply, Engine, Serving, Slot, Leads, Observe, Monotone;
    Attempted(n, Observe(h, m, c));
    First(m, h, c, ATTEMPT);
  }

  lemma Consumed(m: Ideal, h: History)
    requires Serving(m.(status := m.status.(ready := false)), Off) && m.owner == Nobody && m.status.live == 2 * UNIT
    requires m.status.ready && m.observation.token == 1 && m.observation.kind == ClosedEvent && m.observation.source == NoSource
    requires h.clock <= 4 * UNIT
    ensures Leads(m, h, CONSUME)
  {
    var c := ConsumeCall(1);
    var n := Apply(m, c).next;
    assert Serving(n, Off) && n.owner == Nobody && n.status.live == 2 * UNIT;
    assert Observe(h, m, c).clock <= 4 * UNIT && Monotone(h, m, c);
    hide Apply, Serving, Leads, Observe, Monotone;
    Occupied(n, Observe(h, m, c));
    First(m, h, c, PREPARE);
  }

  lemma Reported(m: Ideal, h: History)
    requires Serving(m, Off) && m.owner == Nobody && m.status.goal == UserGoal && !m.settled && m.status.deliveries == 0
    requires h.clock <= 2 * UNIT
    ensures Leads(m, h, REPORT)
  {
    var c := Serve(2, A.EMPTY, A.EMPTY);
    var n := Apply(m, c).next;
    assert Serving(n.(status := n.status.(ready := false)), Off) && n.owner == Nobody && n.status.live == 2 * UNIT;
    assert n.status.ready && n.observation.token == 1 && n.observation.kind == ClosedEvent && n.observation.source == NoSource;
    assert Observe(h, m, c).clock <= 4 * UNIT;
    hide Apply, Serve, Serving, Leads, Observe;
    Consumed(n, Observe(h, m, c));
    First(m, h, c, CONSUME) by { ServedInTime(m, h, 2, A.EMPTY, A.EMPTY); }
  }

  lemma Shut(m: Ideal, h: History)
    requires Serving(m, Closing) && m.owner == Nobody && m.status.goal == UserGoal && !m.status.waitThrough
    requires m.status.deliveries == 0 && h.clock <= UNIT
    ensures Leads(m, h, SHUT)
  {
    var c := Serve(1, A.EMPTY, A.STOPPED);
    var n := Apply(m, c).next;
    assert Serving(n, Off) && n.owner == Nobody && n.status.goal == UserGoal && !n.settled && n.status.deliveries == 0;
    assert Observe(h, m, c).clock <= 2 * UNIT;
    hide Apply, Serve, Serving, Leads, Observe;
    Reported(n, Observe(h, m, c));
    First(m, h, c, REPORT) by { ServedInTime(m, h, 1, A.EMPTY, A.STOPPED); }
  }

  lemma Closed(m: Ideal, h: History)
    requires Serving(m, Rx) && m.owner == Nobody && m.status.deliveries == 0 && m.status.live <= UNIT && h.clock <= UNIT
    ensures Leads(m, h, CLOSE)
  {
    var c := CloseCall(Immediately);
    var n := Apply(m, c).next;
    assert Serving(n, Closing) && n.owner == Nobody && n.status.goal == UserGoal && !n.status.waitThrough && n.status.deliveries == 0;
    assert Observe(h, m, c).clock <= UNIT && Monotone(h, m, c);
    hide Apply, Serving, Leads, Observe, Monotone;
    Shut(n, Observe(h, m, c));
    First(m, h, c, SHUT);
  }

  /**
   From reset: receive, close, report, prepare, attempt, find the channel busy, drain, and retire. Every radio answer is
   an ordinary one, and the adapter is stranded.
   */
  lemma StrandingRun()
    ensures MonotoneRun(Blank(), EMPTY_HISTORY, WHOLE) && Stranded(Run(Blank(), EMPTY_HISTORY, WHOLE).machine)
  {
    var m, h := Blank(), EMPTY_HISTORY;
    var c := InitCall(true, Config(11, 0x05), A.READY, A.READY, 0);
    var n := Apply(m, c).next;
    assert Serving(n, Rx) && n.owner == Nobody && n.status.deliveries == 0 && n.status.live <= UNIT;
    assert Observe(h, m, c).clock <= UNIT && Monotone(h, m, c);
    hide Apply, Serving, Observe, Monotone, Blank, Run, Stranded;
    Closed(n, Observe(h, m, c));
    First(m, h, c, CLOSE);
  }
}
