/**
 The association attempt controller. Its transmitter and its POLL component are objects that may answer
 anything and change themselves arbitrarily; the association context is the real one.
 */
module MacJoin {
  import opened Bytes
  import opened Words
  import opened JoinSpec
  import E = MacEpoch
  import M = MacFrame
  import C = MacAssociation

  const VERSION := 1
  const TX_IDLE := 0
  const TX_DRAW := 1
  const TX_ACK_WAIT := 4
  const TX_STOPPING := 5
  const TX_DONE := 6
  const TX_FAULT := 7
  const TX_ACKED := 1
  const TX_UNCERTAIN := 11

  const SOURCE_ACK := 4
  const SOURCE_SENT := 3
  const SOURCE_SENT_INTERVAL := 8
  const SOURCE_ACK_INTERVAL := 9
  const SOURCE_BUSY_INTERVAL := 11
  const SOURCE_RETIRED := 12
  const SOURCE_CANCEL := 7

  const POLL_IDLE := 0
  const POLL_DRAIN := 4
  const POLL_DONE := 5
  const POLL_FAULT := 6
  const POLL_COMMAND := 3
  const POLL_UNCERTAIN := 11
  const POLL_ACTION_PREPARE := 1
  const POLL_ACTION_TX := 2

  const PREPARED := 1
  const TX_REPORT := 2
  const FRAME := 3
  const CLOSED := 4
  const SOURCE := 8
  const ARMED := 9
  const DISARMED := 10

  const POLL_RESULT := 1
  const REQUEST_RESULT := 2

  const CLOCK_ERROR := 4
  const TX_ERROR := 6
  const POLL_ERROR := 7
  const CONTEXT_ERROR := 8
  const TIMING_UNCERTAIN := 10

  const OBS_STALE := 1
  const OBS_DUPLICATE := 2

  datatype Result = Okay | Invalid | State | Limit | Unsupported

  /** An interval source as the transmitter's adapter reports it; `bytes` says whether a non-null body came with it. */
  datatype Source = Source(kind: nat, generation: word, retry: nat, nb: nat, stamp: word, lower: E.Stamp, upper: E.Stamp, length: nat, bytes: bool)

  datatype Event = Event(kind: nat, epoch: word, generation: word, stamp: word, token: nat, crcValid: nat, serial: word,
                         channel: nat, source: Source, body: seq<byte>)

  datatype MaybeEvent = NoEvent | Some(event: Event)

  const NO_SOURCE := Source(0, 0, 0, 0, 0, E.Stamp(0, 0), E.Stamp(0, 0), 0, false)
  const BLANK_EVENT := Event(0, 0, 0, 0, 0, 0, 0, 0, NO_SOURCE, [])

  datatype Radio = Radio(pan: bv16, channel: nat, filter: nat, rxOn: nat)

  const NO_RADIO := Radio(0, 0, 0, 0)

  datatype Action = Action(epoch: word, generation: word, until: word, token: nat, kind: nat, txCancel: bool,
                           observation: nat, radioKind: nat, state: Radio)

  const NO_ACTION := Action(0, 0, 0, 0, 0, false, 0, 0, NO_RADIO)

  datatype Request = Request(epoch: word, lifetime: word, work: nat, frameWait: word, pan: bv16, channel: nat,
                             coordinatorMode: byte, coordinator: M.Address, localMode: byte, local: M.Address,
                             saved: Radio, responseWait: nat, capability: byte, profile: nat)

  /** Diagnostics kept beside the causes. */
  datatype Notes = Notes(requestAck: word, txOutcome: nat, txOk: bool, pollOk: bool, pollReason: nat, pollCleanup: nat,
                         association: C.Outcome, observation: C.Decision, response: C.Record)

  function CeilSymbols(s: E.Stamp): word {
    Plus(s.symbols, if s.fine != 0 then 1 else 0)
  }

  /** What a child was last asked. */
  datatype Asked =
    | Submitted(body: seq<byte>, now: word, lifetime: word)
    | TxStepped(now: word, source: Source)
    | PollStarted(request: Request, lifetime: word, now: word)
    | PollStepped(now: word, kind: nat, stamp: word, token: nat, source: Source)
    | Released

  /** The interval transmitter, as the controller sees it. Every call may change all of it. */
  class Transmitter {
    var phase: nat
    var generation: word
    var outcome: nat
    var retries: nat
    var nb: nat
    var last: word
    var readyAt: word
    var pending: bool
    ghost var asked: Asked
    ghost var answered: nat

    method Change()
      modifies this
    {
      phase, generation, outcome, retries, nb, last, readyAt, pending := *, *, *, *, *, *, *, *;
    }

    method Submit(body: seq<byte>, now: word, lifetime: word) returns (ok: bool)
      modifies this
      ensures asked == Submitted(body, now, lifetime)
    {
      Change();
      asked := Submitted(body, now, lifetime);
      ok := *;
    }

    method Step(now: word, source: Source) returns (ok: bool, radioKind: nat)
      modifies this
      ensures asked == TxStepped(now, source) && answered == radioKind
    {
      Change();
      ok, radioKind := *, *;
      asked, answered := TxStepped(now, source), radioKind;
    }

    method Release() returns (ok: bool)
      modifies this
      ensures asked == Released
    {
      Change();
      asked := Released;
      ok := *;
    }
  }

  /** What a POLL step hands back. */
  datatype PollAction = PollAction(kind: nat, token: nat, txCancel: bool, observation: nat)

  /** The frame a POLL delivers. */
  datatype PollRecord = PollRecord(epoch: word, stamp: word, cause: nat, body: seq<byte>)

  /** The POLL component, likewise; it drives the transmitter it was started with. */
  class Poll {
    var phase: nat
    var generation: word
    var reason: nat
    var cleanup: nat
    var ackSeen: bool
    var ready: bool
    var taken: bool
    var cause: nat
    var stamp: word
    var ackEnd: word
    var deadline: word
    ghost var asked: Asked

    method Change(tx: Transmitter)
      modifies this, tx
    {
      phase, generation, reason, cleanup, ackSeen, ready, taken := *, *, *, *, *, *, *;
      cause, stamp, ackEnd, deadline := *, *, *, *;
      tx.Change();
    }

    method Start(tx: Transmitter, r: Request, lifetime: word, now: word) returns (ok: bool)
      modifies this, tx
      ensures asked == PollStarted(r, lifetime, now)
    {
      Change(tx);
      asked := PollStarted(r, lifetime, now);
      ok := *;
    }

    method Step(tx: Transmitter, now: word, kind: nat, stamp: word, token: nat, source: Source) returns (ok: bool, a: PollAction)
      modifies this, tx
      ensures asked == PollStepped(now, kind, stamp, token, source)
    {
      Change(tx);
      asked := PollStepped(now, kind, stamp, token, source);
      ok, a := *, *;
    }

    method Take() returns (ok: bool, record: PollRecord)
      modifies `taken
    {
      taken := *;
      ok, record := *, *;
    }

    method Release(tx: Transmitter) returns (ok: bool)
      modifies this, tx
    {
      Change(tx);
      ok := *;
    }
  }

  // ---------- events ----------

  predicate SourceShape(s: Source, sourceEvent: bool) {
    && s.kind <= SOURCE_RETIRED && s.kind != SOURCE_SENT && s.kind != SOURCE_ACK
    && !(sourceEvent && s.kind == 0)
    && !(s.kind == SOURCE_ACK_INTERVAL && s.length != 0 && !s.bytes)
    && (s.kind >= SOURCE_SENT_INTERVAL ==> s.upper.fine < 512 && Reached(s.stamp, CeilSymbols(s.upper)))
    && (s.kind == SOURCE_SENT_INTERVAL || s.kind == SOURCE_ACK_INTERVAL || s.kind == SOURCE_BUSY_INTERVAL ==>
          s.lower.fine < 512 && Reached(s.upper.symbols, s.lower.symbols)
          && !(s.upper.symbols == s.lower.symbols && s.upper.fine < s.lower.fine))
  }

  predicate EventShape(e: Event) {
    && PREPARED <= e.kind <= DISARMED && e.crcValid <= 1
    && (e.kind == FRAME ==> e.serial != 0 && 11 <= e.channel <= 26)
    && (e.kind == TX_REPORT || e.kind == SOURCE ==> SourceShape(e.source, e.kind == SOURCE))
  }

  /** The event as it counts: for this attempt, and not from the past or the future. */
  function Classified(s: Control, e: MaybeEvent, now: word): Seen {
    if e.NoEvent? then Seen(now, 0, 0, 0)
    else
      var v := e.event;
      if v.epoch == s.epoch && v.generation == s.generation
         && (v.kind == FRAME || (Reached(v.stamp, s.last) && Reached(now, v.stamp)))
      then Seen(now, v.kind, v.token, v.stamp) else Seen(now, 0, v.token, v.stamp)
  }

  /**
   A call into a child together with what justified it and what it was made with; a transmitter step says whether it brought
   the acknowledgement and until when, a release says how the request had ended and whether it was granted.
   */
  datatype ChildCall =
    | SubmitCall(matched: bool, kind: nat, body: seq<byte>, lifetime: word)
    | TxStepCall(armed: bool, stopping: bool, before: nat, source: Source, acked: bool, upper: E.Stamp)
    | ReleaseCall(disarmed: bool, stopping: bool, outcome: nat, ok: bool)
    | PollStartCall(stopping: bool, at: word, lifetime: word)
    | PollStepCall(kind: nat, stamp: word, token: nat, source: Source)

  /** What became of the request, by the calls so far. */
  datatype Verdict = Pending | Acknowledged | Unacknowledged(stopping: bool) | Stuck

  function VerdictOf(calls: seq<ChildCall>): Verdict {
    if calls == [] then Pending
    else
      match calls[|calls| - 1]
      case ReleaseCall(_, stopping, outcome, ok) =>
        if !ok then Stuck else if outcome == TX_ACKED && !stopping then Acknowledged else Unacknowledged(stopping)
      case _ => VerdictOf(calls[..|calls| - 1])
  }

  /** The end of the response wait: so many superframes of 960 symbols after the acknowledgement, or none yet. */
  function Until(calls: seq<ChildCall>, wait: nat): word {
    if calls == [] then 0
    else
      match calls[|calls| - 1]
      case TxStepCall(_, _, _, _, acked, upper) =>
        if acked then Plus(CeilSymbols(upper), (wait * 960) % 0x1_0000) else Until(calls[..|calls| - 1], wait)
      case _ => Until(calls[..|calls| - 1], wait)
  }

  predicate Polled(calls: seq<ChildCall>) {
    exists i :: 0 <= i < |calls| && calls[i].PollStartCall?
  }

  /**
   No frame without a confirmed preparation; no transmitter step before arming, nor, while stopping, without a cancellation
   unless it is stopping already; no release of an armed slot; no POLL but for an acknowledged request whose response wait is
   over.
   */
  predicate Justified(before: seq<ChildCall>, c: ChildCall, wait: nat) {
    match c
    case SubmitCall(matched, kind, _, _) => matched && kind == PREPARED
    case TxStepCall(armed, stopping, before, source, _, _) => (armed || stopping) && (stopping && before != 5 ==> source.kind == 7)
    case ReleaseCall(disarmed, _, _, _) => disarmed
    case PollStepCall(_, _, _, _) => true
    case PollStartCall(stopping, at, _) => !stopping && VerdictOf(before) == Acknowledged && Reached(at, Until(before, wait))
  }

  /** Every call of the attempt was justified by those before it. */
  predicate Lawful(calls: seq<ChildCall>, wait: nat) {
    forall i :: 0 <= i < |calls| ==> Justified(calls[..i], calls[i], wait)
  }

  lemma LawfulGrows(calls: seq<ChildCall>, c: ChildCall, wait: nat)
    requires Lawful(calls, wait) && Justified(calls, c, wait)
    ensures Lawful(calls + [c], wait) && VerdictOf(calls + [c]) == (if c.ReleaseCall? then VerdictOf([c]) else VerdictOf(calls))
    ensures Polled(calls + [c]) == (Polled(calls) || c.PollStartCall?)
    ensures Until(calls + [c], wait) == if c.TxStepCall? && c.acked then Plus(CeilSymbols(c.upper), (wait * 960) % 0x1_0000) else Until(calls, wait)
  {
    hide Justified;
    var longer := calls + [c];
    assert longer[..|longer| - 1] == calls;
    forall i | 0 <= i < |longer|
      ensures Justified(longer[..i], longer[i], wait)
    {
      if i < |calls| {
        assert longer[..i] == calls[..i];
        assert Justified(calls[..i], calls[i], wait);
      } else {
        assert longer[..i] == calls;
      }
    }
    PolledGrows(calls, c);
  }

  lemma PolledGrows(calls: seq<ChildCall>, c: ChildCall)
    ensures Polled(calls + [c]) == (Polled(calls) || c.PollStartCall?)
  {
    var longer := calls + [c];
    if Polled(calls) {
      var i :| 0 <= i < |calls| && calls[i].PollStartCall?;
      assert longer[i].PollStartCall?;
    }
    if c.PollStartCall? {
      assert longer[|calls|].PollStartCall?;
    }
    if Polled(longer) && !c.PollStartCall? {
      var i :| 0 <= i < |longer| && longer[i].PollStartCall?;
      assert calls[i].PollStartCall?;
    }
  }

  /** Before restoration an attempt stops for a reason and with a result, and has neither result nor reason to stop otherwise. */
  predicate StopsForCause(stopping: bool, causes: Causes) {
    if stopping then causes.reason != 0 && causes.result != 0 else causes.result == 0
  }

  /**
   What an attempt's calls say of where it is: it waits for, or extracts, the response exactly to a request that was
   acknowledged and released while it was not stopping; any other request's end is its result, and it is being restored.
   */
  predicate Ledger(phase: nat, stopping: bool, causes: Causes, calls: seq<ChildCall>, until: word, wait: nat) {
    && Lawful(calls, wait)
    && (PREPARE <= phase <= WAIT ==> until == Until(calls, wait) && !Polled(calls) && StopsForCause(stopping, causes))
    && (PREPARE <= phase <= REQUEST ==> VerdictOf(calls) == Pending)
    && (phase == WAIT || phase == EXTRACT ==> VerdictOf(calls) == Acknowledged)
    && (phase == EXTRACT ==> Polled(calls))
    && match VerdictOf(calls)
       case Pending => !Polled(calls)
       case Acknowledged => phase == WAIT || Polled(calls) || causes.reason != 0
       case Unacknowledged(stopped) =>
         && !Polled(calls) && (phase == IDLE || phase >= RESTORE) && causes.result != 0
         && (!stopped ==> causes.result == REQUEST_RESULT && causes.stage == REQUEST)
       case Stuck => !Polled(calls) && phase == FAULT
  }

  lemma LedgerBegins(stopping: bool, until: word, wait: nat)
    ensures Ledger(PREPARE, false, Causes(0, 0, 0, 0, 0), [], 0, wait) && Ledger(IDLE, stopping, Causes(0, 0, 0, 0, 0), [], until, wait)
  {
  }

  /** Within one phase an attempt may come to stop for a cause; from any phase it may fault, and from all but WAIT be restored. */
  lemma LedgerStays(s: Control, t: Control, calls: seq<ChildCall>, until: word, wait: nat)
    requires Ledger(s.phase, s.stopping, s.causes, calls, until, wait) && Retained(s.causes, t.causes) && PREPARE <= s.phase
    requires t.phase == s.phase || (t.phase >= RESTORE && s.phase < DONE)
    requires s.phase == WAIT && t.phase != WAIT ==> t.causes.reason != 0
    requires s.phase == t.phase <= WAIT ==> StopsForCause(t.stopping, t.causes)
    ensures Ledger(t.phase, t.stopping, t.causes, calls, until, wait)
  {
    hide Lawful, VerdictOf, Polled, Until;
  }

  lemma LedgerSubmits(s: Control, calls: seq<ChildCall>, c: ChildCall, until: word, wait: nat)
    requires Ledger(s.phase, s.stopping, s.causes, calls, until, wait) && s.phase == PREPARE
    requires c.SubmitCall? && c.matched && c.kind == PREPARED
    ensures Ledger(s.phase, s.stopping, s.causes, calls + [c], until, wait)
    ensures Ledger(REQUEST, s.stopping, s.causes, calls + [c], until, wait)
  {
    LawfulGrows(calls, c, wait);
    hide Lawful, VerdictOf, Polled, Until;
  }

  lemma LedgerSteps(s: Control, calls: seq<ChildCall>, c: ChildCall, until: word, next: word, wait: nat)
    requires Ledger(s.phase, s.stopping, s.causes, calls, until, wait) && s.phase == REQUEST
    requires c.TxStepCall? && (c.armed || c.stopping) && (c.stopping && c.before != 5 ==> c.source.kind == 7)
    requires next == if c.acked then Plus(CeilSymbols(c.upper), (wait * 960) % 0x1_0000) else until
    ensures Ledger(s.phase, s.stopping, s.causes, calls + [c], next, wait)
  {
    LawfulGrows(calls, c, wait);
    hide Lawful, VerdictOf, Polled, Until;
  }

  lemma LedgerReleases(s: Control, t: Control, calls: seq<ChildCall>, c: ChildCall, until: word, wait: nat)
    requires Ledger(s.phase, s.stopping, s.causes, calls, until, wait) && s.phase == REQUEST
    requires c.ReleaseCall? && c.disarmed && c.stopping == s.stopping
    requires if !c.ok then t.phase == FAULT
             else if c.outcome == TX_ACKED && !s.stopping then t.phase == WAIT && t.causes == s.causes && t.stopping == s.stopping
             else t.phase == RESTORE && t.causes == Concluded(s, REQUEST_RESULT, REQUEST).causes
    ensures Ledger(t.phase, t.stopping, t.causes, calls + [c], until, wait)
  {
    LawfulGrows(calls, c, wait);
    hide Lawful, Polled, Until;
  }

  lemma LedgerPolls(s: Control, t: Control, calls: seq<ChildCall>, c: ChildCall, until: word, wait: nat)
    requires Ledger(s.phase, s.stopping, s.causes, calls, until, wait) && s.phase == WAIT
    requires c.PollStartCall? && !c.stopping && Reached(c.at, until) && EXTRACT <= t.phase <= RESTORE && Retained(s.causes, t.causes)
    ensures Ledger(t.phase, t.stopping, t.causes, calls + [c], until, wait)
  {
    LawfulGrows(calls, c, wait);
    hide Lawful, VerdictOf, Polled, Until;
  }

  /** Steps of the POLL say nothing of the request. */
  lemma LedgerPollSteps(s: Control, calls: seq<ChildCall>, c: ChildCall, until: word, wait: nat)
    requires Ledger(s.phase, s.stopping, s.causes, calls, until, wait) && s.phase == EXTRACT && c.PollStepCall?
    ensures Ledger(s.phase, s.stopping, s.causes, calls + [c], until, wait)
  {
    LawfulGrows(calls, c, wait);
    hide Lawful, VerdictOf, Polled, Until;
  }

  lemma PolledOn(s: Control, t: Control, calls: seq<ChildCall>, time: word, lifetime: word, until: word, wait: nat)
    requires Ledger(s.phase, s.stopping, s.causes, calls, until, wait) && s.phase == WAIT && !s.stopping && Reached(time, until)
    requires t == s.(phase := EXTRACT) || t == Aborted(s, POLL_ERROR, time).(phase := RESTORE)
    ensures Ledger(t.phase, t.stopping, t.causes, calls + [PollStartCall(s.stopping, time, lifetime)], until, wait)
  {
    LedgerPolls(s, t, calls, PollStartCall(s.stopping, time, lifetime), until, wait) by { hide Ledger; }
  }

  /** From extraction on no move changes what the calls say. */
  lemma LedgerLater(s: Control, t: Control, now: word, calls: seq<ChildCall>, until: word, wait: nat)
    requires Ledger(s.phase, s.stopping, s.causes, calls, until, wait) && (s.phase == EXTRACT || s.phase == RESTORE) && Moved(s, t, now)
    ensures Ledger(t.phase, t.stopping, t.causes, calls, until, wait)
  {
    hide Lawful, VerdictOf, Polled, Until, TokenMoves, StopMoves;
  }

  lemma EndedLedger(s: Control, calls: seq<ChildCall>, until: word, wait: nat)
    requires s.phase == DONE
    ensures Ledger(DONE, s.stopping, s.causes, calls, until, wait) ==> Ledger(IDLE, s.stopping, s.causes, calls, until, wait)
  {
    hide Lawful, VerdictOf, Polled, Until;
  }

  lemma BudgetLedger(s: Control, kind: nat, now: word, calls: seq<ChildCall>, until: word, wait: nat)
    requires Ledger(s.phase, s.stopping, s.causes, calls, until, wait) && PREPARE <= s.phase < DONE
    ensures var b := Budgeted(s, kind, now); Ledger(b.phase, b.stopping, b.causes, calls, until, wait)
  {
    BudgetSpends(s, kind, now);
    BudgetCauses(s, kind, now);
    LedgerStays(s, Budgeted(s, kind, now), calls, until, wait) by {
      hide Ledger, Budgeted;
      LedgerCause(s, calls, until, wait);
    }
  }

  lemma LedgerCause(s: Control, calls: seq<ChildCall>, until: word, wait: nat)
    requires Ledger(s.phase, s.stopping, s.causes, calls, until, wait)
    ensures PREPARE <= s.phase <= WAIT ==> StopsForCause(s.stopping, s.causes)
  {
    hide Lawful, VerdictOf, Polled, Until;
  }

  lemma BudgetCauses(s: Control, kind: nat, now: word)
    requires PREPARE <= s.phase < DONE
    ensures var b := Budgeted(s, kind, now); StopsForCause(s.stopping, s.causes) && b.phase == s.phase ==> StopsForCause(b.stopping, b.causes)
  {
  }

  lemma FaultLedger(s: Control, reason: nat, now: word, calls: seq<ChildCall>, until: word, wait: nat)
    requires Ledger(s.phase, s.stopping, s.causes, calls, until, wait) && PREPARE <= s.phase < DONE && reason != 0
    ensures var f := Faulted(s, reason, now); Ledger(f.phase, f.stopping, f.causes, calls, until, wait)
  {
    FaultMoves(s, reason, now);
    LedgerStays(s, Faulted(s, reason, now), calls, until, wait) by { hide Ledger, Faulted; }
  }

  /** An abort before or in the wait leads on to restoration. */
  lemma AbortLedger(s: Control, reason: nat, now: word, calls: seq<ChildCall>, until: word, wait: nat)
    requires Ledger(s.phase, s.stopping, s.causes, calls, until, wait) && PREPARE <= s.phase < DONE && reason != 0
    ensures var a := Aborted(s, reason, now);
            Ledger(a.phase, a.stopping, a.causes, calls, until, wait) && Ledger(RESTORE, a.stopping, a.causes, calls, until, wait)
  {
    AbortMoves(s, reason, now);
    LedgerCause(s, calls, until, wait);
    var a := Aborted(s, reason, now);
    assert a.causes.reason != 0 && a.causes.result != 0 && a.stopping;
    LedgerStays(s, a, calls, until, wait) by { hide Ledger, Aborted; }
    LedgerStays(s, a.(phase := RESTORE), calls, until, wait) by { hide Ledger, Aborted; }
  }

  /** Only appended to. */
  predicate Extended(before: seq<ChildCall>, after: seq<ChildCall>) {
    before <= after
  }

  lemma ExtendedChain(a: seq<ChildCall>, b: seq<ChildCall>, c: seq<ChildCall>)
    requires Extended(a, b) && Extended(b, c)
    ensures Extended(a, c)
  {
  }

  lemma ExtendedSame(a: seq<ChildCall>)
    ensures Extended(a, a)
  {
  }

  /** Moves of the control fields inside a step, with the phase a fresh token leaves the step in. */
  predicate Within(s: Control, t: Control, time: word, go: bool, phase: nat) {
    && Moved(s, t, time)
    && t.phase != DONE && (go ==> t.phase < DONE)
    && (!TokenKept(s, t) ==> !go || t.phase == phase)
    && (t.issued == ACTION_RESTORE ==> s.issued == ACTION_RESTORE)
  }

  lemma WithinGives(s: Control, t: Control, time: word, go: bool, phase: nat)
    requires Within(s, t, time, go, phase)
    ensures Moved(s, t, time) && t.phase != DONE && (go ==> t.phase < DONE) && (!TokenKept(s, t) ==> !go || t.phase == phase)
            && (t.issued == ACTION_RESTORE ==> s.issued == ACTION_RESTORE)
  {
  }

  lemma PhaseMoves(s: Control, phase: nat, time: word)
    requires s.phase <= phase < DONE
    ensures Moved(s, s.(phase := phase), time) && TokenKept(s, s.(phase := phase))
  {
  }

  lemma SpendMoves(s: Control, time: word)
    requires s.phase < DONE
    ensures Moved(s, s.(issued := ACTION_NONE), time) && TokenKept(s, s.(issued := ACTION_NONE))
  {
  }

  /** Sets the result unless one is already there. */
  function Concluded(s: Control, result: nat, stage: nat): Control {
    if s.causes.result == 0 then s.(causes := s.causes.(result := result, stage := stage)) else s
  }

  lemma ConcludeMoves(s: Control, result: nat, stage: nat, time: word)
    requires s.phase < DONE
    ensures var t := Concluded(s, result, stage); Moved(s, t, time) && TokenKept(s, t) && t.phase == s.phase && t.stopping == s.stopping
  {
  }

  lemma StopMovesOn(s: Control, time: word)
    requires s.phase < DONE
    ensures Moved(s, Stopped(s, time), time) && TokenKept(s, Stopped(s, time)) && Stopped(s, time).phase == s.phase
  {
  }

  const NO_ADDRESS: M.Address := [0, 0, 0, 0, 0, 0, 0, 0]
  const BLANK_REQUEST := Request(0, 0, 0, 0, 0, 0, 0, NO_ADDRESS, 0, NO_ADDRESS, NO_RADIO, 0, 0, 0)
  const MAX_TIME := 0x1000_0000
  const BLANK_NOTES := Notes(0, 0, false, false, 0, 0, C.Okay, C.Waiting, C.BlankRecord(0, 0))

  function BlankControl(generation: word, epoch: word, now: word): Control {
    Control(IDLE, 0, false, 0, 0, 0, ACTION_NONE, 0, generation, epoch, 0, now, false, false, false, Causes(0, 0, 0, 0, 0))
  }

  /** A new attempt against the fields an earlier one left. */
  predicate Begun(s: Control, t: Control, r: Request, now: word) {
    && t.generation == s.generation + 1 && t.epoch == r.epoch != 0 && t.deadline == Plus(now, r.lifetime) && t.last == now
    && !t.uncertain && !t.taken && !t.restored
  }

  /** Every number of a request is in its range. */
  predicate Limited(r: Request) {
    && r.epoch != 0 && 1 <= r.lifetime <= 0x1000_0000 && 1 <= r.work <= 4096 && r.pan != 0xffff && 11 <= r.channel <= 26
    && 11 <= r.saved.channel <= 26 && r.saved.filter <= 1 && r.saved.rxOn <= 1 && 2 <= r.responseWait <= 64 && r.frameWait != 0
  }

  /** What this controller can do: extended own address, an allocated-address capability without the reserved bits, two profiles. */
  predicate Supportable(r: Request) {
    && r.frameWait <= 65534 && r.localMode == 3 && (r.coordinatorMode == 2 || r.coordinatorMode == 3)
    && r.capability & 0x80 == 0x80 && r.capability & 0x73 == 0 && r.profile <= 1
  }

  /** A short address that names one device, in a zero-filled field. */
  predicate Unicast(a: M.Address) {
    !(a[1] == 0xff && a[0] >= 0xfe) && forall k :: 2 <= k < 8 ==> a[k] == 0
  }

  /** The Association Request to the chosen coordinator, from the device's own extended address. */
  function RequestHeader(r: Request): M.Header {
    M.Header(M.COMMAND, 0, M.FLAG_ACK_REQUEST, 0, r.coordinatorMode, M.EXTENDED, r.pan, 0xffff, r.coordinator, r.local)
  }

  // ---------- what each part of a step does, in numbers ----------

  /** Preparation: restored when stopping; submitted once confirmed, then armed; asked for otherwise. */
  predicate PreparesTo(s: Control, t: Control, kind: nat, matched: bool, time: word, ok: bool, go: bool) {
    if s.stopping then go && t == s.(phase := 5)
    else if matched && kind == 1 then
      go == !ok && t == if ok then Issued(s.(issued := 0, phase := 2), 7) else Aborted(s.(issued := 0), 6, time).(phase := 5)
    else go && t == if s.issued == 0 then Issued(s, 1) else s
  }

  /** Arming: asked for until its own confirmation, unless stopping or already transmitted. */
  predicate ArmsTo(s: Control, t: Control, kind: nat, matched: bool, armed: bool, done: bool, go: bool) {
    if armed || s.stopping || done then go && t == s
    else if kind == 9 && matched && s.issued == 7 then go && t == s.(issued := 0)
    else !go && t == if s.issued == 7 then s else Issued(s, 7)
  }

  /** A transmitter step: its failure faults, a new backoff is armed again, an uncertain outcome aborts. */
  predicate TransmitsTo(s: Control, t: Control, time: word, ok: bool, phase: nat, outcome: nat, go: bool) {
    if !ok then !go && t == Faulted(s, 6, time)
    else
      var again := if phase == 1 then Issued(s, 7) else s;
      go && t == if outcome == 11 then Aborted(again, 10, time) else again
  }

  /** The finished slot: disarmed by its own confirmation, then released into the wait or into restoration. */
  predicate ReleasesTo(s: Control, t: Control, kind: nat, matched: bool, time: word, disarmed: bool, outcome: nat, ok: bool, go: bool) {
    if !disarmed && !(kind == 10 && matched && s.issued == 8) then !go && t == if s.issued == 8 then s else Issued(s, 8)
    else SettlesTo(if disarmed then s else s.(issued := 0), t, time, outcome, ok, go)
  }

  predicate SettlesTo(s: Control, t: Control, time: word, outcome: nat, ok: bool, go: bool) {
    go == ok && t == if !ok then Faulted(s, 6, time)
                     else if outcome == 1 && !s.stopping then s.(phase := 3)
                     else Concluded(s, 2, 2).(phase := 5)
  }

  /** The wait: restored when stopping, extracted from once over, with a POLL that started. */
  predicate WaitsTo(s: Control, t: Control, time: word, until: word, ok: bool) {
    t == if s.stopping then s.(phase := 5)
         else if !Reached(time, until) then s
         else if ok then s.(phase := 4)
         else Aborted(s, 7, time).(phase := 5)
  }

  /** What extraction works on beside its POLL: the control fields, the notes, the window's state and the association context. */
  datatype Extraction = Extraction(control: Control, notes: Notes, window: nat, context: C.State)

  /** The window opens once: at the end of a pending acknowledgement, or at a response that came before any. */
  predicate WindowDue(window: nat, ackSeen: bool, pending: bool, ready: bool, taken: bool, cause: nat) {
    window == 0 && if ackSeen then pending else ready && !taken && cause == 3
  }

  /** The context's request: two steps of work, the attempt's own addresses, and what is left of the POLL's time, 65535 at most. */
  function ContextRequest(r: Request, left: word): C.Request {
    C.Request(r.epoch, if 1 <= left <= 65535 then left else 65535, 2, r.pan, r.channel, r.coordinatorMode, r.coordinator, r.local)
  }

  function Opened(x: Extraction, r: Request, start: word, left: word, time: word): Extraction {
    var outcome := C.StartResult(x.context, ContextRequest(r, left), start);
    var y := x.(notes := x.notes.(association := outcome), context := C.AfterStart(x.context, ContextRequest(r, left), start));
    if outcome == C.Okay then y.(window := 1) else y.(control := Aborted(x.control, 8, time))
  }

  /** An open window is closed: a context still waiting is cancelled, a finished one gives up its record. */
  function Closed(x: Extraction, r: Request, time: word): Extraction {
    if x.window != 1 then x
    else
      var cancel := C.Some(C.Event(C.CancelEvent, r.epoch, x.context.generation, 0, [], 0, 0));
      var waiting := x.context.phase == C.Wait;
      var mid := if waiting then C.AfterStep(x.context, time, cancel, r.profile) else x.context;
      var stepped := if waiting then C.StepResult(x.context, time, cancel, r.profile) else x.notes.association;
      var taken := if stepped == C.Okay then C.TakeResult(mid) else stepped;
      Extraction(if taken == C.Okay then x.control else Faulted(x.control, 8, time),
                 x.notes.(association := taken, response := if taken == C.Okay then mid.record else x.notes.response),
                 2, if stepped == C.Okay then C.AfterTake(mid) else mid)
  }

  /** A command the POLL delivered is one frame for the open context; a finished context closes the window. */
  function Judged(x: Extraction, r: Request, k: PollRecord, time: word): Extraction {
    var e := C.Some(C.Event(C.FrameEvent, k.epoch, x.context.generation, k.stamp, k.body, r.channel, 1));
    var outcome := C.StepResult(x.context, time, e, r.profile);
    var y := x.(notes := x.notes.(association := outcome), context := C.AfterStep(x.context, time, e, r.profile));
    if outcome != C.Okay then y.(control := Aborted(x.control, 8, time))
    else
      var z := y.(notes := y.notes.(observation := C.Decide(x.context, time, e, r.profile)));
      if z.context.phase == C.Finished then Closed(z, r, time) else z
  }

  /** A frame ready and not yet taken is taken, is the attempt's result, and is judged if a window was entered for it. */
  function Delivered(x: Extraction, r: Request, due: bool, ok: bool, k: PollRecord, time: word): Extraction {
    if !due then x
    else if !ok then x.(control := Faulted(x.control, 7, time), notes := x.notes.(pollOk := false))
    else
      var y := x.(control := Concluded(x.control, 1, 4), notes := x.notes.(pollOk := true));
      if x.window != 0 && k.cause == 3 then Judged(y, r, k, time) else y
  }

  /** The POLL event a step's input amounts to: none, prepared, transmitted, a frame, closed, cancelled or failed. */
  function PollEvent(s: Control, kind: nat, matched: bool, phase: nat): (event: nat)
    ensures event <= 6
  {
    if matched && kind == 2 && s.issued == 2 then 2
    else if kind == 7 then 6
    else if s.stopping && phase < 4 then 5
    else if matched && kind == 1 && s.issued == 3 then 1
    else if matched && kind == 4 && s.issued == 4 then 4
    else if kind == 3 then 3
    else 0
  }

  /** A POLL step: a completion of its own action spends the token, a failure faults, uncertain timing aborts. */
  predicate PollsTo(s: Control, t: Control, event: nat, time: word, reason: nat, go: bool) {
    var spent := if event == 1 || event == 2 || event == 4 then s.(issued := 0) else s;
    t == if !go then Faulted(spent, 7, time) else if reason == 11 then Aborted(spent, 10, time) else spent
  }

  /** Restoration: begun by stopping, impossible unless all is idle, asked for until its own confirmation after the ready time. */
  predicate RestoresTo(s: Control, t: Control, kind: nat, matched: bool, stamp: word, time: word, idle: bool, readyAt: word) {
    var b := Stopped(s, time);
    t == if kind == 7 then Faulted(s, 5, time)
         else if !idle then Faulted(b, 9, time)
         else if matched && kind == 5 && s.issued == 5 then
           if Reached(stamp, readyAt) then Completed(b) else Faulted(b, 9, time)
         else if s.issued == 5 then b
         else Issued(b, 5)
  }

  /**
   A step does the work of the phase it finds, and of every phase it comes to but one: a request just submitted waits for its
   slot. `last` is the last phase whose work is considered.
   */
  predicate Covers(s: nat, t: nat, before: set<nat>, after: set<nat>, last: nat) {
    before <= after && (s <= last ==> s in after) && (t <= last ==> t in after || (t == REQUEST && s == PREPARE))
  }

  /** The step comes to the work of its phase: the clock is sound, the transmitter still the attempt's, the cleanup not given up. */
  predicate Working(s: Control, now: word, same: bool) {
    && PREPARE <= s.phase < DONE && Reached(now, s.last) && same
    && !(s.stopping && (s.stopSteps == 0 || Reached(now, s.stopAt)))
  }

  lemma WorkingGoes(s: Control, now: word, same: bool, kind: nat)
    requires Working(s, now, same)
    ensures Budgeted(s, kind, now).phase == s.phase
  {
  }

  /** An attempt that has ended does no more work. */
  lemma EndedRests(s: Control, seen: Seen, idle: bool, readyAt: word, now: word, same: bool)
    requires s.phase >= DONE
    ensures Stepped(s, s, seen, idle, readyAt) && !Working(s, now, same)
  {
  }

  lemma CoversIs(s: nat, t: nat, before: set<nat>, after: set<nat>, last: nat)
    requires before <= after && (s <= last ==> s in after) && (t <= last ==> t in after || (t == REQUEST && s == PREPARE))
    ensures Covers(s, t, before, after, last)
  {
  }

  lemma CoversGives(s: nat, t: nat, before: set<nat>, after: set<nat>, last: nat)
    requires Covers(s, t, before, after, last)
    ensures before <= after && (s <= last ==> s in after) && (t <= last ==> t in after || (t == REQUEST && s == PREPARE))
  {
  }

  class Join {
    var version: nat
    var owner: Transmitter?
    const poll: Poll
    const association: C.Association
    var request: Request
    var control: Control
    var notes: Notes
    var outgoing: seq<byte>
    var txGeneration: word
    var waitUntil: word
    var childToken: nat
    var window: nat
    var armed: bool
    var disarmed: bool
    /** The action being built for the caller. */
    var output: Action
    /** Calls made into children in this attempt, with what justified each. */
    ghost var calls: seq<ChildCall>
    /** The phases whose work the present step has done. */
    ghost var visited: set<nat>

    /** What the calls say of where the attempt is. */
    ghost predicate Recorded()
      reads `control, `calls, `waitUntil, `request
    {
      Ledger(control.phase, control.stopping, control.causes, calls, waitUntil, request.responseWait)
    }

    /** What extraction works on. */
    ghost function Extracting(): Extraction
      reads `control, `notes, `window, association
    {
      Extraction(control, notes, window, association.Snapshot())
    }

    constructor (now: word)
      ensures version == VERSION && owner == null && control == BlankControl(0, 0, now) && calls == [] && Recorded()
      ensures fresh(poll) && fresh(association)
    {
      version, owner, request := VERSION, null, BLANK_REQUEST;
      poll := new Poll;
      association := new C.Association(now);
      control, notes := BlankControl(0, 0, now), BLANK_NOTES;
      outgoing, txGeneration, waitUntil, childToken, window, armed, disarmed := [], 0, 0, 0, 0, false, false;
      output, calls, visited := NO_ACTION, [], {};
    }

    // ---------- the small moves, each within the moves of the step so far ----------

    method Abort(reason: nat, time: word, ghost s0: Control)
      requires Moved(s0, control, time) && control.phase <= FAULT && control.phase != DONE && reason != 0
      modifies `control
      ensures control == Aborted(old(control), reason, time)
      ensures Moved(s0, control, time) && control.phase == old(control).phase && control.stopping
      ensures TokenKept(s0, old(control)) ==> TokenKept(s0, control)
      ensures control.issued == old(control).issued && control.issuedToken == old(control).issuedToken
    {
      AbortMoves(control, reason, time);
      MovedTransitive(s0, control, Aborted(control, reason, time), time);
      var c := control.causes;
      if c.reason == 0 {
        c := c.(reason := reason, errorStage := control.phase);
      }
      if c.result == 0 {
        c := c.(result := LOCAL_ABORT, stage := control.phase);
      }
      control := control.(causes := c);
      if !control.stopping {
        control := control.(stopping := true, stopAt := Plus(time, STOP_TIME), stopSteps := STOP_WORK);
      }
    }

    method FaultWith(reason: nat, time: word, ghost s0: Control)
      requires Moved(s0, control, time) && control.phase <= FAULT && control.phase != DONE && reason != 0
      modifies `control
      ensures control == Faulted(old(control), reason, time)
      ensures Moved(s0, control, time) && control.phase == FAULT && control.issued == old(control).issued
      ensures TokenKept(s0, old(control)) ==> TokenKept(s0, control)
    {
      FaultMoves(control, reason, time);
      MovedTransitive(s0, control, Faulted(control, reason, time), time);
      ghost var before := control;
      if (control.stopping || control.phase == RESTORE) && control.causes.cleanupError == 0 {
        control := control.(causes := control.causes.(cleanupError := reason));
      }
      ghost var marked := control;
      MovedReflexive(control, time);
      Abort(reason, time, control);
      control := control.(uncertain := true, phase := FAULT);
    }

    /** A fault before completion, which the calls so far do not speak against. */
    method FaultHere(reason: nat, time: word, ghost s0: Control)
      requires Moved(s0, control, time) && PREPARE <= control.phase < DONE && reason != 0 && Recorded()
      modifies `control
      ensures control == Faulted(old(control), reason, time)
      ensures Moved(s0, control, time) && control.phase == FAULT && control.issued == old(control).issued
      ensures Recorded()
    {
      hide Moved, Ledger, Faulted, TokenKept;
      FaultLedger(control, reason, time, calls, waitUntil, request.responseWait);
      FaultWith(reason, time, s0);
    }

    /** An abort likewise. */
    method AbortHere(reason: nat, time: word, ghost s0: Control)
      requires Moved(s0, control, time) && PREPARE <= control.phase < DONE && reason != 0 && Recorded()
      modifies `control
      ensures control == Aborted(old(control), reason, time)
      ensures Moved(s0, control, time) && control.phase == old(control).phase && control.stopping
      ensures TokenKept(s0, old(control)) ==> TokenKept(s0, control)
      ensures control.issued == old(control).issued
      ensures Recorded() && Ledger(RESTORE, control.stopping, control.causes, calls, waitUntil, request.responseWait)
    {
      hide Moved, Ledger, Aborted, TokenKept;
      AbortLedger(control, reason, time, calls, waitUntil, request.responseWait);
      Abort(reason, time, s0);
    }

    method Issue(kind: nat, time: word, ghost s0: Control)
      requires Moved(s0, control, time) && TokenKept(s0, control) && control.phase < DONE && kind != ACTION_NONE
      requires kind == ACTION_RESTORE ==> control.phase == RESTORE
      modifies `control, `output
      ensures control == Issued(old(control), kind) && Moved(s0, control, time)
      ensures output == old(output).(kind := kind, token := control.token)
    {
      IssueMoves(control, kind, time);
      MovedTransitive(s0, control, Issued(control, kind), time);
      var token := (control.token + 1) % TOKENS;
      control := control.(token := token, issued := kind, issuedToken := token);
      output := output.(kind := kind, token := token);
    }

    method Enter(phase: nat, time: word, ghost s0: Control)
      requires Moved(s0, control, time) && control.phase <= phase < DONE
      modifies `control
      ensures control == old(control).(phase := phase) && Moved(s0, control, time)
      ensures TokenKept(s0, old(control)) ==> TokenKept(s0, control)
    {
      PhaseMoves(control, phase, time);
      MovedTransitive(s0, control, control.(phase := phase), time);
      control := control.(phase := phase);
    }

    method Spend(time: word, ghost s0: Control)
      requires Moved(s0, control, time) && control.phase < DONE
      modifies `control
      ensures control == old(control).(issued := ACTION_NONE) && Moved(s0, control, time)
      ensures TokenKept(s0, old(control)) ==> TokenKept(s0, control)
    {
      SpendMoves(control, time);
      MovedTransitive(s0, control, control.(issued := ACTION_NONE), time);
      control := control.(issued := ACTION_NONE);
    }

    method Conclude(result: nat, stage: nat, time: word, ghost s0: Control)
      requires Moved(s0, control, time) && control.phase < DONE
      modifies `control
      ensures control == Concluded(old(control), result, stage) && Moved(s0, control, time)
      ensures control.phase == old(control).phase && control.stopping == old(control).stopping
              && control.issued == old(control).issued
      ensures TokenKept(s0, old(control)) ==> TokenKept(s0, control)
    {
      ConcludeMoves(control, result, stage, time);
      MovedTransitive(s0, control, Concluded(control, result, stage), time);
      if control.causes.result == 0 {
        control := control.(causes := control.causes.(result := result, stage := stage));
      }
    }

    // ---------- preparation and the request ----------

    method PrepareBlock(kind: nat, matched: bool, time: word) returns (go: bool)
      requires control.phase == PREPARE && owner != null && Recorded()
      modifies `control, `armed, `disarmed, `notes, `txGeneration, `output, `calls, `visited, owner
      ensures Within(old(control), control, time, go, PREPARE)
      ensures Extended(old(calls), calls) && Recorded() && visited == old(visited) + {1}
      ensures go || control.phase == REQUEST
      ensures PreparesTo(old(control), control, kind, matched, time, notes.txOk, go)
      ensures calls == old(calls) + if matched && kind == 1 && !old(control.stopping)
                                    then [SubmitCall(true, 1, outgoing, Minus(old(control.deadline), time))] else []
      ensures control.phase == REQUEST ==> !armed && !disarmed && txGeneration == owner.generation
      ensures output == if !go then old(output).(kind := 7, token := control.token)
                        else if old(control.stopping) || (matched && kind == 1) || old(control.issued) != 0 then old(output)
                        else old(output).(kind := 1, token := control.token, state := Radio(request.pan, request.channel, 0, 1))
    {
      hide Moved, TokenKept, Ledger, Aborted;
      ghost var s0, wait := control, request.responseWait;
      visited := visited + {PREPARE};
      MovedReflexive(s0, time);
      Unmoved(s0);
      go := true;
      if control.stopping {
        LedgerStays(control, control.(phase := RESTORE), calls, waitUntil, wait);
        Enter(RESTORE, time, s0);
      } else if matched && kind == PREPARED {
        Spend(time, s0);
        go := SubmitRequest(time, s0);
      } else if control.issued == ACTION_NONE {
        Issue(ACTION_PREPARE, time, s0);
        output := output.(state := Radio(request.pan, request.channel, 0, 1));
      }
    }

    /** The request is handed to the transmitter with what is left of the lifetime, and its slot is to be armed. */
    method SubmitRequest(time: word, ghost s0: Control) returns (go: bool)
      requires control.phase == PREPARE && !control.stopping && owner != null && Recorded()
      requires Moved(s0, control, time) && TokenKept(s0, control)
      modifies `control, `armed, `disarmed, `notes, `txGeneration, `output, `calls, owner
      ensures Moved(s0, control, time) && control.phase != DONE && (!go ==> control.phase == REQUEST) && (go ==> TokenKept(s0, control))
      ensures control.issued == ACTION_RESTORE ==> old(control).issued == ACTION_RESTORE
      ensures Recorded() && go == !notes.txOk
      ensures control == if go then Aborted(old(control), 6, time).(phase := 5) else Issued(old(control).(phase := 2), 7)
      ensures calls == old(calls) + [SubmitCall(true, 1, outgoing, Minus(old(control.deadline), time))]
      ensures owner.asked == Submitted(outgoing, time, Minus(old(control.deadline), time))
      ensures !go ==> !armed && !disarmed && txGeneration == owner.generation
      ensures output == if go then old(output) else old(output).(kind := 7, token := control.token)
    {
      hide Moved, TokenKept, Ledger, Aborted;
      ghost var c := SubmitCall(true, PREPARED, outgoing, Minus(control.deadline, time));
      LedgerSubmits(control, calls, c, waitUntil, request.responseWait);
      calls := calls + [c];
      var ok := owner.Submit(outgoing, time, Minus(control.deadline, time));
      notes := notes.(txOk := ok);
      if !ok {
        AbortHere(TX_ERROR, time, s0);
        Enter(RESTORE, time, s0);
        return true;
      }
      txGeneration := owner.generation;
      Enter(REQUEST, time, s0);
      armed, disarmed := false, false;
      Issue(ACTION_ARM, time, s0);
      go := false;
    }

    /** The slot must be armed before the transmitter may be stepped, unless the attempt is already stopping. */
    method ArmPart(kind: nat, matched: bool, time: word, ghost s0: Control) returns (go: bool)
      requires control.phase == REQUEST && owner != null
      requires Moved(s0, control, time) && TokenKept(s0, control)
      modifies `control, `armed, `output
      ensures Moved(s0, control, time) && control.phase == REQUEST && control.stopping == old(control).stopping
      ensures control.causes == old(control).causes
      ensures control.issued == ACTION_RESTORE ==> old(control).issued == ACTION_RESTORE
      ensures go ==> TokenKept(s0, control)
      ensures go ==> armed || control.stopping || owner.phase == TX_DONE
      ensures ArmsTo(old(control), control, kind, matched, old(armed), owner.phase == 6, go)
      ensures armed == (old(armed) || (!old(control.stopping) && owner.phase != 6 && go))
      ensures output == if control.token == old(control.token) then old(output) else old(output).(kind := 7, token := control.token)
    {
      hide Moved, TokenKept;
      go := true;
      if !armed && !control.stopping && owner.phase != TX_DONE {
        if kind == ARMED && matched && control.issued == ACTION_ARM {
          armed := true;
          Spend(time, s0);
        } else {
          if control.issued != ACTION_ARM { Issue(ACTION_ARM, time, s0); }
          go := false;
        }
      }
    }

    /** What the transmitter is stepped with: the event's own source, or a cancellation while stopping. */
    method SourceFor(kind: nat, e: Event, time: word) returns (source: Source)
      requires owner != null
      ensures control.stopping && owner.phase != TX_STOPPING ==>
                source == NO_SOURCE.(kind := SOURCE_CANCEL, generation := owner.generation, retry := owner.retries, nb := owner.nb,
                                     stamp := time)
      ensures !(control.stopping && owner.phase != TX_STOPPING) ==>
                source == if kind == SOURCE && (e.source.kind != SOURCE_ACK_INTERVAL || e.crcValid != 0) then e.source else NO_SOURCE
    {
      source := NO_SOURCE;
      if kind == SOURCE && (e.source.kind != SOURCE_ACK_INTERVAL || e.crcValid != 0) { source := e.source; }
      if control.stopping && owner.phase != TX_STOPPING {
        source := NO_SOURCE.(kind := SOURCE_CANCEL, generation := owner.generation, retry := owner.retries, nb := owner.nb,
                             stamp := time);
      }
    }

    /** An acknowledged request opens the response wait at the end of its acknowledgement. */
    method NoteAcknowledged(before: nat, source: Source, upper: E.Stamp, ghost mayStep: bool)
      requires owner != null && control.phase == REQUEST && Recorded() && (mayStep || control.stopping)
      requires control.stopping && before != 5 ==> source.kind == 7
      modifies `notes, `waitUntil, `calls
      ensures if before == TX_ACK_WAIT && owner.phase == TX_STOPPING && owner.outcome == TX_ACKED then
                notes == old(notes).(requestAck := CeilSymbols(upper))
                && waitUntil == Plus(CeilSymbols(upper), (request.responseWait * 960) % 0x1_0000)
              else notes == old(notes) && waitUntil == old(waitUntil)
      ensures calls == old(calls) + [TxStepCall(mayStep, control.stopping, before, source,
                                                before == 4 && owner.phase == 5 && owner.outcome == 1, upper)]
      ensures Recorded()
    {
      hide Ledger;
      ghost var c := TxStepCall(mayStep, control.stopping, before, source, before == 4 && owner.phase == 5 && owner.outcome == 1, upper);
      ghost var until := waitUntil;
      if before == TX_ACK_WAIT && owner.phase == TX_STOPPING && owner.outcome == TX_ACKED {
        notes := notes.(requestAck := CeilSymbols(upper));
        waitUntil := Plus(notes.requestAck, (request.responseWait * 960) % 0x1_0000);
      }
      LedgerSteps(control, calls, c, until, waitUntil, request.responseWait);
      calls := calls + [c];
    }

    /** One step of the transmitter; the acknowledgement is noted when the step brought it. */
    method StepTransmitter(source: Source, upper: E.Stamp, time: word, ghost s0: Control) returns (go: bool)
      requires control.phase == REQUEST && owner != null && (armed || control.stopping) && Recorded()
      requires control.stopping && owner.phase != 5 ==> source.kind == 7
      requires Moved(s0, control, time) && TokenKept(s0, control)
      modifies `control, `armed, `notes, `waitUntil, `output, `calls, owner
      ensures Moved(s0, control, time) && control.phase != DONE && (go ==> control.phase == REQUEST) && (!go ==> control.phase == FAULT)
      ensures control.issued == ACTION_RESTORE ==> old(control).issued == ACTION_RESTORE
      ensures go && owner.phase != TX_DRAW ==> TokenKept(s0, control)
      ensures calls == old(calls) + [TxStepCall(old(armed), old(control).stopping, old(owner.phase), source,
                                                go && old(owner.phase) == 4 && owner.phase == 5 && owner.outcome == 1, upper)]
      ensures TransmitsTo(old(control), control, time, notes.txOk, owner.phase, owner.outcome, go)
      ensures notes.txOutcome == owner.outcome && (go ==> armed == (old(armed) && owner.phase != 1))
      ensures owner.asked == TxStepped(time, source)
      ensures go ==> output.radioKind == (if owner.answered != 0 then owner.answered else old(output).radioKind)
                     && output.kind == if owner.phase == 1 then 7 else if owner.answered != 0 then 6 else old(output).kind
      ensures Recorded()
    {
      hide Moved, TokenKept, Ledger, Aborted, Faulted;
      var before := owner.phase;
      ghost var mayStep := armed;
      var ok, radioKind := owner.Step(time, source);
      notes := notes.(txOk := ok, txOutcome := owner.outcome);
      if !ok {
        StepFailed(TxStepCall(mayStep, control.stopping, before, source, false, upper), time, s0);
        return false;
      }
      if radioKind != 0 { output := output.(radioKind := radioKind, kind := ACTION_RADIO); }
      StepDone(before, source, upper, time, mayStep, s0);
      go := true;
    }

    /** A transmitter step that failed faults the attempt. */
    method StepFailed(ghost c: ChildCall, time: word, ghost s0: Control)
      requires control.phase == REQUEST && Recorded() && Moved(s0, control, time)
      requires c.TxStepCall? && (c.armed || c.stopping) && (c.stopping && c.before != 5 ==> c.source.kind == 7) && !c.acked
      modifies `control, `calls
      ensures control == Faulted(old(control), 6, time) && control.issued == old(control).issued && calls == old(calls) + [c]
      ensures Recorded() && Moved(s0, control, time) && control.phase == FAULT
    {
      hide Moved, TokenKept, Ledger, Faulted;
      LedgerSteps(control, calls, c, waitUntil, waitUntil, request.responseWait);
      calls := calls + [c];
      FaultHere(TX_ERROR, time, s0);
    }

    /** A transmitter step that was granted: armed again, acknowledged, or of uncertain timing. */
    method StepDone(before: nat, source: Source, upper: E.Stamp, time: word, ghost mayStep: bool, ghost s0: Control)
      requires control.phase == REQUEST && owner != null && Recorded() && (mayStep || control.stopping)
      requires control.stopping && before != 5 ==> source.kind == 7
      requires Moved(s0, control, time) && TokenKept(s0, control)
      modifies `control, `armed, `notes, `waitUntil, `output, `calls
      ensures Moved(s0, control, time) && control.phase == REQUEST
      ensures control.issued == ACTION_RESTORE ==> old(control).issued == ACTION_RESTORE
      ensures owner.phase != TX_DRAW ==> TokenKept(s0, control)
      ensures calls == old(calls) + [TxStepCall(mayStep, old(control).stopping, before, source,
                                                before == 4 && owner.phase == 5 && owner.outcome == 1, upper)]
      ensures TransmitsTo(old(control), control, time, true, owner.phase, owner.outcome, true)
      ensures notes.txOk == old(notes.txOk) && notes.txOutcome == old(notes.txOutcome) && armed == (old(armed) && owner.phase != 1)
      ensures output == if owner.phase == 1 then old(output).(kind := 7, token := output.token) else old(output)
      ensures Recorded()
    {
      hide Moved, TokenKept, Ledger, Aborted, Faulted;
      Rearm(time, s0);
      NoteAcknowledged(before, source, upper, mayStep);
      if owner.outcome == TX_UNCERTAIN { AbortHere(TIMING_UNCERTAIN, time, s0); }
    }

    /** A transmitter back at its backoff draw needs arming again. */
    method Rearm(time: word, ghost s0: Control)
      requires control.phase == REQUEST && owner != null && Moved(s0, control, time) && TokenKept(s0, control)
      modifies `control, `armed, `output
      ensures Moved(s0, control, time) && control.phase == REQUEST
      ensures control.issued == ACTION_RESTORE ==> old(control).issued == ACTION_RESTORE
      ensures owner.phase != TX_DRAW ==> control == old(control)
      ensures control == (if owner.phase == 1 then Issued(old(control), 7) else old(control)) && armed == (old(armed) && owner.phase != 1)
      ensures output == if owner.phase == 1 then old(output).(kind := 7, token := control.token) else old(output)
      ensures control.stopping == old(control).stopping && control.causes == old(control).causes
    {
      hide Moved, TokenKept;
      if owner.phase == TX_DRAW {
        armed := false;
        Issue(ACTION_ARM, time, s0);
      }
    }

    /** The transmitter is stepped unless it has ended; a faulted one faults the attempt. */
    method TransmitPart(kind: nat, e: Event, time: word, ghost s0: Control) returns (go: bool)
      requires control.phase == REQUEST && owner != null && (armed || control.stopping || owner.phase == TX_DONE) && Recorded()
      requires Moved(s0, control, time) && TokenKept(s0, control)
      modifies `control, `armed, `notes, `waitUntil, `output, `calls, owner
      ensures Moved(s0, control, time) && control.phase != DONE && (go ==> control.phase == REQUEST) && (!go ==> control.phase == FAULT)
      ensures control.issued == ACTION_RESTORE ==> old(control).issued == ACTION_RESTORE
      ensures go && owner.phase == TX_DONE ==> TokenKept(s0, control)
      ensures Extended(old(calls), calls) && Recorded()
      ensures old(owner.phase) == 6 ==> go && control == old(control) && calls == old(calls) && owner.phase == 6
      ensures old(owner.phase) == 7 ==> !go && control == Faulted(old(control), 6, time) && calls == old(calls)
      ensures old(owner.phase) != 6 && old(owner.phase) != 7 ==>
                && |calls| == |old(calls)| + 1 && calls[|calls| - 1].TxStepCall?
                && calls[|calls| - 1].upper == e.source.upper
                && calls[|calls| - 1].source == (if old(control.stopping) && old(owner.phase) != 5
                                                 then NO_SOURCE.(kind := 7, generation := old(owner.generation), retry := old(owner.retries),
                                                                 nb := old(owner.nb), stamp := time)
                                                 else if kind == 8 && (e.source.kind != 9 || e.crcValid != 0) then e.source else NO_SOURCE)
                && if notes.txOk && owner.phase == 7 then !go && control.phase == 7
                   else TransmitsTo(old(control), control, time, notes.txOk, owner.phase, owner.outcome, go)
    {
      hide Moved, TokenKept, Ledger, Faulted, Aborted;
      go := true;
      if owner.phase != TX_DONE && owner.phase != TX_FAULT {
        var source := SourceFor(kind, e, time);
        go := StepTransmitter(source, e.source.upper, time, s0);
        if !go { return; }
      }
      if owner.phase == TX_FAULT {
        FaultHere(TX_ERROR, time, s0);
        go := false;
      }
    }

    /** The finished slot is disarmed and released, and the request's outcome decides between waiting and restoring. */
    method ReleasePart(kind: nat, matched: bool, time: word, ghost s0: Control) returns (go: bool)
      requires control.phase == REQUEST && owner != null && owner.phase == TX_DONE && Recorded()
      requires Moved(s0, control, time) && TokenKept(s0, control)
      modifies `control, `disarmed, `notes, `output, `calls, owner
      ensures Moved(s0, control, time) && control.phase != DONE && (go ==> control.phase < DONE && TokenKept(s0, control))
      ensures go || control.phase == REQUEST || control.phase == FAULT
      ensures control.issued == ACTION_RESTORE ==> old(control).issued == ACTION_RESTORE
      ensures ReleasesTo(old(control), control, kind, matched, time, old(disarmed), old(owner.outcome), notes.txOk, go)
      ensures disarmed == (old(disarmed) || (kind == 10 && matched && old(control).issued == 8))
      ensures calls == old(calls) + if disarmed then [ReleaseCall(true, old(control).stopping, old(owner.outcome), go)] else []
      ensures Extended(old(calls), calls) && Recorded()
    {
      hide Moved, TokenKept, Ledger, Faulted, Concluded;
      if !disarmed {
        if kind == DISARMED && matched && control.issued == ACTION_DISARM {
          disarmed := true;
          Spend(time, s0);
        } else {
          if control.issued != ACTION_DISARM { Issue(ACTION_DISARM, time, s0); }
          return false;
        }
      }
      go := Settle(time, s0);
    }

    /** The slot is released: an acknowledged request waits for its response, any other one is over. */
    method Settle(time: word, ghost s0: Control) returns (go: bool)
      requires control.phase == REQUEST && owner != null && disarmed && Recorded()
      requires Moved(s0, control, time) && TokenKept(s0, control)
      modifies `control, `notes, `calls, owner
      ensures Moved(s0, control, time) && control.phase != DONE && (go ==> control.phase < DONE && TokenKept(s0, control))
      ensures control.issued == old(control).issued
      ensures calls == old(calls) + [ReleaseCall(true, old(control).stopping, old(owner.outcome), go)]
      ensures SettlesTo(old(control), control, time, old(owner.outcome), notes.txOk, go)
      ensures go || control.phase == REQUEST || control.phase == FAULT
      ensures notes.txOutcome == old(owner.outcome)
      ensures Recorded()
    {
      hide Moved, TokenKept, Concluded, Ledger, Faulted;
      ghost var begun := control;
      notes := notes.(txOutcome := owner.outcome);
      ghost var outcome := owner.outcome;
      go := owner.Release();
      notes := notes.(txOk := go);
      if !go {
        FaultWith(TX_ERROR, time, s0);
      } else if control.stopping || notes.txOutcome != TX_ACKED {
        Conclude(REQUEST_RESULT, REQUEST, time, s0);
        Enter(RESTORE, time, s0);
      } else {
        Enter(WAIT, time, s0);
      }
      LedgerReleases(begun, control, calls, ReleaseCall(true, begun.stopping, outcome, go), waitUntil, request.responseWait);
      calls := calls + [ReleaseCall(true, begun.stopping, outcome, go)];
    }

    method RequestBlock(kind: nat, matched: bool, e: Event, time: word) returns (go: bool)
      requires control.phase == REQUEST && owner != null && Recorded()
      modifies `control, `armed, `disarmed, `notes, `waitUntil, `output, `calls, `visited, owner
      ensures Within(old(control), control, time, go, REQUEST)
      ensures Extended(old(calls), calls) && Recorded() && visited == old(visited) + {2}
      ensures go || control.phase == REQUEST || control.phase == FAULT
      ensures go && control.phase == REQUEST ==> owner.phase != 6
      ensures go && old(owner.phase) != 6 ==> |calls| > |old(calls)| && calls[|old(calls)|].TxStepCall?
    {
      ghost var s0 := control;
      visited := visited + {REQUEST};
      MovedReflexive(s0, time);
      Unmoved(s0);
      hide Moved, TokenKept, Ledger, ArmsTo, TransmitsTo, ReleasesTo, Faulted;
      go := ArmPart(kind, matched, time, s0);
      if !go { return; }
      go := TransmitPart(kind, e, time, s0);
      if !go { return; }
      if owner.phase == TX_DONE {
        go := ReleasePart(kind, matched, time, s0);
      }
    }

    /** Once the response wait is over, extraction starts with what is left of the lifetime. */
    method WaitBlock(kind: nat, matched: bool, time: word) returns (kindLeft: nat, matchedLeft: bool)
      requires control.phase == WAIT && owner != null && Recorded()
      modifies `control, `notes, `calls, `visited, owner, poll
      ensures Within(old(control), control, time, true, WAIT)
      ensures TokenKept(old(control), control)
      ensures (kindLeft, matchedLeft) == (kind, matched) || (kindLeft == 0 && !matchedLeft)
      ensures control.phase == EXTRACT ==> kindLeft == 0 && !matchedLeft
      ensures Extended(old(calls), calls) && Recorded() && visited == old(visited) + {3}
      ensures WaitsTo(old(control), control, time, waitUntil, notes.pollOk)
      ensures var starts := !old(control.stopping) && Reached(time, waitUntil);
              && calls == old(calls) + (if starts then [PollStartCall(false, time, Minus(old(control.deadline), time))] else [])
              && (starts || (kindLeft, matchedLeft) == (kind, matched)) && (starts ==> kindLeft == 0 && !matchedLeft)
    {
      ghost var s0, wait := control, request.responseWait;
      visited := visited + {WAIT};
      MovedReflexive(s0, time);
      Unmoved(s0);
      hide Moved, TokenKept, Ledger, Aborted;
      kindLeft, matchedLeft := kind, matched;
      if control.stopping {
        LedgerCause(control, calls, waitUntil, wait);
        LedgerStays(control, control.(phase := RESTORE), calls, waitUntil, wait);
        Enter(RESTORE, time, s0);
      } else if Reached(time, waitUntil) {
        StartPoll(time, s0);
        kindLeft, matchedLeft := 0, false;
      }
    }

    /** The POLL is started with what is left of the lifetime. */
    method StartPoll(time: word, ghost s0: Control)
      requires control.phase == WAIT && !control.stopping && owner != null && Recorded() && Reached(time, waitUntil)
      requires Moved(s0, control, time) && TokenKept(s0, control)
      modifies `control, `notes, `calls, owner, poll
      ensures Moved(s0, control, time) && TokenKept(s0, control) && control.phase < DONE && control.issued == old(control).issued
      ensures Recorded() && calls == old(calls) + [PollStartCall(false, time, Minus(old(control.deadline), time))]
      ensures poll.asked == PollStarted(request, Minus(old(control.deadline), time), time)
      ensures control == if notes.pollOk then old(control).(phase := 4) else Aborted(old(control), 7, time).(phase := 5)
    {
      hide Moved, TokenKept, Ledger, Aborted;
      ghost var begun := control;
      var ok := poll.Start(owner, request, Minus(control.deadline, time), time);
      notes := notes.(pollOk := ok);
      if !ok {
        Abort(POLL_ERROR, time, s0);
        Enter(RESTORE, time, s0);
      } else {
        Enter(EXTRACT, time, s0);
      }
      PolledOn(begun, control, calls, time, Minus(begun.deadline, time), waitUntil, request.responseWait);
      calls := calls + [PollStartCall(begun.stopping, time, Minus(begun.deadline, time))];
    }

    // ---------- extraction ----------

    /** A pending acknowledgement, or an early response, opens the association context once. */
    method OpenWindow(time: word, ghost s0: Control)
      requires control.phase == EXTRACT && owner != null && Moved(s0, control, time) && TokenKept(s0, control)
      modifies `control, `notes, `window, association
      ensures Moved(s0, control, time) && TokenKept(s0, control) && control.issued == old(control).issued && control.phase == EXTRACT
      ensures var start := if poll.ackSeen then poll.ackEnd else poll.stamp;
              Extracting() == if WindowDue(old(window), poll.ackSeen, owner.pending, poll.ready, poll.taken, poll.cause)
                              then Opened(old(Extracting()), request, start, Minus(poll.deadline, start), time) else old(Extracting())
    {
      hide Moved, TokenKept, Aborted, C.StartResult, C.AfterStart;
      if window != 0 { return; }
      if !((poll.ackSeen && owner.pending) || (!poll.ackSeen && poll.ready && !poll.taken && poll.cause == POLL_COMMAND)) { return; }
      var start := if poll.ackSeen then poll.ackEnd else poll.stamp;
      var lifetime := Minus(poll.deadline, start);
      if lifetime == 0 || lifetime > C.MAX_LIFETIME { lifetime := C.MAX_LIFETIME; }
      var r := C.Request(request.epoch, lifetime, 2, request.pan, request.channel, request.coordinatorMode,
                         request.coordinator, request.local);
      var outcome := association.Start(r, start);
      notes := notes.(association := outcome);
      if outcome != C.Okay {
        Abort(CONTEXT_ERROR, time, s0);
      } else {
        window := 1;
      }
    }

    /** Ends the association context, cancelling it when it still waits, and takes its record. */
    method FinishWindow(time: word, ghost s0: Control)
      requires control.phase <= FAULT && control.phase != DONE && Moved(s0, control, time) && TokenKept(s0, control)
      modifies `control, `notes, `window, association
      ensures Moved(s0, control, time) && TokenKept(s0, control) && control.issued == old(control).issued
      ensures control.phase == old(control).phase || control.phase == FAULT
      ensures Extracting() == Closed(old(Extracting()), request, time) && notes.pollOk == old(notes.pollOk)
    {
      hide Moved, TokenKept, Faulted, C.StepResult, C.AfterStep, C.TakeResult, C.AfterTake;
      if window != 1 { return; }
      if association.phase == C.Wait {
        var cancel := C.Event(C.CancelEvent, request.epoch, association.generation, 0, [], 0, 0);
        var outcome, observation := association.StepRx(time, C.Some(cancel), request.profile);
        notes := notes.(association := outcome);
      }
      if notes.association == C.Okay {
        var outcome, record := association.Take();
        notes := notes.(association := outcome);
        if outcome == C.Okay { notes := notes.(response := record); }
      }
      if notes.association != C.Okay { FaultWith(CONTEXT_ERROR, time, s0); }
      window := 2;
    }

    /** A frame the POLL has ready is taken once; a command goes to the open context. */
    method Receipt(time: word, ghost s0: Control) returns (ghost delivered: PollRecord)
      requires control.phase == EXTRACT && Moved(s0, control, time) && TokenKept(s0, control)
      modifies `control, `notes, `window, association, poll
      ensures Moved(s0, control, time) && TokenKept(s0, control) && control.issued == old(control).issued
      ensures control.phase == EXTRACT || control.phase == FAULT
      ensures poll.phase == old(poll.phase) && poll.reason == old(poll.reason) && poll.cleanup == old(poll.cleanup)
      ensures Extracting() == Delivered(old(Extracting()), request, old(poll.ready && !poll.taken), notes.pollOk, delivered, time)
    {
      hide Moved, TokenKept, Concluded, Faulted, Judged;
      delivered := PollRecord(0, 0, 0, []);
      if !poll.ready || poll.taken { return; }
      var ok, record := poll.Take();
      delivered := record;
      notes := notes.(pollOk := ok);
      if !ok {
        FaultWith(POLL_ERROR, time, s0);
        return;
      }
      Conclude(POLL_RESULT, EXTRACT, time, s0);
      if window != 0 && record.cause == POLL_COMMAND { Classify(record, time, s0); }
    }

    method Classify(record: PollRecord, time: word, ghost s0: Control)
      requires control.phase == EXTRACT && Moved(s0, control, time) && TokenKept(s0, control)
      modifies `control, `notes, `window, association
      ensures Moved(s0, control, time) && TokenKept(s0, control) && control.issued == old(control).issued
      ensures control.phase == EXTRACT || control.phase == FAULT
      ensures notes.pollOk == old(notes.pollOk)
      ensures Extracting() == Judged(old(Extracting()), request, record, time)
    {
      hide Moved, TokenKept, Aborted, Closed, C.StepResult, C.AfterStep, C.Decide;
      var e := C.Event(C.FrameEvent, record.epoch, association.generation, record.stamp, record.body, request.channel, 1);
      var outcome, observation := association.StepRx(time, C.Some(e), request.profile);
      notes := notes.(association := outcome);
      if outcome != C.Okay {
        Abort(CONTEXT_ERROR, time, s0);
      } else {
        notes := notes.(observation := observation);
        if association.phase == C.Finished { FinishWindow(time, s0); }
      }
    }

    /** Which POLL event this step's input amounts to; 0 is a plain poll. */
    function PollKind(kind: nat, matched: bool): (event: nat)
      reads `control, poll
      ensures event == PollEvent(control, kind, matched, poll.phase)
    {
      if matched && kind == TX_REPORT && control.issued == ACTION_TX then 2
      else if kind == FAILURE then 6
      else if control.stopping && poll.phase < POLL_DRAIN then 5
      else if matched && kind == PREPARED && control.issued == ACTION_RECEIVE then 1
      else if matched && kind == CLOSED && control.issued == ACTION_CLOSE then 4
      else if kind == FRAME then 3
      else 0
    }

    method AskPoll(event: nat, stamp: word, token: nat, source: Source, time: word) returns (go: bool, a: PollAction)
      requires owner != null
      modifies `notes, `txGeneration, `calls, owner, poll
      ensures notes == old(notes).(pollOk := go) && txGeneration == owner.generation
      ensures calls == old(calls) + [PollStepCall(event, stamp, token, source)]
      ensures poll.asked == PollStepped(time, event, stamp, token, source)
    {
      calls := calls + [PollStepCall(event, stamp, token, source)];
      go, a := poll.Step(owner, time, event, stamp, token, source);
      notes := notes.(pollOk := go);
      txGeneration := owner.generation;
    }

    /** The POLL is stepped once; a completion of its own action spends the token. */
    method StepPoll(kind: nat, matched: bool, e: Event, time: word, ghost s0: Control) returns (go: bool, a: PollAction)
      requires control.phase == EXTRACT && owner != null && Moved(s0, control, time) && TokenKept(s0, control)
      modifies `control, `notes, `txGeneration, `output, `calls, owner, poll
      ensures Moved(s0, control, time) && TokenKept(s0, control) && control.phase != DONE && (if go then control.phase == EXTRACT else control.phase == FAULT)
      ensures control.issued == ACTION_RESTORE ==> old(control).issued == ACTION_RESTORE
      ensures var event := PollEvent(old(control), kind, matched, old(poll.phase)); var own := event != 0 && event != 5;
              && PollsTo(old(control), control, event, time, poll.reason, go) && notes.pollOk == go && txGeneration == owner.generation
              && calls == old(calls) + [PollStepCall(event, if own then e.stamp else time, if own then childToken else e.token, e.source)]
              && poll.asked == PollStepped(time, event, if own then e.stamp else time, if own then childToken else e.token, e.source)
              && output == if go && a.observation != 0 then old(output).(observation := a.observation) else old(output)
    {
      hide Moved, TokenKept, Aborted, Faulted, PollKind, PollEvent;
      var pollKind := PollKind(kind, matched);
      var own := pollKind != 0 && pollKind != 5;
      if own && pollKind != 3 && pollKind != 6 { Spend(time, s0); }
      go, a := AskPoll(pollKind, if own then e.stamp else time, if own then childToken else e.token, e.source, time);
      if !go {
        FaultWith(POLL_ERROR, time, s0);
        return;
      }
      if a.observation != 0 { output := output.(observation := a.observation); }
      if poll.reason == POLL_UNCERTAIN { Abort(TIMING_UNCERTAIN, time, s0); }
    }

    /** What the POLL has to show is collected: the window it opens, the frame it delivers, its reasons. */
    method Collect(time: word, ghost s0: Control) returns (go: bool, ghost entered: Extraction, ghost received: Extraction,
                                                           ghost delivered: PollRecord)
      requires control.phase == EXTRACT && owner != null && Moved(s0, control, time) && TokenKept(s0, control)
      modifies `control, `notes, `window, poll, association
      ensures Moved(s0, control, time) && TokenKept(s0, control) && control.issued == old(control).issued
      ensures if go then control.phase == EXTRACT else control.phase == FAULT
      ensures var start := old(if poll.ackSeen then poll.ackEnd else poll.stamp);
              entered == if old(WindowDue(window, poll.ackSeen, owner.pending, poll.ready, poll.taken, poll.cause))
                        then Opened(old(Extracting()), request, start, Minus(old(poll.deadline), start), time) else old(Extracting())
      ensures received == Delivered(entered, request, old(poll.ready && !poll.taken), received.notes.pollOk, delivered, time)
      ensures poll.phase == old(poll.phase) && go == (received.control.phase != FAULT && poll.phase != 6)
      ensures Extracting() == received.(notes := received.notes.(pollReason := poll.reason, pollCleanup := poll.cleanup),
                                        control := if go then received.control else Faulted(received.control, 7, time))
    {
      hide Moved, TokenKept, Opened, Delivered, Faulted;
      OpenWindow(time, s0);
      entered := Extracting();
      delivered := Receipt(time, s0);
      received := Extracting();
      notes := notes.(pollReason := poll.reason, pollCleanup := poll.cleanup);
      go := control.phase != FAULT && poll.phase != POLL_FAULT;
      if !go { FaultWith(POLL_ERROR, time, s0); }
    }

    method ExtractBlock(kind: nat, matched: bool, e: Event, time: word) returns (go: bool)
      requires control.phase == EXTRACT && owner != null && Recorded()
      modifies `control, `notes, `window, `txGeneration, `childToken, `output, `calls, `visited, owner, poll, association
      ensures Within(old(control), control, time, go, EXTRACT)
      ensures Extended(old(calls), calls) && Recorded() && visited == old(visited) + {4}
      ensures go || control.phase == FAULT
      ensures |calls| == |old(calls)| + 1 && calls[|old(calls)|].PollStepCall?
    {
      hide Moved, TokenKept, Ledger, Aborted, Faulted, PollEvent, PollsTo;
      ghost var s0, c0 := control, calls;
      visited := visited + {EXTRACT};
      MovedReflexive(s0, time);
      Unmoved(s0);
      var a;
      go, a := StepPoll(kind, matched, e, time, s0);
      LedgerPollSteps(s0, c0, calls[|calls| - 1], waitUntil, request.responseWait);
      if go { go := ExtractRest(a, time, s0); }
      LedgerLater(s0, control, time, calls, waitUntil, request.responseWait);
    }

    /** After its step the POLL is collected from, and then released if it is finished or served its next action. */
    method ExtractRest(a: PollAction, time: word, ghost s0: Control) returns (go: bool)
      requires control.phase == EXTRACT && owner != null && Moved(s0, control, time) && TokenKept(s0, control)
      modifies `control, `notes, `window, `childToken, `output, owner, poll, association
      ensures Moved(s0, control, time) && control.phase != DONE && (go ==> control.phase < DONE) && (go || control.phase == FAULT)
      ensures TokenKept(s0, control) || control.phase == EXTRACT
      ensures control.issued == ACTION_RESTORE ==> old(control).issued == ACTION_RESTORE
      ensures go && old(poll.phase) == 5 ==> control.phase == RESTORE
      ensures go && old(poll.phase) != 5 && a.kind != 0 ==>
                control.issued == (if a.kind == 2 then 2 else if a.kind == 1 then 3 else 4) && childToken == a.token
      ensures go && old(poll.phase) != 5 ==> control.phase == EXTRACT
    {
      hide Moved, TokenKept, Opened, Delivered, Faulted, Closed, WindowDue;
      ghost var entered, received, delivered;
      go, entered, received, delivered := Collect(time, s0);
      if go {
        if poll.phase == POLL_DONE {
          go := ReleasePoll(time, s0);
        } else if a.kind != 0 {
          PassOn(a, time, s0);
        }
      }
    }

    /** A finished POLL is released into restoration. */
    method ReleasePoll(time: word, ghost s0: Control) returns (go: bool)
      requires control.phase == EXTRACT && owner != null && Moved(s0, control, time) && TokenKept(s0, control)
      modifies `control, `notes, `window, owner, poll, association
      ensures Moved(s0, control, time) && TokenKept(s0, control) && control.phase != DONE && (go ==> control.phase < DONE)
      ensures control.issued == ACTION_RESTORE ==> old(control).issued == ACTION_RESTORE
      ensures go || control.phase == FAULT
      ensures var y := Closed(old(Extracting()), request, time);
              window == y.window && association.Snapshot() == y.context && notes.response == y.notes.response
              && control == if y.control.phase == 7 then y.control
                            else if notes.pollOk then y.control.(issued := 0, phase := 5)
                            else Faulted(y.control, 7, time)
      ensures go ==> notes.pollOk
    {
      hide Moved, TokenKept, Faulted, Closed;
      FinishWindow(time, s0);
      if control.phase == FAULT { return false; }
      go := poll.Release(owner);
      notes := notes.(pollOk := go);
      if !go {
        FaultWith(POLL_ERROR, time, s0);
        return;
      }
      Spend(time, s0);
      Enter(RESTORE, time, s0);
    }

    /** The POLL's next action is passed on under a token of this attempt. */
    method PassOn(a: PollAction, time: word, ghost s0: Control)
      requires control.phase == EXTRACT && Moved(s0, control, time) && TokenKept(s0, control)
      modifies `control, `childToken, `output
      ensures Moved(s0, control, time) && control.phase == EXTRACT && control.issued != ACTION_RESTORE
      ensures control == Issued(old(control), if a.kind == 2 then 2 else if a.kind == 1 then 3 else 4) && childToken == a.token
      ensures output == old(output).(kind := control.issued, token := control.token, txCancel := a.txCancel)
    {
      hide Moved, TokenKept;
      childToken := a.token;
      Issue(if a.kind == POLL_ACTION_TX then ACTION_TX
            else if a.kind == POLL_ACTION_PREPARE then ACTION_RECEIVE else ACTION_CLOSE, time, s0);
      output := output.(txCancel := a.txCancel);
    }

    // ---------- restoration ----------

    /** Everything must be idle; the matching restoration after the ready time completes the attempt. */
    method RestoreBlock(kind: nat, matched: bool, stamp: word, time: word)
      requires control.phase == RESTORE && owner != null
      modifies `control, `output, `visited
      ensures visited == old(visited) + {5}
      ensures RestoresTo(old(control), control, kind, matched, stamp, time, owner.phase == 0 && poll.phase == 0, owner.readyAt)
      ensures output == if kind != 7 && owner.phase == 0 && poll.phase == 0 && old(control.issued) != 5
                        then old(output).(kind := 5, token := control.token, state := request.saved) else old(output)
      ensures Moved(old(control), control, time)
      ensures control.phase == DONE ==>
                kind == RESTORED && matched && old(control).issued == ACTION_RESTORE
                && owner.phase == TX_IDLE && poll.phase == POLL_IDLE && Reached(stamp, owner.readyAt)
      ensures control.phase != DONE ==> control.phase == RESTORE || control.phase == FAULT
      ensures control.phase != FAULT ==> control.stopping
    {
      ghost var s0 := control;
      visited := visited + {RESTORE};
      MovedReflexive(s0, time);
      Unmoved(s0);
      StopMovesOn(s0, time);
      MovedTransitive(s0, s0, Stopped(s0, time), time);
      RestoredMoves(Stopped(s0, time), time);
      MovedTransitive(s0, Stopped(s0, time), Completed(Stopped(s0, time)), time);
      hide Moved, TokenKept;
      if kind == FAILURE {
        FaultWith(ADAPTER_ERROR, time, s0);
        return;
      }
      if !control.stopping {
        control := control.(stopping := true, stopAt := Plus(time, STOP_TIME), stopSteps := STOP_WORK);
      }
      if owner.phase != TX_IDLE || poll.phase != POLL_IDLE {
        FaultWith(CLEANUP_FAILED, time, s0);
        return;
      }
      if matched && kind == RESTORED && control.issued == ACTION_RESTORE {
        if !Reached(stamp, owner.readyAt) {
          FaultWith(CLEANUP_FAILED, time, s0);
          return;
        }
        control := control.(issued := ACTION_NONE, restored := true, uncertain := false, phase := DONE);
      } else if control.issued != ACTION_RESTORE {
        Issue(ACTION_RESTORE, time, s0);
        output := output.(state := request.saved);
      }
    }

    // ---------- steps ----------

    /** The door of a step: the clock, the transmitter's generation, the event's identity, and the budget. */
    method Admit(e: MaybeEvent, now: word) returns (go: bool, kind: nat, matched: bool)
      requires control.phase < DONE && owner != null
      modifies `control, `output
      ensures var s := old(control); var seen := Classified(s, e, now);
              if !Reached(now, s.last) then !go && control == Faulted(s, CLOCK_ERROR, now)
              else if owner.generation != txGeneration then !go && control == Faulted(s, TX_ERROR, now)
              else control == Budgeted(s, seen.kind, now) && go == (control.phase < DONE)
                   && (matched ==> seen.kind != 0 && Matches(s, seen.token)) && (kind == seen.kind || kind == 0)
    {
      kind, matched := 0, false;
      if !Reached(now, control.last) {
        MovedReflexive(control, now);
        hide Faulted, Budgeted, Classified;
        FaultWith(CLOCK_ERROR, now, control);
        return false, kind, matched;
      }
      if owner.generation != txGeneration {
        MovedReflexive(control, now);
        hide Faulted, Budgeted, Classified;
        FaultWith(TX_ERROR, now, control);
        return false, kind, matched;
      }
      kind, matched := Recognise(e, now);
      ghost var seen := Classified(control, e, now);
      KindBudget(control, kind, seen.kind, now);
      KindBudget(control, seen.kind, kind, now);
      hide Faulted, Budgeted, Classified;
      go := Charge(kind, now);
    }

    /** What a step says of its event: 0 of one that counts, 2 of a completion of a spent right, 1 of any other. */
    static function Remark(c: Control, seen: Seen, matched: bool, token: nat): nat {
      if seen.kind != 0 && (matched || seen.kind == 3 || seen.kind >= 6) then 0
      else if seen.kind != 0 && 0 < token <= c.token then 2 else 1
    }

    /** The event against the attempt's identity and the right in force; an unmatched completion counts as nothing. */
    method Recognise(e: MaybeEvent, now: word) returns (kind: nat, matched: bool)
      modifies `output
      ensures var seen := Classified(control, e, now);
              && matched == (seen.kind != 0 && Matches(control, seen.token))
              && kind == (if seen.kind != FRAME && seen.kind < CANCEL && !matched then 0 else seen.kind)
              && output == if e.Some? then old(output).(observation := Remark(control, seen, matched, e.event.token)) else old(output)
    {
      var seen := Classified(control, e, now);
      kind := seen.kind;
      matched := kind != 0 && control.issued != ACTION_NONE && seen.token == control.issuedToken;
      if e.Some? {
        output := output.(observation := if kind == 0 then OBS_STALE else 0);
        if kind != 0 && kind != FRAME && kind < CANCEL && !matched {
          var duplicate := e.event.token != 0 && e.event.token <= control.token;
          output := output.(observation := if duplicate then OBS_DUPLICATE else OBS_STALE);
          kind := 0;
        }
      }
    }

    /** One unit of the budget in force. */
    method Charge(kind: nat, now: word) returns (go: bool)
      requires control.phase < DONE
      modifies `control
      ensures control == Budgeted(old(control), kind, now) && go == (control.phase < DONE)
    {
      control := control.(last := now);
      ghost var s := control;
      MovedReflexive(s, now);
      if control.stopping {
        go := ChargeCleanup(kind, now, s);
      } else {
        ChargeWork(kind, now, s);
        WorkCharges(s, kind, now);
        go := true;
      }
      hide CleanupBudget, WorkBudget;
    }

    method ChargeCleanup(kind: nat, now: word, ghost s: Control) returns (go: bool)
      requires control == s && s.phase < DONE && s.stopping && Moved(s, s, now)
      modifies `control
      ensures control == CleanupBudget(s, kind, now) && go == (control.phase < DONE)
    {
      if kind == CANCEL || kind == FAILURE {
        Abort(if kind == CANCEL then CANCELLED else ADAPTER_ERROR, now, s);
      }
      hide Moved, TokenKept;
      go := !(control.stopSteps == 0 || Reached(now, control.stopAt));
      if go {
        control := control.(stopSteps := control.stopSteps - 1);
      } else {
        FaultWith(CLEANUP_FAILED, now, s);
      }
    }

    method ChargeWork(kind: nat, now: word, ghost s: Control)
      requires control == s && s.phase < DONE && !s.stopping && Moved(s, s, now)
      modifies `control
      ensures control == WorkBudget(s, kind, now)
    {
      hide Moved, TokenKept;
      if kind == CANCEL || kind == FAILURE || Reached(now, control.deadline) || control.steps == 0 {
        Abort(if kind == CANCEL then CANCELLED else if kind == FAILURE then ADAPTER_ERROR
              else if control.steps == 0 then WORK_LIMIT else LIFETIME, now, s);
      } else {
        control := control.(steps := control.steps - 1);
      }
    }

    /** Preparation and the request, each block run when the phase has come to it. */
    method RequestBlocks(kind: nat, matched: bool, e: Event, now: word) returns (go: bool)
      requires PREPARE <= control.phase < DONE && owner != null && Recorded()
      modifies `control, `armed, `disarmed, `notes, `waitUntil, `txGeneration, `output, `calls, `visited, owner
      ensures Moved(old(control), control, now) && control.phase != DONE && (go ==> control.phase < DONE)
      ensures control.issued == ACTION_RESTORE ==> old(control).issued == ACTION_RESTORE
      ensures go && control.phase >= WAIT ==> TokenKept(old(control), control)
      ensures Extended(old(calls), calls) && Recorded()
      ensures Covers(old(control.phase), control.phase, old(visited), visited, REQUEST)
      ensures old(control.phase) > REQUEST ==> go && control == old(control) && calls == old(calls)
      ensures go || control.phase == REQUEST || control.phase == FAULT
    {
      ghost var s0, c0, v0 := control, calls, visited;
      MovedReflexive(s0, now);
      Unmoved(s0);
      ExtendedSame(calls);
      hide Moved, TokenKept, Within, Extended, Ledger, Covers, PreparesTo, WaitsTo, Aborted, Issued;
      go := true;
      if control.phase == PREPARE {
        go := PrepareBlock(kind, matched, now);
        WithinGives(s0, control, now, go, PREPARE);
      }
      if go && control.phase == REQUEST {
        ghost var s1, c1 := control, calls;
        go := RequestBlock(kind, matched, e, now);
        WithinGives(s1, control, now, go, REQUEST);
        MovedTransitive(s0, s1, control, now);
        ExtendedChain(c0, c1, calls);
      }
      CoversIs(s0.phase, control.phase, v0, visited, REQUEST);
    }

    /** Everything before extraction. */
    method EarlyBlocks(kind: nat, matched: bool, e: Event, now: word) returns (go: bool, k: nat, m: bool)
      requires PREPARE <= control.phase < DONE && owner != null && Recorded()
      modifies `control, `armed, `disarmed, `notes, `waitUntil, `txGeneration, `output, `calls, `visited, owner, poll
      ensures Moved(old(control), control, now) && control.phase != DONE && (go ==> control.phase < DONE)
      ensures control.issued == ACTION_RESTORE ==> old(control).issued == ACTION_RESTORE
      ensures go && control.phase > WAIT ==> TokenKept(old(control), control)
      ensures (k, m) == (kind, matched) || (k == 0 && !m)
      ensures Extended(old(calls), calls) && Recorded()
      ensures Covers(old(control.phase), control.phase, old(visited), visited, WAIT)
      ensures old(control.phase) > WAIT ==> go && control == old(control) && calls == old(calls) && (k, m) == (kind, matched)
      ensures go || control.phase == REQUEST || control.phase == FAULT
    {
      ghost var s0, c0, v0 := control, calls, visited;
      hide Moved, TokenKept, Within, Extended, Ledger, Covers, PreparesTo, WaitsTo, Aborted, Issued;
      k, m := kind, matched;
      go := RequestBlocks(k, m, e, now);
      CoversGives(s0.phase, control.phase, v0, visited, REQUEST);
      if go && control.phase == WAIT {
        ghost var s1, c1 := control, calls;
        k, m := WaitBlock(k, m, now);
        WithinGives(s1, control, now, true, WAIT);
        MovedTransitive(s0, s1, control, now);
        ExtendedChain(c0, c1, calls);
      }
      CoversIs(s0.phase, control.phase, v0, visited, WAIT);
    }

    /** The blocks of a step in order. */
    method Blocks(kind: nat, matched: bool, e: Event, now: word)
      requires PREPARE <= control.phase < DONE && owner != null && Recorded()
      modifies `control, `armed, `disarmed, `notes, `waitUntil, `txGeneration, `childToken, `window, `output, `calls, `visited,
               owner, poll, association
      ensures Moved(old(control), control, now)
      ensures control.phase == DONE ==>
                kind == RESTORED && matched && old(control).issued == ACTION_RESTORE
                && owner.phase == TX_IDLE && poll.phase == POLL_IDLE && Reached(e.stamp, owner.readyAt)
      ensures Extended(old(calls), calls) && Recorded()
      ensures Covers(old(control.phase), control.phase, old(visited), visited, RESTORE)
    {
      ghost var s0, c0 := control, calls;
      hide Moved, TokenKept, Extended, Ledger;
      var go, k, m := EarlyBlocks(kind, matched, e, now);
      if go && control.phase == EXTRACT {
        ghost var s1, c1 := control, calls;
        go := ExtractBlock(k, m, e, now);
        ExtendedChain(c0, c1, calls);
        WithinGives(s1, control, now, go, EXTRACT);
        MovedTransitive(s0, s1, control, now);
      }
      if go && control.phase == RESTORE {
        ghost var s1 := control;
        RestoreBlock(k, m, e.stamp, now);
        LedgerLater(s1, control, now, calls, waitUntil, request.responseWait);
        MovedTransitive(s0, s1, control, now);
      }
    }

    /** One processed step, or a rejection that changes nothing. */
    method Step(tx: Transmitter, now: word, e: MaybeEvent) returns (result: Result, action: Action)
      requires control.phase <= FAULT && (control.issued == ACTION_RESTORE ==> control.phase >= RESTORE)
      requires Recorded()
      modifies this, tx, poll, association
      ensures result == if e.Some? && !EventShape(e.event) then Invalid
                        else if old(version != VERSION || owner != tx || control.phase == IDLE) then State else Okay
      ensures result != Okay ==> control == old(control) && calls == old(calls)
      ensures result == Okay ==>
                Stepped(old(control), control, Classified(old(control), e, now),
                        tx.phase == TX_IDLE && poll.phase == POLL_IDLE, tx.readyAt)
      ensures version == old(version) && owner == old(owner) && request == old(request)
      ensures old(calls) <= calls && Recorded()
      ensures result == Okay && Working(old(control), now, old(tx.generation) == old(txGeneration)) ==>
                Covers(old(control.phase), control.phase, {}, visited, RESTORE)
      ensures action.kind != 0 ==> result == Okay
      ensures result == Okay ==> action.epoch == control.epoch && action.generation == control.generation
                                 && action.until == if control.stopping then control.stopAt else control.deadline
    {
      action := NO_ACTION;
      if e.Some? && !EventShape(e.event) { return Invalid, action; }
      if version != VERSION || owner != tx || control.phase == IDLE { return State, action; }
      hide Ledger, Stepped, Covers, Working, Classified;
      output := NO_ACTION;
      ExtendedSame(calls);
      if control.phase < DONE {
        Process(e, now);
      } else {
        EndedRests(control, Classified(control, e, now), tx.phase == TX_IDLE && poll.phase == POLL_IDLE, tx.readyAt, now,
                   tx.generation == txGeneration);
      }
      output := output.(epoch := control.epoch, generation := control.generation,
                        until := if control.stopping then control.stopAt else control.deadline);
      result, action := Okay, output;
    }

    method Process(e: MaybeEvent, now: word)
      requires PREPARE <= control.phase < DONE && owner != null && Recorded() && (control.issued == ACTION_RESTORE ==> control.phase >= RESTORE)
      modifies `control, `armed, `disarmed, `notes, `waitUntil, `txGeneration, `childToken, `window, `output, `calls, `visited,
               owner, poll, association
      ensures Stepped(old(control), control, Classified(old(control), e, now),
                      owner.phase == TX_IDLE && poll.phase == POLL_IDLE, owner.readyAt)
      ensures Extended(old(calls), calls) && Recorded()
      ensures Working(old(control), now, old(owner.generation) == old(txGeneration)) ==>
                Covers(old(control.phase), control.phase, {}, visited, RESTORE)
    {
      hide Moved, Budgeted, Extended, Stepped, Ledger;
      visited := {};
      ghost var s := control;
      ghost var seen := Classified(s, e, now);
      BudgetSpends(s, seen.kind, now);
      BudgetLedger(s, seen.kind, now, calls, waitUntil, request.responseWait);
      FaultLedger(s, CLOCK_ERROR, now, calls, waitUntil, request.responseWait);
      FaultLedger(s, TX_ERROR, now, calls, waitUntil, request.responseWait);
      if Working(s, now, owner.generation == txGeneration) { WorkingGoes(s, now, owner.generation == txGeneration, seen.kind); }
      var go, kind, matched := Admit(e, now);
      if go {
        Blocks(kind, matched, if e.Some? then e.event else BLANK_EVENT, now);
        StepFrom(s, control, seen, owner.phase == TX_IDLE && poll.phase == POLL_IDLE, owner.readyAt);
      } else {
        ExtendedSame(calls);
        hide Faulted;
        if control == Budgeted(s, seen.kind, now) && control.phase == FAULT && Reached(now, s.last) {
          StepExhausts(s, seen, owner.phase == TX_IDLE && poll.phase == POLL_IDLE, owner.readyAt);
        } else {
          StepFaults(s, CLOCK_ERROR, seen, owner.phase == TX_IDLE && poll.phase == POLL_IDLE, owner.readyAt);
          StepFaults(s, TX_ERROR, seen, owner.phase == TX_IDLE && poll.phase == POLL_IDLE, owner.readyAt);
        }
      }
    }

    // ---------- start, take, release ----------

    /** A new attempt leases an idle transmitter; nested contexts keep their generations. */
    method Start(tx: Transmitter, r: Request, now: word) returns (result: Result)
      modifies this
      ensures result == if !Limited(r) then Invalid
                        else if !Supportable(r) then Unsupported
                        else if r.coordinatorMode == 2 && !Unicast(r.coordinator) then Invalid
                        else if old(version != 1 || control.phase != 0 || tx.phase != 0 || poll.phase != 0 || association.phase != C.Idle)
                          then State
                        else if !Reached(now, old(control.last)) || !Reached(now, tx.last) then Invalid
                        else if old(control.generation) >= 0xffff_ffff || tx.generation >= 0xffff_fffe || poll.generation == 0xffff_ffff
                                || association.generation == 0xffff_ffff then Limit
                        else Okay
      ensures result != Okay ==> control == old(control) && owner == old(owner) && request == old(request) && outgoing == old(outgoing)
      ensures result == Okay ==>
                && old(control.phase) == IDLE && tx.phase == TX_IDLE && poll.phase == POLL_IDLE && association.phase == C.Idle
                && Reached(now, old(control.last)) && Reached(now, tx.last)
                && Begun(old(control), control, r, now) && Fresh(control, r.work) && Consistent(control, r.work)
                && owner == tx && request == r && txGeneration == tx.generation && !armed && window == 0
      ensures result == Okay ==>
                M.EncodeStatus(RequestHeader(r), [M.ASSOCIATION_REQUEST, r.capability], 25) == M.Ok
                && outgoing == M.HeaderOctets(RequestHeader(r)) + [M.ASSOCIATION_REQUEST, r.capability]
      ensures result == Okay ==> Recorded() && calls == []
      ensures old(control.phase) != IDLE ==> result != Okay
    {
      hide Limited, Supportable, Unicast, Begun, Fresh, Consistent, Reached, Ledger, RequestHeader, M.EncodeStatus, M.HeaderOctets;
      result := Vet(r);
      if result != Okay { return; }
      RequestEncodes(r);
      if version != VERSION || control.phase != IDLE || tx.phase != TX_IDLE || poll.phase != POLL_IDLE
         || association.phase != C.Idle {
        return State;
      }
      if !Reached(now, control.last) || !Reached(now, tx.last) { return Invalid; }
      if control.generation >= C.UINT32_MAX || tx.generation >= C.UINT32_MAX - 1 || poll.generation == C.UINT32_MAX
         || association.generation == C.UINT32_MAX {
        return Limit;
      }
      var ok, body := Assemble(r);
      if !ok { return Unsupported; }
      outgoing := body;
      Begin(tx, r, now);
      result := Okay;
    }

    /** Every control field is reset; the generation moves on. */
    method Begin(tx: Transmitter, r: Request, now: word)
      requires control.generation < C.UINT32_MAX && r.epoch != 0 && 0 < r.work <= MAX_WORK
      modifies `control, `request, `owner, `txGeneration, `notes, `waitUntil, `childToken, `window, `armed, `disarmed, `calls
      ensures Begun(old(control), control, r, now) && Fresh(control, r.work) && Consistent(control, r.work)
      ensures owner == tx && request == r && txGeneration == tx.generation && !armed && window == 0
      ensures Recorded() && calls == []
    {
      LedgerBegins(false, 0, r.responseWait);
      hide Ledger;
      calls := [];
      control := BlankControl(control.generation + 1, r.epoch, now).(phase := PREPARE, steps := r.work,
                                                                     deadline := Plus(now, r.lifetime));
      request, owner, txGeneration, notes := r, tx, tx.generation, BLANK_NOTES;
      waitUntil, childToken, window, armed, disarmed := 0, 0, 0, false, false;
    }

    /** The request's own fields. */
    method Vet(r: Request) returns (result: Result)
      ensures result == Okay || result == Invalid || result == Unsupported
      ensures result == Okay ==> r.epoch != 0 && 0 < r.work <= MAX_WORK && 0 < r.lifetime <= MAX_TIME && r.pan != 0xffff
                                 && 11 <= r.channel <= 26 && r.localMode == M.EXTENDED && r.capability & 0xf3 == 0x80
                                 && r.profile <= M.R22
      ensures result == if !Limited(r) then Invalid
                        else if !Supportable(r) then Unsupported
                        else if r.coordinatorMode == 2 && !Unicast(r.coordinator) then Invalid
                        else Okay
    {
      if r.epoch == 0 || r.lifetime == 0 || r.lifetime > MAX_TIME || r.work == 0 || r.work > MAX_WORK || r.pan == 0xffff
         || r.channel < 11 || r.channel > 26 || r.saved.channel < 11 || r.saved.channel > 26 || r.saved.filter > 1
         || r.saved.rxOn > 1 || r.responseWait < 2 || r.responseWait > 64 || r.frameWait == 0 {
        return Invalid;
      }
      if r.frameWait > 65534 || r.localMode != M.EXTENDED || (r.coordinatorMode != M.SHORT && r.coordinatorMode != M.EXTENDED)
         || r.capability & 0xf3 != 0x80 || r.profile > M.R22 {
        return Unsupported;
      }
      if r.coordinatorMode == M.SHORT {
        if r.coordinator[1] == 0xff && r.coordinator[0] >= 0xfe { return Invalid; }
        for i := 2 to 8
          invariant forall k :: 2 <= k < i ==> r.coordinator[k] == 0
        {
          if r.coordinator[i] != 0 { return Invalid; }
        }
      }
      result := Okay;
    }

    /** The wire form of the Association Request. */
    method Assemble(r: Request) returns (ok: bool, outgoingBody: seq<byte>)
      ensures var command := [M.ASSOCIATION_REQUEST, r.capability];
              if M.EncodeStatus(RequestHeader(r), command, 25) == M.Ok then
                ok && outgoingBody == M.HeaderOctets(RequestHeader(r)) + command
              else !ok
    {
      hide M.EncodeStatus, M.HeaderOctets, RequestHeader;
      var body := new byte[25];
      var length := new nat[1];
      var command := [M.ASSOCIATION_REQUEST, r.capability];
      var code := M.Encode(RequestHeader(r), command, body, 25, length);
      if code != M.Ok { return false, []; }
      ghost var encoded := M.HeaderOctets(RequestHeader(r)) + command;
      assert body[..length[0]] == encoded;
      ok, outgoingBody := true, body[..length[0]];
    }

    method Take() returns (result: Result, causes: Causes, kept: Notes)
      modifies `control
      ensures result == if version != VERSION || old(control.phase) < DONE || old(control.taken) then State else Okay
      ensures causes == control.causes == old(control.causes) && kept == notes
      ensures control == if result == Okay then old(control).(taken := true) else old(control)
      ensures old(Recorded()) ==> Recorded()
    {
      causes, kept := control.causes, notes;
      if version != VERSION || control.phase < DONE || control.taken { return State, causes, kept; }
      control := control.(taken := true);
      result := Okay;
    }

    /** Only a completed, restored and taken attempt gives its transmitter back. */
    method Release(tx: Transmitter) returns (result: Result)
      modifies `control, `owner
      ensures result == if version == VERSION && old(owner) == tx && old(control.phase) == DONE && old(control.taken)
                           && old(control.restored) && old(control.issued) == ACTION_NONE && !old(control.uncertain)
                           && tx.phase == TX_IDLE && tx.generation == txGeneration then Okay else State
      ensures if result == Okay then owner == null && control == old(control).(phase := IDLE)
              else owner == old(owner) && control == old(control)
      ensures old(Recorded()) ==> Recorded()
    {
      if version != VERSION || owner != tx || control.phase != DONE || !control.taken || !control.restored
         || control.issued != ACTION_NONE || control.uncertain || tx.phase != TX_IDLE || tx.generation != txGeneration {
        return State;
      }
      owner := null;
      EndedLedger(control, calls, waitUntil, request.responseWait);
      control := control.(phase := IDLE);
      result := Okay;
    }
  }

  /** Only cancellation and failure weigh in the budget; every other kind is charged alike. */
  lemma KindBudget(s: Control, kind: nat, other: nat, now: word)
    requires kind == other || (kind == 0 && other < CANCEL) || (other == 0 && kind < CANCEL)
    ensures Budgeted(s, kind, now) == Budgeted(s, other, now)
  {
  }

  lemma Unmoved(s: Control)
    ensures TokenKept(s, s)
  {
  }

  function Completed(s: Control): Control {
    s.(issued := ACTION_NONE, restored := true, uncertain := false, phase := DONE)
  }

  lemma RestoredMoves(s: Control, time: word)
    requires s.phase == RESTORE && s.stopping
    ensures Moved(s, Completed(s), time) && TokenKept(s, Completed(s))
  {
  }

  // ---------- whole attempts, by their calls ----------

  /** The release of an acknowledged request by an attempt that was not stopping. */
  predicate Granted(c: ChildCall) {
    c.ReleaseCall? && c.ok && !c.stopping && c.outcome == 1
  }

  lemma {:induction false} AcknowledgedBy(calls: seq<ChildCall>) returns (j: nat)
    requires VerdictOf(calls) == Acknowledged
    ensures j < |calls| && Granted(calls[j]) && forall k :: j < k < |calls| ==> !calls[k].ReleaseCall?
    decreases |calls|
  {
    if calls == [] {
      assert false;
    }
    var n := |calls| - 1;
    j := n;
    if !calls[n].ReleaseCall? {
      j := AcknowledgedBy(calls[..n]);
    }
  }

  /** A POLL is started only for a request that was acknowledged and then released by an attempt that was not stopping. */
  lemma PollAfterAck(calls: seq<ChildCall>, wait: nat, i: nat) returns (j: nat)
    requires Lawful(calls, wait) && i < |calls| && calls[i].PollStartCall?
    ensures j < i && Granted(calls[j]) && !calls[i].stopping && forall k :: j < k < i ==> !calls[k].ReleaseCall?
  {
    assert Justified(calls[..i], calls[i], wait);
    hide VerdictOf, Until;
    j := AcknowledgedBy(calls[..i]);
  }

  lemma {:induction false} UntilBy(calls: seq<ChildCall>, wait: nat, k: nat)
    requires k < |calls| && calls[k].TxStepCall? && calls[k].acked
    requires forall n :: k < n < |calls| && calls[n].TxStepCall? ==> !calls[n].acked
    ensures Until(calls, wait) == Plus(CeilSymbols(calls[k].upper), (wait * 960) % 0x1_0000)
    decreases |calls|
  {
    if k < |calls| - 1 {
      UntilBy(calls[..|calls| - 1], wait, k);
    }
  }

  /** And only once the response wait is over: so many superframes after the symbol in which its acknowledgement ended. */
  lemma PollAfterWait(calls: seq<ChildCall>, wait: nat, i: nat, k: nat)
    requires Lawful(calls, wait) && wait <= 64 && k < i < |calls| && calls[i].PollStartCall?
    requires calls[k].TxStepCall? && calls[k].acked && forall n :: k < n < i && calls[n].TxStepCall? ==> !calls[n].acked
    ensures var upper := calls[k].upper;
            var end := upper.symbols + (if upper.fine == 0 then 0 else 1) + 960 * wait;
            (calls[i].at as int - end) % 0x1_0000_0000 < 0x8000_0000
  {
    assert Justified(calls[..i], calls[i], wait);
    UntilBy(calls[..i], wait, k);
    WaitEnds(calls[i].at, calls[k].upper, wait);
  }

  lemma WaitEnds(at: word, upper: E.Stamp, wait: nat)
    requires wait <= 64
    ensures Minus(at, Plus(CeilSymbols(upper), (wait * 960) % 0x1_0000))
            == (at as int - (upper.symbols + (if upper.fine == 0 then 0 else 1) + 960 * wait)) % 0x1_0000_0000
  {
  }

  lemma {:induction false} VerdictBy(calls: seq<ChildCall>, j: nat)
    requires j < |calls| && calls[j].ReleaseCall? && forall k :: j < k < |calls| ==> !calls[k].ReleaseCall?
    ensures var c := calls[j];
            VerdictOf(calls) == if !c.ok then Stuck else if Granted(c) then Acknowledged else Unacknowledged(c.stopping)
    decreases |calls|
  {
    if j < |calls| - 1 {
      VerdictBy(calls[..|calls| - 1], j);
    }
  }

  /**
   What the request's release decides, at every later point of the attempt. An acknowledged one leads to the wait: the
   attempt is waiting, or its POLL was started, or something went wrong since. Any other leads to restoration, no POLL is ever
   started, and an attempt that was not already stopping has the request as its result and its stage.
   */
  lemma RequestDecides(phase: nat, stopping: bool, causes: Causes, calls: seq<ChildCall>, until: word, wait: nat, j: nat)
    requires Ledger(phase, stopping, causes, calls, until, wait)
    requires j < |calls| && calls[j].ReleaseCall? && forall k :: j < k < |calls| ==> !calls[k].ReleaseCall?
    ensures var polled := exists i :: 0 <= i < |calls| && calls[i].PollStartCall?;
            if !calls[j].ok then !polled && phase == FAULT
            else if calls[j].outcome == 1 && !calls[j].stopping then phase == WAIT || polled || causes.reason != 0
            else !polled && (phase == IDLE || phase >= RESTORE) && causes.result != 0
                 && (!calls[j].stopping ==> causes.result == 2 && causes.stage == 2)
    ensures (phase == WAIT || phase == EXTRACT) ==> Granted(calls[j])
  {
    VerdictBy(calls, j);
    hide Lawful, VerdictOf, Until;
  }

  /** The response is waited for, or extracted, only by an attempt that has released an acknowledged request. */
  lemma WaitsForAck(phase: nat, stopping: bool, causes: Causes, calls: seq<ChildCall>, until: word, wait: nat) returns (j: nat)
    requires Ledger(phase, stopping, causes, calls, until, wait) && (phase == WAIT || phase == EXTRACT)
    ensures j < |calls| && Granted(calls[j])
  {
    hide Lawful, VerdictOf, Until;
    j := AcknowledgedBy(calls);
  }

  // ---------- what comes in and what goes out ----------

  /** `t` is at or after `u`, less than half the counter's range. */
  predicate NotBefore(t: word, u: word) {
    (t as int - u as int) % 0x1_0000_0000 < 0x8000_0000
  }

  /** An event counts if it names this attempt and, unless it is a frame, lies between the last step and now. */
  lemma CountsExactly(s: Control, v: Event, now: word)
    ensures var seen := Classified(s, Some(v), now);
            && seen.now == now && seen.token == v.token && seen.stamp == v.stamp
            && seen.kind == if v.epoch == s.epoch && v.generation == s.generation
                               && (v.kind == 3 || (NotBefore(v.stamp, s.last) && NotBefore(now, v.stamp))) then v.kind else 0
  {
  }

  /** The symbol boundary at or after a stamp has been reached. */
  predicate PastStamp(t: word, upper: E.Stamp) {
    (t as int - (upper.symbols + if upper.fine == 0 then 0 else 1)) % 0x1_0000_0000 < 0x8000_0000
  }

  /**
   A transmitter's source is taken if its kind is none, drawn, timed, cancelled, or an interval of kinds 8 to 12; an
   acknowledgement's length comes with its octets; an interval ends no later than it is reported, and a bounded one begins no
   later than it ends.
   */
  lemma SourcesExactly(s: Source, sourceEvent: bool)
    ensures SourceShape(s, sourceEvent) <==>
              && s.kind <= 12 && s.kind != 3 && s.kind != 4 && (sourceEvent ==> s.kind != 0)
              && (s.kind == 9 && s.length > 0 ==> s.bytes)
              && (s.kind >= 8 ==> s.upper.fine < 512 && PastStamp(s.stamp, s.upper))
              && (s.kind == 8 || s.kind == 9 || s.kind == 11 ==>
                    && s.lower.fine < 512 && NotBefore(s.upper.symbols, s.lower.symbols)
                    && (s.upper.symbols == s.lower.symbols ==> s.lower.fine <= s.upper.fine))
  {
    CeilPast(s.stamp, s.upper);
    hide CeilSymbols, PastStamp;
  }

  lemma CeilPast(t: word, upper: E.Stamp)
    ensures Reached(t, CeilSymbols(upper)) <==> PastStamp(t, upper)
  {
  }

  lemma EventsExactly(e: Event)
    ensures EventShape(e) <==>
              && 1 <= e.kind <= 10 && e.crcValid <= 1 && (e.kind == 3 ==> e.serial > 0 && 11 <= e.channel <= 26)
              && (e.kind == 2 || e.kind == 8 ==> SourceShape(e.source, e.kind == 8))
  {
    hide SourceShape;
  }

  /** The Association Request on the air: its control octets, the coordinator's PAN and address, FFFF, the device's own address. */
  lemma RequestWire(r: Request)
    requires r.coordinatorMode == 2 || r.coordinatorMode == 3
    ensures M.HeaderOctets(RequestHeader(r)) == [0x23, if r.coordinatorMode == 2 then 0xc8 else 0xcc, 0] + M.Le16(r.pan)
                                                + r.coordinator[..if r.coordinatorMode == 2 then 2 else 8] + [0xff, 0xff] + r.local
  {
    RequestControl(r);
    assert r.local[..8] == r.local;
    assert M.Le16(0xffff) == [0xff, 0xff];
  }

  /** The encoder takes the Association Request of every vetted request: 17 or 23 octets and the command's two. */
  lemma RequestEncodes(r: Request)
    requires Limited(r) && Supportable(r) && (r.coordinatorMode == 2 ==> Unicast(r.coordinator))
    ensures M.EncodeStatus(RequestHeader(r), [1, r.capability], 25) == M.Ok
    ensures M.HeaderSize(RequestHeader(r)) == if r.coordinatorMode == 2 then 17 else 23
  {
  }

  lemma RequestControl(r: Request)
    requires r.coordinatorMode == 2 || r.coordinatorMode == 3
    ensures M.ControlOctets(RequestHeader(r)) == [0x23, if r.coordinatorMode == 2 then 0xc8 else 0xcc, 0]
  {
  }
}
