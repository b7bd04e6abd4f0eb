/** The adapter's promises, over every run from reset and at each kind of event. */
module AdapterTheorems {
  import opened Bytes
  import opened Words
  import A = MacAttempt
  import opened AdapterSpec
  import opened AdapterSafety

  datatype Reached = Reached(machine: Ideal, history: History)

  function Run(m: Ideal, h: History, calls: seq<Call>): Reached
    decreases |calls|
  {
    if calls == [] then Reached(m, h) else Run(Apply(m, calls[0]).next, Observe(h, m, calls[0]), calls[1..])
  }

  predicate MonotoneRun(m: Ideal, h: History, calls: seq<Call>)
    decreases |calls|
  {
    calls == []
    || (Monotone(h, m, calls[0]) && MonotoneRun(Apply(m, calls[0]).next, Observe(h, m, calls[0]), calls[1..]))
  }

  lemma {:induction false} RunKeeps(m: Ideal, h: History, calls: seq<Call>)
    requires Invariant(m, h) && MonotoneRun(m, h, calls)
    ensures var r := Run(m, h, calls); Invariant(r.machine, r.history)
    decreases |calls|
  {
    hide Invariant, Monotone, Apply, Observe;
    if calls != [] {
      CallKeeps(m, h, calls[0]);
      RunKeeps(Apply(m, calls[0]).next, Observe(h, m, calls[0]), calls[1..]);
    }
  }

  lemma {:induction false} HonestLog(log: seq<Delivered>, i: nat)
    requires LogHonest(log) && i < |log|
    ensures EntryHonest(log[..i], log[i])
    ensures |Frames(log[..i])| + (if log[i].observation.kind == RxEvent then 1 else 0) <= |Frames(log)|
    ensures log[i].observation.kind == RxEvent ==> |Frames(log[..i])| < |Frames(log)| && Frames(log)[|Frames(log[..i])|] == log[i].frame
    decreases |log|
  {
    var before := log[..|log| - 1];
    if i < |log| - 1 {
      HonestLog(before, i);
      assert before[..i] == log[..i];
    }
  }

  /** Every event of every run from reset: consecutive tokens, and a report no earlier than its bound, in true time. */
  lemma EventsReportedAfterTheirBound(calls: seq<Call>, i: nat)
    requires MonotoneRun(Blank(), EMPTY_HISTORY, calls)
    requires i < |Run(Blank(), EMPTY_HISTORY, calls).history.log|
    ensures var d := Run(Blank(), EMPTY_HISTORY, calls).history.log[i];
            d.observation.token == i + 1 && d.observation.upper <= d.observation.stamp * UNIT
  {
    BlankInvariant();
    RunKeeps(Blank(), EMPTY_HISTORY, calls);
    HonestLog(Run(Blank(), EMPTY_HISTORY, calls).history.log, i);
    hide Run, Good, LogHonest, Frames, Blank;
  }

  lemma BlankInvariant()
    ensures Invariant(Blank(), EMPTY_HISTORY)
  {
  }

  /** Frames are delivered in the order the radio handed them over, numbered consecutively, none skipped, none repeated. */
  lemma FramesDeliveredInOrder(calls: seq<Call>, i: nat)
    requires MonotoneRun(Blank(), EMPTY_HISTORY, calls)
    requires i < |Run(Blank(), EMPTY_HISTORY, calls).history.log|
    ensures var h := Run(Blank(), EMPTY_HISTORY, calls).history; var d := h.log[i];
            d.observation.kind == RxEvent ==>
              && d.observation.serial == |Frames(h.log[..i])| + 1
              && d.observation.serial <= |h.arrived| && d.frame == h.arrived[d.observation.serial - 1]
  {
    BlankInvariant();
    RunKeeps(Blank(), EMPTY_HISTORY, calls);
    HonestLog(Run(Blank(), EMPTY_HISTORY, calls).history.log, i);
    hide Run, Good, LogHonest, Frames, Blank;
  }

  /** While in service nothing is lost: every frame handed over has been delivered, or is the one still held for offering. */
  lemma NothingLost(calls: seq<Call>)
    requires MonotoneRun(Blank(), EMPTY_HISTORY, calls)
    ensures var Reached(m, h) := Run(Blank(), EMPTY_HISTORY, calls);
            m.status.fault == OK && m.status.phase != Cold ==>
              h.arrived == Frames(h.log) + if Unoffered(m) then [m.receipt.frame] else []
  {
    BlankInvariant();
    RunKeeps(Blank(), EMPTY_HISTORY, calls);
    var r := Run(Blank(), EMPTY_HISTORY, calls);
    if r.machine.status.fault == OK && r.machine.status.phase != Cold {
      AllAccounted(r.machine, r.history);
    }
    hide Run, Good, LogHonest, Frames, Blank, Unoffered;
  }

  lemma AllAccounted(m: Ideal, h: History)
    requires Good(m, h)
    ensures h.arrived == Frames(h.log) + if Unoffered(m) then [m.receipt.frame] else []
  {
    hide LogHonest, Frames, Staged, Timed, Stopped;
    var n := |Frames(h.log)|;
    assert h.arrived == h.arrived[..n] + h.arrived[n..];
  }

  /** A published event stays as it is, frame included, until exactly its token is consumed. */
  lemma EventStable(m: Ideal, h: History, c: Call)
    requires Good(m, h) && m.status.ready
    ensures var r := Apply(m, c);
            if r.next.status.ready then r.next.observation == m.observation && r.next.receipt.frame == m.receipt.frame
                                     && Observe(h, m, c).log == h.log
            else c == ConsumeCall(m.observation.token) && r.result == OK
  {
    assert m.observation.token == m.observation.token;
    match c
    case StepCall(arguments, x) => StepStable(m, arguments, x);
    case AcceptCall(tx, action) => AcceptIs(m, tx, action); AcceptStable(m, tx, action);
    case NowCall(arguments, timer, live) => SampleStable(m, timer, live);
    case _ =>
      hide Good, SaysReady, SaysStopped, ConfigValid, Blank;
      assert m.status.ready && m.status.phase != Cold && m.status.fault == OK;
  }

  lemma StepStable(m: Ideal, arguments: bool, x: StepIn)
    requires m.status.ready && m.status.phase != Cold && m.status.fault == OK
    ensures Step(m, arguments, x).next == m
  {
    hide Act, SaysReady, Fail;
  }

  lemma AcceptStable(m: Ideal, tx: Tx, action: Action)
    requires m.status.ready
    ensures Accept(m, tx, action).next == m
  {
    hide MayAttempt, MayCollect, MayQuiesce, AsRequested;
  }

  lemma SampleStable(m: Ideal, timer: A.RadioResult, live: nat)
    ensures var n := Sample(m, timer, live).next;
            n.status.ready == m.status.ready && n.observation == m.observation && n.receipt == m.receipt
  {
    if SaysReady(timer) {
      hide Fail;
    } else {
      FailStable(m);
      hide Fail;
    }
  }

  lemma FailStable(m: Ideal)
    ensures var n := Fail(m, RADIO_ERROR);
            n.status.ready == m.status.ready && n.observation == m.observation && n.receipt == m.receipt
  {
  }

  // ---------- closures ----------

  /** Events other than frames and transmissions come from a settled report: the radio off, or the receiver retained. */
  lemma GoalEventFrom(m: Ideal, arguments: bool, x: StepIn)
    requires m.status.fault == OK && !m.status.ready && Step(m, arguments, x).result == EVENT
    requires EndsGoal(Step(m, arguments, x).next.observation)
    ensures Samples(m, arguments, x)
    ensures var b := Sampled(m, x.live);
            Reportable(b) && !b.status.held && Step(m, arguments, x) == Turned(ReportGoal(b).next, EVENT, NoOp)
  {
    EventSampled(m, arguments, x);
    StepIsAct(m, arguments, x);
    ActGoalEvent(Sampled(m, x.live), x);
    hide Step, Act, ReportGoal, Reportable, Samples;
  }

  lemma EventSampled(m: Ideal, arguments: bool, x: StepIn)
    requires m.status.fault == OK && !m.status.ready && Step(m, arguments, x).result == EVENT
    ensures Samples(m, arguments, x)
  {
    hide Act, SaysReady;
  }

  lemma ActGoalEvent(b: Ideal, x: StepIn)
    requires Act(b, x).result == EVENT && EndsGoal(Act(b, x).next.observation)
    ensures Reportable(b) && !b.status.held && Act(b, x) == Turned(ReportGoal(b).next, EVENT, NoOp)
  {
    if b.status.phase == Scheduled {
      LaunchFields(b, x.run, x.receipt);
      hide Launch, RunEnds, Faulted;
    } else if b.status.phase == Report {
      SentObservation(b);
      hide ReportSent;
    } else if b.status.phase == WaitMac || b.status.phase == Prepared {
    } else if b.status.held {
      OfferObservation(Bound(b));
      hide OfferBound, Bound;
    } else {
      TurnEvent(b, x.reply, x.frame);
      hide Turn, ReportGoal, Reportable;
    }
  }

  lemma SentObservation(m: Ideal)
    requires ReportSent(m).result == EVENT
    ensures ReportSent(m).next.observation.source == SentInterval && ReportSent(m).next.observation.kind == TxEvent
  {
    hide Fail, Ceil, Sym;
  }

  lemma OfferObservation(m: Ideal)
    requires OfferBound(m).result == EVENT
    ensures OfferBound(m).next.observation.kind == RxEvent
  {
    hide Fail, Ceil, Sym, IsAck;
  }

  lemma TurnEvent(m: Ideal, reply: A.RadioResult, frame: A.Frame)
    requires Turn(m, reply, frame).result == EVENT
    ensures Reportable(m) && Turn(m, reply, frame) == Turned(ReportGoal(m).next, EVENT, NoOp)
  {
    NoEvents(m, reply, frame);
    NoEvents(AsClosing(m, m.status.goal), reply, frame);
    NoEvents(AsClosing(m, AckGoal), reply, frame);
    hide ReportGoal, StopRadio, Receive, AsClosing, Keep, Fail, SaysReady, KeepsAutoack, KeepsRaw;
  }

  lemma NoEvents(m: Ideal, reply: A.RadioResult, frame: A.Frame)
    ensures StopRadio(m, reply).result != EVENT && Receive(m, reply, frame).result != EVENT
  {
    hide Fail, SaysStopped, SaysDrain, SaysFrame, SaysLost, SaysEmpty, LossIsFault;
  }

  /** What a published goal event reports, and of which instant. */
  lemma GoalEventIs(b: Ideal)
    requires ReportGoal(b).result == EVENT
    ensures var n := ReportGoal(b).next; var s := Settle(b);
            && n.observation.source == GoalSource(b.status.goal)
            && n.observation.kind == (if GoalSource(b.status.goal) == NoSource then ClosedEvent else TxEvent)
            && n.observation.lower == GoalLower(s, n.observation.source) && n.observation.upper == GoalUpper(s, n.observation.source)
            && n.observation.through == b.status.watermark
            && s.status == b.status && s.receipt == b.receipt && s.began == b.began && s.settled
            && Ceil(s.retired) <= n.observation.stamp == Sym(b.status.live)
  {
    SettleFields(b);
    assert Settle(b).receipt == b.receipt && Settle(b).began == b.began;
    hide Settle, Ceil, Sym, Fail, GoalSource, GoalLower, GoalUpper;
  }

  /** Every frame the radio has handed over is delivered, and none is held. */
  predicate AllDelivered(m: Ideal, h: History) {
    !m.status.held && Frames(h.log) == h.arrived
  }

  /**
   The closed acknowledgement window. The radio is confirmed stopped with nothing asked of it since, every
   frame has been delivered, the watermark reaches through the whole window after the transmission's upper
   bound, and no stop was requested in this episode before the watermark was sampled.
   */
  lemma AckWindowClosedHonestly(m: Ideal, h: History, arguments: bool, x: StepIn)
    requires Good(m, h) && Monotone(h, m, StepCall(arguments, x))
    requires !m.status.ready && Step(m, arguments, x).result == EVENT
    requires Step(m, arguments, x).next.observation.source == RxClosed && EndsGoal(Step(m, arguments, x).next.observation)
    ensures var o := Step(m, arguments, x).next.observation;
            && o.upper == o.through && o.upper >= m.receipt.txUpper + 54 * 512 && o.upper <= o.stamp * UNIT
            && StopsAfter(h.asked, h.since, o.upper) && ConfirmedStopped(h.asked) && AllDelivered(m, h)
  {
    GoalEventFrom(m, arguments, x);
    var b := Sampled(m, x.live);
    LiveMoves(m, h, x.live);
    GoalEventIs(b);
    SettleKeeps(b, h.(clock := x.live));
    OffGoal(b, h.(clock := x.live));
    GoalBound(Settle(b), h.(clock := x.live));
    hide Step, ReportGoal, Settle, StopsAfter, NoStop, ConfirmedStopped, Frames, LogHonest, Reportable, SaysReady, Good;
  }

  /** With the radio off and a goal of closure pending: stopped, drained, delivered. */
  lemma OffGoal(m: Ideal, h: History)
    requires Good(m, h) && Reportable(m) && (m.status.goal == AckGoal || m.status.goal == UserGoal)
    ensures !m.status.ready ==> AllDelivered(m, h)
    ensures ConfirmedStopped(h.asked) && StopsAfter(h.asked, h.since, m.status.watermark)
    ensures m.status.goal == AckGoal ==> m.status.watermark >= m.receipt.txUpper + 54 * 512
    ensures m.status.goal == UserGoal && h.userEnd.Until? ==> m.status.watermark >= h.userEnd.end
  {
    hide LogHonest, Frames, StopsAfter, NoStop, ConfirmedStopped;
    assert h.arrived[..|h.arrived|] == h.arrived;
  }

  /** A caller's own close: never a watermark before the requested end, and the same confirmation and drain. */
  lemma UserCloseHonest(m: Ideal, h: History, arguments: bool, x: StepIn)
    requires Good(m, h) && Monotone(h, m, StepCall(arguments, x))
    requires !m.status.ready && Step(m, arguments, x).result == EVENT && Step(m, arguments, x).next.observation.kind == ClosedEvent
    ensures var o := Step(m, arguments, x).next.observation;
            && (h.userEnd.Until? ==> o.through >= h.userEnd.end) && o.upper <= o.stamp * UNIT
            && StopsAfter(h.asked, h.since, o.through) && ConfirmedStopped(h.asked) && AllDelivered(m, h)
  {
    GoalEventFrom(m, arguments, x);
    var b := Sampled(m, x.live);
    LiveMoves(m, h, x.live);
    GoalEventIs(b);
    assert b.status.goal == UserGoal;
    OffGoal(b, h.(clock := x.live));
    hide Step, ReportGoal, Settle, StopsAfter, NoStop, ConfirmedStopped, Frames, LogHonest, Reportable, SaysReady, Good;
  }

  /** A busy channel: sensed no earlier than eight symbols after the requested instant, and reported after it was sensed. */
  lemma BusyHonest(m: Ideal, h: History, arguments: bool, x: StepIn)
    requires Good(m, h) && Monotone(h, m, StepCall(arguments, x))
    requires !m.status.ready && Step(m, arguments, x).result == EVENT
    requires Step(m, arguments, x).next.observation.source == BusyInterval && EndsGoal(Step(m, arguments, x).next.observation)
    ensures var o := Step(m, arguments, x).next.observation;
            o.lower >= (m.requested.at + 8) * UNIT && o.upper == m.receipt.armed && o.upper <= o.stamp * UNIT
            && ConfirmedStopped(h.asked)
  {
    GoalEventFrom(m, arguments, x);
    var b := Sampled(m, x.live);
    LiveMoves(m, h, x.live);
    GoalEventIs(b);
    assert b.status.goal == BusyGoal;
    SettleKeeps(b, h.(clock := x.live));
    GoalBound(Settle(b), h.(clock := x.live));
    BusyFacts(b, h.(clock := x.live));
    hide Step, ReportGoal, Settle, ConfirmedStopped, Frames, LogHonest, Reportable, SaysReady, Good;
  }

  lemma BusyFacts(m: Ideal, h: History)
    requires Good(m, h) && Reportable(m) && m.status.goal == BusyGoal
    ensures m.requested.at <= Sym(m.began) && ConfirmedStopped(h.asked) && m.began >= Sym(m.began) * UNIT
  {
    hide LogHonest, Frames, StopsAfter, NoStop, ConfirmedStopped;
  }

  /** What a published closure, requested close or busy channel says of the machine and history it was published in. */
  predicate ClosureHonest(m: Ideal, h: History, o: Observation) {
    && (o.kind == TxEvent && o.source == RxClosed ==>
          && o.upper == o.through && o.upper >= m.receipt.txUpper + 54 * 512 && o.upper <= o.stamp * UNIT
          && StopsAfter(h.asked, h.since, o.upper) && ConfirmedStopped(h.asked) && AllDelivered(m, h))
    && (o.kind == ClosedEvent ==>
          && (h.userEnd.Until? ==> o.through >= h.userEnd.end) && o.upper <= o.stamp * UNIT
          && StopsAfter(h.asked, h.since, o.through) && ConfirmedStopped(h.asked) && AllDelivered(m, h))
    && (o.kind == TxEvent && o.source == BusyInterval ==>
          && o.lower >= (m.requested.at + 8) * UNIT && o.upper == m.receipt.armed && o.upper <= o.stamp * UNIT
          && ConfirmedStopped(h.asked))
  }

  lemma {:induction false} RunSplits(m: Ideal, h: History, calls: seq<Call>, i: nat)
    requires MonotoneRun(m, h, calls) && i < |calls|
    ensures MonotoneRun(m, h, calls[..i])
    ensures var Reached(n, k) := Run(m, h, calls[..i]); Monotone(k, n, calls[i])
    decreases i
  {
    hide Monotone, Apply, Observe;
    if i > 0 {
      RunSplits(Apply(m, calls[0]).next, Observe(h, m, calls[0]), calls[1..], i - 1);
      assert calls[..i][1..] == calls[1..][..i - 1];
    }
  }

  /** In every run from reset, every step that publishes one of them does so honestly. */
  lemma ClosuresInRuns(calls: seq<Call>, i: nat)
    requires MonotoneRun(Blank(), EMPTY_HISTORY, calls) && i < |calls| && calls[i].StepCall?
    ensures var Reached(m, h) := Run(Blank(), EMPTY_HISTORY, calls[..i]); var r := Step(m, calls[i].arguments, calls[i].x);
            m.status.fault == OK && !m.status.ready && r.result == EVENT ==> ClosureHonest(m, h, r.next.observation)
  {
    RunSplits(Blank(), EMPTY_HISTORY, calls, i);
    BlankInvariant();
    RunKeeps(Blank(), EMPTY_HISTORY, calls[..i]);
    var r := Run(Blank(), EMPTY_HISTORY, calls[..i]);
    hide Run, MonotoneRun, Blank, Monotone;
    StepClosesHonestly(r.machine, r.history, calls[i].arguments, calls[i].x);
  }

  lemma StepClosesHonestly(m: Ideal, h: History, arguments: bool, x: StepIn)
    requires Invariant(m, h) && Monotone(h, m, StepCall(arguments, x))
    ensures var r := Step(m, arguments, x);
            m.status.fault == OK && !m.status.ready && r.result == EVENT ==> ClosureHonest(m, h, r.next.observation)
  {
    var r := Step(m, arguments, x);
    if m.status.fault == OK && !m.status.ready && r.result == EVENT {
      StepPublishesInService(m, arguments, x);
      var o := r.next.observation;
      hide Step, Good, Monotone, StopsAfter, ConfirmedStopped, AllDelivered;
      if o.kind == TxEvent && o.source == RxClosed { AckWindowClosedHonestly(m, h, arguments, x); }
      if o.kind == ClosedEvent { UserCloseHonest(m, h, arguments, x); }
      if o.kind == TxEvent && o.source == BusyInterval { BusyHonest(m, h, arguments, x); }
    }
  }

  lemma StepPublishesInService(m: Ideal, arguments: bool, x: StepIn)
    requires m.status.fault == OK && Step(m, arguments, x).result == EVENT
    ensures m.status.phase != Cold
  {
    hide Act;
  }

  // ---------- launching ----------

  lemma LaunchIsScheduled(m: Ideal, arguments: bool, x: StepIn)
    requires Step(m, arguments, x).operation == RunOp
    ensures m.requested.at <= Sym(x.live) < m.requested.until && m.status.phase == Scheduled
  {
    if Samples(m, arguments, x) {
      StepIsAct(m, arguments, x);
      TurnNeverRuns(Sampled(m, x.live), x.reply, x.frame);
      hide Step, Turn, ReportSent, Offer, RunEnds, SaysBusy, SaysReady;
    } else {
      StepIdles(m, arguments, x);
    }
  }

  /** The call asks the radio for an attempt. */
  predicate Launches(m: Ideal, c: Call) {
    c.StepCall? && Step(m, c.arguments, c.x).operation == RunOp
  }

  /** The call is an accepted request for an attempt. */
  predicate Grants(m: Ideal, c: Call) {
    c.AcceptCall? && c.action.kind == ActAttempt && Accept(m, c.tx, c.action).result == OK
  }

  function After(calls: seq<Call>): Ideal {
    Run(Blank(), EMPTY_HISTORY, calls).machine
  }

  lemma {:induction false} RunOneMore(m: Ideal, h: History, calls: seq<Call>, c: Call)
    ensures var r := Run(m, h, calls); Run(m, h, calls + [c]).machine == Apply(r.machine, c).next
    decreases |calls|
  {
    hide Apply, Observe;
    if calls == [] {
      assert calls + [c] == [c];
    } else {
      RunOneMore(Apply(m, calls[0]).next, Observe(h, m, calls[0]), calls[1..], c);
      assert (calls + [c])[1..] == calls[1..] + [c];
    }
  }

  /** Nothing here makes the machine scheduled, or changes the window it has. */
  predicate Remains(m: Ideal, n: Ideal) {
    n.status.phase == Scheduled ==> m.status.phase == Scheduled && n.requested == m.requested
  }

  lemma PublishRemains(m: Ideal, kind: Kind, source: Source, lower: nat, upper: nat, why: Result)
    ensures Remains(m, Publish(m, kind, source, lower, upper)) && Remains(m, Fail(m, why))
  {
  }

  lemma OfferRemains(m: Ideal)
    ensures Remains(m, Offer(m).next)
  {
    var b := Bound(m);
    var source := if b.status.phase == Collect && IsAck(b.receipt.frame) then AckInterval else NoSource;
    PublishRemains(b, RxEvent, source, b.receipt.txLower, b.receipt.rxUpper, EXHAUSTED);
    hide Publish, Fail, IsAck, Ceil, Sym;
  }

  lemma ReportSentRemains(m: Ideal)
    ensures Remains(m, ReportSent(m).next)
  {
    PublishRemains(m, TxEvent, SentInterval, m.receipt.txLower, m.receipt.txUpper, EXHAUSTED);
    PublishRemains(m, TxEvent, SentInterval, m.receipt.txLower, m.receipt.txUpper, PROTOCOL_ERROR);
    hide Publish, Fail, Ceil, Sym;
  }

  lemma ReportGoalRemains(m: Ideal)
    ensures Remains(m, ReportGoal(m).next)
  {
    var b := Settle(m);
    var source := GoalSource(b.status.goal);
    PublishRemains(b, if source == NoSource then ClosedEvent else TxEvent, source, GoalLower(b, source), GoalUpper(b, source), EXHAUSTED);
    hide Publish, Fail, GoalSource, GoalLower, GoalUpper, Ceil, Sym;
  }

  lemma StopRemains(m: Ideal, reply: A.RadioResult)
    ensures StopRadio(m, reply).next.status.phase != Scheduled
  {
    if StopRadio(m, reply).result == WAIT {
      StopRadioFields(m, reply);
      hide StopRadio;
    } else {
      FailFields(Mark(m), RADIO_ERROR);
      hide Fail, Mark, SaysStopped, SaysDrain;
    }
  }

  lemma HeldRemains(m: Ideal, frame: A.Frame, lost: bool)
    ensures Remains(m, Held(m, frame)) && Remains(m, Quiet(m, lost)) && Remains(m, Fail(m, RADIO_ERROR))
  {
  }

  lemma ReceiveRemains(m: Ideal, reply: A.RadioResult, frame: A.Frame)
    ensures Remains(m, Receive(m, reply, frame).next)
  {
    HeldRemains(m, frame, SaysLost(reply));
    hide SaysFrame, SaysLost, SaysEmpty, LossIsFault, Held, Quiet, Fail, Remains;
  }

  lemma KeepRemains(m: Ideal, normal: bool)
    ensures Keep(m, normal).status.phase != Scheduled && Fail(m, RADIO_ERROR).status.phase != Scheduled
  {
  }

  lemma RetireRemains(m: Ideal, reply: A.RadioResult)
    ensures Retire(m, reply).next.status.phase != Scheduled
  {
    StopRemains(AsClosing(m, m.status.goal), reply);
    KeepRemains(m, true);
    KeepRemains(m, m.status.normalRx);
    hide StopRadio, AsClosing, KeepsAutoack, KeepsRaw, SaysReady, Keep, Fail;
  }

  lemma TurnRemains(m: Ideal, reply: A.RadioResult, frame: A.Frame)
    ensures Remains(m, Turn(m, reply, frame).next)
  {
    RetireRemains(m, reply);
    ReportGoalRemains(m);
    StopRemains(if m.status.phase == Collect then AsClosing(m, AckGoal) else m, reply);
    ReceiveRemains(m, reply, frame);
    hide Retire, ReportGoal, StopRadio, AsClosing, Receive, CloseDue;
  }

  lemma ActRemains(m: Ideal, x: StepIn)
    ensures Remains(m, Act(m, x).next)
    ensures Act(m, x).operation == RunOp ==> Act(m, x).next.status.phase != Scheduled
  {
    ReportSentRemains(m);
    OfferRemains(m);
    TurnRemains(m, x.reply, x.frame);
    TurnNeverRuns(m, x.reply, x.frame);
    hide ReportSent, Offer, Turn, RunEnds, SaysBusy;
  }

  lemma StepRemains(m: Ideal, arguments: bool, x: StepIn)
    ensures Remains(m, Step(m, arguments, x).next)
    ensures Step(m, arguments, x).operation == RunOp ==> Step(m, arguments, x).next.status.phase != Scheduled
  {
    if Samples(m, arguments, x) {
      StepIsAct(m, arguments, x);
      ActRemains(Sampled(m, x.live), x);
    } else {
      StepIdles(m, arguments, x);
    }
    hide Step, Act, Samples;
  }

  lemma SampleRemains(m: Ideal, timer: A.RadioResult, live: nat)
    ensures Remains(m, Sample(m, timer, live).next)
  {
    hide SaysReady;
  }

  lemma OpenRemains(m: Ideal, timer: A.RadioResult, live: nat)
    ensures Sample(Opened(m), timer, live).next.status.phase != Scheduled
  {
    hide SaysReady;
  }

  lemma InitRemains(m: Ideal, arguments: bool, c: Config, reply: A.RadioResult, timer: A.RadioResult, live: nat)
    ensures Remains(m, Init(m, arguments, c, reply, timer, live).next)
  {
    OpenRemains(Cleared(m), timer, live);
    hide SaysReady, ConfigValid, Cleared, Sample, Opened;
  }

  lemma PrepareRemains(m: Ideal, arguments: bool, tx: Tx, policy: Policy, body: seq<byte>, reply: A.RadioResult)
    ensures Remains(m, Prepare(m, arguments, tx, policy, body, reply).next)
  {
    hide SaysReady, MayPrepare;
  }

  lemma CloseRemains(m: Ideal, end: End)
    ensures Remains(m, Close(m, end).next)
  {
    hide Ahead, Unwrap;
  }

  lemma ConsumeRemains(m: Ideal, token: nat)
    ensures Remains(m, Consume(m, token).next)
  {
  }

  lemma NowRemains(m: Ideal, arguments: bool, timer: A.RadioResult, live: nat)
    ensures Remains(m, Now(m, arguments, timer, live).next)
  {
    SampleRemains(m, timer, live);
    hide Sample;
  }

  lemma ConfigureRemains(m: Ideal, arguments: bool, c: Config, reply: A.RadioResult, timer: A.RadioResult, live: nat)
    ensures Remains(m, Configure(m, arguments, c, reply, timer, live).next)
  {
    SampleRemains(m, timer, live);
    hide Sample, ConfigValid, SaysReady, IdleOff;
  }

  lemma ReopenRemains(m: Ideal, arguments: bool, reply: A.RadioResult, timer: A.RadioResult, live: nat)
    ensures Remains(m, AdapterSpec.Open(m, arguments, reply, timer, live).next)
  {
    OpenRemains(m, timer, live);
    hide Sample, Opened, SaysReady, IdleOff;
  }

  lemma UnprepareRemains(m: Ideal, arguments: bool, tx: Tx, reply: A.RadioResult)
    ensures Remains(m, Unprepare(m, arguments, tx, reply).next)
  {
    PublishRemains(m, NoKind, NoSource, 0, 0, RADIO_ERROR);
    hide SaysStopped, Fail, Publish;
  }

  lemma AcceptGrants(m: Ideal, tx: Tx, a: Action)
    ensures var r := Accept(m, tx, a);
            if a.kind == ActAttempt && r.result == OK then r.next.requested == AsRequested(m.status.live, a)
            else Remains(m, r.next)
  {
    hide Identified, MayAttempt, MayCollect, MayQuiesce, AsRequested, StampOf;
  }

  /** A machine is scheduled after a call by that call's grant, or was before it and keeps its window unlaunched. */
  lemma ScheduledBy(m: Ideal, c: Call)
    requires Apply(m, c).next.status.phase == Scheduled
    ensures var n := Apply(m, c).next;
            if Grants(m, c) then n.requested == AsRequested(m.status.live, c.action)
            else Remains(m, n) && !Launches(m, c)
  {
    hide Step, Init, Prepare, Accept, Close, Consume, Now, Configure, AdapterSpec.Open, Unprepare, AsRequested, Remains;
    match c
    case StepCall(arguments, x) => StepRemains(m, arguments, x);
    case InitCall(arguments, config, reply, timer, live) => InitRemains(m, arguments, config, reply, timer, live);
    case NowCall(arguments, timer, live) => NowRemains(m, arguments, timer, live);
    case PrepareCall(arguments, tx, policy, body, reply) => PrepareRemains(m, arguments, tx, policy, body, reply);
    case UnprepareCall(arguments, tx, reply) => UnprepareRemains(m, arguments, tx, reply);
    case AcceptCall(tx, action) => AcceptGrants(m, tx, action);
    case CloseCall(end) => CloseRemains(m, end);
    case ConsumeCall(token) => ConsumeRemains(m, token);
    case ConfigureCall(arguments, config, reply, timer, live) => ConfigureRemains(m, arguments, config, reply, timer, live);
    case OpenCall(arguments, reply, timer, live) => ReopenRemains(m, arguments, reply, timer, live);
  }

  /** A scheduled machine was granted its window by an earlier call of its run, and has not launched since. */
  lemma {:induction false} ScheduledByGrant(calls: seq<Call>) returns (j: nat)
    requires After(calls).status.phase == Scheduled
    ensures j < |calls| && Grants(After(calls[..j]), calls[j])
    ensures After(calls).requested == AsRequested(After(calls[..j]).status.live, calls[j].action)
    ensures forall k :: j < k < |calls| ==> !Launches(After(calls[..k]), calls[k])
    decreases |calls|
  {
    if calls == [] {
      assert false;
    }
    var n := |calls| - 1;
    var before, c := calls[..n], calls[n];
    assert calls == before + [c];
    RunOneMore(Blank(), EMPTY_HISTORY, before, c);
    hide Apply, Observe, Launches, Grants, AsRequested, Run, After;
    ScheduledBy(After(before), c);
    j := n;
    if !Grants(After(before), c) {
      j := ScheduledByGrant(before);
      assert forall k :: 0 <= k <= n ==> before[..k] == calls[..k];
    }
  }

  /**
   In every run from reset, every attempt is launched by an earlier accepted request for one, at an instant the clock
   showed inside the window that request named, and no other attempt was launched in between.
   */
  lemma LaunchedInWindow(calls: seq<Call>, i: nat) returns (j: nat)
    requires i < |calls| && Launches(After(calls[..i]), calls[i])
    ensures j < i && Grants(After(calls[..j]), calls[j])
    ensures var live := After(calls[..j]).status.live;
            Nearest(live, calls[j].action.at) <= Sym(calls[i].x.live) < Nearest(live, calls[j].action.until)
    ensures forall k :: j < k < i ==> !Launches(After(calls[..k]), calls[k])
  {
    LaunchIsScheduled(After(calls[..i]), calls[i].arguments, calls[i].x);
    hide Step, Run, Grants, Nearest;
    j := ScheduledByGrant(calls[..i]);
    assert forall k :: 0 <= k < i ==> calls[..i][..k] == calls[..k];
  }

  // ---------- retirement ----------

  /** Retiring after a stop was already requested: no branch of a step leads out of this state. */
  predicate Stranded(m: Ideal) {
    m.status.fault == OK && m.status.phase == Retiring && m.status.stopStarted
  }

  /** An accepted retirement strands the adapter exactly when it arrives between a drain and the second stop request. */
  lemma QuiesceStrands(m: Ideal, h: History, tx: Tx, a: Action)
    requires Good(m, h) && a.kind == ActQuiesce && Accept(m, tx, a).result == OK
    ensures Stranded(Accept(m, tx, a).next) <==> m.status.phase == Closing && m.status.stopStarted
  {
    hide AsRequested, Identified, Counted, Timed, Stopped, LogHonest;
  }

  /** A stranded adapter never stops the radio and never reports its retirement: it stays stranded until it faults. */
  lemma StrandedStays(m: Ideal, h: History, c: Call)
    requires Good(m, h) && Stranded(m)
    ensures var n := Apply(m, c).next; Stranded(n) || n.status.fault != OK
    ensures forall a :: a in Request(m, c) ==> a.operation == ReceiveOp
    ensures var n := Apply(m, c).next; n.status.ready && !m.status.ready ==> n.observation.kind == RxEvent
  {
    match c
    case StepCall(arguments, x) =>
      StrandedStep(m, arguments, x);
      hide Step;
    case NowCall(arguments, timer, live) =>
      StrandedSample(m, arguments, timer, live);
      hide Now, Good;
    case ConsumeCall(token) =>
      StrandedConsume(m, h, token);
      hide Consume;
    case _ =>
      StrandedOther(m, c);
      hide Apply, Good;
  }

  lemma StrandedSample(m: Ideal, arguments: bool, timer: A.RadioResult, live: nat)
    requires Stranded(m)
    ensures var n := Now(m, arguments, timer, live).next; (Stranded(n) || n.status.fault != OK) && n.status.ready == m.status.ready
  {
    FailFields(m, RADIO_ERROR);
    hide SaysReady, Fail;
  }

  lemma StrandedOther(m: Ideal, c: Call)
    requires Stranded(m) && !c.StepCall? && !c.NowCall? && !c.ConsumeCall?
    ensures Apply(m, c).next == m && Apply(m, c).result != OK && Request(m, c) == []
  {
    hide SaysReady, SaysStopped, ConfigValid, Blank, Identified, AsRequested, StampOf, Ahead, Unwrap;
  }

  lemma StrandedConsume(m: Ideal, h: History, token: nat)
    requires Good(m, h) && Stranded(m)
    ensures Stranded(Consume(m, token).next) && (Consume(m, token).next.status.ready ==> m.status.ready)
  {
    hide LogHonest, Frames;
  }

  lemma StrandedStep(m: Ideal, arguments: bool, x: StepIn)
    requires Stranded(m)
    ensures var r := Step(m, arguments, x);
            && (Stranded(r.next) || r.next.status.fault != OK)
            && (r.operation == NoOp || r.operation == ReceiveOp)
            && (r.next.status.ready && !m.status.ready ==> r.next.observation.kind == RxEvent)
  {
    if Samples(m, arguments, x) {
      StepIsAct(m, arguments, x);
      var b := Sampled(m, x.live);
      if b.status.held {
        StrandedOffer(Bound(b));
        hide Step, OfferBound;
      } else {
        StrandedReceive(b, x.reply, x.frame);
        hide Step, Receive;
      }
    } else {
      StepIdles(m, arguments, x);
      hide Step;
    }
  }

  lemma StrandedOffer(m: Ideal)
    requires Stranded(m) && !m.status.ready
    ensures var r := OfferBound(m);
            (Stranded(r.next) || r.next.status.fault != OK) && (r.next.status.ready ==> r.next.observation.kind == RxEvent)
  {
    FailFields(m, EXHAUSTED);
    hide Fail, Ceil, Sym, IsAck;
  }

  lemma StrandedReceive(m: Ideal, reply: A.RadioResult, frame: A.Frame)
    requires Stranded(m) && !m.status.ready
    ensures var r := Receive(m, reply, frame); (Stranded(r.next) || r.next.status.fault != OK) && !r.next.status.ready
  {
    FailFields(m, RADIO_ERROR);
    hide Fail, Faulted, SaysFrame, SaysLost, SaysEmpty, LossIsFault;
    var r := Receive(m, reply, frame);
    if r.result == WAIT {
      ReceiveFields(m, reply, frame);
      hide Receive;
    } else {
      ReceiveFaults(m, reply, frame);
      hide Receive;
    }
  }

  lemma ReceiveFaults(m: Ideal, reply: A.RadioResult, frame: A.Frame)
    ensures Receive(m, reply, frame).result != WAIT ==> Receive(m, reply, frame).next == Fail(m, RADIO_ERROR) && Faulted(m, Fail(m, RADIO_ERROR))
  {
    FailFields(m, RADIO_ERROR);
    hide Fail, Faulted, SaysFrame, SaysLost, SaysEmpty, LossIsFault;
  }

  /** Over whole runs: once stranded, nothing but received frames is ever published again. */
  lemma {:induction false} StrandedForever(m: Ideal, h: History, calls: seq<Call>)
    requires Good(m, h) && Stranded(m) && MonotoneRun(m, h, calls)
    ensures var Reached(n, k) := Run(m, h, calls);
            && (Stranded(n) || n.status.fault != OK)
            && h.log <= k.log
            && forall i :: |h.log| <= i < |k.log| ==> k.log[i].observation.kind == RxEvent
    decreases |calls|
  {
    if calls != [] {
      StrandedOnce(m, h, calls[0]);
      var n, k := Apply(m, calls[0]).next, Observe(h, m, calls[0]);
      hide Good, Apply, Observe, Monotone, Stranded;
      if n.status.fault == OK {
        StrandedForever(n, k, calls[1..]);
      } else {
        FaultForever(n, k, calls[1..]);
      }
    }
  }

  lemma StrandedOnce(m: Ideal, h: History, c: Call)
    requires Good(m, h) && Stranded(m) && Monotone(h, m, c)
    ensures var n, k := Apply(m, c).next, Observe(h, m, c);
            && (n.status.fault == OK ==> Good(n, k) && Stranded(n))
            && h.log <= k.log
            && forall i :: |h.log| <= i < |k.log| ==> k.log[i].observation.kind == RxEvent
  {
    GoodInvariant(m, h);
    CallKeeps(m, h, c);
    StrandedStays(m, h, c);
    StrandedLog(m, h, c);
    hide Good, Apply, Observe, Monotone, LogHonest;
  }

  lemma StrandedLog(m: Ideal, h: History, c: Call)
    ensures var n, k := Apply(m, c).next, Observe(h, m, c);
            k.log == if n.status.ready && !m.status.ready then h.log + [Delivered(n.observation, n.receipt.frame)] else h.log
  {
    hide Apply, Request, ClockAfter;
  }

  /** A fault is final: every later call of every run leaves machine and log as they are. */
  lemma {:induction false} FaultForever(m: Ideal, h: History, calls: seq<Call>)
    requires m.status.fault != OK
    ensures var Reached(n, k) := Run(m, h, calls); n == m && k.log == h.log
    decreases |calls|
  {
    if calls != [] {
      FaultStands(m, calls[0]);
      StrandedLog(m, h, calls[0]);
      var k := Observe(h, m, calls[0]);
      hide Apply, Observe;
      FaultForever(m, k, calls[1..]);
    }
  }

  lemma FaultStands(m: Ideal, c: Call)
    requires m.status.fault != OK
    ensures Apply(m, c) == Answer(m, m.status.fault)
  {
    hide Act, Blank;
  }

  // ---------- retirement does complete otherwise ----------

  /** A radio that does what it is asked: nothing to receive, the handoff granted, a stop confirmed. */
  function Helpful(m: Ideal): A.RadioResult {
    if m.status.phase == Draining then A.EMPTY
    else if m.status.phase == Retiring && KeepsAutoack(m) then A.READY
    else A.STOPPED
  }

  /** One step at an instant, with a helpful radio. */
  function Stepped(m: Ideal, live: nat): Ideal {
    Step(m, true, StepIn(A.READY, live, A.EMPTY, m.receipt, Helpful(m), BLANK_FRAME)).next
  }

  /** The caller consumes a received frame as soon as it is published. */
  function Taken(m: Ideal): Ideal {
    if m.status.ready && m.observation.kind == RxEvent then Consume(m, m.observation.token).next else m
  }

  function Helped(m: Ideal, live: nat): Ideal {
    Taken(Stepped(m, live))
  }

  function HelpedThrough(m: Ideal, t: seq<nat>): Ideal
    decreases |t|
  {
    if t == [] then m else HelpedThrough(Helped(m, t[0]), t[1..])
  }

  predicate RetiredReported(m: Ideal) {
    && m.status.fault == OK && m.status.phase != Cold && m.status.ready
    && m.observation.kind == TxEvent && m.observation.source == Retired
  }

  /** Retirement pending with nothing in hand and event numbers left. */
  predicate Pending(m: Ideal) {
    && m.status.fault == OK && m.status.goal == RetireGoal && !m.status.ready && !m.status.held
    && m.status.deliveries < UINT32_MAX && m.status.frames < UINT32_MAX
  }

  lemma ReportedStays(m: Ideal, live: nat)
    requires RetiredReported(m)
    ensures Helped(m, live) == m
  {
    hide Act;
  }

  /** From a reportable state: settled at once, reported as soon as a whole symbol has passed. */
  lemma ReportableReports(m: Ideal, t: nat, u: nat)
    requires Pending(m) && Reportable(m) && (m.settled ==> m.retired <= t) && u >= t + UNIT
    ensures RetiredReported(Helped(Helped(m, t), u))
  {
    FirstReport(m, t);
    var n := Helped(m, t);
    hide Helped;
    if RetiredReported(n) {
      ReportedStays(n, u);
    } else {
      SecondReport(n, t, u);
    }
  }

  lemma FirstReport(m: Ideal, t: nat)
    requires Pending(m) && Reportable(m) && (m.settled ==> m.retired <= t)
    ensures var n := Helped(m, t); RetiredReported(n) || (Pending(n) && Reportable(n) && n.settled && n.retired <= t)
  {
    HelpedReports(m, t);
    var b := Settle(Sampled(m, t));
    assert Pending(b) && Reportable(b) && b.settled && b.retired <= t;
    hide Ceil, Helped, Fail, Settle;
  }

  lemma SecondReport(m: Ideal, t: nat, u: nat)
    requires Pending(m) && Reportable(m) && m.settled && m.retired <= t && u >= t + UNIT
    ensures RetiredReported(Helped(m, u))
  {
    HelpedReports(m, u);
    var b := Sampled(m, u);
    assert Settle(b) == b && b.retired == m.retired && b.status.live == u;
    assert Sym(u) * UNIT > u - UNIT && Ceil(b.retired) * UNIT < b.retired + UNIT;
    hide Ceil, Sym, Helped, Fail;
  }

  lemma HelpedReports(m: Ideal, t: nat)
    requires Pending(m) && Reportable(m)
    ensures Helped(m, t) == ReportSettled(Settle(Sampled(m, t))).next
  {
    SteppedReports(m, t);
    RetirementIsNoFrame(Settle(Sampled(m, t)));
    assert !Settle(Sampled(m, t)).status.ready && Settle(Sampled(m, t)).status.goal == RetireGoal;
    hide Stepped, ReportSettled, Settle, Consume;
  }

  lemma SteppedReports(m: Ideal, t: nat)
    requires Pending(m) && Reportable(m)
    ensures Stepped(m, t) == ReportSettled(Settle(Sampled(m, t))).next
  {
    hide ReportSettled, Settle;
  }

  lemma RetirementIsNoFrame(b: Ideal)
    requires !b.status.ready && b.status.goal == RetireGoal
    ensures var n := ReportSettled(b).next; n.status.ready ==> n.observation.kind == TxEvent
  {
    hide Ceil, Sym;
  }

  /** Retiring, before any stop: one step retains the receiver or stops it. */
  lemma RetiringMoves(m: Ideal, t: nat)
    requires Pending(m) && m.status.phase == Retiring && !m.status.stopStarted
    ensures var n := Helped(m, t); Pending(n) && Reportable(n) && !n.settled
  {
    var b := Sampled(m, t);
    assert KeepsAutoack(b) == KeepsAutoack(m);
    StopHelps(AsClosing(b, RetireGoal));
    HelpedRetires(m, t);
    RetireIs(b, Helpful(m));
    assert !Stepped(m, t).status.ready by { hide Stepped, Retire, StopRadio, KeepsAutoack, KeepsRaw, Fail, Consume; }
    hide Stepped, Consume, Retire, StopRadio, KeepsAutoack, KeepsRaw, Fail;
  }

  lemma HelpedRetires(m: Ideal, t: nat)
    requires Pending(m) && m.status.phase == Retiring && !m.status.stopStarted
    ensures Stepped(m, t) == Retire(Sampled(m, t), Helpful(m)).next
  {
    hide Retire, Helpful;
  }

  lemma StopHelps(m: Ideal)
    ensures var r := StopRadio(m, A.STOPPED);
            r.next == m.(settled := false, status := m.status.(watermark := r.next.status.watermark, stopStarted := true, phase := Off))
  {
    if m.status.stopStarted {
      hide Fail;
    } else {
      hide Fail;
    }
  }

  /** Draining: one step finds nothing more to receive, the next stops the radio. */
  lemma DrainingMoves(m: Ideal, t: nat, u: nat)
    requires Pending(m) && m.status.phase == Draining
    ensures var n := Helped(Helped(m, t), u); Pending(n) && Reportable(n) && !n.settled
  {
    DrainingCloses(m, t);
    var n := Helped(m, t);
    hide Helped;
    ClosingStops(n, u);
  }

  lemma DrainingCloses(m: Ideal, t: nat)
    requires Pending(m) && m.status.phase == Draining
    ensures var n := Helped(m, t); Pending(n) && n.status.phase == Closing && !n.status.waitThrough
  {
    DrainingReceives(m, t);
    hide Stepped, Consume;
  }

  lemma DrainingReceives(m: Ideal, t: nat)
    requires Pending(m) && m.status.phase == Draining
    ensures Stepped(m, t) == Quiet(Sampled(m, t), false)
  {
    hide Fail, LossIsFault, Quiet;
  }

  lemma ClosingStops(m: Ideal, t: nat)
    requires Pending(m) && m.status.phase == Closing && !m.status.waitThrough
    ensures var n := Helped(m, t); Pending(n) && Reportable(n) && !n.settled
  {
    StopHelps(Sampled(m, t));
    hide StopRadio, Fail;
  }

  /** Instants, each a symbol or more after the one before. */
  predicate Spaced(t: seq<nat>) {
    forall i :: 0 < i < |t| ==> t[i - 1] + UNIT <= t[i]
  }

  /** Retirement pending, and no stop requested before it. */
  predicate Retirable(m: Ideal) {
    Pending(m) && !m.settled && (m.status.phase == Draining || m.status.phase == Off || (m.status.phase == Retiring && !m.status.stopStarted))
  }

  /** With nothing in hand, four helpful steps report it. */
  lemma RetiresInFour(n: Ideal, t: seq<nat>)
    requires Retirable(n) && |t| == 4 && Spaced(t)
    ensures RetiredReported(Helped(Helped(Helped(Helped(n, t[0]), t[1]), t[2]), t[3]))
  {
    assert t[0] + UNIT <= t[1] && t[1] + UNIT <= t[2] && t[2] + UNIT <= t[3];
    hide Helped, Reportable, RetiredReported, Spaced;
    if n.status.phase == Draining {
      DrainingMoves(n, t[0], t[1]);
      ReportableReports(Helped(Helped(n, t[0]), t[1]), t[2], t[3]);
    } else if n.status.phase == Retiring {
      RetiringMoves(n, t[0]);
      ReportableReports(Helped(n, t[0]), t[1], t[2]);
      ReportedStays(Helped(Helped(Helped(n, t[0]), t[1]), t[2]), t[3]);
    } else {
      OffReportable(n);
      ReportableReports(n, t[0], t[1]);
      ReportedStays(Helped(Helped(n, t[0]), t[1]), t[2]);
      ReportedStays(Helped(Helped(n, t[0]), t[1]), t[3]);
    }
  }

  lemma OffReportable(n: Ideal)
    requires Retirable(n) && n.status.phase == Off
    ensures Reportable(n)
  {
  }

  /** The same with a frame still to be offered, whose receive bound is not after the instant given. */
  predicate Holding(m: Ideal, t: nat) {
    && m.status.held && Retirable(m.(status := m.status.(held := false, deliveries := m.status.deliveries + 1)))
    && m.status.phase != Off && (m.status.boundValid ==> m.receipt.rxUpper <= t)
  }

  /** One step offers the frame and it is taken, or its bound is settled; the next symbol offers it. */
  lemma HoldingMoves(m: Ideal, t: nat)
    requires Holding(m, t)
    ensures var n := Helped(m, t); Retirable(n) || (Holding(n, t) && n.status.boundValid)
  {
    HoldingOffers(m, t);
    var b := Bound(Sampled(m, t));
    hide Helped, Stepped, Ceil, Sym;
    OfferTaken(b, t);
  }

  lemma HoldingReleased(m: Ideal, t: nat, u: nat)
    requires Holding(m, t) && m.status.boundValid && u >= t + UNIT
    ensures Retirable(Helped(m, u))
  {
    HoldingOffers(m, u);
    var b := Sampled(m, u);
    assert Sym(u) * UNIT > u - UNIT && Ceil(m.receipt.rxUpper) * UNIT < m.receipt.rxUpper + UNIT;
    assert Sym(u) >= Ceil(m.receipt.rxUpper);
    hide Helped, Stepped, Ceil, Sym;
    assert Bound(b) == b;
    OfferTaken(b, u);
  }

  lemma HoldingOffers(m: Ideal, t: nat)
    requires m.status.held && Retirable(m.(status := m.status.(held := false, deliveries := m.status.deliveries + 1)))
    requires m.status.phase != Off
    ensures Helped(m, t) == Taken(OfferBound(Bound(Sampled(m, t))).next)
  {
    hide OfferBound, Bound, Taken, Helpful;
  }

  /** An offer with event numbers left either waits and changes nothing, or is taken and frees the adapter's hand. */
  lemma OfferTaken(b: Ideal, t: nat)
    requires Holding(b, t) && b.status.boundValid
    ensures var n := Taken(OfferBound(b).next);
            if Sym(b.status.live) < Ceil(b.receipt.rxUpper) then n == b else Retirable(n)
  {
    hide Ceil, Sym, IsAck, Fail;
  }

  /**
   An accepted retirement that does not strand is reported within six helpful steps: two to offer a frame still in hand,
   once its receive bound has passed, and four to drain, stop, settle and report.
   */
  lemma RetirementCompletes(m: Ideal, h: History, tx: Tx, a: Action, t: seq<nat>)
    requires Good(m, h) && a.kind == ActQuiesce && Accept(m, tx, a).result == OK
    requires m.status.deliveries < UINT32_MAX - 1 && m.status.frames < UINT32_MAX && |t| == 6 && Spaced(t)
    requires m.status.held && m.status.boundValid ==> m.receipt.rxUpper <= t[0]
    requires !(m.status.phase == Closing && m.status.stopStarted)
    ensures RetiredReported(HelpedThrough(Accept(m, tx, a).next, t))
  {
    AcceptRetires(m, h, tx, a, t[0]);
    hide *;
    ReportsInSix(Accept(m, tx, a).next, m.status.held, t);
  }

  lemma ReportsInSix(n: Ideal, held: bool, t: seq<nat>)
    requires |t| == 6 && Spaced(t) && if held then Holding(n, t[0]) else Retirable(n)
    ensures RetiredReported(HelpedThrough(n, t))
  {
    hide Helped, Retirable, RetiredReported, Holding, Spaced;
    assert t == [t[0]] + t[1..];
    if !held {
      ReportsFrom(n, t);
    } else {
      HoldingMoves(n, t[0]);
      ReleasedOrSettled(Helped(n, t[0]), t);
    }
  }

  lemma ReleasedOrSettled(n: Ideal, t: seq<nat>)
    requires |t| == 6 && Spaced(t) && (Retirable(n) || (Holding(n, t[0]) && n.status.boundValid))
    ensures RetiredReported(HelpedThrough(n, t[1..]))
  {
    var later := t[1..];
    SpacedTail(t);
    SpacedTail(later);
    hide Helped, Retirable, RetiredReported, Holding, Spaced;
    if Retirable(n) {
      ReportsFrom(n, later);
    } else {
      HoldingReleased(n, t[0], t[1]);
      ReportsFrom(Helped(n, t[1]), later[1..]);
    }
  }

  lemma SpacedTail(t: seq<nat>)
    requires Spaced(t) && |t| > 1
    ensures Spaced(t[1..]) && t[0] + UNIT <= t[1]
  {
    forall i | 0 < i < |t[1..]|
      ensures t[1..][i - 1] + UNIT <= t[1..][i]
    {
      assert t[i] + UNIT <= t[i + 1];
    }
  }

  /** Four steps or more report it. */
  lemma ReportsFrom(n: Ideal, t: seq<nat>)
    requires Retirable(n) && |t| >= 4 && Spaced(t)
    ensures RetiredReported(HelpedThrough(n, t))
  {
    var four := t[..4];
    assert Spaced(four);
    RetiresInFour(n, four);
    var r := Helped(Helped(Helped(Helped(n, t[0]), t[1]), t[2]), t[3]);
    hide Helped, Retirable, RetiredReported, Spaced;
    StaysThrough(r, t[4..]);
    FourThen(n, t);
  }

  lemma FourThen(n: Ideal, t: seq<nat>)
    requires |t| >= 4
    ensures HelpedThrough(n, t) == HelpedThrough(Helped(Helped(Helped(Helped(n, t[0]), t[1]), t[2]), t[3]), t[4..])
  {
    hide Helped;
    var a, b, c := t[1..], t[2..], t[3..];
    assert a[1..] == b && b[1..] == c && c[1..] == t[4..];
    assert HelpedThrough(n, t) == HelpedThrough(Helped(n, t[0]), a);
    var x := Helped(Helped(n, t[0]), t[1]);
    assert HelpedThrough(Helped(n, t[0]), a) == HelpedThrough(x, b) == HelpedThrough(Helped(x, t[2]), c);
  }

  lemma {:induction false} StaysThrough(m: Ideal, t: seq<nat>)
    requires RetiredReported(m)
    ensures RetiredReported(HelpedThrough(m, t))
    decreases |t|
  {
    hide Helped, RetiredReported;
    if t != [] {
      ReportedStays(m, t[0]);
      StaysThrough(m, t[1..]);
    }
  }

  lemma AcceptRetires(m: Ideal, h: History, tx: Tx, a: Action, t: nat)
    requires Good(m, h) && a.kind == ActQuiesce && Accept(m, tx, a).result == OK
    requires m.status.deliveries < UINT32_MAX - 1 && m.status.frames < UINT32_MAX
    requires m.status.held && m.status.boundValid ==> m.receipt.rxUpper <= t
    requires !(m.status.phase == Closing && m.status.stopStarted)
    ensures var n := Accept(m, tx, a).next; if m.status.held then Holding(n, t) else Retirable(n)
  {
    AcceptIs(m, tx, a);
    hide AsRequested, Counted, Timed, Stopped, LogHonest, StampOf;
    assert m.status.phase == Off ==> !m.status.held by {
      assert Counted(m, h);
      OffHoldsNothing(m, h);
    }
  }

  lemma OffHoldsNothing(m: Ideal, h: History)
    requires Counted(m, h)
    ensures m.status.phase == Off ==> !m.status.held
  {
  }
}
