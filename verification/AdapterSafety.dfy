/** What every run of the adapter keeps: honest event times, lossless and stable delivery, honest closure. */
module AdapterSafety {
  import opened Bytes
  import opened Words
  import E = MacEpoch
  import A = MacAttempt
  import opened AdapterSpec

  /** One published event with the frame its pointer shows. */
  datatype Delivered = Delivered(observation: Observation, frame: A.Frame)

  /** One request to the radio, with the true time it was made at and the radio's answer. */
  datatype Asked = Asked(operation: Operation, at: nat, reply: A.RadioResult)

  datatype UserEnd = Open | Until(end: nat)

  /**
   What an observer of the adapter's boundary has seen: events published, frames the radio handed over,
   requests made to the radio, where in them the current reception episode began, the radio's clock,
   and the end the caller gave the current close.
   */
  datatype History = History(log: seq<Delivered>, arrived: seq<A.Frame>, asked: seq<Asked>, since: nat, clock: nat,
                             userEnd: UserEnd)

  datatype Call =
    | InitCall(arguments: bool, config: Config, reply: A.RadioResult, timer: A.RadioResult, live: nat)
    | NowCall(arguments: bool, timer: A.RadioResult, live: nat)
    | PrepareCall(arguments: bool, tx: Tx, policy: Policy, body: seq<byte>, reply: A.RadioResult)
    | UnprepareCall(arguments: bool, tx: Tx, reply: A.RadioResult)
    | AcceptCall(tx: Tx, action: Action)
    | CloseCall(end: End)
    | StepCall(arguments: bool, x: StepIn)
    | ConsumeCall(token: nat)
    | ConfigureCall(arguments: bool, config: Config, reply: A.RadioResult, timer: A.RadioResult, live: nat)
    | OpenCall(arguments: bool, reply: A.RadioResult, timer: A.RadioResult, live: nat)

  function Apply(m: Ideal, c: Call): Answer {
    match c
    case InitCall(arguments, config, reply, timer, live) => Init(m, arguments, config, reply, timer, live)
    case NowCall(arguments, timer, live) => Now(m, arguments, timer, live)
    case PrepareCall(arguments, tx, policy, body, reply) => Prepare(m, arguments, tx, policy, body, reply)
    case UnprepareCall(arguments, tx, reply) => Unprepare(m, arguments, tx, reply)
    case AcceptCall(tx, action) => Accept(m, tx, action)
    case CloseCall(end) => Close(m, end)
    case StepCall(arguments, x) => var r := Step(m, arguments, x); Answer(r.next, r.result)
    case ConsumeCall(token) => Consume(m, token)
    case ConfigureCall(arguments, config, reply, timer, live) => Configure(m, arguments, config, reply, timer, live)
    case OpenCall(arguments, reply, timer, live) => AdapterSpec.Open(m, arguments, reply, timer, live)
  }

  /** The radio request of a call, if it made one. */
  function Request(m: Ideal, c: Call): seq<Asked> {
    match c
    case StepCall(arguments, x) =>
      var r := Step(m, arguments, x);
      if r.operation == NoOp then [] else [Asked(r.operation, r.next.status.live, if r.operation == RunOp then x.run else x.reply)]
    case UnprepareCall(_, _, reply) =>
      if Apply(m, c).result == OK then [Asked(StopOp, m.status.live, reply)] else []
    case _ => []
  }

  predicate StartsEpisode(c: Call) {
    c.InitCall? || c.PrepareCall? || c.UnprepareCall? || c.CloseCall? || c.OpenCall?
  }

  /** The instant a call leaves the radio's clock at, as far as it shows. */
  function Reading(m: Ideal, c: Call): nat {
    match c
    case StepCall(arguments, x) =>
      var r := Step(m, arguments, x);
      if r.operation == RunOp && RunEnds(x.run) then x.receipt.last else r.next.status.live
    case _ => Apply(m, c).next.status.live
  }

  function Later(t: nat, u: nat): nat {
    if t < u then u else t
  }

  /** The last instant the radio's clock has certainly passed. */
  function ClockAfter(h: History, m: Ideal, c: Call): nat {
    Later(h.clock, Reading(m, c))
  }

  /** The frames the radio hands over in a call: a receive request answered with one, or an attempt that ended having received one. */
  function Handed(m: Ideal, c: Call): seq<A.Frame> {
    match c
    case StepCall(arguments, x) =>
      var op := Step(m, arguments, x).operation;
      if op == RunOp && RunEnds(x.run) && x.receipt.received then [x.receipt.frame]
      else if op == ReceiveOp && SaysFrame(x.reply) then [x.frame]
      else []
    case _ => []
  }

  /** What the machine makes of a step from `m` to `n`: the frame it counts is the one it holds. */
  function Seen(h: History, m: Ideal, n: Ideal, requests: seq<Asked>, clock: nat): History {
    h.(log := if n.status.ready && !m.status.ready then h.log + [Delivered(n.observation, n.receipt.frame)] else h.log,
       arrived := if n.status.frames > m.status.frames then h.arrived + [n.receipt.frame] else h.arrived,
       asked := h.asked + requests, clock := clock)
  }

  function Observe(h: History, m: Ideal, c: Call): History {
    var r := Apply(m, c);
    var k := Seen(h, m, r.next, Request(m, c), ClockAfter(h, m, c));
    k.(arrived := h.arrived + Handed(m, c),
       since := if StartsEpisode(c) && r.result == OK then |k.asked| else h.since,
       userEnd := if !c.CloseCall? || r.result != OK then h.userEnd
                  else if c.end.At? then Until(Unwrap(m.status.live, c.end.stamp)) else Open)
  }

  /** The environment's side: a clock that does not run backwards, and an attempt whose busy sample lies inside it. */
  predicate Monotone(h: History, m: Ideal, c: Call) {
    match c
    case InitCall(_, _, _, _, live) => h.clock <= live
    case NowCall(_, _, live) => h.clock <= live
    case ConfigureCall(_, _, _, _, live) => h.clock <= live
    case OpenCall(_, _, _, live) => h.clock <= live
    case StepCall(_, x) => h.clock <= x.live && (RunEnds(x.run) ==> x.live <= x.receipt.armed <= x.receipt.last)
    case _ => true
  }

  // ---------- the log ----------

  /** Frames delivered by a log, in order. */
  function Frames(log: seq<Delivered>): seq<A.Frame> {
    if log == [] then []
    else
      var d := log[|log| - 1];
      Frames(log[..|log| - 1]) + if d.observation.kind == RxEvent then [d.frame] else []
  }

  predicate EntryHonest(before: seq<Delivered>, d: Delivered) {
    && d.observation.token == |before| + 1
    && d.observation.upper <= d.observation.stamp * UNIT
    && (d.observation.kind == RxEvent ==> d.observation.serial == |Frames(before)| + 1)
  }

  predicate LogHonest(log: seq<Delivered>) {
    log == [] || (LogHonest(log[..|log| - 1]) && EntryHonest(log[..|log| - 1], log[|log| - 1]))
  }

  lemma LogGrows(log: seq<Delivered>, d: Delivered)
    ensures LogHonest(log + [d]) <==> LogHonest(log) && EntryHonest(log, d)
    ensures Frames(log + [d]) == Frames(log) + if d.observation.kind == RxEvent then [d.frame] else []
  {
    assert (log + [d])[..|log + [d]| - 1] == log;
  }

  // ---------- the invariant ----------

  predicate Running(p: Phase) {
    p == Prepared || p == Scheduled || p == Report || p == WaitMac || p == Collect
  }

  predicate Closed(p: Phase) {
    p == Closing || p == Draining || p == Off
  }

  /** A frame is with the adapter and no event has offered it yet. */
  predicate Unoffered(m: Ideal) {
    m.status.held && !(m.status.ready && m.observation.kind == RxEvent)
  }

  /** Consuming such an event ends the goal it reports. */
  predicate EndsGoal(o: Observation) {
    o.kind == ClosedEvent || (o.kind == TxEvent && o.source != SentInterval)
  }

  /** Delivery: counters, the frame in hand, the event in hand. */
  predicate Counted(m: Ideal, h: History) {
    && m.status.deliveries == |h.log| && m.status.frames == |h.arrived|
    && |Frames(h.log)| + (if Unoffered(m) then 1 else 0) == |h.arrived|
    && Frames(h.log) == h.arrived[..|Frames(h.log)|]
    && (m.status.held ==> h.arrived != [] && m.receipt.frame == h.arrived[|h.arrived| - 1])
    && (m.status.ready ==> h.log != [] && h.log[|h.log| - 1] == Delivered(m.observation, m.receipt.frame))
    && (m.status.ready && m.observation.kind == RxEvent ==> m.status.held && m.observation.source != SentInterval)
    && (m.status.ready && m.observation.source == SentInterval ==> m.status.phase == Report)
    && (m.status.ready && EndsGoal(m.observation) ==> m.status.phase == Off || m.status.phase == Rx)
    && (m.status.phase == Prepared || m.status.phase == Scheduled || m.status.phase == Off ==> !m.status.held)
  }

  /** Which goals go with which phases. */
  predicate Staged(m: Ideal) {
    var s := m.status;
    && s.phase != Fault
    && (Running(s.phase) ==> s.goal == NoGoal && !s.stopStarted)
    && (s.phase == Rx ==> (s.goal == NoGoal || s.goal == RetireGoal) && !s.stopStarted)
    && (s.phase == Retiring ==> s.goal == RetireGoal)
    && (s.phase == Closing || s.phase == Draining ==> s.goal != NoGoal)
    && (s.phase == Draining ==> s.stopStarted)
    && (s.phase == Collect ==> s.transmitted && m.through == m.receipt.txUpper + ACK_SYMBOLS * UNIT)
    && (s.goal == BusyGoal || s.goal == UserGoal || s.goal == AckGoal ==> Closed(s.phase))
    && (m.settled ==> s.phase == Off || s.phase == Rx)
  }

  /** Instants: what each goal will report. */
  predicate Timed(m: Ideal, h: History) {
    var s := m.status;
    && s.live <= h.clock
    && (s.stopStarted ==> s.watermark <= s.live)
    && (m.settled ==> m.retired <= s.live && (s.stopStarted ==> s.watermark <= m.retired))
    && (s.goal == BusyGoal ==> m.receipt.armed <= h.clock && m.requested.at <= Sym(m.began)
                               && (m.settled ==> m.receipt.armed <= m.retired))
    && (s.goal == AckGoal ==> s.stopStarted && s.watermark >= m.receipt.txUpper + ACK_SYMBOLS * UNIT)
    && (s.goal == UserGoal && !s.stopStarted ==> s.phase == Closing && s.waitThrough == h.userEnd.Until?
                                                 && (s.waitThrough ==> m.through == h.userEnd.end))
    && (s.goal == UserGoal && s.stopStarted && h.userEnd.Until? ==> s.watermark >= h.userEnd.end)
  }

  predicate StopsAfter(asked: seq<Asked>, since: nat, from: nat) {
    forall k :: 0 <= k < |asked| && since <= k && asked[k].operation == StopOp ==> asked[k].at >= from
  }

  predicate NoStop(asked: seq<Asked>, since: nat) {
    forall k :: 0 <= k < |asked| && since <= k ==> asked[k].operation != StopOp
  }

  /** The radio is confirmed stopped and nothing was asked of it since. */
  predicate ConfirmedStopped(asked: seq<Asked>) {
    asked != [] && asked[|asked| - 1].operation == StopOp && SaysStopped(asked[|asked| - 1].reply)
  }

  /** Stops: none in the episode before the first, all of them at or after the watermark, off only when confirmed. */
  predicate Stopped(m: Ideal, h: History) {
    && h.since <= |h.asked|
    && (if m.status.stopStarted then StopsAfter(h.asked, h.since, m.status.watermark) else NoStop(h.asked, h.since))
    && (m.status.phase == Off ==> ConfirmedStopped(h.asked))
  }

  const EMPTY_HISTORY := History([], [], [], 0, 0, Open)

  /** In service: initialised and not faulted. */
  predicate Good(m: Ideal, h: History) {
    && m.status.fault == OK && m.status.phase != Cold
    && LogHonest(h.log) && Counted(m, h) && Staged(m) && Timed(m, h) && Stopped(m, h)
  }

  /** What holds of every reachable machine and its history. */
  predicate Invariant(m: Ideal, h: History) {
    && LogHonest(h.log) && Frames(h.log) <= h.arrived
    && (m.status.fault != OK ==> m.status.phase == Fault)
    && (m.status.fault == OK && m.status.phase == Cold ==> m == Blank() && h == EMPTY_HISTORY)
    && (m.status.fault == OK && m.status.phase != Cold ==> Good(m, h))
  }

  /** Either the call faulted, leaving the log as it was, or the adapter is still in service. */
  predicate Kept(m: Ideal, h: History, before: History) {
    if m.status.fault == OK then Good(m, h)
    else m.status.phase == Fault && h.log == before.log && before.arrived <= h.arrived
  }

  lemma LiveMoves(m: Ideal, h: History, live: nat)
    requires Good(m, h) && h.clock <= live
    ensures Good(m.(status := m.status.(live := live)), h.(clock := live))
  {
    hide LogHonest, Frames;
  }

  lemma PublishKeeps(m: Ideal, h: History, kind: Kind, source: Source, lower: nat, upper: nat)
    requires Good(m, h) && !m.status.ready && upper <= Sym(m.status.live) * UNIT
    requires kind == RxEvent ==> m.status.held && source != SentInterval
    requires source == SentInterval ==> m.status.phase == Report
    requires kind == ClosedEvent || (kind == TxEvent && source != SentInterval) ==> m.status.phase == Off || m.status.phase == Rx
    ensures var p := Publish(m, kind, source, lower, upper);
            Good(p, h.(log := h.log + [Delivered(p.observation, m.receipt.frame)]))
  {
    var p := Publish(m, kind, source, lower, upper);
    var d := Delivered(p.observation, m.receipt.frame);
    LogGrows(h.log, d);
    hide LogHonest, Frames, Timed, Stopped;
    PublishTimed(m, h, kind, source, lower, upper);
  }

  lemma PublishTimed(m: Ideal, h: History, kind: Kind, source: Source, lower: nat, upper: nat)
    requires Timed(m, h) && Stopped(m, h)
    ensures var p := Publish(m, kind, source, lower, upper);
            forall log :: Timed(p, h.(log := log)) && Stopped(p, h.(log := log))
  {
  }

  lemma OfferKeeps(m: Ideal, h: History)
    requires Good(m, h) && !m.status.ready && m.status.held
    ensures var r := OfferBound(m);
            r.result == EVENT ==> Good(r.next, h.(log := h.log + [Delivered(r.next.observation, m.receipt.frame)]))
  {
    hide Good, Publish, LogHonest, Frames, IsAck;
    var r := OfferBound(m);
    if r.result == EVENT {
      var source := if m.status.phase == Collect && IsAck(m.receipt.frame) then AckInterval else NoSource;
      PublishKeeps(m, h, RxEvent, source, m.receipt.txLower, m.receipt.rxUpper);
      assert r.next == Publish(m, RxEvent, source, m.receipt.txLower, m.receipt.rxUpper);
    }
  }

  lemma BoundKeeps(m: Ideal, h: History)
    requires Good(m, h)
    ensures Good(Bound(m), h)
  {
    hide LogHonest, Frames;
  }

  lemma AskedGrows(asked: seq<Asked>, since: nat, from: nat, a: Asked)
    requires since <= |asked|
    ensures StopsAfter(asked, since, from) && (a.operation == StopOp ==> a.at >= from) ==> StopsAfter(asked + [a], since, from)
    ensures NoStop(asked, since) && a.operation != StopOp ==> NoStop(asked + [a], since)
    ensures NoStop(asked, since) && a.operation == StopOp ==> StopsAfter(asked + [a], since, a.at)
    ensures ConfirmedStopped(asked + [a]) <==> a.operation == StopOp && SaysStopped(a.reply)
  {
  }

  lemma LaunchKeeps(m: Ideal, h: History, run: A.RadioResult, receipt: Receipt)
    requires Good(m, h) && m.status.phase == Scheduled && !m.status.ready && m.status.live == h.clock
    requires RunEnds(run) ==> m.status.live <= receipt.armed <= receipt.last
    ensures var r := Launch(m, run, receipt); r.operation == NoOp ==> Good(r.next, h) && r.result != EVENT
    ensures var r := Launch(m, run, receipt);
            r.operation == RunOp ==>
              r.result != EVENT
              && if RunEnds(run)
                 then Good(r.next, h.(arrived := if receipt.received then h.arrived + [receipt.frame] else h.arrived,
                                   asked := h.asked + [Asked(RunOp, m.status.live, run)], clock := receipt.last))
                 else r.result == RADIO_ERROR
  {
    hide LogHonest, Frames, StopsAfter, NoStop, ConfirmedStopped;
    AskedGrows(h.asked, h.since, m.status.watermark, Asked(RunOp, m.status.live, run));
  }

  lemma ReportSentKeeps(m: Ideal, h: History)
    requires Good(m, h) && m.status.phase == Report && !m.status.ready
    ensures var r := ReportSent(m); r.result == WAIT ==> Good(r.next, h)
    ensures var r := ReportSent(m);
            r.result == EVENT ==> Good(r.next, h.(log := h.log + [Delivered(r.next.observation, m.receipt.frame)]))
  {
    hide Good, Publish;
    if ReportSent(m).result == EVENT {
      PublishKeeps(m, h, TxEvent, SentInterval, m.receipt.txLower, m.receipt.txUpper);
    }
  }

  lemma SettleKeeps(m: Ideal, h: History)
    requires Good(m, h) && Reportable(m) && m.status.live == h.clock
    ensures Good(Settle(m), h)
  {
    hide LogHonest, Frames, StopsAfter, NoStop, ConfirmedStopped;
  }

  /** At a settled instant, everything a goal reports as its bound is already past. */
  lemma GoalBound(m: Ideal, h: History)
    requires Good(m, h) && Reportable(m) && m.settled
    ensures m.status.goal == AckGoal ==> m.status.watermark <= m.retired
    ensures m.status.goal == BusyGoal ==> m.receipt.armed <= m.retired
  {
  }

  lemma ReportGoalKeeps(m: Ideal, h: History)
    requires Good(m, h) && Reportable(m) && !m.status.ready && m.settled
    ensures var r := ReportSettled(m);
            r.result == EVENT ==> Good(r.next, h.(log := h.log + [Delivered(r.next.observation, m.receipt.frame)]))
  {
    GoalBound(m, h);
    hide Good, Publish;
    var r := ReportSettled(m);
    if r.result == EVENT {
      var source := GoalSource(m.status.goal);
      PublishKeeps(m, h, if source == NoSource then ClosedEvent else TxEvent, source, GoalLower(m, source), GoalUpper(m, source));
    }
  }

  /** Closing, with whatever the goal promises already reached by the live instant or by the first stop. */
  predicate ReadyToStop(m: Ideal, h: History) {
    var s := m.status;
    && s.fault == OK && LogHonest(h.log) && Counted(m, h) && Stopped(m, h)
    && s.phase == Closing && s.goal != NoGoal && !s.held && !s.ready && s.live == h.clock
    && (s.stopStarted ==> s.watermark <= s.live)
    && (s.goal == BusyGoal ==> m.receipt.armed <= h.clock && m.requested.at <= Sym(m.began))
    && !m.settled
    && var mark := if s.stopStarted then s.watermark else s.live;
       && (s.goal == AckGoal ==> mark >= m.receipt.txUpper + ACK_SYMBOLS * UNIT)
       && (s.goal == UserGoal && h.userEnd.Until? ==> mark >= h.userEnd.end)
  }

  /** The parts of the invariant that ask nothing of the fields an operation moves. */
  lemma CountedMoves(m: Ideal, n: Ideal, h: History, k: History)
    requires Counted(m, h) && !m.status.ready && !m.status.held
    requires n.status.ready == false && n.status.deliveries == m.status.deliveries && k.log == h.log
    requires if n.status.held then n.status.frames == m.status.frames + 1 && k.arrived == h.arrived + [n.receipt.frame]
             else n.status.frames == m.status.frames && k.arrived == h.arrived
    requires n.status.phase == Prepared || n.status.phase == Scheduled || n.status.phase == Off ==> !n.status.held
    ensures Counted(n, k)
  {
    hide Frames;
  }

  lemma StoppedMoves(m: Ideal, n: Ideal, h: History, k: History, a: Asked)
    requires Stopped(m, h) && k.asked == h.asked + [a] && k.since == h.since
    requires n.status.stopStarted == (m.status.stopStarted || a.operation == StopOp)
    requires m.status.stopStarted ==> n.status.watermark == m.status.watermark
    requires n.status.stopStarted && a.operation == StopOp ==> n.status.watermark <= a.at
    requires n.status.phase == Off ==> ConfirmedStopped(k.asked)
    ensures Stopped(n, k)
  {
    AskedGrows(h.asked, h.since, n.status.watermark, a);
    AskedGrows(h.asked, h.since, a.at, a);
  }

  /** What a stop request leaves, field by field. */
  lemma StopRadioFields(m: Ideal, reply: A.RadioResult)
    requires StopRadio(m, reply).result == WAIT
    ensures var n := StopRadio(m, reply).next; var s, t := m.status, n.status;
            && n == m.(settled := n.settled, status := t)
            && t == s.(watermark := if s.stopStarted then s.watermark else s.live, stopStarted := true, phase := t.phase)
            && (t.phase == Off || t.phase == Draining) && (t.phase == Off ==> SaysStopped(reply) && !n.settled)
            && (t.phase == Draining ==> n.settled == m.settled)
  {
    hide Fail, SaysStopped, SaysDrain;
  }

  lemma StopRadioKeeps(m: Ideal, h: History, reply: A.RadioResult)
    requires ReadyToStop(m, h)
    ensures var r := StopRadio(m, reply);
            r.result != EVENT && (r.result == WAIT ==> Good(r.next, h.(asked := h.asked + [Asked(StopOp, m.status.live, reply)])))
  {
    if StopRadio(m, reply).result == WAIT {
      StopRadioFields(m, reply);
      hide StopRadio, SaysStopped;
      StopKeeps(m, StopRadio(m, reply).next, h, reply);
    }
  }

  lemma StopKeeps(m: Ideal, n: Ideal, h: History, reply: A.RadioResult)
    requires ReadyToStop(m, h)
    requires var s, t := m.status, n.status;
             && n == m.(settled := n.settled, status := t)
             && t == s.(watermark := if s.stopStarted then s.watermark else s.live, stopStarted := true, phase := t.phase)
             && (t.phase == Off || t.phase == Draining) && (t.phase == Off ==> SaysStopped(reply) && !n.settled)
             && (t.phase == Draining ==> n.settled == m.settled)
    ensures Good(n, h.(asked := h.asked + [Asked(StopOp, m.status.live, reply)]))
  {
    hide SaysStopped, LogHonest;
    var a := Asked(StopOp, m.status.live, reply);
    var k := h.(asked := h.asked + [a]);
    CountedMoves(m, n, h, k);
    AskedGrows(h.asked, h.since, 0, a);
    StoppedMoves(m, n, h, k, a);
    hide Counted, Stopped;
  }

  /** What a receive request leaves. */
  lemma ReceiveFields(m: Ideal, reply: A.RadioResult, frame: A.Frame)
    requires Receive(m, reply, frame).result == WAIT
    ensures var n := Receive(m, reply, frame).next; var s, t := m.status, n.status;
            && n == m.(receipt := n.receipt, status := t) && n.receipt == m.receipt.(frame := n.receipt.frame)
            && t == s.(held := t.held, boundValid := t.boundValid, frames := t.frames, lossy := t.lossy, phase := t.phase,
                       waitThrough := t.waitThrough)
            && (if t.frames == s.frames then t.held == s.held && n.receipt == m.receipt
                else t.frames == s.frames + 1 && t.held && !t.boundValid)
            && ((t.phase == s.phase && t.waitThrough == s.waitThrough) || (s.phase == Draining && t.phase == Closing && !t.waitThrough))
  {
    hide Fail, SaysFrame, SaysLost, SaysEmpty, LossIsFault;
    if SaysFrame(reply) {
      hide LossIsFault;
    } else if m.status.phase == Draining {
      hide LossIsFault;
    }
  }

  lemma ReceiveKeeps(m: Ideal, h: History, reply: A.RadioResult, frame: A.Frame)
    requires Good(m, h) && !m.status.ready && !m.status.held
    requires m.status.phase == Rx || m.status.phase == Collect || m.status.phase == Retiring || m.status.phase == Closing
             || m.status.phase == Draining
    ensures var r := Receive(m, reply, frame);
            r.result != EVENT
            && (r.result == WAIT ==>
                  Good(r.next, h.(arrived := if r.next.status.frames > m.status.frames then h.arrived + [r.next.receipt.frame] else h.arrived,
                               asked := h.asked + [Asked(ReceiveOp, m.status.live, reply)])))
  {
    if Receive(m, reply, frame).result == WAIT {
      ReceiveFields(m, reply, frame);
      hide Receive;
      TakeKeeps(m, Receive(m, reply, frame).next, h, reply);
    }
  }

  lemma TakeKeeps(m: Ideal, n: Ideal, h: History, reply: A.RadioResult)
    requires Good(m, h) && !m.status.ready && !m.status.held
    requires m.status.phase == Rx || m.status.phase == Collect || m.status.phase == Retiring || m.status.phase == Closing
             || m.status.phase == Draining
    requires var s, t := m.status, n.status;
             && n == m.(receipt := n.receipt, status := t) && n.receipt == m.receipt.(frame := n.receipt.frame)
             && t == s.(held := t.held, boundValid := t.boundValid, frames := t.frames, lossy := t.lossy, phase := t.phase,
                        waitThrough := t.waitThrough)
             && (if t.frames == s.frames then t.held == s.held && n.receipt == m.receipt
                 else t.frames == s.frames + 1 && t.held && !t.boundValid)
             && ((t.phase == s.phase && t.waitThrough == s.waitThrough) || (s.phase == Draining && t.phase == Closing && !t.waitThrough))
    ensures Good(n, h.(arrived := if n.status.frames > m.status.frames then h.arrived + [n.receipt.frame] else h.arrived,
                       asked := h.asked + [Asked(ReceiveOp, m.status.live, reply)]))
  {
    hide LogHonest;
    var a := Asked(ReceiveOp, m.status.live, reply);
    var k := h.(arrived := if n.status.frames > m.status.frames then h.arrived + [n.receipt.frame] else h.arrived, asked := h.asked + [a]);
    CountedMoves(m, n, h, k);
    StoppedMoves(m, n, h, k, a);
    hide Counted, Stopped;
  }

  // ---------- one step ----------

  predicate Alive(r: Result) {
    r == WAIT || r == EVENT || r == EXPIRED || r == OK
  }

  function Requests(op: Operation, live: nat, reply: A.RadioResult): seq<Asked> {
    if op == NoOp then [] else [Asked(op, live, reply)]
  }

  /** A fault leaves the counters and the event in hand as they were. */
  predicate Faulted(m: Ideal, n: Ideal) {
    && n.status.phase == Fault && n.status.fault != OK
    && n.status.ready == m.status.ready && n.status.frames == m.status.frames
    && n.observation == m.observation && n.status.live == m.status.live
  }

  /** The machine answered a turn: in service with what it showed recorded, or faulted with nothing shown. */
  predicate Answered(m: Ideal, h: History, n: Ideal, r: Result, requests: seq<Asked>, clock: nat) {
    if Alive(r) then Good(n, Seen(h, m, n, requests, clock)) && n.status.live == m.status.live else Faulted(m, n)
  }

  lemma FailFields(m: Ideal, why: Result)
    requires why != OK
    ensures Faulted(m, Fail(m, why))
  {
  }

  /** A publication leaves counters and receipt alone and raises one event. */
  predicate Raised(m: Ideal, n: Ideal) {
    n.status.frames == m.status.frames && n.receipt == m.receipt && n.status.ready && n.status.live == m.status.live
  }

  lemma PublishFields(m: Ideal, kind: Kind, source: Source, lower: nat, upper: nat)
    ensures Raised(m, Publish(m, kind, source, lower, upper))
  {
    hide Sym;
  }

  /** The moves that only bound or settle. */
  predicate Touched(m: Ideal, n: Ideal) {
    n.status.frames == m.status.frames && n.receipt.frame == m.receipt.frame && n.status.ready == m.status.ready
    && n.observation == m.observation && n.status.live == m.status.live
  }

  lemma BoundFields(m: Ideal)
    ensures Touched(m, Bound(m)) && Bound(m).status.held == m.status.held
  {
  }

  lemma SettleFields(m: Ideal)
    ensures Touched(m, Settle(m)) && Settle(m).status == m.status && Settle(m).settled
  {
  }

  lemma OfferSeen(m: Ideal, h: History)
    requires Good(m, h) && !m.status.ready && m.status.held
    ensures var r := Offer(m);
            Answered(m, h, r.next, r.result, [], h.clock)
  {
    var b := Bound(m);
    BoundKeeps(m, h);
    BoundFields(m);
    hide Bound, Good;
    OfferKeeps(b, h);
    OfferFields(b);
    hide OfferBound;
    assert h.asked + [] == h.asked;
  }

  /** What an attempt to publish can come to. */
  predicate Attempted(m: Ideal, n: Ideal, r: Result) {
    (r == WAIT && n == m) || (r == EVENT && Raised(m, n)) || ((r == EXHAUSTED || r == PROTOCOL_ERROR) && Faulted(m, n))
  }

  lemma OfferFields(m: Ideal)
    ensures var r := OfferBound(m); Attempted(m, r.next, r.result)
  {
    var source := if m.status.phase == Collect && IsAck(m.receipt.frame) then AckInterval else NoSource;
    FailFields(m, EXHAUSTED);
    PublishFields(m, RxEvent, source, m.receipt.txLower, m.receipt.rxUpper);
    hide Ceil, Sym, IsAck, Publish, Fail, MayPublish, Faulted, Raised;
  }

  lemma ReportSentSeen(m: Ideal, h: History)
    requires Good(m, h) && m.status.phase == Report && !m.status.ready
    ensures var r := ReportSent(m);
            Answered(m, h, r.next, r.result, [], h.clock)
  {
    ReportSentKeeps(m, h);
    ReportSentFields(m);
    hide ReportSent, Good;
    assert h.asked + [] == h.asked;
  }

  lemma ReportSentFields(m: Ideal)
    ensures var r := ReportSent(m); Attempted(m, r.next, r.result)
  {
    FailFields(m, EXHAUSTED);
    FailFields(m, PROTOCOL_ERROR);
    PublishFields(m, TxEvent, SentInterval, m.receipt.txLower, m.receipt.txUpper);
    hide Ceil, Sym, Publish, Fail, MayPublish, Faulted, Raised;
  }

  lemma ReportGoalSeen(m: Ideal, h: History)
    requires Good(m, h) && Reportable(m) && !m.status.ready && m.status.live == h.clock
    ensures var r := ReportGoal(m);
            Answered(m, h, r.next, r.result, [], h.clock)
  {
    var b := Settle(m);
    SettleKeeps(m, h);
    SettleFields(m);
    hide Settle, Good;
    ReportGoalKeeps(b, h);
    ReportGoalFields(b);
    var r := ReportSettled(b);
    hide ReportSettled, Reportable;
    SettledAnswers(m, b, h, r.next, r.result);
  }

  lemma SettledAnswers(m: Ideal, b: Ideal, h: History, n: Ideal, result: Result)
    requires Touched(m, b) && b.status == m.status && Good(b, h) && m.status.live == h.clock && !m.status.ready
    requires Attempted(b, n, result)
    requires result == EVENT ==> Good(n, h.(log := h.log + [Delivered(n.observation, b.receipt.frame)]))
    ensures Answered(m, h, n, result, [], h.clock)
  {
    hide Good;
    assert h.asked + [] == h.asked;
  }

  lemma ReportGoalFields(m: Ideal)
    ensures var r := ReportSettled(m); Attempted(m, r.next, r.result)
  {
    var source := GoalSource(m.status.goal);
    FailFields(m, EXHAUSTED);
    PublishFields(m, if source == NoSource then ClosedEvent else TxEvent, source, GoalLower(m, source), GoalUpper(m, source));
    hide Ceil, Sym, GoalSource, GoalLower, GoalUpper, Publish, Fail, MayPublish, Faulted, Raised;
  }

  lemma StopRadioSeen(m: Ideal, h: History, reply: A.RadioResult)
    requires ReadyToStop(m, h)
    ensures var r := StopRadio(m, reply);
            Answered(m, h, r.next, r.result, [Asked(StopOp, m.status.live, reply)], h.clock)
  {
    StopRadioKeeps(m, h, reply);
    var r := StopRadio(m, reply);
    if r.result == WAIT {
      StopRadioFields(m, reply);
      hide StopRadio, Good, Counted, Stopped, SaysStopped;
    } else {
      hide Good, Counted, Stopped, SaysStopped;
    }
  }

  lemma ReceiveSeen(m: Ideal, h: History, reply: A.RadioResult, frame: A.Frame)
    requires Good(m, h) && !m.status.ready && !m.status.held
    requires m.status.phase == Rx || m.status.phase == Collect || m.status.phase == Retiring || m.status.phase == Closing
             || m.status.phase == Draining
    ensures var r := Receive(m, reply, frame);
            Answered(m, h, r.next, r.result, [Asked(ReceiveOp, m.status.live, reply)], h.clock)
  {
    ReceiveKeeps(m, h, reply, frame);
    FailFields(m, RADIO_ERROR);
    hide Good, Fail, Faulted, SaysFrame, SaysLost, SaysEmpty, LossIsFault;
    var r := Receive(m, reply, frame);
    if r.result == WAIT {
      ReceiveFields(m, reply, frame);
      hide Receive;
    }
  }

  lemma LaunchSeen(m: Ideal, h: History, run: A.RadioResult, receipt: Receipt)
    requires Good(m, h) && m.status.phase == Scheduled && !m.status.ready && m.status.live == h.clock
    requires RunEnds(run) ==> m.status.live <= receipt.armed <= receipt.last
    ensures var r := Launch(m, run, receipt);
            Answered(m, h, r.next, r.result, Requests(r.operation, m.status.live, run), if r.operation == RunOp then receipt.last else h.clock)
  {
    LaunchKeeps(m, h, run, receipt);
    LaunchFields(m, run, receipt);
    hide Launch, Good, RunEnds;
    assert h.asked + [] == h.asked;
  }

  lemma LaunchFields(m: Ideal, run: A.RadioResult, receipt: Receipt)
    ensures var r := Launch(m, run, receipt);
            if r.operation == NoOp then r.next == m && (r.result == EXPIRED || r.result == WAIT)
            else
              r.operation == RunOp
              && if RunEnds(run) then
                   r.result == WAIT && r.next.receipt == receipt && r.next.status.ready == m.status.ready && r.next.status.live == m.status.live
                   && r.next.status.frames == m.status.frames + if receipt.received then 1 else 0
                 else r.result == RADIO_ERROR && Faulted(m, r.next)
  {
    FailFields(m.(began := m.status.live), RADIO_ERROR);
    hide RunEnds, SaysBusy, Fail;
  }

  lemma FailAnswers(m: Ideal, h: History, reply: A.RadioResult)
    ensures Answered(m, h, Fail(m, RADIO_ERROR), RADIO_ERROR, Requests(HandoffOp, m.status.live, reply), h.clock)
  {
    FailFields(m, RADIO_ERROR);
  }

  lemma RetireSeen(m: Ideal, h: History, reply: A.RadioResult)
    requires Good(m, h) && m.status.phase == Retiring && !m.status.stopStarted && !m.status.ready && !m.status.held
    requires m.status.live == h.clock
    ensures var r := Retire(m, reply); Answered(m, h, r.next, r.result, Requests(r.operation, m.status.live, reply), h.clock)
  {
    RetireIs(m, reply);
    hide Retire, StopRadio, Fail, LogHonest, Frames, Stopped, Counted, Timed;
    if KeepsAutoack(m) {
      if m.status.normalRx {
        KeepReceiving(m, h, true, NoOp, reply);
      } else if SaysReady(reply) {
        KeepReceiving(m, h, true, HandoffOp, reply);
      } else {
        FailAnswers(m, h, reply);
      }
    } else if KeepsRaw(m) {
      KeepReceiving(m, h, m.status.normalRx, NoOp, reply);
    } else {
      var closing := AsClosing(m, m.status.goal);
      ClosingReady(m, closing, h);
      StopRadioSeen(closing, h, reply);
      ClosingAnswered(m, closing, h, reply);
    }
    hide *;
  }

  lemma RetireIs(m: Ideal, reply: A.RadioResult)
    ensures Retire(m, reply)
         == if KeepsAutoack(m) then
              if m.status.normalRx then Turned(Keep(m, true), WAIT, NoOp)
              else if SaysReady(reply) then Turned(Keep(m, true), WAIT, HandoffOp)
              else Turned(Fail(m, RADIO_ERROR), RADIO_ERROR, HandoffOp)
            else if KeepsRaw(m) then Turned(Keep(m, m.status.normalRx), WAIT, NoOp)
            else Turned(StopRadio(AsClosing(m, m.status.goal), reply).next, StopRadio(AsClosing(m, m.status.goal), reply).result, StopOp)
  {
    hide KeepsAutoack, KeepsRaw, SaysReady, StopRadio, AsClosing, Keep, Fail;
  }

  /** Turning to Closing first shows nothing itself. */
  lemma ClosingAnswered(m: Ideal, closing: Ideal, h: History, reply: A.RadioResult)
    requires closing == m.(status := m.status.(goal := closing.status.goal, phase := Closing, waitThrough := false))
    requires var r := StopRadio(closing, reply); Answered(closing, h, r.next, r.result, [Asked(StopOp, m.status.live, reply)], h.clock)
    ensures var r := StopRadio(closing, reply); Answered(m, h, r.next, r.result, [Asked(StopOp, m.status.live, reply)], h.clock)
  {
    hide StopRadio, Good;
  }

  lemma ClosingReady(m: Ideal, closing: Ideal, h: History)
    requires Good(m, h) && m.status.phase == Retiring && !m.status.ready && !m.status.held && m.status.live == h.clock
    requires closing == AsClosing(m, m.status.goal)
    ensures ReadyToStop(closing, h)
  {
    hide LogHonest, Frames;
  }

  /** Retirement with the receiver kept: a new reception state, no closure. */
  lemma KeepReceiving(m: Ideal, h: History, normal: bool, op: Operation, reply: A.RadioResult)
    requires Good(m, h) && m.status.phase == Retiring && !m.status.stopStarted && !m.status.ready && !m.status.held
    requires op == NoOp || op == HandoffOp
    ensures var n := Keep(m, normal);
            Good(n, Seen(h, m, n, Requests(op, m.status.live, reply), h.clock)) && n.status.live == m.status.live
  {
    var n := Keep(m, normal);
    var k := Seen(h, m, n, Requests(op, m.status.live, reply), h.clock);
    if op == NoOp {
      assert h.asked + [] == h.asked;
    } else {
      StoppedMoves(m, n, h, k, Asked(op, m.status.live, reply));
    }
    CountedMoves(m, n, h, k);
    hide LogHonest, Counted;
  }

  lemma CollectReady(m: Ideal, closing: Ideal, h: History)
    requires Good(m, h) && m.status.phase == Collect && m.through <= m.status.live
    requires !m.status.ready && !m.status.held && m.status.live == h.clock
    requires closing == AsClosing(m, AckGoal)
    ensures ReadyToStop(closing, h)
  {
    hide LogHonest, Frames;
  }

  lemma CloseReady(m: Ideal, h: History)
    requires Good(m, h) && m.status.phase == Closing && (!m.status.waitThrough || m.through <= m.status.live)
    requires !m.status.ready && !m.status.held && m.status.live == h.clock
    ensures ReadyToStop(m, h)
  {
    hide LogHonest, Frames;
  }

  lemma TurnSeen(m: Ideal, h: History, reply: A.RadioResult, frame: A.Frame)
    requires Good(m, h) && !m.status.ready && !m.status.held && m.status.live == h.clock
    requires m.status.phase != Scheduled && m.status.phase != Report && m.status.phase != WaitMac && m.status.phase != Prepared
    ensures var r := Turn(m, reply, frame);
            Answered(m, h, r.next, r.result, Requests(r.operation, m.status.live, reply), h.clock)
  {
    assert h.asked + [] == h.asked;
    if m.status.phase == Retiring && !m.status.stopStarted {
      RetireSeen(m, h, reply);
    } else if m.status.phase == Rx && m.status.goal == RetireGoal {
      ReportGoalSeen(m, h);
    } else if CloseDue(m) {
      if m.status.phase == Collect {
        var c := AsClosing(m, AckGoal);
        CollectReady(m, c, h);
        StopRadioSeen(c, h, reply);
        ClosingAnswered(m, c, h, reply);
      } else {
        CloseReady(m, h);
        StopRadioSeen(m, h, reply);
      }
    } else if m.status.phase == Off {
      if m.status.goal == NoGoal {
      } else {
        ReportGoalSeen(m, h);
      }
    } else {
      assert m.status.phase != Fault && m.status.phase != Cold;
      ReceiveSeen(m, h, reply, frame);
    }
    hide Retire, ReportGoal, StopRadio, Receive, Good, Counted, Stopped;
  }

  lemma ActSeen(m: Ideal, h: History, x: StepIn)
    requires Good(m, h) && !m.status.ready && m.status.live == h.clock
    requires RunEnds(x.run) ==> m.status.live <= x.receipt.armed <= x.receipt.last
    ensures var r := Act(m, x);
            Answered(m, h, r.next, r.result, Requests(r.operation, m.status.live, if r.operation == RunOp then x.run else x.reply),
                     if r.operation == RunOp then x.receipt.last else h.clock)
  {
    assert h.asked + [] == h.asked;
    if m.status.phase == Scheduled {
      LaunchSeen(m, h, x.run, x.receipt);
      LaunchFields(m, x.run, x.receipt);
    } else if m.status.phase == Report {
      ReportSentSeen(m, h);
    } else if m.status.phase == WaitMac || m.status.phase == Prepared {
    } else if m.status.held {
      OfferSeen(m, h);
    } else {
      TurnSeen(m, h, x.reply, x.frame);
      TurnNeverRuns(m, x.reply, x.frame);
    }
    hide Launch, ReportSent, Offer, Turn, Good, RunEnds;
  }

  lemma TurnNeverRuns(m: Ideal, reply: A.RadioResult, frame: A.Frame)
    ensures Turn(m, reply, frame).operation != RunOp
  {
    hide ReportGoal, StopRadio, Receive;
  }

  function Sampled(m: Ideal, live: nat): Ideal {
    m.(status := m.status.(live := live))
  }

  lemma StepIsAct(m: Ideal, arguments: bool, x: StepIn)
    requires Samples(m, arguments, x)
    ensures Step(m, arguments, x) == Act(Sampled(m, x.live), x)
  {
    hide Act, SaysReady;
  }

  /** Otherwise the machine stands still or faults, and asks nothing of the radio. */
  lemma StepIdles(m: Ideal, arguments: bool, x: StepIn)
    requires !Samples(m, arguments, x)
    ensures var r := Step(m, arguments, x); r.operation == NoOp && (r.next == m || Faulted(m, r.next))
  {
    FailFields(m, EXHAUSTED);
    FailFields(m, RADIO_ERROR);
    hide Act, SaysReady, Fail, Faulted;
  }

  lemma ActRuns(m: Ideal, x: StepIn)
    ensures var r := Act(m, x); r.operation == RunOp ==> (Alive(r.result) <==> RunEnds(x.run))
  {
    LaunchFields(m, x.run, x.receipt);
    TurnNeverRuns(m, x.reply, x.frame);
    hide Launch, ReportSent, Offer, Turn, RunEnds;
  }

  /** Standing still or faulting keeps the invariant. */
  lemma StandingKeeps(m: Ideal, h: History, n: Ideal, k: History)
    requires Invariant(m, h) && (n == m || Faulted(m, n))
    requires k.log == h.log && k.arrived == h.arrived && (n == m && m.status.fault == OK ==> k == h)
    ensures Invariant(n, k)
  {
    hide LogHonest, Frames, Good;
  }

  lemma GoodInvariant(m: Ideal, h: History)
    requires Good(m, h)
    ensures Invariant(m, h)
  {
    hide LogHonest, Frames, Staged, Timed, Stopped;
  }

  lemma StepKeeps(m: Ideal, h: History, arguments: bool, x: StepIn)
    requires Invariant(m, h) && Monotone(h, m, StepCall(arguments, x))
    ensures var c := StepCall(arguments, x); Invariant(Apply(m, c).next, Observe(h, m, c))
  {
    ObservedStep(m, h, arguments, x);
    if Samples(m, arguments, x) {
      SampledKeeps(m, h, arguments, x);
    } else {
      IdleKeeps(m, h, arguments, x);
    }
    hide *;
  }

  /** The history after a step, in terms of its result. */
  function SeenStep(m: Ideal, h: History, x: StepIn, n: Ideal, op: Operation): History {
    Seen(h, m, n, Requests(op, n.status.live, if op == RunOp then x.run else x.reply),
         Later(h.clock, if op == RunOp && RunEnds(x.run) then x.receipt.last else n.status.live))
  }

  lemma SampledKeeps(m: Ideal, h: History, arguments: bool, x: StepIn)
    requires Samples(m, arguments, x) && Invariant(m, h) && h.clock <= x.live
    requires RunEnds(x.run) ==> x.live <= x.receipt.armed <= x.receipt.last
    ensures var r := Step(m, arguments, x); Invariant(r.next, SeenStep(m, h, x, r.next, r.operation))
  {
    StepIsAct(m, arguments, x);
    LiveMoves(m, h, x.live);
    ActSeen(Sampled(m, x.live), h.(clock := x.live), x);
    ActRuns(Sampled(m, x.live), x);
    hide Step, Act, RunEnds, Good, LogHonest, Frames, Requests;
    var r := Step(m, arguments, x);
    SampledSeen(m, h, x, r.next, r.result, r.operation);
  }

  lemma SampledSeen(m: Ideal, h: History, x: StepIn, n: Ideal, r: Result, op: Operation)
    requires Invariant(m, h) && h.clock <= x.live && m.status.fault == OK
    requires RunEnds(x.run) ==> x.live <= x.receipt.armed <= x.receipt.last
    requires op == RunOp ==> (Alive(r) <==> RunEnds(x.run))
    requires Answered(Sampled(m, x.live), h.(clock := x.live), n, r, Requests(op, x.live, if op == RunOp then x.run else x.reply),
                      if op == RunOp then x.receipt.last else x.live)
    ensures Invariant(n, SeenStep(m, h, x, n, op))
  {
    hide Good, LogHonest, Frames, RunEnds, Requests;
    if Alive(r) {
      GoodInvariant(n, SeenStep(m, h, x, n, op));
    }
  }

  lemma IdleKeeps(m: Ideal, h: History, arguments: bool, x: StepIn)
    requires !Samples(m, arguments, x) && Invariant(m, h)
    ensures var r := Step(m, arguments, x); Invariant(r.next, SeenStep(m, h, x, r.next, r.operation))
  {
    StepIdles(m, arguments, x);
    hide Step, LogHonest, Frames;
    IdleSeen(m, h, x, Step(m, arguments, x).next);
  }

  lemma IdleSeen(m: Ideal, h: History, x: StepIn, n: Ideal)
    requires Invariant(m, h) && (n == m || Faulted(m, n))
    ensures Invariant(n, SeenStep(m, h, x, n, NoOp))
  {
    assert h.asked + [] == h.asked;
    hide RunEnds, LogHonest, Frames;
    assert m.status.fault == OK ==> m.status.live <= h.clock;
    StandingKeeps(m, h, n, SeenStep(m, h, x, n, NoOp));
  }

  /** What the machine counts in a step, and holds, is what the radio handed over in it. */
  lemma HandedInStep(m: Ideal, arguments: bool, x: StepIn)
    ensures var n := Step(m, arguments, x).next;
            Handed(m, StepCall(arguments, x)) == if n.status.frames > m.status.frames then [n.receipt.frame] else []
  {
    if Samples(m, arguments, x) {
      StepIsAct(m, arguments, x);
      HandedInAct(Sampled(m, x.live), x);
      hide Step, Act;
    } else {
      StepIdles(m, arguments, x);
      hide Step;
    }
  }

  lemma HandedInAct(m: Ideal, x: StepIn)
    ensures var r := Act(m, x);
            if r.operation == RunOp && RunEnds(x.run) && x.receipt.received then
              r.next.status.frames == m.status.frames + 1 && r.next.receipt.frame == x.receipt.frame
            else if r.operation == ReceiveOp && SaysFrame(x.reply) then
              r.next.status.frames == m.status.frames + 1 && r.next.receipt.frame == x.frame
            else r.next.status.frames == m.status.frames
  {
    LaunchFields(m, x.run, x.receipt);
    ReportSentFields(m);
    OfferCounts(m);
    HandedInTurn(m, x.reply, x.frame);
    hide Launch, ReportSent, Offer, Turn, RunEnds, SaysFrame;
  }

  lemma OfferCounts(m: Ideal)
    ensures Offer(m).next.status.frames == m.status.frames
  {
    OfferFields(Bound(m));
    hide OfferBound;
  }

  lemma HandedInTurn(m: Ideal, reply: A.RadioResult, frame: A.Frame)
    ensures var r := Turn(m, reply, frame);
            && r.operation != RunOp
            && if r.operation == ReceiveOp && SaysFrame(reply) then
                 r.next.status.frames == m.status.frames + 1 && r.next.receipt.frame == frame
               else r.next.status.frames == m.status.frames
  {
    hide KeepsAutoack, KeepsRaw, CloseDue;
    GoalCounts(m);
    RetireCounts(m, reply);
    StopCounts(m, reply);
    StopCounts(AsClosing(m, AckGoal), reply);
    ReceiveCounts(m, reply, frame);
    hide ReportGoal, Retire, StopRadio, Receive, SaysFrame;
  }

  lemma GoalCounts(m: Ideal)
    ensures ReportGoal(m).next.status.frames == m.status.frames
  {
    ReportGoalFields(Settle(m));
    SettleFields(m);
    hide ReportSettled, Settle;
  }

  lemma ReceiveCounts(m: Ideal, reply: A.RadioResult, frame: A.Frame)
    ensures var n := Receive(m, reply, frame).next;
            if SaysFrame(reply) then n.status.frames == m.status.frames + 1 && n.receipt.frame == frame
            else n.status.frames == m.status.frames
  {
    hide SaysFrame, SaysLost, SaysEmpty, LossIsFault;
  }

  lemma RetireCounts(m: Ideal, reply: A.RadioResult)
    ensures Retire(m, reply).next.status.frames == m.status.frames
    ensures Retire(m, reply).operation != RunOp && Retire(m, reply).operation != ReceiveOp
  {
    RetireIs(m, reply);
    FailFields(m, RADIO_ERROR);
    StopCounts(AsClosing(m, m.status.goal), reply);
    assert AsClosing(m, m.status.goal).status.frames == m.status.frames;
    assert Keep(m, true).status.frames == m.status.frames && Keep(m, m.status.normalRx).status.frames == m.status.frames;
    hide KeepsAutoack, KeepsRaw, SaysReady, StopRadio, Retire, AsClosing, Keep, Fail;
  }

  lemma StopCounts(m: Ideal, reply: A.RadioResult)
    ensures StopRadio(m, reply).next.status.frames == m.status.frames
  {
    if StopRadio(m, reply).result == WAIT {
      StopRadioFields(m, reply);
      hide StopRadio;
    } else {
      StopFails(m, reply);
      FailFields(Mark(m), RADIO_ERROR);
      MarkCounts(m);
      hide StopRadio, Mark, Fail;
    }
  }

  lemma StopFails(m: Ideal, reply: A.RadioResult)
    requires StopRadio(m, reply).result != WAIT
    ensures StopRadio(m, reply).next == Fail(Mark(m), RADIO_ERROR)
  {
    hide Mark, Fail, SaysStopped, SaysDrain;
  }

  lemma MarkCounts(m: Ideal)
    ensures Mark(m).status.frames == m.status.frames
  {
  }

  /** What a step call shows, in terms of its result. */
  lemma ObservedStep(m: Ideal, h: History, arguments: bool, x: StepIn)
    ensures var c := StepCall(arguments, x); var r := Step(m, arguments, x);
            && Apply(m, c).next == r.next
            && Observe(h, m, c) == SeenStep(m, h, x, r.next, r.operation)
  {
    hide Step, RunEnds, Handed;
    var c := StepCall(arguments, x);
    var r := Step(m, arguments, x);
    assert Apply(m, c) == Answer(r.next, r.result);
    HandedInStep(m, arguments, x);
    assert h.arrived + [] == h.arrived;
    assert Request(m, c) == Requests(r.operation, r.next.status.live, if r.operation == RunOp then x.run else x.reply);
    hide Apply, Request, Requests, Seen;
  }

  // ---------- the other calls ----------

  /** A call that only stands still or faults, with no request to the radio. */
  lemma CallIdles(m: Ideal, h: History, c: Call)
    requires Invariant(m, h) && !c.StepCall? && Request(m, c) == []
    requires var r := Apply(m, c); (r.next == m || Faulted(m, r.next)) && r.result != OK
    ensures Invariant(Apply(m, c).next, Observe(h, m, c))
  {
    var r := Apply(m, c);
    assert h.asked + [] == h.asked && h.arrived + [] == h.arrived;
    assert Reading(m, c) == r.next.status.live by { hide Apply; }
    hide Apply, Request, Reading, LogHonest, Frames;
    assert m.status.fault == OK ==> m.status.live <= h.clock;
    StandingKeeps(m, h, r.next, Observe(h, m, c));
  }

  /** A successful call other than a step, by what it moves. */
  lemma CallSucceeds(m: Ideal, h: History, c: Call, n: Ideal, k: History)
    requires !c.StepCall? && Apply(m, c) == Answer(n, OK) && Good(n, k)
    requires n.status.frames == m.status.frames && (n.status.ready ==> m.status.ready)
    requires k == h.(asked := h.asked + Request(m, c), clock := Later(h.clock, n.status.live),
                     since := if StartsEpisode(c) then |k.asked| else h.since, userEnd := k.userEnd)
    requires k.userEnd == if !c.CloseCall? then h.userEnd
                          else if c.end.At? then Until(Unwrap(m.status.live, c.end.stamp)) else Open
    ensures Invariant(Apply(m, c).next, Observe(h, m, c))
  {
    assert Reading(m, c) == n.status.live;
    assert h.arrived + [] == h.arrived;
    hide Apply, Request, Reading, Good, LogHonest, Frames, StartsEpisode, Unwrap;
    GoodInvariant(n, k);
  }

  lemma NowKeeps(m: Ideal, h: History, arguments: bool, timer: A.RadioResult, live: nat)
    requires Invariant(m, h) && h.clock <= live
    ensures var c := NowCall(arguments, timer, live); Invariant(Apply(m, c).next, Observe(h, m, c))
  {
    var c := NowCall(arguments, timer, live);
    var r := Now(m, arguments, timer, live);
    assert Apply(m, c) == r && h.asked + [] == h.asked;
    hide SaysReady, Observe, Apply;
    if r.result == OK {
      LiveMoves(m, h, live);
      CallSucceeds(m, h, c, r.next, h.(clock := live));
    } else {
      FailFields(m, RADIO_ERROR);
      hide Fail, Faulted;
      CallIdles(m, h, c);
    }
  }

  lemma ConfigureKeeps(m: Ideal, h: History, arguments: bool, config: Config, reply: A.RadioResult, timer: A.RadioResult, live: nat)
    requires Invariant(m, h) && h.clock <= live
    ensures var c := ConfigureCall(arguments, config, reply, timer, live); Invariant(Apply(m, c).next, Observe(h, m, c))
  {
    var c := ConfigureCall(arguments, config, reply, timer, live);
    var r := Configure(m, arguments, config, reply, timer, live);
    assert Apply(m, c) == r && h.asked + [] == h.asked;
    hide SaysReady, ConfigValid, Observe, Apply;
    if r.result == OK {
      LiveMoves(m, h, live);
      CallSucceeds(m, h, c, r.next, h.(clock := live));
    } else {
      FailFields(m, RADIO_ERROR);
      hide Fail, Faulted;
      CallIdles(m, h, c);
    }
  }

  lemma ConsumeKeeps(m: Ideal, h: History, token: nat)
    requires Invariant(m, h)
    ensures var c := ConsumeCall(token); Invariant(Apply(m, c).next, Observe(h, m, c))
  {
    var c := ConsumeCall(token);
    var r := Consume(m, token);
    assert Apply(m, c) == r && h.asked + [] == h.asked;
    hide Observe, Apply;
    if r.result == OK {
      Consumed(m, h, token);
      CallSucceeds(m, h, c, r.next, h);
    } else {
      CallIdles(m, h, c);
    }
  }

  lemma Consumed(m: Ideal, h: History, token: nat)
    requires Good(m, h) && Consume(m, token).result == OK
    ensures Good(Consume(m, token).next, h)
  {
    hide LogHonest, Frames;
  }

  lemma CloseKeeps(m: Ideal, h: History, end: End)
    requires Invariant(m, h)
    ensures var c := CloseCall(end); Invariant(Apply(m, c).next, Observe(h, m, c))
  {
    var c := CloseCall(end);
    var r := Close(m, end);
    assert Apply(m, c) == r && h.asked + [] == h.asked;
    hide Observe, Apply, Ahead, Unwrap;
    if r.result == OK {
      var k := h.(since := |h.asked|, userEnd := if end.At? then Until(Unwrap(m.status.live, end.stamp)) else Open);
      Closes(m, h, end, k);
      CallSucceeds(m, h, c, r.next, k);
    } else {
      CallIdles(m, h, c);
    }
  }

  lemma Closes(m: Ideal, h: History, end: End, k: History)
    requires Good(m, h) && Close(m, end).result == OK
    requires k == h.(since := |h.asked|, userEnd := if end.At? then Until(Unwrap(m.status.live, end.stamp)) else Open)
    ensures Good(Close(m, end).next, k)
  {
    hide LogHonest, Frames, Ahead, Unwrap;
  }

  lemma OpenKeeps(m: Ideal, h: History, arguments: bool, reply: A.RadioResult, timer: A.RadioResult, live: nat)
    requires Invariant(m, h) && h.clock <= live
    ensures var c := OpenCall(arguments, reply, timer, live); Invariant(Apply(m, c).next, Observe(h, m, c))
  {
    var c := OpenCall(arguments, reply, timer, live);
    var r := AdapterSpec.Open(m, arguments, reply, timer, live);
    assert Apply(m, c) == r && h.asked + [] == h.asked;
    hide SaysReady, Observe, Apply;
    if r.result == OK {
      var k := h.(since := |h.asked|, clock := live);
      Opens(m, h, r.next, k);
      CallSucceeds(m, h, c, r.next, k);
    } else {
      OpenFails(m, arguments, reply, timer, live);
      hide AdapterSpec.Open, Faulted;
      CallIdles(m, h, c);
    }
  }

  lemma OpenFails(m: Ideal, arguments: bool, reply: A.RadioResult, timer: A.RadioResult, live: nat)
    requires AdapterSpec.Open(m, arguments, reply, timer, live).result != OK
    ensures var r := AdapterSpec.Open(m, arguments, reply, timer, live); r.next == m || Faulted(m, r.next)
  {
    FailFields(m, RADIO_ERROR);
    var n := m.(settled := false, status := m.status.(phase := Rx, normalRx := true, stopStarted := false,
                                                      waitThrough := false, lossy := false));
    FailFields(n, RADIO_ERROR);
    OpenStill(m, n);
    hide SaysReady, Fail, Faulted, IdleOff;
  }

  lemma OpenStill(m: Ideal, n: Ideal)
    requires Faulted(n, Fail(n, RADIO_ERROR))
    requires n == m.(settled := n.settled, status := m.status.(phase := n.status.phase, normalRx := n.status.normalRx,
                     stopStarted := n.status.stopStarted, waitThrough := n.status.waitThrough, lossy := n.status.lossy))
    ensures Faulted(m, Fail(n, RADIO_ERROR))
  {
    hide Fail;
  }

  lemma Opens(m: Ideal, h: History, n: Ideal, k: History)
    requires Good(m, h) && IdleOff(m) && h.clock <= k.clock
    requires n == m.(settled := false, status := m.status.(phase := Rx, normalRx := true, stopStarted := false,
                                                           waitThrough := false, lossy := false, live := k.clock))
    requires k == h.(since := |h.asked|, clock := k.clock)
    ensures Good(n, k)
  {
    hide LogHonest, Frames;
  }

  lemma InitKeeps(m: Ideal, h: History, arguments: bool, config: Config, reply: A.RadioResult, timer: A.RadioResult, live: nat)
    requires Invariant(m, h) && h.clock <= live
    ensures var c := InitCall(arguments, config, reply, timer, live); Invariant(Apply(m, c).next, Observe(h, m, c))
  {
    var c := InitCall(arguments, config, reply, timer, live);
    var r := Init(m, arguments, config, reply, timer, live);
    assert Apply(m, c) == r && h.asked + [] == h.asked;
    hide SaysReady, ConfigValid, Observe, Apply;
    if r.result == OK {
      CallSucceeds(m, h, c, r.next, EMPTY_HISTORY.(clock := live));
    } else {
      FailFields(m, RADIO_ERROR);
      CallIdles(m, h, c);
    }
  }

  lemma PrepareKeeps(m: Ideal, h: History, arguments: bool, tx: Tx, policy: Policy, body: seq<byte>, reply: A.RadioResult)
    requires Invariant(m, h)
    ensures var c := PrepareCall(arguments, tx, policy, body, reply); Invariant(Apply(m, c).next, Observe(h, m, c))
  {
    var c := PrepareCall(arguments, tx, policy, body, reply);
    var r := Prepare(m, arguments, tx, policy, body, reply);
    assert Apply(m, c) == r && h.asked + [] == h.asked;
    hide SaysReady, Observe, Apply;
    if r.result == OK {
      var k := h.(since := |h.asked|);
      Prepares(m, h, arguments, tx, policy, body, reply, k);
      CallSucceeds(m, h, c, r.next, k);
    } else {
      CallIdles(m, h, c);
    }
  }

  lemma Prepares(m: Ideal, h: History, arguments: bool, tx: Tx, policy: Policy, body: seq<byte>, reply: A.RadioResult, k: History)
    requires Good(m, h) && Prepare(m, arguments, tx, policy, body, reply).result == OK && k == h.(since := |h.asked|)
    ensures Good(Prepare(m, arguments, tx, policy, body, reply).next, k)
  {
    hide LogHonest, Frames, SaysReady;
  }

  lemma UnprepareKeeps(m: Ideal, h: History, arguments: bool, tx: Tx, reply: A.RadioResult)
    requires Invariant(m, h)
    ensures var c := UnprepareCall(arguments, tx, reply); Invariant(Apply(m, c).next, Observe(h, m, c))
  {
    var c := UnprepareCall(arguments, tx, reply);
    var r := Unprepare(m, arguments, tx, reply);
    assert Apply(m, c) == r && h.asked + [] == h.asked;
    assert Request(m, c) == if r.result == OK then [Asked(StopOp, m.status.live, reply)] else [];
    hide SaysStopped, Observe, Apply, Request;
    if r.result == OK {
      var a := Asked(StopOp, m.status.live, reply);
      var k := h.(asked := h.asked + [a], since := |h.asked| + 1);
      Unprepares(m, h, r.next, k, a);
      hide Unprepare, Good;
      CallSucceeds(m, h, c, r.next, k);
    } else {
      FailFields(m, RADIO_ERROR);
      hide Fail, Faulted;
      CallIdles(m, h, c);
    }
  }

  lemma Unprepares(m: Ideal, h: History, n: Ideal, k: History, a: Asked)
    requires Good(m, h) && m.status.phase == Prepared && n == m.(status := m.status.(phase := Off)) && !m.status.ready
    requires a.operation == StopOp && SaysStopped(a.reply) && k == h.(asked := h.asked + [a], since := |h.asked| + 1)
    ensures Good(n, k) && n.status.live <= h.clock && n.status.frames == m.status.frames
  {
    hide LogHonest, Frames, SaysStopped;
  }

  lemma AcceptKeeps(m: Ideal, h: History, tx: Tx, action: Action)
    requires Invariant(m, h)
    ensures var c := AcceptCall(tx, action); Invariant(Apply(m, c).next, Observe(h, m, c))
  {
    var c := AcceptCall(tx, action);
    var r := Accept(m, tx, action);
    assert Apply(m, c) == r && h.asked + [] == h.asked;
    AcceptIs(m, tx, action);
    hide Accept, Observe, Apply, AsRequested;
    if r.result == OK {
      Accepts(m, h, r.next, AsRequested(m.status.live, action));
      hide Good, Accepted;
      CallSucceeds(m, h, c, r.next, h);
    } else {
      CallIdles(m, h, c);
    }
  }

  /** The three machines an accepted action can leave. */
  predicate Accepted(m: Ideal, n: Ideal, q: Requested) {
    || (m.status.phase == Prepared && n == AsScheduled(m, q))
    || (m.status.phase == WaitMac && m.status.transmitted && n == AsCollecting(m))
    || (m.status.phase != Rx && m.status.phase != Cold && m.status.phase != Retiring && n == AsRetiring(m, q))
  }

  lemma AcceptIs(m: Ideal, tx: Tx, action: Action)
    ensures var r := Accept(m, tx, action);
            if r.result == OK then m.status.fault == OK && !m.status.ready && Accepted(m, r.next, AsRequested(m.status.live, action))
            else r.next == m
  {
    hide AsRequested, StampOf, AsScheduled, AsCollecting, AsRetiring;
  }

  lemma Accepts(m: Ideal, h: History, n: Ideal, q: Requested)
    requires Good(m, h) && !m.status.ready && Accepted(m, n, q)
    ensures Good(n, h) && n.status.live <= h.clock && n.status.frames == m.status.frames && !n.status.ready
  {
    if m.status.phase == Prepared && n == AsScheduled(m, q) {
      Schedules(m, h, q);
    } else if m.status.phase == WaitMac && n == AsCollecting(m) {
      Collects(m, h);
    } else {
      Quiesces(m, h, q);
    }
    hide Good;
  }

  lemma Schedules(m: Ideal, h: History, q: Requested)
    requires Good(m, h) && !m.status.ready && m.status.phase == Prepared
    ensures Good(AsScheduled(m, q), h) && m.status.live <= h.clock
  {
    hide LogHonest, Frames;
  }

  lemma Collects(m: Ideal, h: History)
    requires Good(m, h) && !m.status.ready && m.status.phase == WaitMac && m.status.transmitted
    ensures Good(AsCollecting(m), h) && m.status.live <= h.clock
  {
    hide LogHonest, Frames;
  }

  lemma Quiesces(m: Ideal, h: History, q: Requested)
    requires Good(m, h) && !m.status.ready && m.status.phase != Rx && m.status.phase != Cold && m.status.phase != Retiring
    ensures Good(AsRetiring(m, q), h) && m.status.live <= h.clock
  {
    hide LogHonest, Frames;
  }

  /** Any call keeps the invariant, whatever the caller, the engine and the radio do. */
  lemma CallKeeps(m: Ideal, h: History, c: Call)
    requires Invariant(m, h) && Monotone(h, m, c)
    ensures Invariant(Apply(m, c).next, Observe(h, m, c))
  {
    match c
    case InitCall(arguments, config, reply, timer, live) => InitKeeps(m, h, arguments, config, reply, timer, live);
    case NowCall(arguments, timer, live) => NowKeeps(m, h, arguments, timer, live);
    case PrepareCall(arguments, tx, policy, body, reply) => PrepareKeeps(m, h, arguments, tx, policy, body, reply);
    case UnprepareCall(arguments, tx, reply) => UnprepareKeeps(m, h, arguments, tx, reply);
    case AcceptCall(tx, action) => AcceptKeeps(m, h, tx, action);
    case CloseCall(end) => CloseKeeps(m, h, end);
    case StepCall(arguments, x) => StepKeeps(m, h, arguments, x);
    case ConsumeCall(token) => ConsumeKeeps(m, h, token);
    case ConfigureCall(arguments, config, reply, timer, live) => ConfigureKeeps(m, h, arguments, config, reply, timer, live);
    case OpenCall(arguments, reply, timer, live) => OpenKeeps(m, h, arguments, reply, timer, live);
  }
}
