/**
 What the adapter's events say, field by field and in terms of the calls of a run: which transmission a sent interval, an
 acknowledgement or a closure is about, and when a received frame counts as its acknowledgement.
 */
module AdapterEvents {
  import opened Bytes
  import opened Words
  import A = MacAttempt
  import MacFrame
  import opened AdapterSpec
  import opened AdapterSafety
  import opened AdapterTheorems

  // ---------- a frame offered ----------

  /** A MAC acknowledgement whose checksum the radio found good: the CRC bit, three octets on the air, frame type 2. */
  predicate ValidAck(f: A.Frame) {
    f.correlation & 0x80 != 0 && f.length == 3 && f.body != [] && MacFrame.ControlHeader(f.body[0], 0, 0).kind == MacFrame.ACK
  }

  lemma AckType(b: byte)
    ensures MacFrame.ControlHeader(b, 0, 0).kind == MacFrame.ACK <==> b & 7 == 2
  {
    hide MacFrame.Widen;
  }

  /** What the event of a step is, whatever the phase: the slot, the instant of the report, the running numbers. */
  predicate Stamped(m: Ideal, live: nat, o: Observation) {
    && o.generation == m.status.generation && o.retry == m.status.retry && o.nb == m.status.nb
    && o.stamp == Sym(live) && o.through == m.status.watermark && o.token == m.status.deliveries + 1
    && o.serial == m.status.frames && o.normalRx == m.status.normalRx && o.lossy == m.status.lossy
  }

  /** A received frame is offered as an acknowledgement exactly while one is collected and if it is a valid one. */
  predicate Offered(m: Ideal, o: Observation, upper: nat) {
    && o.kind == RxEvent && o.lower == m.receipt.txLower && o.upper == upper
    && o.source == if m.status.phase == Collect && ValidAck(m.receipt.frame) then AckInterval else NoSource
  }

  /** A goal is reported by its own source and between its own bounds. */
  predicate Concluded(m: Ideal, o: Observation, settled: nat) {
    match m.status.goal
    case BusyGoal => o.kind == TxEvent && o.source == BusyInterval && o.lower == m.began + 8 * 512 && o.upper == m.receipt.armed
    case AckGoal => o.kind == TxEvent && o.source == RxClosed && o.lower == 0 && o.upper == m.status.watermark
    case RetireGoal => o.kind == TxEvent && o.source == Retired && o.lower == 0 && o.upper == settled
    case _ => o.kind == ClosedEvent && o.source == NoSource && o.lower == 0 && o.upper == settled
  }

  /** Every event a step publishes, by the state it is published in; none comes before the bound it reports. */
  predicate Published(m: Ideal, live: nat, n: Ideal) {
    var o := n.observation;
    && Stamped(m, live, o) && n.receipt.frame == m.receipt.frame
    && if m.status.phase == Report then
         o.kind == TxEvent && o.source == SentInterval && m.status.transmitted
         && o.lower == m.receipt.txLower && o.upper == m.receipt.txUpper && Ceil(o.upper) <= Sym(live)
       else if m.status.held then
         var upper := if m.status.boundValid then m.receipt.rxUpper else live;
         Offered(m, o, upper) && Ceil(upper) <= Sym(live)
       else
         var settled := if m.settled then m.retired else live;
         && ((m.status.phase == Rx && m.status.goal == RetireGoal) || (m.status.phase == Off && m.status.goal != NoGoal))
         && Concluded(m, o, settled) && Ceil(settled) <= Sym(live)
  }

  lemma SentPublished(m: Ideal)
    requires ReportSent(m).result == EVENT && m.status.phase == Report
    ensures Published(m, m.status.live, ReportSent(m).next)
  {
    hide Ceil, Sym;
  }

  lemma FramePublished(m: Ideal)
    requires Offer(m).result == EVENT && m.status.held && m.status.phase != Report
    ensures Published(m, m.status.live, Offer(m).next)
  {
    if m.receipt.frame.body != [] {
      AckType(m.receipt.frame.body[0]);
    }
    hide Ceil, Sym, MacFrame.ControlHeader;
  }

  lemma GoalPublished(m: Ideal)
    requires ReportGoal(m).result == EVENT && !m.status.held
    requires (m.status.phase == Rx && m.status.goal == RetireGoal) || (m.status.phase == Off && m.status.goal != NoGoal)
    ensures Published(m, m.status.live, ReportGoal(m).next)
  {
    hide Ceil, Sym;
  }

  lemma TurnPublishes(m: Ideal, reply: A.RadioResult, frame: A.Frame)
    requires !m.status.held && m.status.phase != Report && Turn(m, reply, frame).result == EVENT
    ensures Published(m, m.status.live, Turn(m, reply, frame).next)
  {
    if Reportable(m) && ReportGoal(m).result == EVENT {
      GoalPublished(m);
    }
    StopsQuietly(m, reply, frame);
    hide ReportGoal, Retire, StopRadio, Receive, Published;
  }

  lemma StopsQuietly(m: Ideal, reply: A.RadioResult, frame: A.Frame)
    ensures Retire(m, reply).result != EVENT && Receive(m, reply, frame).result != EVENT
    ensures StopRadio(m, reply).result != EVENT && StopRadio(AsClosing(m, AckGoal), reply).result != EVENT
  {
    hide SaysFrame, SaysLost, SaysEmpty, SaysStopped, SaysDrain, SaysReady, LossIsFault, KeepsAutoack, KeepsRaw;
  }

  /** A step that publishes. */
  predicate Publishes(m: Ideal, arguments: bool, x: StepIn) {
    m.status.fault == OK && !m.status.ready && Step(m, arguments, x).result == EVENT
  }

  lemma StepPublishes(m: Ideal, arguments: bool, x: StepIn)
    requires Publishes(m, arguments, x)
    ensures Samples(m, arguments, x) && Published(m, x.live, Step(m, arguments, x).next)
  {
    if Samples(m, arguments, x) {
      StepIsAct(m, arguments, x);
      ActPublishes(Sampled(m, x.live), x);
      SampledPublished(m, x.live, Step(m, arguments, x).next);
    } else {
      StepIdles(m, arguments, x);
      IdlesQuietly(m, arguments, x);
    }
    hide Step, Act, Published;
  }

  lemma SampledPublished(m: Ideal, live: nat, n: Ideal)
    ensures Published(Sampled(m, live), live, n) == Published(m, live, n)
  {
    hide Ceil, Sym, ValidAck;
  }

  lemma IdlesQuietly(m: Ideal, arguments: bool, x: StepIn)
    requires !Samples(m, arguments, x) && m.status.fault == OK && !m.status.ready
    ensures Step(m, arguments, x).result != EVENT
  {
    hide Act, SaysReady, Fail;
  }

  lemma ActPublishes(m: Ideal, x: StepIn)
    requires Act(m, x).result == EVENT
    ensures Published(m, m.status.live, Act(m, x).next)
  {
    if m.status.phase == Scheduled {
      hide RunEnds, SaysBusy, Published;
    } else if m.status.phase == Report {
      SentPublished(m);
      hide ReportSent, Published;
    } else if m.status.phase == WaitMac || m.status.phase == Prepared {
    } else if m.status.held {
      FramePublished(m);
      hide Offer, Published;
    } else {
      TurnPublishes(m, x.reply, x.frame);
      hide Turn, Published;
    }
  }

  // ---------- whose transmission it is ----------

  /** A transmission has ended and its slot is not given up: its report is due, published or consumed. */
  predicate Sends(m: Ideal) {
    || m.status.phase == Report || m.status.phase == WaitMac || m.status.phase == Collect
    || (m.status.ready && m.observation.source == SentInterval)
  }

  /** The adapter is doing, closing or retiring some engine's work. */
  predicate InUse(m: Ideal) {
    || Sends(m) || m.status.phase == Prepared || m.status.phase == Scheduled || m.status.phase == Retiring
    || m.status.goal == BusyGoal || m.status.goal == AckGoal || m.status.goal == RetireGoal
  }

  /** Neither the slot nor a sent transmission's bounds change, and no work begins. */
  predicate Carries(m: Ideal, n: Ideal) {
    && n.status.generation == m.status.generation && n.status.retry == m.status.retry && n.status.nb == m.status.nb
    && n.owner == m.owner && (InUse(n) ==> InUse(m)) && (Sends(n) ==> Sends(m) && SameSending(m, n))
  }

  predicate SameSending(m: Ideal, n: Ideal) {
    && n.receipt.txLower == m.receipt.txLower && n.receipt.txUpper == m.receipt.txUpper
    && n.status.transmitted == m.status.transmitted
    && (n.status.phase == Collect ==> m.status.phase == Collect || m.status.transmitted)
  }

  lemma PublishCarries(m: Ideal, kind: Kind, source: Source, lower: nat, upper: nat, why: Result)
    ensures source != SentInterval || Sends(m) ==> Carries(m, Publish(m, kind, source, lower, upper))
    ensures Carries(m, Fail(m, why))
  {
  }

  lemma OfferCarries(m: Ideal)
    ensures Carries(m, Offer(m).next)
  {
    BoundCarries(m);
    OfferBoundCarries(Bound(m));
    hide OfferBound, Bound;
  }

  lemma OfferBoundCarries(b: Ideal)
    ensures Carries(b, OfferBound(b).next)
  {
    hide Fail, IsAck, Ceil, Sym, Publish, Carries;
    PublishCarries(b, RxEvent, AckInterval, b.receipt.txLower, b.receipt.rxUpper, EXHAUSTED);
    PublishCarries(b, RxEvent, NoSource, b.receipt.txLower, b.receipt.rxUpper, EXHAUSTED);
    WaitCarries(b);
  }

  lemma WaitCarries(b: Ideal)
    ensures Carries(b, b)
  {
  }

  lemma BoundCarries(m: Ideal)
    ensures Carries(m, Bound(m))
  {
  }

  lemma SentCarries(m: Ideal)
    requires m.status.phase == Report
    ensures Carries(m, ReportSent(m).next)
  {
    PublishCarries(m, TxEvent, SentInterval, m.receipt.txLower, m.receipt.txUpper, EXHAUSTED);
    PublishCarries(m, TxEvent, SentInterval, m.receipt.txLower, m.receipt.txUpper, PROTOCOL_ERROR);
    WaitCarries(m);
    hide Publish, Fail, Ceil, Sym, Carries;
  }

  lemma SettleCarries(m: Ideal)
    ensures Carries(m, Settle(m))
  {
  }

  lemma GoalCarries(m: Ideal)
    ensures Carries(m, ReportGoal(m).next)
  {
    var b := Settle(m);
    SettleCarries(m);
    var source := GoalSource(b.status.goal);
    PublishCarries(b, if source == NoSource then ClosedEvent else TxEvent, source, GoalLower(b, source), GoalUpper(b, source), EXHAUSTED);
    hide Publish, Fail, Settle, GoalLower, GoalUpper, Ceil, Sym;
  }

  lemma MarkCarries(m: Ideal)
    ensures Carries(m, Mark(m)) && Mark(m).status.goal == m.status.goal
  {
  }

  lemma OffCarries(m: Ideal)
    ensures Carries(m, m.(settled := false, status := m.status.(phase := Off)))
    ensures Carries(m, m.(status := m.status.(phase := Draining)))
  {
  }

  lemma StopCarries(m: Ideal, reply: A.RadioResult)
    ensures Carries(m, StopRadio(m, reply).next)
  {
    MarkCarries(m);
    OffCarries(Mark(m));
    PublishCarries(Mark(m), NoKind, NoSource, 0, 0, RADIO_ERROR);
    hide Mark, Publish, Fail, SaysStopped, SaysDrain;
  }

  lemma HeldCarries(m: Ideal, frame: A.Frame)
    ensures Carries(m, Held(m, frame))
  {
  }

  lemma QuietCarries(m: Ideal, lost: bool)
    ensures Carries(m, Quiet(m, lost))
  {
    LossyCarries(m, m.status.lossy || lost);
    if m.status.phase == Draining {
      DrainedCarries(m, m.status.lossy || lost);
    }
    hide Carries;
  }

  lemma LossyCarries(m: Ideal, lossy: bool)
    ensures Carries(m, m.(status := m.status.(lossy := lossy)))
  {
  }

  lemma DrainedCarries(m: Ideal, lossy: bool)
    requires m.status.phase == Draining
    ensures Carries(m, m.(status := m.status.(lossy := lossy).(phase := Closing, waitThrough := false)))
  {
  }

  lemma ReceiveCarries(m: Ideal, reply: A.RadioResult, frame: A.Frame)
    ensures Carries(m, Receive(m, reply, frame).next)
  {
    HeldCarries(m, frame);
    QuietCarries(m, SaysLost(reply));
    PublishCarries(m, NoKind, NoSource, 0, 0, RADIO_ERROR);
    hide SaysFrame, SaysLost, SaysEmpty, LossIsFault, Held, Quiet, Publish, Fail, Carries;
  }

  lemma KeepCarries(m: Ideal, normal: bool)
    requires m.status.phase == Retiring
    ensures Carries(m, Keep(m, normal)) && Carries(m, AsClosing(m, m.status.goal))
  {
  }

  lemma RetireCarries(m: Ideal, reply: A.RadioResult)
    requires m.status.phase == Retiring
    ensures Carries(m, Retire(m, reply).next)
  {
    var c := AsClosing(m, m.status.goal);
    KeepCarries(m, true);
    KeepCarries(m, m.status.normalRx);
    StopCarries(c, reply);
    PublishCarries(m, NoKind, NoSource, 0, 0, RADIO_ERROR);
    hide StopRadio, AsClosing, KeepsAutoack, KeepsRaw, SaysReady, Keep, Publish, Fail;
  }

  lemma CollectCarries(m: Ideal, reply: A.RadioResult)
    requires m.status.phase == Collect
    ensures Carries(m, StopRadio(AsClosing(m, AckGoal), reply).next)
  {
    StopCarries(AsClosing(m, AckGoal), reply);
    hide StopRadio;
  }

  lemma TurnCarries(m: Ideal, reply: A.RadioResult, frame: A.Frame)
    ensures Carries(m, Turn(m, reply, frame).next)
  {
    hide Retire, ReportGoal, StopRadio, AsClosing, Receive, CloseDue, Carries;
    if m.status.phase == Retiring {
      RetireCarries(m, reply);
    }
    GoalCarries(m);
    StopCarries(m, reply);
    if m.status.phase == Collect {
      CollectCarries(m, reply);
    }
    ReceiveCarries(m, reply, frame);
    WaitCarries(m);
  }

  /** An attempt that ends leaves its own receipt: its bounds are what the machine then reports. */
  predicate Ended(m: Ideal, n: Ideal, receipt: Receipt) {
    && n.status.generation == m.status.generation && n.status.retry == m.status.retry && n.status.nb == m.status.nb
    && n.owner == m.owner && InUse(m)
    && (Sends(n) ==> n.receipt == receipt && n.status.transmitted == receipt.transmitted && n.status.phase == Report)
  }

  lemma LaunchCarries(m: Ideal, run: A.RadioResult, receipt: Receipt)
    requires m.status.phase == Scheduled && !m.status.ready
    ensures var r := Launch(m, run, receipt);
            if r.operation == RunOp && RunEnds(run) then Ended(m, r.next, receipt) else Carries(m, r.next)
    ensures Launch(m, run, receipt).operation == RunOp && !RunEnds(run) ==> !Sends(Launch(m, run, receipt).next)
  {
    hide RunEnds, SaysBusy, Sym;
  }

  lemma ActCarries(m: Ideal, x: StepIn)
    requires !m.status.ready
    ensures var r := Act(m, x);
            if r.operation == RunOp && RunEnds(x.run) then Ended(m, r.next, x.receipt) else Carries(m, r.next)
    ensures Act(m, x).operation == RunOp && !RunEnds(x.run) ==> !Sends(Act(m, x).next)
  {
    if m.status.phase == Scheduled {
      LaunchCarries(m, x.run, x.receipt);
    } else if m.status.phase == Report {
      SentCarries(m);
    } else {
      OfferCarries(m);
      TurnCarries(m, x.reply, x.frame);
      TurnNeverRuns(m, x.reply, x.frame);
    }
    hide Launch, ReportSent, Offer, Turn, RunEnds, Ended;
  }

  lemma SampledCarries(m: Ideal, live: nat, n: Ideal, receipt: Receipt)
    ensures Carries(Sampled(m, live), n) == Carries(m, n)
    ensures Ended(Sampled(m, live), n, receipt) == Ended(m, n, receipt)
  {
  }

  lemma StepCarries(m: Ideal, arguments: bool, x: StepIn)
    ensures var r := Step(m, arguments, x);
            if r.operation == RunOp && RunEnds(x.run) then Ended(m, r.next, x.receipt) else Carries(m, r.next)
    ensures Step(m, arguments, x).operation == RunOp && !RunEnds(x.run) ==> !Sends(Step(m, arguments, x).next)
  {
    if Samples(m, arguments, x) {
      StepIsAct(m, arguments, x);
      ActCarries(Sampled(m, x.live), x);
      SampledCarries(m, x.live, Step(m, arguments, x).next, x.receipt);
    } else {
      StepIdles(m, arguments, x);
      IdleCarries(m);
    }
    hide Step, Act, RunEnds, Ended, Carries;
  }

  lemma IdleCarries(m: Ideal)
    ensures Carries(m, m) && forall why :: Carries(m, Fail(m, why))
  {
  }

  lemma SampleCarries(m: Ideal, timer: A.RadioResult, live: nat)
    ensures Carries(m, Sample(m, timer, live).next)
  {
    IdleCarries(m);
    hide SaysReady, Fail;
  }

  lemma OpenCarries(m: Ideal, arguments: bool, reply: A.RadioResult, timer: A.RadioResult, live: nat)
    ensures Carries(m, AdapterSpec.Open(m, arguments, reply, timer, live).next)
  {
    IdleCarries(m);
    if IdleOff(m) {
      OpenedCarries(m);
      SampleCarries(Opened(m), timer, live);
    }
    hide Sample, Opened, SaysReady, Fail;
  }

  lemma OpenedCarries(m: Ideal)
    requires IdleOff(m)
    ensures Carries(m, Opened(m))
  {
  }

  lemma NowCarries(m: Ideal, arguments: bool, timer: A.RadioResult, live: nat)
    ensures Carries(m, Now(m, arguments, timer, live).next)
  {
    IdleCarries(m);
    SampleCarries(m, timer, live);
    hide Sample;
  }

  lemma ConfigureCarries(m: Ideal, arguments: bool, c: Config, reply: A.RadioResult, timer: A.RadioResult, live: nat)
    ensures Carries(m, Configure(m, arguments, c, reply, timer, live).next)
  {
    IdleCarries(m);
    SampleCarries(m, timer, live);
    hide Sample, ConfigValid, SaysReady, IdleOff, Fail;
  }

  lemma CloseCarries(m: Ideal, end: End)
    ensures Carries(m, Close(m, end).next)
  {
    hide Ahead, Unwrap;
  }

  lemma ConsumeCarries(m: Ideal, token: nat)
    ensures Carries(m, Consume(m, token).next)
  {
  }

  lemma UnprepareCarries(m: Ideal, arguments: bool, tx: Tx, reply: A.RadioResult)
    ensures Carries(m, Unprepare(m, arguments, tx, reply).next)
  {
    IdleCarries(m);
    hide SaysStopped, Fail;
  }

  lemma AcceptCarries(m: Ideal, tx: Tx, a: Action)
    ensures var n := Accept(m, tx, a).next; Carries(m, n) || (m.owner == Owned(tx.id) && SameSlot(m, n) && !Sends(n))
  {
    hide MayAttempt, MayCollect, MayQuiesce, Carries, AsScheduled, AsCollecting, AsRetiring, SameSlot, Sends;
    WaitCarries(m);
    if !m.status.ready {
      ScheduledSlot(m, AsRequested(m.status.live, a));
    }
    if MayCollect(m, tx, a) {
      CollectingCarries(m, tx, a);
    }
  }

  lemma ScheduledSlot(m: Ideal, q: Requested)
    requires !m.status.ready
    ensures SameSlot(m, AsScheduled(m, q)) && !Sends(AsScheduled(m, q))
    ensures SameSlot(m, AsRetiring(m, q)) && !Sends(AsRetiring(m, q))
  {
  }

  lemma CollectingCarries(m: Ideal, tx: Tx, a: Action)
    requires MayCollect(m, tx, a)
    ensures Carries(m, AsCollecting(m))
  {
    hide StampOf;
  }

  /** The slot and its owner stay, whatever work begins in it. */
  predicate SameSlot(m: Ideal, n: Ideal) {
    && n.status.generation == m.status.generation && n.status.retry == m.status.retry && n.status.nb == m.status.nb
    && n.owner == m.owner
  }

  /** An initialisation leaves the machine as it is, or an idle one that nobody owns. */
  lemma InitCarries(m: Ideal, arguments: bool, c: Config, reply: A.RadioResult, timer: A.RadioResult, live: nat)
    ensures var n := Init(m, arguments, c, reply, timer, live).next; n == m || (n.owner == Nobody && !InUse(n))
  {
    InitIdles(m, timer, live);
    hide SaysReady, ConfigValid, Cleared, Sample, Opened;
  }

  lemma InitIdles(m: Ideal, timer: A.RadioResult, live: nat)
    ensures var n := Sample(Opened(Cleared(m)), timer, live).next; n.owner == Nobody && !InUse(n)
    ensures var n := Fail(Cleared(m), RADIO_ERROR); n.owner == Nobody && !InUse(n)
  {
    hide SaysReady;
  }

  /** The call is an accepted request to prepare. */
  predicate Prepares(m: Ideal, c: Call) {
    c.PrepareCall? && Prepare(m, c.arguments, c.tx, c.policy, c.body, c.reply).result == OK
  }

  /** The slot is exactly the engine's: its identity, its generation and its two counters. */
  predicate SlotOf(m: Ideal, tx: Tx) {
    m.owner == Owned(tx.id) && m.status.generation == tx.generation && m.status.retry == tx.retries && m.status.nb == tx.nb
  }

  lemma PrepareCarries(m: Ideal, c: Call)
    requires c.PrepareCall?
    ensures var n := Prepare(m, c.arguments, c.tx, c.policy, c.body, c.reply).next;
            if Prepares(m, c) then SlotOf(n, c.tx) && !Sends(n) else Carries(m, n)
  {
    hide SaysReady, Carries, SlotOf, Sends, Fail, Slotted, Loaded;
    WaitCarries(m);
    IdleCarries(m);
    if MayPrepare(m, c.tx, c.policy) {
      LoadedCarries(m, c.tx.length, c.body);
      SlottedCarries(Loaded(m, c.tx.length, c.body), c.tx, c.policy);
    }
    hide MayPrepare;
  }

  lemma LoadedCarries(m: Ideal, length: nat, body: seq<byte>)
    ensures Carries(m, Fail(Loaded(m, length, body), RADIO_ERROR))
    ensures Loaded(m, length, body).status.ready == m.status.ready
  {
  }

  lemma SlottedCarries(m: Ideal, tx: Tx, policy: Policy)
    requires !m.status.ready
    ensures SlotOf(Slotted(m, tx, policy), tx) && !Sends(Slotted(m, tx, policy))
  {
  }

  // ---------- over whole runs ----------

  /** What one call does to the transmission on its way: the call launches one, or keeps the one there is. */
  lemma SendsBy(m: Ideal, c: Call)
    requires Sends(Apply(m, c).next)
    ensures var n := Apply(m, c).next;
            if Launches(m, c) then RunEnds(c.x.run) && Ended(m, n, c.x.receipt) else Sends(m) && SameSending(m, n)
  {
    hide Step, Init, Prepare, Accept, Close, Consume, Now, Configure, AdapterSpec.Open, Unprepare, Ended, RunEnds, SameSlot, SlotOf;
    ByCall(m, c);
    if c.InitCall? {
      hide Sends;
      WaitCarries(m);
    }
  }

  /** Every call but an attempt, a preparation, an initialisation and the start of an engine's work carries slot and sending on. */
  lemma ByCall(m: Ideal, c: Call)
    ensures var n := Apply(m, c).next;
            match c
            case StepCall(arguments, x) =>
              (if Launches(m, c) && RunEnds(x.run) then Ended(m, n, x.receipt) else Carries(m, n))
              && (Launches(m, c) && !RunEnds(x.run) ==> !Sends(n))
            case InitCall(_, _, _, _, _) => n == m || (n.owner == Nobody && !InUse(n))
            case PrepareCall(_, tx, _, _, _) => if Prepares(m, c) then SlotOf(n, tx) && !Sends(n) else Carries(m, n)
            case AcceptCall(tx, _) => Carries(m, n) || (m.owner == Owned(tx.id) && SameSlot(m, n) && !Sends(n))
            case _ => Carries(m, n)
  {
    hide Step, Init, Prepare, Accept, Close, Consume, Now, Configure, AdapterSpec.Open, Unprepare, Ended, Carries, RunEnds, SlotOf, Sends,
         InUse, SameSlot, Prepares;
    match c
    case StepCall(arguments, x) => StepCarries(m, arguments, x);
    case InitCall(arguments, config, reply, timer, live) => InitCarries(m, arguments, config, reply, timer, live);
    case NowCall(arguments, timer, live) => NowCarries(m, arguments, timer, live);
    case PrepareCall(arguments, tx, policy, body, reply) => PrepareCarries(m, c);
    case UnprepareCall(arguments, tx, reply) => UnprepareCarries(m, arguments, tx, reply);
    case AcceptCall(tx, action) => AcceptCarries(m, tx, action);
    case CloseCall(end) => CloseCarries(m, end);
    case ConsumeCall(token) => ConsumeCarries(m, token);
    case ConfigureCall(arguments, config, reply, timer, live) => ConfigureCarries(m, arguments, config, reply, timer, live);
    case OpenCall(arguments, reply, timer, live) => OpenCarries(m, arguments, reply, timer, live);
  }

  /** The machine's bounds and its transmitted flag are those of an attempt's receipt, and it collects only what was sent. */
  predicate Sent(m: Ideal, receipt: Receipt) {
    && m.receipt.txLower == receipt.txLower && m.receipt.txUpper == receipt.txUpper
    && m.status.transmitted == receipt.transmitted && (m.status.phase == Collect ==> receipt.transmitted)
  }

  /** The last attempt of a run, which the radio ended with a receipt. */
  predicate LaunchedLast(calls: seq<Call>, j: nat) {
    && j < |calls| && Launches(After(calls[..j]), calls[j]) && RunEnds(calls[j].x.run)
    && forall k :: j < k < |calls| ==> !Launches(After(calls[..k]), calls[k])
  }

  lemma StillLaunched(before: seq<Call>, c: Call, j: nat)
    requires LaunchedLast(before, j) && !Launches(After(before), c)
    ensures LaunchedLast(before + [c], j) && (before + [c])[j] == before[j]
  {
    hide After, Launches;
    var calls := before + [c];
    assert forall k :: 0 <= k < |before| ==> calls[..k] == before[..k];
    assert calls[..|before|] == before;
  }

  lemma NowLaunched(before: seq<Call>, c: Call)
    requires Launches(After(before), c) && RunEnds(c.x.run)
    ensures LaunchedLast(before + [c], |before|)
  {
    hide After, Step;
    assert (before + [c])[..|before|] == before;
  }

  lemma IsStep(calls: seq<Call>, j: nat)
    requires LaunchedLast(calls, j)
    ensures j < |calls| && calls[j].StepCall?
  {
    hide After, Step;
  }

  /** A transmission on its way was launched by an earlier step of the run, and the radio's receipt of that attempt is what it shows. */
  lemma {:induction false} SentBy(calls: seq<Call>) returns (j: nat)
    requires Sends(After(calls))
    ensures LaunchedLast(calls, j) && Sent(After(calls), calls[j].x.receipt)
    decreases |calls|
  {
    if calls == [] {
      assert false;
    }
    hide Apply, Observe, Launches, RunEnds, Run, LaunchedLast, Sends;
    var n := |calls| - 1;
    var before, c := calls[..n], calls[n];
    assert calls == before + [c];
    RunOneMore(Blank(), EMPTY_HISTORY, before, c);
    SendsBy(After(before), c);
    j := n;
    if Launches(After(before), c) {
      NowLaunched(before, c);
    } else {
      j := SentBy(before);
      IsStep(before, j);
      StillLaunched(before, c, j);
    }
  }

  /** The last accepted preparation of a run. */
  predicate PreparedLast(calls: seq<Call>, j: nat) {
    && j < |calls| && Prepares(After(calls[..j]), calls[j])
    && forall k :: j < k < |calls| ==> !Prepares(After(calls[..k]), calls[k])
  }

  lemma StillLast(before: seq<Call>, c: Call, j: nat)
    requires PreparedLast(before, j) && !Prepares(After(before), c)
    ensures PreparedLast(before + [c], j) && (before + [c])[j] == before[j]
  {
    hide After, Prepares;
    var calls := before + [c];
    assert forall k :: 0 <= k < |before| ==> calls[..k] == before[..k];
    assert calls[..|before|] == before;
  }

  lemma IsPreparation(calls: seq<Call>, j: nat)
    requires PreparedLast(calls, j)
    ensures j < |calls| && calls[j].PrepareCall?
  {
    hide After;
  }

  lemma NowLast(before: seq<Call>, c: Call)
    requires Prepares(After(before), c)
    ensures PreparedLast(before + [c], |before|)
  {
    hide After, Prepares;
    assert (before + [c])[..|before|] == before;
  }

  /** Work in progress has an owner, whose slot the last accepted preparation made. */
  lemma {:induction false} PreparedBy(calls: seq<Call>) returns (j: nat)
    requires InUse(After(calls)) || After(calls).owner != Nobody
    ensures PreparedLast(calls, j) && SlotOf(After(calls), calls[j].tx)
    decreases |calls|
  {
    if calls == [] {
      assert false;
    }
    hide Apply, Observe, Prepares, Run, PreparedLast, Sends, InUse, SlotOf, SameSlot;
    var n := |calls| - 1;
    var before, c := calls[..n], calls[n];
    assert calls == before + [c];
    RunOneMore(Blank(), EMPTY_HISTORY, before, c);
    UsedBy(After(before), c);
    j := n;
    if Prepares(After(before), c) {
      NowLast(before, c);
    } else {
      j := PreparedBy(before);
      IsPreparation(before, j);
      StillLast(before, c, j);
      SlotKept(After(before), After(calls), calls[j].tx);
    }
  }

  lemma SlotKept(m: Ideal, n: Ideal, tx: Tx)
    requires SlotOf(m, tx) && SameSlot(m, n)
    ensures SlotOf(n, tx)
  {
  }

  lemma UsedBy(m: Ideal, c: Call)
    requires InUse(Apply(m, c).next) || Apply(m, c).next.owner != Nobody
    ensures var n := Apply(m, c).next;
            if Prepares(m, c) then SlotOf(n, c.tx) else SameSlot(m, n) && (InUse(m) || m.owner != Nobody)
  {
    ByCall(m, c);
    hide Apply, Sends, InUse, Launches, RunEnds, SameSending, Prepare;
  }

  /** The call publishes an event. */
  predicate Raises(m: Ideal, c: Call) {
    c.StepCall? && Publishes(m, c.arguments, c.x)
  }

  /** The event names an engine's own generation, retry and backoff count. */
  predicate Names(o: Observation, tx: Tx) {
    o.generation == tx.generation && o.retry == tx.retries && o.nb == tx.nb
  }

  /** An event about an engine's work: a sent, closed, busy or retired transmission, or an acknowledgement. */
  predicate OfWork(o: Observation) {
    o.kind == TxEvent || o.source == AckInterval
  }

  /** Which event of a step is an acknowledgement, and which a sent report. */
  lemma AckOf(m: Ideal, c: Call)
    requires Raises(m, c)
    ensures var n := Apply(m, c).next; var o := n.observation;
            && (o.source == AckInterval <==> o.kind == RxEvent && m.status.phase == Collect && ValidAck(n.receipt.frame))
            && (o.kind == RxEvent && o.source != AckInterval ==> o.source == NoSource)
            && (o.source == AckInterval ==> o.lower == m.receipt.txLower)
            && (o.source == SentInterval ==> m.status.phase == Report && m.status.transmitted && o.kind == TxEvent
                                             && o.lower == m.receipt.txLower && o.upper == m.receipt.txUpper)
  {
    StepPublishes(m, c.arguments, c.x);
    hide Step, ValidAck, Ceil, Sym;
  }

  /**
   In every run from reset: a frame is offered with the source of an acknowledgement exactly if it is offered while one is
   collected and is a MAC acknowledgement whose checksum the radio found good; its lower bound is then that of the
   transmission launched last, as the radio's receipt of that attempt gave it, and that attempt did transmit.
   */
  lemma AcksInRuns(calls: seq<Call>, i: nat) returns (j: nat)
    requires i < |calls| && Raises(After(calls[..i]), calls[i])
    ensures var m, o := After(calls[..i]), After(calls[..i + 1]).observation;
            && (o.source == AckInterval <==> o.kind == RxEvent && m.status.phase == Collect && ValidAck(After(calls[..i + 1]).receipt.frame))
            && (o.kind == RxEvent && o.source != AckInterval ==> o.source == NoSource)
    ensures After(calls[..i + 1]).observation.source == AckInterval ==>
              && LaunchedLast(calls[..i], j) && calls[j].x.receipt.transmitted
              && After(calls[..i + 1]).observation.lower == calls[j].x.receipt.txLower
  {
    var m, c := After(calls[..i]), calls[i];
    NextOf(calls, i);
    hide Run, After, LaunchedLast, Apply, Publishes, ValidAck;
    AckOf(m, c);
    j := 0;
    if m.status.phase == Collect {
      j := SentBy(calls[..i]);
      IsStep(calls[..i], j);
    }
  }

  lemma NextOf(calls: seq<Call>, i: nat)
    requires i < |calls|
    ensures After(calls[..i + 1]) == Apply(After(calls[..i]), calls[i]).next
  {
    assert calls[..i + 1] == calls[..i] + [calls[i]];
    RunOneMore(Blank(), EMPTY_HISTORY, calls[..i], calls[i]);
    hide Run, Apply;
  }

  /** In every run from reset, a sent report carries the bounds of the radio's receipt of the attempt launched last. */
  lemma SentInRuns(calls: seq<Call>, i: nat) returns (j: nat)
    requires i < |calls| && Raises(After(calls[..i]), calls[i]) && After(calls[..i + 1]).observation.source == SentInterval
    ensures LaunchedLast(calls[..i], j) && calls[j].x.receipt.transmitted
    ensures var o, receipt := After(calls[..i + 1]).observation, calls[j].x.receipt;
            o.kind == TxEvent && o.lower == receipt.txLower && o.upper == receipt.txUpper
  {
    var m, c := After(calls[..i]), calls[i];
    NextOf(calls, i);
    hide Run, After, LaunchedLast, Apply, Publishes, ValidAck;
    AckOf(m, c);
    j := SentBy(calls[..i]);
    IsStep(calls[..i], j);
  }

  lemma WorkInUse(m: Ideal, c: Call)
    requires Raises(m, c) && OfWork(Apply(m, c).next.observation)
    ensures var o := Apply(m, c).next.observation;
            InUse(m) && o.generation == m.status.generation && o.retry == m.status.retry && o.nb == m.status.nb
  {
    StepPublishes(m, c.arguments, c.x);
    hide Step, ValidAck, Ceil, Sym;
  }

  /** In every run from reset, an event about an engine's work names the engine of the last accepted preparation, as it stood then. */
  lemma WorkNamed(calls: seq<Call>, i: nat) returns (j: nat)
    requires i < |calls| && Raises(After(calls[..i]), calls[i]) && OfWork(After(calls[..i + 1]).observation)
    ensures PreparedLast(calls[..i], j) && Names(After(calls[..i + 1]).observation, calls[j].tx)
  {
    var m, c := After(calls[..i]), calls[i];
    NextOf(calls, i);
    hide Run, After, PreparedLast, Apply, Publishes, InUse;
    WorkInUse(m, c);
    j := PreparedBy(calls[..i]);
    IsPreparation(calls[..i], j);
  }

  // ---------- which calls are granted ----------

  /** Nothing stands against the action: no fault, no unread event, and slot, engine and action name the same work. */
  predicate Agrees(m: Ideal, tx: Tx, a: Action) {
    && m.status.fault == OK && !m.status.ready && m.owner == Owned(tx.id)
    && m.status.generation == tx.generation == a.generation && m.status.retry == tx.retries == a.retry && m.status.nb == tx.nb == a.nb
    && a.phase == tx.phase && a.outcome == tx.outcome
  }

  /** A preparation is accepted exactly from a confirmed stop with nothing in hand, for a drawing engine's own body. */
  lemma PreparesExactly(m: Ideal, arguments: bool, tx: Tx, policy: Policy, body: seq<byte>, reply: A.RadioResult)
    ensures var r := Prepare(m, arguments, tx, policy, body, reply); var s := r.next.status;
            && (r.result == OK <==>
                  && m.status.fault == OK && arguments && m.status.phase == Off && !m.status.ready && !m.status.held
                  && (m.owner == Nobody || m.owner == Owned(tx.id))
                  && tx.phase == TxDraw && tx.generation != 0 && 1 <= tx.length <= 125 && tx.copies
                  && (policy == KeepAutoack ==> tx.ackRequested) && reply == A.READY)
            && (r.result == OK ==>
                  && SlotOf(r.next, tx) && s.phase == Prepared && s.policy == policy && s.length == tx.length && s.goal == NoGoal
                  && !s.normalRx && !s.transmitted && !s.stopStarted && !s.lossy && !r.next.settled && r.next.receipt.frame.body == body)
  {
    hide Fail;
  }

  lemma AttemptsExactly(m: Ideal, tx: Tx, a: Action)
    requires a.kind == ActAttempt
    ensures var r := Accept(m, tx, a);
            && (r.result == OK <==> Agrees(m, tx, a) && m.status.phase == Prepared && tx.phase == TxRadio && a.at == tx.at
                                    && a.until == tx.deadline && a.length == m.status.length && a.ackRequested == tx.ackRequested)
            && (r.result == OK ==> r.next.status.phase == Scheduled && r.next.requested.ackRequested == a.ackRequested)
  {
    hide Nearest;
  }

  /** Collection is granted exactly for 54 symbols after the upper bound of a transmission that was sent. */
  lemma CollectsExactly(m: Ideal, tx: Tx, a: Action)
    requires a.kind == ActCollect
    ensures var r := Accept(m, tx, a);
            && (r.result == OK <==> Agrees(m, tx, a) && m.status.phase == WaitMac && m.status.transmitted && tx.phase == TxAckWait
                                    && a.through.fine == m.receipt.txUpper % 512
                                    && a.through.symbols == (m.receipt.txUpper / 512 + 54) % 0x1_0000_0000)
            && (r.result == OK ==> r.next.status.phase == Collect && r.next.through == m.receipt.txUpper + 54 * 512)
  {
    SplitInstant(m.receipt.txUpper / 512 + 54, m.receipt.txUpper % 512);
    assert m.receipt.txUpper + 54 * 512 == (m.receipt.txUpper / 512 + 54) * 512 + m.receipt.txUpper % 512;
    hide Sym, AsRequested;
  }

  /** Retirement is granted exactly to a stopping engine whose radio work is not already over or retiring. */
  lemma RetiresExactly(m: Ideal, tx: Tx, a: Action)
    requires a.kind == ActQuiesce
    ensures var r := Accept(m, tx, a);
            && (r.result == OK <==> Agrees(m, tx, a) && tx.phase == TxStopping && a.until == tx.stopAt
                                    && m.status.phase != Rx && m.status.phase != Cold && m.status.phase != Retiring)
            && (r.result == OK ==>
                  && r.next.status.goal == RetireGoal && r.next.requested.outcome == a.outcome && !r.next.settled
                  && r.next.status.phase == if m.status.phase == Draining || m.status.phase == Off then m.status.phase else Retiring)
  {
    hide Nearest;
  }

  /**
   The first step of a retirement: the receiver is kept on, acknowledging, exactly for an acknowledged transmission under that
   policy, and raw exactly for a sent and unacknowledged one under that; every other retirement asks the radio to stop.
   */
  lemma RetiresFirst(m: Ideal, x: StepIn)
    requires m.status.phase == Retiring && !m.status.stopStarted && !m.status.held
    ensures var r := Act(m, x);
            if m.requested.outcome == Acked && m.status.policy == KeepAutoack then
              if !m.status.normalRx && x.reply != A.READY then r.operation == HandoffOp && r.result == RADIO_ERROR
              else r.operation == (if m.status.normalRx then NoOp else HandoffOp) && r.next.status.phase == Rx && r.next.status.normalRx
            else if m.requested.outcome == Unacknowledged && m.status.policy == KeepRaw && m.status.transmitted then
              r.operation == NoOp && r.next.status.phase == Rx && r.next.status.normalRx == m.status.normalRx
            else r.operation == StopOp
  {
    hide StopRadio, Fail;
  }

  /**
   A frame lost by the radio is a fault exactly if it might have been acknowledged by hardware or belong to an exchange in
   hand: outside reception, in a collection, or in the end of any work but the caller's own close, unless received as usual.
   */
  lemma LossFaults(m: Ideal, x: StepIn)
    requires !m.status.held && m.status.phase != Scheduled && m.status.phase != Report && m.status.phase != WaitMac && m.status.phase != Prepared
    requires Turn(m, x.reply, x.frame).operation == ReceiveOp && x.reply == A.RX_LOST
    ensures var r := Act(m, x); var s := m.status;
            && (r.result == RADIO_ERROR <==>
                  if s.phase == Rx || s.phase == Closing || s.phase == Draining then !s.normalRx && s.goal != NoGoal && s.goal != UserGoal
                  else s.phase != Collect || !s.normalRx)
            && (r.result != RADIO_ERROR ==> r.result == WAIT && r.next.status.lossy)
  {
    hide Fail, StopRadio, ReportGoal, CloseDue, Keep, AsClosing, KeepsAutoack, KeepsRaw;
  }

  /** The close a caller asks for is granted exactly in plain reception, and for an end in the half range ahead. */
  lemma ClosesExactly(m: Ideal, end: End)
    ensures var r := Close(m, end);
            && (r.result == OK <==> m.status.fault == OK && m.status.phase == Rx && !m.status.ready
                                    && (end.At? ==> end.stamp.fine < 512 && Ahead(m.status.live, end.stamp)))
            && (r.result == OK ==>
                  && r.next.status.phase == Closing && r.next.status.goal == UserGoal && !r.next.status.stopStarted && !r.next.settled
                  && r.next.status.waitThrough == end.At? && (end.At? ==> r.next.through == Unwrap(m.status.live, end.stamp)))
  {
    hide Ahead, Unwrap;
  }

  /** Channels 11 to 26 and three power settings; set only in a confirmed stop with nothing in hand and no goal pending. */
  lemma ConfiguresExactly(m: Ideal, arguments: bool, c: Config, reply: A.RadioResult, timer: A.RadioResult, live: nat)
    ensures Configure(m, arguments, c, reply, timer, live).result == OK <==>
              && m.status.fault == OK && arguments && m.status.phase == Off && !m.status.ready && !m.status.held && m.status.goal == NoGoal
              && 11 <= c.channel <= 26 && (c.power == 0x05 || c.power == 0xd5 || c.power == 0xf5) && reply == A.READY && timer == A.READY
    ensures Init(m, arguments, c, reply, timer, live).result == OK <==>
              && m.status.fault == OK && arguments && m.status.phase == Cold
              && 11 <= c.channel <= 26 && (c.power == 0x05 || c.power == 0xd5 || c.power == 0xf5) && reply == A.READY && timer == A.READY
    ensures AdapterSpec.Open(m, arguments, reply, timer, live).result == OK <==>
              && m.status.fault == OK && arguments && m.status.phase == Off && !m.status.ready && !m.status.held && m.status.goal == NoGoal
              && reply == A.READY && timer == A.READY
  {
    hide Fail, Cleared, Opened;
  }
}
