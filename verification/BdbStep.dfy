/**
 What a step of the commissioning controller makes of its context and its children's answers, from the installation
 on, and what that decides: which failures give up the durable keys, and which failure has the last word in a call.
 */
module BdbStep {
  import opened Words
  import opened BdbSpec

  /** The lower owner a live phase runs on. */
  datatype Workspace = NoWork | ScanWork | AssociationWork | RuntimeWork

  datatype Status = Working | Finished | Broken

  /** A scan step: its status, then what a finished scan shows and whether the next owners start. */
  datatype ScanAnswer = ScanAnswer(stepped: bool, status: Status, keys: bool, finished: bool, overflow: bool, unscanned: bool,
                                   eligible: bool, selected: bool, released: bool, initialised: bool, started: bool)

  /** An association step: its status, the taken record and whether the next owners start. */
  datatype AssociationAnswer = AssociationAnswer(stepped: bool, status: Status, taken: bool, granted: bool, stamp: word,
                                                 started: bool, prepared: bool)

  /** The persisted identity and the confirmation of its installation. */
  datatype InstallAnswer = InstallAnswer(keys: bool, associated: bool, confirmed: bool, token: nat, matches: bool, persisted: bool,
                                         verified: bool, rejoining: bool, announced: bool, permitted: bool, broadcast: bool)

  datatype Outcome = Fine | Busy | Conflict | LeaveAsked | Insecure | Unsent | Other

  datatype Query = NodeQuery | ParentQuery

  datatype Reply = Success | TimedOut | Undelivered | Rejected

  /** One pass of the device object and the transport's confirmations. */
  datatype Pass = Pass(outcome: Outcome, event: Event, completed: bool, applicationConfirmed: bool, confirmed: bool, lost: bool,
                       broadcast: bool, cancelled: bool, taken: bool, query: Query, reply: Reply, coordinator: bool,
                       querying: bool, asked: Outcome, queued: Outcome, known: bool, timeoutKeepalive: bool, pollKeepalive: bool, announced: bool,
                       ready: bool, keys: bool, verified: bool, idle: bool, stops: bool, stopsAgain: bool)

  /** One transport step, what is left in flight, and how a durable Leave would fare. */
  datatype Carriage = Carriage(foreign: bool, received: bool, engineFault: bool, failed: bool, untaken: bool, idle: bool, drained: bool,
                               completed: bool, confirmed: bool, lost: bool, keys: bool, left: bool, departs: bool,
                               stopsOverdue: bool, stopsFailed: bool, stopsUpdate: bool)

  /** What admission finds: arguments, an idle engine, readable keys, and the key phase with its matching identity. */
  datatype Admission = Admission(arguments: bool, engineIdle: bool, keys: bool, provisioned: bool, persisted: bool, matching: bool,
                                 prepared: bool, initialised: bool, started: bool)

  /** How the transport takes a frame. */
  datatype Arrival = Unreadable | Delivered(published: bool) | Crowded | Repeated | Unsafe(storage: bool)

  /** The commissioning context. */
  datatype Context = Context(
    phase: nat, workspace: Workspace, result: Result, cleanupError: bool, attempts: nat, issued: nat, member: bool,
    gotTc: bool, gotConfirm: bool, recovery: nat, timely: bool, abandon: bool, pending: bool, done: bool, token: nat,
    steps: nat, last: word, workAt: word, until: word, commissionUntil: word, keepalive: word, stamp: word)

  /** Everything unseen that one step may ask for: each child's and the platform's answer. */
  datatype Answers = Answers(guardStops: bool, foreign: bool, scan: ScanAnswer, association: AssociationAnswer,
                             install: InstallAnswer, stops: bool, pass: Pass, carriage: Carriage)

  // ---------- failing and installing ----------

  /** Where a failure leaves the run, by whether the transport's stop was accepted. */
  function Stopped(stops: bool): nat {
    if stops then ABORTING else FAULT
  }

  function Condemned(c: Context, r: Result): bool {
    || r == AddressConflict || r == LocalLeave
    || (r != WorkLimit && c.phase < READY && c.recovery == 0 && !(c.phase == INSTALLING && c.member))
  }

  function AfterFail(c: Context, r: Result, stops: bool): Context {
    c.(abandon := Condemned(c, r), result := r, member := false, phase := Stopped(stops), cleanupError := c.cleanupError || !stops)
  }

  /** The context as constructed. */
  function Blank(now: word): Context {
    Context(IDLE, NoWork, Ok, false, 0, 0, false, false, false, 0, false, false, false, false, 0, 0, now, now, 0, 0, 0, 0)
  }

  /** Recovery begins by installing the persisted identity, as no member. */
  function AfterResume(c: Context): Context {
    c.(phase := INSTALLING, workspace := RuntimeWork, member := false, recovery := 1, token := c.token + 1, issued := 0,
       commissionUntil := Plus(c.last, COMMISSION_WAIT), until := Plus(c.last, EXCHANGE_WAIT))
  }

  function AfterInstall(c: Context, stops: bool): Context {
    if c.token == LAST_TOKEN then AfterFail(c, InstallFailed, stops)
    else c.(token := c.token + 1, issued := 0, phase := INSTALLING, until := Plus(c.last, EXCHANGE_WAIT))
  }

  /** Whether the platform's confirmation is the one awaited: the outstanding request's token, still in time. */
  predicate Confirmed(c: Context, a: InstallAnswer) {
    a.confirmed && a.token == c.token && c.issued != 0 && !Expired(c.last, c.until) && a.matches
  }

  function AfterInstallStep(c: Context, a: InstallAnswer, stops: bool): Context {
    if !a.keys || (Confirmed(c, a) && !c.member && !a.associated && !a.persisted) then AfterFail(c, Security, stops)
    else if Confirmed(c, a) then AfterInstalled(c, a, stops)
    else if Expired(c.last, c.until) then c.(phase := FAULT, result := InstallFailed)
    else if c.issued == 0 then c.(issued := 1)
    else c
  }

  /** What a confirmed installation still needs before the run goes on. */
  predicate Accredited(c: Context, a: InstallAnswer) {
    if c.recovery == 1 then a.verified || a.rejoining
    else if c.recovery == 2 then a.verified && c.member && a.broadcast
    else !c.member || (a.verified && a.announced && (a.permitted || c.recovery == 3))
  }

  function AfterInstalled(c: Context, a: InstallAnswer, stops: bool): Context {
    if Accredited(c, a) then AfterProceed(c) else AfterFail(c, Security, stops)
  }

  function AfterProceed(c: Context): Context {
    if c.recovery == 1 then c.(phase := RECOVERING, issued := 0, attempts := 0)
    else if c.recovery == 2 then c.(phase := ANNOUNCING)
    else if c.member then c.(phase := READY, attempts := 0, keepalive := Plus(c.last, KEEPALIVE))
    else c.(phase := WAIT_KEY, until := Plus(c.stamp, SECURITY_WAIT))
  }

  // ---------- one pass over the device object's answers ----------

  /** The device object's own outcome lets the pass go on. */
  predicate Sane(z: Pass) {
    z.outcome.Fine? || z.outcome.Busy? || z.outcome.Other?
  }

  function Verdict(z: Pass): Result {
    match z.outcome
    case Conflict => AddressConflict
    case LeaveAsked => LocalLeave
    case Insecure => Security
    case _ => TransmitFailed
  }

  /** After its event the pass goes on: also after a Leave and after an update whose stop failed. */
  predicate Attends(c: Context, z: Pass) {
    && (z.event == Update ==> c.phase == READY)
    && (z.event == TcKey || z.event == Verified ==> c.timely)
  }

  function AfterAttend(c: Context, z: Pass): Context {
    if z.event == Leave then AfterFail(c, RemoteLeave, z.stops)
    else if z.event == Update then
      if c.phase != READY then AfterFail(c, RecoveryRequired, z.stops)
      else if z.cancelled then AfterUpdate(c)
      else AfterFail(AfterUpdate(c), TransmitFailed, z.stops)
    else if z.event == TcKey || z.event == Verified then
      if c.timely then AfterProof(c, z.event) else AfterFail(c, TcFailed, z.stops)
    else c
  }

  function AfterProof(c: Context, e: Event): Context {
    c.(gotTc := c.gotTc || e == TcKey, gotConfirm := c.gotConfirm || e == Verified)
  }

  function AfterUpdate(c: Context): Context {
    c.(phase := UPDATING)
  }

  /** The application's packet is done, but its confirmation cannot be had. */
  predicate Unconfirmed(c: Context, z: Pass) {
    c.pending && z.completed && !z.applicationConfirmed
  }

  function AfterConclude(c: Context, z: Pass): Context {
    if !c.pending || !z.completed then c
    else if z.applicationConfirmed then c.(pending := false, done := true)
    else AfterFail(c, TransmitFailed, z.stopsAgain)
  }

  function AfterKey(c: Context, z: Pass): Context {
    if z.event != NetworkKey then c
    else if !c.timely then AfterFail(c, KeyTimeout, z.stops)
    else if !z.broadcast then AfterFail(c, TransmitFailed, z.stops)
    else c.(member := true, phase := ANNOUNCING)
  }

  function AfterEnter(c: Context, next: nat, issued: nat, keepalive: word): Context {
    c.(phase := next, attempts := 0, issued := issued, keepalive := keepalive)
  }

  function AfterAnnounce(c: Context, z: Pass): Context {
    if !z.confirmed then c
    else if z.lost then AfterFail(c, TransmitFailed, z.stops)
    else AfterEnter(c, if c.recovery > 0 then PARENT else NODE, c.issued, c.keepalive)
  }

  predicate Retryable(c: Context, reply: Reply) {
    (reply == TimedOut || reply == Undelivered) && c.attempts != ATTEMPTS
  }

  /** The parent answered, and keeps its child by a method this device serves. */
  predicate Kind(z: Pass) {
    z.taken && z.reply == Success && z.query == ParentQuery && z.known && (z.timeoutKeepalive || z.pollKeepalive)
  }

  /** A keepalive outcome that ends operation. */
  predicate Lost(c: Context, z: Pass) {
    || z.query != ParentQuery || z.reply == Rejected
    || (z.reply == Success && !z.timeoutKeepalive && !z.pollKeepalive)
    || (z.reply != Success && c.attempts == KEEPALIVE_ATTEMPTS)
  }

  function AfterDescribe(c: Context, z: Pass): Context {
    if z.taken && z.reply == Success && z.query == NodeQuery && z.coordinator then AfterEnter(c, REQUESTING, 0, c.keepalive)
    else if z.taken && !Retryable(c, z.reply) then AfterFail(c, TcFailed, z.stops)
    else if !z.querying then AfterAsk(c, z, TcFailed)
    else c
  }

  function AfterAsk(c: Context, z: Pass, r: Result): Context {
    if z.asked == Fine then c.(attempts := (c.attempts + 1) % 256)
    else if z.asked == Busy then c
    else AfterFail(c, r, z.stops)
  }

  function AfterExchange(c: Context, z: Pass): Context {
    if c.issued == 0 then
      if z.queued == Fine then c.(issued := 1, attempts := c.attempts + 1, until := Plus(c.last, EXCHANGE_WAIT))
      else if z.queued == Busy then c
      else AfterFail(c, TcFailed, z.stops)
    else if !z.confirmed then c
    else if z.lost && c.attempts == ATTEMPTS then AfterFail(c, TransmitFailed, z.stops)
    else if z.lost then c.(issued := 0)
    else c.(phase := if c.phase == REQUESTING then WAIT_TC else WAIT_CONFIRM)
  }

  function AfterSettle(c: Context, z: Pass): Context {
    if Kind(z) then
      if if c.recovery > 0 then !z.announced else !z.broadcast then AfterFail(c, TransmitFailed, z.stops)
      else if c.recovery > 0 then c.(phase := READY, attempts := 0, recovery := 3, keepalive := Plus(c.last, KEEPALIVE))
      else AfterEnter(c, PERMIT, c.issued, c.keepalive)
    else if z.taken && !Retryable(c, z.reply) then AfterFail(c, ParentFailed, z.stops)
    else if !z.querying then AfterAsk(c, z, ParentFailed)
    else c
  }

  function AfterPermit(c: Context, z: Pass): Context {
    if !z.confirmed then c
    else if z.lost || !z.ready then AfterFail(c, TransmitFailed, z.stops)
    else AfterEnter(c, READY, c.issued, Plus(c.last, KEEPALIVE))
  }

  function AfterRecover(c: Context, z: Pass): Context {
    if z.event == Refused then AfterFail(c, RejoinRefused, z.stops)
    else
      var d := if z.event == Rejoined then AfterHear(c) else c;
      var e := if d.issued == 1 && z.confirmed then AfterRequest(d, z.lost) else d;
      if e.issued == 1 then e else AfterProgress(e, z)
  }

  function AfterHear(c: Context): Context {
    c.(recovery := 2)
  }

  function AfterRequest(c: Context, lost: bool): Context {
    if lost then c.(issued := 0) else c.(issued := 2, until := Plus(c.last, REJOIN_WAIT))
  }

  function AfterProgress(c: Context, z: Pass): Context {
    if !z.keys then AfterFail(c, Security, z.stops)
    else if c.recovery == 2 && z.verified then if z.idle then AfterInstall(c.(member := true), z.stops) else c
    else if c.issued != 0 && !Expired(c.last, c.until) then c
    else if c.attempts == ATTEMPTS then AfterFail(c, NoParent, z.stops)
    else if z.queued == Fine then c.(issued := 1, attempts := c.attempts + 1)
    else if z.queued == Busy then c
    else AfterFail(c, TransmitFailed, z.stops)
  }

  function AfterOperate(c: Context, z: Pass): Context {
    if z.taken && Lost(c, z) then AfterFail(c, ParentFailed, z.stops)
    else
      var d := if z.taken then AfterReply(c, z.reply != Success) else c;
      if z.pollKeepalive || !Expired(d.last, d.keepalive) || z.querying then d
      else if z.asked == Busy && Expired(d.last, Plus(d.keepalive, EXCHANGE_WAIT)) then AfterFail(d, ParentFailed, z.stops)
      else AfterAsk(d, z, ParentFailed)
  }

  function AfterReply(c: Context, lost: bool): Context {
    if lost then c.(keepalive := Plus(c.last, KEEPALIVE_RETRY)) else c.(attempts := 0, keepalive := Plus(c.last, KEEPALIVE))
  }

  function AfterLapse(c: Context, z: Pass): Context {
    if c.phase == WAIT_KEY && Expired(c.last, c.until) then AfterFail(c, KeyTimeout, z.stops)
    else if ((c.phase == REQUESTING && !c.gotTc) || (c.phase == VERIFYING && !c.gotConfirm)) && c.issued != 0
            && Expired(c.last, c.until) then AfterFail(c, TcFailed, z.stops)
    else if (c.phase == WAIT_TC || c.phase == WAIT_CONFIRM) && Expired(c.last, c.until) then
      if c.attempts == ATTEMPTS then AfterFail(c, TcFailed, z.stops)
      else c.(phase := if c.phase == WAIT_TC then REQUESTING else VERIFYING, issued := 0)
    else c
  }

  function AfterDispatch(c: Context, z: Pass): Context {
    if c.phase == WAIT_KEY then AfterKey(c, z)
    else if c.phase == ANNOUNCING then AfterAnnounce(c, z)
    else if c.phase == NODE then AfterDescribe(c, z)
    else if c.phase == REQUESTING || c.phase == VERIFYING then AfterExchange(c, z)
    else if c.phase == WAIT_TC && c.gotTc then AfterEnter(c, VERIFYING, 0, c.keepalive)
    else if c.phase == WAIT_CONFIRM && c.gotConfirm then AfterEnter(c, PARENT, c.issued, c.keepalive)
    else if c.phase == PARENT then AfterSettle(c, z)
    else if c.phase == PERMIT then AfterPermit(c, z)
    else if c.phase == RECOVERING then AfterRecover(c, z)
    else if c.phase == READY then AfterOperate(c, z)
    else c
  }

  function AfterRuntime(c: Context, z: Pass): Context {
    if !Sane(z) then AfterFail(c, Verdict(z), z.stops)
    else
      var d := AfterAttend(c, z);
      if !Attends(c, z) then d
      else if Unconfirmed(d, z) then AfterConclude(d, z)
      else AfterLapse(AfterDispatch(AfterConclude(d, z), z), z)
  }

  // ---------- a step ----------

  /** The same-instant work is used up. */
  predicate Stalled(c: Context) {
    c.workAt == c.last && c.steps == STALL_STEPS
  }

  function AfterGuard(c: Context, stops: bool): Context {
    if !Guarded(c.phase) then c
    else if !Stalled(c) then c.(workAt := c.last, steps := if c.workAt == c.last then c.steps + 1 else 1)
    else if c.phase == INSTALLING && c.issued != 0 then c.(phase := FAULT, result := WorkLimit, member := false)
    else AfterFail(c, WorkLimit, stops)
  }

  /** The commissioning or recovery as a whole has run out of time. */
  predicate Late(c: Context) {
    (WAIT_KEY <= c.phase < READY || c.phase == RECOVERING) && Expired(c.last, c.commissionUntil)
  }

  function AfterOverdue(c: Context, stops: bool): Context {
    if Late(c) then AfterFail(c, if c.recovery > 0 then NoParent else KeyTimeout, stops) else c
  }

  /** The transport step lets the call go on. */
  predicate Carries(c: Context, t: Carriage) {
    !t.engineFault && !(t.failed && c.phase == LEAVING)
  }

  function AfterCarry(c: Context, t: Carriage): Context {
    if t.engineFault then c.(phase := FAULT, result := TransmitFailed, member := false)
    else if !t.failed then c
    else if c.phase == LEAVING then c.(cleanupError := true, phase := FAILED)
    else if Live(c.phase) then AfterFail(c, TransmitFailed, t.stopsFailed)
    else c.(cleanupError := true)
  }

  /** A waiting frame has the device object served before the transport. */
  predicate Handled(c: Context, t: Carriage) {
    Live(c.phase) && t.received
  }

  function BeforeCarry(c: Context, z: Pass, t: Carriage): Context {
    if Handled(c, t) then AfterRuntime(c, z) else c
  }

  function AfterPump(c: Context, z: Pass, t: Carriage): Context {
    var d := AfterCarry(BeforeCarry(c, z, t), t);
    if Carries(BeforeCarry(c, z, t), t) && Live(d.phase) && !Handled(c, t) then AfterRuntime(d, z) else d
  }

  function AfterFinish(c: Context, t: Carriage): Context {
    if c.phase != UPDATING then c
    else if t.untaken then AfterFail(c, TransmitFailed, t.stopsUpdate)
    else if t.idle then AfterInstall(c, t.stopsUpdate)
    else c
  }

  /** What a durable Leave needs of the quiet transport and of the keys. */
  predicate Departable(t: Carriage) {
    t.drained && (t.completed ==> t.confirmed) && t.keys && !t.left && t.departs
  }

  function AfterDrain(c: Context, t: Carriage): Context {
    if c.phase == ABORTING && t.drained then
      if t.completed && !t.confirmed then c
      else
        var d := if t.completed then AfterSurrender(c) else c;
        if !d.abandon || !t.keys || t.left then AfterClose(d, d.cleanupError)
        else if !t.departs then AfterClose(d, true)
        else d.(phase := LEAVING)
    else if c.phase == LEAVING && t.confirmed then AfterClose(c, t.lost)
    else c
  }

  function AfterSurrender(c: Context): Context {
    c.(done := c.done || c.pending, pending := false)
  }

  function AfterClose(c: Context, lost: bool): Context {
    c.(cleanupError := lost, phase := FAILED)
  }

  /** The cleanup is reached. */
  predicate Drains(c: Context, x: Answers) {
    Carries(BeforeCarry(AfterOverdue(c, x.carriage.stopsOverdue), x.pass, x.carriage), x.carriage)
  }

  /** The transport, the device object and an update's end: all that a step does before its cleanup. */
  function BeforeDrain(c: Context, x: Answers): Context {
    var d := AfterPump(AfterOverdue(c, x.carriage.stopsOverdue), x.pass, x.carriage);
    if Drains(c, x) then AfterFinish(d, x.carriage) else d
  }

  function AfterServe(c: Context, x: Answers): Context {
    if Drains(c, x) then AfterDrain(BeforeDrain(c, x), x.carriage) else BeforeDrain(c, x)
  }

  /** The installation used up its instant while its request was out. */
  predicate Latched(c: Context) {
    Stalled(c) && c.phase == INSTALLING && c.issued != 0
  }

  /** The phases a step serves once the runtime is the live workspace. */
  predicate Underway(phase: nat) {
    Guarded(phase) || phase == ABORTING || phase == LEAVING
  }

  /** A step from the installation on, begun at `c.last`. */
  function AfterRun(c: Context, x: Answers): Context {
    var d := AfterGuard(c, x.guardStops);
    if Latched(c) then d
    else if d.phase == INSTALLING then AfterInstallStep(d, x.install, x.stops)
    else AfterServe(d, x)
  }

  lemma Unguarded(c: Context, stops: bool)
    requires !Guarded(c.phase)
    ensures AfterGuard(c, stops) == c && !Latched(c)
  {
  }

  /** The step reaches its cleanup. */
  predicate Cleans(c: Context, x: Answers) {
    var d := AfterGuard(c, x.guardStops);
    !Latched(c) && d.phase != INSTALLING && Drains(d, x)
  }

  /** The context as the step's cleanup finds it. */
  function AtCleanup(c: Context, x: Answers): Context {
    BeforeDrain(AfterGuard(c, x.guardStops), x)
  }

  /** A resumed run that has failed and whose transport is stopping. */
  predicate Interrupted(c: Context) {
    c.phase == ABORTING && c.recovery > 0
  }

  /** The two causes that make a resumed run give up its durable keys. */
  predicate Forsaken(c: Context) {
    c.result == AddressConflict || c.result == LocalLeave
  }

  // ---------- the last word ----------

  lemma CleanupFields(c: Context, lost: bool)
    ensures AfterSurrender(c).phase == c.phase && AfterSurrender(c).abandon == c.abandon
    ensures AfterClose(c, lost).phase == FAILED
  {
  }

  /** A run that is broken off waits for its transport, sends its durable Leave, or ends with its keys. */
  lemma CleanupEnds(c: Context, t: Carriage)
    requires c.phase == ABORTING
    ensures AfterDrain(c, t).phase == if !t.drained || (t.completed && !t.confirmed) then ABORTING
                                      else if c.abandon && Departable(t) then LEAVING
                                      else FAILED
  {
    hide AfterSurrender, AfterClose;
    CleanupFields(c, true);
    var d := if t.completed then AfterSurrender(c) else c;
    CleanupFields(d, true);
    CleanupFields(d, d.cleanupError);
  }

  /** The device object goes on after a failure whose stop of the transport was refused. */
  predicate StopRefused(c: Context, z: Pass) {
    Sane(z) && !z.stops && (z.event == Leave || (z.event == Update && c.phase == READY && !z.cancelled))
  }

  /** No phase's own work and no wait touches a run at FAULT. */
  lemma FaultRests(c: Context, z: Pass)
    requires c.phase == FAULT
    ensures AfterLapse(AfterDispatch(c, z), z) == c
  {
  }

  lemma FailFields(c: Context, r: Result, stops: bool)
    ensures AfterFail(c, r, stops).phase == Stopped(stops) && AfterFail(c, r, stops).result == r
    ensures AfterFail(c, r, stops).pending == c.pending && AfterFail(c, r, stops).recovery == c.recovery
  {
  }

  lemma RefusedStopFaults(c: Context, z: Pass)
    requires c.phase != FAULT && Sane(z)
    ensures StopRefused(c, z) <==> Attends(c, z) && AfterAttend(c, z).phase == FAULT
    ensures Attends(c, z) ==> AfterAttend(c, z).pending == c.pending
  {
    hide AfterFail;
    FailFields(c, RemoteLeave, z.stops);
    FailFields(AfterUpdate(c), TransmitFailed, z.stops);
  }

  /**
   The FAULT of a refused stop is not final within the call: the pass goes on exactly as `StopRefused` says, and the
   run ends ABORTING instead if and only if the application's confirmation fails too and the second stop is accepted.
   This is the controller against arbitrary children: one transport never refuses a stop and accepts another at the
   same instant, nor fails to confirm a completed packet (`src/nwk_aps.c:30-40`, `564-573`, `587-597`).
   */
  lemma RefusedStop(c: Context, z: Pass)
    requires c.phase != FAULT && Sane(z)
    ensures StopRefused(c, z) <==> Attends(c, z) && AfterAttend(c, z).phase == FAULT
    ensures StopRefused(c, z) ==>
              AfterRuntime(c, z).phase == if Unconfirmed(c, z) && z.stopsAgain then ABORTING else FAULT
    ensures StopRefused(c, z) && Unconfirmed(c, z) ==> AfterRuntime(c, z).result == TransmitFailed
  {
    hide AfterAttend, AfterDispatch, AfterLapse, Attends, StopRefused;
    RefusedStopFaults(c, z);
    if StopRefused(c, z) && !Unconfirmed(c, z) {
      FaultRests(AfterConclude(AfterAttend(c, z), z), z);
    }
  }

  /** A FAULT of this pass is replaced. */
  predicate Replaces(c: Context, z: Pass) {
    StopRefused(c, z) && Unconfirmed(c, z) && z.stopsAgain
  }

  /** The device object is served: before the transport if a frame waits, after it if the transport lets the run live. */
  predicate Serves(c: Context, t: Carriage) {
    Live(c.phase) && (t.received || (!t.engineFault && !t.failed))
  }

  predicate Overwriting(c: Context, x: Answers) {
    !Late(c) && Serves(c, x.carriage) && Replaces(c, x.pass)
  }

  /** In the step begun at `c.last` a FAULT is replaced. */
  predicate Overwritten(c: Context, x: Answers) {
    Guarded(c.phase) && c.phase != INSTALLING && !Stalled(c) && Overwriting(c, x)
  }

  lemma OnlyLive(c: Context, x: Answers)
    ensures Overwriting(c, x) ==> Live(c.phase)
  {
  }

  lemma Unserved(c: Context, z: Pass)
    requires !Sane(z)
    ensures !Replaces(c, z)
  {
  }

  lemma GuardFields(c: Context, stops: bool)
    requires Guarded(c.phase)
    ensures Stalled(c) ==> !Live(AfterGuard(c, stops).phase)
    ensures !Stalled(c) ==> var d := AfterGuard(c, stops);
              d.phase == c.phase && d.pending == c.pending && d.last == c.last && d.commissionUntil == c.commissionUntil
  {
    hide AfterFail;
    FailFields(c, WorkLimit, stops);
  }

  /** Counting a step changes nothing of that. */
  lemma GuardOverwrites(c: Context, x: Answers)
    requires Guarded(c.phase)
    ensures var d := AfterGuard(c, x.guardStops); Live(d.phase) && d.phase != INSTALLING && Overwriting(d, x) <==> Overwritten(c, x)
  {
    hide AfterGuard, Stalled, Expired, Sane;
    GuardFields(c, x.guardStops);
  }

  /** The same of a whole step in which the device object is served. */
  lemma FaultReplaced(c: Context, x: Answers)
    requires Guarded(c.phase) && c.phase != INSTALLING && !Stalled(c) && !Late(c) && StopRefused(c, x.pass)
    requires Serves(c, x.carriage)
    ensures AfterRun(c, x).phase == FAULT <==> x.carriage.engineFault || !(Unconfirmed(c, x.pass) && x.pass.stopsAgain)
    ensures AfterRun(c, x).phase != FAULT ==> AtCleanup(c, x).phase == ABORTING && AtCleanup(c, x).result == TransmitFailed
  {
    hide AfterRuntime, AfterAttend, Sane, AfterFail;
    RefusedStop(AfterGuard(c, x.guardStops), x.pass);
  }
}
