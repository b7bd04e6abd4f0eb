/**
 What one pass over the device object's answers does in each phase, in the answers' own fields and in numbers, and the
 keepalive over any sequence of passes: the parent is given up exactly at the sixth lost reply in a row.
 */
module BdbPasses {
  import opened Words
  import opened BdbSpec
  import opened BdbStep

  /** `now` is at or past `due`: less than half the clock's range after it. */
  predicate Past(now: word, due: word) {
    (now as int - due as int) % 0x1_0000_0000 < 0x8000_0000
  }

  /** The instant `n` time units on, as the 32-bit clock shows it. */
  function On(t: word, n: nat): word {
    (t + n) % 0x1_0000_0000
  }

  lemma PastIs(now: word, due: word)
    ensures Past(now, due) == Expired(now, due)
  {
  }

  lemma OnAhead(t: word, n: nat)
    requires 0 < n < 0x8000_0000
    ensures !Expired(t, Plus(t, n))
  {
  }

  /** The device object reports no failure, and what it heard does not break the phase's own work off. */
  predicate Calm(c: Context, z: Pass) {
    && (z.outcome == Fine || z.outcome == Busy || z.outcome == Other) && z.event != Leave && z.event != Update
    && ((z.event == TcKey || z.event == Verified) ==> c.timely)
    && !(c.pending && z.completed && !z.applicationConfirmed)
  }

  /** The run is broken off: its transport stopped, or the stop itself refused. */
  predicate Broken(c: Context, n: Context, why: Result, stops: bool) {
    && n.phase == (if stops then ABORTING else FAULT) && n.result == why && !n.member
    && (n.abandon <==> c.phase < READY && c.recovery == 0) && (n.cleanupError <==> c.cleanupError || !stops)
  }

  /** What every pass may change before the phase's own work: the proofs heard and the application's packet. */
  predicate Likewise(c: Context, d: Context, z: Pass) {
    && d.phase == c.phase && d.attempts == c.attempts && d.issued == c.issued && d.member == c.member && d.recovery == c.recovery
    && d.last == c.last && d.until == c.until && d.keepalive == c.keepalive && d.timely == c.timely && d.token == c.token
    && d.result == c.result && d.stamp == c.stamp && d.cleanupError == c.cleanupError
    && (d.gotTc <==> c.gotTc || z.event == TcKey) && (d.gotConfirm <==> c.gotConfirm || z.event == Verified)
    && (d.pending <==> c.pending && !z.completed) && (d.done <==> c.done || (c.pending && z.completed))
  }

  function Prepared(c: Context, z: Pass): Context {
    AfterConclude(AfterAttend(c, z), z)
  }

  lemma CalmPass(c: Context, z: Pass)
    requires Calm(c, z)
    ensures Likewise(c, Prepared(c, z), z)
    ensures AfterRuntime(c, z) == AfterLapse(AfterDispatch(Prepared(c, z), z), z)
  {
    hide AfterDispatch, AfterLapse, AfterFail;
  }

  lemma Breaks(c: Context, d: Context, z: Pass, why: Result)
    requires Likewise(c, d, z) && c.phase != INSTALLING && why != AddressConflict && why != LocalLeave && why != WorkLimit
    ensures Broken(c, AfterFail(d, why, z.stops), why, z.stops)
    ensures AfterLapse(AfterFail(d, why, z.stops), z) == AfterFail(d, why, z.stops)
  {
  }

  // ---------- the keepalive ----------

  /** A keepalive's reply that ends operation: another query's, a refusal, a parent without either method, the sixth loss. */
  predicate ReplyFails(c: Context, z: Pass) {
    || z.query == NodeQuery || z.reply == Rejected
    || (z.reply == Success && !z.timeoutKeepalive && !z.pollKeepalive)
    || ((z.reply == TimedOut || z.reply == Undelivered) && c.attempts == 6)
  }

  /** A new keepalive is due: the parent is not kept by polling, the deadline has passed and no query is out. */
  predicate Due(c: Context, z: Pass) {
    !z.taken && !z.pollKeepalive && !z.querying && Past(c.last, c.keepalive)
  }

  /** The due keepalive cannot be asked: a refusal at once, a busy transport after 312500 more. */
  predicate AskFails(c: Context, z: Pass) {
    Due(c, z) && z.asked != Fine && (z.asked == Busy ==> Past(c.last, On(c.keepalive, 312500)))
  }

  predicate OperationFails(c: Context, z: Pass) {
    if z.taken then ReplyFails(c, z) else AskFails(c, z)
  }

  /** A run that stays in operation: the count of requests since the last answer, and when the next is due. */
  predicate Operates(c: Context, z: Pass, n: Context) {
    && n.phase == READY && n.member == c.member && n.result == c.result
    && n.attempts == (if z.taken && z.reply == Success then 0
                      else if Due(c, z) && z.asked == Fine then (c.attempts + 1) % 256
                      else c.attempts)
    && n.keepalive == (if !z.taken then c.keepalive
                       else if z.reply == Success then On(c.last, 1875000)
                       else On(c.last, 312500))
  }

  lemma ReplyIs(d: Context, z: Pass)
    requires d.phase == READY && z.taken
    ensures if ReplyFails(d, z) then AfterOperate(d, z) == AfterFail(d, ParentFailed, z.stops)
            else AfterOperate(d, z) == AfterReply(d, z.reply != Success) && Operates(d, z, AfterReply(d, z.reply != Success))
  {
    hide AfterFail, AfterAsk, AfterReply, Operates, Expired;
    ReplyRests(d, z.reply != Success);
    ReplyOperates(d, z);
  }

  lemma ReplyRests(d: Context, lost: bool)
    ensures var e := AfterReply(d, lost); !Expired(e.last, e.keepalive)
  {
    hide Expired;
    OnAhead(d.last, KEEPALIVE);
    OnAhead(d.last, KEEPALIVE_RETRY);
  }

  lemma ReplyOperates(d: Context, z: Pass)
    requires d.phase == READY && z.taken
    ensures Operates(d, z, AfterReply(d, z.reply != Success))
  {
    hide Past;
  }

  lemma DueIs(d: Context, z: Pass)
    requires d.phase == READY && !z.taken
    ensures if AskFails(d, z) then AfterOperate(d, z) == AfterFail(d, ParentFailed, z.stops)
            else Operates(d, z, AfterOperate(d, z))
  {
    hide AfterFail, AfterReply, Past, Expired, AfterOperate, Counting, Operates;
    PastIs(d.last, d.keepalive);
    PastIs(d.last, On(d.keepalive, 312500));
    DueTo(d, z);
    CountingOperates(d, z);
  }

  /** One request more without an answer. */
  function Counting(d: Context): Context {
    d.(attempts := (d.attempts + 1) % 256)
  }

  lemma DueTo(d: Context, z: Pass)
    requires !z.taken
    ensures AfterOperate(d, z) == if z.pollKeepalive || !Expired(d.last, d.keepalive) || z.querying then d
                                  else if z.asked == Fine then Counting(d)
                                  else if z.asked == Busy && !Expired(d.last, Plus(d.keepalive, 312500)) then d
                                  else AfterFail(d, ParentFailed, z.stops)
  {
    hide AfterFail, Expired;
  }

  lemma CountingOperates(d: Context, z: Pass)
    requires d.phase == READY && !z.taken
    ensures if Due(d, z) && z.asked == Fine then Operates(d, z, Counting(d)) else Operates(d, z, d)
  {
    hide Past;
  }

  lemma OperationIs(d: Context, z: Pass)
    requires d.phase == READY
    ensures if OperationFails(d, z) then AfterOperate(d, z) == AfterFail(d, ParentFailed, z.stops)
            else Operates(d, z, AfterOperate(d, z))
  {
    hide AfterFail, AfterOperate, Operates, ReplyFails, AskFails;
    if z.taken { ReplyIs(d, z); } else { DueIs(d, z); }
  }

  /**
   A pass in operation. It ends the run, with the keys kept and the parent named as the cause, exactly if `OperationFails`;
   otherwise the run stays in operation with the count and the deadline of `Operates`. A served parent's Success starts the
   count and the whole interval anew, and asks for nothing in the same pass.
   */
  lemma OperationPass(c: Context, z: Pass)
    requires c.phase == READY && Calm(c, z)
    ensures var n := AfterRuntime(c, z);
            if OperationFails(c, z) then Broken(c, n, ParentFailed, z.stops) else Operates(c, z, n)
  {
    var d := Prepared(c, z);
    CalmPass(c, z);
    OperationAlike(c, d, z);
    Breaks(c, d, z, ParentFailed);
    OperationRests(d, z);
    hide AfterRuntime, Prepared, AfterFail, AfterOperate, Past, Calm;
    OperationIs(d, z);
  }

  lemma OperationAlike(c: Context, d: Context, z: Pass)
    requires Likewise(c, d, z)
    ensures OperationFails(d, z) == OperationFails(c, z) && forall n :: Operates(d, z, n) == Operates(c, z, n)
  {
    hide Past;
  }

  lemma OperationRests(d: Context, z: Pass)
    requires d.phase == READY
    ensures AfterDispatch(d, z) == AfterOperate(d, z)
    ensures AfterOperate(d, z).phase == READY ==> AfterLapse(AfterOperate(d, z), z) == AfterOperate(d, z)
  {
    hide AfterOperate;
  }

  /** A pass in operation at an instant. */
  datatype Tick = Tick(now: word, pass: Pass)

  /** Passes one after another, as long as the run is in operation. */
  function Through(c: Context, ticks: seq<Tick>): Context
    decreases |ticks|
  {
    if ticks == [] || c.phase != READY then c
    else Through(AfterRuntime(c.(last := ticks[0].now), ticks[0].pass), ticks[1..])
  }

  /** A request goes out in this pass. */
  predicate Asks(c: Context, z: Pass) {
    Due(c, z) && z.asked == Fine
  }

  /**
   The device object's side in one pass in operation: a reply answers the request that is out, and a request is out until
   it is answered; the answer is the parent's own, kept by a method, or lost; and no request is refused for good.
   */
  predicate Fair(d: Context, z: Pass, out: bool) {
    && Calm(d, z) && (z.taken ==> out) && (z.querying <==> out && !z.taken) && !AskFails(d, z)
    && z.query == ParentQuery && z.reply != Rejected && (z.reply == Success ==> z.timeoutKeepalive || z.pollKeepalive)
  }

  predicate Answered(c: Context, ticks: seq<Tick>, out: bool)
    decreases |ticks|
  {
    ticks == []
    || (var d, z := c.(last := ticks[0].now), ticks[0].pass;
        Fair(d, z, out) && Answered(AfterRuntime(d, z), ticks[1..], (out && !z.taken) || Asks(d, z)))
  }

  /** Lost replies in a row after one more pass. */
  function Longer(z: Pass, n: nat): nat {
    if !z.taken then n else if z.reply == Success then 0 else n + 1
  }

  /** Lost replies in a row, up to the sixth. */
  function Streak(ticks: seq<Tick>, n: nat): nat
    decreases |ticks|
  {
    if n == 6 || ticks == [] then n else Streak(ticks[1..], Longer(ticks[0].pass, n))
  }

  /** Over any passes: operation goes on exactly until six keepalives in a row have been lost, and ends with the parent named. */
  lemma {:induction false} SixLosses(c: Context, ticks: seq<Tick>, out: bool, n: nat)
    requires c.phase == READY && n < 6 && c.attempts == n + (if out then 1 else 0) && Answered(c, ticks, out)
    ensures var e := Through(c, ticks);
            if Streak(ticks, n) < 6 then e.phase == READY else e.result == ParentFailed && (e.phase == ABORTING || e.phase == FAULT)
    decreases |ticks|
  {
    if ticks != [] {
      var d, z := c.(last := ticks[0].now), ticks[0].pass;
      TickCounts(d, z, out, n);
      var e := AfterRuntime(d, z);
      hide AfterRuntime, Fair, Asks, Longer;
      if Longer(z, n) == 6 {
        assert Through(c, ticks) == Through(e, ticks[1..]) == e;
        assert Streak(ticks, n) == Streak(ticks[1..], 6) == 6;
      } else {
        SixLosses(e, ticks[1..], (out && !z.taken) || Asks(d, z), Longer(z, n));
      }
    }
  }

  /** One pass: the sixth loss ends operation, and the requests counted are the losses and the one out. */
  lemma TickCounts(d: Context, z: Pass, out: bool, n: nat)
    requires d.phase == READY && n < 6 && d.attempts == n + (if out then 1 else 0) && Fair(d, z, out)
    ensures var e := AfterRuntime(d, z);
            if Longer(z, n) == 6 then e.result == ParentFailed && (e.phase == ABORTING || e.phase == FAULT)
            else e.phase == READY && e.attempts == Longer(z, n) + (if (out && !z.taken) || Asks(d, z) then 1 else 0)
    ensures Longer(z, n) <= 6
  {
    OperationPass(d, z);
    hide AfterRuntime, Calm, Past;
  }

  // ---------- passes that break off whatever the phase ----------

  /** A reported failure names its cause; an address conflict and a local leave alone give up the keys of any run. */
  lemma ReportedPass(c: Context, z: Pass)
    requires z.outcome == Conflict || z.outcome == LeaveAsked || z.outcome == Insecure || z.outcome == Unsent
    requires c.phase != INSTALLING
    ensures var n := AfterRuntime(c, z);
            && n.phase == (if z.stops then ABORTING else FAULT) && !n.member
            && (z.outcome == Conflict ==> n.result == AddressConflict && n.abandon)
            && (z.outcome == LeaveAsked ==> n.result == LocalLeave && n.abandon)
            && (z.outcome == Insecure ==> Broken(c, n, Security, z.stops))
            && (z.outcome == Unsent ==> Broken(c, n, TransmitFailed, z.stops))
  {
    hide AfterAttend, AfterDispatch, AfterLapse, AfterConclude;
  }

  /** A key update moves an operating run on; in any other phase it ends it, as evidence out of time does. */
  lemma UpdatePass(c: Context, z: Pass)
    requires z.outcome == Fine || z.outcome == Busy || z.outcome == Other
    requires c.phase != INSTALLING && c.phase != FAULT
    ensures z.event == Update && c.phase == READY && z.cancelled && !Unconfirmed(c, z) ==> AfterRuntime(c, z).phase == UPDATING
    ensures z.event == Update && c.phase != READY ==> Broken(c, AfterRuntime(c, z), RecoveryRequired, z.stops)
    ensures (z.event == TcKey || z.event == Verified) && !c.timely ==> Broken(c, AfterRuntime(c, z), TcFailed, z.stops)
    ensures z.event == Leave && !Unconfirmed(c, z) ==> Broken(c, AfterRuntime(c, z), RemoteLeave, z.stops)
  {
    hide AfterRuntime;
    if z.event == Update && c.phase == READY && z.cancelled && !Unconfirmed(c, z) {
      UpdatingPass(c, z);
    } else if z.event == Leave && !Unconfirmed(c, z) {
      LeavingPass(c, z);
    } else if (z.event == Update && c.phase != READY) || ((z.event == TcKey || z.event == Verified) && !c.timely) {
      BarredPass(c, z);
    }
  }

  lemma BarredPass(c: Context, z: Pass)
    requires z.outcome == Fine || z.outcome == Busy || z.outcome == Other
    requires (z.event == Update && c.phase != READY) || ((z.event == TcKey || z.event == Verified) && !c.timely)
    requires c.phase != INSTALLING
    ensures Broken(c, AfterRuntime(c, z), if z.event == Update then RecoveryRequired else TcFailed, z.stops)
  {
    hide AfterDispatch, AfterLapse, AfterConclude;
  }

  lemma UpdatingPass(c: Context, z: Pass)
    requires (z.outcome == Fine || z.outcome == Busy || z.outcome == Other) && z.event == Update && z.cancelled && c.phase == READY
    requires !Unconfirmed(c, z)
    ensures AfterRuntime(c, z).phase == UPDATING
  {
    hide AfterDispatch, AfterLapse, AfterFail;
    Rests(AfterConclude(AfterUpdate(c), z), z);
  }

  lemma LeavingPass(c: Context, z: Pass)
    requires (z.outcome == Fine || z.outcome == Busy || z.outcome == Other) && z.event == Leave && !Unconfirmed(c, z)
    requires c.phase != INSTALLING
    ensures Broken(c, AfterRuntime(c, z), RemoteLeave, z.stops)
  {
    var f := AfterFail(c, RemoteLeave, z.stops);
    assert Broken(c, f, RemoteLeave, z.stops) && f.pending == c.pending;
    Rests(AfterConclude(f, z), z);
    hide AfterDispatch, AfterLapse, AfterFail;
  }

  /** No phase's own work and no wait touches a run that is updating or broken off. */
  lemma Rests(c: Context, z: Pass)
    ensures c.phase == UPDATING || c.phase == ABORTING || c.phase == FAULT ==> AfterLapse(AfterDispatch(c, z), z) == c
  {
    hide AfterFail, AfterKey, AfterAnnounce, AfterDescribe, AfterExchange, AfterEnter, AfterSettle, AfterPermit, AfterRecover, AfterOperate, Expired;
  }

  // ---------- the commissioning phases ----------

  /** Each phase has its own work. */
  lemma DispatchIs(c: Context, z: Pass)
    ensures c.phase == WAIT_KEY ==> AfterDispatch(c, z) == AfterKey(c, z)
    ensures c.phase == ANNOUNCING ==> AfterDispatch(c, z) == AfterAnnounce(c, z)
    ensures c.phase == NODE ==> AfterDispatch(c, z) == AfterDescribe(c, z)
    ensures c.phase == REQUESTING || c.phase == VERIFYING ==> AfterDispatch(c, z) == AfterExchange(c, z)
    ensures c.phase == WAIT_TC ==> AfterDispatch(c, z) == if c.gotTc then AfterEnter(c, VERIFYING, 0, c.keepalive) else c
    ensures c.phase == WAIT_CONFIRM ==> AfterDispatch(c, z) == if c.gotConfirm then AfterEnter(c, PARENT, c.issued, c.keepalive) else c
    ensures c.phase == PARENT ==> AfterDispatch(c, z) == AfterSettle(c, z)
    ensures c.phase == PERMIT ==> AfterDispatch(c, z) == AfterPermit(c, z)
    ensures c.phase == RECOVERING ==> AfterDispatch(c, z) == AfterRecover(c, z)
  {
    hide AfterKey, AfterAnnounce, AfterDescribe, AfterExchange, AfterEnter, AfterSettle, AfterPermit, AfterRecover, AfterOperate;
  }

  /** A wait can lapse in five phases only. */
  lemma LapseRests(c: Context, z: Pass)
    ensures c.phase != WAIT_KEY && c.phase != REQUESTING && c.phase != VERIFYING && c.phase != WAIT_TC && c.phase != WAIT_CONFIRM ==>
              AfterLapse(c, z) == c
    ensures (c.phase == REQUESTING || c.phase == VERIFYING) && c.issued == 0 ==> AfterLapse(c, z) == c
    ensures !Expired(c.last, c.until) ==> AfterLapse(c, z) == c
  {
    hide AfterFail, Expired;
  }

  /** Nothing of the phase's own work is done. */
  predicate Stays(c: Context, n: Context) {
    n.phase == c.phase && n.attempts == c.attempts && n.issued == c.issued && n.member == c.member && n.recovery == c.recovery
    && n.until == c.until && n.keepalive == c.keepalive && n.result == c.result
  }

  /** Another phase is entered with a fresh count of attempts. */
  predicate Enters(c: Context, n: Context, phase: nat) {
    n.phase == phase && n.attempts == 0 && n.member == c.member && n.result == c.result
  }

  /** Waiting for the network key: in time and with its announcement queued it makes a member. */
  lemma KeyPass(c: Context, z: Pass)
    requires c.phase == WAIT_KEY && Calm(c, z)
    ensures var n := AfterRuntime(c, z);
            if z.event == NetworkKey then
              if !c.timely then Broken(c, n, KeyTimeout, z.stops)
              else if !z.broadcast then Broken(c, n, TransmitFailed, z.stops)
              else n.phase == ANNOUNCING && n.member
            else if Past(c.last, c.until) then Broken(c, n, KeyTimeout, z.stops)
            else Stays(c, n)
  {
    hide AfterRuntime, AfterDispatch, Prepared, AfterFail, Past, Calm, Expired, Broken;
    var d := Prepared(c, z);
    CalmPass(c, z);
    DispatchIs(d, z);
    PastIs(c.last, c.until);
    Breaks(c, d, z, KeyTimeout);
    Breaks(c, d, z, TransmitFailed);
  }

  lemma AnnouncePass(c: Context, z: Pass)
    requires c.phase == ANNOUNCING && Calm(c, z)
    ensures var n := AfterRuntime(c, z);
            if !z.confirmed then Stays(c, n)
            else if z.lost then Broken(c, n, TransmitFailed, z.stops)
            else Enters(c, n, if c.recovery > 0 then PARENT else NODE)
  {
    hide AfterRuntime, AfterDispatch, AfterLapse, Prepared, AfterFail, Calm, Broken, Stays, Enters, AfterEnter;
    var d := Prepared(c, z);
    CalmPass(c, z);
    DispatchIs(d, z);
    LapseRests(d, z);
    EnterRests(c, d, z, if c.recovery > 0 then PARENT else NODE, d.keepalive);
    StaysAlike(c, d, z);
    Breaks(c, d, z, TransmitFailed);
  }

  lemma EnterRests(c: Context, d: Context, z: Pass, next: nat, keepalive: word)
    requires Likewise(c, d, z) && (next == PARENT || next == NODE || next == READY || next == PERMIT)
    ensures var n := AfterLapse(AfterEnter(d, next, d.issued, keepalive), z); Enters(c, n, next) && n.keepalive == keepalive
  {
    hide AfterLapse;
    LapseRests(AfterEnter(d, next, d.issued, keepalive), z);
  }

  lemma StaysAlike(c: Context, d: Context, z: Pass)
    requires Likewise(c, d, z)
    ensures Stays(c, d)
  {
  }

  lemma PermitPass(c: Context, z: Pass)
    requires c.phase == PERMIT && Calm(c, z)
    ensures var n := AfterRuntime(c, z);
            if !z.confirmed then Stays(c, n)
            else if z.lost || !z.ready then Broken(c, n, TransmitFailed, z.stops)
            else Enters(c, n, READY) && n.keepalive == On(c.last, 1875000)
  {
    hide AfterRuntime, AfterDispatch, AfterLapse, Prepared, AfterFail, Calm, Broken, Stays, Enters, AfterEnter;
    var d := Prepared(c, z);
    CalmPass(c, z);
    DispatchIs(d, z);
    LapseRests(d, z);
    EnterRests(c, d, z, READY, Plus(d.last, KEEPALIVE));
    StaysAlike(c, d, z);
    Breaks(c, d, z, TransmitFailed);
  }

  /** An unanswered query is put again, three times in all; no query out, it is put now. */
  predicate Queries(c: Context, z: Pass, n: Context, why: Result) {
    if z.taken && !((z.reply == TimedOut || z.reply == Undelivered) && c.attempts != 3) then Broken(c, n, why, z.stops)
    else if z.querying || z.asked == Busy then Stays(c, n)
    else if z.asked == Fine then Stays(c.(attempts := (c.attempts + 1) % 256), n)
    else Broken(c, n, why, z.stops)
  }

  lemma AskIs(c: Context, d: Context, z: Pass, why: Result)
    requires Likewise(c, d, z) && (c.phase == NODE || c.phase == PARENT) && why != AddressConflict && why != LocalLeave && why != WorkLimit
    ensures var n := AfterLapse(if z.querying then d else AfterAsk(d, z, why), z);
            if z.querying || z.asked == Busy then Stays(c, n)
            else if z.asked == Fine then Stays(c.(attempts := (c.attempts + 1) % 256), n)
            else Broken(c, n, why, z.stops)
  {
    hide AfterFail, AfterLapse, Expired, Broken;
    Breaks(c, d, z, why);
    LapseRests(d, z);
    LapseRests(d.(attempts := (d.attempts + 1) % 256), z);
  }

  /** The trust centre describes itself: a coordinator of revision 21 leads on, any other answer ends the run. */
  lemma NodePass(c: Context, z: Pass)
    requires c.phase == NODE && Calm(c, z)
    ensures var n := AfterRuntime(c, z);
            if z.taken && z.reply == Success && z.query == NodeQuery && z.coordinator then Enters(c, n, REQUESTING) && n.issued == 0
            else Queries(c, z, n, TcFailed)
  {
    hide AfterRuntime, AfterDispatch, Prepared, AfterFail, AfterAsk, Calm, Expired, Broken, AfterLapse, Stays, Enters;
    var d := Prepared(c, z);
    CalmPass(c, z);
    DispatchIs(d, z);
    Breaks(c, d, z, TcFailed);
    AskIs(c, d, z, TcFailed);
    RequestBegins(c, d, z, REQUESTING);
  }

  lemma RequestBegins(c: Context, d: Context, z: Pass, next: nat)
    requires Likewise(c, d, z) && (next == REQUESTING || next == VERIFYING)
    ensures var n := AfterLapse(AfterEnter(d, next, 0, d.keepalive), z); Enters(c, n, next) && n.issued == 0
  {
    hide Expired, AfterFail;
  }

  /** The parent's answer: kept by a method this device serves it opens operation, or the network first. */
  lemma ParentPass(c: Context, z: Pass)
    requires c.phase == PARENT && Calm(c, z)
    ensures var n := AfterRuntime(c, z);
            if z.taken && z.reply == Success && z.query == ParentQuery && z.known && (z.timeoutKeepalive || z.pollKeepalive) then
              if c.recovery > 0 then
                if z.announced then Enters(c, n, READY) && n.recovery == 3 && n.keepalive == On(c.last, 1875000)
                else Broken(c, n, TransmitFailed, z.stops)
              else if z.broadcast then Enters(c, n, PERMIT)
              else Broken(c, n, TransmitFailed, z.stops)
            else Queries(c, z, n, ParentFailed)
  {
    hide AfterRuntime, AfterDispatch, Prepared, AfterFail, AfterAsk, Calm, Expired, Broken, AfterLapse, Stays, Enters, AfterEnter;
    var d := Prepared(c, z);
    CalmPass(c, z);
    DispatchIs(d, z);
    Breaks(c, d, z, TransmitFailed);
    Breaks(c, d, z, ParentFailed);
    AskIs(c, d, z, ParentFailed);
    KindRests(c, d, z);
  }

  lemma KindRests(c: Context, d: Context, z: Pass)
    requires Likewise(c, d, z)
    ensures var n := AfterLapse(d.(phase := READY, attempts := 0, recovery := 3, keepalive := Plus(d.last, KEEPALIVE)), z);
            Enters(c, n, READY) && n.recovery == 3 && n.keepalive == On(c.last, 1875000)
    ensures Enters(c, AfterLapse(AfterEnter(d, PERMIT, d.issued, d.keepalive), z), PERMIT)
  {
    hide AfterLapse;
    LapseRests(d.(phase := READY, attempts := 0, recovery := 3, keepalive := Plus(d.last, KEEPALIVE)), z);
    EnterRests(c, d, z, PERMIT, d.keepalive);
  }

  // ---------- the key exchanges ----------

  /** The proof awaited has been heard, at the latest in this pass. */
  predicate Heard(c: Context, z: Pass) {
    if c.phase == REQUESTING || c.phase == WAIT_TC then c.gotTc || z.event == TcKey else c.gotConfirm || z.event == Verified
  }

  /** A request that is out of time is put again, three times in all. */
  predicate Repeats(c: Context, z: Pass, n: Context, phase: nat) {
    if c.attempts == 3 then Broken(c, n, TcFailed, z.stops) else Stays(c.(phase := phase, issued := 0), n)
  }

  /** A key exchange: put once, its wait started; lost, put again; confirmed, its answer awaited in what is left of the wait. */
  lemma ExchangePass(c: Context, z: Pass)
    requires (c.phase == REQUESTING || c.phase == VERIFYING) && Calm(c, z)
    ensures var n := AfterRuntime(c, z);
            if c.issued == 0 then
              if z.queued == Fine then Stays(c.(issued := 1, attempts := c.attempts + 1, until := On(c.last, 312500)), n)
              else if z.queued == Busy then Stays(c, n)
              else Broken(c, n, TcFailed, z.stops)
            else if !z.confirmed then
              if Past(c.last, c.until) && !Heard(c, z) then Broken(c, n, TcFailed, z.stops) else Stays(c, n)
            else if z.lost then
              if c.attempts == 3 then Broken(c, n, TransmitFailed, z.stops) else Stays(c.(issued := 0), n)
            else if Past(c.last, c.until) then Repeats(c, z, n, c.phase)
            else Stays(c.(phase := if c.phase == REQUESTING then WAIT_TC else WAIT_CONFIRM), n)
  {
    hide AfterRuntime, AfterDispatch, AfterExchange, Prepared, AfterFail, Past, Calm, Expired, Broken, AfterLapse, Stays, Repeats, Put, Unput, Awaiting, Heard;
    var d := Prepared(c, z);
    CalmPass(c, z);
    DispatchIs(d, z);
    ExchangeIs(d, z);
    Breaks(c, d, z, TcFailed);
    Breaks(c, d, z, TransmitFailed);
    ExchangeMoves(c, d, z);
    if c.issued != 0 {
      ExchangeLapses(c, d, z);
    }
    WaitLapses(c, d, z);
  }

  lemma ExchangeIs(d: Context, z: Pass)
    requires d.phase == REQUESTING || d.phase == VERIFYING
    ensures AfterExchange(d, z) == if d.issued == 0 then if z.queued == Fine then Put(d)
                                                        else if z.queued == Busy then d
                                                        else AfterFail(d, TcFailed, z.stops)
                                   else if !z.confirmed then d
                                   else if z.lost && d.attempts == 3 then AfterFail(d, TransmitFailed, z.stops)
                                   else if z.lost then Unput(d)
                                   else Awaiting(d)
  {
    hide AfterFail;
  }

  function Unput(d: Context): Context {
    d.(issued := 0)
  }

  /** The proof is waited for. */
  function Awaiting(d: Context): Context {
    d.(phase := if d.phase == REQUESTING then WAIT_TC else WAIT_CONFIRM)
  }

  lemma ExchangeMoves(c: Context, d: Context, z: Pass)
    requires Likewise(c, d, z) && (c.phase == REQUESTING || c.phase == VERIFYING)
    ensures c.issued == 0 ==> AfterLapse(d, z) == d && Stays(c, d)
    ensures AfterLapse(Put(d), z) == Put(d) && Stays(c.(issued := 1, attempts := c.attempts + 1, until := On(c.last, 312500)), Put(d))
    ensures AfterLapse(Unput(d), z) == Unput(d) && Stays(c.(issued := 0), Unput(d))
  {
    hide AfterLapse, Expired, Put;
    LapseRests(d, z);
    StaysAlike(c, d, z);
    PutMoves(c, d, z);
    LapseRests(Unput(d), z);
  }

  /** The request is put and its wait started. */
  function Put(d: Context): Context {
    d.(issued := 1, attempts := d.attempts + 1, until := Plus(d.last, EXCHANGE_WAIT))
  }

  lemma PutMoves(c: Context, d: Context, z: Pass)
    requires Likewise(c, d, z)
    ensures AfterLapse(Put(d), z) == Put(d) && Stays(c.(issued := 1, attempts := c.attempts + 1, until := On(c.last, 312500)), Put(d))
  {
    hide AfterLapse, Expired;
    OnAhead(d.last, EXCHANGE_WAIT);
    LapseRests(Put(d), z);
  }

  lemma ExchangeLapses(c: Context, d: Context, z: Pass)
    requires Likewise(c, d, z) && (c.phase == REQUESTING || c.phase == VERIFYING) && c.issued != 0
    ensures if Past(c.last, c.until) && !Heard(c, z) then Broken(c, AfterLapse(d, z), TcFailed, z.stops) else Stays(c, AfterLapse(d, z))
  {
    hide AfterFail, Past, Expired, Broken;
    PastIs(c.last, c.until);
    Breaks(c, d, z, TcFailed);
  }

  lemma WaitLapses(c: Context, d: Context, z: Pass)
    requires Likewise(c, d, z) && (c.phase == REQUESTING || c.phase == VERIFYING)
    ensures var n := AfterLapse(Awaiting(d), z);
            if Past(c.last, c.until) then Repeats(c, z, n, c.phase)
            else Stays(c.(phase := if c.phase == REQUESTING then WAIT_TC else WAIT_CONFIRM), n)
  {
    hide AfterFail, Past, Expired, Broken, AfterLapse, Stays;
    PastIs(c.last, c.until);
    BreaksLater(c, d, z);
    WaitingLapse(Awaiting(d), z);
    AwaitingStays(c, d, z);
  }

  lemma AwaitingStays(c: Context, d: Context, z: Pass)
    requires Likewise(c, d, z) && (c.phase == REQUESTING || c.phase == VERIFYING)
    ensures Stays(c.(phase := if c.phase == REQUESTING then WAIT_TC else WAIT_CONFIRM), Awaiting(d))
    ensures Stays(c.(phase := c.phase, issued := 0), Back(Awaiting(d)))
  {
  }

  /** The request is to be put again. */
  function Back(d: Context): Context {
    d.(phase := if d.phase == WAIT_TC then REQUESTING else VERIFYING, issued := 0)
  }

  lemma WaitingLapse(d: Context, z: Pass)
    requires d.phase == WAIT_TC || d.phase == WAIT_CONFIRM
    ensures AfterLapse(d, z) == if !Expired(d.last, d.until) then d
                                else if d.attempts == ATTEMPTS then AfterFail(d, TcFailed, z.stops)
                                else Back(d)
  {
    hide AfterFail, Expired;
  }

  /** Broken off from a later phase of commissioning alike. */
  lemma BreaksLater(c: Context, d: Context, z: Pass)
    requires Likewise(c, d, z) && (c.phase == REQUESTING || c.phase == VERIFYING)
    ensures Broken(c, AfterFail(Awaiting(d), TcFailed, z.stops), TcFailed, z.stops)
  {
  }

  /** Waiting for the proof of a key: once heard it leads on; out of time the request is put again. */
  lemma ProofPass(c: Context, z: Pass)
    requires (c.phase == WAIT_TC || c.phase == WAIT_CONFIRM) && Calm(c, z)
    ensures var n := AfterRuntime(c, z);
            if Heard(c, z) then Enters(c, n, if c.phase == WAIT_TC then VERIFYING else PARENT) && (c.phase == WAIT_TC ==> n.issued == 0)
            else if Past(c.last, c.until) then Repeats(c, z, n, if c.phase == WAIT_TC then REQUESTING else VERIFYING)
            else Stays(c, n)
  {
    hide AfterRuntime, AfterDispatch, Prepared, AfterFail, Past, Calm, Expired, Broken, AfterLapse, Stays, Enters, Repeats;
    var d := Prepared(c, z);
    CalmPass(c, z);
    DispatchIs(d, z);
    ProofMoves(c, d, z);
    ProofLapses(c, d, z);
  }

  lemma ProofMoves(c: Context, d: Context, z: Pass)
    requires Likewise(c, d, z) && (c.phase == WAIT_TC || c.phase == WAIT_CONFIRM)
    ensures var n := AfterLapse(AfterEnter(d, VERIFYING, 0, d.keepalive), z); Enters(c, n, VERIFYING) && n.issued == 0
    ensures Enters(c, AfterLapse(AfterEnter(d, PARENT, d.issued, d.keepalive), z), PARENT)
  {
    hide AfterLapse;
    LapseRests(AfterEnter(d, VERIFYING, 0, d.keepalive), z);
    LapseRests(AfterEnter(d, PARENT, d.issued, d.keepalive), z);
  }

  lemma ProofLapses(c: Context, d: Context, z: Pass)
    requires Likewise(c, d, z) && (c.phase == WAIT_TC || c.phase == WAIT_CONFIRM)
    ensures var n := AfterLapse(d, z);
            if Past(c.last, c.until) then Repeats(c, z, n, if c.phase == WAIT_TC then REQUESTING else VERIFYING) else Stays(c, n)
  {
    hide AfterFail, Past, Expired, Broken;
    PastIs(c.last, c.until);
    Breaks(c, d, z, TcFailed);
  }

  // ---------- recovery ----------

  /** Where the Rejoin Request stands once the pass's confirmation is counted: 0 to put, 1 out, 2 sent. */
  function Outstanding(c: Context, z: Pass): nat {
    if c.issued == 1 && z.confirmed then if z.lost then 0 else 2 else c.issued
  }

  /** The wait for the answer starts with the confirmation. */
  function Awaited(c: Context, z: Pass): word {
    if c.issued == 1 && z.confirmed && !z.lost then On(c.last, 30720) else c.until
  }

  /** The context once the pass's evidence and confirmation are counted. */
  function Counted(d: Context, z: Pass): Context {
    var h := if z.event == Rejoined then AfterHear(d) else d;
    if h.issued == 1 && z.confirmed then AfterRequest(h, z.lost) else h
  }

  lemma CountedIs(c: Context, d: Context, z: Pass)
    requires Likewise(c, d, z)
    ensures var e := Counted(d, z);
            && e.issued == Outstanding(c, z) && e.until == Awaited(c, z) && e.attempts == c.attempts && e.last == c.last
            && e.token == c.token && e.phase == c.phase && e.cleanupError == c.cleanupError && (e.recovery == 2 <==> c.recovery == 2 || z.event == Rejoined)
  {
    var h := if z.event == Rejoined then AfterHear(d) else d;
    assert h.issued == c.issued && h.until == c.until && h.last == c.last && h.attempts == c.attempts && h.token == c.token
           && h.phase == c.phase && h.cleanupError == c.cleanupError && (h.recovery == 2 <==> c.recovery == 2 || z.event == Rejoined);
    RequestIs(h, z.lost);
    hide AfterHear, AfterRequest, Likewise;
  }

  lemma RequestIs(h: Context, lost: bool)
    ensures var e := AfterRequest(h, lost);
            && e.issued == (if lost then 0 else 2) && e.until == (if lost then h.until else On(h.last, 30720)) && e.attempts == h.attempts
            && e.last == h.last && e.token == h.token && e.phase == h.phase && e.recovery == h.recovery && e.cleanupError == h.cleanupError
  {
  }

  lemma RecoverIs(d: Context, z: Pass)
    ensures AfterRecover(d, z) == if z.event == Refused then AfterFail(d, RejoinRefused, z.stops)
                                  else if Counted(d, z).issued == 1 then Counted(d, z)
                                  else AfterProgress(Counted(d, z), z)
  {
    hide AfterFail, AfterProgress, AfterHear, AfterRequest;
  }

  /** Broken off in recovery, with the keys kept. */
  lemma RecoveryBreaks(c: Context, e: Context, stops: bool, why: Result)
    requires e.phase == RECOVERING && c.phase == RECOVERING && e.cleanupError == c.cleanupError
    requires why != AddressConflict && why != LocalLeave
    ensures Broken(c, AfterFail(e, why, stops), why, stops)
  {
  }

  /** Recovery: refused, it ends; with the answer heard, verified keys and an idle transport the identity is installed again. */
  lemma RecoverPass(c: Context, z: Pass)
    requires c.phase == RECOVERING && Calm(c, z)
    ensures var n := AfterRuntime(c, z); var heard := c.recovery == 2 || z.event == Rejoined; var issued := Outstanding(c, z);
            if z.event == Refused then Broken(c, n, RejoinRefused, z.stops)
            else if issued == 1 then n.phase == RECOVERING && n.attempts == c.attempts
            else Progresses(c, z, n, heard, issued)
  {
    hide AfterRuntime, AfterDispatch, Prepared, Past, Calm, Expired, AfterLapse, AfterFail, Outstanding, Awaited, Counted, Broken, AfterProgress,
         AfterRecover, Progresses;
    var d := Prepared(c, z);
    CalmPass(c, z);
    DispatchIs(d, z);
    CountedIs(c, d, z);
    RecoverIs(d, z);
    RecoveryBreaks(c, d, z.stops, RejoinRefused);
    ProgressIs(c, Counted(d, z), z);
    ProgressRests(Counted(d, z), z);
    RecoveryRests(AfterRecover(d, z), z);
    FailFields(d, RejoinRefused, z.stops);
  }

  lemma RecoveryRests(n: Context, z: Pass)
    ensures n.phase == RECOVERING || n.phase == INSTALLING || n.phase == ABORTING || n.phase == FAULT ==> AfterLapse(n, z) == n
  {
    LapseRests(n, z);
    hide AfterLapse;
  }

  /** No request out: installed again, waited for, repeated up to three times, or ended. */
  predicate Progresses(c: Context, z: Pass, n: Context, heard: bool, issued: nat) {
    if !z.keys then Broken(c, n, Security, z.stops)
    else if heard && z.verified then
      if !z.idle then n.phase == RECOVERING && n.issued == issued
      else if c.token == 0xffff then Broken(c, n, InstallFailed, z.stops)
      else n.phase == INSTALLING && n.member && n.issued == 0 && n.token == c.token + 1 && n.until == On(c.last, 312500)
    else if issued != 0 && !Past(c.last, Awaited(c, z)) then n.phase == RECOVERING && n.issued == issued && n.attempts == c.attempts
    else if c.attempts == 3 then Broken(c, n, NoParent, z.stops)
    else if z.queued == Fine then n.phase == RECOVERING && n.issued == 1 && n.attempts == c.attempts + 1
    else if z.queued == Busy then n.phase == RECOVERING && n.issued == issued && n.attempts == c.attempts
    else Broken(c, n, TransmitFailed, z.stops)
  }

  /** The Rejoin Request is put. */
  function Rejoining(e: Context): Context {
    e.(issued := 1, attempts := e.attempts + 1)
  }

  function Reinstalling(e: Context, stops: bool): Context {
    AfterInstall(e.(member := true), stops)
  }

  lemma ProgressTo(e: Context, z: Pass)
    ensures AfterProgress(e, z) == if !z.keys then AfterFail(e, Security, z.stops)
                                   else if e.recovery == 2 && z.verified then if z.idle then Reinstalling(e, z.stops) else e
                                   else if e.issued != 0 && !Expired(e.last, e.until) then e
                                   else if e.attempts == 3 then AfterFail(e, NoParent, z.stops)
                                   else if z.queued == Fine then Rejoining(e)
                                   else if z.queued == Busy then e
                                   else AfterFail(e, TransmitFailed, z.stops)
  {
    hide AfterFail, Expired, AfterInstall;
  }

  lemma ProgressIs(c: Context, e: Context, z: Pass)
    requires e.phase == RECOVERING && c.phase == RECOVERING && e.attempts == c.attempts && e.last == c.last && e.token == c.token
    requires e.until == Awaited(c, z) && e.cleanupError == c.cleanupError
    ensures Progresses(c, z, AfterProgress(e, z), e.recovery == 2, e.issued)
  {
    hide AfterFail, Past, Expired, Awaited, Broken, Reinstalling, Rejoining, AfterProgress;
    ProgressTo(e, z);
    PastIs(e.last, e.until);
    RecoveryBreaks(c, e, z.stops, Security);
    RecoveryBreaks(c, e, z.stops, NoParent);
    RecoveryBreaks(c, e, z.stops, TransmitFailed);
    ReinstallIs(c, e, z.stops);
    RejoiningIs(e);
  }

  lemma RejoiningIs(e: Context)
    ensures Rejoining(e).phase == e.phase && Rejoining(e).issued == 1 && Rejoining(e).attempts == e.attempts + 1
  {
  }

  lemma ProgressRests(e: Context, z: Pass)
    requires e.phase == RECOVERING
    ensures var p := AfterProgress(e, z).phase; p == RECOVERING || p == INSTALLING || p == ABORTING || p == FAULT
  {
    hide AfterFail, Expired, Reinstalling, Rejoining, AfterProgress, Stopped;
    ProgressTo(e, z);
    FailFields(e, Security, z.stops);
    FailFields(e, NoParent, z.stops);
    FailFields(e, TransmitFailed, z.stops);
    ReinstallIs(e, e, z.stops);
    RejoiningIs(e);
    StoppedIs(z.stops);
  }

  lemma StoppedIs(stops: bool)
    ensures Stopped(stops) == if stops then ABORTING else FAULT
  {
  }

  lemma ReinstallIs(c: Context, e: Context, stops: bool)
    requires e.phase == RECOVERING && c.phase == RECOVERING && e.last == c.last && e.token == c.token && e.cleanupError == c.cleanupError
    ensures var n := Reinstalling(e, stops);
            if c.token == 0xffff then Broken(c, n, InstallFailed, stops)
            else n.phase == INSTALLING && n.member && n.issued == 0 && n.token == c.token + 1 && n.until == On(c.last, 312500)
  {
    hide AfterFail, AfterInstall, Broken;
    RecoveryBreaks(c, e.(member := true), stops, InstallFailed);
    ReinstallTo(e.(member := true), stops);
  }

  // ---------- the rest of a step ----------

  /** The identity's installation is confirmed: for the request that is out, by its token, in time and for this identity. */
  predicate Installs(c: Context, a: InstallAnswer) {
    a.confirmed && a.token == c.token && c.issued != 0 && !Past(c.last, c.until) && a.matches
  }

  /** Security failed in the installation: a run that was never a member gives up its keys. */
  predicate Unproven(c: Context, n: Context, stops: bool) {
    n.phase == (if stops then ABORTING else FAULT) && n.result == Security && !n.member && (n.abandon <==> c.recovery == 0 && !c.member)
    && (n.cleanupError <==> c.cleanupError || !stops)
  }

  /** The proofs a confirmed installation still asks for, by what the run is: recovering, rejoined, a member, or new. */
  predicate Proven(c: Context, a: InstallAnswer) {
    && (c.recovery == 1 ==> a.verified || a.rejoining)
    && (c.recovery == 2 ==> a.verified && c.member && a.broadcast)
    && (c.recovery != 1 && c.recovery != 2 && c.member ==> a.verified && a.announced && (a.permitted || c.recovery == 3))
  }

  /** Where a proven installation leads, and with which wait. */
  predicate LeadsOn(c: Context, n: Context) {
    if c.recovery == 1 then n.phase == RECOVERING && n.issued == 0 && n.attempts == 0
    else if c.recovery == 2 then n.phase == ANNOUNCING && n.issued == c.issued
    else if c.member then n.phase == READY && n.attempts == 0 && n.keepalive == On(c.last, 1875000)
    else n.phase == WAIT_KEY && n.until == On(c.stamp, 625000)
  }

  /** A step of the installation: requested once, confirmed in time, or ended; a fresh identity must persist. */
  lemma InstallPass(c: Context, a: InstallAnswer, stops: bool)
    requires c.phase == INSTALLING
    ensures var n := AfterInstallStep(c, a, stops);
            if !a.keys then Unproven(c, n, stops)
            else if Installs(c, a) then
              if !Proven(c, a) || (!c.member && !a.associated && !a.persisted) then Unproven(c, n, stops) else LeadsOn(c, n)
            else if Past(c.last, c.until) then n.phase == FAULT && n.result == InstallFailed
            else n.phase == INSTALLING && n.issued == (if c.issued == 0 then 1 else c.issued) && n.until == c.until && n.token == c.token
  {
    hide Past, Expired, AfterFail, Unproven, AfterProceed, LeadsOn, Given, Timeout, AfterInstallStep;
    PastIs(c.last, c.until);
    InstallTo(c, a, stops);
    UnprovenIs(c, stops);
    ProceedIs(c);
    GivenIs(c);
  }

  /** The installation is asked for. */
  function Given(c: Context): Context {
    c.(issued := 1)
  }

  function Timeout(c: Context): Context {
    c.(phase := FAULT, result := InstallFailed)
  }

  lemma GivenIs(c: Context)
    ensures Given(c).phase == c.phase && Given(c).issued == 1 && Given(c).until == c.until && Given(c).token == c.token
    ensures Timeout(c).phase == FAULT && Timeout(c).result == InstallFailed
  {
  }

  lemma InstallTo(c: Context, a: InstallAnswer, stops: bool)
    ensures var heard := a.confirmed && a.token == c.token && c.issued != 0 && !Expired(c.last, c.until) && a.matches;
            AfterInstallStep(c, a, stops) ==
              if !a.keys || (heard && !c.member && !a.associated && !a.persisted) then AfterFail(c, Security, stops)
              else if heard then if Proven(c, a) then AfterProceed(c) else AfterFail(c, Security, stops)
              else if Expired(c.last, c.until) then Timeout(c)
              else if c.issued == 0 then Given(c)
              else c
  {
    hide Expired, AfterFail, AfterProceed;
  }

  lemma UnprovenIs(c: Context, stops: bool)
    requires c.phase == INSTALLING
    ensures Unproven(c, AfterFail(c, Security, stops), stops)
  {
  }

  lemma ProceedIs(c: Context)
    ensures LeadsOn(c, AfterProceed(c))
  {
  }

  /** The run is counted against its instant: the 4096th step at one instant is the last, and how it ends keeps the keys. */
  lemma GuardPass(c: Context, stops: bool)
    ensures var n := AfterGuard(c, stops); var counted := 3 <= c.phase && (c.phase < 15 || c.phase == 19);
            if !counted then n == c
            else if c.workAt != c.last then Stays(c, n) && n.workAt == c.last && n.steps == 1
            else if c.steps != 4096 then Stays(c, n) && n.workAt == c.last && n.steps == c.steps + 1
            else
              && n.result == WorkLimit && !n.member
              && n.phase == (if (c.phase == INSTALLING && c.issued != 0) || !stops then FAULT else ABORTING)
              && n.abandon == (c.phase == INSTALLING && c.issued != 0 && c.abandon)
  {
    hide AfterFail;
    LimitEnds(c, stops);
  }

  lemma LimitEnds(c: Context, stops: bool)
    ensures var n := AfterFail(c, WorkLimit, stops);
            n.result == WorkLimit && !n.member && !n.abandon && n.phase == if stops then ABORTING else FAULT
  {
  }

  /** Recovery begins as no member, with the identity to be installed under a new token, and with its own whole time. */
  lemma ResumePass(c: Context)
    ensures var n := AfterResume(c);
            && n.phase == INSTALLING && n.workspace == RuntimeWork && !n.member && n.recovery == 1 && n.token == c.token + 1
            && n.issued == 0 && n.until == On(c.last, 312500) && n.commissionUntil == On(c.last, 6250000)
  {
  }

  /** Commissioning and recovery end when their whole time is up; an operating run has no such end. */
  lemma OverduePass(c: Context, stops: bool)
    ensures var n := AfterOverdue(c, stops);
            if (4 <= c.phase <= 12 || c.phase == 19) && Past(c.last, c.commissionUntil) then
              Broken(c, n, if c.recovery > 0 then NoParent else KeyTimeout, stops)
            else n == c
  {
    hide AfterFail, Broken, Past, Expired;
    PastIs(c.last, c.commissionUntil);
    if c.phase != INSTALLING {
      BreaksOff(c, NoParent, stops);
      BreaksOff(c, KeyTimeout, stops);
    }
  }

  /** The transport's own failures: its engine's is final at once, any other ends a live run and a durable Leave. */
  lemma CarryPass(c: Context, t: Carriage)
    requires c.phase != INSTALLING
    ensures var n := AfterCarry(c, t);
            if t.engineFault then n.phase == FAULT && n.result == TransmitFailed && !n.member
            else if !t.failed then n == c
            else if c.phase == LEAVING then n.phase == FAILED && n.cleanupError
            else if c.phase < ABORTING || c.phase == RECOVERING then Broken(c, n, TransmitFailed, t.stopsFailed)
            else n.phase == c.phase && n.cleanupError
    ensures Carries(c, t) <==> !t.engineFault && !(t.failed && c.phase == LEAVING)
  {
    hide AfterFail, Broken;
    BreaksOff(c, TransmitFailed, t.stopsFailed);
  }

  /** An update is over when its transport is idle: the identity is installed under a new token. */
  lemma FinishPass(c: Context, t: Carriage)
    ensures var n := AfterFinish(c, t);
            if c.phase != UPDATING || (!t.untaken && !t.idle) then n == c
            else if t.untaken then Broken(c, n, TransmitFailed, t.stopsUpdate)
            else if c.token == 0xffff then Broken(c, n, InstallFailed, t.stopsUpdate)
            else n.phase == INSTALLING && n.token == c.token + 1 && n.issued == 0 && n.until == On(c.last, 312500) && n.member == c.member
  {
    hide AfterFail, Broken;
    if c.phase == UPDATING {
      BreaksOff(c, TransmitFailed, t.stopsUpdate);
      BreaksOff(c, InstallFailed, t.stopsUpdate);
      ReinstallTo(c, t.stopsUpdate);
      hide AfterInstall;
    }
  }

  lemma ReinstallTo(c: Context, stops: bool)
    ensures var n := AfterInstall(c, stops);
            if c.token == 0xffff then n == AfterFail(c, InstallFailed, stops)
            else n.phase == INSTALLING && n.token == c.token + 1 && n.issued == 0 && n.until == On(c.last, 312500) && n.member == c.member
  {
    hide AfterFail;
  }

  lemma BreaksOff(c: Context, why: Result, stops: bool)
    requires c.phase != INSTALLING && why != AddressConflict && why != LocalLeave && why != WorkLimit
    ensures Broken(c, AfterFail(c, why, stops), why, stops)
  {
  }

  /** The cleanup: the Leave goes out only for a run that gives up its keys, and its confirmation ends the run. */
  lemma DrainPass(c: Context, t: Carriage)
    ensures var n := AfterDrain(c, t);
            if c.phase == ABORTING then
              n.phase == (if !t.drained || (t.completed && !t.confirmed) then ABORTING
                          else if c.abandon && t.keys && !t.left && t.departs then LEAVING
                          else FAILED)
            else if c.phase == LEAVING && t.confirmed then n.phase == FAILED && (n.cleanupError <==> t.lost)
            else n == c
  {
    if c.phase == ABORTING {
      CleanupEnds(c, t);
    }
    hide AfterSurrender;
  }

  /** An application's packet still in the transport is given back, done, once the cleanup has its confirmation. */
  lemma SurrenderPass(c: Context, t: Carriage)
    ensures var n := AfterDrain(c, t); var given := c.phase == ABORTING && t.drained && t.completed && t.confirmed;
            (n.pending <==> c.pending && !given) && (n.done <==> c.done || (c.pending && given))
  {
    hide AfterSurrender, AfterClose;
    SurrenderFields(c, true);
    SurrenderFields(c, t.lost);
    SurrenderFields(c, c.cleanupError);
    var d := AfterSurrender(c);
    SurrenderFields(d, true);
    SurrenderFields(d, d.cleanupError);
  }

  lemma SurrenderFields(c: Context, lost: bool)
    ensures var d := AfterSurrender(c); !d.pending && (d.done <==> c.done || c.pending)
    ensures AfterClose(c, lost).pending == c.pending && AfterClose(c, lost).done == c.done
  {
  }

  /** The run is one that its device object is served for. */
  predicate Alive(phase: nat) {
    phase < 15 || phase == 19
  }

  /** A live run's device object is served once: before the transport if a frame waits, else after it unless it failed. */
  lemma PumpPass(c: Context, z: Pass, t: Carriage)
    ensures AfterPump(c, z, t) == if !Alive(c.phase) then AfterCarry(c, t)
                                  else if t.received then AfterCarry(AfterRuntime(c, z), t)
                                  else if t.engineFault || t.failed then AfterCarry(c, t)
                                  else AfterRuntime(c, z)
  {
    hide AfterRuntime, AfterFail;
    if t.failed {
      FailFields(c, TransmitFailed, t.stopsFailed);
    }
  }

  /** After that an update is finished and the cleanup done, unless the transport's failure was the last word. */
  lemma ServePass(c: Context, x: Answers)
    ensures var t := x.carriage; var d := AfterOverdue(c, t.stopsOverdue); var e := AfterPump(d, x.pass, t);
            var carried := if Alive(d.phase) && t.received then AfterRuntime(d, x.pass) else d;
            AfterServe(c, x) == if t.engineFault || (t.failed && carried.phase == LEAVING) then e else AfterDrain(AfterFinish(e, t), t)
  {
    hide AfterRuntime, AfterFail, AfterOverdue, AfterPump, AfterDrain, AfterFinish;
  }

  /** A step from the installation on: the guard, then the installation or all the rest. */
  lemma RunPass(c: Context, x: Answers)
    ensures var d := AfterGuard(c, x.guardStops);
            AfterRun(c, x) == if c.workAt == c.last && c.steps == 4096 && c.phase == INSTALLING && c.issued != 0 then d
                              else if d.phase == INSTALLING then AfterInstallStep(d, x.install, x.stops)
                              else AfterServe(d, x)
  {
    hide AfterGuard, AfterServe, AfterInstallStep;
  }
}
