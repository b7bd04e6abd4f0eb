/**
 What the commissioning controller may record over a whole run, whatever its children answer, and what every such
 record implies: how READY is reached, when a durable Leave is sent, and how often each exchange is tried.
 */
module BdbSpec {
  import opened Words

  const IDLE := 0
  const SCANNING := 1
  const ASSOCIATING := 2
  const INSTALLING := 3
  const WAIT_KEY := 4
  const ANNOUNCING := 5
  const NODE := 6
  const REQUESTING := 7
  const WAIT_TC := 8
  const VERIFYING := 9
  const WAIT_CONFIRM := 10
  const PARENT := 11
  const PERMIT := 12
  const READY := 13
  const UPDATING := 14
  const ABORTING := 15
  const LEAVING := 16
  const FAILED := 17
  const FAULT := 18
  const RECOVERING := 19

  const SECURITY_WAIT := 625000
  const EXCHANGE_WAIT := 312500
  const REJOIN_WAIT := 30720
  const COMMISSION_WAIT := 6250000
  const KEEPALIVE := 1875000
  const KEEPALIVE_RETRY := 312500
  const KEEPALIVE_ATTEMPTS := 6
  const ATTEMPTS := 3
  const STALL_STEPS := 4096
  const LAST_TOKEN := 0xffff

  datatype Result = Ok | Argument | State | Clock | Security | RecoveryRequired | ScanFailed | NoParent | AssociationFailed
                  | InstallFailed | KeyTimeout | TransmitFailed | TcFailed | ParentFailed | AddressConflict | RemoteLeave
                  | Full | Malformed | Ignored | WorkLimit | RejoinRefused | LocalLeave

  datatype Event = Quiet | NetworkKey | TcKey | Verified | Update | Leave | Rejoined | Refused

  datatype Exchange = Scan | Association | RequestKey | VerifyKey | Rejoin

  /** A phase entered, an event acted upon, an exchange begun, a failure noted. */
  datatype Mark =
    | Entered(phase: nat)
    | Associated(stamp: word)
    | Heard(event: Event, arrival: word, deadline: word)
    | Asked(exchange: Exchange)
    | Failed(result: Result, abandon: bool)

  datatype Trail = Start | Then(before: Trail, mark: Mark)

  predicate Live(phase: nat) {
    phase < ABORTING || phase == RECOVERING
  }

  /** The phases under the same-instant work guard. */
  predicate Guarded(phase: nat) {
    phase >= INSTALLING && Live(phase)
  }

  predicate Expired(now: word, until: word) {
    Reached(now, until)
  }

  // ---------- reading a trail ----------

  ghost function Current(t: Trail): nat {
    match t
    case Start => IDLE
    case Then(b, m) => if m.Entered? then m.phase else Current(b)
  }

  ghost predicate Visited(t: Trail, phase: nat) {
    t.Then? && (t.mark == Entered(phase) || Visited(t.before, phase))
  }

  ghost predicate Hears(t: Trail, event: Event) {
    t.Then? && ((t.mark.Heard? && t.mark.event == event) || Hears(t.before, event))
  }

  predicate InTime(m: Mark, event: Event) {
    m.Heard? && m.event == event && !Expired(m.arrival, m.deadline)
  }

  /** The event was acted upon, and its frame had arrived before its deadline. */
  ghost predicate Proved(t: Trail, event: Event) {
    t.Then? && (InTime(t.mark, event) || Proved(t.before, event))
  }

  ghost function StampOf(t: Trail): word {
    match t
    case Start => 0
    case Then(b, m) => if m.Associated? then m.stamp else StampOf(b)
  }

  ghost function Count(t: Trail, exchange: Exchange): nat {
    match t
    case Start => 0
    case Then(b, m) => Count(b, exchange) + if m == Asked(exchange) then 1 else 0
  }

  /** Whether the latest failure asked for a durable Leave. */
  ghost predicate Departs(t: Trail) {
    t.Then? && if t.mark.Failed? then t.mark.abandon else Departs(t.before)
  }

  /** The result of the latest failure; none yet is Ok. */
  ghost function Cause(t: Trail): Result {
    match t
    case Start => Ok
    case Then(b, m) => if m.Failed? then m.result else Cause(b)
  }

  /** A mark that leads a run out of FAULT. */
  ghost predicate Overwrite(t: Trail, m: Mark) {
    m.Entered? && m.phase != FAULT && Current(t) == FAULT
  }

  /** How often a run was led out of FAULT. */
  ghost function Overwrites(t: Trail): nat {
    match t
    case Start => 0
    case Then(b, m) => Overwrites(b) + if Overwrite(b, m) then 1 else 0
  }

  /** From `s` on, the run was at FAULT at least once. */
  ghost predicate FaultWithin(t: Trail, s: Trail) {
    Current(t) == FAULT || (t != s && t.Then? && FaultWithin(t.before, s))
  }

  ghost predicate Fresh(t: Trail) {
    Visited(t, SCANNING)
  }

  ghost predicate Resumed(t: Trail) {
    Current(t) != IDLE && !Fresh(t)
  }

  ghost predicate Extends(t: Trail, s: Trail) {
    t == s || (t.Then? && Extends(t.before, s))
  }

  // ---------- what may come next ----------

  ghost predicate Abandons(t: Trail, result: Result) {
    || result == AddressConflict || result == LocalLeave
    || (result != WorkLimit && Current(t) < READY && !Resumed(t) && !(Current(t) == INSTALLING && Visited(t, READY)))
  }

  /** The only ways forward, and what each needs to have been seen. */
  ghost predicate Advances(t: Trail, phase: nat) {
    var c := Current(t);
    || (c == IDLE && (phase == SCANNING || phase == INSTALLING))
    || (c == SCANNING && phase == ASSOCIATING)
    || (c == ASSOCIATING && phase == INSTALLING)
    || (c == INSTALLING && phase == WAIT_KEY && Fresh(t) && !Visited(t, READY))
    || (c == INSTALLING && phase == RECOVERING && Resumed(t) && !Hears(t, Rejoined) && !Visited(t, READY))
    || (c == INSTALLING && phase == ANNOUNCING && Resumed(t) && Hears(t, Rejoined) && !Visited(t, READY))
    || (c == INSTALLING && phase == READY && Visited(t, READY))
    || (c == WAIT_KEY && phase == ANNOUNCING && InTime(t.mark, NetworkKey)
        && t.mark.deadline == Plus(StampOf(t), SECURITY_WAIT))
    || (c == ANNOUNCING && phase == (if Fresh(t) then NODE else PARENT))
    || (c == NODE && phase == REQUESTING)
    || (c == REQUESTING && phase == WAIT_TC)
    || (c == WAIT_TC && (phase == REQUESTING || (phase == VERIFYING && Proved(t, TcKey))))
    || (c == VERIFYING && phase == WAIT_CONFIRM)
    || (c == WAIT_CONFIRM && (phase == VERIFYING || (phase == PARENT && Proved(t, Verified))))
    || (c == PARENT && phase == (if Fresh(t) then PERMIT else READY))
    || (c == PERMIT && phase == READY)
    || (c == READY && phase == UPDATING && t.mark.Heard? && t.mark.event == Update)
    || (c == UPDATING && phase == INSTALLING)
    || (c == RECOVERING && phase == INSTALLING && Hears(t, Rejoined))
  }

  /** A second failure noted in one pass re-enters ABORTING, even from the FAULT the first one caused. */
  ghost predicate Ends(t: Trail, phase: nat) {
    var c := Current(t);
    || (phase == ABORTING && t.Then? && t.mark.Failed?)
    || (phase == FAULT && c != IDLE)
    || (phase == FAILED && (c == SCANNING || c == ASSOCIATING || c == ABORTING || c == LEAVING))
    || (phase == LEAVING && c == ABORTING && Departs(t))
  }

  /** A failure was just noted and acted upon. */
  ghost predicate JustFailed(t: Trail) {
    t.Then? && (t.mark == Entered(ABORTING) || t.mark == Entered(FAULT)) && t.before.Then? && t.before.mark.Failed?
  }

  /** The phase an exchange is begun in. */
  function Asking(exchange: Exchange): nat {
    match exchange
    case Scan => SCANNING
    case Association => ASSOCIATING
    case RequestKey => REQUESTING
    case VerifyKey => VERIFYING
    case Rejoin => RECOVERING
  }

  ghost predicate Allowed(t: Trail, m: Mark) {
    var c := Current(t);
    && c != FAILED
    && match m {
       case Entered(p) => Advances(t, p) || Ends(t, p)
       case Associated(_) => c == ASSOCIATING
       case Heard(e, _, _) =>
         && Live(c)
         && (e == NetworkKey ==> c == WAIT_KEY) && (e == Update ==> c == READY) && (e == Rejoined ==> c == RECOVERING)
       case Asked(k) => c == Asking(k)
       case Failed(r, a) => ((Live(c) && c != IDLE) || JustFailed(t)) && (a <==> Abandons(t, r))
     }
  }

  ghost predicate Legal(t: Trail) {
    t.Then? ==> Legal(t.before) && Allowed(t.before, t.mark)
  }

  /** What a controller needs to know of a trail one mark longer. */
  ghost predicate Grew(s: Trail, m: Mark, t: Trail) {
    && t == Then(s, m) && Legal(t)
    && Current(t) == (if m.Entered? then m.phase else Current(s))
    && (Fresh(t) <==> m == Entered(SCANNING) || Fresh(s)) && (Visited(t, READY) <==> m == Entered(READY) || Visited(s, READY))
    && (Hears(t, Rejoined) <==> (m.Heard? && m.event == Rejoined) || Hears(s, Rejoined))
    && (Proved(t, TcKey) <==> InTime(m, TcKey) || Proved(s, TcKey))
    && (Proved(t, Verified) <==> InTime(m, Verified) || Proved(s, Verified))
    && (Departs(t) <==> if m.Failed? then m.abandon else Departs(s))
    && Cause(t) == (if m.Failed? then m.result else Cause(s))
    && StampOf(t) == (if m.Associated? then m.stamp else StampOf(s))
    && Overwrites(t) == Overwrites(s) + (if Overwrite(s, m) then 1 else 0)
    && Tally(t) == (if m.Asked? then Charged(Tally(s), m.exchange) else Tally(s))
  }

  datatype Tries = Tries(scans: nat, associations: nat, requests: nat, verifications: nat, rejoins: nat)

  ghost function Tally(t: Trail): Tries {
    Tries(Count(t, Scan), Count(t, Association), Count(t, RequestKey), Count(t, VerifyKey), Count(t, Rejoin))
  }

  function Tried(n: Tries, exchange: Exchange): nat {
    match exchange
    case Scan => n.scans
    case Association => n.associations
    case RequestKey => n.requests
    case VerifyKey => n.verifications
    case Rejoin => n.rejoins
  }

  function Charged(n: Tries, exchange: Exchange): Tries {
    match exchange
    case Scan => n.(scans := n.scans + 1)
    case Association => n.(associations := n.associations + 1)
    case RequestKey => n.(requests := n.requests + 1)
    case VerifyKey => n.(verifications := n.verifications + 1)
    case Rejoin => n.(rejoins := n.rejoins + 1)
  }

  lemma Growing(s: Trail, m: Mark)
    requires Legal(s) && Allowed(s, m)
    ensures Grew(s, m, Then(s, m))
  {
    hide Allowed, Tally;
    TallyGrows(s, m);
  }

  lemma TallyGrows(s: Trail, m: Mark)
    ensures Tally(Then(s, m)) == if m.Asked? then Charged(Tally(s), m.exchange) else Tally(s)
  {
  }

  lemma {:induction false} OverwritesGrow(t: Trail, s: Trail)
    requires Extends(t, s)
    ensures Overwrites(s) <= Overwrites(t)
  {
    if t != s {
      OverwritesGrow(t.before, s);
    }
  }

  /** A run that is not led out of FAULT stays there. */
  lemma {:induction false} FaultStands(t: Trail, s: Trail)
    requires Extends(t, s) && Overwrites(t) == Overwrites(s) && FaultWithin(t, s)
    ensures Current(t) == FAULT
  {
    if t != s {
      OverwritesGrow(t.before, s);
      if FaultWithin(t.before, s) {
        FaultStands(t.before, s);
      }
    }
  }

  // ---------- routes ----------

  datatype Sight = At(phase: nat) | By(event: Event)

  datatype Route = Origin | Via(before: Route, sight: Sight)

  predicate Shows(m: Mark, s: Sight) {
    match s
    case At(p) => m == Entered(p)
    case By(e) => if e == Rejoined then m.Heard? && m.event == e else InTime(m, e)
  }

  /** The trail shows the route's sights in the route's order. */
  ghost predicate Passed(t: Trail, r: Route)
    decreases t
  {
    r.Origin? || (t.Then? && ((Shows(t.mark, r.sight) && Passed(t.before, r.before)) || Passed(t.before, r)))
  }

  /** Every phase from scanning up to `phase`, with the network key in time just before announcing. */
  function FreshRoute(phase: nat): Route {
    if phase == IDLE then Origin
    else if phase == ANNOUNCING then Via(Via(FreshRoute(WAIT_KEY), By(NetworkKey)), At(ANNOUNCING))
    else Via(FreshRoute(phase - 1), At(phase))
  }

  const REJOINED_ROUTE := Via(Via(Via(Origin, At(INSTALLING)), At(RECOVERING)), By(Rejoined))
  const REINSTALLED_ROUTE := Via(REJOINED_ROUTE, At(INSTALLING))
  const ANNOUNCED_ROUTE := Via(REINSTALLED_ROUTE, At(ANNOUNCING))
  const PARENT_ROUTE := Via(ANNOUNCED_ROUTE, At(PARENT))
  const RECOVERED_ROUTE := Via(PARENT_ROUTE, At(READY))

  lemma {:induction false} PassedPrefix(t: Trail, r: Route)
    requires r.Via? && Passed(t, r)
    ensures Passed(t, r.before)
    decreases t
  {
    if r.before.Via? {
      if Shows(t.mark, r.sight) && Passed(t.before, r.before) {
      } else {
        PassedPrefix(t.before, r);
      }
    }
  }

  lemma {:induction false} FreshPrefix(t: Trail, phase: nat, earlier: nat)
    requires earlier <= phase && Passed(t, FreshRoute(phase))
    ensures Passed(t, FreshRoute(earlier))
  {
    if earlier < phase {
      var r := FreshRoute(phase);
      PassedPrefix(t, r);
      if phase == ANNOUNCING {
        PassedPrefix(t, r.before);
      }
      FreshPrefix(t, phase - 1, earlier);
    }
  }

  lemma {:induction false} IdleIsBlank(t: Trail, phase: nat)
    requires Legal(t) && Current(t) == IDLE
    ensures !Visited(t, phase)
  {
    if t.Then? {
      IdleIsBlank(t.before, phase);
    }
  }

  lemma {:induction false} CurrentVisited(t: Trail)
    requires Legal(t) && Current(t) != IDLE
    ensures Visited(t, Current(t))
  {
    if !t.mark.Entered? {
      CurrentVisited(t.before);
    }
  }

  /** Once READY, a run that is still live is READY, updating, or reinstalling. */
  lemma {:induction false} AfterReady(t: Trail)
    requires Legal(t)
    ensures Visited(t, READY) && Live(Current(t)) ==> Current(t) in {READY, UPDATING, INSTALLING}
    ensures Current(t) == UPDATING ==> Visited(t, READY)
  {
    if t.Then? {
      AfterReady(t.before);
      if Current(t.before) == IDLE {
        IdleIsBlank(t.before, READY);
      }
      if Current(t.before) == READY {
        CurrentVisited(t.before);
      }
    }
  }

  /** A fresh run enters each phase only by way of all the phases before it, the network key having come in time. */
  lemma {:induction false} FreshByRoute(t: Trail, phase: nat)
    requires Legal(t) && Fresh(t) && SCANNING <= phase <= READY && Visited(t, phase)
    ensures Passed(t, FreshRoute(phase))
  {
    var b := t.before;
    if t.mark != Entered(phase) {
      if t.mark == Entered(SCANNING) {
        IdleIsBlank(b, phase);
        if Current(b) != IDLE {
          assert false;
        }
      } else {
        FreshByRoute(b, phase);
      }
    } else if phase == SCANNING {
    } else {
      EntryByRoute(b, phase);
    }
  }

  lemma {:induction false} EntryByRoute(b: Trail, phase: nat)
    requires Legal(b) && Fresh(b) && SCANNING < phase <= READY && Allowed(b, Entered(phase))
    ensures Passed(Then(b, Entered(phase)), FreshRoute(phase))
    decreases b
  {
    var c := Current(b);
    if c == IDLE {
      IdleIsBlank(b, SCANNING);
    } else if c == WAIT_KEY {
      CurrentVisited(b);
      FreshByRoute(b.before, WAIT_KEY) by {
        KeyBefore(b);
      }
      assert Passed(b, Via(FreshRoute(WAIT_KEY), By(NetworkKey)));
    } else if c == UPDATING {
      AfterReady(b);
      FreshByRoute(b, READY);
      FreshPrefix(b, READY, INSTALLING);
    } else if phase == READY && c == INSTALLING {
      FreshByRoute(b, READY);
    } else {
      CurrentVisited(b);
      if c == RECOVERING {
        FreshNeverRecovers(b);
      } else {
        FreshByRoute(b, c);
        FreshPrefix(b, c, if c < phase then phase - 1 else phase);
      }
    }
  }

  lemma KeyBefore(b: Trail)
    requires Legal(b) && Fresh(b) && Current(b) == WAIT_KEY && b.mark.Heard?
    ensures Fresh(b.before) && Visited(b.before, WAIT_KEY)
  {
    CurrentVisited(b.before);
  }

  lemma {:induction false} FreshNeverRecovers(t: Trail)
    requires Legal(t) && Fresh(t)
    ensures !Visited(t, RECOVERING) && !Hears(t, Rejoined) && Current(t) != RECOVERING
  {
    if t.mark == Entered(SCANNING) {
      NothingRecovered(t.before);
      IdleIsBlank(t.before, RECOVERING);
    } else {
      FreshNeverRecovers(t.before);
    }
  }

  lemma {:induction false} NothingRecovered(t: Trail)
    requires Legal(t) && Current(t) == IDLE
    ensures !Hears(t, Rejoined)
    ensures t.Then? ==> !t.mark.Failed?
  {
    if t.Then? {
      NothingRecovered(t.before);
    }
  }

  lemma {:induction false} KeysBehind(t: Trail)
    requires Legal(t) && Fresh(t)
    ensures Visited(t, VERIFYING) ==> Proved(t, TcKey)
    ensures Visited(t, PARENT) ==> Proved(t, Verified)
    ensures Current(t) == WAIT_CONFIRM ==> Visited(t, VERIFYING)
  {
    if t.mark == Entered(SCANNING) {
      IdleIsBlank(t.before, VERIFYING);
      IdleIsBlank(t.before, PARENT);
    } else {
      KeysBehind(t.before);
      if Current(t.before) == VERIFYING {
        CurrentVisited(t.before);
      }
    }
  }

  /**
   A run started fresh is READY only after a scan, an association, an installed address and a network key that
   arrived in time, an announced and described device, and Trust Center key and confirmation that arrived in time.
   */
  lemma FreshReady(t: Trail)
    requires Legal(t) && Fresh(t) && Visited(t, READY)
    ensures Passed(t, FreshRoute(READY))
    ensures Proved(t, NetworkKey) && Proved(t, TcKey) && Proved(t, Verified)
  {
    FreshByRoute(t, READY);
    FreshPrefix(t, READY, ANNOUNCING);
    PassedPrefix(t, FreshRoute(ANNOUNCING));
    PassedProves(t, FreshRoute(WAIT_KEY), NetworkKey);
    FreshPrefix(t, READY, PARENT);
    FreshPrefix(t, READY, VERIFYING);
    PassedVisits(t, FreshRoute(PARENT - 1), PARENT);
    PassedVisits(t, FreshRoute(VERIFYING - 1), VERIFYING);
    KeysBehind(t);
  }

  lemma {:induction false} PassedVisits(t: Trail, r: Route, phase: nat)
    requires Passed(t, Via(r, At(phase)))
    ensures Visited(t, phase)
    decreases t
  {
    if t.mark != Entered(phase) {
      PassedVisits(t.before, r, phase);
    }
  }

  lemma {:induction false} PassedProves(t: Trail, r: Route, event: Event)
    requires event != Rejoined && Passed(t, Via(r, By(event)))
    ensures Proved(t, event)
    decreases t
  {
    if !InTime(t.mark, event) {
      PassedProves(t.before, r, event);
    }
  }

  /** Persisted membership alone never makes READY: a Rejoin Response, then a second install, come first. */
  lemma {:induction false} RecoveredReady(t: Trail)
    requires Legal(t) && Resumed(t)
    ensures Passed(t, Via(Origin, At(INSTALLING)))
    ensures Visited(t, RECOVERING) || Current(t) == RECOVERING ==> Passed(t, REJOINED_ROUTE.before)
    ensures Hears(t, Rejoined) ==> Passed(t, REJOINED_ROUTE)
    ensures Current(t) == INSTALLING && Hears(t, Rejoined) ==> Passed(t, REINSTALLED_ROUTE)
    ensures Visited(t, ANNOUNCING) || Current(t) == ANNOUNCING ==> Passed(t, ANNOUNCED_ROUTE)
    ensures Visited(t, PARENT) || Current(t) == PARENT ==> Passed(t, PARENT_ROUTE)
    ensures Visited(t, READY) || Current(t) in {READY, UPDATING} ==> Passed(t, RECOVERED_ROUTE)
    ensures Current(t) !in {SCANNING, ASSOCIATING, WAIT_KEY, NODE, REQUESTING, WAIT_TC, VERIFYING, WAIT_CONFIRM, PERMIT}
  {
    var b := t.before;
    if Current(b) == IDLE {
      IdleIsBlank(b, RECOVERING);
      IdleIsBlank(b, ANNOUNCING);
      IdleIsBlank(b, PARENT);
      IdleIsBlank(b, READY);
      NothingRecovered(b);
    } else {
      RecoveredReady(b);
      if Visited(b, READY) {
        PassedPrefix(b, RECOVERED_ROUTE);
        PassedPrefix(b, PARENT_ROUTE);
        PassedPrefix(b, ANNOUNCED_ROUTE);
      }
      AfterReady(b);
    }
  }

  /**
   A durable Leave follows only an address conflict, an accepted request to leave, or the abandonment of a fresh
   commissioning that was never READY; exhausted work, a lost parent and a failed recovery keep the keys.
   */
  lemma {:induction false} LeaveJustified(t: Trail)
    requires Legal(t) && Departs(t)
    ensures Cause(t) == AddressConflict || Cause(t) == LocalLeave || (Cause(t) != WorkLimit && !Resumed(t) && !Operated(t))
  {
    if t.mark.Failed? {
      AfterReady(t.before);
    } else {
      LeaveJustified(t.before);
      if Current(t.before) == IDLE {
        NothingFails(t.before);
      }
    }
  }

  /** A resumed run gives up its keys for an address conflict or a request to leave, and for nothing else. */
  lemma {:induction false} ResumedDeparts(t: Trail)
    requires Legal(t) && Resumed(t)
    ensures Departs(t) <==> Cause(t) == AddressConflict || Cause(t) == LocalLeave
  {
    if Current(t.before) == IDLE {
      NothingFails(t.before);
    } else if !t.mark.Failed? {
      ResumedDeparts(t.before);
    }
  }

  /** READY had been reached when the latest failure was noted. */
  ghost predicate Operated(t: Trail) {
    t.Then? && if t.mark.Failed? then Visited(t.before, READY) else Operated(t.before)
  }

  lemma {:induction false} NothingFails(t: Trail)
    requires Legal(t) && Current(t) == IDLE
    ensures !Departs(t) && Cause(t) == Ok
  {
    if t.Then? {
      NothingFails(t.before);
    }
  }

  lemma {:induction false} LeavingDeparts(t: Trail)
    requires Legal(t) && Visited(t, LEAVING)
    ensures Departs(t)
  {
    if t.mark != Entered(LEAVING) {
      LeavingDeparts(t.before);
      LeavingEnds(t);
    }
  }

  lemma {:induction false} LeavingEnds(t: Trail)
    requires Legal(t) && Visited(t, LEAVING)
    ensures Current(t) == LEAVING || Current(t) == FAILED || Current(t) == FAULT
    ensures !t.mark.Failed?
  {
    if t.mark != Entered(LEAVING) {
      LeavingEnds(t.before);
      if t.mark.Failed? && JustFailed(t.before) {
        LeavingEnds(t.before.before);
      }
    }
  }

  /** FAILED is the end of a run. */
  lemma {:induction false} FailedIsFinal(t: Trail, s: Trail)
    requires Legal(t) && Extends(t, s) && Current(s) == FAILED
    ensures t == s
  {
    if t != s {
      FailedIsFinal(t.before, s);
    }
  }
}
