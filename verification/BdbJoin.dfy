/**
 Commissioning and recovery of a centralized, install-code end device. Scan, association, transport, device object,
 security keys and the platform are unseen: each answers whatever it likes, through the parameters below.
 */
module BdbJoin {
  import opened Words
  import opened BdbSpec
  import opened BdbStep
  import P = BdbPasses

  /** What has happened: the run so far, the run when the present call began, and when the last published frame arrived against which deadline. */
  datatype Past = Past(trail: Trail, origin: Trail, arrival: word, deadline: word)

  // ---------- what the context always says about the past ----------

  /** The evidence flags are exactly what the run has shown. */
  ghost predicate Evident(c: Context, p: Past) {
    && Legal(p.trail) && Extends(p.trail, p.origin) && c.phase == Current(p.trail)
    && (c.gotTc <==> Proved(p.trail, TcKey)) && (c.gotConfirm <==> Proved(p.trail, Verified))
    && (c.timely <==> !Expired(p.arrival, p.deadline))
    && (c.abandon <==> Departs(p.trail))
    && c.stamp == StampOf(p.trail)
    && (c.phase == ABORTING || c.phase == LEAVING ==> c.result == Cause(p.trail))
  }

  /** The phases a live run can be in: fresh, resumed, answered, recovered. */
  predicate Stands(phase: nat, recovery: nat, operated: bool) {
    if operated then phase == READY || phase == UPDATING || phase == INSTALLING
    else if recovery == 0 then phase < READY
    else if recovery == 1 then phase == INSTALLING || phase == RECOVERING
    else phase == RECOVERING || phase == INSTALLING || phase == ANNOUNCING || phase == PARENT
  }

  /** When a live run counts as a member: a fresh one with its network key, a resumed one once answered. */
  predicate Admitted(phase: nat, recovery: nat, operated: bool) {
    if recovery == 0 then phase >= ANNOUNCING || (phase == INSTALLING && operated) else recovery >= 2 && phase != RECOVERING
  }

  /** An answered recovery becomes a member on the way to its second install. */
  predicate Settled(c: Context) {
    !(c.phase == RECOVERING && c.recovery == 2)
  }

  /** How far the run is known to have come. */
  ghost predicate Placed(c: Context, p: Past) {
    var operated := Visited(p.trail, READY);
    && (c.recovery > 0 <==> Resumed(p.trail)) && c.recovery <= 3
    && (c.recovery >= 2 <==> Hears(p.trail, Rejoined)) && (c.recovery == 3 <==> c.recovery >= 2 && operated)
    && (c.recovery == 1 ==> !operated)
    && (c.phase == IDLE ==> p.trail == Start && c.token == 0 && c.attempts == 0 && !c.member)
    && (Live(c.phase) && c.phase != IDLE ==>
          Stands(c.phase, c.recovery, operated) && (Settled(c) ==> (c.member <==> Admitted(c.phase, c.recovery, operated))))
    && (c.phase == WAIT_KEY ==> c.until == Plus(c.stamp, SECURITY_WAIT) && (c.timely ==> p.deadline == c.until))
    && (c.phase <= INSTALLING && c.recovery == 0 && !operated ==> !c.timely)
    && c.token <= LAST_TOKEN && c.steps <= STALL_STEPS && !(c.pending && c.done) && (Live(c.phase) ==> !c.abandon)
  }

  /** Tries made so far, by exchange. */
  ghost predicate Spent(c: Context, p: Past) {
    var early, n := !Visited(p.trail, READY), Tally(p.trail);
    && (n.scans <= ATTEMPTS && n.associations <= ATTEMPTS && n.requests <= ATTEMPTS && n.verifications <= ATTEMPTS && n.rejoins <= ATTEMPTS)
    && (c.phase == SCANNING ==> c.attempts < ATTEMPTS && n.scans <= c.attempts + 1)
    && (c.phase <= SCANNING ==> n.associations == 0)
    && (c.phase == ASSOCIATING ==> c.attempts <= ATTEMPTS && n.associations == c.attempts)
    && (c.phase <= NODE && early && c.recovery == 0 ==> n.requests == 0)
    && (c.phase <= WAIT_TC && early && c.recovery == 0 ==> n.verifications == 0)
    && (c.phase == REQUESTING || c.phase == WAIT_TC ==> c.attempts <= ATTEMPTS && n.requests == c.attempts)
    && (c.phase == VERIFYING || c.phase == WAIT_CONFIRM ==> c.attempts <= ATTEMPTS && n.verifications == c.attempts)
    && ((c.phase == REQUESTING || c.phase == VERIFYING) && c.issued == 0 ==> c.attempts < ATTEMPTS)
    && (c.phase == INSTALLING && c.recovery == 1 ==> n.rejoins == 0)
    && (c.phase == RECOVERING ==> c.attempts <= ATTEMPTS && n.rejoins == c.attempts)
  }

  ghost predicate Sound(c: Context, p: Past) {
    Evident(c, p) && Placed(c, p) && Spent(c, p)
  }

  /** From installation to cleanup the runtime is the live workspace. */
  predicate Housed(c: Context) {
    Underway(c.phase) ==> c.workspace == RuntimeWork
  }

  ghost predicate Valid(c: Context, p: Past) {
    Sound(c, p) && Housed(c)
  }

  /** What no part of a step changes once the step has begun. */
  predicate Kept(c: Context, d: Context) {
    d.last == c.last && d.workAt == c.workAt && d.steps == c.steps && d.timely == c.timely && d.recovery >= c.recovery
  }

  /** Running, or broken off: past installation, and not yet finished. */
  predicate Afoot(phase: nat) {
    phase >= INSTALLING && phase != LEAVING && phase != FAILED
  }

  predicate Within(c: Context, d: Context) {
    Kept(c, d) && (Afoot(c.phase) ==> Afoot(d.phase))
  }

  /** Past installation a step touches neither the commissioning deadline nor, outside the confirmation itself, the application. */
  predicate Steady(c: Context, d: Context) {
    Within(c, d) && d.commissionUntil == c.commissionUntil && d.pending == c.pending && d.done == c.done
  }

  /** Part of one call, in which the run was led out of FAULT once or not at all. */
  ghost predicate Led(p: Past, q: Past, once: bool) {
    && q.origin == p.origin && q.arrival == p.arrival && q.deadline == p.deadline
    && Overwrites(q.trail) == Overwrites(p.trail) + if once then 1 else 0
  }

  ghost predicate Since(p: Past, q: Past) {
    Led(p, q, false)
  }

  lemma OperationDecides(c: Context, z: Pass)
    requires c.phase == READY
    ensures var n := AfterOperate(c, z);
            if P.OperationFails(c, z) then !Live(n.phase) && n.result == ParentFailed else P.Operates(c, z, n)
  {
    hide AfterOperate, AfterFail, P.Operates, P.OperationFails;
    P.OperationIs(c, z);
    FailFields(c, ParentFailed, z.stops);
  }

  lemma SinceThen(p: Past, q: Past, r: Past)
    requires Since(p, q) && Since(q, r)
    ensures Since(p, r)
  {
  }

  lemma SinceNow(p: Past)
    ensures Since(p, p)
  {
  }

  ghost function Noted(p: Past, m: Mark): Past {
    p.(trail := Then(p.trail, m))
  }

  // ---------- failing ----------

  ghost predicate MayFail(c: Context, p: Past) {
    c.workspace == RuntimeWork && ((Live(c.phase) && c.phase != IDLE) || (c.phase != FAILED && JustFailed(p.trail)))
  }

  lemma Noting(p: Past, m: Mark)
    requires Legal(p.trail) && Extends(p.trail, p.origin) && Allowed(p.trail, m)
    ensures Grew(p.trail, m, Noted(p, m).trail) && Extends(Noted(p, m).trail, p.origin)
  {
    Growing(p.trail, m);
  }

  lemma CondemnedAbandons(c: Context, p: Past, r: Result)
    requires Sound(c, p) && MayFail(c, p)
    ensures Condemned(c, r) <==> Abandons(p.trail, r)
    ensures Allowed(p.trail, Failed(r, Condemned(c, r)))
  {
    hide Legal, Current, Visited, Hears, Proved, Departs, StampOf, Cause, Tally, Overwrites, Extends, Spent;
  }

  lemma FailKeeps(c: Context, p: Past, r: Result, end: nat, d: Context)
    requires Sound(c, p) && MayFail(c, p) && (end == ABORTING || end == FAULT)
    requires d == c.(abandon := Condemned(c, r), result := r, member := false, phase := end, cleanupError := d.cleanupError)
    ensures Led(p, Noted(Noted(p, Failed(r, d.abandon)), Entered(end)), c.phase == FAULT && end != FAULT)
    ensures Condemned(c, r) <==> Abandons(p.trail, r)
    ensures Sound(d, Noted(Noted(p, Failed(r, d.abandon)), Entered(end))) && Housed(d)
    ensures c.workspace == RuntimeWork && Steady(c, d) && MayFail(d, Noted(Noted(p, Failed(r, d.abandon)), Entered(end)))
  {
    hide Legal, Current, Visited, Hears, Proved, Departs, StampOf, Cause, Tally, Overwrites, Extends, Abandons, Condemned,
         Stands, Admitted;
    CondemnedAbandons(c, p, r);
    var m := Failed(r, d.abandon);
    Noting(p, m);
    assert Allowed(Then(p.trail, m), Entered(end)) by {
      hide Spent, Evident, Placed;
      assert c.phase == Current(p.trail) by {
        assert Sound(c, p);
      }
    }
    Noting(Noted(p, m), Entered(end));
  }

  /** The steps forward that need only the flags the context already holds. */
  predicate Onward(c: Context, next: nat) {
    || (c.phase == ANNOUNCING && next == if c.recovery > 0 then PARENT else NODE)
    || (c.phase == NODE && next == REQUESTING)
    || (c.phase == WAIT_TC && next == VERIFYING && c.gotTc)
    || (c.phase == WAIT_CONFIRM && next == PARENT && c.gotConfirm)
    || (c.phase == PARENT && next == PERMIT && c.recovery == 0)
    || (c.phase == PERMIT && next == READY)
  }

  /** One more guarded step at its instant. */
  predicate Beaten(c: Context, d: Context) {
    d.workAt == d.last && d.steps == (if c.workAt == d.last then c.steps + 1 else 1) && d.steps <= STALL_STEPS
  }

  /**
   What a processed step guarantees: a guarded run either counts the step or leaves the guarded phases; once the
   same-instant work is used up it leaves them, and no durable Leave follows.
   */
  predicate Stepped(c: Context, d: Context) {
    && (Guarded(c.phase) && Guarded(d.phase) ==> Beaten(c, d))
    && (Guarded(c.phase) && c.workAt == d.last && c.steps == STALL_STEPS ==> !Live(d.phase) && d.phase != LEAVING && !d.abandon)
  }

  /** The phases that take frames. */
  predicate Listening(phase: nat) {
    WAIT_KEY <= phase < UPDATING || phase == RECOVERING
  }

  /** A resumed run that was broken off gives up its keys for two causes and for nothing else. */
  lemma InterruptedForsakes(c: Context, p: Past)
    requires Valid(c, p) && Interrupted(c)
    ensures c.abandon <==> Forsaken(c)
  {
    ResumedDeparts(p.trail);
  }

  /** What becomes of such a run at its cleanup, for every cleanup: it waits, leaves the network, or ends with its keys. */
  lemma CleanupDecides(c: Context, p: Past, t: Carriage)
    requires Valid(c, p) && Interrupted(c)
    ensures AfterDrain(c, t).phase == LEAVING <==> Forsaken(c) && Departable(t)
    ensures AfterDrain(c, t).phase == ABORTING <==> !t.drained || (t.completed && !t.confirmed)
    ensures AfterDrain(c, t).phase == FAILED <==> t.drained && (t.completed ==> t.confirmed) && !(Forsaken(c) && Departable(t))
  {
    hide Valid, AfterDrain;
    InterruptedForsakes(c, p);
    CleanupEnds(c, t);
  }

  class Commissioning {
    var ctx: Context
    ghost var past: Past

    ghost method Note(m: Mark)
      requires Legal(past.trail) && Extends(past.trail, past.origin) && Allowed(past.trail, m)
      modifies `past
      ensures past == Noted(old(past), m) && Grew(old(past.trail), m, past.trail) && Extends(past.trail, past.origin)
    {
      Noting(past, m);
      past := Noted(past, m);
    }

    constructor (now: word)
      ensures Valid(ctx, past) && ctx == Blank(now) && past.trail == Start
    {
      ctx := Blank(now);
      past := Past(Start, Start, 0, 0);
    }

    /** Note a failure: stop the transport, and remember whether the durable keys are to be given up. */
    method Fail(r: Result, stops: bool)
      requires Sound(ctx, past) && MayFail(ctx, past)
      modifies this
      ensures Valid(ctx, past) && Steady(old(ctx), ctx) && Led(old(past), past, old(ctx.phase) == FAULT && stops)
      ensures ctx.phase == Stopped(stops) && ctx.result == r && !ctx.member
      ensures ctx.abandon <==> Abandons(old(past.trail), r)
      ensures MayFail(ctx, past) && ctx.workspace == RuntimeWork && ctx.abandon == Condemned(old(ctx), r)
      ensures ctx.cleanupError == (old(ctx.cleanupError) || !stops) && ctx.recovery == old(ctx.recovery)
      ensures ctx.stamp == old(ctx.stamp)
      ensures ctx == AfterFail(old(ctx), r, stops)
    {
      hide Legal, Current, Visited, Hears, Proved, Departs, StampOf, Cause, Tally, Overwrites, Extends, Sound, Abandons, Steady,
           Within, MayFail, Housed, Condemned;
      var end := if stops then ABORTING else FAULT;
      var d := ctx.(abandon := Condemned(ctx, r), result := r, member := false, phase := end, cleanupError := ctx.cleanupError || !stops);
      FailKeeps(ctx, past, r, end, d);
      past := Noted(Noted(past, Failed(r, d.abandon)), Entered(end));
      ctx := d;
    }

    /** A failure of a live run that owns its runtime. */
    method FailLive(r: Result, stops: bool)
      requires Valid(ctx, past) && Guarded(ctx.phase)
      modifies this
      ensures Valid(ctx, past) && Steady(old(ctx), ctx) && Since(old(past), past) && MayFail(ctx, past)
      ensures ctx.phase == Stopped(stops) && ctx.result == r && !ctx.member
      ensures ctx.abandon <==> Abandons(old(past.trail), r)
      ensures ctx.recovery == old(ctx.recovery) && ctx.abandon == Condemned(old(ctx), r)
      ensures ctx == AfterFail(old(ctx), r, stops)
    {
      hide Legal, Current, Visited, Hears, Proved, Departs, StampOf, Cause, Tally, Overwrites, Extends, Sound, Abandons, Kept,
           Condemned, AfterFail;
      Fail(r, stops);
    }

    /** A fault the controller latches by itself. */
    method Latch(r: Result, member: bool)
      requires Sound(ctx, past) && ctx.phase != IDLE && ctx.phase != FAILED
      modifies this
      ensures Valid(ctx, past) && Steady(old(ctx), ctx) && Since(old(past), past)
      ensures ctx == old(ctx).(phase := FAULT, result := r, member := member)
    {
      hide Legal, Current, Visited, Hears, Proved, Departs, StampOf, Cause, Tally, Overwrites, Extends;
      ctx := ctx.(phase := FAULT, result := r, member := member);
      Note(Entered(FAULT));
    }

    method LatchLive(r: Result, member: bool)
      requires Valid(ctx, past) && Guarded(ctx.phase)
      modifies this
      ensures Valid(ctx, past) && Steady(old(ctx), ctx) && Since(old(past), past)
      ensures ctx.phase == FAULT && ctx.result == r && ctx.member == member
      ensures ctx == old(ctx).(phase := FAULT, result := r, member := member)
    {
      hide Sound, Kept, Since;
      Latch(r, member);
    }

    /** Begin installing the identity under a new token. */
    method Install(stops: bool)
      requires Sound(ctx, past) && ctx.workspace == RuntimeWork
      requires ctx.phase == ASSOCIATING || ctx.phase == UPDATING || (ctx.phase == RECOVERING && ctx.recovery == 2 && ctx.member)
      modifies this
      ensures Valid(ctx, past) && Steady(old(ctx), ctx) && Since(old(past), past)
      ensures if old(ctx.token) == LAST_TOKEN then ctx.result == InstallFailed && ctx.phase == Stopped(stops)
              else ctx.phase == INSTALLING && ctx.token == old(ctx.token) + 1 && ctx.issued == 0
                   && ctx.until == Plus(ctx.last, EXCHANGE_WAIT) && ctx.result == old(ctx.result) && ctx.recovery == old(ctx.recovery)
      ensures ctx.stamp == old(ctx.stamp) && ctx.recovery == old(ctx.recovery)
      ensures ctx == AfterInstall(old(ctx), stops)
    {
      hide Legal, Current, Visited, Hears, Proved, Departs, StampOf, Cause, Tally, Overwrites, Extends, AfterFail;
      if ctx.token == LAST_TOKEN {
        Fail(InstallFailed, stops);
      } else {
        ctx := ctx.(token := ctx.token + 1, issued := 0, phase := INSTALLING, until := Plus(ctx.last, EXCHANGE_WAIT));
        Note(Entered(INSTALLING));
      }
    }

    // ---------- scanning, associating, installing ----------

    /** One scan step; a finished scan is rescanned, refused, or followed by association. */
    method ScanStep(a: ScanAnswer) returns (r: Result)
      requires Valid(ctx, past) && ctx.phase == SCANNING
      modifies this
      ensures Valid(ctx, past) && Within(old(ctx), ctx) && Since(old(past), past)
      ensures ctx.phase == ASSOCIATING <==> a == ScanAnswer(true, Finished, true, true, a.overflow, a.unscanned, a.eligible, true, true, true, true)
      ensures ctx.phase == FAULT <==> a.stepped && a.status == Broken
      ensures ctx.phase == FAILED && ctx.result == NoParent && old(ctx.attempts) < 2 ==>
                !a.finished || a.overflow || a.unscanned || a.eligible
    {
      hide Legal, Current, Visited, Hears, Proved, Departs, StampOf, Cause, Tally, Overwrites, Extends, Sound;
      r := Ok;
      if !a.stepped {
        r := State;
      } else if a.status == Broken {
        Latch(ScanFailed, ctx.member);
      } else if a.status == Finished {
        r := Scanned(a);
      }
    }

    method Scanned(a: ScanAnswer) returns (r: Result)
      requires Valid(ctx, past) && ctx.phase == SCANNING && a.stepped && a.status == Finished
      modifies this
      ensures Valid(ctx, past) && Within(old(ctx), ctx) && Since(old(past), past)
      ensures ctx.phase == ASSOCIATING <==> a.keys && a.finished && a.selected && a.released && a.initialised && a.started
      ensures ctx.phase == ASSOCIATING || ctx.phase == SCANNING || ctx.phase == FAILED
      ensures ctx.phase == FAILED && ctx.result == NoParent && old(ctx.attempts) < 2 ==>
                !a.finished || a.overflow || a.unscanned || a.eligible
      ensures ctx.phase == FAILED ==>
                if !a.keys then ctx.result == Security
                else if a.finished && a.selected then ctx.result == AssociationFailed
                else ctx.result == NoParent || (ctx.result == ScanFailed && !a.started)
      ensures ctx.phase == SCANNING && r == Ok ==> ctx.attempts == old(ctx.attempts) + 1 < ATTEMPTS && a.started
    {
      hide Legal, Current, Visited, Hears, Proved, Departs, StampOf, Cause, Tally, Overwrites, Extends;
      var verdict := if !a.keys then Security else if a.finished && a.selected then Ok else NoParent;
      if !a.released {
        return State;
      }
      if verdict == NoParent && a.finished && !a.overflow && !a.unscanned && !a.eligible {
        if ctx.attempts + 1 < ATTEMPTS {
          if !a.initialised {
            ctx := ctx.(attempts := ctx.attempts + 1, workspace := NoWork);
            return State;
          }
          ctx := ctx.(attempts := ctx.attempts + 1, workspace := ScanWork);
          if a.started {
            Note(Asked(Scan));
            return Ok;
          }
          verdict := ScanFailed;
        }
      }
      if verdict != Ok {
        Refuse(verdict);
      } else if !a.initialised {
        ctx := ctx.(workspace := NoWork);
        return State;
      } else if !a.started {
        Refuse(AssociationFailed);
      } else {
        ctx := ctx.(phase := ASSOCIATING, attempts := 1, workspace := AssociationWork);
        Note(Entered(ASSOCIATING));
        Note(Asked(Association));
      }
      return Ok;
    }

    /** A commissioning run that ends before it owns a runtime. */
    method Refuse(r: Result)
      requires Sound(ctx, past) && (ctx.phase == SCANNING || ctx.phase == ASSOCIATING)
      modifies this
      ensures Valid(ctx, past) && Within(old(ctx), ctx) && Since(old(past), past) && ctx.phase == FAILED && ctx.result == r
      ensures ctx.stamp == old(ctx.stamp)
    {
      hide Legal, Current, Visited, Hears, Proved, Departs, StampOf, Cause, Tally, Overwrites, Extends;
      ctx := ctx.(phase := FAILED, result := r);
      Note(Entered(FAILED));
    }

    /** One association step; a finished attempt is repeated, refused, or followed by installation. */
    method AssociationStep(a: AssociationAnswer, stops: bool) returns (r: Result)
      requires Valid(ctx, past) && ctx.phase == ASSOCIATING
      modifies this
      ensures Valid(ctx, past) && Within(old(ctx), ctx) && Since(old(past), past)
      ensures ctx.phase == INSTALLING <==> a == AssociationAnswer(true, Finished, true, true, a.stamp, a.started, true) && old(ctx.token) < LAST_TOKEN
      ensures ctx.phase == FAILED && a.granted ==> !a.prepared
      ensures ctx.phase == ASSOCIATING && ctx.attempts != old(ctx.attempts) ==> !a.granted && a.started && old(ctx.attempts) < ATTEMPTS
    {
      hide Legal, Current, Visited, Hears, Proved, Departs, StampOf, Cause, Tally, Overwrites, Extends, Sound;
      r := Ok;
      if !a.stepped || (a.status == Finished && !a.taken) {
        r := State;
      } else if a.status == Broken {
        Latch(AssociationFailed, ctx.member);
      } else if a.status == Finished {
        Associate(a, stops);
      }
    }

    method Associate(a: AssociationAnswer, stops: bool)
      requires Valid(ctx, past) && ctx.phase == ASSOCIATING && a.stepped && a.status == Finished && a.taken
      modifies this
      ensures Valid(ctx, past) && Within(old(ctx), ctx) && Since(old(past), past)
      ensures ctx.phase == INSTALLING <==> a.granted && a.prepared && old(ctx.token) < LAST_TOKEN
      ensures ctx.phase == FAILED && a.granted ==> !a.prepared
      ensures ctx.phase == ASSOCIATING && ctx.attempts != old(ctx.attempts) ==> !a.granted && a.started && old(ctx.attempts) < ATTEMPTS
      ensures ctx.stamp == a.stamp
      ensures ctx.phase == INSTALLING ==> ctx.commissionUntil == Plus(ctx.last, COMMISSION_WAIT) && ctx.token == old(ctx.token) + 1
    {
      hide Legal, Current, Visited, Hears, Proved, Departs, StampOf, Cause, Tally, Overwrites, Extends, Sound, Valid, Housed,
           MayFail, Abandons, AfterInstall, AfterFail;
      Answered(a.stamp);
      if !a.granted {
        Reassociate(a.started);
      } else if !a.prepared {
        RefuseAssociation(State);
      } else {
        Equip(stops);
      }
    }

    method Answered(stamp: word)
      requires Valid(ctx, past) && ctx.phase == ASSOCIATING
      modifies this
      ensures Valid(ctx, past) && Within(old(ctx), ctx) && Since(old(past), past)
      ensures ctx == old(ctx).(stamp := stamp)
    {
      hide Legal, Current, Visited, Hears, Proved, Departs, StampOf, Cause, Tally, Overwrites, Extends;
      ctx := ctx.(stamp := stamp);
      Note(Associated(stamp));
    }

    method RefuseAssociation(r: Result)
      requires Valid(ctx, past) && ctx.phase == ASSOCIATING
      modifies this
      ensures Valid(ctx, past) && Within(old(ctx), ctx) && Since(old(past), past) && ctx.phase == FAILED
      ensures ctx.stamp == old(ctx.stamp)
    {
      hide Sound, Since;
      Refuse(r);
    }

    /** A refused attempt is repeated while tries are left. */
    method Reassociate(started: bool)
      requires Valid(ctx, past) && ctx.phase == ASSOCIATING
      modifies this
      ensures Valid(ctx, past) && Within(old(ctx), ctx) && Since(old(past), past) && ctx.stamp == old(ctx.stamp)
      ensures ctx.phase == FAILED || (ctx.phase == ASSOCIATING && started && old(ctx.attempts) < ATTEMPTS)
    {
      hide Legal, Current, Visited, Hears, Proved, Departs, StampOf, Cause, Tally, Overwrites, Extends;
      if ctx.attempts == ATTEMPTS || !started {
        Refuse(AssociationFailed);
      } else {
        ctx := ctx.(attempts := ctx.attempts + 1);
        Note(Asked(Association));
      }
    }

    /** A granted address is installed by the runtime, under the commissioning deadline. */
    method Equip(stops: bool)
      requires Valid(ctx, past) && ctx.phase == ASSOCIATING
      modifies this
      ensures Valid(ctx, past) && Within(old(ctx), ctx) && Since(old(past), past) && ctx.stamp == old(ctx.stamp)
      ensures if old(ctx.token) >= LAST_TOKEN then ctx.phase == Stopped(stops)
              else ctx.phase == INSTALLING && ctx.commissionUntil == Plus(ctx.last, COMMISSION_WAIT) && ctx.token == old(ctx.token) + 1
    {
      hide Legal, Current, Visited, Hears, Proved, Departs, StampOf, Cause, Tally, Overwrites, Extends, AfterInstall, AfterFail;
      ctx := ctx.(workspace := RuntimeWork, commissionUntil := Plus(ctx.last, COMMISSION_WAIT));
      Install(stops);
    }

    /** Request the installation once, and follow its confirmation into the phase the run has earned. */
    method InstallStep(a: InstallAnswer, stops: bool) returns (requested: bool)
      requires Valid(ctx, past) && ctx.phase == INSTALLING
      modifies this
      ensures Valid(ctx, past) && Steady(old(ctx), ctx) && Since(old(past), past)
      ensures !Confirmed(old(ctx), a) ==> ctx.phase == INSTALLING || ctx.phase == FAULT || !a.keys
      ensures requested ==> old(ctx.issued) == 0 && ctx.phase == INSTALLING && ctx.issued == 1 && ctx.token == old(ctx.token)
      ensures ctx.phase == READY ==> a.verified && a.announced && (a.permitted || ctx.recovery == 3)
      ensures ctx == AfterInstallStep(old(ctx), a, stops)
    {
      hide Legal, Current, Visited, Hears, Proved, Departs, StampOf, Cause, Tally, Overwrites, Extends, Sound, Valid, Housed,
           MayFail, Abandons, AfterFail, AfterInstalled;
      requested := false;
      if !a.keys || (Confirmed(ctx, a) && !ctx.member && !a.associated && !a.persisted) {
        FailLive(Security, stops);
      } else if Confirmed(ctx, a) {
        Installed(a, stops);
      } else if Expired(ctx.last, ctx.until) {
        LatchLive(InstallFailed, ctx.member);
      } else if ctx.issued == 0 {
        Request();
        requested := true;
      }
    }

    method Request()
      requires Valid(ctx, past) && ctx.phase == INSTALLING && ctx.issued == 0
      modifies `ctx
      ensures Valid(ctx, past) && Steady(old(ctx), ctx)
      ensures ctx.phase == INSTALLING && ctx.issued == 1 && ctx.token == old(ctx.token) && ctx.until == old(ctx.until)
      ensures ctx.recovery == old(ctx.recovery)
      ensures ctx == old(ctx).(issued := 1)
    {
      hide Legal, Current, Visited, Hears, Proved, Departs, StampOf, Cause, Tally, Overwrites, Extends;
      ctx := ctx.(issued := 1);
    }

    method Installed(a: InstallAnswer, stops: bool)
      requires Valid(ctx, past) && ctx.phase == INSTALLING
      modifies this
      ensures Valid(ctx, past) && Steady(old(ctx), ctx) && Since(old(past), past)
      ensures ctx.phase == RECOVERING <==> old(ctx.recovery) == 1 && (a.verified || a.rejoining)
      ensures ctx.phase == ANNOUNCING <==> old(ctx.recovery) == 2 && a.verified && a.broadcast
      ensures ctx.phase == WAIT_KEY <==> old(ctx.recovery) == 0 && !old(ctx.member)
      ensures ctx.phase == READY <==> (old(ctx.recovery) == 3 || (old(ctx.recovery) == 0 && old(ctx.member)))
                                      && a.verified && a.announced && (a.permitted || old(ctx.recovery) == 3)
      ensures ctx.phase == READY ==> ctx.recovery == old(ctx.recovery) && ctx.keepalive == Plus(ctx.last, KEEPALIVE)
      ensures ctx == AfterInstalled(old(ctx), a, stops)
    {
      hide Legal, Current, Visited, Hears, Proved, Departs, StampOf, Cause, Tally, Overwrites, Extends, Sound, AfterFail,
           AfterProceed;
      AnsweredMember();
      var admitted := if ctx.recovery == 1 then a.verified || a.rejoining
                      else if ctx.recovery == 2 then a.verified && ctx.member && a.broadcast
                      else !ctx.member || (a.verified && a.announced && (a.permitted || ctx.recovery == 3));
      if admitted {
        Proceed();
      } else {
        Fail(Security, stops);
      }
    }

    lemma AnsweredMember()
      requires Valid(ctx, past) && ctx.phase == INSTALLING
      ensures ctx.recovery <= 3 && (ctx.recovery >= 2 ==> ctx.member)
    {
    }

    /** Leave INSTALLING for the phase the run has earned. */
    method Proceed()
      requires Valid(ctx, past) && ctx.phase == INSTALLING
      modifies this
      ensures Valid(ctx, past) && Steady(old(ctx), ctx) && Since(old(past), past) && ctx.recovery == old(ctx.recovery)
      ensures ctx.phase == (if ctx.recovery == 1 then RECOVERING else if ctx.recovery == 2 then ANNOUNCING
                            else if old(ctx.member) then READY else WAIT_KEY)
      ensures ctx.phase == RECOVERING ==> ctx.issued == 0 && ctx.attempts == 0
      ensures ctx.phase == READY ==> ctx.attempts == 0 && ctx.keepalive == Plus(ctx.last, KEEPALIVE)
      ensures ctx == AfterProceed(old(ctx))
    {
      hide Legal, Current, Visited, Hears, Proved, Departs, StampOf, Cause, Tally, Overwrites, Extends;
      if ctx.recovery == 1 {
        ctx := ctx.(phase := RECOVERING, issued := 0, attempts := 0);
      } else if ctx.recovery == 2 {
        ctx := ctx.(phase := ANNOUNCING);
      } else if ctx.member {
        ctx := ctx.(phase := READY, attempts := 0, keepalive := Plus(ctx.last, KEEPALIVE));
      } else {
        ctx := ctx.(phase := WAIT_KEY, until := Plus(ctx.stamp, SECURITY_WAIT));
      }
      Note(Entered(ctx.phase));
    }

    // ---------- one pass over the device object's answers ----------

    /** What the device object's own outcome already decides. */
    method Judge(z: Pass) returns (on: bool)
      requires Valid(ctx, past) && Guarded(ctx.phase)
      modifies this
      ensures Valid(ctx, past) && Steady(old(ctx), ctx) && Since(old(past), past)
      ensures on <==> z.outcome in {Fine, Busy, Other}
      ensures on ==> ctx == old(ctx) && past == old(past)
      ensures !on ==> !Live(ctx.phase) && ctx.result == (match z.outcome
                                       case Conflict => AddressConflict
                                       case LeaveAsked => LocalLeave
                                       case Insecure => Security
                                       case _ => TransmitFailed)
      ensures ctx == if Sane(z) then old(ctx) else AfterFail(old(ctx), Verdict(z), z.stops)
    {
      hide Legal, Current, Visited, Hears, Proved, Departs, StampOf, Cause, Tally, Overwrites, Extends, Sound, Valid, Housed,
           MayFail, Abandons, AfterFail;
      on := false;
      match z.outcome {
        case Conflict => FailLive(AddressConflict, z.stops);
        case LeaveAsked => FailLive(LocalLeave, z.stops);
        case Insecure => FailLive(Security, z.stops);
        case Unsent => FailLive(TransmitFailed, z.stops);
        case _ => on := true;
      }
    }

    /** A leave, an update or Trust Center evidence; evidence counts only if its frame arrived before the deadline. */
    method Attend(z: Pass) returns (on: bool)
      requires Valid(ctx, past) && Guarded(ctx.phase) && ctx.phase != INSTALLING
      modifies this
      ensures Valid(ctx, past) && Steady(old(ctx), ctx) && Since(old(past), past)
      ensures on ==> MayFail(ctx, past)
      ensures z.event == Leave ==> on && ctx.result == RemoteLeave && !Live(ctx.phase)
      ensures z.event == Update ==> (ctx.phase == UPDATING <==> old(ctx.phase) == READY && z.cancelled)
      ensures z.event == Update && old(ctx.phase) != READY ==> !on && ctx.result == RecoveryRequired
      ensures z.event in {TcKey, Verified} ==> (on <==> ctx.timely) && (on ==> ctx.phase == old(ctx.phase))
      ensures z.event in {TcKey, Verified} && !on ==> ctx.result == TcFailed && !Live(ctx.phase)
      ensures z.event !in {Leave, Update, TcKey, Verified} ==> on && ctx == old(ctx)
      ensures Live(ctx.phase) ==> on && (ctx.phase == old(ctx.phase) || ctx.phase == UPDATING)
      ensures ctx == AfterAttend(old(ctx), z) && (on <==> Attends(old(ctx), z))
    {
      hide Legal, Current, Visited, Hears, Proved, Departs, StampOf, Cause, Tally, Overwrites, Extends, Sound, Valid, Housed,
           MayFail, Abandons, AfterFail, AfterUpdate, Since;
      ghost var begun := past;
      SinceNow(past);
      on := true;
      if z.event == Leave {
        FailLive(RemoteLeave, z.stops);
      } else if z.event == Update {
        if ctx.phase != READY {
          FailLive(RecoveryRequired, z.stops);
          on := false;
        } else {
          BeginUpdate();
          if !z.cancelled {
            ghost var updating := past;
            FailLive(TransmitFailed, z.stops);
            SinceThen(begun, updating, past);
          }
        }
      } else if z.event == TcKey || z.event == Verified {
        if ctx.timely {
          Believe(z.event);
        } else {
          FailLive(TcFailed, z.stops);
          on := false;
        }
      } else {
        LiveMayFail();
      }
    }

    lemma LiveMayFail()
      requires Valid(ctx, past) && Guarded(ctx.phase)
      ensures MayFail(ctx, past)
    {
    }

    method BeginUpdate()
      requires Valid(ctx, past) && ctx.phase == READY
      modifies this
      ensures Valid(ctx, past) && Steady(old(ctx), ctx) && Since(old(past), past)
      ensures ctx.phase == UPDATING && MayFail(ctx, past)
      ensures ctx == AfterUpdate(old(ctx))
    {
      hide Legal, Current, Visited, Hears, Proved, Departs, StampOf, Cause, Tally, Overwrites, Extends;
      ctx := ctx.(phase := UPDATING);
      Note(Heard(Update, past.arrival, past.deadline));
      Note(Entered(UPDATING));
    }

    method Believe(e: Event)
      requires Valid(ctx, past) && Guarded(ctx.phase) && ctx.timely && (e == TcKey || e == Verified)
      modifies this
      ensures Valid(ctx, past) && Steady(old(ctx), ctx) && Since(old(past), past)
      ensures ctx.phase == old(ctx.phase) && MayFail(ctx, past)
      ensures if e == TcKey then ctx.gotTc && ctx.gotConfirm == old(ctx.gotConfirm) else ctx.gotConfirm && ctx.gotTc == old(ctx.gotTc)
      ensures ctx == AfterProof(old(ctx), e)
    {
      hide Legal, Current, Visited, Hears, Proved, Departs, StampOf, Cause, Tally, Overwrites, Extends;
      ctx := ctx.(gotTc := ctx.gotTc || e == TcKey, gotConfirm := ctx.gotConfirm || e == Verified);
      Note(Heard(e, past.arrival, past.deadline));
    }

    /** Hand the application its one confirmation. */
    method Conclude(z: Pass) returns (on: bool)
      requires Valid(ctx, past) && MayFail(ctx, past)
      modifies this
      ensures Valid(ctx, past) && Within(old(ctx), ctx) && Led(old(past), past, old(ctx.phase) == FAULT && Unconfirmed(old(ctx), z) && z.stopsAgain)
      ensures on <==> !(old(ctx.pending) && z.completed && !z.applicationConfirmed)
      ensures on && old(ctx.pending) && z.completed ==> !ctx.pending && ctx.done
      ensures on ==> ctx.phase == old(ctx.phase)
      ensures !(old(ctx.pending) && z.completed) ==> ctx == old(ctx)
      ensures ctx.commissionUntil == old(ctx.commissionUntil) && ctx.recovery == old(ctx.recovery)
      ensures !on ==> ctx.phase == Stopped(z.stopsAgain)
      ensures !on ==> ctx.result == TransmitFailed && !Live(ctx.phase)
      ensures ctx == AfterConclude(old(ctx), z)
    {
      hide Legal, Current, Visited, Hears, Proved, Departs, StampOf, Cause, Tally, Overwrites, Extends, AfterFail;
      on := true;
      if ctx.pending && z.completed {
        if z.applicationConfirmed {
          ctx := ctx.(pending := false, done := true);
        } else {
          Fail(TransmitFailed, z.stopsAgain);
          on := false;
        }
      }
    }

    /** The network key, in time, makes the device a member that announces itself. */
    method AwaitKey(z: Pass)
      requires Valid(ctx, past) && ctx.phase == WAIT_KEY
      modifies this
      ensures Valid(ctx, past) && Steady(old(ctx), ctx) && Since(old(past), past)
      ensures ctx.phase == ANNOUNCING <==> z.event == NetworkKey && ctx.timely && z.broadcast
      ensures z.event == NetworkKey && !ctx.timely ==> ctx.result == KeyTimeout && !Live(ctx.phase)
      ensures z.event != NetworkKey ==> ctx == old(ctx)
      ensures Live(ctx.phase) ==> ctx.phase == WAIT_KEY || ctx.phase == ANNOUNCING
      ensures ctx == AfterKey(old(ctx), z)
    {
      hide Legal, Current, Visited, Hears, Proved, Departs, StampOf, Cause, Tally, Overwrites, Extends, Sound, Valid, Housed,
           MayFail, Abandons, AfterFail;
      if z.event == NetworkKey {
        if !ctx.timely {
          FailLive(KeyTimeout, z.stops);
        } else if !z.broadcast {
          FailLive(TransmitFailed, z.stops);
        } else {
          Join();
        }
      }
    }

    method Join()
      requires Valid(ctx, past) && ctx.phase == WAIT_KEY && ctx.timely
      modifies this
      ensures Valid(ctx, past) && Steady(old(ctx), ctx) && Since(old(past), past)
      ensures ctx.phase == ANNOUNCING && ctx.member
      ensures ctx == old(ctx).(member := true, phase := ANNOUNCING)
    {
      hide Legal, Current, Visited, Hears, Proved, Departs, StampOf, Cause, Tally, Overwrites, Extends;
      ctx := ctx.(member := true, phase := ANNOUNCING);
      Note(Heard(NetworkKey, past.arrival, past.deadline));
      Note(Entered(ANNOUNCING));
    }

    /** Enter a phase that needs no evidence of its own, its tries beginning afresh. */
    method Enter(next: nat, issued: nat, keepalive: word)
      requires Valid(ctx, past) && Guarded(ctx.phase) && Onward(ctx, next)
      modifies this
      ensures Valid(ctx, past) && Steady(old(ctx), ctx) && Since(old(past), past)
      ensures ctx.phase == next && ctx.attempts == 0 && ctx.recovery == old(ctx.recovery)
      ensures ctx.issued == issued && ctx.keepalive == keepalive
      ensures ctx == AfterEnter(old(ctx), next, issued, keepalive)
    {
      hide Legal, Current, Visited, Hears, Proved, Departs, StampOf, Cause, Tally, Overwrites, Extends;
      ctx := ctx.(phase := next, attempts := 0, issued := issued, keepalive := keepalive);
      Note(Entered(next));
    }

    method Announce(z: Pass)
      requires Valid(ctx, past) && ctx.phase == ANNOUNCING
      modifies this
      ensures Valid(ctx, past) && Steady(old(ctx), ctx) && Since(old(past), past)
      ensures ctx.phase == (if !z.confirmed then ANNOUNCING
                            else if !z.lost then (if old(ctx.recovery) > 0 then PARENT else NODE)
                            else if z.stops then ABORTING else FAULT)
      ensures ctx == AfterAnnounce(old(ctx), z)
    {
      hide Legal, Current, Visited, Hears, Proved, Departs, StampOf, Cause, Tally, Overwrites, Extends, Sound, Valid, Housed,
           MayFail, Abandons, AfterFail, AfterEnter;
      if z.confirmed {
        if z.lost {
          FailLive(TransmitFailed, z.stops);
        } else {
          Enter(if ctx.recovery > 0 then PARENT else NODE, ctx.issued, ctx.keepalive);
        }
      }
    }

    /** Ask the Trust Center what it is: only a coordinator of a recent enough stack will do. */
    method Describe(z: Pass)
      requires Valid(ctx, past) && ctx.phase == NODE
      modifies this
      ensures Valid(ctx, past) && Steady(old(ctx), ctx) && Since(old(past), past)
      ensures ctx.phase == REQUESTING <==> z.taken && z.reply == Success && z.query == NodeQuery && z.coordinator
      ensures Live(ctx.phase) && ctx.phase != REQUESTING ==> ctx.phase == NODE && (z.taken ==> Retryable(old(ctx), z.reply))
      ensures ctx == AfterDescribe(old(ctx), z)
    {
      hide Legal, Current, Visited, Hears, Proved, Departs, StampOf, Cause, Tally, Overwrites, Extends, Sound, Valid, Housed,
           MayFail, Abandons, AfterFail, AfterEnter, AfterAsk;
      if z.taken && z.reply == Success && z.query == NodeQuery && z.coordinator {
        Enter(REQUESTING, 0, ctx.keepalive);
      } else if z.taken && !Retryable(ctx, z.reply) {
        FailLive(TcFailed, z.stops);
      } else if !z.querying {
        Ask(z, TcFailed);
      }
    }

    /** Put a device object query; a full queue is only waited for. */
    method Ask(z: Pass, r: Result)
      requires Valid(ctx, past) && (ctx.phase == NODE || ctx.phase == PARENT || ctx.phase == READY)
      modifies this
      ensures Valid(ctx, past) && Steady(old(ctx), ctx) && Since(old(past), past)
      ensures z.asked == Fine ==> ctx.phase == old(ctx.phase) && ctx.attempts == (old(ctx.attempts) + 1) % 256
      ensures z.asked == Busy ==> ctx == old(ctx)
      ensures z.asked != Fine && z.asked != Busy ==> !Live(ctx.phase) && ctx.result == r
      ensures ctx == AfterAsk(old(ctx), z, r)
    {
      hide Legal, Current, Visited, Hears, Proved, Departs, StampOf, Cause, Tally, Overwrites, Extends, Sound, Valid, Housed,
           MayFail, Abandons, AfterFail;
      if z.asked == Fine {
        CountQuery();
      } else if z.asked != Busy {
        FailLive(r, z.stops);
      }
    }

    method CountQuery()
      requires Valid(ctx, past) && (ctx.phase == NODE || ctx.phase == PARENT || ctx.phase == READY)
      modifies this
      ensures Valid(ctx, past) && Steady(old(ctx), ctx) && Since(old(past), past)
      ensures ctx.phase == old(ctx.phase) && ctx.attempts == (old(ctx.attempts) + 1) % 256
      ensures ctx == old(ctx).(attempts := (old(ctx).attempts + 1) % 256)
    {
      hide Legal, Current, Visited, Hears, Proved, Departs, StampOf, Cause, Tally, Overwrites, Extends;
      ctx := ctx.(attempts := (ctx.attempts + 1) % 256);
    }

    /** Request the Trust Center key, or verify it: queue the exchange, then wait for its delivery. */
    method Exchanged(z: Pass)
      requires Valid(ctx, past) && (ctx.phase == REQUESTING || ctx.phase == VERIFYING)
      modifies this
      ensures Valid(ctx, past) && Steady(old(ctx), ctx) && Since(old(past), past)
      ensures ctx.phase == old(ctx.phase) + 1 <==> old(ctx.issued) != 0 && z.confirmed && !z.lost
      ensures old(ctx.issued) == 0 && z.queued == Fine ==>
                ctx.phase == old(ctx.phase) && ctx.issued == 1 && ctx.until == Plus(ctx.last, EXCHANGE_WAIT)
      ensures old(ctx.issued) != 0 && z.confirmed && z.lost ==>
                if old(ctx.attempts) == ATTEMPTS then ctx.result == TransmitFailed && !Live(ctx.phase) else ctx.issued == 0
      ensures Live(ctx.phase) ==> ctx.phase == old(ctx.phase) || ctx.phase == old(ctx.phase) + 1
      ensures ctx == AfterExchange(old(ctx), z)
    {
      hide Legal, Current, Visited, Hears, Proved, Departs, StampOf, Cause, Tally, Overwrites, Extends, Sound, Valid, Housed,
           MayFail, Abandons, AfterFail;
      if ctx.issued == 0 {
        if z.queued == Fine {
          Issue();
        } else if z.queued != Busy {
          FailLive(TcFailed, z.stops);
        }
      } else if z.confirmed {
        if z.lost && ctx.attempts == ATTEMPTS {
          FailLive(TransmitFailed, z.stops);
        } else {
          Deliver(z.lost);
        }
      }
    }

    method Issue()
      requires Valid(ctx, past) && (ctx.phase == REQUESTING || ctx.phase == VERIFYING) && ctx.issued == 0
      modifies this
      ensures Valid(ctx, past) && Steady(old(ctx), ctx) && Since(old(past), past)
      ensures ctx.phase == old(ctx.phase) && ctx.issued == 1 && ctx.until == Plus(ctx.last, EXCHANGE_WAIT)
      ensures ctx == old(ctx).(issued := 1, attempts := old(ctx).attempts + 1, until := Plus(old(ctx).last, EXCHANGE_WAIT))
    {
      hide Legal, Current, Visited, Hears, Proved, Departs, StampOf, Cause, Tally, Overwrites, Extends;
      ctx := ctx.(issued := 1, attempts := ctx.attempts + 1, until := Plus(ctx.last, EXCHANGE_WAIT));
      Note(Asked(if ctx.phase == REQUESTING then RequestKey else VerifyKey));
    }

    method Deliver(lost: bool)
      requires Valid(ctx, past) && (ctx.phase == REQUESTING || ctx.phase == VERIFYING)
      requires lost ==> ctx.attempts != ATTEMPTS
      modifies this
      ensures Valid(ctx, past) && Steady(old(ctx), ctx) && Since(old(past), past)
      ensures if lost then ctx.phase == old(ctx.phase) && ctx.issued == 0 else ctx.phase == old(ctx.phase) + 1
      ensures ctx == if lost then old(ctx).(issued := 0)
                     else old(ctx).(phase := if old(ctx).phase == REQUESTING then WAIT_TC else WAIT_CONFIRM)
    {
      hide Legal, Current, Visited, Hears, Proved, Departs, StampOf, Cause, Tally, Overwrites, Extends;
      if lost {
        ctx := ctx.(issued := 0);
      } else {
        ctx := ctx.(phase := if ctx.phase == REQUESTING then WAIT_TC else WAIT_CONFIRM);
        Note(Entered(ctx.phase));
      }
    }

    /** The parent must say how it keeps its child alive; a recovered run is then READY, a fresh one opens the network. */
    method Settle(z: Pass)
      requires Valid(ctx, past) && ctx.phase == PARENT
      modifies this
      ensures Valid(ctx, past) && Steady(old(ctx), ctx) && Since(old(past), past)
      ensures ctx.phase == PERMIT <==> Kind(z) && old(ctx.recovery) == 0 && z.broadcast
      ensures ctx.phase == READY <==> Kind(z) && old(ctx.recovery) > 0 && z.announced
      ensures ctx.phase == READY ==> ctx.recovery == 3 && ctx.keepalive == Plus(ctx.last, KEEPALIVE)
      ensures ctx.phase == PARENT ==> !Kind(z) && (z.taken ==> Retryable(old(ctx), z.reply))
      ensures Live(ctx.phase) ==> ctx.phase == PARENT || ctx.phase == PERMIT || ctx.phase == READY
      ensures ctx == AfterSettle(old(ctx), z)
    {
      hide Legal, Current, Visited, Hears, Proved, Departs, StampOf, Cause, Tally, Overwrites, Extends, Sound, Valid, Housed,
           MayFail, Abandons, AfterFail, AfterEnter, AfterAsk;
      if Kind(z) {
        if if ctx.recovery > 0 then !z.announced else !z.broadcast {
          FailLive(TransmitFailed, z.stops);
        } else if ctx.recovery > 0 {
          Recovered();
        } else {
          Enter(PERMIT, ctx.issued, ctx.keepalive);
        }
      } else if z.taken && !Retryable(ctx, z.reply) {
        FailLive(ParentFailed, z.stops);
      } else if !z.querying {
        Ask(z, ParentFailed);
      }
    }

    method Recovered()
      requires Valid(ctx, past) && ctx.phase == PARENT && ctx.recovery > 0
      modifies this
      ensures Valid(ctx, past) && Steady(old(ctx), ctx) && Since(old(past), past)
      ensures ctx.phase == READY && ctx.recovery == 3 && ctx.attempts == 0 && ctx.keepalive == Plus(ctx.last, KEEPALIVE)
      ensures ctx == old(ctx).(phase := READY, attempts := 0, recovery := 3, keepalive := Plus(old(ctx).last, KEEPALIVE))
    {
      hide Legal, Current, Visited, Hears, Proved, Departs, StampOf, Cause, Tally, Overwrites, Extends;
      ctx := ctx.(phase := READY, attempts := 0, recovery := 3, keepalive := Plus(ctx.last, KEEPALIVE));
      Note(Entered(READY));
    }

    lemma PermittedFresh()
      requires Valid(ctx, past) && ctx.phase == PERMIT
      ensures ctx.recovery == 0
    {
    }

    method Permit(z: Pass)
      requires Valid(ctx, past) && ctx.phase == PERMIT
      modifies this
      ensures Valid(ctx, past) && Steady(old(ctx), ctx) && Since(old(past), past)
      ensures ctx.phase == READY ==> ctx.recovery == 0 && ctx.keepalive == Plus(ctx.last, KEEPALIVE)
      ensures ctx.phase == (if !z.confirmed then PERMIT else if !z.lost && z.ready then READY else if z.stops then ABORTING else FAULT)
      ensures ctx == AfterPermit(old(ctx), z)
    {
      hide Legal, Current, Visited, Hears, Proved, Departs, StampOf, Cause, Tally, Overwrites, Extends, Sound, Valid, Housed,
           MayFail, Abandons, AfterFail, AfterEnter;
      PermittedFresh();
      if z.confirmed {
        if z.lost || !z.ready {
          FailLive(TransmitFailed, z.stops);
        } else {
          Enter(READY, ctx.issued, Plus(ctx.last, KEEPALIVE));
        }
      }
    }

    /** Recovery: a refusal ends it, an answer is remembered, and a lost or unanswered request is repeated. */
    method Recover(z: Pass)
      requires Valid(ctx, past) && ctx.phase == RECOVERING
      modifies this
      ensures Valid(ctx, past) && Steady(old(ctx), ctx) && Since(old(past), past)
      ensures z.event == Refused ==> ctx.result == RejoinRefused && !Live(ctx.phase)
      ensures ctx.phase == INSTALLING ==> ctx.recovery == 2 && z.keys && z.verified && z.idle && ctx.token == old(ctx.token) + 1
      ensures Live(ctx.phase) && z.event == Rejoined ==> ctx.recovery == 2
      ensures Live(ctx.phase) ==> ctx.phase == RECOVERING || ctx.phase == INSTALLING
      ensures ctx.result != old(ctx.result) && ctx.result == NoParent ==> old(ctx.attempts) == ATTEMPTS
      ensures ctx.recovery != old(ctx.recovery) ==> ctx.recovery == 2 && z.event == Rejoined
      ensures ctx == AfterRecover(old(ctx), z)
    {
      hide Legal, Current, Visited, Hears, Proved, Departs, StampOf, Cause, Tally, Overwrites, Extends, Sound, Valid, Housed,
           MayFail, Abandons, AfterFail, AfterHear, AfterRequest, AfterProgress;
      if z.event == Refused {
        FailLive(RejoinRefused, z.stops);
        return;
      }
      if z.event == Rejoined {
        Hear();
      }
      if ctx.issued == 1 && z.confirmed {
        Requested(z.lost);
      }
      if ctx.issued != 1 {
        Progress(z);
      }
    }

    method Hear()
      requires Valid(ctx, past) && ctx.phase == RECOVERING
      modifies this
      ensures Valid(ctx, past) && Steady(old(ctx), ctx) && Since(old(past), past)
      ensures ctx.phase == RECOVERING && ctx.recovery == 2
      ensures ctx.issued == old(ctx.issued) && ctx.attempts == old(ctx.attempts) && ctx.token == old(ctx.token)
      ensures ctx.result == old(ctx.result)
      ensures ctx == AfterHear(old(ctx))
    {
      hide Legal, Current, Visited, Hears, Proved, Departs, StampOf, Cause, Tally, Overwrites, Extends;
      ctx := ctx.(recovery := 2);
      Note(Heard(Rejoined, past.arrival, past.deadline));
    }

    method Requested(lost: bool)
      requires Valid(ctx, past) && ctx.phase == RECOVERING && ctx.issued == 1
      modifies this
      ensures Valid(ctx, past) && Steady(old(ctx), ctx) && Since(old(past), past)
      ensures ctx.phase == RECOVERING && ctx.recovery == old(ctx.recovery) && ctx.attempts == old(ctx.attempts)
      ensures if lost then ctx.issued == 0 else ctx.issued == 2 && ctx.until == Plus(ctx.last, REJOIN_WAIT)
      ensures ctx.token == old(ctx.token) && ctx.result == old(ctx.result)
      ensures ctx == AfterRequest(old(ctx), lost)
    {
      hide Legal, Current, Visited, Hears, Proved, Departs, StampOf, Cause, Tally, Overwrites, Extends;
      if lost {
        ctx := ctx.(issued := 0);
      } else {
        ctx := ctx.(issued := 2, until := Plus(ctx.last, REJOIN_WAIT));
      }
    }

    method Progress(z: Pass)
      requires Valid(ctx, past) && ctx.phase == RECOVERING && ctx.issued != 1
      modifies this
      ensures Valid(ctx, past) && Steady(old(ctx), ctx) && Since(old(past), past)
      ensures ctx.phase == INSTALLING ==> old(ctx.recovery) == 2 && z.keys && z.verified && z.idle && ctx.token == old(ctx.token) + 1
      ensures Live(ctx.phase) ==> ctx.recovery == old(ctx.recovery) && (ctx.phase == RECOVERING || ctx.phase == INSTALLING)
      ensures ctx.result != old(ctx.result) && ctx.result == NoParent ==> old(ctx.attempts) == ATTEMPTS
      ensures ctx.recovery == old(ctx.recovery)
      ensures ctx == AfterProgress(old(ctx), z)
    {
      hide Legal, Current, Visited, Hears, Proved, Departs, StampOf, Cause, Tally, Overwrites, Extends, Sound, Valid, Housed,
           MayFail, Abandons, AfterFail, AfterInstall;
      if !z.keys {
        FailLive(Security, z.stops);
      } else if ctx.recovery == 2 && z.verified {
        if z.idle {
          Reinstall(z.stops);
        }
      } else if ctx.issued == 0 || Expired(ctx.last, ctx.until) {
        if ctx.attempts == ATTEMPTS {
          FailLive(NoParent, z.stops);
        } else if z.queued == Fine {
          AskAgain();
        } else if z.queued != Busy {
          FailLive(TransmitFailed, z.stops);
        }
      }
    }

    method Reinstall(stops: bool)
      requires Valid(ctx, past) && ctx.phase == RECOVERING && ctx.recovery == 2
      modifies this
      ensures Valid(ctx, past) && Steady(old(ctx), ctx) && Since(old(past), past)
      ensures if old(ctx.token) == LAST_TOKEN then ctx.result == InstallFailed && !Live(ctx.phase)
              else ctx.phase == INSTALLING && ctx.token == old(ctx.token) + 1 && ctx.recovery == 2 && ctx.result == old(ctx.result)
      ensures ctx.recovery == 2
      ensures ctx == AfterInstall(old(ctx).(member := true), stops)
    {
      hide Legal, Current, Visited, Hears, Proved, Departs, StampOf, Cause, Tally, Overwrites, Extends, AfterInstall;
      ctx := ctx.(member := true);
      Install(stops);
    }

    method AskAgain()
      requires Valid(ctx, past) && ctx.phase == RECOVERING && ctx.attempts != ATTEMPTS
      modifies this
      ensures Valid(ctx, past) && Steady(old(ctx), ctx) && Since(old(past), past)
      ensures ctx.phase == RECOVERING && ctx.recovery == old(ctx.recovery) && ctx.issued == 1 && ctx.result == old(ctx.result)
      ensures ctx == old(ctx).(issued := 1, attempts := old(ctx).attempts + 1)
    {
      hide Legal, Current, Visited, Hears, Proved, Departs, StampOf, Cause, Tally, Overwrites, Extends;
      ctx := ctx.(issued := 1, attempts := ctx.attempts + 1);
      Note(Asked(Rejoin));
    }

    /** Keep the parent: an unanswered keepalive is repeated, the sixth failure in a row is final. */
    method Operate(z: Pass)
      requires Valid(ctx, past) && ctx.phase == READY
      modifies this
      ensures Valid(ctx, past) && Steady(old(ctx), ctx) && Since(old(past), past)
      ensures if P.OperationFails(old(ctx), z) then !Live(ctx.phase) && ctx.result == ParentFailed else P.Operates(old(ctx), z, ctx)
      ensures ctx == AfterOperate(old(ctx), z)
    {
      hide Legal, Current, Visited, Hears, Proved, Departs, StampOf, Cause, Tally, Overwrites, Extends, Sound, Valid, Housed,
           MayFail, Abandons, AfterFail, AfterAsk, AfterReply, Since, P.OperationFails, P.Operates;
      OperationDecides(ctx, z);
      ghost var begun := past;
      SinceNow(past);
      if z.taken {
        if Lost(ctx, z) {
          FailLive(ParentFailed, z.stops);
          return;
        }
        Reschedule(z.reply != Success);
      }
      ghost var replied := past;
      if !z.pollKeepalive && Expired(ctx.last, ctx.keepalive) && !z.querying {
        if z.asked == Busy && Expired(ctx.last, Plus(ctx.keepalive, EXCHANGE_WAIT)) {
          FailLive(ParentFailed, z.stops);
        } else {
          Ask(z, ParentFailed);
        }
        SinceThen(begun, replied, past);
      }
    }

    method Reschedule(lost: bool)
      requires Valid(ctx, past) && ctx.phase == READY
      modifies this
      ensures Valid(ctx, past) && Steady(old(ctx), ctx) && Since(old(past), past)
      ensures ctx.phase == READY && ctx.result == old(ctx.result)
      ensures if lost then ctx.attempts == old(ctx.attempts) && ctx.keepalive == Plus(ctx.last, KEEPALIVE_RETRY)
              else ctx.attempts == 0 && ctx.keepalive == Plus(ctx.last, KEEPALIVE)
      ensures ctx == AfterReply(old(ctx), lost)
    {
      hide Legal, Current, Visited, Hears, Proved, Departs, StampOf, Cause, Tally, Overwrites, Extends;
      if lost {
        ctx := ctx.(keepalive := Plus(ctx.last, KEEPALIVE_RETRY));
      } else {
        ctx := ctx.(attempts := 0, keepalive := Plus(ctx.last, KEEPALIVE));
      }
    }

    /** The waits that run out. */
    method Lapse(z: Pass)
      requires Valid(ctx, past)
      modifies this
      ensures Valid(ctx, past) && Steady(old(ctx), ctx) && Since(old(past), past)
      ensures old(ctx.phase) == WAIT_KEY && Expired(ctx.last, old(ctx.until)) ==> ctx.result == KeyTimeout && !Live(ctx.phase)
      ensures (old(ctx.phase) == WAIT_TC || old(ctx.phase) == WAIT_CONFIRM) && Expired(ctx.last, old(ctx.until)) ==>
                if old(ctx.attempts) == ATTEMPTS then ctx.result == TcFailed && !Live(ctx.phase)
                else ctx.phase == old(ctx.phase) - 1 && ctx.issued == 0
      ensures Live(ctx.phase) ==> ctx.phase == old(ctx.phase) || ctx.phase == old(ctx.phase) - 1
      ensures ctx.phase == READY ==> old(ctx.phase) == READY && ctx == old(ctx)
      ensures !Guarded(old(ctx.phase)) ==> ctx == old(ctx)
      ensures ctx == AfterLapse(old(ctx), z)
    {
      hide Legal, Current, Visited, Hears, Proved, Departs, StampOf, Cause, Tally, Overwrites, Extends, Sound, Valid, Housed,
           MayFail, Abandons, AfterFail;
      if ctx.phase == WAIT_KEY && Expired(ctx.last, ctx.until) {
        FailLive(KeyTimeout, z.stops);
      } else if ((ctx.phase == REQUESTING && !ctx.gotTc) || (ctx.phase == VERIFYING && !ctx.gotConfirm)) && ctx.issued != 0
                && Expired(ctx.last, ctx.until) {
        FailLive(TcFailed, z.stops);
      } else if (ctx.phase == WAIT_TC || ctx.phase == WAIT_CONFIRM) && Expired(ctx.last, ctx.until) {
        if ctx.attempts == ATTEMPTS {
          FailLive(TcFailed, z.stops);
        } else {
          Retry();
        }
      }
    }

    method Retry()
      requires Valid(ctx, past) && (ctx.phase == WAIT_TC || ctx.phase == WAIT_CONFIRM) && ctx.attempts != ATTEMPTS
      modifies this
      ensures Valid(ctx, past) && Steady(old(ctx), ctx) && Since(old(past), past)
      ensures ctx.phase == old(ctx.phase) - 1 && ctx.issued == 0
      ensures ctx == old(ctx).(phase := if old(ctx).phase == WAIT_TC then REQUESTING else VERIFYING, issued := 0)
    {
      hide Legal, Current, Visited, Hears, Proved, Departs, StampOf, Cause, Tally, Overwrites, Extends;
      ctx := ctx.(phase := if ctx.phase == WAIT_TC then REQUESTING else VERIFYING, issued := 0);
      Note(Entered(ctx.phase));
    }

    /** One pass over the device object in the phase the run is in. */
    method Runtime(z: Pass)
      requires Valid(ctx, past) && Guarded(ctx.phase) && ctx.phase != INSTALLING
      modifies this
      ensures Valid(ctx, past) && Within(old(ctx), ctx) && Led(old(past), past, Replaces(old(ctx), z))
      ensures ctx.phase == READY && old(ctx.phase) != READY ==>
                (old(ctx.phase) == PERMIT && ctx.recovery == 0) || (old(ctx.phase) == PARENT && ctx.recovery == 3)
      ensures ctx == AfterRuntime(old(ctx), z)
    {
      hide Legal, Current, Visited, Hears, Proved, Departs, StampOf, Cause, Tally, Overwrites, Extends, Sound, Valid, Housed,
           MayFail, Abandons, AfterFail, AfterAttend, AfterConclude, AfterDispatch, AfterLapse, Attends, StopRefused;
      ghost var begun := ctx;
      var on := Judge(z);
      if Sane(z) {
        RefusedStopFaults(begun, z);
      } else {
        Unserved(begun, z);
      }
      if on {
        on := Attend(z);
        if on {
          on := Conclude(z);
          if on {
            Dispatch(z);
            Lapse(z);
          }
        }
      }
    }

    method Dispatch(z: Pass)
      requires Valid(ctx, past) && ctx.phase != INSTALLING
      modifies this
      ensures Valid(ctx, past) && Steady(old(ctx), ctx) && Since(old(past), past)
      ensures ctx.phase == READY && old(ctx.phase) != READY ==>
                (old(ctx.phase) == PERMIT && ctx.recovery == 0) || (old(ctx.phase) == PARENT && ctx.recovery == 3)
      ensures (old(ctx.phase) == WAIT_TC && ctx.gotTc) || (old(ctx.phase) == WAIT_CONFIRM && ctx.gotConfirm) ==>
                ctx.phase == old(ctx.phase) + 1
      ensures ctx == AfterDispatch(old(ctx), z)
    {
      hide Legal, Current, Visited, Hears, Proved, Departs, StampOf, Cause, Tally, Overwrites, Extends, Sound, Valid, Housed,
           MayFail, Abandons, AfterKey, AfterAnnounce, AfterDescribe, AfterExchange, AfterEnter, AfterSettle,
           AfterPermit, AfterRecover, AfterOperate, Since;
      SinceNow(past);
      if ctx.phase == WAIT_KEY {
        AwaitKey(z);
      } else if ctx.phase == ANNOUNCING {
        Announce(z);
      } else if ctx.phase == NODE {
        Describe(z);
      } else if ctx.phase == REQUESTING || ctx.phase == VERIFYING {
        Exchanged(z);
      } else if ctx.phase == WAIT_TC && ctx.gotTc {
        Enter(VERIFYING, 0, ctx.keepalive);
      } else if ctx.phase == WAIT_CONFIRM && ctx.gotConfirm {
        Enter(PARENT, ctx.issued, ctx.keepalive);
      } else if ctx.phase == PARENT {
        Settle(z);
      } else if ctx.phase == PERMIT {
        Permit(z);
      } else if ctx.phase == RECOVERING {
        Recover(z);
      } else if ctx.phase == READY {
        Operate(z);
      }
    }

    // ---------- a step ----------

    /** At one instant only so many steps may pass; then the run is given up without giving up its keys. */
    method Guard(stops: bool)
      requires Valid(ctx, past) && Guarded(ctx.phase)
      modifies this
      ensures Valid(ctx, past) && Since(old(past), past) && ctx.last == old(ctx.last) && ctx.workspace == old(ctx.workspace)
      ensures Guarded(ctx.phase) <==> !Stalled(old(ctx))
      ensures Guarded(ctx.phase) ==> Beaten(old(ctx), ctx) && ctx.phase == old(ctx.phase) && ctx.token == old(ctx.token)
      ensures !Guarded(ctx.phase) ==> ctx.result == WorkLimit && !ctx.abandon && (ctx.phase == ABORTING || ctx.phase == FAULT)
      ensures ctx == AfterGuard(old(ctx), stops)
    {
      hide Legal, Current, Visited, Hears, Proved, Departs, StampOf, Cause, Tally, Overwrites, Extends, Sound, Valid, Housed,
           MayFail, Abandons, AfterFail;
      if Stalled(ctx) {
        Exhaust(stops);
      } else {
        Beat(stops);
      }
    }

    method Exhaust(stops: bool)
      requires Valid(ctx, past) && Guarded(ctx.phase) && Stalled(ctx)
      modifies this
      ensures Valid(ctx, past) && Since(old(past), past) && ctx.last == old(ctx.last) && ctx.workspace == old(ctx.workspace)
      ensures ctx.result == WorkLimit && !ctx.abandon && (ctx.phase == ABORTING || ctx.phase == FAULT)
      ensures ctx == AfterGuard(old(ctx), stops)
    {
      hide Legal, Current, Visited, Hears, Proved, Departs, StampOf, Cause, Tally, Overwrites, Extends, AfterFail;
      if ctx.phase == INSTALLING && ctx.issued != 0 {
        Latch(WorkLimit, false);
      } else {
        Fail(WorkLimit, stops);
      }
    }

    method Beat(ghost stops: bool)
      requires Valid(ctx, past) && Guarded(ctx.phase) && !Stalled(ctx)
      modifies `ctx
      ensures Valid(ctx, past) && ctx.last == old(ctx.last) && ctx.workspace == old(ctx.workspace)
      ensures Beaten(old(ctx), ctx) && ctx.phase == old(ctx.phase) && ctx.token == old(ctx.token)
      ensures ctx == AfterGuard(old(ctx), stops)
    {
      hide Legal, Current, Visited, Hears, Proved, Departs, StampOf, Cause, Tally, Overwrites, Extends;
      ctx := ctx.(workAt := ctx.last, steps := if ctx.workAt == ctx.last then ctx.steps + 1 else 1);
    }

    method Overdue(stops: bool)
      requires Valid(ctx, past)
      modifies this
      ensures Valid(ctx, past) && Steady(old(ctx), ctx) && Since(old(past), past)
      ensures WAIT_KEY <= old(ctx.phase) < READY || old(ctx.phase) == RECOVERING ==>
                if Expired(ctx.last, old(ctx.commissionUntil)) then ctx.phase == Stopped(stops)
                else ctx == old(ctx)
      ensures !(WAIT_KEY <= old(ctx.phase) < READY || old(ctx.phase) == RECOVERING) ==> ctx == old(ctx)
      ensures ctx == AfterOverdue(old(ctx), stops)
    {
      hide Legal, Current, Visited, Hears, Proved, Departs, StampOf, Cause, Tally, Overwrites, Extends, Sound, Valid, Housed,
           MayFail, Abandons, AfterFail;
      if ((WAIT_KEY <= ctx.phase < READY) || ctx.phase == RECOVERING) && Expired(ctx.last, ctx.commissionUntil) {
        FailLive(if ctx.recovery > 0 then NoParent else KeyTimeout, stops);
      }
    }

    /** The transport step's own verdict; a faulted radio engine ends everything. */
    method Carry(t: Carriage) returns (on: bool)
      requires Valid(ctx, past) && (Afoot(ctx.phase) || ctx.phase == LEAVING)
      modifies this
      ensures Valid(ctx, past) && Kept(old(ctx), ctx) && Since(old(past), past)
      ensures on <==> !t.engineFault && !(t.failed && old(ctx.phase) == LEAVING)
      ensures t.engineFault ==> ctx.phase == FAULT && ctx.result == TransmitFailed && !ctx.member
      ensures !Live(old(ctx.phase)) ==> ctx.abandon == old(ctx.abandon) && ctx.phase in {old(ctx.phase), FAULT, FAILED}
      ensures on ==> Afoot(ctx.phase) || ctx.phase == LEAVING
      ensures ctx.phase == LEAVING ==> old(ctx.phase) == LEAVING
      ensures Live(old(ctx.phase)) && !t.engineFault && !t.failed ==> ctx == old(ctx)
      ensures Live(ctx.phase) ==> ctx == old(ctx) && !t.failed && !t.engineFault
      ensures ctx == AfterCarry(old(ctx), t)
    {
      hide Legal, Current, Visited, Hears, Proved, Departs, StampOf, Cause, Tally, Overwrites, Extends, Sound, Valid, Housed,
           MayFail, Abandons, AfterFail;
      on := true;
      if t.engineFault {
        Break();
        on := false;
      } else if t.failed {
        if ctx.phase == LEAVING {
          Close(true);
          on := false;
        } else if Live(ctx.phase) {
          FailLive(TransmitFailed, t.stopsFailed);
        } else {
          Blame();
        }
      }
    }

    method Break()
      requires Valid(ctx, past) && ctx.phase != IDLE && ctx.phase != FAILED
      modifies this
      ensures Valid(ctx, past) && Within(old(ctx), ctx) && Since(old(past), past)
      ensures ctx.phase == FAULT && ctx.result == TransmitFailed && !ctx.member && ctx.abandon == old(ctx.abandon)
      ensures ctx == old(ctx).(phase := FAULT, result := TransmitFailed, member := false)
    {
      hide Legal, Current, Visited, Hears, Proved, Departs, StampOf, Cause, Tally, Overwrites, Extends;
      Latch(TransmitFailed, false);
    }

    method Close(lost: bool)
      requires Valid(ctx, past) && (ctx.phase == LEAVING || ctx.phase == ABORTING)
      modifies this
      ensures Valid(ctx, past) && Kept(old(ctx), ctx) && Since(old(past), past)
      ensures ctx.phase == FAILED && ctx.abandon == old(ctx.abandon) && ctx.cleanupError == lost && ctx.result == old(ctx.result)
      ensures ctx == AfterClose(old(ctx), lost)
    {
      hide Legal, Current, Visited, Hears, Proved, Departs, StampOf, Cause, Tally, Overwrites, Extends;
      ctx := ctx.(cleanupError := lost, phase := FAILED);
      Note(Entered(FAILED));
    }

    method Blame()
      requires Valid(ctx, past)
      modifies this
      ensures Valid(ctx, past) && Within(old(ctx), ctx) && Since(old(past), past)
      ensures ctx.phase == old(ctx.phase) && ctx.abandon == old(ctx.abandon) && ctx.cleanupError
      ensures ctx == old(ctx).(cleanupError := true)
    {
      hide Legal, Current, Visited, Hears, Proved, Departs, StampOf, Cause, Tally, Overwrites, Extends;
      ctx := ctx.(cleanupError := true);
    }

    /** An update drains the transport, then reinstalls the updated identity. */
    method Finish(t: Carriage)
      requires Valid(ctx, past)
      modifies this
      ensures Valid(ctx, past) && Steady(old(ctx), ctx) && Since(old(past), past)
      ensures old(ctx.phase) != UPDATING ==> ctx == old(ctx)
      ensures old(ctx.phase) == UPDATING && Live(ctx.phase) ==> !t.untaken && ctx.phase == (if t.idle then INSTALLING else UPDATING)
      ensures ctx == AfterFinish(old(ctx), t)
    {
      hide Legal, Current, Visited, Hears, Proved, Departs, StampOf, Cause, Tally, Overwrites, Extends, Sound, Valid, Housed,
           MayFail, Abandons, AfterFail, AfterInstall;
      if ctx.phase == UPDATING {
        if t.untaken {
          FailLive(TransmitFailed, t.stopsUpdate);
        } else if t.idle {
          Replace(t.stopsUpdate);
        }
      }
    }

    method Replace(stops: bool)
      requires Valid(ctx, past) && ctx.phase == UPDATING
      modifies this
      ensures Valid(ctx, past) && Steady(old(ctx), ctx) && Since(old(past), past)
      ensures Live(ctx.phase) ==> ctx.phase == INSTALLING
      ensures ctx == AfterInstall(old(ctx), stops)
    {
      hide Legal, Current, Visited, Hears, Proved, Departs, StampOf, Cause, Tally, Overwrites, Extends, AfterInstall;
      Install(stops);
    }

    /** Once the transport is quiet, an aborted run either sends its durable Leave or ends with its keys intact. */
    method Drain(t: Carriage) returns (r: Result)
      requires Valid(ctx, past)
      modifies this
      ensures Valid(ctx, past) && Kept(old(ctx), ctx) && Since(old(past), past)
      ensures old(ctx.phase) == LEAVING ==> ctx.phase == (if t.confirmed then FAILED else LEAVING)
      ensures old(ctx.phase) == ABORTING ==> (ctx.phase == LEAVING <==> ctx.abandon && Departable(t))
      ensures old(ctx.phase) != ABORTING && old(ctx.phase) != LEAVING ==> ctx == old(ctx)
      ensures ctx.abandon == old(ctx.abandon) && ctx.result == old(ctx.result)
      ensures !Live(old(ctx.phase)) ==> !Live(ctx.phase)
      ensures ctx == AfterDrain(old(ctx), t)
    {
      hide Legal, Current, Visited, Hears, Proved, Departs, StampOf, Cause, Tally, Overwrites, Extends, Sound, Valid, Housed,
           MayFail, Abandons, AfterSurrender, AfterClose;
      r := Ok;
      if ctx.phase == ABORTING && t.drained {
        if t.completed {
          if !t.confirmed {
            return State;
          }
          Surrender();
        }
        if !ctx.abandon || !t.keys || t.left {
          Close(ctx.cleanupError);
        } else if !t.departs {
          Close(true);
        } else {
          Depart();
        }
      } else if ctx.phase == LEAVING && t.confirmed {
        Close(t.lost);
      }
    }

    method Surrender()
      requires Valid(ctx, past) && ctx.phase == ABORTING
      modifies this
      ensures Valid(ctx, past) && Kept(old(ctx), ctx) && Since(old(past), past)
      ensures ctx.phase == ABORTING && ctx.abandon == old(ctx.abandon) && ctx.result == old(ctx.result)
      ensures !ctx.pending && (old(ctx.pending) ==> ctx.done)
      ensures ctx == AfterSurrender(old(ctx))
    {
      hide Legal, Current, Visited, Hears, Proved, Departs, StampOf, Cause, Tally, Overwrites, Extends;
      ctx := ctx.(done := ctx.done || ctx.pending, pending := false);
    }

    method Depart()
      requires Valid(ctx, past) && ctx.phase == ABORTING && ctx.abandon
      modifies this
      ensures Valid(ctx, past) && Kept(old(ctx), ctx) && Since(old(past), past)
      ensures ctx.phase == LEAVING && ctx.abandon && ctx.result == old(ctx.result)
      ensures ctx == old(ctx).(phase := LEAVING)
    {
      hide Legal, Current, Visited, Hears, Proved, Departs, StampOf, Cause, Tally, Overwrites, Extends;
      ctx := ctx.(phase := LEAVING);
      Note(Entered(LEAVING));
    }

    /** One transport step, with the device object served before it if a frame is waiting, and after it if not. */
    method Pump(z: Pass, t: Carriage) returns (on: bool)
      requires Valid(ctx, past) && (Afoot(ctx.phase) || ctx.phase == LEAVING) && ctx.phase != INSTALLING
      modifies this
      ensures Valid(ctx, past) && Kept(old(ctx), ctx) && Led(old(past), past, Serves(old(ctx), t) && Replaces(old(ctx), z))
      ensures on ==> Afoot(ctx.phase) || ctx.phase == LEAVING
      ensures ctx.phase == LEAVING ==> old(ctx.phase) == LEAVING
      ensures !Live(old(ctx.phase)) ==> !Live(ctx.phase) && ctx.abandon == old(ctx.abandon)
      ensures ctx == AfterPump(old(ctx), z, t) && (on <==> Carries(BeforeCarry(old(ctx), z, t), t))
    {
      hide Legal, Current, Visited, Hears, Proved, Departs, StampOf, Cause, Tally, Overwrites, Extends, Sound, Valid, Housed,
           MayFail, Abandons, AfterRuntime, AfterCarry;
      var handled := Live(ctx.phase) && t.received;
      if handled {
        Runtime(z);
      }
      on := Carry(t);
      if on && Live(ctx.phase) && !handled {
        Runtime(z);
      }
    }

    /** Everything a step does before its cleanup. */
    method Labour(x: Answers) returns (on: bool)
      requires Valid(ctx, past) && (Afoot(ctx.phase) || ctx.phase == LEAVING) && ctx.phase != INSTALLING
      modifies this
      ensures Valid(ctx, past) && Kept(old(ctx), ctx) && Led(old(past), past, Overwriting(old(ctx), x))
      ensures !Live(old(ctx.phase)) ==> !Live(ctx.phase) && ctx.abandon == old(ctx.abandon)
      ensures ctx.phase == LEAVING ==> old(ctx.phase) == LEAVING
      ensures ctx == BeforeDrain(old(ctx), x) && (on <==> Drains(old(ctx), x))
    {
      hide Legal, Current, Visited, Hears, Proved, Departs, StampOf, Cause, Tally, Overwrites, Extends, Sound, Valid, Housed,
           MayFail, Abandons,
           AfterOverdue, AfterPump, AfterFinish, Carries, BeforeCarry;
      Overdue(x.carriage.stopsOverdue);
      on := Pump(x.pass, x.carriage);
      if on {
        Finish(x.carriage);
      }
    }

    /** The transport, the device object and the cleanup, in the order the controller serves them. */
    method Serve(x: Answers) returns (r: Result)
      requires Valid(ctx, past) && (Afoot(ctx.phase) || ctx.phase == LEAVING) && ctx.phase != INSTALLING
      modifies this
      ensures Valid(ctx, past) && Kept(old(ctx), ctx) && Led(old(past), past, Overwriting(old(ctx), x))
      ensures !Live(old(ctx.phase)) ==> !Live(ctx.phase) && ctx.abandon == old(ctx.abandon)
      ensures ctx.phase == LEAVING ==> ctx.abandon || old(ctx.phase) == LEAVING
      ensures ctx == AfterServe(old(ctx), x)
      ensures Drains(old(ctx), x) && Interrupted(BeforeDrain(old(ctx), x)) ==>
                (ctx.phase == LEAVING <==> Forsaken(BeforeDrain(old(ctx), x)) && Departable(x.carriage))
    {
      hide Legal, Current, Visited, Hears, Proved, Departs, StampOf, Cause, Tally, Overwrites, Extends, Sound, Valid, Housed,
           MayFail, Abandons,
           BeforeDrain, AfterDrain, Drains, Forsaken, Departable;
      var on := Labour(x);
      if !on {
        return Ok;
      }
      if Interrupted(ctx) {
        CleanupDecides(ctx, past, x.carriage);
      }
      r := Drain(x.carriage);
      if r == Ok && x.carriage.foreign {
        r := Ignored;
      }
    }

    // ---------- the controller's calls ----------

    /** Begin a call at `now`; the past is measured from here. */
    method Advance(now: word)
      requires Valid(ctx, past)
      modifies this
      ensures Valid(ctx, past) && ctx == old(ctx).(last := now) && past == old(past).(origin := old(past.trail))
    {
      hide Legal, Current, Visited, Hears, Proved, Departs, StampOf, Cause, Tally, Overwrites;
      ctx := ctx.(last := now);
      past := past.(origin := past.trail);
    }

    /** One step, whatever the children and the platform answer. */
    method Step(now: word, x: Answers) returns (r: Result, requested: bool)
      requires Valid(ctx, past)
      modifies this
      ensures Valid(ctx, past) && Extends(past.trail, old(past.trail))
      ensures !Reached(now, old(ctx.last)) ==> r == Clock && ctx == old(ctx) && past == old(past)
      ensures Reached(now, old(ctx.last)) ==> ctx.last == now
      ensures old(ctx.phase) == FAILED || old(ctx.phase) == FAULT ==>
                past.trail == old(past.trail) && r in {Clock, State} && ctx == old(ctx).(last := ctx.last)
      ensures r != Clock ==> Stepped(old(ctx), ctx)
      ensures Overwrites(past.trail) == Overwrites(old(past.trail))
                                        + if Reached(now, old(ctx.last)) && Overwritten(old(ctx).(last := now), x) then 1 else 0
      ensures FaultWithin(past.trail, old(past.trail)) ==> ctx.phase == FAULT || Overwritten(old(ctx).(last := now), x)
      ensures Reached(now, old(ctx.last)) && Underway(old(ctx.phase)) ==> ctx == AfterRun(old(ctx).(last := now), x)
      ensures Reached(now, old(ctx.last)) && Underway(old(ctx.phase)) && Cleans(old(ctx).(last := now), x)
              && Interrupted(AtCleanup(old(ctx).(last := now), x)) ==>
                (ctx.phase == LEAVING <==> Forsaken(AtCleanup(old(ctx).(last := now), x)) && Departable(x.carriage))
    {
      hide Legal, Current, Visited, Hears, Proved, Departs, StampOf, Cause, Tally, Overwrites, Sound, Valid, Housed, MayFail,
           Abandons, AfterRun, AtCleanup, Cleans, Interrupted, Forsaken, Departable, Overwriting, FaultWithin;
      requested := false;
      FaultHere(past.trail, false);
      if !Reached(now, ctx.last) {
        return Clock, false;
      }
      Advance(now);
      if ctx.phase == IDLE || ctx.phase == FAILED || ctx.phase == FAULT {
        return State, false;
      }
      AtHome();
      var home := if ctx.phase == SCANNING then ScanWork else if ctx.phase == ASSOCIATING then AssociationWork else RuntimeWork;
      if ctx.workspace != home {
        return State, false;
      }
      ghost var begun := ctx;
      r, requested := Run(x);
      AtHome();
      FaultHere(past.origin, Overwritten(begun, x));
    }

    /** A FAULT entered since `from` is where the run is, unless it was led out of one. */
    lemma FaultHere(from: Trail, once: bool)
      requires Valid(ctx, past) && Extends(past.trail, from)
      requires Overwrites(past.trail) == Overwrites(from) + if once then 1 else 0
      ensures FaultWithin(past.trail, from) ==> ctx.phase == FAULT || once
    {
      if FaultWithin(past.trail, from) && !once {
        FaultStands(past.trail, from);
      }
    }

    /** A guarded run is never away from its runtime, and a trail never loses its beginning. */
    lemma AtHome()
      requires Valid(ctx, past)
      ensures Underway(ctx.phase) ==> ctx.workspace == RuntimeWork
      ensures Extends(past.trail, past.origin)
    {
    }

    /** The part of a step that depends on the phase; every child answers arbitrarily. */
    method Run(x: Answers) returns (r: Result, requested: bool)
      requires Valid(ctx, past) && ctx.phase != IDLE && ctx.phase != FAILED && ctx.phase != FAULT
      modifies this
      ensures Valid(ctx, past) && Led(old(past), past, Overwritten(old(ctx), x)) && ctx.last == old(ctx.last)
      ensures Stepped(old(ctx), ctx)
      ensures Underway(old(ctx.phase)) ==> ctx == AfterRun(old(ctx), x)
      ensures Underway(old(ctx.phase)) && Cleans(old(ctx), x) && Interrupted(AtCleanup(old(ctx), x)) ==>
                (ctx.phase == LEAVING <==> Forsaken(AtCleanup(old(ctx), x)) && Departable(x.carriage))
    {
      hide Legal, Current, Visited, Hears, Proved, Departs, StampOf, Cause, Tally, Overwrites, Extends, Sound, Valid, Housed,
           MayFail, Abandons,
           AfterGuard, AfterInstallStep, AfterServe, BeforeDrain, Drains, Interrupted, Forsaken, Departable, Overwriting;
      r, requested := Ok, false;
      if Guarded(ctx.phase) {
        GuardOverwrites(ctx, x);
        var latch := Latched(ctx);
        Guard(x.guardStops);
        if latch {
          return;
        }
      } else {
        Unguarded(ctx, x.guardStops);
      }
      if ctx.phase == SCANNING || ctx.phase == ASSOCIATING {
        if x.foreign {
          return Ignored, false;
        }
        if ctx.phase == SCANNING {
          r := ScanStep(x.scan);
        } else {
          r := AssociationStep(x.association, x.stops);
        }
      } else if ctx.phase == INSTALLING {
        requested := InstallStep(x.install, x.stops);
      } else {
        OnlyLive(ctx, x);
        r := Serve(x);
      }
    }

    /** Begin fresh commissioning from provisioned keys. */
    method Commission(now: word, a: Admission) returns (r: Result)
      requires Valid(ctx, past)
      modifies this
      ensures Valid(ctx, past) && Extends(past.trail, old(past.trail))
      ensures r == Ok <==> Reached(now, old(ctx.last)) && old(ctx.phase) == IDLE && a == Admission(true, true, true, true, a.persisted, true, true, true, true)
      ensures if r == Ok then ctx.phase == SCANNING && ctx.recovery == 0 && Fresh(past.trail)
              else ctx.phase == old(ctx.phase) && past.trail == old(past.trail)
      ensures old(ctx.phase) == IDLE && Reached(now, old(ctx.last)) && a.arguments && a.engineIdle && a.keys && !a.provisioned ==> r == RecoveryRequired
    {
      hide Legal, Current, Visited, Hears, Proved, Departs, StampOf, Cause, Tally, Overwrites, Sound, Valid, Housed, MayFail,
           Abandons;
      r := Admit(now, a);
      if r != Ok {
        return;
      }
      if !a.provisioned {
        return RecoveryRequired;
      }
      if !a.matching || !a.prepared {
        return Argument;
      }
      if !a.initialised {
        return State;
      }
      if !a.started {
        return ScanFailed;
      }
      Scanning();
      AtHome();
      r := Ok;
    }

    /** The checks both beginnings share. */
    method Admit(now: word, a: Admission) returns (r: Result)
      requires Valid(ctx, past)
      modifies this
      ensures Valid(ctx, past) && past.trail == old(past.trail)
      ensures r == Ok <==> Reached(now, old(ctx.last)) && a.arguments && old(ctx.phase) == IDLE && a.engineIdle && a.keys
      ensures r == Ok ==> ctx == old(ctx).(last := now) && past.origin == past.trail
      ensures ctx.phase == old(ctx.phase) && ctx.recovery == old(ctx.recovery)
      ensures r != Ok ==> r in {Clock, Argument, State, Security}
    {
      hide Legal, Current, Visited, Hears, Proved, Departs, StampOf, Cause, Tally, Overwrites, Sound, Valid, Housed, MayFail,
           Abandons;
      if !Reached(now, ctx.last) {
        return Clock;
      }
      Advance(now);
      r := if !a.arguments then Argument else if ctx.phase != IDLE || !a.engineIdle then State else if !a.keys then Security else Ok;
    }

    method Scanning()
      requires Valid(ctx, past) && ctx.phase == IDLE && past.origin == past.trail
      modifies this
      ensures Valid(ctx, past) && ctx.phase == SCANNING && ctx.recovery == 0 && past.origin == old(past.origin) && Fresh(past.trail)
    {
      hide Extends;
      ctx := ctx.(phase := SCANNING, workspace := ScanWork);
      Note(Entered(SCANNING));
      Note(Asked(Scan));
    }

    /** Begin recovery of a persisted membership: the identity is installed before any frame, and proves nothing. */
    method Resume(now: word, a: Admission) returns (r: Result)
      requires Valid(ctx, past)
      modifies this
      ensures Valid(ctx, past) && Extends(past.trail, old(past.trail))
      ensures r == Ok <==> Reached(now, old(ctx.last)) && old(ctx.phase) == IDLE && a.arguments && a.engineIdle && a.keys && a.persisted && a.matching && a.prepared
      ensures if r == Ok then ctx.phase == INSTALLING && ctx.recovery == 1 && !ctx.member && Resumed(past.trail)
              else ctx.phase == old(ctx.phase) && past.trail == old(past.trail)
      ensures r == Ok ==> ctx == AfterResume(old(ctx).(last := now))
    {
      hide Legal, Current, Visited, Hears, Proved, Departs, StampOf, Cause, Tally, Overwrites, Sound, Valid, Housed, MayFail,
           Abandons;
      r := Admit(now, a);
      if r != Ok {
        return;
      }
      if !a.persisted {
        return RecoveryRequired;
      }
      if !a.matching || !a.prepared {
        return Argument;
      }
      Reinstalling();
      AtHome();
      r := Ok;
    }

    method Reinstalling()
      requires Valid(ctx, past) && ctx.phase == IDLE && past.origin == past.trail
      modifies this
      ensures Valid(ctx, past) && past.origin == old(past.origin)
      ensures ctx.phase == INSTALLING && ctx.recovery == 1 && !ctx.member && Resumed(past.trail)
      ensures ctx == AfterResume(old(ctx))
    {
      hide Extends;
      ctx := ctx.(phase := INSTALLING, workspace := RuntimeWork, member := false, recovery := 1, token := ctx.token + 1, issued := 0,
                  commissionUntil := Plus(ctx.last, COMMISSION_WAIT), until := Plus(ctx.last, EXCHANGE_WAIT));
      Note(Entered(INSTALLING));
    }

    /** Take one frame; a published one is judged against its deadline the moment it arrives. */
    method Receive(now: word, crc: bool, keys: bool, rejoining: bool, a: Arrival, stops: bool) returns (r: Result)
      requires Valid(ctx, past)
      modifies this
      ensures Valid(ctx, past) && Extends(past.trail, old(past.trail))
      ensures !Listening(old(ctx.phase)) ==> r != Ok && past.trail == old(past.trail) && ctx.phase == old(ctx.phase)
      ensures r == Ok ==> Listening(old(ctx.phase)) && ctx.phase == old(ctx.phase) && (ctx.phase == RECOVERING ==> rejoining)
      ensures r == Ok && a.Delivered? && a.published ==> past.arrival == now && past.deadline == ctx.until && (ctx.timely <==> !Expired(now, ctx.until))
      ensures ctx.workAt == old(ctx.workAt) && ctx.steps == old(ctx.steps)
    {
      hide Legal, Current, Visited, Hears, Proved, Departs, StampOf, Cause, Tally, Overwrites, Sound, Valid, Housed, MayFail,
           Abandons;
      if !Reached(now, ctx.last) {
        return Clock;
      }
      Advance(now);
      if !crc {
        return Malformed;
      }
      if !Listening(ctx.phase) {
        return State;
      }
      AtHome();
      if !keys {
        return Security;
      }
      if ctx.phase == RECOVERING && !rejoining {
        return Ignored;
      }
      match a {
        case Unreadable =>
          r := Malformed;
        case Delivered(published) =>
          if published {
            Stamp(now);
          }
          r := Ok;
        case Crowded =>
          r := Full;
        case Repeated =>
          r := Ignored;
        case Unsafe(storage) =>
          if storage {
            FailLive(Security, stops);
            AtHome();
          }
          r := Security;
      }
    }

    method Stamp(now: word)
      requires Valid(ctx, past) && Listening(ctx.phase)
      modifies this
      ensures Valid(ctx, past) && past == old(past).(arrival := now, deadline := ctx.until)
      ensures ctx.timely <==> !Expired(now, ctx.until)
      ensures ctx.phase == old(ctx.phase) && ctx.until == old(ctx.until) && ctx.last == old(ctx.last)
      ensures ctx.workAt == old(ctx.workAt) && ctx.steps == old(ctx.steps)
    {
      hide Legal, Current, Visited, Hears, Proved, Departs, StampOf, Cause, Tally, Overwrites, Extends;
      ctx := ctx.(timely := !Expired(now, ctx.until));
      past := past.(arrival := now, deadline := ctx.until);
    }

    /** Queue one application packet: only when READY, and only one until its confirmation is taken. */
    method Send(transportReady: bool, quiet: bool, proper: bool, queued: Outcome) returns (r: Result)
      requires Valid(ctx, past)
      modifies `ctx
      ensures Valid(ctx, past)
      ensures r == Ok <==> ctx.phase == READY && transportReady && !old(ctx.pending) && !old(ctx.done) && quiet && proper && queued == Fine
      ensures ctx == old(ctx).(pending := old(ctx.pending) || r == Ok)
    {
      hide Legal, Current, Visited, Hears, Proved, Departs, StampOf, Cause, Tally, Overwrites, Extends;
      if ctx.phase != READY || !transportReady {
        return State;
      }
      if ctx.pending || ctx.done || !quiet {
        return Full;
      }
      if !proper {
        return Argument;
      }
      if queued != Fine {
        return if queued == Busy then Full else TransmitFailed;
      }
      ctx := ctx.(pending := true);
      return Ok;
    }

    method Confirm() returns (r: Result)
      requires Valid(ctx, past)
      modifies `ctx
      ensures Valid(ctx, past)
      ensures r == Ok ==> old(ctx.done) && !ctx.done && !ctx.pending
      ensures r != Ok ==> ctx == old(ctx)
    {
      hide Legal, Current, Visited, Hears, Proved, Departs, StampOf, Cause, Tally, Overwrites, Extends;
      if ctx.workspace != RuntimeWork || !ctx.done {
        return State;
      }
      ctx := ctx.(done := false);
      return Ok;
    }
  }

  // ---------- what a caller may conclude ----------

  /** READY is earned: fresh by keys that came in time, recovered by a Rejoin Response and a second install. */
  lemma ReadyEarned(c: Context, p: Past)
    requires Sound(c, p) && c.phase == READY
    ensures c.recovery == 0 || c.recovery == 3
    ensures c.recovery == 0 ==> Passed(p.trail, FreshRoute(READY)) && Proved(p.trail, NetworkKey) && Proved(p.trail, TcKey) && Proved(p.trail, Verified)
    ensures c.recovery == 3 ==> Passed(p.trail, RECOVERED_ROUTE)
  {
    CurrentVisited(p.trail);
    if c.recovery == 0 {
      FreshReady(p.trail);
    } else {
      RecoveredReady(p.trail);
    }
  }

  /** However the children answer, a whole run begins at most three of each exchange. */
  lemma TriedAtMostThrice(c: Context, p: Past, exchange: Exchange)
    requires Sound(c, p)
    ensures Count(p.trail, exchange) <= ATTEMPTS
  {
    assert Count(p.trail, exchange) == Tried(Tally(p.trail), exchange);
  }

  /** Every call keeps `Valid` and extends the trail, so whatever calls follow, a run that has FAILED records nothing more. */
  lemma NothingAfterFailed(c: Context, p: Past, failed: Trail)
    requires Valid(c, p) && Extends(p.trail, failed) && Current(failed) == FAILED
    ensures p.trail == failed && c.phase == FAILED
  {
    FailedIsFinal(p.trail, failed);
  }

  /** A durable Leave is earned too. */
  lemma LeavingEarned(c: Context, p: Past)
    requires Sound(c, p) && c.phase == LEAVING
    ensures c.result == AddressConflict || c.result == LocalLeave || (c.result != WorkLimit && c.recovery == 0 && !Operated(p.trail))
  {
    CurrentVisited(p.trail);
    LeavingDeparts(p.trail);
    LeaveJustified(p.trail);
  }

  /** Processed steps at one instant, all before the run left the guarded phases. */
  ghost predicate Stuck(run: seq<Context>, now: word) {
    && (forall i :: 0 <= i < |run| ==> Guarded(run[i].phase))
    && (forall i :: 0 < i < |run| ==> Stepped(run[i - 1], run[i]) && run[i].last == now)
  }

  /** However the children behave, a run leaves the guarded phases within 4097 steps at one instant. */
  lemma {:induction false} StallBounded(run: seq<Context>, now: word)
    requires Stuck(run, now) && |run| > 1
    ensures |run| - 1 <= run[|run| - 1].steps <= STALL_STEPS && run[|run| - 1].workAt == now
  {
    var k := |run| - 1;
    assert Stepped(run[k - 1], run[k]);
    if k > 1 {
      var shorter := run[..k];
      assert forall i :: 0 < i < k ==> Stepped(shorter[i - 1], shorter[i]);
      StallBounded(shorter, now);
    }
  }
}
