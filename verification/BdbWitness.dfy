/** Two runs of the commissioning controller from its construction, every answer spelt out. */
module BdbWitness {
  import opened Words
  import opened BdbSpec
  import opened BdbStep
  import opened BdbJoin

  /** A persisted membership that may be resumed. */
  const RESUMABLE := Admission(true, true, true, false, true, true, true, false, false)

  const NO_SCAN := ScanAnswer(false, Working, false, false, false, false, false, false, false, false, false)
  const NO_ASSOCIATION := AssociationAnswer(false, Working, false, false, 0, false, false)
  const NO_INSTALL := InstallAnswer(true, false, false, 0, false, false, false, false, false, false, false)

  /** A pass in which nothing happened, the keys being readable. */
  const QUIET_PASS := Pass(Fine, Quiet, false, false, false, false, false, false, false, NodeQuery, Success, false, true, Busy, Busy,
                           false, false, false, false, false, true, true, true, true, true)

  /** A transport step in which nothing happened, the transport being busy and the keys readable. */
  const QUIET_CARRIAGE := Carriage(false, false, false, false, false, false, false, false, false, false, true, false, true, true, true, true)

  const QUIET_ANSWERS := Answers(true, false, NO_SCAN, NO_ASSOCIATION, NO_INSTALL, true, QUIET_PASS, QUIET_CARRIAGE)

  /** The installation under `token` is confirmed, with verified keys and the announcement queued. */
  function Installation(token: nat): Answers {
    QUIET_ANSWERS.(install := InstallAnswer(true, false, true, token, true, true, true, false, false, false, true))
  }

  function Passing(z: Pass): Answers {
    QUIET_ANSWERS.(pass := z)
  }

  /** A step begun at its own instant, before anything else is done in it. */
  function Begun(c: Context): Context {
    c.(workAt := c.last, steps := 1)
  }

  /** One step has just been made, at its own instant, with recovery's bound still ahead and no packet in flight. */
  predicate Paused(c: Context, phase: nat, now: word) {
    && c.phase == phase && c.last == now && c.workAt == now && c.commissionUntil == COMMISSION_WAIT
    && !c.pending && !c.done
  }

  lemma RequestsInstallation(c: Context)
    requires c.phase == INSTALLING && c.last != c.workAt && c.issued == 0 && !Expired(c.last, c.until)
    ensures AfterRun(c, QUIET_ANSWERS) == Begun(c).(issued := 1)
  {
  }

  lemma ConfirmsInstallation(c: Context)
    requires c.phase == INSTALLING && c.last != c.workAt && c.issued == 1 && !Expired(c.last, c.until)
    requires c.recovery == 1 || (c.recovery == 2 && c.member)
    ensures AfterRun(c, Installation(c.token)) == AfterProceed(Begun(c))
  {
  }

  /** While the transport is calm and busy, a step is one pass over the device object. */
  lemma Passes(c: Context, z: Pass)
    requires Guarded(c.phase) && c.phase != INSTALLING && c.last != c.workAt && !Late(c)
    ensures AfterRun(c, Passing(z)) == AfterRuntime(Begun(c), z)
  {
    hide AfterRuntime;
  }

  /** With no evidence, no packet and no wait to run out, that pass is the phase's own work. */
  lemma Works(c: Context, z: Pass)
    requires Guarded(c.phase) && c.phase != INSTALLING && c.last != c.workAt && !Late(c) && !c.pending
    requires z.outcome == Fine && (z.event == Quiet || z.event == Rejoined)
    requires AfterDispatch(Begun(c), z).phase >= PARENT || AfterDispatch(Begun(c), z).phase == INSTALLING
    ensures AfterRun(c, Passing(z)) == AfterDispatch(Begun(c), z)
  {
    hide AfterDispatch, AfterRun, AfterFail;
    Passes(c, z);
  }

  const ASKED := Passing(QUIET_PASS.(queued := Fine))
  const REJOINED := Passing(QUIET_PASS.(event := Rejoined, confirmed := true, verified := true, idle := true))
  const ANNOUNCED := Passing(QUIET_PASS.(confirmed := true))
  const PARENTED := Passing(QUIET_PASS.(taken := true, query := ParentQuery, known := true, pollKeepalive := true, announced := true))
  const CONFLICTED := Passing(QUIET_PASS.(outcome := Conflict))

  /** Told to leave: the packet in flight is done but cannot be confirmed, and only the second stop is accepted. */
  const EXPELLED := Passing(QUIET_PASS.(event := Leave, completed := true, stops := false))

  /** The transport has come to rest and takes the Leave. */
  const QUIETED := QUIET_ANSWERS.(carriage := QUIET_CARRIAGE.(drained := true, departs := true))

  lemma Asks(c: Context)
    requires c.phase == RECOVERING && c.last != c.workAt && !Late(c) && !c.pending
    requires c.recovery == 1 && c.issued == 0 && c.attempts == 0
    ensures AfterRun(c, ASKED) == Begun(c).(issued := 1, attempts := 1)
  {
    hide AfterRun, AfterFail;
    Works(c, ASKED.pass);
  }

  lemma IsAnswered(c: Context)
    requires c.phase == RECOVERING && c.last != c.workAt && !Late(c) && !c.pending && c.issued == 1 && c.token < LAST_TOKEN
    ensures AfterRun(c, REJOINED)
            == Begun(c).(recovery := 2, member := true, token := c.token + 1, issued := 0, phase := INSTALLING, until := Plus(c.last, EXCHANGE_WAIT))
  {
    hide AfterRun, AfterFail;
    Works(c, REJOINED.pass);
  }

  lemma IsAnnounced(c: Context)
    requires c.phase == ANNOUNCING && c.last != c.workAt && !Late(c) && !c.pending && c.recovery > 0
    ensures AfterRun(c, ANNOUNCED) == Begun(c).(phase := PARENT, attempts := 0)
  {
    hide AfterRun, AfterFail;
    Works(c, ANNOUNCED.pass);
  }

  lemma IsParented(c: Context)
    requires c.phase == PARENT && c.last != c.workAt && !Late(c) && !c.pending && c.recovery > 0
    ensures AfterRun(c, PARENTED) == Begun(c).(phase := READY, attempts := 0, recovery := 3, keepalive := Plus(c.last, KEEPALIVE))
  {
    hide AfterRun, AfterFail;
    Works(c, PARENTED.pass);
  }

  lemma Conflicts(c: Context)
    requires c.phase == RECOVERING && c.last != c.workAt && !Late(c)
    ensures AfterRun(c, CONFLICTED) == AfterFail(Begun(c), AddressConflict, true)
  {
    hide AfterRun, AfterFail;
    Passes(c, CONFLICTED.pass);
  }

  lemma Leaves(c: Context)
    requires c.phase == ABORTING && c.abandon
    ensures AfterRun(c, QUIETED) == c.(phase := LEAVING)
  {
  }

  lemma IsExpelled(c: Context)
    requires c.phase == READY && c.last != c.workAt && c.pending
    ensures AfterAttend(Begun(c), EXPELLED.pass).phase == FAULT
    ensures AfterRun(c, EXPELLED) == AfterRuntime(Begun(c), EXPELLED.pass)
    ensures AfterRun(c, EXPELLED).phase == ABORTING && AfterRun(c, EXPELLED).result == TransmitFailed
  {
    hide AfterRun, AfterRuntime, AfterAttend;
    Passes(c, EXPELLED.pass);
    RefusedStop(Begun(c), EXPELLED.pass);
  }

  /** A resumed controller whose identity is installed: it is RECOVERING, at instant 2. */
  method Recovering() returns (c: Commissioning)
    ensures fresh(c) && Valid(c.ctx, c.past) && Paused(c.ctx, RECOVERING, 2)
    ensures c.ctx.recovery == 1 && c.ctx.issued == 0 && c.ctx.attempts == 0 && c.ctx.token == 1
  {
    hide AfterRun, Valid;
    c := new Commissioning(0);
    var r := c.Resume(0, RESUMABLE);
    RequestsInstallation(c.ctx.(last := 1));
    var requested;
    r, requested := c.Step(1, QUIET_ANSWERS);
    ConfirmsInstallation(c.ctx.(last := 2));
    r, requested := c.Step(2, Installation(1));
  }

  /** Recovery hears an address conflict: the run is broken off, and once the transport is quiet the Leave is sent. */
  method RecoveryLeaves() returns (c: Commissioning)
    ensures fresh(c) && Valid(c.ctx, c.past)
    ensures c.ctx.phase == LEAVING && c.ctx.recovery == 1 && c.ctx.result == AddressConflict
  {
    hide AfterRun, Valid;
    c := Recovering();
    Conflicts(c.ctx.(last := 3));
    var r, requested := c.Step(3, CONFLICTED);
    Leaves(c.ctx.(last := 4));
    r, requested := c.Step(4, QUIETED);
  }

  /** The parent answers the Rejoin Request: the identity is to be installed a second time. */
  method Rejoining() returns (c: Commissioning)
    ensures fresh(c) && Valid(c.ctx, c.past) && Paused(c.ctx, INSTALLING, 4)
    ensures c.ctx.recovery == 2 && c.ctx.issued == 0 && c.ctx.token == 2 && c.ctx.member && c.ctx.until == Plus(4, EXCHANGE_WAIT)
  {
    hide AfterRun, Valid;
    c := Recovering();
    Asks(c.ctx.(last := 3));
    var r, requested := c.Step(3, ASKED);
    IsAnswered(c.ctx.(last := 4));
    r, requested := c.Step(4, REJOINED);
  }

  method Announcing() returns (c: Commissioning)
    ensures fresh(c) && Valid(c.ctx, c.past) && Paused(c.ctx, ANNOUNCING, 6) && c.ctx.recovery == 2
  {
    hide AfterRun, Valid;
    c := Rejoining();
    RequestsInstallation(c.ctx.(last := 5));
    var r, requested := c.Step(5, QUIET_ANSWERS);
    ConfirmsInstallation(c.ctx.(last := 6));
    r, requested := c.Step(6, Installation(2));
  }

  method Operating() returns (c: Commissioning)
    ensures fresh(c) && Valid(c.ctx, c.past) && Paused(c.ctx, READY, 8) && c.ctx.recovery == 3
  {
    hide AfterRun, Valid;
    c := Announcing();
    IsAnnounced(c.ctx.(last := 7));
    var r, requested := c.Step(7, ANNOUNCED);
    IsParented(c.ctx.(last := 8));
    r, requested := c.Step(8, PARENTED);
  }

  /**
   A recovered run that is told to leave with a packet in flight: the first stop of the transport is refused, which is a
   FAULT, but the packet's confirmation fails as well and the second stop is accepted, so the call ends ABORTING.
   The answers are within the controller's interface, but the repository's own transport never gives them.
   */
  method FaultOverwritten() returns (c: Commissioning, ghost before: Context)
    ensures fresh(c) && Valid(c.ctx, c.past)
    ensures before.phase == READY && AfterAttend(before, EXPELLED.pass).phase == FAULT
    ensures c.ctx == AfterRuntime(before, EXPELLED.pass) && c.ctx.phase == ABORTING && c.ctx.result == TransmitFailed
  {
    hide AfterRun, AfterRuntime, AfterAttend, Valid;
    c := Operating();
    var r := c.Send(true, true, true, Fine);
    before := Begun(c.ctx.(last := 9));
    IsExpelled(c.ctx.(last := 9));
    var requested;
    r, requested := c.Step(9, EXPELLED);
  }
}
