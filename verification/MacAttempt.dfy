/**
 One transmission attempt of the radio, projected from raw timer tuples onto one symbol epoch and
 published as a single receipt. The lower radio is nondeterministic: what it replies is an argument.
 */
module MacAttempt {
  import opened Bytes
  import opened Words
  import opened MacEpoch

  const TIMEOUT_LIMIT := 0x80_0000
  const WINDOW_MAX := 4096
  const BODY_MAX := 125
  const SLOT_MAX := 65535
  const TURNAROUND := 12

  datatype RadioResult =
    | READY | FRAME | BAD_CRC | EMPTY | DRAIN | STOPPED | TX_DONE | CCA_BUSY | INVALID_ARGUMENT | INVALID_RANGE
    | BUFFER_OWNERSHIP | STATE | CLOCK_ERROR | TIMER_ERROR | EPOCH_ERROR | DRIVER_ERROR | RX_LOST

  datatype RadioPhase = COLD | STARTING | RX | DRAINING | OFF | FAULT | PREPARED

  datatype Diagnostics = Diagnostics(lastLive: Stamp, phase: RadioPhase, result: RadioResult, fault: RadioResult)

  datatype Frame = Frame(length: nat, rssi: byte, correlation: byte, body: seq<byte>)

  datatype RawAttempt = RawAttempt(before: Raw, armed: Raw, tx: Raw, rx: Raw, last: Raw, frame: Frame,
                                   transmitted: bool, received: bool, withinWindow: bool, autoack: bool)

  /** What the lower radio hands back from an attempt, with the epoch it held when the attempt began. */
  datatype Reply = Reply(result: RadioResult, raw: RawAttempt, first: Coordinates, status: Diagnostics)

  datatype Record = Record(txLower: Stamp, txUpper: Stamp, rxUpper: Stamp, armed: Stamp, last: Stamp, frame: Frame,
                           slot: nat, length: nat, transmitted: bool, received: bool, withinWindow: bool, autoack: bool)

  const NEVER := Stamp(0, 0)

  predicate ZerosFrom(s: seq<byte>, n: nat) {
    forall k :: n <= k < |s| ==> s[k] == 0
  }

  /** The frame a receipt carries: the received octets and nothing else in the fixed buffer. */
  predicate CarriesFrame(f: Frame, raw: RawAttempt)
    requires raw.frame.length <= BODY_MAX == |raw.frame.body|
  {
    && |f.body| == BODY_MAX
    && (if raw.received then
          f.length == raw.frame.length && f.rssi == raw.frame.rssi && f.correlation == raw.frame.correlation
          && f.body[..f.length] == raw.frame.body[..f.length] && ZerosFrom(f.body, f.length)
        else f.length == 0 && f.rssi == 0 && f.correlation == 0 && ZerosFrom(f.body, 0))
  }

  /** The samples of an attempt in the order the timer took them. */
  function Samples(raw: RawAttempt): seq<Raw> {
    [raw.before, raw.armed] + (if raw.transmitted then [raw.tx] else []) + (if raw.received then [raw.rx] else []) + [raw.last]
  }

  /** Every sample projects, each from where the one before left the epoch. */
  predicate Projects(c: Coordinates, samples: seq<Raw>)
    decreases |samples|
  {
    samples == [] || (StepResult(c, samples[0]) == Okay && Projects(After(c, samples[0]), samples[1..]))
  }

  function Stamps(c: Coordinates, samples: seq<Raw>): (s: seq<Stamp>)
    ensures |s| == |samples|
    decreases |samples|
  {
    if samples == [] then []
    else [Stamp(After(c, samples[0]).symbols, samples[0].fine)] + Stamps(After(c, samples[0]), samples[1..])
  }

  /** The receipt's times, by the place of each sample in the projected sequence. */
  predicate Dates(r: Record, raw: RawAttempt, stamps: seq<Stamp>, duration: nat)
    requires |stamps| == |Samples(raw)|
  {
    && r.txLower == (if raw.transmitted then Stamp(Plus(stamps[0].symbols, duration), stamps[0].fine) else NEVER)
    && r.armed == stamps[1]
    && r.txUpper == (if raw.transmitted then stamps[2] else NEVER)
    && r.rxUpper == (if raw.received then stamps[|stamps| - 2] else NEVER)
    && r.last == stamps[|stamps| - 1]
  }

  predicate Publishes(result: RadioResult) {
    result == FRAME || result == BAD_CRC || result == EMPTY || result == CCA_BUSY
  }

  predicate InBounds(timeout: nat, limit: nat) {
    0 < timeout < TIMEOUT_LIMIT && limit > 0
  }

  /** The caller's storage for a receipt. */
  class Receipt {
    var record: Record

    constructor ()
      ensures record == Record(NEVER, NEVER, NEVER, NEVER, NEVER, Frame(0, 0, 0, []), 0, 0, false, false, false, false)
    {
      record := Record(NEVER, NEVER, NEVER, NEVER, NEVER, Frame(0, 0, 0, []), 0, 0, false, false, false, false);
    }
  }

  class Attempt {
    const first: Epoch
    const body: array<byte>
    var staged: Record
    var slot: nat
    var fault: RadioResult
    var length: nat
    var duration: nat
    var lastResult: RadioResult
    var failed: Diagnostics
    /** Every receipt published so far with its outcome. */
    ghost var published: seq<(RadioResult, Record)>

    ghost predicate Valid()
      reads this
    {
      && body.Length == BODY_MAX && slot <= SLOT_MAX
      && (fault != READY ==> fault == EPOCH_ERROR && failed.fault == failed.result == EPOCH_ERROR && failed.phase == FAULT)
      && (forall i :: 0 <= i < |published| ==> published[i].1.slot <= slot)
      && (fault == READY ==> if published == [] then lastResult == READY
                             else published[|published| - 1] == (lastResult, staged))
    }

    constructor ()
      ensures Valid() && fresh(first) && fresh(body) && fault == READY && slot == 0 && published == []
    {
      first := new Epoch();
      body := new byte[BODY_MAX](_ => 0);
      staged := Record(NEVER, NEVER, NEVER, NEVER, NEVER, Frame(0, 0, 0, []), 0, 0, false, false, false, false);
      slot, fault, length, duration, lastResult := 0, READY, 0, 0, READY;
      failed := Diagnostics(NEVER, COLD, READY, READY);
      published := [];
    }

    /** The gate of every entry point: the retained fault, then the radio's own, then the arguments. */
    function Bounds(timeout: nat, limit: nat, radio: Diagnostics): RadioResult
      reads this
    {
      if fault != READY then fault
      else if radio.fault != READY then radio.fault
      else if InBounds(timeout, limit) then READY
      else INVALID_ARGUMENT
    }

    /**
     A body enters the transmit slot: the slot number moves on, so no earlier receipt names it. Its air time is the
     turnaround, 8 symbols of preamble, the delimiter, the length octet, and two symbols for each octet of body and checksum.
     */
    method Prepare(size: nat, timeout: nat, limit: nat, radio: Diagnostics, reply: RadioResult) returns (result: RadioResult)
      requires Valid()
      modifies this
      ensures Valid() && fault == old(fault) && published == old(published)
      ensures fault != READY ==> result == fault
      ensures slot == old(slot) || (slot == old(slot) + 1 && result == READY && length == size && 1 <= size <= 125
                                    && duration == 12 + 8 + 2 + 2 + 2 * (size + 2))
      ensures slot == old(slot) ==> length == old(length) && duration == old(duration)
      ensures slot == old(slot) + 1 <==> old(fault) == READY && radio.fault == READY && 1 <= timeout < 0x80_0000 && limit >= 1
                                         && 1 <= size <= 125 && old(slot) < 0xffff && reply == READY
      ensures fault == READY && radio.fault == READY ==>
                result == if !(1 <= timeout < 0x80_0000 && limit >= 1) || !(1 <= size <= 125) then INVALID_ARGUMENT
                          else if old(slot) == 0xffff then STATE
                          else reply
    {
      result := Bounds(timeout, limit, radio);
      if result != READY { return; }
      if size == 0 || size > BODY_MAX { return INVALID_ARGUMENT; }
      if slot == SLOT_MAX { return STATE; }
      result := reply;
      if result == READY {
        slot := slot + 1;
        length := size;
        duration := TURNAROUND + 16 + 2 * size;
      }
    }

    /** One projection; a failure latches the attempt. */
    method Project(raw: Raw, status: Diagnostics) returns (ok: bool, stamp: Stamp)
      modifies this, first
      ensures ok <==> StepResult(old(first.Snapshot()), raw) == Okay
      ensures ok ==> first.Snapshot() == After(old(first.Snapshot()), raw)
                     && stamp == Stamp(first.symbols, raw.fine) && fault == old(fault) && failed == old(failed)
      ensures !ok ==> fault == EPOCH_ERROR && failed == status.(fault := EPOCH_ERROR, result := EPOCH_ERROR, phase := FAULT)
      ensures staged == old(staged) && slot == old(slot) && length == old(length) && duration == old(duration)
              && lastResult == old(lastResult) && published == old(published)
    {
      var outcome;
      outcome, stamp := first.Step(raw);
      ok := outcome == Okay;
      if !ok {
        fault := EPOCH_ERROR;
        failed := status.(fault := EPOCH_ERROR, result := EPOCH_ERROR, phase := FAULT);
      }
    }

    /** All projections of one reply into the staged times; the staged record is meaningful only when all succeed. */
    method ProjectAll(reply: Reply) returns (ok: bool)
      requires first.Snapshot() == reply.first
      modifies this, first
      ensures ok <==> Projects(reply.first, Samples(reply.raw))
      ensures ok ==> fault == old(fault) && failed == old(failed)
                     && Dates(staged, reply.raw, Stamps(reply.first, Samples(reply.raw)), duration)
      ensures !ok ==> fault == EPOCH_ERROR
                      && failed == reply.status.(fault := EPOCH_ERROR, result := EPOCH_ERROR, phase := FAULT)
      ensures slot == old(slot) && length == old(length) && duration == old(duration)
              && lastResult == old(lastResult) && published == old(published)
    {
      var raw := reply.raw;
      var samples := Samples(raw);
      hide StepResult, After, Samples;
      var stamp;
      ghost var c0 := first.Snapshot();
      staged := Record(NEVER, NEVER, NEVER, NEVER, NEVER, Frame(0, 0, 0, []), 0, 0, false, false, false, false);
      SamplesInOrder(raw, c0);
      ok, stamp := Project(raw.before, reply.status);
      if !ok { return; }
      staged := staged.(txLower := stamp);
      ok, stamp := Project(raw.armed, reply.status);
      if !ok { return; }
      staged := staged.(armed := stamp);
      if raw.transmitted {
        staged := staged.(txLower := Stamp(Plus(staged.txLower.symbols, duration), staged.txLower.fine));
        ok, stamp := Project(raw.tx, reply.status);
        if !ok { return; }
        staged := staged.(txUpper := stamp);
      } else {
        staged := staged.(txLower := NEVER);
      }
      if raw.received {
        ok, stamp := Project(raw.rx, reply.status);
        if !ok { return; }
        staged := staged.(rxUpper := stamp);
      }
      ok, stamp := Project(raw.last, reply.status);
      if !ok { return; }
      staged := staged.(last := stamp);
    }

    /** Copies the received octets over a cleared buffer. */
    method CopyBody(raw: RawAttempt)
      requires body.Length == BODY_MAX
      requires raw.frame.length <= BODY_MAX == |raw.frame.body|
      modifies body
      ensures raw.received ==> body[..raw.frame.length] == raw.frame.body[..raw.frame.length]
      ensures ZerosFrom(body[..], if raw.received then raw.frame.length else 0)
    {
      for i := 0 to BODY_MAX
        invariant forall k :: 0 <= k < i ==> body[k] == 0
      {
        body[i] := 0;
      }
      if raw.received {
        for i := 0 to raw.frame.length
          invariant forall k :: 0 <= k < i ==> body[k] == raw.frame.body[k]
          invariant forall k :: i <= k < BODY_MAX ==> body[k] == 0
        {
          body[i] := raw.frame.body[i];
        }
      }
    }

    /**
     One attempt. A receipt is published, whole, exactly when every raw sample projects through one
     epoch; otherwise the caller's record is untouched and the failure is kept.
     */
    method Run(window: nat, timeout: nat, limit: nat, radio: Diagnostics, reply: Reply, output: Receipt)
        returns (result: RadioResult)
      requires Valid()
      requires reply.raw.frame.length <= BODY_MAX == |reply.raw.frame.body|
      modifies this, first, body, output
      ensures Valid() && slot == old(slot)
      ensures old(fault) != READY ==> result == old(fault) && fault == old(fault)
      ensures old(fault) == READY && radio.fault != READY ==> result == radio.fault
      ensures old(fault) == READY && radio.fault == READY && !(1 <= timeout < 0x80_0000 && limit >= 1 && 1 <= window <= 4096) ==>
                result == INVALID_ARGUMENT
      ensures var entered := old(fault) == READY && radio.fault == READY && 1 <= timeout < 0x80_0000 && limit >= 1 && 1 <= window <= 4096
                             && (reply.result == FRAME || reply.result == BAD_CRC || reply.result == EMPTY || reply.result == CCA_BUSY);
              && (!entered ==> output.record == old(output.record) && fault == old(fault) && published == old(published)
                               && staged == old(staged) && lastResult == old(lastResult))
              && (entered && !Projects(reply.first, Samples(reply.raw))
                  ==> result == EPOCH_ERROR && fault == EPOCH_ERROR && output.record == old(output.record)
                      && published == old(published))
              && (entered && Projects(reply.first, Samples(reply.raw))
                  ==> result == reply.result && fault == READY && published == old(published) + [(result, output.record)]
                      && Dates(output.record, reply.raw, Stamps(reply.first, Samples(reply.raw)), duration)
                      && CarriesFrame(output.record.frame, reply.raw)
                      && output.record.slot == slot && output.record.length == length
                      && output.record.transmitted == reply.raw.transmitted && output.record.received == reply.raw.received
                      && output.record.withinWindow == reply.raw.withinWindow && output.record.autoack == reply.raw.autoack)
    {
      hide Projects, Stamps, Samples, Dates, CarriesFrame, ZerosFrom;
      result := Bounds(timeout, limit, radio);
      if result != READY { return; }
      if window == 0 || window > WINDOW_MAX { return INVALID_ARGUMENT; }
      result := reply.result;
      if !Publishes(result) { return; }
      result := Collect(reply, output);
    }

    /** The radio has replied with an outcome that ends in a receipt. */
    method Collect(reply: Reply, output: Receipt) returns (result: RadioResult)
      requires Valid() && fault == READY && Publishes(reply.result)
      requires reply.raw.frame.length <= BODY_MAX == |reply.raw.frame.body|
      modifies this, first, body, output
      ensures Valid() && slot == old(slot) && length == old(length) && duration == old(duration)
      ensures !Projects(reply.first, Samples(reply.raw))
              ==> result == EPOCH_ERROR && fault == EPOCH_ERROR && output.record == old(output.record)
                  && published == old(published)
      ensures Projects(reply.first, Samples(reply.raw))
              ==> result == reply.result && fault == READY && published == old(published) + [(result, output.record)]
                  && Dates(output.record, reply.raw, Stamps(reply.first, Samples(reply.raw)), duration)
                  && CarriesFrame(output.record.frame, reply.raw)
                  && output.record.slot == slot && output.record.length == length
                  && output.record.transmitted == reply.raw.transmitted && output.record.received == reply.raw.received
                  && output.record.withinWindow == reply.raw.withinWindow && output.record.autoack == reply.raw.autoack
    {
      hide Projects, Stamps, Samples, Dates, CarriesFrame, ZerosFrom;
      first.periods, first.symbols, first.fine, first.condition
        := reply.first.periods, reply.first.symbols, reply.first.fine, reply.first.condition;
      lastResult := reply.result;
      var ok := ProjectAll(reply);
      if !ok { return EPOCH_ERROR; }
      CopyBody(reply.raw);
      FinishRecord(reply.raw);
      output.record := staged;
      published := published + [(lastResult, staged)];
      result := lastResult;
    }

    /** The rest of the staged record beside its times. */
    method FinishRecord(raw: RawAttempt)
      requires body.Length == BODY_MAX && raw.frame.length <= BODY_MAX == |raw.frame.body|
      requires raw.received ==> body[..raw.frame.length] == raw.frame.body[..raw.frame.length]
      requires ZerosFrom(body[..], if raw.received then raw.frame.length else 0)
      modifies `staged
      ensures CarriesFrame(staged.frame, raw)
      ensures forall stamps: seq<Stamp> | |stamps| == |Samples(raw)| ::
                Dates(old(staged), raw, stamps, duration) ==> Dates(staged, raw, stamps, duration)
      ensures staged.slot == slot && staged.length == length && staged.transmitted == raw.transmitted
              && staged.received == raw.received && staged.withinWindow == raw.withinWindow && staged.autoack == raw.autoack
    {
      staged := staged.(
        frame := Frame(if raw.received then raw.frame.length else 0, if raw.received then raw.frame.rssi else 0,
                       if raw.received then raw.frame.correlation else 0, body[..]),
        slot := slot, length := length, transmitted := raw.transmitted, received := raw.received,
        withinWindow := raw.withinWindow, autoack := raw.autoack);
    }

    /** The handoff reaches the radio only on this slot's latest published receipt, a good in-window answer to its own frame. */
    method Handoff(timeout: nat, limit: nat, radio: Diagnostics, reply: RadioResult) returns (result: RadioResult, asked: bool)
      requires Valid()
      ensures old(fault) != READY ==> result == old(fault) && !asked
      ensures asked ==> result == reply
      ensures asked <==> Bounds(timeout, limit, radio) == READY && published != []
                         && var (outcome, r) := published[|published| - 1];
                            outcome == FRAME && r.slot == slot && r.transmitted && r.received && r.withinWindow
    {
      result, asked := Bounds(timeout, limit, radio), false;
      if result != READY { return; }
      if lastResult != FRAME || staged.slot != slot || !staged.transmitted || !staged.received || !staged.withinWindow {
        return STATE, false;
      }
      result, asked := reply, true;
    }

    /** Receive, stop, resume, sampling and reconfiguration share one shape: the gate, then the radio's own answer. */
    method Delegate(timeout: nat, limit: nat, radio: Diagnostics, reply: RadioResult) returns (result: RadioResult)
      requires Valid()
      ensures fault != READY ==> result == fault
      ensures result == if Bounds(timeout, limit, radio) == READY then reply else Bounds(timeout, limit, radio)
    {
      result := Bounds(timeout, limit, radio);
      if result == READY { result := reply; }
    }

    /** After a failed projection the diagnostic is the retained one, whatever the radio would say. */
    method Diagnostic(radio: Diagnostics) returns (d: Diagnostics)
      requires Valid()
      ensures fault != READY ==> d == failed && d.fault == EPOCH_ERROR && d.phase == FAULT
      ensures fault == READY ==> d == radio
    {
      d := if fault != READY then failed else radio;
    }
  }

  /** How projecting sample by sample builds the whole. */
  lemma SamplesInOrder(raw: RawAttempt, c: Coordinates)
    ensures var s := Samples(raw);
            var c1 := After(c, raw.before); var c2 := After(c1, raw.armed);
            var c3 := if raw.transmitted then After(c2, raw.tx) else c2;
            var c4 := if raw.received then After(c3, raw.rx) else c3;
            && (Projects(c, s) <==> StepResult(c, raw.before) == Okay && StepResult(c1, raw.armed) == Okay
                                    && (raw.transmitted ==> StepResult(c2, raw.tx) == Okay)
                                    && (raw.received ==> StepResult(c3, raw.rx) == Okay)
                                    && StepResult(c4, raw.last) == Okay)
            && Stamps(c, s) == [Stamp(c1.symbols, raw.before.fine), Stamp(c2.symbols, raw.armed.fine)]
                               + (if raw.transmitted then [Stamp(c3.symbols, raw.tx.fine)] else [])
                               + (if raw.received then [Stamp(c4.symbols, raw.rx.fine)] else [])
                               + [Stamp(After(c4, raw.last).symbols, raw.last.fine)]
  {
    hide StepResult, After;
    var s := Samples(raw);
    var fromTx := (if raw.transmitted then [raw.tx] else []) + ((if raw.received then [raw.rx] else []) + [raw.last]);
    assert s[1..] == [raw.armed] + fromTx && s[1..][1..] == fromTx;
    FromTx(After(After(c, raw.before), raw.armed), raw);
    assert Stamps(c, s) == [Stamp(After(c, raw.before).symbols, raw.before.fine)] + Stamps(After(c, raw.before), s[1..]);
  }

  lemma FromTx(c: Coordinates, raw: RawAttempt)
    ensures var s := (if raw.transmitted then [raw.tx] else []) + ((if raw.received then [raw.rx] else []) + [raw.last]);
            var c3 := if raw.transmitted then After(c, raw.tx) else c;
            var c4 := if raw.received then After(c3, raw.rx) else c3;
            && (Projects(c, s) <==> (raw.transmitted ==> StepResult(c, raw.tx) == Okay)
                                    && (raw.received ==> StepResult(c3, raw.rx) == Okay)
                                    && StepResult(c4, raw.last) == Okay)
            && Stamps(c, s) == (if raw.transmitted then [Stamp(c3.symbols, raw.tx.fine)] else [])
                               + (if raw.received then [Stamp(c4.symbols, raw.rx.fine)] else [])
                               + [Stamp(After(c4, raw.last).symbols, raw.last.fine)]
  {
    hide StepResult, After;
    var rest := (if raw.received then [raw.rx] else []) + [raw.last];
    FromRx(if raw.transmitted then After(c, raw.tx) else c, raw);
    assert ([raw.tx] + rest)[1..] == rest;
    assert [] + rest == rest;
  }

  lemma FromRx(c: Coordinates, raw: RawAttempt)
    ensures var s := (if raw.received then [raw.rx] else []) + [raw.last];
            var c4 := if raw.received then After(c, raw.rx) else c;
            && (Projects(c, s) <==> (raw.received ==> StepResult(c, raw.rx) == Okay) && StepResult(c4, raw.last) == Okay)
            && Stamps(c, s) == (if raw.received then [Stamp(c4.symbols, raw.rx.fine)] else [])
                               + [Stamp(After(c4, raw.last).symbols, raw.last.fine)]
  {
    hide StepResult, After;
    LastSample(if raw.received then After(c, raw.rx) else c, raw.last);
    assert ([raw.rx] + [raw.last])[1..] == [raw.last];
    assert [] + [raw.last] == [raw.last];
  }

  lemma LastSample(c: Coordinates, last: Raw)
    ensures Projects(c, [last]) <==> StepResult(c, last) == Okay
    ensures Stamps(c, [last]) == [Stamp(After(c, last).symbols, last.fine)]
  {
    hide StepResult, After;
    assert [last][1..] == [];
  }

  // ---------- against the true clock ----------

  /** A true instant as an epoch stamp. */
  function TrueStamp(t: nat, origin: nat): Stamp {
    Stamp(SymbolsAt(t, origin), t % FINE)
  }

  predicate Ordered(t: nat, instants: seq<nat>)
    decreases |instants|
  {
    instants == [] || (t <= instants[0] && Ordered(instants[0], instants[1..]))
  }

  /** Neighbouring samples are less than half a cycle apart, in whichever order they really fell. */
  predicate Near(t: nat, instants: seq<nat>)
    decreases |instants|
  {
    instants == [] || (t < instants[0] + HALF_CYCLE && instants[0] < t + HALF_CYCLE && Near(instants[0], instants[1..]))
  }

  function TrueStamps(instants: seq<nat>, origin: nat): (s: seq<Stamp>)
    ensures |s| == |instants|
    ensures forall i :: 0 <= i < |s| ==> s[i] == TrueStamp(instants[i], origin)
  {
    if instants == [] then [] else [TrueStamp(instants[0], origin)] + TrueStamps(instants[1..], origin)
  }

  lemma BackwardFaults(c: Coordinates, t: nat, u: nat)
    requires Raw(c.periods, c.fine) == Shown(t) && c.condition.Ready?
    requires u < t < u + HALF_CYCLE
    ensures StepResult(c, Shown(u)) == TimeError
  {
    CycleOf(t);
    CycleOf(u);
    var a, b := t / CYCLE, u / CYCLE;
    assert t == a * CYCLE + t % CYCLE && u == b * CYCLE + u % CYCLE;
    assert 0 <= a - b <= 1;
  }

  /** Samples of the true clock project if and only if they were taken in order, and then show true symbols and phase. */
  lemma {:induction false} ProjectsIffOrdered(c: Coordinates, t: nat, origin: nat, instants: seq<nat>)
    requires Tracks(c, t, origin) && Near(t, instants)
    ensures Projects(c, ShownAll(instants)) <==> Ordered(t, instants)
    ensures Ordered(t, instants) ==> Stamps(c, ShownAll(instants)) == TrueStamps(instants, origin)
    decreases |instants|
  {
    if instants != [] {
      var u := instants[0];
      var rest := ShownAll(instants[1..]);
      assert ShownAll(instants)[1..] == rest;
      if u < t {
        BackwardFaults(c, t, u);
      } else {
        StepOverGap(c, t, u, origin);
        assert (u - t) % CYCLE == u - t;
        ProjectsIffOrdered(After(c, Shown(u)), u, origin, instants[1..]);
      }
    }
  }

  /** Names for the true instants of one attempt. */
  datatype Instants = Instants(before: nat, armed: nat, tx: nat, rx: nat, last: nat)

  function InstantList(raw: RawAttempt, i: Instants): seq<nat> {
    [i.before, i.armed] + (if raw.transmitted then [i.tx] else []) + (if raw.received then [i.rx] else []) + [i.last]
  }

  predicate TakenAt(raw: RawAttempt, i: Instants) {
    && raw.before == Shown(i.before) && raw.armed == Shown(i.armed) && raw.last == Shown(i.last)
    && (raw.transmitted ==> raw.tx == Shown(i.tx)) && (raw.received ==> raw.rx == Shown(i.rx))
  }

  /** A published receipt is true: its stamps are the true instants, in true order, and the transmit lower bound is the full airtime after the pre-strobe sample. */
  lemma PublishedInTrueOrder(r: Record, raw: RawAttempt, c: Coordinates, t: nat, origin: nat, i: Instants, duration: nat)
    requires Tracks(c, t, origin) && TakenAt(raw, i) && Near(t, InstantList(raw, i))
    requires Projects(c, Samples(raw)) && Dates(r, raw, Stamps(c, Samples(raw)), duration)
    ensures t <= i.before <= i.armed <= i.last
    ensures r.armed == TrueStamp(i.armed, origin) && r.last == TrueStamp(i.last, origin)
    ensures raw.transmitted ==> i.armed <= i.tx <= i.last && r.txUpper == TrueStamp(i.tx, origin)
                                && r.txLower == TrueStamp(i.before + FINE * duration, origin)
    ensures raw.received ==> i.armed <= i.rx <= i.last && r.rxUpper == TrueStamp(i.rx, origin)
    ensures raw.transmitted && raw.received ==> i.tx <= i.rx
  {
    hide *;
    var instants := InstantList(raw, i);
    ShownInstants(raw, i);
    ProjectsIffOrdered(c, t, origin, instants);
    OrderedList(raw, t, i);
    DatesByInstant(r, raw, i, origin, duration);
    AirtimeStamp(i.before, origin, duration);
  }

  /** Reading the true stamps at the receipt's places. */
  lemma DatesByInstant(r: Record, raw: RawAttempt, i: Instants, origin: nat, duration: nat)
    requires |InstantList(raw, i)| == |Samples(raw)|
    requires Dates(r, raw, TrueStamps(InstantList(raw, i), origin), duration)
    ensures r.armed == TrueStamp(i.armed, origin) && r.last == TrueStamp(i.last, origin)
    ensures raw.transmitted ==> r.txUpper == TrueStamp(i.tx, origin)
                                && r.txLower == Stamp(Plus(SymbolsAt(i.before, origin), duration), i.before % FINE)
    ensures raw.received ==> r.rxUpper == TrueStamp(i.rx, origin)
  {
    hide TrueStamps, SymbolsAt;
    var s := InstantList(raw, i);
    assert s[0] == i.before && s[1] == i.armed && s[|s| - 1] == i.last;
    assert raw.transmitted ==> s[2] == i.tx;
    assert raw.received ==> s[|s| - 2] == i.rx;
  }

  lemma AirtimeStamp(t: nat, origin: nat, duration: nat)
    ensures Stamp(Plus(SymbolsAt(t, origin), duration), t % FINE) == TrueStamp(t + FINE * duration, origin)
  {
    Airtime(t, duration);
    WrapPlus(origin + t / FINE, duration);
  }

  lemma Airtime(t: nat, duration: nat)
    ensures (t + FINE * duration) / FINE == t / FINE + duration && (t + FINE * duration) % FINE == t % FINE
  {
  }

  lemma ShownInstants(raw: RawAttempt, i: Instants)
    requires TakenAt(raw, i)
    ensures Samples(raw) == ShownAll(InstantList(raw, i))
  {
    hide Shown;
    ShownAllIs(InstantList(raw, i));
  }

  lemma {:induction false} ShownAllIs(instants: seq<nat>)
    ensures forall k :: 0 <= k < |instants| ==> ShownAll(instants)[k] == Shown(instants[k])
  {
    if instants != [] {
      ShownAllIs(instants[1..]);
    }
  }

  lemma OrderedList(raw: RawAttempt, t: nat, i: Instants)
    requires Ordered(t, InstantList(raw, i))
    ensures t <= i.before <= i.armed <= i.last
    ensures raw.transmitted ==> i.armed <= i.tx <= i.last
    ensures raw.received ==> i.armed <= i.rx <= i.last
    ensures raw.transmitted && raw.received ==> i.tx <= i.rx
  {
    OrderedIs(t, InstantList(raw, i));
    var s := InstantList(raw, i);
    assert s[0] == i.before && s[1] == i.armed && s[|s| - 1] == i.last;
    assert raw.transmitted ==> s[2] == i.tx;
    assert raw.received ==> s[|s| - 2] == i.rx;
  }

  lemma {:induction false} OrderedIs(t: nat, s: seq<nat>)
    requires Ordered(t, s)
    ensures forall j :: 0 <= j < |s| ==> t <= s[j]
    ensures forall j, k :: 0 <= j <= k < |s| ==> s[j] <= s[k]
    decreases |s|
  {
    if s != [] {
      OrderedIs(s[0], s[1..]);
      assert forall j :: 0 < j < |s| ==> s[j] == s[1..][j - 1];
    }
  }
}
