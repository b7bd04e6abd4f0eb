/**
 Switching the system clock source with a bounded wait and one bounded rollback. The registers, the Sleep Timer
 and the time base answer anything; `trace` records what was written and read in order.
 */
module ClockSelect {
  import opened Bytes

  const OSC: byte := 0x40
  const TICKSPD: byte := 0x38
  const CLKSPD: byte := 0x07
  const TICKS := 0x100_0000
  const HALF_TICKS := 0x80_0000

  datatype Source = RC16 | XOSC32

  datatype Result =
    | Ok | InvalidArgument | UnsupportedState | Timeout | PollLimit | TimebaseError | CounterRange | CommandChanged
    | NotAttempted | RollbackUnconfirmed

  /** One contact with the hardware: a command write, a read of command and status, a timer sample. */
  datatype Io = Wrote(command: byte) | Looked(command: byte, status: byte) | Ticked(now: nat)

  datatype Wait = Wait(polls: nat, elapsed: nat, timebase: bool)

  datatype Diagnostics = Diagnostics(request: Wait, rollback: Wait, saved: byte, requested: byte, command: byte, status: byte,
                                     rollbackResult: Result)

  /** The status a command settles to: the slower source cannot run the timer tick at full speed. */
  function Effective(command: byte): byte {
    if command & OSC != 0 && command & TICKSPD == 0 then command | 0x08 else command
  }

  /** The command for a source: everything else as it was. */
  function Wanted(saved: byte, source: Source): byte {
    (saved & 0xb8) | (if source == RC16 then 0x41 else 0)
  }

  /** The status shows the same oscillator as the command asks for. */
  predicate SourceShown(status: byte, requested: byte) {
    (status ^ requested) & OSC == 0
  }

  /** A command whose speed is the one its source runs at; any other is refused. */
  predicate Proper(command: byte) {
    command & CLKSPD == if command & OSC != 0 then 1 else 0
  }

  /** A command keeps the low-frequency source and the tick speed asked for; oscillator and speed are the source's own. */
  lemma WantedBits(saved: byte, source: Source)
    ensures var w := Wanted(saved, source); w & 0xb8 == saved & 0xb8 && w & 0x47 == if source == RC16 then 0x41 else 0
    ensures Wanted(saved, source) & 0x40 == if source == RC16 then 0x40 else 0
  {
  }

  /** A settled status is its command, but for a full tick speed the slower source clamps to half. */
  lemma EffectiveBits(command: byte)
    ensures Effective(command) & 0xc7 == command & 0xc7
    ensures Effective(command) & 0x38 == if command & 0x40 == 0x40 && command & 0x38 == 0 then 0x08 else command & 0x38
  {
  }

  /** The source is shown by the oscillator bit alone. */
  lemma ShownBits(status: byte, requested: byte)
    ensures SourceShown(status, requested) <==> status & 0x40 == requested & 0x40
  {
  }

  /** The registers that must be quiet before a selection: three interrupt masks and the sleep mode. */
  datatype Guards = Guards(ien0: byte, ien1: byte, ien2: byte, sleep: byte)

  /** No interrupt enabled, active mode with its reserved bit set. */
  predicate Quiet(g: Guards) {
    g.ien0 == 0 && g.ien1 == 0 && g.ien2 == 0 && g.sleep & 7 == 4
  }

  lemma QuietBits(g: Guards)
    ensures Quiet(g) <==> g.ien0 | g.ien1 | g.ien2 | ((g.sleep & 7) ^ 4) == 0
  {
  }

  /** Command and status as found: the command's speed is its source's, and the status has settled to it. */
  predicate Supported(command: byte, status: byte) {
    && command & 7 == (if command & 0x40 == 0x40 then 1 else 0) && status & 0xc7 == command & 0xc7
    && status & 0x38 == if command & 0x40 == 0x40 && command & 0x38 == 0 then 0x08 else command & 0x38
  }

  lemma SupportedIs(command: byte, status: byte)
    ensures Supported(command, status) <==> Proper(command) && status == Effective(command)
  {
    EffectiveBits(command);
    TwoParts(status, Effective(command));
    assert command & 0x40 != 0 <==> command & 0x40 == 0x40;
  }

  lemma TwoParts(a: byte, b: byte)
    ensures a == b <==> a & 0xc7 == b & 0xc7 && a & 0x38 == b & 0x38
  {
  }

  /** Timer ticks from one sample to another on the 24-bit counter. */
  function Elapsed(now: nat, start: nat): nat {
    (now - start) % TICKS
  }

  function Writes(trace: seq<Io>): seq<byte> {
    if trace == [] then []
    else
      var last := trace[|trace| - 1];
      Writes(trace[..|trace| - 1]) + if last.Wrote? then [last.command] else []
  }

  function Timers(trace: seq<Io>): nat {
    if trace == [] then 0
    else Timers(trace[..|trace| - 1]) + if trace[|trace| - 1].Ticked? then 1 else 0
  }

  lemma TraceGrows(trace: seq<Io>, io: Io)
    ensures Writes(trace + [io]) == Writes(trace) + if io.Wrote? then [io.command] else []
    ensures Timers(trace + [io]) == Timers(trace) + if io.Ticked? then 1 else 0
  {
    assert (trace + [io])[..|trace + [io]| - 1] == trace;
  }

  predicate Extends(before: seq<Io>, after: seq<Io>) {
    before <= after
  }

  lemma ExtendsOne(trace: seq<Io>, io: Io)
    ensures Extends(trace, trace + [io])
  {
  }

  lemma LookKept(a: seq<Io>, b: seq<Io>, c: seq<Io>)
    requires Extends(b, c) && |a| < |b|
    ensures |a| < |c| && c[|a|] == b[|a|]
  {
  }

  lemma ExtendsChain(a: seq<Io>, b: seq<Io>, c: seq<Io>)
    requires Extends(a, b) && Extends(b, c)
    ensures Extends(a, c) && |a| <= |b| <= |c|
  {
  }

  /** Some read in this stretch showed the requested source. */
  predicate SourceSeen(trace: seq<Io>, from: nat, requested: byte) {
    exists k :: from <= k < |trace| && trace[k].Looked? && SourceShown(trace[k].status, requested)
  }

  /** The last read showed this command in force and settled. */
  predicate SettledAt(trace: seq<Io>, from: nat, command: byte) {
    exists k :: from <= k < |trace| && trace[k] == Looked(command, Effective(command))
  }

  /** The last read showed this command in force and settled; a timer sample dates it. */
  predicate SettledLast(trace: seq<Io>, from: nat, command: byte) {
    from + 2 <= |trace| && trace[|trace| - 2] == Looked(command, Effective(command)) && trace[|trace| - 1].Ticked?
  }

  /** The command write at this position is the one that follows these. */
  predicate WriteAt(trace: seq<Io>, at: nat, prior: seq<byte>, command: byte) {
    at < |trace| && trace[at] == Wrote(command) && Writes(trace[..at]) == prior
  }

  /** After the first write a read showed the requested source, and then, or with it, one after the second the command settled. */
  predicate SeenThenSettled(trace: seq<Io>, first: nat, second: nat, seen: nat, settled: nat, command: byte, requested: byte) {
    && first < seen <= settled < |trace| && second < settled
    && trace[seen].Looked? && SourceShown(trace[seen].status, requested)
    && trace[settled] == Looked(command, Effective(command))
  }

  /** A settled status in its bits, as `EffectiveBits` has it. */
  predicate Settled(command: byte, status: byte) {
    status & 0xc7 == command & 0xc7 && status & 0x38 == if command & 0x40 == 0x40 && command & 0x38 == 0 then 0x08 else command & 0x38
  }

  lemma SettledIs(command: byte, status: byte)
    ensures Settled(command, status) <==> status == Effective(command)
  {
    EffectiveBits(command);
    TwoParts(status, Effective(command));
  }

  /**
   What one poll decides, in the source's order: the command no longer in force, an unusable deadline, a timer out of range,
   a sample after the deadline, the command settled with its source seen, the deadline itself; otherwise nothing yet.
   */
  function Verdict(command: byte, timeout: nat, start: nat, previous: nat, now: nat, shown: byte, status: byte, seen: bool): Result {
    if shown != command then CommandChanged
    else if (now - start - timeout) % TICKS == HALF_TICKS then TimebaseError
    else if Elapsed(now, start) >= HALF_TICKS || Elapsed(now, previous) >= HALF_TICKS then CounterRange
    else if Elapsed(now, start) > timeout then Timeout
    else if seen && status == Effective(command) then Ok
    else if Elapsed(now, start) == timeout then Timeout
    else NotAttempted
  }

  /**
   What a verdict says: the command is lost or not; success shows the setting in its bits, no later than the deadline; a timeout
   is past the deadline or at it without the setting; and a wait goes on only before its deadline and without the setting.
   */
  lemma VerdictSays(command: byte, timeout: nat, start: nat, previous: nat, now: nat, shown: byte, status: byte, seen: bool)
    ensures var r := Verdict(command, timeout, start, previous, now, shown, status, seen);
            var elapsed := (now - start) % 0x100_0000; var done := seen && Settled(command, status);
            && (r == CommandChanged <==> shown != command)
            && (r == Ok ==> done && elapsed <= timeout)
            && (r == Timeout ==> elapsed > timeout || (elapsed == timeout && !done))
            && (r == CounterRange ==> elapsed >= 0x80_0000 || (now - previous) % 0x100_0000 >= 0x80_0000)
            && (r == TimebaseError ==> (now - start - timeout) % 0x100_0000 == 0x80_0000)
            && (r == NotAttempted ==> elapsed < timeout && !done)
            && (r == Ok || r == Timeout || r == NotAttempted ==> elapsed < 0x80_0000 && (now - previous) % 0x100_0000 < 0x80_0000)
            && r != PollLimit && r != UnsupportedState && r != InvalidArgument && r != RollbackUnconfirmed
  {
    SettledIs(command, status);
    hide Settled, Effective;
  }

  class Clock {
    var output: Diagnostics
    var saved: byte
    var requested: byte
    var observedCommand: byte
    var observedStatus: byte
    var count: Wait
    var rollback: bool
    var sourceSeen: bool
    var guards: Guards
    ghost var trace: seq<Io>

    constructor ()
      ensures trace == []
    {
      var none := Wait(0, 0, true);
      output := Diagnostics(none, none, 0, 0, 0, 0, NotAttempted);
      saved, requested, observedCommand, observedStatus, count, rollback, sourceSeen := 0, 0, 0, 0, none, false, false;
      guards := Guards(0, 0, 0, 0);
      trace := [];
    }

    method Observe()
      modifies `observedCommand, `observedStatus, `output, `trace
      ensures trace == old(trace) + [Looked(observedCommand, observedStatus)]
      ensures output == old(output).(command := observedCommand, status := observedStatus)
    {
      observedCommand := *;
      observedStatus := *;
      output := output.(command := observedCommand, status := observedStatus);
      trace := trace + [Looked(observedCommand, observedStatus)];
    }

    method ReadTimer() returns (now: nat)
      modifies `trace
      ensures now < TICKS && trace == old(trace) + [Ticked(now)]
    {
      now := *;
      now := now % TICKS;
      trace := trace + [Ticked(now)];
    }

    method Write(command: byte)
      modifies `trace
      ensures trace == old(trace) + [Wrote(command)]
    {
      trace := trace + [Wrote(command)];
    }

    method Publish()
      modifies `output
      ensures output == if rollback then old(output).(rollback := count) else old(output).(request := count)
    {
      if !rollback {
        output := output.(request := count);
      } else {
        output := output.(rollback := count);
      }
    }

    /**
     One command write and then at most `limit` polls. Success means a read after the write showed the command
     settled, within the time limit, after the requested source had been seen.
     */
    method RequestAndWait(command: byte, timeout: nat, limit: nat) returns (r: Result)
      requires 0 < limit && count.polls == 0 && timeout < HALF_TICKS
      modifies `observedCommand, `observedStatus, `output, `count, `sourceSeen, `trace
      ensures Extends(old(trace), trace) && |old(trace)| < |trace|
      ensures Writes(trace) == Writes(old(trace)) + [command]
      ensures |old(trace)| + 2 <= |trace| && trace[|old(trace)|].Ticked?
      ensures WriteAt(trace, |old(trace)| + 1, Writes(old(trace)), command)
      ensures Timers(trace) <= Timers(old(trace)) + limit + 1
      ensures count.polls <= limit && (r == PollLimit ==> count.polls == limit)
      ensures sourceSeen <==> old(sourceSeen) || SourceSeen(trace, |old(trace)|, requested)
      ensures r == Ok ==> SettledLast(trace, |old(trace)| + 2, command) && sourceSeen && count.elapsed <= timeout
      ensures r == Ok || r == PollLimit || r == CommandChanged || r == Timeout || r == TimebaseError || r == CounterRange
      ensures Untouched(old(output), output, rollback)
      ensures Shown(output, rollback) <= limit
    {
      ghost var t0 := trace;
      hide Writes, Timers, SourceSeen, SettledLast, Extends, WriteAt;
      var start := ReadTimer();
      TraceGrows(t0, Ticked(start));
      ExtendsOne(t0, Ticked(start));
      var previous: nat := start;
      var usable: bool := *;
      count := count.(timebase := usable);
      Publish();
      ghost var t1 := trace;
      Write(command);
      TraceGrows(t1, Wrote(command));
      ExtendsOne(t1, Wrote(command));
      ExtendsChain(t0, t1, trace);
      ghost var t2 := trace;
      SecondIs(t0, t2, Ticked(start), command);
      assert !SourceSeen(trace, |t0|, requested) by { FreshTrace(t0, trace, Ticked(start), Wrote(command), requested); }
      while count.polls < limit
        invariant count.polls <= limit && |t0| < |trace| && Extends(t0, trace) && Extends(t2, trace) && previous < TICKS
        invariant |t2| <= |trace| && |t2| == |t0| + 2
        invariant Writes(trace) == Writes(t0) + [command] && Timers(trace) == Timers(t0) + count.polls + 1
        invariant sourceSeen <==> old(sourceSeen) || SourceSeen(trace, |t0|, requested)
        invariant Untouched(old(output), output, rollback)
        invariant Shown(output, rollback) <= limit
      {
        ghost var t := trace;
        var done, result, now := Poll(command, timeout, start, previous, |t0|);
        ExtendsChain(t0, t, trace);
        ExtendsChain(t2, t, trace);
        if done {
          WriteKept(t2, trace, |t0| + 1, Writes(t0), command);
          LastKept(trace, |t|, |t2|, command);
          return result;
        }
        previous := now;
      }
      WriteKept(t2, trace, |t0| + 1, Writes(t0), command);
      r := PollLimit;
    }

    /** Reads command and status; a status of the requested source is remembered whichever command is in force. */
    method Look(ghost from: nat)
      requires from < |trace|
      modifies `observedCommand, `observedStatus, `output, `sourceSeen, `trace
      ensures trace == old(trace) + [Looked(observedCommand, observedStatus)]
      ensures sourceSeen <==> old(sourceSeen) || SourceShown(observedStatus, requested)
      ensures Writes(trace) == Writes(old(trace)) && Timers(trace) == Timers(old(trace))
      ensures SourceSeen(trace, from, requested) <==> SourceSeen(old(trace), from, requested) || SourceShown(observedStatus, requested)
      ensures output == old(output).(command := observedCommand, status := observedStatus)
    {
      Observe();
      TraceGrows(old(trace), Looked(observedCommand, observedStatus));
      SeenGrows(old(trace), Looked(observedCommand, observedStatus), from, requested);
      hide Writes, Timers, SourceSeen;
      if SourceShown(observedStatus, requested) { sourceSeen := true; }
    }

    /** A timer sample counts as a poll and dates it. */
    method Sample(start: nat, ghost from: nat) returns (now: nat)
      requires from < |trace|
      modifies `output, `count, `trace
      ensures now < TICKS && trace == old(trace) + [Ticked(now)]
      ensures count == old(count).(polls := old(count.polls) + 1, elapsed := Elapsed(now, start))
      ensures Writes(trace) == Writes(old(trace)) && Timers(trace) == Timers(old(trace)) + 1
      ensures SourceSeen(trace, from, requested) <==> SourceSeen(old(trace), from, requested)
      ensures output == if rollback then old(output).(rollback := count) else old(output).(request := count)
    {
      now := ReadTimer();
      TraceGrows(old(trace), Ticked(now));
      SeenGrows(old(trace), Ticked(now), from, requested);
      hide Writes, Timers, SourceSeen;
      count := count.(polls := count.polls + 1, elapsed := Elapsed(now, start));
      Publish();
    }

    /** The verdict on one poll. */
    method Judge(command: byte, timeout: nat, start: nat, previous: nat, now: nat) returns (done: bool, r: Result)
      requires now < TICKS && start < TICKS && previous < TICKS && timeout < HALF_TICKS && count.elapsed == Elapsed(now, start)
      modifies `output, `count
      ensures count == old(count).(timebase := count.timebase)
      ensures done ==> r == Verdict(command, timeout, start, previous, now, observedCommand, observedStatus, sourceSeen)
      ensures done <==> Verdict(command, timeout, start, previous, now, observedCommand, observedStatus, sourceSeen) != NotAttempted
      ensures done ==> r == Ok || r == CommandChanged || r == Timeout || r == TimebaseError || r == CounterRange
      ensures done && r == Ok ==> observedCommand == command && observedStatus == Effective(command) && sourceSeen && count.elapsed <= timeout
      ensures Untouched(old(output), output, rollback) && (Shown(output, rollback) == old(Shown(output, rollback)) || Shown(output, rollback) == count.polls)
    {
      if observedCommand != command { return true, CommandChanged; }
      var delta := (now - (start + timeout) % TICKS) % TICKS;
      count := count.(timebase := delta != HALF_TICKS);
      Publish();
      if delta == HALF_TICKS { return true, TimebaseError; }
      var expired := delta < HALF_TICKS;
      if count.elapsed >= HALF_TICKS || Elapsed(now, previous) >= HALF_TICKS { return true, CounterRange; }
      ExpiredIs(start, timeout, now);
      if expired && count.elapsed > timeout { return true, Timeout; }
      if sourceSeen && observedStatus == Effective(command) { return true, Ok; }
      if expired { return true, Timeout; }
      done, r := false, Ok;
    }

    /** One pass of the wait. */
    method Poll(command: byte, timeout: nat, start: nat, previous: nat, ghost from: nat)
        returns (done: bool, r: Result, now: nat)
      requires from < |trace| && start < TICKS && previous < TICKS && timeout < HALF_TICKS
      modifies `observedCommand, `observedStatus, `output, `count, `sourceSeen, `trace
      ensures Extends(old(trace), trace) && |old(trace)| < |trace| && now < TICKS
      ensures Writes(trace) == Writes(old(trace)) && Timers(trace) + old(count.polls) == Timers(old(trace)) + count.polls
      ensures count.polls == old(count.polls) || count.polls == old(count.polls) + 1
      ensures !done ==> count.polls == old(count.polls) + 1
      ensures sourceSeen == (old(sourceSeen) || SourceShown(observedStatus, requested))
      ensures SourceSeen(trace, from, requested) <==> SourceSeen(old(trace), from, requested) || SourceShown(observedStatus, requested)
      ensures done ==> r == Ok || r == CommandChanged || r == Timeout || r == TimebaseError || r == CounterRange
      ensures done && r == Ok ==> SettledLast(trace, |old(trace)|, command) && sourceSeen && count.elapsed <= timeout
      ensures Untouched(old(output), output, rollback)
      ensures Shown(output, rollback) == old(Shown(output, rollback)) || Shown(output, rollback) == count.polls
    {
      hide Writes, Timers, SourceSeen, SourceShown, Effective, Elapsed, SettledLast, Verdict, Settled;
      ghost var t0 := trace;
      Look(from);
      ExtendsOne(t0, Looked(observedCommand, observedStatus));
      now := 0;
      if !count.timebase { return true, TimebaseError, now; }
      ghost var t1 := trace;
      now := Sample(start, from);
      ExtendsOne(t1, Ticked(now));
      ExtendsChain(t0, t1, trace);
      TwoMore(t0, Looked(observedCommand, observedStatus), Ticked(now), command);
      hide Extends;
      done, r := Judge(command, timeout, start, previous, now);
    }

    /** The selection itself, with at most one restoration of the saved command. */
    method SelectInit(source: Source, timeout: nat, limit: nat) returns (r: Result)
      modifies this
      ensures timeout >= HALF_TICKS || limit == 0 <==> r == InvalidArgument
      ensures r == InvalidArgument ==> trace == old(trace) && output == old(output)
      ensures r != InvalidArgument ==>
                && Extends(old(trace), trace) && requested == Wanted(saved, source)
                && output.saved == saved && output.requested == requested
                && output.request.polls <= limit && output.rollback.polls <= limit
                && Timers(trace) <= Timers(old(trace)) + 2 * (limit + 1)
                && Outcome(old(trace), trace, saved, requested, r, output)
      ensures r != InvalidArgument ==>
                && |old(trace)| < |trace| && trace[|old(trace)|].Looked? && trace[|old(trace)|].command == saved
                && (r == UnsupportedState <==> !(Quiet(guards) && Supported(saved, trace[|old(trace)|].status)))
                && requested & 0xb8 == saved & 0xb8 && requested & 0x47 == if source == RC16 then 0x41 else 0
      ensures r != InvalidArgument && r != UnsupportedState ==> Proper(saved)
    {
      if timeout >= HALF_TICKS || limit == 0 { return InvalidArgument; }
      hide *;
      ghost var t0 := trace;
      var unsupported := Survey(source);
      WantedBits(saved, source);
      if unsupported { return UnsupportedState; }
      if saved == requested { return Ok; }
      ghost var t1 := trace;
      r := Switch(timeout, limit, t0);
      LookKept(t0, t1, trace);
    }

    /** Resets the diagnostics, reads the state as it is, and works out the command to ask for. */
    method Survey(source: Source) returns (unsupported: bool)
      modifies this
      ensures requested == Wanted(saved, source) && output.saved == saved && output.requested == requested
      ensures output.request.polls == 0 && output.rollback.polls == 0 && output.rollbackResult == NotAttempted
      ensures count.polls == 0 && Extends(old(trace), trace) && |trace| == |old(trace)| + 1
      ensures Writes(trace) == Writes(old(trace)) && Timers(trace) == Timers(old(trace))
      ensures unsupported ==> Outcome(old(trace), trace, saved, requested, UnsupportedState, output)
      ensures !unsupported && saved == requested ==> Outcome(old(trace), trace, saved, requested, Ok, output)
      ensures !unsupported ==> Proper(saved)
      ensures trace[|old(trace)|].Looked? && trace[|old(trace)|].command == saved
      ensures unsupported <==> !(Quiet(guards) && Supported(saved, trace[|old(trace)|].status))
    {
      hide Writes, Timers, Wanted, Effective, Outcome, Proper, Quiet, Supported;
      count := Wait(0, 0, true);
      output := output.(request := count, rollback := count, rollbackResult := NotAttempted);
      guards := *;
      QuietBits(guards);
      unsupported := guards.ien0 | guards.ien1 | guards.ien2 | ((guards.sleep & 7) ^ 4) != 0;
      Observe();
      SupportedIs(observedCommand, observedStatus);
      TraceGrows(old(trace), Looked(observedCommand, observedStatus));
      ExtendsOne(old(trace), Looked(observedCommand, observedStatus));
      saved := observedCommand;
      requested := Wanted(saved, source);
      output := output.(saved := saved, requested := requested);
      unsupported := unsupported || !Proper(saved) || observedStatus != Effective(saved);
      Rejects(old(trace), trace, saved, requested, output);
      Stays(old(trace), trace, saved, requested, output);
    }

    /** The request and, when it fails, one restoration of the saved command. */
    method Switch(timeout: nat, limit: nat, ghost t0: seq<Io>) returns (r: Result)
      requires 0 < limit && timeout < HALF_TICKS && count.polls == 0 && saved != requested
      requires Extends(t0, trace) && |trace| == |t0| + 1 && Writes(trace) == Writes(t0) && Timers(trace) == Timers(t0)
      requires output.saved == saved && output.requested == requested && output.rollbackResult == NotAttempted
      requires output.rollback.polls == 0
      modifies this
      ensures saved == old(saved) && requested == old(requested) && output.saved == saved && output.requested == requested
      ensures r != UnsupportedState && guards == old(guards) && Extends(old(trace), trace)
      ensures r != InvalidArgument && Extends(t0, trace) && output.request.polls <= limit && output.rollback.polls <= limit
      ensures Timers(trace) <= Timers(t0) + 2 * (limit + 1)
      ensures Outcome(t0, trace, saved, requested, r, output)
    {
      hide Writes, Timers, Extends, SourceSeen, SettledLast, Outcome, WriteAt;
      sourceSeen, rollback := false, false;
      ghost var t1 := trace;
      r := RequestAndWait(requested, timeout, limit);
      ExtendsChain(t0, t1, trace);
      if r == Ok {
        Switches(t0, t1, trace, saved, requested, output);
      } else {
        ghost var t2 := trace;
        Restore(r, timeout, limit, t0, t1);
        ExtendsChain(t1, t2, trace);
      }
    }

    method Restore(failure: Result, timeout: nat, limit: nat, ghost t0: seq<Io>, ghost t1: seq<Io>)
      requires 0 < limit && timeout < HALF_TICKS && failure != Ok && failure != UnsupportedState
      requires Extends(t0, t1) && Extends(t1, trace) && |t1| == |t0| + 1 && |t1| + 2 <= |trace|
      requires trace[|t1|].Ticked? && WriteAt(trace, |t1| + 1, Writes(t1), requested)
      requires Writes(t1) == Writes(t0) && Writes(trace) == Writes(t1) + [requested]
      requires sourceSeen <==> SourceSeen(trace, |t1|, requested)
      requires output.request.polls <= limit && output.saved == saved && output.requested == requested
      modifies `observedCommand, `observedStatus, `output, `count, `sourceSeen, `rollback, `trace
      ensures Extends(old(trace), trace) && Extends(t0, trace) && Timers(trace) <= Timers(old(trace)) + limit + 1
      ensures output.request.polls <= limit && output.rollback.polls <= limit && output.saved == saved && output.requested == requested
      ensures Outcome(t0, trace, saved, requested, failure, output)
    {
      ghost var t2 := trace;
      hide Writes, Timers, Extends, SourceSeen, SettledLast, Outcome, WriteAt;
      rollback := true;
      count := count.(polls := 0, elapsed := 0);
      var back := RequestAndWait(saved, timeout, limit);
      ExtendsChain(t1, t2, trace);
      ExtendsChain(t0, t1, trace);
      if !sourceSeen && (back == Timeout || back == PollLimit) { back := RollbackUnconfirmed; }
      output := output.(rollbackResult := back);
      RollsBack(t0, t1, t2, trace, saved, requested, failure, output);
    }
  }

  /** Only the wait in progress and the last readings of the diagnostics move. */
  predicate Untouched(before: Diagnostics, after: Diagnostics, rollback: bool) {
    && after.saved == before.saved && after.requested == before.requested && after.rollbackResult == before.rollbackResult
    && if rollback then after.request == before.request else after.rollback == before.rollback
  }

  /** The poll count shown for the wait in progress. */
  function Shown(d: Diagnostics, rollback: bool): nat {
    if rollback then d.rollback.polls else d.request.polls
  }

  lemma TwoMore(trace: seq<Io>, look: Io, tick: Io, command: byte)
    requires tick.Ticked?
    ensures look == Looked(command, Effective(command)) ==> SettledLast(trace + [look] + [tick], |trace|, command)
  {
    assert (trace + [look] + [tick])[|trace|] == look;
  }

  /** A wait opens with a timer sample and then its write. */
  lemma SecondIs(before: seq<Io>, after: seq<Io>, tick: Io, command: byte)
    requires tick.Ticked? && after == before + [tick] + [Wrote(command)]
    ensures |after| == |before| + 2 && after[|before|] == tick && WriteAt(after, |before| + 1, Writes(before), command)
    ensures Extends(after, after)
  {
    TraceGrows(before, tick);
    assert after[..|before| + 1] == before + [tick];
  }

  lemma WriteKept(before: seq<Io>, after: seq<Io>, at: nat, prior: seq<byte>, command: byte)
    requires Extends(before, after) && WriteAt(before, at, prior, command)
    ensures at < |before| <= |after| && WriteAt(after, at, prior, command) && after[at].Wrote?
    ensures at > 0 ==> after[at - 1] == before[at - 1]
  {
    assert after[..at] == before[..at];
  }

  lemma LastKept(trace: seq<Io>, from: nat, earlier: nat, command: byte)
    requires earlier <= from
    ensures SettledLast(trace, from, command) ==> SettledLast(trace, earlier, command)
  {
  }

  /** Within half a range of the start, the deadline has passed exactly when the time limit is used up. */
  lemma ExpiredIs(start: nat, timeout: nat, now: nat)
    requires start < TICKS && now < TICKS && timeout < HALF_TICKS && Elapsed(now, start) < HALF_TICKS
    ensures (now - (start + timeout) % TICKS) % TICKS < HALF_TICKS <==> Elapsed(now, start) >= timeout
  {
  }

  lemma SeenGrows(trace: seq<Io>, io: Io, from: nat, requested: byte)
    requires from <= |trace|
    ensures SourceSeen(trace + [io], from, requested)
       <==> SourceSeen(trace, from, requested) || (io.Looked? && SourceShown(io.status, requested))
  {
    var t := trace + [io];
    hide SourceShown;
    if io.Looked? && SourceShown(io.status, requested) {
      assert t[|trace|] == io;
    }
    if SourceSeen(trace, from, requested) {
      var k :| from <= k < |trace| && trace[k].Looked? && SourceShown(trace[k].status, requested);
      assert t[k] == trace[k];
    }
  }

  /**
   What a selection did to the clock. Rejected or already right: no write. Switched: one write, then the requested
   source seen and the wanted setting settled. Failed: the wanted command and then the saved one, once; and a confirmed
   rollback saw the requested source after the first write and, no earlier, the complete saved setting after the second.
   */
  ghost predicate Outcome(before: seq<Io>, after: seq<Io>, saved: byte, requested: byte, r: Result, d: Diagnostics) {
    var prior := Writes(before);
    if r == UnsupportedState then Writes(after) == prior && d.rollbackResult == NotAttempted
    else if Writes(after) == prior then
      r == Ok && saved == requested && d.rollbackResult == NotAttempted && SettledAt(after, |before|, requested)
    else if r == Ok then
      Writes(after) == prior + [requested] && d.rollbackResult == NotAttempted && saved != requested
      && exists v, j, i :: Switched(after, prior, v, j, i, requested)
    else
      && Writes(after) == prior + [requested, saved] && d.rollbackResult != NotAttempted
      && (d.rollbackResult == Ok ==> exists v, w, j, i :: Restored(after, prior, v, w, j, i, saved, requested))
      && (d.rollbackResult == RollbackUnconfirmed ==> !SourceSeen(after, |before| + 1, requested))
      && (d.rollbackResult == Timeout || d.rollbackResult == PollLimit ==> SourceSeen(after, |before| + 1, requested))
  }

  /** The only write is at `v`; later the requested source is seen, and with it or after it the requested setting. */
  predicate Switched(after: seq<Io>, prior: seq<byte>, v: nat, j: nat, i: nat, requested: byte) {
    WriteAt(after, v, prior, requested) && SeenThenSettled(after, v, v, j, i, requested, requested)
  }

  /** The request is written at `v` and the saved command at `w`; the requested source is seen after `v`, the saved setting after `w`. */
  predicate Restored(after: seq<Io>, prior: seq<byte>, v: nat, w: nat, j: nat, i: nat, saved: byte, requested: byte) {
    && WriteAt(after, v, prior, requested) && WriteAt(after, w, prior + [requested], saved)
    && SeenThenSettled(after, v, w, j, i, saved, requested)
  }

  /** A confirmed rollback saw the requested source strictly before the saved setting it ended with. */
  lemma SeenBeforeRestored(after: seq<Io>, prior: seq<byte>, v: nat, w: nat, j: nat, i: nat, saved: byte, source: Source)
    requires Proper(saved) && saved != Wanted(saved, source) && Restored(after, prior, v, w, j, i, saved, Wanted(saved, source))
    ensures v < j < i && w < i
  {
    hide Writes;
    DistinctSources(saved, source);
    hide Wanted, Effective, SourceShown;
  }

  /** Proper commands that differ ask for different sources, and a settled status shows its own. */
  lemma DistinctSources(saved: byte, source: Source)
    requires Proper(saved) && saved != Wanted(saved, source)
    ensures !SourceShown(Effective(saved), Wanted(saved, source))
  {
  }

  lemma Rejects(before: seq<Io>, after: seq<Io>, saved: byte, requested: byte, d: Diagnostics)
    requires Writes(after) == Writes(before) && d.rollbackResult == NotAttempted
    ensures Outcome(before, after, saved, requested, UnsupportedState, d)
  {
  }

  lemma Stays(before: seq<Io>, after: seq<Io>, saved: byte, requested: byte, d: Diagnostics)
    requires Writes(after) == Writes(before) && d.rollbackResult == NotAttempted
    ensures saved == requested && |after| == |before| + 1 && after[|before|] == Looked(saved, Effective(saved)) ==>
              Outcome(before, after, saved, requested, Ok, d)
  {
  }

  /** A sighting among the reads of a wait precedes its last read. */
  lemma SeenBeforeLast(after: seq<Io>, first: nat, second: nat, from: nat, command: byte, requested: byte) returns (j: nat)
    requires first <= second && from <= first && SettledLast(after, second + 1, command)
    requires SourceSeen(after, from, requested) && forall k :: from <= k <= first ==> !after[k].Looked?
    ensures SeenThenSettled(after, first, second, j, |after| - 2, command, requested)
  {
    j :| from <= j < |after| && after[j].Looked? && SourceShown(after[j].status, requested);
  }

  lemma Switches(before: seq<Io>, middle: seq<Io>, after: seq<Io>, saved: byte, requested: byte, d: Diagnostics)
    requires |middle| == |before| + 1 && Writes(middle) == Writes(before) && Writes(after) == Writes(middle) + [requested]
    requires |middle| + 2 <= |after| && after[|middle|].Ticked? && WriteAt(after, |middle| + 1, Writes(middle), requested)
    requires SettledLast(after, |middle| + 2, requested) && SourceSeen(after, |middle|, requested)
    requires d.rollbackResult == NotAttempted && saved != requested
    ensures Outcome(before, after, saved, requested, Ok, d)
  {
    hide Writes, SettledLast, SettledAt, SourceSeen, SourceShown, Effective, SeenThenSettled;
    var v := |middle| + 1;
    assert after[v].Wrote?;
    var j := SeenBeforeLast(after, v, v, |middle|, requested, requested);
    hide WriteAt;
    assert Switched(after, Writes(before), v, j, |after| - 2, requested);
  }

  lemma RollsBack(before: seq<Io>, first: seq<Io>, second: seq<Io>, after: seq<Io>, saved: byte, requested: byte, r: Result,
                  d: Diagnostics)
    requires |first| == |before| + 1 && |first| + 2 <= |second| && |second| + 2 <= |after| && Extends(second, after)
    requires Writes(first) == Writes(before) && Writes(second) == Writes(first) + [requested] && Writes(after) == Writes(second) + [saved]
    requires second[|first|].Ticked? && WriteAt(second, |first| + 1, Writes(first), requested)
    requires WriteAt(after, |second| + 1, Writes(second), saved)
    requires r != Ok && r != UnsupportedState && d.rollbackResult != NotAttempted
    requires d.rollbackResult == Ok ==> SettledLast(after, |second| + 2, saved)
    requires var seen := SourceSeen(second, |first|, requested) || SourceSeen(after, |second|, requested);
             && (d.rollbackResult == Ok ==> seen) && (d.rollbackResult == RollbackUnconfirmed ==> !seen)
             && (d.rollbackResult == Timeout || d.rollbackResult == PollLimit ==> seen)
    ensures Outcome(before, after, saved, requested, r, d)
  {
    var prior := Writes(first);
    SeenSplit(second, after, |first|, requested);
    if d.rollbackResult == Ok {
      ConfirmedBack(first, second, after, saved, requested);
    }
    hide Writes, SettledLast, SettledAt, SourceSeen, WriteAt, Restored;
  }

  lemma ConfirmedBack(first: seq<Io>, second: seq<Io>, after: seq<Io>, saved: byte, requested: byte)
    requires |first| + 2 <= |second| && |second| + 2 <= |after| && Extends(second, after)
    requires Writes(second) == Writes(first) + [requested]
    requires second[|first|].Ticked? && WriteAt(second, |first| + 1, Writes(first), requested)
    requires WriteAt(after, |second| + 1, Writes(second), saved)
    requires SettledLast(after, |second| + 2, saved) && SourceSeen(after, |first|, requested)
    ensures exists v, w, j, i :: Restored(after, Writes(first), v, w, j, i, saved, requested)
  {
    hide Writes, SettledLast, SourceSeen, SourceShown, Effective, SeenThenSettled, WriteAt, Extends;
    WriteKept(second, after, |first| + 1, Writes(first), requested);
    var v, w := |first| + 1, |second| + 1;
    var j := SeenBeforeLast(after, v, w, |first|, saved, requested);
    assert Restored(after, Writes(first), v, w, j, |after| - 2, saved, requested);
  }

  lemma FreshTrace(before: seq<Io>, after: seq<Io>, a: Io, b: Io, requested: byte)
    requires after == before + [a] + [b] && !a.Looked? && !b.Looked?
    ensures !SourceSeen(after, |before|, requested)
  {
  }

  lemma SeenSplit(second: seq<Io>, after: seq<Io>, from: nat, requested: byte)
    requires second <= after && from <= |second|
    ensures SourceSeen(after, from, requested) <==> SourceSeen(second, from, requested) || SourceSeen(after, |second|, requested)
  {
    hide SourceShown;
    if SourceSeen(after, from, requested) {
      var k :| from <= k < |after| && after[k].Looked? && SourceShown(after[k].status, requested);
      if k < |second| {
        assert second[k] == after[k];
      }
    }
    if SourceSeen(second, from, requested) {
      var k :| from <= k < |second| && second[k].Looked? && SourceShown(second[k].status, requested);
      assert after[k] == second[k];
    }
  }
}
