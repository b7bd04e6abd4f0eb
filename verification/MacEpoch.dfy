/**
 Extends the MAC Timer's wrapped (period, fine) tuple to symbol time modulo 2^32. A period is one
 symbol of 512 fine increments and the period counter wraps at FFFFFF, not at a power of two.
 */
module MacEpoch {
  import opened Words

  const FINE := 512
  const PERIODS := 0xff_ffff
  const CYCLE := 0x1_ffff_fe00
  const HALF_CYCLE := 0xffff_ff00

  /** A sample of the hardware tuple; the codec of the timer does not bound it. */
  datatype Raw = Raw(periods: nat, fine: nat)

  datatype Stamp = Stamp(symbols: word, fine: nat)

  datatype Condition = Blank | Ready | Faulted

  datatype Outcome = Okay | InvalidArgument | InvalidState | TimeError

  datatype Coordinates = Coordinates(periods: nat, symbols: word, fine: nat, condition: Condition)

  predicate InRange(periods: nat, fine: nat) {
    periods < PERIODS && fine < FINE
  }

  /** Fine increments from the accepted coordinates forward to the sample, on the circle of one whole cycle. */
  function Progress(c: Coordinates, raw: Raw): (p: nat)
    requires InRange(c.periods, c.fine) && InRange(raw.periods, raw.fine)
    ensures p < CYCLE
  {
    var from, ahead := c.periods * FINE + c.fine, raw.periods * FINE + raw.fine;
    if ahead >= from then ahead - from else ahead - from + CYCLE
  }

  function StepResult(c: Coordinates, raw: Raw): Outcome {
    if c.condition.Faulted? then TimeError
    else if !InRange(raw.periods, raw.fine) then InvalidArgument
    else if !c.condition.Ready? || !InRange(c.periods, c.fine) then InvalidState
    else if Progress(c, raw) >= HALF_CYCLE then TimeError
    else Okay
  }

  /** The coordinates after a step: forward by exactly the progress, or latched where they were. */
  function After(c: Coordinates, raw: Raw): Coordinates {
    match StepResult(c, raw)
    case Okay => Coordinates(raw.periods, Plus(c.symbols, (c.fine + Progress(c, raw)) / FINE), raw.fine, Ready)
    case TimeError => c.(condition := Faulted)
    case _ => c
  }

  class Epoch {
    var periods: nat
    var symbols: word
    var fine: nat
    var condition: Condition

    constructor ()
      ensures Snapshot() == Coordinates(0, 0, 0, Blank)
    {
      periods, symbols, fine, condition := 0, 0, 0, Blank;
    }

    function Snapshot(): Coordinates
      reads this
    {
      Coordinates(periods, symbols, fine, condition)
    }

    /** Binds the sample's containing period to a symbol count; a rejected sample changes nothing. */
    method Start(raw: Raw, at: word) returns (result: Outcome)
      modifies this
      ensures result == if InRange(raw.periods, raw.fine) then Okay else InvalidArgument
      ensures Snapshot() == if result == Okay then Coordinates(raw.periods, at, raw.fine, Ready) else old(Snapshot())
    {
      if raw.fine >= FINE || raw.periods >= PERIODS { return InvalidArgument; }
      periods, symbols, fine, condition := raw.periods, at, raw.fine, Ready;
      result := Okay;
    }

    /** The borrow-and-compare arithmetic of the counters is exactly progress along the cycle. */
    method Step(raw: Raw) returns (result: Outcome, output: Stamp)
      modifies this
      ensures result == StepResult(old(Snapshot()), raw)
      ensures Snapshot() == After(old(Snapshot()), raw)
      ensures result == Okay ==> output == Stamp(symbols, raw.fine)
    {
      output := Stamp(0, 0);
      if condition.Faulted? { return TimeError, output; }
      if raw.fine >= FINE || raw.periods >= PERIODS { return InvalidArgument, output; }
      if !condition.Ready? || fine >= FINE || periods >= PERIODS { return InvalidState, output; }
      var elapsed := if raw.periods >= periods then raw.periods - periods else PERIODS - periods + raw.periods;
      var whole := elapsed;
      var fraction: nat;
      if raw.fine < fine {
        if whole == 0 {
          condition := Faulted;
          return TimeError, output;
        }
        whole := whole - 1;
        fraction := FINE - fine + raw.fine;
      } else {
        fraction := raw.fine - fine;
      }
      assert Progress(Snapshot(), raw) == whole * FINE + fraction;
      if whole > 0x7fffff || (whole == 0x7fffff && fraction >= 256) {
        condition := Faulted;
        return TimeError, output;
      }
      assert (fine + Progress(Snapshot(), raw)) / FINE == elapsed;
      symbols := Plus(symbols, elapsed);
      periods := raw.periods;
      fine := raw.fine;
      result, output := Okay, Stamp(symbols, fine);
    }
  }

  // ---------- against an unbounded clock ----------

  /** What the hardware shows after `ticks` true fine increments. */
  function Shown(ticks: nat): (raw: Raw)
    ensures InRange(raw.periods, raw.fine)
  {
    Raw((ticks / FINE) % PERIODS, ticks % FINE)
  }

  /** The true symbol count of an instant, when symbol 0 of the epoch is `origin` periods before the clock's own zero. */
  function SymbolsAt(ticks: nat, origin: nat): word {
    Wrap(origin + ticks / FINE)
  }

  /** The context has accepted the instant `ticks` of an uninterrupted clock. */
  predicate Tracks(c: Coordinates, ticks: nat, origin: nat) {
    c.condition.Ready? && Raw(c.periods, c.fine) == Shown(ticks) && c.symbols == SymbolsAt(ticks, origin)
  }

  lemma CycleOf(ticks: nat)
    ensures Shown(ticks).periods * FINE + Shown(ticks).fine == ticks % CYCLE
  {
    var whole := ticks / FINE;
    var turns := whole / PERIODS;
    assert whole == turns * PERIODS + whole % PERIODS;
    assert ticks == whole * FINE + ticks % FINE;
    assert ticks == turns * CYCLE + ((whole % PERIODS) * FINE + ticks % FINE);
  }

  /** Between two instants of the same clock, progress is the true distance modulo one cycle. */
  lemma ProgressIsDistance(c: Coordinates, t: nat, u: nat)
    requires Raw(c.periods, c.fine) == Shown(t) && t <= u
    ensures Progress(c, Shown(u)) == (u - t) % CYCLE
  {
    CycleOf(t);
    CycleOf(u);
    var a, b := t / CYCLE, u / CYCLE;
    assert t == a * CYCLE + t % CYCLE && u == b * CYCLE + u % CYCLE;
    if u % CYCLE >= t % CYCLE {
      QuotientUnique(u - t, b - a, u % CYCLE - t % CYCLE);
    } else {
      QuotientUnique(u - t, b - a - 1, u % CYCLE - t % CYCLE + CYCLE);
    }
  }

  lemma QuotientUnique(n: nat, q: int, r: nat)
    requires n == q * CYCLE + r && r < CYCLE
    ensures n % CYCLE == r
  {
  }

  /** One step over any true gap: it faults exactly when the gap, modulo a cycle, is half a cycle or more. */
  lemma StepOverGap(c: Coordinates, t: nat, u: nat, origin: nat)
    requires Tracks(c, t, origin) && t <= u
    ensures StepResult(c, Shown(u)) == TimeError <==> (u - t) % CYCLE >= HALF_CYCLE
    ensures StepResult(c, Shown(u)) != TimeError ==> StepResult(c, Shown(u)) == Okay
    ensures u - t < HALF_CYCLE ==> Tracks(After(c, Shown(u)), u, origin)
  {
    ProgressIsDistance(c, t, u);
    if u - t < HALF_CYCLE {
      assert (u - t) % CYCLE == u - t;
      var elapsed := u / FINE - t / FINE;
      assert (t % FINE + (u - t)) / FINE == elapsed;
      WrapPlus(origin + t / FINE, elapsed);
    }
  }

  /** Successive samples of one clock, each less than half a cycle after the one before. */
  predicate Continuous(t: nat, samples: seq<nat>)
    decreases |samples|
  {
    samples == [] || (t <= samples[0] < t + HALF_CYCLE && Continuous(samples[0], samples[1..]))
  }

  function Run(c: Coordinates, samples: seq<Raw>): Coordinates
    decreases |samples|
  {
    if samples == [] then c else Run(After(c, samples[0]), samples[1..])
  }

  function ShownAll(samples: seq<nat>): (s: seq<Raw>)
    ensures |s| == |samples|
  {
    if samples == [] then [] else [Shown(samples[0])] + ShownAll(samples[1..])
  }

  /** However long the run and however often the counters wrap, the epoch shows true elapsed symbols and exact fine phase. */
  lemma {:induction false} ContinuousRunTracks(c: Coordinates, t: nat, origin: nat, samples: seq<nat>)
    requires Tracks(c, t, origin) && Continuous(t, samples)
    ensures Tracks(Run(c, ShownAll(samples)), if samples == [] then t else samples[|samples| - 1], origin)
    decreases |samples|
  {
    if samples != [] {
      StepOverGap(c, t, samples[0], origin);
      assert ShownAll(samples)[1..] == ShownAll(samples[1..]);
      ContinuousRunTracks(After(c, Shown(samples[0])), samples[0], origin, samples[1..]);
    }
  }

  /** Any start begins tracking: some origin makes the sample's containing period the bound symbol. */
  lemma StartTracks(t: nat, at: word) returns (origin: nat)
    ensures Tracks(Coordinates(Shown(t).periods, at, Shown(t).fine, Ready), t, origin)
  {
    var now := Wrap(t / FINE);
    origin := Minus(at, now);
    WrapPlus(t / FINE, origin);
    assert (now + origin) % MODULUS == at;
  }

  /** A fault is kept, with the last accepted coordinates, over every later run. */
  lemma {:induction false} FaultKept(c: Coordinates, samples: seq<Raw>)
    requires c.condition.Faulted?
    ensures Run(c, samples) == c
    ensures forall raw: Raw :: StepResult(c, raw) == TimeError
    decreases |samples|
  {
    if samples != [] {
      FaultKept(After(c, samples[0]), samples[1..]);
    }
  }
}
