/**
 What one processed step of the association attempt controller may do to its control fields, whatever the
 transmitter, the POLL component and the events do; and what follows for whole attempts.
 */
module JoinSpec {
  import opened Words

  const IDLE := 0
  const PREPARE := 1
  const REQUEST := 2
  const WAIT := 3
  const EXTRACT := 4
  const RESTORE := 5
  const DONE := 6
  const FAULT := 7

  const STOP_TIME := 8192
  const STOP_WORK := 128
  const MAX_WORK := 4096
  const TOKENS := 0x1_0000

  const ACTION_NONE := 0
  const ACTION_PREPARE := 1
  const ACTION_TX := 2
  const ACTION_RECEIVE := 3
  const ACTION_CLOSE := 4
  const ACTION_RESTORE := 5
  const ACTION_RADIO := 6
  const ACTION_ARM := 7
  const ACTION_DISARM := 8

  const LOCAL_ABORT := 3

  /** The causes of an attempt's outcome; 0 is "none yet". */
  datatype Causes = Causes(result: nat, stage: nat, reason: nat, errorStage: nat, cleanupError: nat)

  /** The control fields of an attempt; nested contexts and the radio payload are elsewhere. */
  datatype Control = Control(phase: nat, steps: nat, stopping: bool, stopSteps: nat, stopAt: word, token: nat, issued: nat,
                             issuedToken: nat, generation: word, epoch: word, deadline: word, last: word, taken: bool,
                             restored: bool, uncertain: bool, causes: Causes)

  // ---------- the controller's own moves ----------

  /** Retain the first reason and result, and start stopping. */
  function Aborted(s: Control, reason: nat, time: word): Control {
    var c := s.causes;
    var d := if c.reason == 0 then c.(reason := reason, errorStage := s.phase) else c;
    var e := if c.result == 0 then d.(result := LOCAL_ABORT, stage := s.phase) else d;
    Stopped(s.(causes := e), time)
  }

  function Stopped(s: Control, time: word): Control {
    if s.stopping then s else s.(stopping := true, stopAt := Plus(time, STOP_TIME), stopSteps := STOP_WORK)
  }

  function Faulted(s: Control, reason: nat, time: word): Control {
    var c := if (s.stopping || s.phase == RESTORE) && s.causes.cleanupError == 0 then s.causes.(cleanupError := reason)
             else s.causes;
    Aborted(s.(causes := c), reason, time).(uncertain := true, phase := FAULT)
  }

  function Issued(s: Control, kind: nat): Control {
    var token := (s.token + 1) % TOKENS;
    s.(token := token, issued := kind, issuedToken := token)
  }

  /** The fields no abort touches. */
  predicate Alike(s: Control, t: Control) {
    && t.steps == s.steps && t.token == s.token && t.issued == s.issued && t.issuedToken == s.issuedToken
    && t.generation == s.generation && t.epoch == s.epoch && t.deadline == s.deadline && t.last == s.last && t.taken == s.taken
    && t.restored == s.restored
  }

  /** Stopping begins with 8192 symbols and 128 steps to clean up in, and is never begun twice. */
  predicate Stops(s: Control, t: Control, time: word) {
    && t.stopping && t.stopAt == (if s.stopping then s.stopAt else (time + 8192) % 0x1_0000_0000)
    && t.stopSteps == (if s.stopping then s.stopSteps else 128)
  }

  /** The first reason is kept with the phase it arose in, and so is the first result; an abort's own result is 3. */
  predicate Blames(c: Causes, d: Causes, reason: nat, phase: nat) {
    && d.reason == (if c.reason == 0 then reason else c.reason) && d.errorStage == (if c.reason == 0 then phase else c.errorStage)
    && d.result == (if c.result == 0 then 3 else c.result) && d.stage == (if c.result == 0 then phase else c.stage)
  }

  lemma AbortIs(s: Control, reason: nat, time: word)
    ensures var t := Aborted(s, reason, time);
            && Alike(s, t) && Stops(s, t, time) && Blames(s.causes, t.causes, reason, s.phase)
            && t.phase == s.phase && t.uncertain == s.uncertain && t.causes.cleanupError == s.causes.cleanupError
  {
  }

  /** A fault besides leaves the radio uncertain, and once cleanup had begun it is the cleanup's own error, if the first. */
  lemma FaultIs(s: Control, reason: nat, time: word)
    ensures var t := Faulted(s, reason, time);
            && Alike(s, t) && Stops(s, t, time) && Blames(s.causes, t.causes, reason, s.phase) && t.phase == 7 && t.uncertain
            && t.causes.cleanupError == if (s.stopping || s.phase == 5) && s.causes.cleanupError == 0 then reason else s.causes.cleanupError
  {
  }

  /** Each right has the next 16-bit token. */
  lemma IssueIs(s: Control, kind: nat)
    ensures var t := Issued(s, kind);
            && t.issued == kind && t.issuedToken == t.token == (s.token + 1) % 0x1_0000
            && t.phase == s.phase && t.causes == s.causes && t.stopping == s.stopping && t.steps == s.steps
  {
  }

  // ---------- what any sequence of moves within a step keeps ----------

  /** Causes once set are never overwritten. */
  predicate Retained(c: Causes, d: Causes) {
    && (c.result != 0 ==> d.result == c.result && d.stage == c.stage)
    && (c.reason != 0 ==> d.reason == c.reason && d.errorStage == c.errorStage)
    && (c.cleanupError != 0 ==> d.cleanupError == c.cleanupError)
  }

  /** The one-shot right in force: kept, spent, or replaced by one with the next token. */
  predicate TokenMoves(s: Control, t: Control) {
    || (t.token == s.token && t.issuedToken == s.issuedToken && (t.issued == s.issued || t.issued == ACTION_NONE))
    || (t.token == (s.token + 1) % TOKENS && t.issuedToken == t.token)
  }

  /** Stopping begins once, with its two bounds fixed from the instant it begins. */
  predicate StopMoves(s: Control, t: Control, time: word) {
    && (s.stopping ==> t.stopping && t.stopAt == s.stopAt && t.stopSteps == s.stopSteps)
    && (!s.stopping && t.stopping ==> t.stopAt == Plus(time, STOP_TIME) && t.stopSteps == STOP_WORK)
  }

  predicate Moved(s: Control, t: Control, time: word) {
    && s.phase <= t.phase <= FAULT && t.steps == s.steps
    && t.generation == s.generation && t.epoch == s.epoch && t.deadline == s.deadline && t.last == s.last && t.taken == s.taken
    && Retained(s.causes, t.causes) && TokenMoves(s, t) && StopMoves(s, t, time)
    && (t.issued == ACTION_RESTORE ==> t.phase >= RESTORE || s.issued == ACTION_RESTORE)
    && (t.phase == FAULT && s.phase != FAULT ==> t.uncertain && t.causes.reason != 0 && t.causes.result != 0 && t.stopping)
    && (t.phase == DONE && s.phase != DONE ==> t.restored && !t.uncertain && t.stopping)
    && (t.phase < DONE ==> t.uncertain == s.uncertain && t.restored == s.restored)
    && (s.phase == FAULT && s.uncertain ==> t.uncertain)
  }

  lemma MovedReflexive(s: Control, time: word)
    requires s.phase <= FAULT
    ensures Moved(s, s, time)
  {
  }

  /** Moves compose as long as at most one of them issues a token. */
  lemma MovedTransitive(s: Control, t: Control, u: Control, time: word)
    requires Moved(s, t, time) && Moved(t, u, time) && t.phase != DONE
    requires TokenKept(s, t) || TokenKept(t, u)
    ensures Moved(s, u, time)
    ensures TokenKept(s, t) && TokenKept(t, u) ==> TokenKept(s, u)
  {
  }

  predicate TokenKept(s: Control, t: Control) {
    t.token == s.token && t.issuedToken == s.issuedToken && (t.issued == s.issued || t.issued == ACTION_NONE)
  }

  lemma AbortMoves(s: Control, reason: nat, time: word)
    requires s.phase <= FAULT && reason != 0
    ensures Moved(s, Aborted(s, reason, time), time) && TokenKept(s, Aborted(s, reason, time))
    ensures Aborted(s, reason, time).phase == s.phase && Aborted(s, reason, time).stopping
  {
  }

  lemma FaultMoves(s: Control, reason: nat, time: word)
    requires s.phase <= FAULT && s.phase != DONE && reason != 0
    ensures Moved(s, Faulted(s, reason, time), time) && TokenKept(s, Faulted(s, reason, time))
  {
  }

  lemma IssueMoves(s: Control, kind: nat, time: word)
    requires s.phase < DONE && kind != ACTION_NONE && (kind == ACTION_RESTORE ==> s.phase == RESTORE)
    ensures Moved(s, Issued(s, kind), time)
  {
  }

  // ---------- one processed step ----------

  /** Processed steps an attempt still has: its own work, then the cleanup work, then the step that ends it. */
  function Rank(s: Control): nat {
    if s.phase >= DONE then 0
    else if s.stopping then s.stopSteps + 1
    else s.steps + 1 + STOP_WORK + 1
  }

  /** The event of a step as the controller classified it. */
  datatype Seen = Seen(now: word, kind: nat, token: nat, stamp: word)

  predicate Matches(s: Control, token: nat) {
    s.issued != ACTION_NONE && token == s.issuedToken
  }

  /** What a processed step may do; `idle` says that transmitter and POLL are idle, `readyAt` when the transmitter may be used again. */
  predicate Stepped(s: Control, t: Control, seen: Seen, idle: bool, readyAt: word) {
    if s.phase >= DONE then t == s
    else
      && s.phase <= t.phase <= FAULT && Rank(t) < Rank(s)
      && t.generation == s.generation && t.epoch == s.epoch && t.deadline == s.deadline && t.taken == s.taken
      && Retained(s.causes, t.causes) && TokenMoves(s, t)
      && (s.stopping ==> t.stopping && t.stopAt == s.stopAt)
      && (!Reached(seen.now, s.last) ==> t.phase == FAULT)
      && (s.stopping && (s.stopSteps == 0 || Reached(seen.now, s.stopAt)) ==> t.phase == FAULT)
      && (s.steps == 0 || Reached(seen.now, s.deadline) ==> t.stopping)
      && (t.phase != FAULT ==> t.last == seen.now)
      && (t.issued == ACTION_RESTORE ==> t.phase >= RESTORE || s.issued == ACTION_RESTORE)
      && (t.phase == FAULT ==> t.uncertain && t.causes.reason != 0 && t.causes.result != 0)
      && (t.phase == DONE ==> t.restored && !t.uncertain && s.phase == RESTORE && s.issued == ACTION_RESTORE
                              && seen.kind == RESTORED && Matches(s, seen.token) && idle && Reached(seen.stamp, readyAt))
  }

  const RESTORED := 5
  const CANCEL := 6
  const FAILURE := 7

  const CANCELLED := 1
  const LIFETIME := 2
  const WORK_LIMIT := 3
  const ADAPTER_ERROR := 5
  const CLEANUP_FAILED := 9

  /** What every step spends first: cleanup work while stopping, otherwise the attempt's own, or nothing left and the attempt stops. */
  function Budgeted(s: Control, kind: nat, now: word): Control {
    if s.stopping then CleanupBudget(s.(last := now), kind, now) else WorkBudget(s.(last := now), kind, now)
  }

  function CleanupBudget(s: Control, kind: nat, now: word): Control {
    var a := if kind == CANCEL then Aborted(s, CANCELLED, now) else if kind == FAILURE then Aborted(s, ADAPTER_ERROR, now) else s;
    if s.stopSteps == 0 || Reached(now, s.stopAt) then Faulted(a, CLEANUP_FAILED, now) else a.(stopSteps := s.stopSteps - 1)
  }

  function WorkBudget(s: Control, kind: nat, now: word): Control {
    if kind == CANCEL then Aborted(s, CANCELLED, now)
    else if kind == FAILURE then Aborted(s, ADAPTER_ERROR, now)
    else if s.steps == 0 then Aborted(s, WORK_LIMIT, now)
    else if Reached(now, s.deadline) then Aborted(s, LIFETIME, now)
    else s.(steps := s.steps - 1)
  }

  /**
   What a step spends. Before stopping: a cancellation or a failed adapter aborts, then no work left, then the deadline; any
   other step costs one unit of work. While stopping: likewise blamed, and a fault at the end of its time or work.
   */
  lemma BudgetIs(s: Control, kind: nat, now: word)
    ensures var b := Budgeted(s, kind, now); var a := s.(last := now);
            if !s.stopping then
              if kind == 6 then b == Aborted(a, 1, now)
              else if kind == 7 then b == Aborted(a, 5, now)
              else if s.steps == 0 then b == Aborted(a, 3, now)
              else if Reached(now, s.deadline) then b == Aborted(a, 2, now)
              else b == a.(steps := s.steps - 1)
            else
              var blamed := if kind == 6 then Aborted(a, 1, now) else if kind == 7 then Aborted(a, 5, now) else a;
              if s.stopSteps == 0 || Reached(now, s.stopAt) then b == Faulted(blamed, 9, now)
              else b == blamed.(stopSteps := s.stopSteps - 1)
  {
    hide Aborted, Faulted;
  }

  /** What the budget alone may change. */
  predicate Charged(s: Control, b: Control) {
    && b == s.(phase := b.phase, steps := b.steps, stopping := b.stopping, stopSteps := b.stopSteps, stopAt := b.stopAt,
               uncertain := b.uncertain, causes := b.causes)
    && Rank(b) < Rank(s) && (b.phase == s.phase || b.phase == FAULT) && Retained(s.causes, b.causes)
    && (s.stopping ==> b.stopping && b.stopAt == s.stopAt)
    && (b.phase == FAULT ==> b.uncertain && b.causes.reason != 0 && b.causes.result != 0)
  }

  lemma CleanupCharges(s: Control, kind: nat, now: word)
    requires s.phase < DONE && s.stopping
    ensures var b := CleanupBudget(s, kind, now);
            Charged(s, b) && (s.stopSteps == 0 || Reached(now, s.stopAt) ==> b.phase == FAULT)
  {
    if kind == CANCEL {
      AbortMoves(s, CANCELLED, now);
    } else if kind == FAILURE {
      AbortMoves(s, ADAPTER_ERROR, now);
    } else {
    }
  }

  lemma WorkCharges(s: Control, kind: nat, now: word)
    requires s.phase < DONE && !s.stopping
    ensures var b := WorkBudget(s, kind, now);
            Charged(s, b) && b.phase < DONE && (s.steps == 0 || Reached(now, s.deadline) ==> b.stopping)
  {
    if kind == CANCEL {
    } else if kind == FAILURE {
    } else if s.steps == 0 {
    } else {
    }
  }

  lemma BudgetSpends(s: Control, kind: nat, now: word)
    requires s.phase < DONE
    ensures var b := Budgeted(s, kind, now);
            && Charged(s.(last := now), b) && b.last == now
            && (s.stopping && (s.stopSteps == 0 || Reached(now, s.stopAt)) ==> b.phase == FAULT)
            && (s.steps == 0 || Reached(now, s.deadline) ==> b.stopping)
  {
    if s.stopping {
      CleanupCharges(s.(last := now), kind, now);
    } else {
      WorkCharges(s.(last := now), kind, now);
    }
    hide CleanupBudget, WorkBudget;
  }

  /** The budget and then any moves of the blocks are one processed step. */
  lemma StepFrom(s: Control, t: Control, seen: Seen, idle: bool, readyAt: word)
    requires s.phase < DONE && Reached(seen.now, s.last)
    requires var b := Budgeted(s, seen.kind, seen.now); b.phase < DONE && Moved(b, t, seen.now)
    requires t.phase == DONE ==> s.phase == RESTORE && s.issued == ACTION_RESTORE && seen.kind == RESTORED
                                 && Matches(s, seen.token) && idle && Reached(seen.stamp, readyAt)
    ensures Stepped(s, t, seen, idle, readyAt)
  {
    BudgetSpends(s, seen.kind, seen.now);
    hide Budgeted;
  }

  /** A fault by the budget is a processed step. */
  lemma StepExhausts(s: Control, seen: Seen, idle: bool, readyAt: word)
    requires s.phase < DONE && Reached(seen.now, s.last) && Budgeted(s, seen.kind, seen.now).phase == FAULT
    ensures Stepped(s, Budgeted(s, seen.kind, seen.now), seen, idle, readyAt)
  {
    BudgetSpends(s, seen.kind, seen.now);
    hide Budgeted;
  }

  /** So is a fault at the door: the clock, or a transmitter that is no longer the attempt's. */
  lemma StepFaults(s: Control, reason: nat, seen: Seen, idle: bool, readyAt: word)
    requires s.phase < DONE && reason != 0
    ensures Stepped(s, Faulted(s, reason, seen.now), seen, idle, readyAt)
  {
    FaultMoves(s, reason, seen.now);
    assert Faulted(s, reason, seen.now).stopping;
    hide Faulted;
  }

  /** Reachable control fields: restoration is outstanding only while restoring, and tokens fit the work spent. */
  predicate Consistent(s: Control, work: nat) {
    && s.phase <= FAULT && work <= MAX_WORK
    && (s.issued == ACTION_RESTORE ==> s.phase >= RESTORE)
    && s.issuedToken <= s.token && s.token + Rank(s) <= work + STOP_WORK + 2
  }

  lemma SteppedKeeps(s: Control, t: Control, seen: Seen, idle: bool, readyAt: word, work: nat)
    requires Consistent(s, work) && Stepped(s, t, seen, idle, readyAt)
    ensures Consistent(t, work) && t.token - s.token <= 1 && s.token <= t.token
  {
  }

  // ---------- whole attempts ----------

  /** The inputs of a step as far as the relation depends on them. */
  datatype Input = Input(seen: Seen, idle: bool, readyAt: word)

  /** A run of processed steps: states linked by one step each. */
  predicate Attempt(states: seq<Control>, inputs: seq<Input>) {
    && |states| == |inputs| + 1
    && forall i :: 0 <= i < |inputs| ==> var x := inputs[i]; Stepped(states[i], states[i + 1], x.seen, x.idle, x.readyAt)
  }

  /** The control fields just after an attempt was started with this much work. */
  predicate Fresh(s: Control, work: nat) {
    s.phase == PREPARE && s.steps == work && 0 < work <= MAX_WORK && !s.stopping && s.token == 0 && s.issued == ACTION_NONE
    && s.issuedToken == 0 && s.causes == Causes(0, 0, 0, 0, 0)
  }

  lemma {:induction false} AttemptKeeps(states: seq<Control>, inputs: seq<Input>, work: nat, i: nat)
    requires Attempt(states, inputs) && Consistent(states[0], work) && i < |states|
    ensures Consistent(states[i], work) && states[0].token <= states[i].token
    ensures states[i].phase < DONE ==> Rank(states[i]) + i <= Rank(states[0])
    ensures Retained(states[0].causes, states[i].causes)
  {
    if i > 0 {
      AttemptKeeps(states, inputs, work, i - 1);
      var x := inputs[i - 1];
      assert Stepped(states[i - 1], states[i], x.seen, x.idle, x.readyAt);
      SteppedKeeps(states[i - 1], states[i], x.seen, x.idle, x.readyAt, work);
    }
  }

  /** Every attempt is over, done or faulted, within its work plus the cleanup work plus two processed steps. */
  lemma EveryAttemptEnds(states: seq<Control>, inputs: seq<Input>, work: nat)
    requires Attempt(states, inputs) && Fresh(states[0], work) && |inputs| >= work + 130
    ensures states[|inputs|].phase == DONE || states[|inputs|].phase == FAULT
  {
    AttemptKeeps(states, inputs, work, |inputs|);
  }

  /** Each step issues at most one token, so no attempt wraps its 16-bit token, and tokens only grow. */
  lemma {:induction false} TokensGrow(states: seq<Control>, inputs: seq<Input>, work: nat, i: nat, k: nat)
    requires Attempt(states, inputs) && Fresh(states[0], work) && i <= k < |states|
    ensures states[i].token <= states[k].token <= states[i].token + (k - i)
    ensures states[k].token <= work + 130 < 0x1_0000
    decreases k
  {
    AttemptKeeps(states, inputs, work, k);
    if i < k {
      TokensGrow(states, inputs, work, i, k - 1);
      AttemptKeeps(states, inputs, work, k - 1);
      var x := inputs[k - 1];
      SteppedKeeps(states[k - 1], states[k], x.seen, x.idle, x.readyAt, work);
    }
  }

  /** A token that has been issued and is no longer the right in force. */
  predicate Dead(s: Control, token: nat) {
    token <= s.token && !Matches(s, token)
  }

  /** A completed or superseded token never matches again, however the attempt goes on. */
  lemma {:induction false} DeadTokensStayDead(states: seq<Control>, inputs: seq<Input>, work: nat, token: nat, i: nat, k: nat)
    requires Attempt(states, inputs) && Fresh(states[0], work) && i <= k < |states| && Dead(states[i], token)
    ensures Dead(states[k], token)
  {
    if i < k {
      DeadTokensStayDead(states, inputs, work, token, i, k - 1);
      AttemptKeeps(states, inputs, work, k - 1);
      var x := inputs[k - 1];
      assert Stepped(states[k - 1], states[k], x.seen, x.idle, x.readyAt);
    }
  }

  /** Fault and completion are final for stepping: the control fields never change again. */
  lemma {:induction false} EndedStays(states: seq<Control>, inputs: seq<Input>, i: nat, k: nat)
    requires Attempt(states, inputs) && i <= k < |states| && states[i].phase >= DONE
    ensures states[k] == states[i]
  {
    if i < k {
      EndedStays(states, inputs, i, k - 1);
      var x := inputs[k - 1];
      assert Stepped(states[k - 1], states[k], x.seen, x.idle, x.readyAt);
    }
  }

  /** The first result, stage, reason and cleanup cause of an attempt are those it ends with. */
  lemma CausesKept(states: seq<Control>, inputs: seq<Input>, i: nat, k: nat)
    requires Attempt(states, inputs) && i <= k < |states|
    ensures Retained(states[i].causes, states[k].causes)
    decreases k - i
  {
    if i < k {
      CausesKept(states, inputs, i, k - 1);
      var x := inputs[k - 1];
      assert Stepped(states[k - 1], states[k], x.seen, x.idle, x.readyAt);
    }
  }

  /** Completion has one way in: the matching completion of an outstanding restoration, everything idle, the ready time reached. */
  lemma {:induction false} DoneOnlyByRestoration(states: seq<Control>, inputs: seq<Input>, work: nat, k: nat)
    requires Attempt(states, inputs) && Fresh(states[0], work) && k < |states| && states[k].phase == DONE
    ensures exists i: nat :: i < k && states[i].phase == RESTORE && states[i].issued == ACTION_RESTORE
                        && inputs[i].seen.kind == RESTORED && inputs[i].seen.token == states[i].issuedToken
                        && inputs[i].idle && Reached(inputs[i].seen.stamp, inputs[i].readyAt)
  {
    if k > 0 {
      var x := inputs[k - 1];
      assert Stepped(states[k - 1], states[k], x.seen, x.idle, x.readyAt);
      if states[k - 1].phase == DONE {
        DoneOnlyByRestoration(states, inputs, work, k - 1);
      } else {
        assert states[k - 1].phase == RESTORE;
      }
    }
  }
}
