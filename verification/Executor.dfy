/** The ritual executor: execute_steps and finalize_unfinished_steps of crates/fubun-core/src/lib.rs.
    Clock readings, adapter replies and storage faults are inputs. */
module Executor {
  import opened Wrappers
  import opened Domain
  import opened History
  import opened CrashSafety
  import opened HistoryStore

  datatype Identity = Identity(adapterId: string, instanceId: Uuid)
  datatype AdapterStatus = AdapterSucceeded | AdapterSkipped | AdapterFailed
  datatype DispatchErrorKind = Unavailable | CapabilityUnavailable | Timeout | Disconnected | Protocol

  datatype Outcome =
    | Replied(identity: Identity, status: AdapterStatus, code: string, message: string)
    | NotDelivered(partial: Option<Identity>, kind: DispatchErrorKind)

  /** What the outside world does during one turn of the loop. Instants are nanoseconds. */
  datatype Turn = Turn(
    reading: nat,             // the monotonic clock at the top of the turn
    startedAt: Timestamp,
    resourceFound: bool,      // the lookup of the action's resource
    outcome: Outcome,         // what the dispatch returned
    waited: nat,              // how long the dispatch waited for the reply
    finishedAt: Timestamp)

  datatype RunError =
    | StepUpdateFailed | ResourceNotFound | StepFinalizeFailed
    | NonTerminalStep | ExecutionFinalizeFailed | ActionFailed

  const NANOS_PER_SECOND: nat := 1_000_000_000
  const NANOS_PER_MILLI: nat := 1_000_000
  const RITUAL_TIMEOUT := "ritual_timeout"
  const STOPPED_AFTER_FAILURE := "stopped_after_failure"
  const RITUAL_TIMED_OUT := "ritual timed out"
  const NOT_EXECUTED := "action was not executed because an earlier action failed"

  function Remaining(deadline: nat, reading: nat): nat {
    if reading < deadline then deadline - reading else 0
  }

  function DeadlineOf(begun: nat, def: RitualDefinition): nat {
    begun + def.timeoutSeconds * NANOS_PER_SECOND
  }

  function DefaultTimeout(action: ActionSpec): nat {
    DescriptorOf(action).defaultTimeoutMs * NANOS_PER_MILLI
  }

  predicate NeedsResource(action: ActionSpec) {
    action.LinuxPathOpen? || action.BrowserTabEnsureOpen?
  }

  function DispatchErrorCode(kind: DispatchErrorKind): string {
    match kind
    case Unavailable => "adapter_unavailable"
    case CapabilityUnavailable => "capability_unavailable"
    case Timeout => "action_timeout"
    case Disconnected => "adapter_disconnected"
    case Protocol => "protocol_error"
  }

  function DispatchErrorMessage(kind: DispatchErrorKind): string {
    match kind
    case Unavailable => "no adapter is connected"
    case CapabilityUnavailable => "required capability is unavailable"
    case Timeout => "adapter action timed out"
    case Disconnected => "adapter disconnected"
    case Protocol => "adapter protocol error"
  }

  function Printable(message: string): string {
    if message == "" then "" else
      (if ControlChar(message[0]) then "" else [message[0]]) + Printable(message[1..])
  }

  function Redact(message: string): string {
    var kept := Printable(message);
    if |kept| <= 160 then kept else kept[..160]
  }

  function StatusOfReply(status: AdapterStatus): StepStatus {
    match status
    case AdapterSucceeded => StepSucceeded
    case AdapterSkipped => StepSkipped
    case AdapterFailed => StepFailed
  }

  // What a turn leaves in the step it worked on.

  function Started(s: ExecutionStep, turn: Turn): ExecutionStep {
    s.(status := StepRunning, startedAt := turn.startedAt)
  }

  function WithIdentity(s: ExecutionStep, identity: Option<Identity>): ExecutionStep {
    match identity
    case None => s
    case Some(who) => s.(adapterId := Some(who.adapterId), adapterInstance := Some(who.instanceId))
  }

  function ReplyRecord(s: ExecutionStep, turn: Turn): ExecutionStep
    requires turn.outcome.Replied?
  {
    WithIdentity(Started(s, turn), Some(turn.outcome.identity)).(
      status := StatusOfReply(turn.outcome.status), resultCode := Some(turn.outcome.code),
      message := Some(Redact(turn.outcome.message)), finishedAt := Some(turn.finishedAt))
  }

  function ErrorRecord(s: ExecutionStep, turn: Turn): ExecutionStep
    requires turn.outcome.NotDelivered?
  {
    WithIdentity(Started(s, turn), turn.outcome.partial).(
      status := StepFailed, resultCode := Some(DispatchErrorCode(turn.outcome.kind)),
      message := Some(DispatchErrorMessage(turn.outcome.kind)), finishedAt := Some(turn.finishedAt))
  }

  function AbortRecord(s: ExecutionStep, now: Timestamp, code: string, message: string): ExecutionStep {
    s.(status := StepAborted, finishedAt := Some(now), resultCode := Some(code), message := Some(message))
  }

  // The trail of statements a run has committed, and what they add up to.

  datatype Trail = Trail(start: RunView, db0: Db, stmts: seq<Stmt>, view: RunView, db: Db)

  ghost predicate TrailOk(t: Trail) {
    && Follow(t.start, t.stmts) == Some(t.view) && ExecAll(t.db0, t.stmts) == t.db
    && StartedIn(t.db0, t.start)
  }

  /** The run's rows are in the tables, as start_execution leaves them. */
  ghost predicate StartedIn(db: Db, v: RunView) {
    KeysOk(db) && ViewOk(db, v.execution.id, v)
  }

  ghost function Extended(t: Trail, stmt: Stmt): Trail
    requires RunNext(t.view, stmt).Some?
  {
    t.(stmts := t.stmts + [stmt], view := RunNext(t.view, stmt).value, db := Exec(t.db, stmt))
  }

  /** What start_execution commits is what the executor needs to begin. */
  lemma StartedRunIsReady(db: Db, e: Execution, steps: seq<ExecutionStep>)
    requires KeysOk(db) && FreshRun(e, steps) && History.StartExecution(db, e, steps).Ok?
    ensures StartedIn(History.StartExecution(db, e, steps).value, RunView(e, steps, Executing))
  {
    FreshStepsAreTheRows(db, e, steps);
    InsertStepsRows(db.steps, steps);
  }

  lemma FreshStepsAreTheRows(db: Db, e: Execution, steps: seq<ExecutionStep>)
    requires KeysOk(db) && FreshRun(e, steps) && History.StartExecution(db, e, steps).Ok?
    ensures StepsOk(History.StartExecution(db, e, steps).value, e.id, steps)
  {
    InsertStepsRows(db.steps, steps);
  }

  lemma RunNextKeepsView(db: Db, run: Uuid, v: RunView, stmt: Stmt)
    requires KeysOk(db) && ViewOk(db, run, v) && RunNext(v, stmt).Some?
    ensures KeysOk(Exec(db, stmt)) && ViewOk(Exec(db, stmt), run, RunNext(v, stmt).value)
  {
    if stmt.WriteStep? {
      assert Exec(db, stmt).steps == db.steps[stmt.step.id := stmt.step];
    }
  }

  /** Statements that follow the protocol keep the run's view and the tables in agreement. */
  lemma {:induction false} FollowKeepsView(db: Db, start: RunView, stmts: seq<Stmt>)
    requires StartedIn(db, start) && Follow(start, stmts).Some?
    ensures StartedIn(ExecAll(db, stmts), Follow(start, stmts).value)
    ensures Follow(start, stmts).value.execution.id == start.execution.id
  {
    if stmts != [] {
      var init := stmts[..|stmts| - 1];
      FollowKeepsView(db, start, init);
      RunNextKeepsView(ExecAll(db, init), start.execution.id, Follow(start, init).value, stmts[|stmts| - 1]);
    }
  }

  lemma ExtendTrail(t: Trail, stmt: Stmt)
    requires TrailOk(t) && RunNext(t.view, stmt).Some?
    ensures TrailOk(Extended(t, stmt))
  {
    assert Extended(t, stmt).stmts[..|t.stmts|] == t.stmts;
  }

  method RecordStep(store: Store, ghost t: Trail, s: ExecutionStep) returns (ok: bool, ghost t': Trail)
    requires TrailOk(t) && store.Tables() == t.db && RunNext(t.view, WriteStep(s)).Some?
    modifies store
    ensures TrailOk(t') && store.Tables() == t'.db && store.calls == old(store.calls) + 1
    ensures ok <==> !old(store.faults(store.calls))
    ensures t' == if ok then Extended(t, WriteStep(s)) else t
  {
    FollowKeepsView(t.db0, t.start, t.stmts);
    var r := store.UpdateStep(s);
    ok, t' := r.Ok?, t;
    if ok {
      ExtendTrail(t, WriteStep(s));
      t' := Extended(t, WriteStep(s));
    }
  }

  /** One of the calls into storage from the first to before the last number failed. */
  ghost predicate FaultBetween(faults: nat -> bool, from: nat, to: nat) {
    exists c :: from <= c < to && faults(c)
  }

  datatype Verdict = Continue | DeadlineHit | StepFailedWith(code: string) | Broken(error: RunError)

  predicate DeadlineBound(action: ActionSpec, turn: Turn, deadline: nat) {
    || Remaining(deadline, turn.reading) == 0
    || (&& turn.outcome.NotDelivered? && turn.outcome.kind == Timeout
        && Remaining(deadline, turn.reading) <= DefaultTimeout(action))
  }

  /** The in-memory step and the stored row may differ only while the step is unfinished. */
  predicate Unsaved(memory: ExecutionStep, row: ExecutionStep) {
    memory == row || (SameStep(memory, row) && memory.status == row.status && !Finished(memory.status))
  }

  /** How the dispatch's outcome decides a running step: a reply is recorded as it is; a timeout under the ritual's own
      limit leaves the step unfinished; any other error fails it. */
  predicate SettleOutcome(s: ExecutionStep, action: ActionSpec, turn: Turn, remaining: nat, verdict: Verdict,
                          s': ExecutionStep)
  {
    && SameStep(s, s')
    && match verdict
       case Continue => turn.outcome.Replied? && s' == ReplyRecord(s, turn) && Good(s'.status)
       case DeadlineHit =>
         && turn.outcome.NotDelivered? && turn.outcome.kind == Timeout && remaining <= DefaultTimeout(action)
         && s'.status == StepRunning && s' == WithIdentity(s, turn.outcome.partial)
       case StepFailedWith(code) =>
         && s'.status == StepFailed
         && (turn.outcome.NotDelivered? && turn.outcome.kind == Timeout ==> DefaultTimeout(action) < remaining)
         && (if turn.outcome.Replied? then s' == ReplyRecord(s, turn) && code == "action_failed"
             else s' == ErrorRecord(s, turn) && code == DispatchErrorCode(turn.outcome.kind))
       case Broken(error) => error == StepUpdateFailed
  }

  /** The second half of a turn: the outcome of the dispatch is recorded in the running step. */
  method Settle(store: Store, ghost t: Trail, s: ExecutionStep, action: ActionSpec, turn: Turn, remaining: nat)
    returns (verdict: Verdict, s': ExecutionStep, ghost t': Trail)
    requires TrailOk(t) && store.Tables() == t.db
    requires t.view.phase == Executing && s.index < |t.view.steps| && t.view.steps[s.index] == s
    requires s.status == StepRunning && s.startedAt == turn.startedAt
    modifies store
    ensures TrailOk(t') && store.Tables() == t'.db && t'.start == t.start && t'.db0 == t.db0
    ensures store.calls <= old(store.calls) + 1
    ensures verdict == DeadlineHit || verdict.Broken? ==> t' == t
    ensures verdict == Continue || verdict.StepFailedWith? ==>
      t'.view == t.view.(steps := t.view.steps[s.index := s'])
    ensures SettleOutcome(s, action, turn, remaining, verdict, s')
    ensures verdict.Broken? ==> old(store.faults(store.calls))
    ensures old(store.calls) <= store.calls && (verdict.Broken? ==> store.calls == old(store.calls) + 1)
  {
    s', t' := s, t;
    var ok;
    match turn.outcome {
      case Replied(who, status, code, message) =>
        s' := s'.(adapterId := Some(who.adapterId), adapterInstance := Some(who.instanceId),
                  status := StatusOfReply(status), resultCode := Some(code), message := Some(Redact(message)),
                  finishedAt := Some(turn.finishedAt));
        assert RunNext(t.view, WriteStep(s')) == Some(t.view.(steps := t.view.steps[s.index := s']));
        ok, t' := RecordStep(store, t', s');
        verdict := if !ok then Broken(StepUpdateFailed)
                   else if Good(s'.status) then Continue else StepFailedWith("action_failed");
      case NotDelivered(partial, kind) =>
        s' := WithIdentity(s', partial);
        if kind == Timeout && remaining <= DefaultTimeout(action) { return DeadlineHit, s', t'; }
        s' := s'.(status := StepFailed, resultCode := Some(DispatchErrorCode(kind)),
                  message := Some(DispatchErrorMessage(kind)), finishedAt := Some(turn.finishedAt));
        assert RunNext(t.view, WriteStep(s')) == Some(t.view.(steps := t.view.steps[s.index := s']));
        ok, t' := RecordStep(store, t', s');
        verdict := if !ok then Broken(StepUpdateFailed) else StepFailedWith(DispatchErrorCode(kind));
    }
  }

  /** The ritual's own deadline passed before the turn, or while it waited for the reply: no result is recorded. */
  predicate Overtaken(s: ExecutionStep, action: ActionSpec, turn: Turn, deadline: nat, s': ExecutionStep) {
    && DeadlineBound(action, turn, deadline)
    && if Remaining(deadline, turn.reading) == 0 then s' == s
       else s' == WithIdentity(Started(s, turn), turn.outcome.partial)
            && (NeedsResource(action) ==> turn.resourceFound)
  }

  predicate TurnOutcome(s: ExecutionStep, action: ActionSpec, turn: Turn, deadline: nat, verdict: Verdict,
                        s': ExecutionStep)
  {
    && SameStep(s, s')
    && (verdict != DeadlineHit ==> Remaining(deadline, turn.reading) > 0)
    && match verdict
       case Continue =>
         && turn.outcome.Replied? && s' == ReplyRecord(s, turn) && Good(s'.status)
         && (NeedsResource(action) ==> turn.resourceFound)
       case DeadlineHit => Overtaken(s, action, turn, deadline, s') && !Finished(s'.status)
       case StepFailedWith(code) =>
         && !DeadlineBound(action, turn, deadline) && s'.status == StepFailed
         && (NeedsResource(action) ==> turn.resourceFound)
         && (if turn.outcome.Replied? then s' == ReplyRecord(s, turn) && code == "action_failed"
             else s' == ErrorRecord(s, turn) && code == DispatchErrorCode(turn.outcome.kind))
       case Broken(error) =>
         error == StepUpdateFailed || (error == ResourceNotFound && NeedsResource(action) && !turn.resourceFound)
  }

  /** The first half of a turn: the step is marked as running and recorded. */
  method StartStep(store: Store, ghost t: Trail, s: ExecutionStep, turn: Turn)
    returns (ok: bool, s': ExecutionStep, ghost t': Trail)
    requires TrailOk(t) && store.Tables() == t.db
    requires t.view.phase == Executing && s.index < |t.view.steps| && t.view.steps[s.index] == s
    requires s.status == StepPending
    modifies store
    ensures TrailOk(t') && store.Tables() == t'.db && t'.start == t.start && t'.db0 == t.db0
    ensures s' == Started(s, turn) && store.calls == old(store.calls) + 1
    ensures if ok then t'.view == t.view.(steps := t.view.steps[s.index := s']) else t' == t
    ensures !ok ==> FaultBetween(store.faults, old(store.calls), store.calls)
  {
    s' := s.(status := StepRunning, startedAt := turn.startedAt);
    assert RunNext(t.view, WriteStep(s')) == Some(t.view.(steps := t.view.steps[s.index := s']));
    ok, t' := RecordStep(store, t, s');
  }

  /** One turn of the executor's loop. */
  method TakeTurn(store: Store, ghost t: Trail, s: ExecutionStep, action: ActionSpec, turn: Turn, deadline: nat)
    returns (verdict: Verdict, s': ExecutionStep, ghost t': Trail)
    requires TrailOk(t) && store.Tables() == t.db
    requires t.view.phase == Executing && s.index < |t.view.steps| && t.view.steps[s.index] == s
    requires s.status == StepPending
    modifies store
    ensures TrailOk(t') && store.Tables() == t'.db && t'.start == t.start && t'.db0 == t.db0
    ensures |t'.view.steps| == |t.view.steps|
    ensures t'.view == t.view.(steps := t.view.steps[s.index := t'.view.steps[s.index]])
    ensures !verdict.Broken? ==> Unsaved(s', t'.view.steps[s.index])
    ensures TurnOutcome(s, action, turn, deadline, verdict, s')
    ensures old(store.calls) <= store.calls
    ensures verdict == Broken(StepUpdateFailed) ==>
      FaultBetween(store.faults, old(store.calls), store.calls)
  {
    s', t' := s, t;
    var remaining := Remaining(deadline, turn.reading);
    if remaining == 0 { return DeadlineHit, s', t'; }
    var ok;
    ok, s', t' := StartStep(store, t', s', turn);
    if !ok { return Broken(StepUpdateFailed), s', t'; }
    if NeedsResource(action) && !turn.resourceFound { return Broken(ResourceNotFound), s', t'; }
    ghost var running, started := s', t';
    verdict, s', t' := Settle(store, t', s', action, turn, remaining);
    SettledIsOutcome(s, running, action, turn, deadline, verdict, s');
    RewrittenStep(t.view, s.index, running, started.view, t'.view);
  }

  /** Two writes of one step leave the view as one write does. */
  lemma RewrittenStep(v: RunView, i: nat, first: ExecutionStep, v1: RunView, v2: RunView)
    requires i < |v.steps| && v1 == v.(steps := v.steps[i := first])
    requires v2 == v1 || (|v2.steps| == |v1.steps| && v2 == v1.(steps := v1.steps[i := v2.steps[i]]))
    ensures |v2.steps| == |v.steps| && v2 == v.(steps := v.steps[i := v2.steps[i]])
  {
    assert v1.steps[i := v2.steps[i]] == v.steps[i := v2.steps[i]];
  }

  lemma SettledIsOutcome(s: ExecutionStep, running: ExecutionStep, action: ActionSpec, turn: Turn, deadline: nat,
                         verdict: Verdict, s': ExecutionStep)
    requires Remaining(deadline, turn.reading) > 0 && running == Started(s, turn)
    requires NeedsResource(action) ==> turn.resourceFound
    requires SettleOutcome(running, action, turn, Remaining(deadline, turn.reading), verdict, s')
    ensures TurnOutcome(s, action, turn, deadline, verdict, s')
  {}

  // Finalization.

  predicate InStep(steps: seq<ExecutionStep>, rows: seq<ExecutionStep>) {
    && |steps| == |rows|
    && forall i :: 0 <= i < |steps| ==> steps[i].index == i && Unsaved(steps[i], rows[i])
  }

  predicate Closed(before: ExecutionStep, after: ExecutionStep, now: Timestamp, code: string, message: string) {
    after == if Finished(before.status) then before else AbortRecord(before, now, code, message)
  }

  /** Half-way through the finalization: the first i steps are closed and written, the others are as they were. */
  ghost predicate Closing(t: Trail, t': Trail, steps: seq<ExecutionStep>, steps': seq<ExecutionStep>, i: nat,
                          now: Timestamp, code: string, message: string)
  {
    && TrailOk(t') && t'.start == t.start && t'.db0 == t.db0
    && t.view.phase == Executing && t'.view == t.view.(steps := t'.view.steps) && InStep(steps', t'.view.steps)
    && |steps'| == |steps| && i <= |steps|
    && (forall j :: i <= j < |steps| ==> steps'[j] == steps[j])
    && forall j :: 0 <= j < i ==> Closed(steps[j], steps'[j], now, code, message) && t'.view.steps[j] == steps'[j]
  }

  lemma ClosingSkips(t: Trail, t': Trail, steps: seq<ExecutionStep>, steps': seq<ExecutionStep>, i: nat,
                     now: Timestamp, code: string, message: string)
    requires Closing(t, t', steps, steps', i, now, code, message) && i < |steps| && Finished(steps'[i].status)
    ensures Closing(t, t', steps, steps', i + 1, now, code, message)
  {
    assert steps'[i] == steps[i] && Unsaved(steps'[i], t'.view.steps[i]);
  }

  /** The abort of step i is the run's next statement, whatever of the step was only in memory. */
  lemma ClosingWrites(t: Trail, t': Trail, steps: seq<ExecutionStep>, steps': seq<ExecutionStep>, i: nat,
                      now: Timestamp, code: string, message: string)
    requires Closing(t, t', steps, steps', i, now, code, message) && i < |steps| && !Finished(steps'[i].status)
    ensures var s := AbortRecord(steps'[i], now, code, message);
      && RunNext(t'.view, WriteStep(s)).Some?
      && Closing(t, Extended(t', WriteStep(s)), steps, steps'[i := s], i + 1, now, code, message)
  {
    var s := AbortRecord(steps'[i], now, code, message);
    assert s.index == i && Unsaved(steps'[i], t'.view.steps[i]);
    assert RunNext(t'.view, WriteStep(s)) == Some(t'.view.(steps := t'.view.steps[i := s]));
    ExtendTrail(t', WriteStep(s));
  }

  method FinalizeUnfinishedSteps(store: Store, ghost t: Trail, steps: seq<ExecutionStep>,
                                 now: Timestamp, code: string, message: string)
    returns (ok: bool, steps': seq<ExecutionStep>, ghost t': Trail)
    requires TrailOk(t) && store.Tables() == t.db && t.view.phase == Executing && InStep(steps, t.view.steps)
    modifies store
    ensures TrailOk(t') && store.Tables() == t'.db && t'.start == t.start && t'.db0 == t.db0
    ensures old(store.calls) <= store.calls
    ensures !ok ==> FaultBetween(store.faults, old(store.calls), store.calls)
    ensures ok ==>
      && t'.view == t.view.(steps := steps') && |steps'| == |steps|
      && forall i :: 0 <= i < |steps| ==> Closed(steps[i], steps'[i], now, code, message)
  {
    steps', t', ok := steps, t, true;
    var i := 0;
    while i < |steps|
      invariant 0 <= i <= |steps| && old(store.calls) <= store.calls
      invariant store.Tables() == t'.db && Closing(t, t', steps, steps', i, now, code, message)
    {
      var s := steps'[i];
      if s.status == StepPending || s.status == StepRunning {
        s := s.(status := StepAborted, finishedAt := Some(now), resultCode := Some(code), message := Some(message));
        ClosingWrites(t, t', steps, steps', i, now, code, message);
        ok, t' := RecordStep(store, t', s);
        if !ok { return; }
        steps' := steps'[i := s];
      } else {
        ClosingSkips(t, t', steps, steps', i, now, code, message);
      }
      i := i + 1;
    }
    assert steps' == t'.view.steps;
  }

  predicate TerminalStepInvariant(status: ExecutionStatus, steps: seq<ExecutionStep>) {
    (FinalStatus(status) || status == Aborted) ==> forall s <- steps :: Finished(s.status)
  }

  // The shape of the history an Ok run leaves.

  /** The first k steps went well; then nothing, or one failure and only unexecuted steps, or only timed-out steps. */
  ghost predicate HistoryShape(steps0: seq<ExecutionStep>, def: RitualDefinition, turns: seq<Turn>, deadline: nat,
                               now: Timestamp, e: Execution, steps: seq<ExecutionStep>, k: nat)
    requires |steps0| == |def.actions| == |turns|
  {
    && |steps| == |steps0| && k <= |steps| && e.finishedAt == Some(now)
    && (forall i :: 0 <= i < k ==> WentWell(steps0[i], def.actions[i], turns[i], deadline, steps[i]))
    && e.status == (if k == |steps| then Succeeded else if k == 0 then Failed else Partial)
    && if k == |steps| then e.failureCode == None
       else if e.failureCode == Some(RITUAL_TIMEOUT) then
         && TimedOutAt(steps0[k], def.actions[k], turns[k], deadline, now, steps[k])
         && forall i :: k < i < |steps| ==> steps[i] == AbortRecord(steps0[i], now, RITUAL_TIMEOUT, RITUAL_TIMED_OUT)
       else
         && FailedAt(steps0[k], def.actions[k], turns[k], deadline, e.failureCode, steps[k])
         && forall i :: k < i < |steps| ==>
              steps[i] == AbortRecord(steps0[i], now, STOPPED_AFTER_FAILURE, NOT_EXECUTED)
  }

  predicate WentWell(s0: ExecutionStep, action: ActionSpec, turn: Turn, deadline: nat, s: ExecutionStep) {
    && turn.outcome.Replied? && s == ReplyRecord(s0, turn) && Good(s.status)
    && Remaining(deadline, turn.reading) > 0 && (NeedsResource(action) ==> turn.resourceFound)
  }

  ghost predicate TimedOutAt(s0: ExecutionStep, action: ActionSpec, turn: Turn, deadline: nat, now: Timestamp,
                             s: ExecutionStep)
  {
    exists mid ::
      Overtaken(s0, action, turn, deadline, mid) && s == AbortRecord(mid, now, RITUAL_TIMEOUT, RITUAL_TIMED_OUT)
  }

  predicate FailedAt(s0: ExecutionStep, action: ActionSpec, turn: Turn, deadline: nat, code: Option<string>,
                     s: ExecutionStep)
  {
    && !DeadlineBound(action, turn, deadline) && s.status == StepFailed
    && (NeedsResource(action) ==> turn.resourceFound)
    && if turn.outcome.Replied? then s == ReplyRecord(s0, turn) && code == Some("action_failed")
       else s == ErrorRecord(s0, turn) && code == Some(DispatchErrorCode(turn.outcome.kind))
  }

  /** How the loop leaves the steps: k went well, the next one decided the verdict, the rest are untouched. */
  predicate LoopExit(steps0: seq<ExecutionStep>, def: RitualDefinition, turns: seq<Turn>, deadline: nat,
                     verdict: Verdict, k: nat, steps: seq<ExecutionStep>)
    requires |steps0| == |def.actions| == |turns|
  {
    && |steps| == |steps0| && k <= |steps0| && (verdict == Continue <==> k == |steps0|)
    && (forall i :: 0 <= i < k ==> WentWell(steps0[i], def.actions[i], turns[i], deadline, steps[i]))
    && (k < |steps0| ==> TurnOutcome(steps0[k], def.actions[k], turns[k], deadline, verdict, steps[k]))
    && (forall i :: k < i < |steps0| ==> steps[i] == steps0[i])
  }

  /** The loop has come to turn k: the steps before it went well, the others are untouched. */
  predicate LoopAt(steps0: seq<ExecutionStep>, def: RitualDefinition, turns: seq<Turn>, deadline: nat, k: nat,
                   steps: seq<ExecutionStep>)
    requires |steps0| == |def.actions| == |turns|
  {
    && |steps| == |steps0| && k <= |steps0|
    && (forall i :: 0 <= i < |steps| ==> steps[i].index == i)
    && (forall i :: 0 <= i < k ==> WentWell(steps0[i], def.actions[i], turns[i], deadline, steps[i]))
    && (forall i :: k <= i < |steps0| ==> steps[i] == steps0[i])
  }

  lemma LoopGoesOn(steps0: seq<ExecutionStep>, def: RitualDefinition, turns: seq<Turn>, deadline: nat, k: nat,
                   steps: seq<ExecutionStep>, s: ExecutionStep)
    requires |steps0| == |def.actions| == |turns| && LoopAt(steps0, def, turns, deadline, k, steps) && k < |steps0|
    requires TurnOutcome(steps[k], def.actions[k], turns[k], deadline, Continue, s)
    ensures LoopAt(steps0, def, turns, deadline, k + 1, steps[k := s])
  {
    assert WentWell(steps0[k], def.actions[k], turns[k], deadline, s);
  }

  lemma LoopStops(steps0: seq<ExecutionStep>, def: RitualDefinition, turns: seq<Turn>, deadline: nat, verdict: Verdict,
                  k: nat, steps: seq<ExecutionStep>, s: ExecutionStep)
    requires |steps0| == |def.actions| == |turns| && LoopAt(steps0, def, turns, deadline, k, steps) && k < |steps0|
    requires verdict != Continue && TurnOutcome(steps[k], def.actions[k], turns[k], deadline, verdict, s)
    ensures LoopExit(steps0, def, turns, deadline, verdict, k, steps[k := s])
    ensures var after := steps[k := s]; forall i :: 0 <= i < |after| ==> after[i].index == i
  {}

  /** The loop of execute_steps up to its exits; k counts the steps that went well. */
  method RunActions(store: Store, ghost t: Trail, steps0: seq<ExecutionStep>, def: RitualDefinition,
                    turns: seq<Turn>, deadline: nat)
    returns (verdict: Verdict, k: nat, steps: seq<ExecutionStep>, ghost t': Trail)
    requires |steps0| == |def.actions| == |turns|
    requires TrailOk(t) && store.Tables() == t.db && t.view.phase == Executing && t.view.steps == steps0
    requires forall i :: 0 <= i < |steps0| ==> steps0[i].index == i && steps0[i].status == StepPending
    modifies store
    ensures TrailOk(t') && store.Tables() == t'.db && t'.start == t.start && t'.db0 == t.db0
    ensures old(store.calls) <= store.calls
    ensures !verdict.Broken? ==>
      && t'.view == t.view.(steps := t'.view.steps) && InStep(steps, t'.view.steps)
    ensures LoopExit(steps0, def, turns, deadline, verdict, k, steps)
    ensures verdict == Broken(StepUpdateFailed) ==>
      FaultBetween(store.faults, old(store.calls), store.calls)
  {
    steps, t', k := steps0, t, 0;
    while k < |def.actions|
      invariant 0 <= k <= |steps0| && |steps| == |steps0| && old(store.calls) <= store.calls
      invariant TrailOk(t') && store.Tables() == t'.db && t'.start == t.start && t'.db0 == t.db0
      invariant t'.view == t.view.(steps := steps) && LoopAt(steps0, def, turns, deadline, k, steps)
    {
      var s;
      verdict, s, t' := TakeTurn(store, t', steps[k], def.actions[k], turns[k], deadline);
      ghost var was := steps;
      steps := steps[k := s];
      if verdict != Continue {
        LoopStops(steps0, def, turns, deadline, verdict, k, was, s);
        return;
      }
      LoopGoesOn(steps0, def, turns, deadline, k, was, s);
      k := k + 1;
    }
    verdict := Continue;
  }

  function CountedStatus(successful: nat): ExecutionStatus {
    if successful == 0 then Failed else Partial
  }

  /** What RunActions and the finalization add up to. */
  lemma ShapeOfRun(steps0: seq<ExecutionStep>, def: RitualDefinition, turns: seq<Turn>, deadline: nat, verdict: Verdict,
                   k: nat, mid: seq<ExecutionStep>, now: Timestamp, code: string, message: string,
                   e: Execution, steps: seq<ExecutionStep>)
    requires |steps0| == |def.actions| == |turns| == |steps| && e.finishedAt == Some(now)
    requires forall i :: 0 <= i < |steps0| ==> steps0[i].status == StepPending
    requires LoopExit(steps0, def, turns, deadline, verdict, k, mid)
    requires verdict == DeadlineHit || verdict.StepFailedWith?
    requires forall i :: 0 <= i < |steps0| ==> Closed(mid[i], steps[i], now, code, message)
    requires e.status == CountedStatus(k)
    requires verdict == DeadlineHit ==>
      e.failureCode == Some(RITUAL_TIMEOUT) && code == RITUAL_TIMEOUT && message == RITUAL_TIMED_OUT
    requires verdict.StepFailedWith? ==>
      e.failureCode == Some(verdict.code) && code == STOPPED_AFTER_FAILURE && message == NOT_EXECUTED
    ensures HistoryShape(steps0, def, turns, deadline, now, e, steps, k)
    ensures forall s <- steps :: Finished(s.status)
  {
    forall i | 0 <= i < |steps0| ensures Closed(mid[i], steps[i], now, code, message) && Finished(steps[i].status) {}
    assert forall i :: 0 <= i < k ==> WentWell(steps0[i], def.actions[i], turns[i], deadline, steps[i]);
  }

  /** The trail with both statements of the final update. */
  ghost function WithFinalWrites(t: Trail, e: Execution): Trail
    requires RunNext(t.view, WriteExecution(e)).Some?
  {
    Extended(Extended(t, WriteExecution(e)), DropLocks(e.id))
  }

  /** What the two statements of the final update add to a trail. */
  lemma FinalStatements(t: Trail, e: Execution)
    requires TrailOk(t) && RunNext(t.view, WriteExecution(e)).Some?
    ensures var t1 := Extended(t, WriteExecution(e));
      TrailOk(t1) && t1.db == SetExecution(t.db, e) && t1.start == t.start && t1.db0 == t.db0
    ensures var t2 := WithFinalWrites(t, e);
      && TrailOk(t2) && t2.db == ReleaseLocks(SetExecution(t.db, e), e.id) && t2.start == t.start && t2.db0 == t.db0
      && t2.view == RunView(e, t.view.steps, Released)
      && GetExecution(t2.db, e.id) == Ok((e, t.view.steps))
    ensures e.id in t.db.executions && e.status != Running
  {
    var t1, t2 := Extended(t, WriteExecution(e)), WithFinalWrites(t, e);
    FollowKeepsView(t.db0, t.start, t.stmts);
    ExtendTrail(t, WriteExecution(e));
    ExtendTrail(t1, DropLocks(e.id));
    FollowKeepsView(t2.db0, t2.start, t2.stmts);
    ViewIsReadBack(t2.db, e.id, t2.view);
  }

  /** Commits the final status and releases the lock. */
  method FinishExecution(store: Store, ghost t: Trail, e: Execution) returns (ok: bool, ghost t': Trail)
    requires TrailOk(t) && store.Tables() == t.db && RunNext(t.view, WriteExecution(e)).Some?
    modifies store
    ensures TrailOk(t') && store.Tables() == t'.db && t'.start == t.start && t'.db0 == t.db0
    ensures ok ==> t'.view == RunView(e, t.view.steps, Released)
    ensures ok ==> GetExecution(store.Tables(), e.id) == Ok((e, t.view.steps))
    ensures old(store.calls) <= store.calls
    ensures !ok ==> FaultBetween(store.faults, old(store.calls), store.calls)
  {
    FinalStatements(t, e);
    var r := store.UpdateExecution(e);
    ok, t' := r.Ok?, t;
    if ok {
      t' := WithFinalWrites(t, e);
    } else {
      assert store.faults(store.calls - 1);
      if store.Tables() != t.db { t' := Extended(t, WriteExecution(e)); }
    }
  }

  /** Only the status, the closing time and the failure code of the execution are new. */
  predicate Decided(execution: Execution, now: Timestamp, e: Execution) {
    e == execution.(status := e.status, finishedAt := Some(now), failureCode := e.failureCode)
  }

  /** The assignments to the execution in and after the loop. */
  method DecideStatus(execution: Execution, verdict: Verdict, successful: nat, now: Timestamp) returns (e: Execution)
    requires !verdict.Broken? && execution.failureCode == None
    requires verdict.StepFailedWith? ==> verdict.code != RITUAL_TIMEOUT
    ensures Decided(execution, now, e) && FinalStatus(e.status)
    ensures verdict == Continue <==> e.failureCode == None
    ensures verdict == DeadlineHit <==> e.failureCode == Some(RITUAL_TIMEOUT)
    ensures verdict.StepFailedWith? ==> e.failureCode == Some(verdict.code)
    ensures e.status == if verdict == Continue then Succeeded else CountedStatus(successful)
  {
    e := execution;
    match verdict {
      case DeadlineHit => e := e.(failureCode := Some(RITUAL_TIMEOUT));
      case StepFailedWith(code) => e := e.(status := CountedStatus(successful), failureCode := Some(code));
      case Continue =>
    }
    e := e.(finishedAt := Some(now));
    if e.failureCode == Some(RITUAL_TIMEOUT) {
      e := e.(status := CountedStatus(successful));
    } else if e.failureCode == None {
      e := e.(status := Succeeded);
    }
  }

  /** The code after the loop, up to the final status: unfinished steps are closed and the run is judged. */
  method CloseSteps(store: Store, ghost t: Trail, execution: Execution, ghost steps0: seq<ExecutionStep>,
                    ghost def: RitualDefinition, ghost turns: seq<Turn>, ghost deadline: nat,
                    verdict: Verdict, successful: nat, steps: seq<ExecutionStep>, now: Timestamp)
    returns (ok: bool, execution': Execution, steps': seq<ExecutionStep>, ghost t': Trail)
    requires |steps0| == |def.actions| == |turns| && LoopExit(steps0, def, turns, deadline, verdict, successful, steps)
    requires forall i :: 0 <= i < |steps0| ==> steps0[i].status == StepPending
    requires !verdict.Broken? && execution.failureCode == None && execution.status == Running
    requires TrailOk(t) && store.Tables() == t.db && t.view.phase == Executing && InStep(steps, t.view.steps)
    modifies store
    ensures TrailOk(t') && store.Tables() == t'.db && t'.start == t.start && t'.db0 == t.db0
    ensures old(store.calls) <= store.calls
    ensures !ok ==> FaultBetween(store.faults, old(store.calls), store.calls)
    ensures ok ==>
      && t'.view == t.view.(steps := steps') && Decided(execution, now, execution') && FinalStatus(execution'.status)
      && HistoryShape(steps0, def, turns, deadline, now, execution', steps', successful)
      && forall s <- steps' :: Finished(s.status)
  {
    steps', t', ok := steps, t, true;
    execution' := DecideStatus(execution, verdict, successful, now);
    if execution'.failureCode == None {
      AllWentWell(steps0, def, turns, deadline, successful, now, execution', steps, t.view.steps);
    } else {
      var timedOut := execution'.failureCode == Some(RITUAL_TIMEOUT);
      var code := if timedOut then RITUAL_TIMEOUT else STOPPED_AFTER_FAILURE;
      var message := if timedOut then RITUAL_TIMED_OUT else NOT_EXECUTED;
      ok, steps', t' := FinalizeUnfinishedSteps(store, t, steps, now, code, message);
      if ok {
        ShapeOfRun(steps0, def, turns, deadline, verdict, successful, steps, now, code, message, execution', steps');
      }
    }
  }

  /** The last part of execute_steps: the internal checks, and the commit of the execution row. */
  method CommitResult(store: Store, ghost t: Trail, e: Execution, steps: seq<ExecutionStep>)
    returns (r: Result<(Execution, seq<ExecutionStep>), RunError>, ghost t': Trail)
    requires TrailOk(t) && store.Tables() == t.db && t.view.phase == Executing && t.view.steps == steps
    requires SameExecution(t.view.execution, e) && FinalStatus(e.status)
    requires e.status == Failed || e.status == Partial ==> e.failureCode.Some?
    requires forall s <- steps :: Finished(s.status)
    modifies store
    ensures TrailOk(t') && store.Tables() == t'.db && t'.start == t.start && t'.db0 == t.db0
    ensures old(store.calls) <= store.calls
    ensures r.Err? ==> r.error == ExecutionFinalizeFailed && FaultBetween(store.faults, old(store.calls), store.calls)
    ensures r.Ok? ==> r.value == (e, steps) && t'.view == RunView(e, steps, Released)
    ensures r.Ok? ==> GetExecution(store.Tables(), e.id) == Ok((e, steps))
  {
    if !TerminalStepInvariant(e.status, steps) { return Err(NonTerminalStep), t; }
    var ok;
    ok, t' := FinishExecution(store, t, e);
    if !ok { return Err(ExecutionFinalizeFailed), t'; }
    if (e.status == Failed || e.status == Partial) && e.failureCode == None { return Err(ActionFailed), t'; }
    r := Ok((e, steps));
  }

  lemma AllWentWell(steps0: seq<ExecutionStep>, def: RitualDefinition, turns: seq<Turn>, deadline: nat, k: nat,
                    now: Timestamp, e: Execution, steps: seq<ExecutionStep>, rows: seq<ExecutionStep>)
    requires |steps0| == |def.actions| == |turns| && LoopExit(steps0, def, turns, deadline, Continue, k, steps)
    requires InStep(steps, rows) && e.finishedAt == Some(now) && e.failureCode == None && e.status == Succeeded
    ensures steps == rows && forall s <- steps :: Finished(s.status)
    ensures HistoryShape(steps0, def, turns, deadline, now, e, steps, k)
  {
    forall i | 0 <= i < |steps| ensures steps[i] == rows[i] && Finished(steps[i].status) {
      assert WentWell(steps0[i], def.actions[i], turns[i], deadline, steps[i]);
    }
  }

  /** The clock is monotone, and the last of n turns waited at most until the deadline (a dispatch is never granted more
      time than is left) plus its timer's lateness. */
  predicate LastWaitWithin(def: RitualDefinition, turns: seq<Turn>, begun: nat, n: nat, late: nat)
    requires |def.actions| == |turns| && n <= |turns|
  {
    && Monotone(turns, begun)
    && (n > 0 ==> turns[n - 1].reading + turns[n - 1].waited <= begun + def.timeoutSeconds * 1_000_000_000 + late)
  }

  /** Whatever that lateness is, the n turns together waited at most that much longer than the ritual's timeout. */
  ghost predicate WaitsAreBounded(def: RitualDefinition, turns: seq<Turn>, begun: nat, n: nat)
    requires |def.actions| == |turns| && n <= |turns|
  {
    forall late: nat :: LastWaitWithin(def, turns, begun, n, late) ==>
      TotalWait(turns, n) <= def.timeoutSeconds * 1_000_000_000 + late
  }

  lemma TakenTurnsAreBounded(def: RitualDefinition, turns: seq<Turn>, begun: nat, k: nat)
    requires |def.actions| == |turns| && k <= |turns|
    ensures forall n: nat :: n <= k + 1 && n <= |turns| ==> WaitsAreBounded(def, turns, begun, n)
  {
    forall n: nat, late: nat | n <= |turns| && LastWaitWithin(def, turns, begun, n, late)
      ensures TotalWait(turns, n) <= def.timeoutSeconds * 1_000_000_000 + late
    {
      ReplyWaitsWithinTimeout(def, turns, begun, n, late);
    }
  }

  /** Turn k had time left and needed a resource that was not there; the turns before it were answered well. */
  predicate StopsOnMissingResource(def: RitualDefinition, turns: seq<Turn>, begun: nat, k: nat)
    requires |def.actions| == |turns|
  {
    && k < |turns| && turns[k].reading < begun + def.timeoutSeconds * 1_000_000_000
    && (def.actions[k].LinuxPathOpen? || def.actions[k].BrowserTabEnsureOpen?) && !turns[k].resourceFound
    && forall i :: 0 <= i < k ==> turns[i].outcome.Replied? && turns[i].outcome.status != AdapterFailed
  }

  lemma LoopMissesResource(steps0: seq<ExecutionStep>, def: RitualDefinition, turns: seq<Turn>, begun: nat, k: nat,
                           steps: seq<ExecutionStep>)
    requires |steps0| == |def.actions| == |turns|
    requires LoopExit(steps0, def, turns, DeadlineOf(begun, def), Broken(ResourceNotFound), k, steps)
    ensures StopsOnMissingResource(def, turns, begun, k)
  {
    forall i | 0 <= i < k ensures turns[i].outcome.Replied? && turns[i].outcome.status != AdapterFailed {
      assert WentWell(steps0[i], def.actions[i], turns[i], DeadlineOf(begun, def), steps[i]);
    }
  }

  /** execute_steps. Whatever happens, the statements it commits follow the run protocol. An Ok result has the
      history shape, is exactly what the tables hold, and has released the lock. Its reply waits stay within the
      timeout. It fails only when storage fails or a resource is missing; the two internal checks never fire. */
  method ExecuteSteps(store: Store, execution: Execution, steps: seq<ExecutionStep>, def: RitualDefinition,
                      begun: nat, turns: seq<Turn>, now: Timestamp)
    returns (r: Result<(Execution, seq<ExecutionStep>), RunError>, ghost stmts: seq<Stmt>, ghost k: nat)
    requires |steps| == |def.actions| == |turns| && FreshRun(execution, steps)
    requires StartedIn(store.Tables(), RunView(execution, steps, Executing))
    modifies store
    ensures Follow(RunView(execution, steps, Executing), stmts).Some?
      && store.Tables() == ExecAll(old(store.Tables()), stmts)
    ensures k <= |turns| && forall n: nat :: n <= k + 1 && n <= |turns| ==> WaitsAreBounded(def, turns, begun, n)
    ensures r.Ok? ==>
      && Decided(execution, now, r.value.0)
      && HistoryShape(steps, def, turns, DeadlineOf(begun, def), now, r.value.0, r.value.1, k)
      && Follow(RunView(execution, steps, Executing), stmts) == Some(RunView(r.value.0, r.value.1, Released))
      && GetExecution(store.Tables(), execution.id) == Ok(r.value)
    ensures r.Err? ==>
      || (r.error in {StepUpdateFailed, StepFinalizeFailed, ExecutionFinalizeFailed}
          && FaultBetween(store.faults, old(store.calls), store.calls))
      || (r.error == ResourceNotFound && StopsOnMissingResource(def, turns, begun, k))
  {
    var deadline := DeadlineOf(begun, def);
    ghost var start := RunView(execution, steps, Executing);
    ghost var t := Trail(start, store.Tables(), [], start, store.Tables());
    var verdict, successful, steps', execution', ok;
    verdict, successful, steps', t := RunActions(store, t, steps, def, turns, deadline);
    k, stmts := successful, t.stmts;
    TakenTurnsAreBounded(def, turns, begun, k);
    if verdict.Broken? {
      if verdict.error == ResourceNotFound { LoopMissesResource(steps, def, turns, begun, k, steps'); }
      return Err(verdict.error), stmts, k;
    }
    ok, execution', steps', t :=
      CloseSteps(store, t, execution, steps, def, turns, deadline, verdict, successful, steps', now);
    stmts := t.stmts;
    if !ok { return Err(StepFinalizeFailed), stmts, k; }
    r, t := CommitResult(store, t, execution', steps');
    stmts := t.stmts;
  }

  // What the history shape means, on the turns alone.

  /** The run goes on exactly as long as there is time left and the replies say succeeded or skipped; every turn it
      takes found its resource. */
  lemma RunGoesOnWhileAnswered(steps0: seq<ExecutionStep>, def: RitualDefinition, turns: seq<Turn>, begun: nat,
                               now: Timestamp, e: Execution, steps: seq<ExecutionStep>, k: nat)
    requires |steps0| == |def.actions| == |turns|
    requires HistoryShape(steps0, def, turns, DeadlineOf(begun, def), now, e, steps, k)
    ensures var deadline := begun + def.timeoutSeconds * 1_000_000_000;
      && |steps| == |turns| && k <= |turns|
      && (forall i :: 0 <= i < k ==>
            && turns[i].reading < deadline && turns[i].outcome.Replied?
            && (turns[i].outcome.status == AdapterSucceeded || turns[i].outcome.status == AdapterSkipped))
      && (k < |turns| && turns[k].reading < deadline && turns[k].outcome.Replied? ==>
            turns[k].outcome.status == AdapterFailed)
      && (forall i | 0 <= i <= k && i < |turns| && turns[i].reading < deadline
            && (def.actions[i].LinuxPathOpen? || def.actions[i].BrowserTabEnsureOpen?) :: turns[i].resourceFound)
  {
    forall i | 0 <= i < k
      ensures WentWell(steps0[i], def.actions[i], turns[i], DeadlineOf(begun, def), steps[i]) {}
  }

  /** A reply that was waited for in time is recorded as it came: its status, its sender, its code and its message. */
  lemma RepliesAreRecorded(steps0: seq<ExecutionStep>, def: RitualDefinition, turns: seq<Turn>, begun: nat,
                           now: Timestamp, e: Execution, steps: seq<ExecutionStep>, k: nat, i: nat)
    requires |steps0| == |def.actions| == |turns| && i <= k && i < |turns|
    requires HistoryShape(steps0, def, turns, DeadlineOf(begun, def), now, e, steps, k)
    requires turns[i].reading < begun + def.timeoutSeconds * 1_000_000_000 && turns[i].outcome.Replied?
    ensures |steps| == |turns| && SameStep(steps0[i], steps[i])
    ensures steps[i].status == match turns[i].outcome.status
      case AdapterSucceeded => StepSucceeded
      case AdapterSkipped => StepSkipped
      case AdapterFailed => StepFailed
    ensures steps[i].adapterId == Some(turns[i].outcome.identity.adapterId)
    ensures steps[i].adapterInstance == Some(turns[i].outcome.identity.instanceId)
    ensures steps[i].resultCode == Some(turns[i].outcome.code)
    ensures steps[i].message == Some(Redact(turns[i].outcome.message))
    ensures steps[i].startedAt == turns[i].startedAt && steps[i].finishedAt == Some(turns[i].finishedAt)
    ensures turns[i].outcome.status == AdapterFailed ==> i == k && e.failureCode == Some("action_failed")
  {
    if i < k { assert WentWell(steps0[i], def.actions[i], turns[i], DeadlineOf(begun, def), steps[i]); }
  }

  /** So a step says succeeded exactly if its turn was taken and its reply said so, and the same for skipped. */
  lemma StepStatusIsTheReplys(steps0: seq<ExecutionStep>, def: RitualDefinition, turns: seq<Turn>, begun: nat,
                              now: Timestamp, e: Execution, steps: seq<ExecutionStep>, k: nat, i: nat)
    requires |steps0| == |def.actions| == |turns| && i < |turns|
    requires HistoryShape(steps0, def, turns, DeadlineOf(begun, def), now, e, steps, k)
    ensures |steps| == |turns|
    ensures var answered :=
        i <= k && turns[i].reading < begun + def.timeoutSeconds * 1_000_000_000 && turns[i].outcome.Replied?;
      && (steps[i].status == StepSucceeded <==> answered && turns[i].outcome.status == AdapterSucceeded)
      && (steps[i].status == StepSkipped <==> answered && turns[i].outcome.status == AdapterSkipped)
      && (answered && turns[i].outcome.status == AdapterFailed ==> steps[i].status == StepFailed)
  {
    RunGoesOnWhileAnswered(steps0, def, turns, begun, now, e, steps, k);
    if i < k || (i == k && turns[i].reading < begun + def.timeoutSeconds * 1_000_000_000) {
      if turns[i].outcome.Replied? { RepliesAreRecorded(steps0, def, turns, begun, now, e, steps, k, i); }
      else { ErrorsAreRecorded(steps0, def, turns, begun, now, e, steps, k); }
    } else {
      UntakenStepsAreClosed(steps0, def, turns, begun, now, e, steps, k, i);
    }
  }

  /** A dispatch that came back without a reply in time is recorded as failed with the code of its error, unless it
      timed out with no more than the action's ten seconds left to the ritual's deadline. */
  lemma ErrorsAreRecorded(steps0: seq<ExecutionStep>, def: RitualDefinition, turns: seq<Turn>, begun: nat,
                          now: Timestamp, e: Execution, steps: seq<ExecutionStep>, k: nat)
    requires |steps0| == |def.actions| == |turns| && k < |turns|
    requires HistoryShape(steps0, def, turns, DeadlineOf(begun, def), now, e, steps, k)
    requires turns[k].reading < begun + def.timeoutSeconds * 1_000_000_000 && turns[k].outcome.NotDelivered?
    ensures |steps| == |turns| && SameStep(steps0[k], steps[k]) && steps[k].startedAt == turns[k].startedAt
    ensures var code := match turns[k].outcome.kind
        case Unavailable => "adapter_unavailable"
        case CapabilityUnavailable => "capability_unavailable"
        case Timeout => "action_timeout"
        case Disconnected => "adapter_disconnected"
        case Protocol => "protocol_error";
      var late := turns[k].outcome.kind == Timeout
        && begun + def.timeoutSeconds * 1_000_000_000 <= turns[k].reading + 10_000_000_000;
      && (steps[k].status == StepFailed <==> !late) && (steps[k].status == StepAborted <==> late)
      && steps[k].resultCode == e.failureCode == Some(if late then "ritual_timeout" else code)
      && steps[k].finishedAt == Some(if late then now else turns[k].finishedAt)
      && steps[k].message == Some(if late then "ritual timed out" else
           match turns[k].outcome.kind
           case Unavailable => "no adapter is connected"
           case CapabilityUnavailable => "required capability is unavailable"
           case Timeout => "adapter action timed out"
           case Disconnected => "adapter disconnected"
           case Protocol => "adapter protocol error")
    ensures match turns[k].outcome.partial
      case None => steps[k].adapterId == steps0[k].adapterId && steps[k].adapterInstance == steps0[k].adapterInstance
      case Some(who) => steps[k].adapterId == Some(who.adapterId) && steps[k].adapterInstance == Some(who.instanceId)
  {
    assert DefaultTimeout(def.actions[k]) == 10_000_000_000;
    DispatchCodesAreNotTheRituals(turns[k].outcome.kind);
  }

  lemma DispatchCodesAreNotTheRituals(kind: DispatchErrorKind)
    ensures DispatchErrorCode(kind) != RITUAL_TIMEOUT
  {
    assert RITUAL_TIMEOUT[0] == 'r' && DispatchErrorCode(kind)[0] != 'r';
  }

  /** The steps the run did not come to, and the one before which its time was up, are closed at the end of the run with
      the reason, and nothing else of them is touched. */
  lemma UntakenStepsAreClosed(steps0: seq<ExecutionStep>, def: RitualDefinition, turns: seq<Turn>, begun: nat,
                              now: Timestamp, e: Execution, steps: seq<ExecutionStep>, k: nat, i: nat)
    requires |steps0| == |def.actions| == |turns| && i < |turns|
    requires HistoryShape(steps0, def, turns, DeadlineOf(begun, def), now, e, steps, k)
    requires k < i || (k == i && begun + def.timeoutSeconds * 1_000_000_000 <= turns[i].reading)
    ensures |steps| == |turns|
    ensures steps[i] == steps0[i].(
      status := StepAborted, finishedAt := Some(now),
      resultCode := Some(if e.failureCode == Some("ritual_timeout") then "ritual_timeout" else "stopped_after_failure"),
      message := Some(if e.failureCode == Some("ritual_timeout") then "ritual timed out"
                      else "action was not executed because an earlier action failed"))
    ensures k == i ==> e.failureCode == Some("ritual_timeout")
  {}

  /** The whole run went well exactly when each turn had time left and was answered with succeeded or skipped; it failed
      without any success exactly when already the first was not. */
  lemma StatusFollowsTheTurns(steps0: seq<ExecutionStep>, def: RitualDefinition, turns: seq<Turn>, begun: nat,
                              now: Timestamp, e: Execution, steps: seq<ExecutionStep>, k: nat)
    requires |steps0| == |def.actions| == |turns|
    requires HistoryShape(steps0, def, turns, DeadlineOf(begun, def), now, e, steps, k)
    ensures var deadline := begun + def.timeoutSeconds * 1_000_000_000;
      && (e.status == Succeeded <==> forall i :: 0 <= i < |turns| ==>
            && turns[i].reading < deadline && turns[i].outcome.Replied? && turns[i].outcome.status != AdapterFailed)
      && (e.status == Failed <==>
            && turns != []
            && !(turns[0].reading < deadline && turns[0].outcome.Replied? && turns[0].outcome.status != AdapterFailed))
      && (e.status == Succeeded || e.status == Failed || e.status == Partial)
      && (e.status == Succeeded <==> e.failureCode == None) && e.finishedAt == Some(now)
  {
    RunGoesOnWhileAnswered(steps0, def, turns, begun, now, e, steps, k);
  }

  /** A recorded message holds no control characters and at most 160 characters, and a short clean one is kept. */
  lemma RedactedMessage(message: string)
    ensures |Redact(message)| <= 160 && forall c <- Redact(message) :: ' ' <= c <= '~' || c > '\U{9F}'
    ensures |message| <= 160 && (forall c <- message :: ' ' <= c <= '~' || c > '\U{9F}') ==> Redact(message) == message
  {
    PrintableOnly(message);
    assert forall c <- Redact(message) :: c in Printable(message);
  }

  lemma {:induction false} PrintableOnly(message: string)
    ensures forall c <- Printable(message) :: ' ' <= c <= '~' || c > '\U{9F}'
    ensures (forall c <- message :: ' ' <= c <= '~' || c > '\U{9F}') ==> Printable(message) == message
  {
    if message != "" {
      PrintableOnly(message[1..]);
      assert message == [message[0]] + message[1..];
      assert message[0] in message && forall c <- message[1..] :: c in message;
    }
  }

  /** An Ok run is Succeeded, Failed or Partial exactly by whether all, none or some of its steps went well. */
  lemma StatusCountsSteps(steps0: seq<ExecutionStep>, def: RitualDefinition, turns: seq<Turn>, deadline: nat,
                          now: Timestamp, e: Execution, steps: seq<ExecutionStep>, k: nat)
    requires |steps0| == |def.actions| == |turns| && HistoryShape(steps0, def, turns, deadline, now, e, steps, k)
    ensures e.status == Succeeded <==> forall s <- steps :: Good(s.status)
    ensures e.status == Failed <==> steps != [] && forall s <- steps :: !Good(s.status)
    ensures e.status == Partial <==> (exists s <- steps :: Good(s.status)) && exists s <- steps :: !Good(s.status)
    ensures e.status == Succeeded <==> e.failureCode == None
  {
    if 0 < k { assert WentWell(steps0[0], def.actions[0], turns[0], deadline, steps[0]); assert steps[0] in steps; }
    if k < |steps| {
      assert steps[k] in steps && !Good(steps[k].status);
    } else {
      forall s | s in steps ensures Good(s.status) {
        var i :| 0 <= i < |steps| && steps[i] == s;
        assert WentWell(steps0[i], def.actions[i], turns[i], deadline, steps[i]);
      }
    }
  }

  /** A dispatch that timed out is recorded as action_timeout exactly when the action's own limit was strictly below
      the time left; otherwise the whole ritual is recorded as timed out and that step is aborted. */
  lemma TimeoutIsBlamedOnTheSmallerLimit(steps0: seq<ExecutionStep>, def: RitualDefinition, turns: seq<Turn>,
                                         deadline: nat, now: Timestamp, e: Execution, steps: seq<ExecutionStep>,
                                         k: nat)
    requires |steps0| == |def.actions| == |turns| && HistoryShape(steps0, def, turns, deadline, now, e, steps, k)
    requires k < |steps| && turns[k].outcome.NotDelivered? && turns[k].outcome.kind == Timeout
    requires Remaining(deadline, turns[k].reading) > 0
    ensures DefaultTimeout(def.actions[k]) < Remaining(deadline, turns[k].reading)
      <==> steps[k].status == StepFailed && steps[k].resultCode == Some("action_timeout")
    ensures DefaultTimeout(def.actions[k]) < Remaining(deadline, turns[k].reading)
      <==> e.failureCode == Some("action_timeout")
  {}

  // Deadline arithmetic.

  function TotalWait(turns: seq<Turn>, n: nat): nat
    requires n <= |turns|
  {
    if n == 0 then 0 else TotalWait(turns, n - 1) + turns[n - 1].waited
  }

  /** The clock never runs backwards and advances at least by what a turn waited. */
  predicate Monotone(turns: seq<Turn>, begun: nat) {
    && (turns != [] ==> begun <= turns[0].reading)
    && forall i :: 0 <= i < |turns| - 1 ==> turns[i].reading + turns[i].waited <= turns[i + 1].reading
  }

  lemma {:induction false} WaitedSoFar(turns: seq<Turn>, begun: nat, n: nat)
    requires Monotone(turns, begun) && 0 < n <= |turns|
    ensures begun + TotalWait(turns, n - 1) <= turns[n - 1].reading
  {
    if n > 1 { WaitedSoFar(turns, begun, n - 1); }
  }

  /** Over all dispatches of a run, whatever its outcome, the reply waits add up to at most the ritual's timeout plus
      the lateness of the last timer alone; with timers that are never late, to at most the timeout. */
  lemma ReplyWaitsWithinTimeout(def: RitualDefinition, turns: seq<Turn>, begun: nat, n: nat, late: nat)
    requires |def.actions| == |turns| && n <= |turns|
    requires turns != [] ==> begun <= turns[0].reading
    requires forall i :: 0 <= i < |turns| - 1 ==> turns[i].reading + turns[i].waited <= turns[i + 1].reading
    requires n > 0 ==> turns[n - 1].reading + turns[n - 1].waited <= begun + def.timeoutSeconds * 1_000_000_000 + late
    ensures TotalWait(turns, n) <= def.timeoutSeconds * 1_000_000_000 + late
  {
    assert Monotone(turns, begun);
    if n > 0 { WaitedSoFar(turns, begun, n); }
  }

  // From the executor to the daemon: the committed statements are events of the step system.

  function Issued(run: Uuid, stmts: seq<Stmt>): seq<Event> {
    seq(|stmts|, i requires 0 <= i < |stmts| => Issue(run, stmts[i]))
  }

  /** Statements that follow the protocol are possible events, in order, and do what the executor saw them do. */
  lemma {:induction false} StatementsAreEvents(s: Sys, run: Uuid, stmts: seq<Stmt>)
    requires s.phase == Serving && run in s.runs && Follow(s.runs[run], stmts).Some?
    ensures Run(s, Issued(run, stmts))
      == s.(db := ExecAll(s.db, stmts), runs := s.runs[run := Follow(s.runs[run], stmts).value])
  {
    if stmts == [] {
      assert s.runs[run := s.runs[run]] == s.runs;
    } else {
      var init := stmts[..|stmts| - 1];
      StatementsAreEvents(s, run, init);
      assert Issued(run, stmts)[..|stmts| - 1] == Issued(run, init);
    }
  }

  predicate SameForOthers(db: Db, db': Db, run: Uuid) {
    && db'.executions.Keys == db.executions.Keys && db'.steps.Keys == db.steps.Keys
    && (forall id <- db.executions :: id != run ==> db'.executions[id] == db.executions[id])
    && (forall id <- db.steps :: db.steps[id].executionId != run ==> db'.steps[id] == db.steps[id])
  }

  lemma StatementTouchesOnlyItself(db: Db, run: Uuid, v: RunView, stmt: Stmt)
    requires ViewOk(db, run, v) && v.execution.id == run && RunNext(v, stmt).Some?
    ensures SameForOthers(db, Exec(db, stmt), run)
    ensures Exec(db, stmt).locks == if stmt.DropLocks? then ReleaseLocks(db, run).locks else db.locks
  {}

  /** A run touches its own rows only, and gives up its own lock only, and only at its end. */
  lemma {:induction false} RunTouchesOnlyItself(db: Db, start: RunView, stmts: seq<Stmt>)
    requires StartedIn(db, start) && start.phase == Executing && Follow(start, stmts).Some?
    ensures SameForOthers(db, ExecAll(db, stmts), start.execution.id)
    ensures ExecAll(db, stmts).locks ==
      if Follow(start, stmts).value.phase == Released then ReleaseLocks(db, start.execution.id).locks else db.locks
  {
    if stmts != [] {
      var init := stmts[..|stmts| - 1];
      RunTouchesOnlyItself(db, start, init);
      FollowKeepsView(db, start, init);
      StatementTouchesOnlyItself(ExecAll(db, init), start.execution.id, Follow(start, init).value, stmts[|stmts| - 1]);
    }
  }
}
