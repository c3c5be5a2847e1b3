/** The durable execution history: the tables executions, execution_steps and ritual_execution_locks,
    and the SQL statements that change them (crates/fubun-storage/src/lib.rs). */
module History {
  import opened Wrappers
  import opened Domain

  datatype Db = Db(
    executions: map<Uuid, Execution>,
    steps: map<Uuid, ExecutionStep>,
    locks: map<Uuid, Uuid>)  // ritual id to execution id

  const EMPTY_DB := Db(map[], map[], map[])

  datatype StorageError = NotFound | RitualAlreadyRunning | Sqlite

  const DAEMON_RESTARTED := "daemon_restarted"

  predicate AbortedByRestart(e: Execution) {
    e.status == Aborted && e.failureCode == Some(DAEMON_RESTARTED)
  }

  // One function per SQL statement; each is atomic.

  function SetExecution(db: Db, e: Execution): Db {
    if e.id !in db.executions then db else
      var row := db.executions[e.id].(status := e.status, startedAt := e.startedAt,
                                      finishedAt := e.finishedAt, failureCode := e.failureCode);
      db.(executions := db.executions[e.id := row])
  }

  function SetStep(db: Db, s: ExecutionStep): Db {
    if s.id !in db.steps then db else
      var row := db.steps[s.id].(status := s.status, adapterId := s.adapterId, adapterInstance := s.adapterInstance,
                                 startedAt := s.startedAt, finishedAt := s.finishedAt,
                                 resultCode := s.resultCode, message := s.message);
      db.(steps := db.steps[s.id := row])
  }

  function ReleaseLocks(db: Db, executionId: Uuid): Db {
    db.(locks := map r | r in db.locks && db.locks[r] != executionId :: db.locks[r])
  }

  function AbortExecution(e: Execution, now: Timestamp): Execution {
    if e.status == Running
    then e.(status := Aborted, finishedAt := Some(now), failureCode := Some(DAEMON_RESTARTED))
    else e
  }

  function AbortExecutions(db: Db, now: Timestamp): Db {
    db.(executions := map id | id in db.executions :: AbortExecution(db.executions[id], now))
  }

  function AbortStep(db: Db, s: ExecutionStep, now: Timestamp): ExecutionStep {
    if !Finished(s.status) && s.executionId in db.executions && AbortedByRestart(db.executions[s.executionId])
    then s.(status := StepAborted, finishedAt := Some(now), resultCode := Some(DAEMON_RESTARTED),
            message := Some("execution aborted because daemon restarted"))
    else s
  }

  function AbortSteps(db: Db, now: Timestamp): Db {
    db.(steps := map id | id in db.steps :: AbortStep(db, db.steps[id], now))
  }

  function ClearLocks(db: Db): Db {
    db.(locks := map[])
  }

  // start_execution is one transaction: it inserts everything or nothing.

  predicate StepCollides(rows: map<Uuid, ExecutionStep>, s: ExecutionStep) {
    s.id in rows || exists id <- rows :: rows[id].executionId == s.executionId && rows[id].index == s.index
  }

  function InsertSteps(rows: map<Uuid, ExecutionStep>, steps: seq<ExecutionStep>): Option<map<Uuid, ExecutionStep>> {
    if steps == [] then Some(rows) else
      var last := steps[|steps| - 1];
      match InsertSteps(rows, steps[..|steps| - 1])
      case None => None
      case Some(m) => if StepCollides(m, last) then None else Some(m[last.id := last])
  }

  function StartExecution(db: Db, e: Execution, steps: seq<ExecutionStep>): Result<Db, StorageError> {
    if e.id in db.executions then Err(Sqlite)
    else if e.ritualId in db.locks then Err(RitualAlreadyRunning)
    else match InsertSteps(db.steps, steps)
      case None => Err(Sqlite)
      case Some(rows) => Ok(Db(db.executions[e.id := e], rows, db.locks[e.ritualId := e.id]))
  }

  /** A successful insert keeps every row and adds the given ones. */
  lemma {:induction false} InsertStepsKeeps(rows: map<Uuid, ExecutionStep>, steps: seq<ExecutionStep>)
    requires InsertSteps(rows, steps).Some?
    ensures var m := InsertSteps(rows, steps).value;
      && (forall id <- rows :: id in m && m[id] == rows[id])
      && (forall i :: 0 <= i < |steps| ==> steps[i].id in m && m[steps[i].id] == steps[i])
      && (forall id <- m :: id in rows || exists i :: 0 <= i < |steps| && steps[i].id == id)
  {
    if steps != [] {
      var init, last := steps[..|steps| - 1], steps[|steps| - 1];
      InsertStepsKeeps(rows, init);
      forall i | 0 <= i < |init| ensures steps[i] == init[i] {}
    }
  }

  /** What a successful insert of the steps does to the table. */
  lemma {:induction false} InsertStepsRows(rows: map<Uuid, ExecutionStep>, steps: seq<ExecutionStep>)
    requires InsertSteps(rows, steps).Some?
    ensures var m := InsertSteps(rows, steps).value;
      && (forall id :: id in m <==> id in rows || exists i :: 0 <= i < |steps| && steps[i].id == id)
      && (forall id <- rows :: m[id] == rows[id])
      && (forall i :: 0 <= i < |steps| ==> steps[i].id in m && m[steps[i].id] == steps[i])
      && (forall i :: 0 <= i < |steps| ==> steps[i].id !in rows)
      && (forall i, j :: 0 <= i < j < |steps| ==> steps[i].id != steps[j].id)
  {
    InsertStepsKeeps(rows, steps);
    if steps != [] {
      var init, last := steps[..|steps| - 1], steps[|steps| - 1];
      InsertStepsRows(rows, init);
      forall i | 0 <= i < |init| ensures steps[i].id != last.id && steps[i].id !in rows { assert init[i] == steps[i]; }
      forall i, j | 0 <= i < j < |init| ensures steps[i].id != steps[j].id { assert init[i].id != init[j].id; }
    }
  }

  // The statements a running execution issues, and what the executor believes the rows to be.

  datatype Stmt = WriteStep(step: ExecutionStep) | WriteExecution(execution: Execution) | DropLocks(executionId: Uuid)

  function Exec(db: Db, stmt: Stmt): Db {
    match stmt
    case WriteStep(s) => SetStep(db, s)
    case WriteExecution(e) => SetExecution(db, e)
    case DropLocks(id) => ReleaseLocks(db, id)
  }

  datatype RunPhase = Executing | Finalized | Released
  datatype RunView = RunView(execution: Execution, steps: seq<ExecutionStep>, phase: RunPhase)

  predicate SameStep(a: ExecutionStep, b: ExecutionStep) {
    a.id == b.id && a.executionId == b.executionId && a.index == b.index && a.actionType == b.actionType
  }

  predicate SameExecution(a: Execution, b: Execution) {
    a.id == b.id && a.ritualId == b.ritualId && a.versionId == b.versionId && a.createdAt == b.createdAt
  }

  predicate StepAdvances(from: StepStatus, to: StepStatus) {
    || (from == StepPending && (to == StepRunning || to == StepAborted))
    || (from == StepRunning && Finished(to))
  }

  predicate FinalStatus(status: ExecutionStatus) {
    status == Succeeded || status == Failed || status == Partial
  }

  /** The protocol of one run: steps only move forward, the execution is finalized only after its
      last step, and the lock is dropped only after that. */
  function RunNext(view: RunView, stmt: Stmt): Option<RunView> {
    match stmt
    case WriteStep(s) =>
      if && view.phase == Executing && s.index < |view.steps|
         && SameStep(view.steps[s.index], s) && StepAdvances(view.steps[s.index].status, s.status)
      then Some(view.(steps := view.steps[s.index := s])) else None
    case WriteExecution(e) =>
      if && view.phase == Executing && SameExecution(view.execution, e) && FinalStatus(e.status)
         && (forall s <- view.steps :: Finished(s.status))
      then Some(view.(execution := e, phase := Finalized)) else None
    case DropLocks(id) =>
      if view.phase == Finalized && id == view.execution.id then Some(view.(phase := Released)) else None
  }

  predicate FreshRun(e: Execution, steps: seq<ExecutionStep>) {
    && e.status == Running && e.finishedAt == None && e.failureCode == None
    && forall i :: 0 <= i < |steps| ==>
         steps[i].executionId == e.id && steps[i].index == i && steps[i].status == StepPending
  }

  /** Follows a list of statements through the protocol; None as soon as one is out of turn. */
  function Follow(view: RunView, stmts: seq<Stmt>): Option<RunView> {
    if stmts == [] then Some(view) else
      match Follow(view, stmts[..|stmts| - 1])
      case None => None
      case Some(v) => RunNext(v, stmts[|stmts| - 1])
  }

  function ExecAll(db: Db, stmts: seq<Stmt>): Db {
    if stmts == [] then db else Exec(ExecAll(db, stmts[..|stmts| - 1]), stmts[|stmts| - 1])
  }
}
