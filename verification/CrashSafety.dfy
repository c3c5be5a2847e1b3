/** The daemon as a step system over the history tables: any number of runs whose statements interleave,
    runs that stop half-way, and crashes between any two statements, also inside start-up recovery. */
module CrashSafety {
  import opened Wrappers
  import opened Domain
  import opened History

  datatype Phase = Recovering(done: nat) | Serving
  datatype Sys = Sys(db: Db, phase: Phase, runs: map<Uuid, RunView>)

  datatype Event =
    | Begin(execution: Execution, steps: seq<ExecutionStep>)  // the start_execution transaction
    | Issue(run: Uuid, stmt: Stmt)                            // a run's next statement commits
    | Halt(run: Uuid)                                         // a run gives up (an error in the executor)
    | Crash                                                   // the process dies
    | Recover(now: Timestamp)                                 // the next statement of start-up recovery

  /** An empty database; the daemon serves only after recovery has completed. */
  const START := Sys(EMPTY_DB, Recovering(0), map[])

  function RecoveryStmt(db: Db, done: nat, now: Timestamp): Db {
    if done == 0 then AbortExecutions(db, now) else if done == 1 then AbortSteps(db, now) else ClearLocks(db)
  }

  /** An event that is not possible in a state leaves it as it is. */
  function Step(s: Sys, ev: Event): Sys {
    match ev
    case Begin(e, steps) =>
      if s.phase != Serving || !FreshRun(e, steps) then s else (
        match StartExecution(s.db, e, steps)
        case Err(_) => s
        case Ok(db) => s.(db := db, runs := s.runs[e.id := RunView(e, steps, Executing)]))
    case Issue(run, stmt) =>
      if s.phase != Serving || run !in s.runs then s else (
        match RunNext(s.runs[run], stmt)
        case None => s
        case Some(view) => s.(db := Exec(s.db, stmt), runs := s.runs[run := view]))
    case Halt(run) => s.(runs := s.runs - {run})
    case Crash => Sys(s.db, Recovering(0), map[])
    case Recover(now) =>
      if s.phase == Serving then s else
        Sys(RecoveryStmt(s.db, s.phase.done, now),
            if s.phase.done < 2 then Recovering(s.phase.done + 1) else Serving, map[])
  }

  function Run(s: Sys, evs: seq<Event>): Sys {
    if evs == [] then s else Step(Run(s, evs[..|evs| - 1]), evs[|evs| - 1])
  }

  // The invariant, in parts.

  predicate KeysOk(db: Db) {
    && (forall id <- db.executions :: db.executions[id].id == id)
    && (forall id <- db.steps :: db.steps[id].id == id && db.steps[id].executionId in db.executions)
  }

  predicate LocksOk(db: Db) {
    forall r <- db.locks :: db.locks[r] in db.executions && db.executions[db.locks[r]].ritualId == r
  }

  predicate RunningLocked(db: Db) {
    forall id <- db.executions :: db.executions[id].status == Running ==>
      db.executions[id].ritualId in db.locks && db.locks[db.executions[id].ritualId] == id
  }

  predicate UnfinishedOwned(db: Db, phase: Phase) {
    forall id <- db.steps :: !Finished(db.steps[id].status) && db.steps[id].executionId in db.executions ==>
      var e := db.executions[db.steps[id].executionId];
      e.status == Running || (phase != Serving && AbortedByRestart(e))
  }

  predicate NoneRunning(db: Db) {
    forall id <- db.executions :: db.executions[id].status != Running
  }

  predicate AllStepsFinished(db: Db) {
    forall id <- db.steps :: Finished(db.steps[id].status)
  }

  predicate RecoveryProgress(s: Sys) {
    s.phase.Recovering? ==>
      && s.phase.done <= 2 && s.runs == map[]
      && (s.phase.done >= 1 ==> NoneRunning(s.db))
      && (s.phase.done >= 2 ==> AllStepsFinished(s.db))
  }

  /** What a run believes is what the tables hold. */
  predicate ViewOk(db: Db, run: Uuid, v: RunView) {
    && run in db.executions && db.executions[run] == v.execution
    && (v.phase == Executing ==> v.execution.status == Running)
    && (v.phase != Executing ==> FinalStatus(v.execution.status) && forall s <- v.steps :: Finished(s.status))
    && StepsOk(db, run, v.steps)
  }

  predicate StepsOk(db: Db, run: Uuid, steps: seq<ExecutionStep>) {
    && (forall i :: 0 <= i < |steps| ==>
          steps[i].index == i && steps[i].executionId == run && steps[i].id in db.steps
            && db.steps[steps[i].id] == steps[i])
    && (forall id <- db.steps :: db.steps[id].executionId == run ==>
          db.steps[id].index < |steps| && steps[db.steps[id].index].id == id)
  }

  predicate ViewsOk(s: Sys) {
    forall run <- s.runs :: ViewOk(s.db, run, s.runs[run])
  }

  predicate Inv(s: Sys) {
    && KeysOk(s.db) && LocksOk(s.db) && RunningLocked(s.db) && UnfinishedOwned(s.db, s.phase)
    && RecoveryProgress(s) && ViewsOk(s)
  }

  // Every event keeps the invariant.

  lemma BeginKeepsInv(s: Sys, e: Execution, steps: seq<ExecutionStep>)
    requires Inv(s)
    ensures Inv(Step(s, Begin(e, steps)))
  {
    var t := Step(s, Begin(e, steps));
    if t != s {
      InsertStepsRows(s.db.steps, steps);
      assert StepsOk(t.db, e.id, steps);
      forall run | run in t.runs ensures ViewOk(t.db, run, t.runs[run]) {
        if run != e.id { assert ViewOk(s.db, run, s.runs[run]); }
      }
    }
  }

  lemma WriteStepKeepsInv(s: Sys, run: Uuid, st: ExecutionStep)
    requires Inv(s)
    ensures Inv(Step(s, Issue(run, WriteStep(st))))
  {
    var t := Step(s, Issue(run, WriteStep(st)));
    if t != s {
      assert ViewOk(s.db, run, s.runs[run]);
      assert t.db == s.db.(steps := s.db.steps[st.id := st]);
      forall r | r in t.runs ensures ViewOk(t.db, r, t.runs[r]) {
        assert ViewOk(s.db, r, s.runs[r]);
        if r != run { OtherViewStays(s.db, run, r, s.runs[r], st); }
      }
    }
  }

  lemma OtherViewStays(db: Db, run: Uuid, r: Uuid, v: RunView, st: ExecutionStep)
    requires KeysOk(db) && ViewOk(db, r, v) && r != run
    requires st.executionId == run && st.id in db.steps && db.steps[st.id].executionId == run
    ensures ViewOk(db.(steps := db.steps[st.id := st]), r, v)
  {}

  lemma WriteExecutionKeepsInv(s: Sys, run: Uuid, e: Execution)
    requires Inv(s)
    ensures Inv(Step(s, Issue(run, WriteExecution(e))))
  {
    var t := Step(s, Issue(run, WriteExecution(e)));
    if t != s {
      assert ViewOk(s.db, run, s.runs[run]);
      assert t.db.executions == s.db.executions[run := e];
      forall r | r in t.runs ensures ViewOk(t.db, r, t.runs[r]) {
        assert ViewOk(s.db, r, s.runs[r]);
      }
    }
  }

  lemma DropLocksKeepsInv(s: Sys, run: Uuid, id: Uuid)
    requires Inv(s)
    ensures Inv(Step(s, Issue(run, DropLocks(id))))
  {
    var t := Step(s, Issue(run, DropLocks(id)));
    if t != s {
      assert ViewOk(s.db, run, s.runs[run]);
      forall r | r in t.runs ensures ViewOk(t.db, r, t.runs[r]) {
        assert ViewOk(s.db, r, s.runs[r]);
      }
    }
  }

  lemma RecoverKeepsInv(s: Sys, now: Timestamp)
    requires Inv(s)
    ensures Inv(Step(s, Recover(now)))
  {}

  lemma StepKeepsInv(s: Sys, ev: Event)
    requires Inv(s)
    ensures Inv(Step(s, ev))
  {
    match ev
    case Begin(e, steps) => BeginKeepsInv(s, e, steps);
    case Issue(run, WriteStep(st)) => WriteStepKeepsInv(s, run, st);
    case Issue(run, WriteExecution(e)) => WriteExecutionKeepsInv(s, run, e);
    case Issue(run, DropLocks(id)) => DropLocksKeepsInv(s, run, id);
    case Halt(run) =>
    case Crash =>
    case Recover(now) => RecoverKeepsInv(s, now);
  }

  lemma {:induction false} ReachableInv(evs: seq<Event>)
    ensures Inv(Run(START, evs))
  {
    if evs != [] {
      ReachableInv(evs[..|evs| - 1]);
      StepKeepsInv(Run(START, evs[..|evs| - 1]), evs[|evs| - 1]);
    }
  }

  // Mutual exclusion.

  /** In every reachable state a ritual has at most one Running execution, and that one holds the lock. */
  lemma AtMostOneRunning(evs: seq<Event>, a: Uuid, b: Uuid)
    requires var db := Run(START, evs).db;
      && a in db.executions && b in db.executions
      && db.executions[a].status == Running && db.executions[b].status == Running
      && db.executions[a].ritualId == db.executions[b].ritualId
    ensures a == b
  {
    ReachableInv(evs);
  }

  /** Finishing a run that is the lock's holder frees exactly that ritual, and the ritual can start again. */
  lemma FinishedRunFreesRitual(evs: seq<Event>, run: Uuid, e: Execution, next: Execution, steps: seq<ExecutionStep>)
    requires var s := Run(START, evs);
      && s.phase == Serving && run in s.runs && RunNext(s.runs[run], WriteExecution(e)).Some?
      && next.id !in s.db.executions && next.ritualId == e.ritualId && FreshRun(next, steps)
      && InsertSteps(s.db.steps, steps).Some?
    ensures var s := Run(START, evs);
      var t := Step(Step(s, Issue(run, WriteExecution(e))), Issue(run, DropLocks(run)));
      && t.db.locks == s.db.locks - {e.ritualId} && e.ritualId in s.db.locks
      && t.db.steps == s.db.steps && t.db.executions == s.db.executions[run := e]
      && next.id in Step(t, Begin(next, steps)).runs
      && StartExecution(s.db, next, steps) == Err(RitualAlreadyRunning)
  {
    var s := Run(START, evs);
    ReachableInv(evs);
    assert ViewOk(s.db, run, s.runs[run]);
    var t := Step(Step(s, Issue(run, WriteExecution(e))), Issue(run, DropLocks(run)));
    assert t.db.executions == s.db.executions[run := e];
    forall r | r in s.db.locks ensures s.db.locks[r] == run <==> r == e.ritualId {
    }
    assert t.db.locks == s.db.locks - {e.ritualId};
  }

  /** No row has the execution id of the new steps yet, and their indices are their positions. */
  predicate NewRun(rows: map<Uuid, ExecutionStep>, run: Uuid, steps: seq<ExecutionStep>) {
    && (forall id <- rows :: rows[id].executionId != run)
    && (forall i :: 0 <= i < |steps| ==> steps[i].executionId == run && steps[i].index == i)
  }

  /** For a new run the insert of the steps can only fail on a step id that is taken. */
  lemma {:induction false} InsertStepsIff(rows: map<Uuid, ExecutionStep>, run: Uuid, steps: seq<ExecutionStep>)
    requires NewRun(rows, run, steps)
    ensures InsertSteps(rows, steps).Some? <==>
      && (forall i :: 0 <= i < |steps| ==> steps[i].id !in rows)
      && (forall i, j :: 0 <= i < j < |steps| ==> steps[i].id != steps[j].id)
  {
    if InsertSteps(rows, steps).Some? {
      InsertStepsRows(rows, steps);
    } else {
      var init, last := steps[..|steps| - 1], steps[|steps| - 1];
      InsertStepsIff(rows, run, init);
      if InsertSteps(rows, init).Some? {
        LastCollides(rows, run, steps);
      } else if exists i :: 0 <= i < |init| && init[i].id in rows {
        var i :| 0 <= i < |init| && init[i].id in rows;
        assert steps[i].id in rows;
      } else {
        var i, j :| 0 <= i < j < |init| && init[i].id == init[j].id;
        assert steps[i].id == steps[j].id;
      }
    }
  }

  lemma LastCollides(rows: map<Uuid, ExecutionStep>, run: Uuid, steps: seq<ExecutionStep>)
    requires NewRun(rows, run, steps) && steps != [] && InsertSteps(rows, steps[..|steps| - 1]).Some?
    requires InsertSteps(rows, steps) == None
    ensures steps[|steps| - 1].id in rows || exists i :: 0 <= i < |steps| - 1 && steps[i].id == steps[|steps| - 1].id
  {
    var init, last := steps[..|steps| - 1], steps[|steps| - 1];
    InsertStepsRows(rows, init);
  }

  /** A run starts exactly if the daemon serves, its execution is Running and its steps are pending and in order, its
      ritual is not locked, and all its ids are new; then exactly its rows and its lock are there too. */
  lemma RunStartsIff(evs: seq<Event>, e: Execution, steps: seq<ExecutionStep>)
    ensures var s := Run(START, evs); var t := Step(s, Begin(e, steps));
      var starts :=
        && s.phase == Serving && e.status == Running && e.finishedAt == None && e.failureCode == None
        && e.id !in s.db.executions && e.ritualId !in s.db.locks
        && (forall i :: 0 <= i < |steps| ==>
              && steps[i].executionId == e.id && steps[i].index == i && steps[i].status == StepPending
              && steps[i].id !in s.db.steps)
        && (forall i, j :: 0 <= i < j < |steps| ==> steps[i].id != steps[j].id);
      && (!starts ==> t == s)
      && (starts ==>
            && t.db.executions == s.db.executions[e.id := e] && t.db.locks == s.db.locks[e.ritualId := e.id]
            && t.runs == s.runs[e.id := RunView(e, steps, Executing)]
            && (forall i :: 0 <= i < |steps| ==> steps[i].id in t.db.steps && t.db.steps[steps[i].id] == steps[i])
            && (forall id <- s.db.steps :: id in t.db.steps && t.db.steps[id] == s.db.steps[id])
            && (forall id <- t.db.steps :: id in s.db.steps || exists i :: 0 <= i < |steps| && steps[i].id == id))
  {
    ReachableInv(evs);
    var s := Run(START, evs);
    if s.phase == Serving && FreshRun(e, steps) && e.id !in s.db.executions {
      assert NewRun(s.db.steps, e.id, steps);
      InsertStepsIff(s.db.steps, e.id, steps);
      if InsertSteps(s.db.steps, steps).Some? { InsertStepsRows(s.db.steps, steps); }
    }
  }

  /** Nobody is finishing this execution: it is Running and holds its ritual's lock, and no run is in flight for it. */
  predicate Abandoned(s: Sys, run: Uuid, ritual: Uuid) {
    && run in s.db.executions && s.db.executions[run].status == Running && s.db.executions[run].ritualId == ritual
    && ritual in s.db.locks && s.db.locks[ritual] == run && run !in s.runs
  }

  lemma AbandonedStays(s: Sys, ev: Event, run: Uuid, ritual: Uuid)
    requires Inv(s) && s.phase == Serving && Abandoned(s, run, ritual) && !ev.Crash?
    ensures Step(s, ev).phase == Serving && Abandoned(Step(s, ev), run, ritual)
  {
    match ev
    case Issue(r, stmt) =>
      if Step(s, ev) != s { assert ViewOk(s.db, r, s.runs[r]); }
    case _ =>
  }

  /** A run that gives up leaves its execution Running and its ritual locked until the daemon crashes and recovers: no
      later event short of that ends it, and no other run of the ritual can start. */
  lemma {:induction false} GivenUpRunBlocksRitual(evs: seq<Event>, run: Uuid, after: seq<Event>)
    requires var s := Run(START, evs); s.phase == Serving && run in s.runs && s.runs[run].phase == Executing
    requires forall ev <- after :: !ev.Crash?
    ensures var s := Run(START, evs); var t := Run(Step(s, Halt(run)), after);
      && run in s.db.executions && t.phase == Serving && Abandoned(t, run, s.db.executions[run].ritualId)
      && forall e: Execution, steps | e.ritualId == s.db.executions[run].ritualId && e.id !in t.db.executions ::
        StartExecution(t.db, e, steps) == Err(RitualAlreadyRunning)
  {
    var s := Run(START, evs);
    ReachableInv(evs);
    assert ViewOk(s.db, run, s.runs[run]);
    if after != [] {
      var init, last := after[..|after| - 1], after[|after| - 1];
      assert last in after && forall ev <- init :: ev in after;
      GivenUpRunBlocksRitual(evs, run, init);
      RunAppend(START, evs, [Halt(run)]);
      assert (evs + [Halt(run)])[..|evs|] == evs;
      RunAppend(START, evs + [Halt(run)], init);
      ReachableInv(evs + [Halt(run)] + init);
      AbandonedStays(Run(Step(s, Halt(run)), init), last, run, s.db.executions[run].ritualId);
    }
  }

  // History is append-only once it is finished.

  lemma StepKeepsFinished(s: Sys, ev: Event, id: Uuid)
    requires Inv(s) && id in s.db.steps && Finished(s.db.steps[id].status)
    ensures id in Step(s, ev).db.steps && Step(s, ev).db.steps[id] == s.db.steps[id]
  {
    match ev
    case Begin(e, steps) =>
      if Step(s, ev) != s { InsertStepsRows(s.db.steps, steps); }
    case Issue(run, stmt) =>
      if Step(s, ev) != s { assert ViewOk(s.db, run, s.runs[run]); }
    case _ =>
  }

  lemma StepKeepsEnded(s: Sys, ev: Event, id: Uuid)
    requires Inv(s) && id in s.db.executions && s.db.executions[id].status != Running
    ensures id in Step(s, ev).db.executions && Step(s, ev).db.executions[id] == s.db.executions[id]
  {
    match ev
    case Issue(run, stmt) =>
      if Step(s, ev) != s { assert ViewOk(s.db, run, s.runs[run]); }
    case _ =>
  }

  /** A finished step and an ended execution are never changed again: not by its own run, not by another run,
      not by a crash and not by recovery. */
  lemma {:induction false} FinishedForever(before: seq<Event>, after: seq<Event>)
    ensures var s, t := Run(START, before), Run(Run(START, before), after);
      && (forall id <- s.db.steps :: Finished(s.db.steps[id].status) ==>
            id in t.db.steps && t.db.steps[id] == s.db.steps[id])
      && (forall id <- s.db.executions :: s.db.executions[id].status != Running ==>
            id in t.db.executions && t.db.executions[id] == s.db.executions[id])
  {
    if after != [] {
      var init := after[..|after| - 1];
      var s, u := Run(START, before), Run(Run(START, before), init);
      FinishedForever(before, init);
      RunAppend(START, before, init);
      ReachableInv(before + init);
      forall id | id in s.db.steps && Finished(s.db.steps[id].status)
        ensures id in Step(u, after[|after| - 1]).db.steps && Step(u, after[|after| - 1]).db.steps[id] == s.db.steps[id]
      {
        StepKeepsFinished(u, after[|after| - 1], id);
      }
      forall id | id in s.db.executions && s.db.executions[id].status != Running
        ensures id in Step(u, after[|after| - 1]).db.executions
        ensures Step(u, after[|after| - 1]).db.executions[id] == s.db.executions[id]
      {
        StepKeepsEnded(u, after[|after| - 1], id);
      }
    }
  }

  lemma {:induction false} RunAppend(s: Sys, a: seq<Event>, b: seq<Event>)
    ensures Run(s, a + b) == Run(Run(s, a), b)
  {
    hide Step;
    if b == [] {
      assert a + b == a;
    } else {
      RunAppend(s, a, b[..|b| - 1]);
      assert (a + b)[..|a + b| - 1] == a + b[..|b| - 1];
    }
  }

  // Recovery.

  predicate Clean(db: Db) {
    && (forall id <- db.executions :: db.executions[id].status != Running)
    && (forall id <- db.steps :: db.steps[id].status in {StepSucceeded, StepSkipped, StepFailed, StepAborted})
    && db.locks == map[]
  }

  lemma LastRecoveryStepCleans(s: Sys, ev: Event)
    requires Inv(s) && s.phase != Serving && Step(s, ev).phase == Serving
    ensures Clean(Step(s, ev).db) && Step(s, ev).runs == map[]
  {}

  /** Whenever start-up recovery completes, after any number of crashes at any statement boundary (also inside
      recovery), nothing is Running, no lock is held and no step of any execution is unfinished. */
  lemma CompletedRecoveryIsClean(evs: seq<Event>)
    requires |evs| > 0
    requires Run(START, evs[..|evs| - 1]).phase != Serving && Run(START, evs).phase == Serving
    ensures Clean(Run(START, evs).db) && Run(START, evs).runs == map[]
  {
    var s := Run(START, evs[..|evs| - 1]);
    ReachableInv(evs[..|evs| - 1]);
    LastRecoveryStepCleans(s, evs[|evs| - 1]);
  }

  /** Recovery as start_server runs it, from a database cut anywhere. */
  function RecoverAll(db: Db, now: Timestamp): Db {
    ClearLocks(AbortSteps(AbortExecutions(db, now), now))
  }

  /** Recovery changes only what a crash can leave behind, running executions and their unfinished steps, and of these
      only the columns that say how and when they ended. */
  predicate OnlyLeftoversAborted(db: Db, r: Db, now: Timestamp) {
    && r.executions.Keys == db.executions.Keys && r.steps.Keys == db.steps.Keys
    && (forall id <- db.executions :: db.executions[id].status != Running ==> r.executions[id] == db.executions[id])
    && (forall id <- db.executions :: db.executions[id].status == Running ==>
          r.executions[id] == db.executions[id].(status := Aborted, finishedAt := Some(now),
                                                 failureCode := Some("daemon_restarted")))
    && (forall id <- db.steps :: Finished(db.steps[id].status) ==> r.steps[id] == db.steps[id])
    && (forall id <- db.steps :: !Finished(db.steps[id].status) ==>
          r.steps[id] == db.steps[id].(status := StepAborted, finishedAt := Some(now),
                                       resultCode := Some("daemon_restarted"),
                                       message := Some("execution aborted because daemon restarted")))
  }

  lemma RecoverAllCleans(db: Db, phase: Phase, now: Timestamp)
    requires KeysOk(db) && UnfinishedOwned(db, phase)
    ensures Clean(RecoverAll(db, now)) && OnlyLeftoversAborted(db, RecoverAll(db, now), now)
  {
    AbortSettlesSteps(db, phase, now);
  }

  /** After the first statement every unfinished step is one the second statement looks for. */
  lemma AbortSettlesSteps(db: Db, phase: Phase, now: Timestamp)
    requires KeysOk(db) && UnfinishedOwned(db, phase)
    ensures AllStepsFinished(AbortSteps(AbortExecutions(db, now), now))
  {}

  lemma CleanIsFixed(db: Db, now: Timestamp)
    requires NoneRunning(db) && AllStepsFinished(db)
    ensures AbortExecutions(db, now) == db && AbortSteps(db, now) == db
  {
    assert AbortExecutions(db, now).executions == db.executions;
    assert AbortSteps(db, now).steps == db.steps;
  }

  /** The same tables, except that steps which were unfinished in db were closed at another time. */
  predicate SameButClosingTime(db: Db, a: Db, b: Db) {
    && b.executions == a.executions && b.locks == a.locks && b.steps.Keys == a.steps.Keys
    && forall id <- a.steps ::
      b.steps[id] == if id in db.steps && !Finished(db.steps[id].status)
                     then a.steps[id].(finishedAt := b.steps[id].finishedAt) else a.steps[id]
  }

  lemma CutAfterExecutions(db: Db, phase: Phase, now: Timestamp, later: Timestamp)
    requires KeysOk(db) && UnfinishedOwned(db, phase)
    ensures SameButClosingTime(db, RecoverAll(db, now), RecoverAll(AbortExecutions(db, now), later))
  {
    var d1 := AbortExecutions(db, now);
    assert AbortExecutions(d1, later).executions == d1.executions;
    AbortSettlesSteps(db, phase, now);
    AbortSettlesSteps(db, phase, later);
  }

  /** A crash at any time leads to recovery; three statements later the daemon serves again with nothing in flight. */
  lemma CrashedDaemonServesAgain(evs: seq<Event>, now: Timestamp)
    ensures var s := Run(START, evs);
      Step(Step(Step(Step(s, Crash), Recover(now)), Recover(now)), Recover(now))
        == Sys(RecoverAll(s.db, now), Serving, map[])
  {}

  /** From a database cut anywhere, recovery aborts exactly the leftovers; running it again, later, changes nothing;
      and a recovery that was itself cut after a statement and is run again later ends in the same tables, but for the
      closing time of steps it had not yet closed. */
  lemma RecoveryTouchesOnlyLeftovers(evs: seq<Event>, now: Timestamp, later: Timestamp)
    ensures var db := Run(START, evs).db; var r := RecoverAll(db, now);
      && Clean(r) && OnlyLeftoversAborted(db, r, now)
      && RecoverAll(r, later) == r
      && SameButClosingTime(db, r, RecoverAll(AbortExecutions(db, now), later))
      && RecoverAll(AbortSteps(AbortExecutions(db, now), now), later) == r
  {
    ReachableInv(evs);
    var db, phase := Run(START, evs).db, Run(START, evs).phase;
    RecoverAllCleans(db, phase, now);
    CleanIsFixed(RecoverAll(db, now), later);
    CutAfterExecutions(db, phase, now, later);
    CleanIsFixed(AbortSteps(AbortExecutions(db, now), now), later);
  }
}
