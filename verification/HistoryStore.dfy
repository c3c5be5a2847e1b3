/** The single-writer store: the operations of crates/fubun-storage on the history tables, statement by statement.
    A call into SQLite may fail; `faults` says which ones do. */
module HistoryStore {
  import opened Wrappers
  import opened Domain
  import opened History
  import opened CrashSafety

  class Store {
    var executions: map<Uuid, Execution>
    var steps: map<Uuid, ExecutionStep>
    var locks: map<Uuid, Uuid>
    const faults: nat -> bool
    var calls: nat

    constructor (faults: nat -> bool)
      ensures Tables() == EMPTY_DB && calls == 0 && this.faults == faults
    {
      executions, steps, locks, calls := map[], map[], map[], 0;
      this.faults := faults;
    }

    function Tables(): Db
      reads this
    {
      Db(executions, steps, locks)
    }

    /** One transaction: on success all rows are there, otherwise every table is as it was. */
    method StartExecution(e: Execution, newSteps: seq<ExecutionStep>) returns (r: Result<(), StorageError>)
      modifies this
      ensures calls == old(calls) + 1
      ensures old(faults(calls)) ==> r == Err(Sqlite)
      ensures !old(faults(calls)) ==>
        match History.StartExecution(old(Tables()), e, newSteps)
        case Ok(db) => r == Ok(()) && Tables() == db
        case Err(error) => r == Err(error)
      ensures r.Err? ==> Tables() == old(Tables())
    {
      var fault := faults(calls);
      calls := calls + 1;
      if fault || e.id in executions { return Err(Sqlite); }
      if e.ritualId in locks { return Err(RitualAlreadyRunning); }
      var rows := steps;
      for i := 0 to |newSteps|
        invariant Tables() == old(Tables())
        invariant InsertSteps(steps, newSteps[..i]) == Some(rows)
      {
        assert newSteps[..i + 1][..i] == newSteps[..i];
        if StepCollides(rows, newSteps[i]) {
          InsertStepsStopsEarly(steps, newSteps, i + 1);
          return Err(Sqlite);
        }
        rows := rows[newSteps[i].id := newSteps[i]];
      }
      assert newSteps[..|newSteps|] == newSteps;
      executions, steps, locks := executions[e.id := e], rows, locks[e.ritualId := e.id];
      return Ok(());
    }

    method UpdateStep(s: ExecutionStep) returns (r: Result<(), StorageError>)
      modifies this
      ensures calls == old(calls) + 1
      ensures r.Ok? <==> !old(faults(calls)) && s.id in old(steps)
      ensures r.Ok? ==> Tables() == SetStep(old(Tables()), s)
      ensures r.Err? ==> Tables() == old(Tables()) && r.error == if old(faults(calls)) then Sqlite else NotFound
    {
      var fault := faults(calls);
      calls := calls + 1;
      if fault { return Err(Sqlite); }
      if s.id !in steps { return Err(NotFound); }
      steps := steps[s.id := steps[s.id].(
        status := s.status, adapterId := s.adapterId, adapterInstance := s.adapterInstance, startedAt := s.startedAt,
        finishedAt := s.finishedAt, resultCode := s.resultCode, message := s.message)];
      return Ok(());
    }

    /** Two statements that commit separately, so a failure can leave the row written and the lock held. */
    method UpdateExecution(e: Execution) returns (r: Result<(), StorageError>)
      modifies this
      ensures old(calls) < calls <= old(calls) + 2
      ensures r.Err? && e.id in old(executions) ==> faults(calls - 1)
      ensures e.status != Running ==>
        (r.Ok? <==> !old(faults(calls)) && e.id in old(executions) && !old(faults(calls + 1)))
      ensures r.Ok? ==>
        Tables() == if e.status == Running then SetExecution(old(Tables()), e)
                    else ReleaseLocks(SetExecution(old(Tables()), e), e.id)
      ensures e.status == Running ==> (r.Ok? <==> !old(faults(calls)) && e.id in old(executions))
      ensures r.Err? ==>
        && r.error == (if faults(calls - 1) then Sqlite else NotFound)
        && Tables() == if old(faults(calls)) || e.id !in old(executions) then old(Tables())
                       else SetExecution(old(Tables()), e)
    {
      var fault := faults(calls);
      calls := calls + 1;
      if fault { return Err(Sqlite); }
      if e.id !in executions { return Err(NotFound); }
      executions := executions[e.id := executions[e.id].(
        status := e.status, startedAt := e.startedAt, finishedAt := e.finishedAt, failureCode := e.failureCode)];
      if e.status != Running {
        fault := faults(calls);
        calls := calls + 1;
        if fault { return Err(Sqlite); }
        locks := map ritual | ritual in locks && locks[ritual] != e.id :: locks[ritual];
      }
      return Ok(());
    }

    /** Start-up recovery: three statements that commit separately. */
    method AbortRunningExecutions(now: Timestamp) returns (r: Result<(), StorageError>)
      modifies this
      ensures r.Ok? <==> !old(faults(calls)) && !old(faults(calls + 1)) && !old(faults(calls + 2))
      ensures r.Ok? ==> Tables() == RecoverAll(old(Tables()), now)
      ensures r.Err? ==>
        && r.error == Sqlite
        && Tables() == if old(faults(calls)) then old(Tables())
                       else if old(faults(calls + 1)) then AbortExecutions(old(Tables()), now)
                       else AbortSteps(AbortExecutions(old(Tables()), now), now)
    {
      var fault := faults(calls);
      calls := calls + 1;
      if fault { return Err(Sqlite); }
      executions := map id | id in executions :: AbortExecution(executions[id], now);
      fault := faults(calls);
      calls := calls + 1;
      if fault { return Err(Sqlite); }
      steps := map id | id in steps :: AbortStep(Tables(), steps[id], now);
      fault := faults(calls);
      calls := calls + 1;
      if fault { return Err(Sqlite); }
      locks := map[];
      return Ok(());
    }
  }

  lemma {:induction false} InsertStepsStopsEarly(rows: map<Uuid, ExecutionStep>, steps: seq<ExecutionStep>, n: nat)
    requires n <= |steps| && InsertSteps(rows, steps[..n]) == None
    ensures InsertSteps(rows, steps) == None
  {
    if n == |steps| {
      assert steps[..n] == steps;
    } else {
      var init := steps[..|steps| - 1];
      assert init[..n] == steps[..n];
      InsertStepsStopsEarly(rows, init, n);
    }
  }

  // get_execution.

  ghost function LeastRow(rows: set<ExecutionStep>): (first: ExecutionStep)
    requires rows != {}
    ensures first in rows && forall s <- rows :: first.index <= s.index
  {
    LeastIndexExists(rows);
    var first :| first in rows && forall s <- rows :: first.index <= s.index;
    first
  }

  lemma {:induction false} LeastIndexExists(rows: set<ExecutionStep>)
    requires rows != {}
    ensures exists first <- rows :: forall s <- rows :: first.index <= s.index
  {
    var x :| x in rows;
    var others := rows - {x};
    if others == {} {
      assert rows == {x};
    } else {
      LeastIndexExists(others);
      var first :| first in others && forall s <- others :: first.index <= s.index;
      var least := if x.index <= first.index then x else first;
      assert forall s <- rows :: s == x || s in others;
      assert least in rows && forall s <- rows :: least.index <= s.index;
    }
  }

  /** The rows of one execution in step_index order, as SELECT ... ORDER BY step_index returns them. */
  ghost function OrderedByIndex(rows: set<ExecutionStep>): seq<ExecutionStep> {
    if rows == {} then [] else [LeastRow(rows)] + OrderedByIndex(rows - {LeastRow(rows)})
  }

  function RowsOf(db: Db, id: Uuid): set<ExecutionStep> {
    set k | k in db.steps && db.steps[k].executionId == id :: db.steps[k]
  }

  ghost function GetExecution(db: Db, id: Uuid): Result<(Execution, seq<ExecutionStep>), StorageError> {
    if id !in db.executions then Err(NotFound) else Ok((db.executions[id], OrderedByIndex(RowsOf(db, id))))
  }

  lemma RestOfRows(steps: seq<ExecutionStep>)
    requires steps != []
    requires forall i, j :: 0 <= i < j < |steps| ==> steps[i].index < steps[j].index
    ensures (set s | s in steps) - {steps[0]} == (set s | s in steps[1..])
  {
    var rest := steps[1..];
    forall s | s in steps && s != steps[0] ensures s in rest {
      var i :| 0 <= i < |steps| && steps[i] == s;
      assert rest[i - 1] == s;
    }
    forall s | s in rest ensures s in steps && s != steps[0] {
      var i :| 0 <= i < |rest| && rest[i] == s;
      assert steps[i + 1] == s;
    }
  }

  lemma {:induction false} OrderedByIndexIsSorted(rows: set<ExecutionStep>, steps: seq<ExecutionStep>)
    requires rows == (set s | s in steps)
    requires forall i, j :: 0 <= i < j < |steps| ==> steps[i].index < steps[j].index
    ensures OrderedByIndex(rows) == steps
  {
    if steps == [] {
      assert rows == {};
    } else {
      assert steps[0] in rows;
      var first := LeastRow(rows);
      assert first == steps[0];
      RestOfRows(steps);
      OrderedByIndexIsSorted(rows - {first}, steps[1..]);
      assert steps == [first] + steps[1..];
    }
  }

  /** Whenever what a run believes agrees with the tables, reading the execution back gives exactly that. */
  lemma ViewIsReadBack(db: Db, run: Uuid, v: RunView)
    requires ViewOk(db, run, v)
    ensures GetExecution(db, run) == Ok((v.execution, v.steps))
  {
    var rows := RowsOf(db, run);
    forall s ensures s in rows <==> s in v.steps {
      if s in v.steps {
        var i :| 0 <= i < |v.steps| && v.steps[i] == s;
        assert db.steps[s.id] == s;
      }
      if s in rows {
        var k :| k in db.steps && db.steps[k].executionId == run && db.steps[k] == s;
        assert v.steps[s.index].id == k;
      }
    }
    assert rows == (set s | s in v.steps);
    OrderedByIndexIsSorted(rows, v.steps);
  }

  /** Write-through in every interleaving: in each reachable state, reading back a run that is in flight gives its
      own view of the execution and of its steps in index order. */
  lemma ReadBackInEveryInterleaving(evs: seq<CrashSafety.Event>, run: Uuid)
    requires run in Run(START, evs).runs
    ensures var s := Run(START, evs);
      GetExecution(s.db, run) == Ok((s.runs[run].execution, s.runs[run].steps))
  {
    ReachableInv(evs);
    ViewIsReadBack(Run(START, evs).db, run, Run(START, evs).runs[run]);
  }

  /** A finalized execution reads back the same for ever, across other runs, crashes and recoveries. */
  lemma FinalizedReadsBackForever(evs: seq<CrashSafety.Event>, after: seq<CrashSafety.Event>, run: Uuid)
    requires var s := Run(START, evs); run in s.runs && s.runs[run].phase != Executing
    ensures var s := Run(START, evs);
      GetExecution(Run(s, after).db, run) == Ok((s.runs[run].execution, s.runs[run].steps))
  {
    var s := Run(START, evs);
    var v, t := s.runs[run], Run(s, after);
    ReachableInv(evs);
    FinishedForever(evs, after);
    assert ViewOk(s.db, run, v);
    NoLateSteps(evs, after, run);
    assert StepsOk(t.db, run, v.steps);
    ViewIsReadBack(t.db, run, v);
  }

  lemma {:induction false} NoLateSteps(evs: seq<CrashSafety.Event>, after: seq<CrashSafety.Event>, run: Uuid)
    requires run in Run(START, evs).db.executions
    ensures var s, t := Run(START, evs), Run(Run(START, evs), after);
      && run in t.db.executions
      && forall id <- t.db.steps :: t.db.steps[id].executionId == run ==>
        id in s.db.steps && s.db.steps[id].executionId == run && s.db.steps[id].index == t.db.steps[id].index
  {
    if after != [] {
      var init := after[..|after| - 1];
      NoLateSteps(evs, init, run);
      RunAppend(START, evs, init);
      ReachableInv(evs + init);
      NoLateStep(Run(START, evs + init), after[|after| - 1], run);
    }
  }

  lemma NoLateStep(s: Sys, ev: CrashSafety.Event, run: Uuid)
    requires Inv(s) && run in s.db.executions
    ensures run in Step(s, ev).db.executions
    ensures forall id <- Step(s, ev).db.steps :: Step(s, ev).db.steps[id].executionId == run ==>
        id in s.db.steps && s.db.steps[id].executionId == run && s.db.steps[id].index == Step(s, ev).db.steps[id].index
  {
    match ev
    case Begin(e, steps) =>
      if Step(s, ev) != s { InsertStepsRows(s.db.steps, steps); }
    case Issue(r, stmt) =>
      if Step(s, ev) != s { assert ViewOk(s.db, r, s.runs[r]); }
    case _ =>
  }
}
