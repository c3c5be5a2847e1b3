/** Approval safety: what is known about every execution that starts, in every interleaving of the ritual handlers. */
module Approvals {
  import opened Wrappers
  import opened Domain
  import opened Versions

  predicate ActiveWith(t: Tables, ritual: Uuid, version: Uuid) {
    ritual in t.rituals && t.rituals[ritual].status == Active && t.rituals[ritual].currentVersionId == version
  }

  /** Event n of the run is the load of this process, a run request for the ritual, and the ritual is Active with this
      version current at that moment. */
  predicate LoadedAt(evs: seq<Event>, hash: RitualDefinition -> string, pid: nat, ritual: Uuid, version: Uuid, n: nat)
    requires n < |evs|
  {
    && evs[n].Load? && evs[n].pid == pid
    && var s := Run(START, evs[..n], hash);
      pid in s.procs && s.procs[pid] == Launching(ritual) && ActiveWith(s.t, ritual, version)
  }

  ghost predicate LoadedWhileActive(evs: seq<Event>, hash: RitualDefinition -> string, pid: nat, ritual: Uuid,
                                    version: Uuid)
  {
    exists n :: 0 <= n < |evs| && LoadedAt(evs, hash, pid, ritual, version, n)
  }

  /** Event n of the run is the commit of an activation (only an approving activate gets that far) that had loaded the
      approved version, and this approval is one of its new rows. */
  predicate ApprovedAt(evs: seq<Event>, hash: RitualDefinition -> string, a: Approval, n: nat)
    requires n < |evs|
  {
    && evs[n].Approve?
    && var s, u := Run(START, evs[..n], hash), Run(START, evs[..n + 1], hash);
      && evs[n].pid in s.procs && s.procs[evs[n].pid].ActivateLoaded?
      && s.procs[evs[n].pid].version.id == a.versionId && s.procs[evs[n].pid].version.contentHash == a.contentHash
      && a.id !in s.t.approvals && a.id in u.t.approvals && u.t.approvals[a.id] == a
  }

  ghost predicate ApprovedInRun(evs: seq<Event>, hash: RitualDefinition -> string, a: Approval) {
    exists n :: 0 <= n < |evs| && ApprovedAt(evs, hash, a, n)
  }

  /** What holds for one process at the end of a run. */
  ghost predicate LaunchOk(evs: seq<Event>, hash: RitualDefinition -> string, pid: nat, proc: Proc) {
    var t := Run(START, evs, hash).t;
    match proc
    case ActivateApproved(_, v) => AllApproved(t.approvals.Values, v)
    case LaunchLoaded(r, v) => LoadedWhileActive(evs, hash, pid, r, v.id)
    case LaunchListed(r, v, _) => LoadedWhileActive(evs, hash, pid, r, v.id)
    case Started(r, v) => LoadedWhileActive(evs, hash, pid, r, v.id) && AllApproved(t.approvals.Values, v)
    case _ => true
  }

  lemma LoadedStays(init: seq<Event>, ev: Event, hash: RitualDefinition -> string, pid: nat, ritual: Uuid,
                    version: Uuid)
    requires LoadedWhileActive(init, hash, pid, ritual, version)
    ensures LoadedWhileActive(init + [ev], hash, pid, ritual, version)
  {
    var n :| 0 <= n < |init| && LoadedAt(init, hash, pid, ritual, version, n);
    assert (init + [ev])[..n] == init[..n];
    assert LoadedAt(init + [ev], hash, pid, ritual, version, n);
  }

  lemma ApprovedInRunStays(init: seq<Event>, ev: Event, hash: RitualDefinition -> string, a: Approval)
    requires ApprovedInRun(init, hash, a)
    ensures ApprovedInRun(init + [ev], hash, a)
  {
    var n :| 0 <= n < |init| && ApprovedAt(init, hash, a, n);
    assert (init + [ev])[..n] == init[..n] && (init + [ev])[..n + 1] == init[..n + 1];
    assert ApprovedAt(init + [ev], hash, a, n);
  }

  lemma AllApprovedGrows(t: Tables, u: Tables, approvals: set<Approval>, v: RitualVersion)
    requires Grows(t, u) && approvals <= t.approvals.Values && AllApproved(approvals, v)
    ensures AllApproved(u.approvals.Values, v)
  {
    forall action | action in v.definition.actions ensures exists a <- u.approvals.Values :: Matches(a, v, action) {
      var a :| a in approvals && Matches(a, v, action);
      var k :| k in t.approvals && t.approvals[k] == a;
      assert k in u.approvals && u.approvals[k] == a;
      assert a in u.approvals.Values;
    }
  }

  lemma NewApprovalsCover(t: Tables, u: Tables, v: RitualVersion, ids: seq<Uuid>)
    requires |ids| == |v.definition.actions| && InsertApprovals(t, ApprovalsFor(v, ids)) == Ok(u)
    ensures AllApproved(u.approvals.Values, v)
  {
    var rows := ApprovalsFor(v, ids);
    InsertApprovalsRows(t, rows);
    forall action | action in v.definition.actions ensures exists a <- u.approvals.Values :: Matches(a, v, action) {
      var i :| 0 <= i < |ids| && v.definition.actions[i] == action;
      assert rows[i].id in u.approvals && u.approvals[rows[i].id] == rows[i];
      assert rows[i] in u.approvals.Values && Matches(rows[i], v, action);
    }
  }

  /** A process keeps what is known about it while others run. */
  lemma LaunchOkStays(init: seq<Event>, ev: Event, hash: RitualDefinition -> string, pid: nat, proc: Proc)
    requires LaunchOk(init, hash, pid, proc)
    ensures LaunchOk(init + [ev], hash, pid, proc)
  {
    assert (init + [ev])[..|init|] == init;
    var s, u := Run(START, init, hash), Run(START, init + [ev], hash);
    StepGrows(s, ev, hash);
    match proc
    case ActivateApproved(_, v) => AllApprovedGrows(s.t, u.t, s.t.approvals.Values, v);
    case LaunchLoaded(r, v) => LoadedStays(init, ev, hash, pid, r, v.id);
    case LaunchListed(r, v, _) => LoadedStays(init, ev, hash, pid, r, v.id);
    case Started(r, v) =>
      LoadedStays(init, ev, hash, pid, r, v.id);
      AllApprovedGrows(s.t, u.t, s.t.approvals.Values, v);
    case _ =>
  }

  /** A process gains what is known about it when it advances. */
  lemma LaunchOkGained(init: seq<Event>, ev: Event, hash: RitualDefinition -> string, pid: nat)
    requires pid in Run(START, init, hash).procs && LaunchOk(init, hash, pid, Run(START, init, hash).procs[pid])
    requires Remembered(Run(START, init, hash).t, Run(START, init, hash).procs[pid])
    requires VersionRowsOk(Run(START, init, hash).t)
    requires ev.pid == pid
    ensures pid in Step(Run(START, init, hash), ev, hash).procs
    ensures LaunchOk(init + [ev], hash, pid, Step(Run(START, init, hash), ev, hash).procs[pid])
  {
    assert (init + [ev])[..|init|] == init;
    var s := Run(START, init, hash);
    var u := Step(s, ev, hash);
    match u.procs[pid]
    case ActivateApproved(_, v) =>
      if s.procs[pid].ActivateLoaded? {
        NewApprovalsCover(s.t, u.t, v, ev.ids);
      } else {
        LaunchOkStays(init, ev, hash, pid, u.procs[pid]);
      }
    case LaunchLoaded(r, v) =>
      if s.procs[pid].Launching? {
        assert LoadedAt(init + [ev], hash, pid, r, v.id, |init|);
      } else {
        LaunchOkStays(init, ev, hash, pid, u.procs[pid]);
      }
    case LaunchListed(r, v, _) => LoadedStays(init, ev, hash, pid, r, v.id);
    case Started(r, v) =>
      if s.procs[pid].LaunchListed? {
        LoadedStays(init, ev, hash, pid, r, v.id);
        AllApprovedGrows(s.t, u.t, s.procs[pid].approvals, v);
      } else {
        LaunchOkStays(init, ev, hash, pid, u.procs[pid]);
      }
    case _ =>
  }

  lemma ApprovalGained(init: seq<Event>, ev: Event, hash: RitualDefinition -> string, k: Uuid)
    requires ApprovalRowsOk(Run(START, init + [ev], hash).t)
    requires k in Run(START, init + [ev], hash).t.approvals && k !in Run(START, init, hash).t.approvals
    ensures ApprovedInRun(init + [ev], hash, Run(START, init + [ev], hash).t.approvals[k])
  {
    var evs := init + [ev];
    assert evs[..|init|] == init && evs[..|init| + 1] == evs;
    var s, u := Run(START, init, hash), Run(START, evs, hash);
    assert u == Step(s, ev, hash) && ev.Approve?;
    var rows := ApprovalsFor(s.procs[ev.pid].version, ev.ids);
    InsertApprovalsRows(s.t, rows);
    var i :| 0 <= i < |rows| && rows[i].id == k;
    assert u.t.approvals[k] == rows[i];
    assert ApprovedAt(evs, hash, rows[i], |init|);
  }

  ghost predicate HistoryOk(evs: seq<Event>, hash: RitualDefinition -> string) {
    && (forall pid <- Run(START, evs, hash).procs :: LaunchOk(evs, hash, pid, Run(START, evs, hash).procs[pid]))
    && (forall k <- Run(START, evs, hash).t.approvals :: ApprovedInRun(evs, hash, Run(START, evs, hash).t.approvals[k]))
  }

  lemma FreshProcIsLaunchOk(init: seq<Event>, ev: Event, hash: RitualDefinition -> string, pid: nat)
    requires pid !in Run(START, init, hash).procs && pid in Step(Run(START, init, hash), ev, hash).procs
    ensures LaunchOk(init + [ev], hash, pid, Step(Run(START, init, hash), ev, hash).procs[pid])
  {
    FreshProcIsSpawned(Run(START, init, hash), ev, hash, pid);
  }

  lemma FreshProcIsSpawned(s: Sys, ev: Event, hash: RitualDefinition -> string, pid: nat)
    requires pid !in s.procs && pid in Step(s, ev, hash).procs
    ensures MaySpawn(Step(s, ev, hash).procs[pid])
  {}

  lemma LaunchOkKept(init: seq<Event>, ev: Event, hash: RitualDefinition -> string, pid: nat)
    requires HistoryOk(init, hash) && pid in Run(START, init + [ev], hash).procs
    ensures LaunchOk(init + [ev], hash, pid, Run(START, init + [ev], hash).procs[pid])
  {
    assert (init + [ev])[..|init|] == init;
    var s := Run(START, init, hash);
    if pid !in s.procs {
      FreshProcIsLaunchOk(init, ev, hash, pid);
    } else if pid == ev.pid {
      ReachableInv(init, hash);
      LaunchOkGained(init, ev, hash, pid);
    } else {
      OtherProcsStay(s, ev, hash, pid);
      LaunchOkStays(init, ev, hash, pid, s.procs[pid]);
    }
  }

  lemma ApprovalsKept(init: seq<Event>, ev: Event, hash: RitualDefinition -> string, k: Uuid)
    requires HistoryOk(init, hash) && k in Run(START, init + [ev], hash).t.approvals
    ensures ApprovedInRun(init + [ev], hash, Run(START, init + [ev], hash).t.approvals[k])
  {
    assert (init + [ev])[..|init|] == init;
    var s := Run(START, init, hash);
    StepGrows(s, ev, hash);
    ReachableInv(init + [ev], hash);
    if k in s.t.approvals {
      ApprovedInRunStays(init, ev, hash, s.t.approvals[k]);
    } else {
      ApprovalGained(init, ev, hash, k);
    }
  }

  lemma {:induction false} ReachableHistory(evs: seq<Event>, hash: RitualDefinition -> string)
    ensures HistoryOk(evs, hash)
  {
    if evs != [] {
      var init, ev := evs[..|evs| - 1], evs[|evs| - 1];
      assert evs == init + [ev];
      ReachableHistory(init, hash);
      forall pid | pid in Run(START, evs, hash).procs
        ensures LaunchOk(evs, hash, pid, Run(START, evs, hash).procs[pid])
      {
        LaunchOkKept(init, ev, hash, pid);
      }
      forall k | k in Run(START, evs, hash).t.approvals
        ensures ApprovedInRun(evs, hash, Run(START, evs, hash).t.approvals[k])
      {
        ApprovalsKept(init, ev, hash, k);
      }
    }
  }

  ghost predicate HasOrigin(evs: seq<Event>, hash: RitualDefinition -> string, v: RitualVersion, action: ActionSpec) {
    exists a <- Run(START, evs, hash).t.approvals.Values :: Approves(a, v, action) && ApprovedInRun(evs, hash, a)
  }

  lemma ApprovalHasOrigin(evs: seq<Event>, hash: RitualDefinition -> string, v: RitualVersion, action: ActionSpec)
    requires HistoryOk(evs, hash) && AllApproved(Run(START, evs, hash).t.approvals.Values, v)
    requires action in v.definition.actions
    ensures HasOrigin(evs, hash, v, action)
  {
    var t := Run(START, evs, hash).t;
    var a :| a in t.approvals.Values && Matches(a, v, action);
    var k :| k in t.approvals && t.approvals[k] == a;
    MatchingApproves(a, v, action);
    assert ApprovedInRun(evs, hash, t.approvals[k]);
  }

  /** Approval safety: an execution that has started was loaded, by its own request, while its ritual was Active with
      that version current, and every action of that version has a matching approval row that an approving activation
      created after it had loaded that very version. */
  lemma StartedRunsAreApproved(evs: seq<Event>, hash: RitualDefinition -> string, pid: nat)
    requires pid in Run(START, evs, hash).procs && Run(START, evs, hash).procs[pid].Started?
    ensures var s := Run(START, evs, hash); var v := s.procs[pid].version;
      && v.id in s.t.versions && s.t.versions[v.id] == v && v.ritualId == s.procs[pid].ritualId
      && LoadedWhileActive(evs, hash, pid, v.ritualId, v.id)
      && forall action <- v.definition.actions :: HasOrigin(evs, hash, v, action)
  {
    ReachableInv(evs, hash);
    ReachableHistory(evs, hash);
    var s := Run(START, evs, hash);
    var v := s.procs[pid].version;
    assert Remembered(s.t, s.procs[pid]) && LaunchOk(evs, hash, pid, s.procs[pid]);
    forall action | action in v.definition.actions ensures HasOrigin(evs, hash, v, action) {
      ApprovalHasOrigin(evs, hash, v, action);
    }
  }

  // Active does not imply approved.

  ghost predicate ActiveIsApproved(t: Tables, ritual: Uuid)
    requires ritual in t.rituals && t.rituals[ritual].currentVersionId in t.versions
  {
    t.rituals[ritual].status == Active ==>
      AllApproved(t.approvals.Values, t.versions[t.rituals[ritual].currentVersionId])
  }

  const ONE_STEP := RitualDefinition("r", [DesktopNotificationShow("t", "b")], 1)

  function First(hash: RitualDefinition -> string): RitualVersion { RitualVersion(10, 7, 1, ONE_STEP, hash(ONE_STEP)) }
  function Second(hash: RitualDefinition -> string): RitualVersion { RitualVersion(11, 7, 2, ONE_STEP, hash(ONE_STEP)) }

  function Created(hash: RitualDefinition -> string): Sys {
    Sys(Tables(map[7 := Ritual(7, "r", Draft, 10)], map[10 := First(hash)], map[]), map[0 := Done])
  }

  lemma CreateOne(hash: RitualDefinition -> string)
    ensures Step(Step(START, Spawn(0, Creating(ONE_STEP)), hash), Create(0, 7, 10), hash) == Created(hash)
  {
    assert DefinitionValid(ONE_STEP);
  }

  function ApprovedOnce(hash: RitualDefinition -> string): Sys {
    var approval := Approval(20, 10, ApprovalFieldsOf(ONE_STEP.actions[0]), hash(ONE_STEP));
    Sys(Created(hash).t.(approvals := map[20 := approval]),
        map[0 := Done, 1 := ActivateApproved(7, First(hash))])
  }

  lemma ApproveFirst(hash: RitualDefinition -> string)
    ensures Step(Step(Step(Created(hash), Spawn(1, Activating(7)), hash), Load(1, 0), hash), Approve(1, true, [20]),
                 hash)
      == ApprovedOnce(hash)
  {
    var s := Step(Step(Created(hash), Spawn(1, Activating(7)), hash), Load(1, 0), hash);
    assert s == Sys(Created(hash).t, map[0 := Done, 1 := ActivateLoaded(7, First(hash))]);
    OneApproval(s.t, First(hash), 20);
  }

  function UpdatedSince(hash: RitualDefinition -> string): Sys {
    var t := ApprovedOnce(hash).t;
    Sys(t.(rituals := map[7 := Ritual(7, "r", Draft, 11)], versions := t.versions[11 := Second(hash)]),
        ApprovedOnce(hash).procs[2 := Done])
  }

  lemma LoadInBetween(hash: RitualDefinition -> string)
    ensures Step(Step(ApprovedOnce(hash), Spawn(2, Updating(7, ONE_STEP)), hash), Load(2, 11), hash)
      == Sys(ApprovedOnce(hash).t,
             ApprovedOnce(hash).procs[2 := UpdateLoaded(Ritual(7, "r", Draft, 10), First(hash), Second(hash))])
  {
    assert DefinitionValid(ONE_STEP);
  }

  lemma UpdateInBetween(hash: RitualDefinition -> string)
    ensures Step(Step(Step(ApprovedOnce(hash), Spawn(2, Updating(7, ONE_STEP)), hash), Load(2, 11), hash),
                 CommitUpdate(2), hash)
      == UpdatedSince(hash)
  {
    LoadInBetween(hash);
    CommitInBetween(hash);
  }

  lemma CommitInBetween(hash: RitualDefinition -> string)
    ensures UpdateRitual(ApprovedOnce(hash).t, Ritual(7, "r", Draft, 11), Second(hash)) == Ok(UpdatedSince(hash).t)
  {
    var t := ApprovedOnce(hash).t;
    assert !VersionCollides(t, Second(hash));
    assert t.rituals[7] == Ritual(7, "r", Draft, 10);
    assert t.rituals[7 := Ritual(7, "r", Draft, 11)] == map[7 := Ritual(7, "r", Draft, 11)];
  }

  lemma NobodyApprovedSecond(hash: RitualDefinition -> string)
    ensures var t := Step(UpdatedSince(hash), SetActive(1), hash).t;
      7 in t.rituals && t.rituals[7].currentVersionId in t.versions && !ActiveIsApproved(t, 7)
  {
    var t := Step(UpdatedSince(hash), SetActive(1), hash).t;
    assert t.rituals[7] == Ritual(7, "r", Active, 11) && t.versions[11] == Second(hash);
    assert ONE_STEP.actions[0] in Second(hash).definition.actions;
    assert forall a <- t.approvals.Values :: a.versionId == 10;
  }

  const BETWEEN: seq<Event> := [
    Spawn(0, Creating(ONE_STEP)), Create(0, 7, 10), Spawn(1, Activating(7)), Load(1, 0), Approve(1, true, [20]),
    Spawn(2, Updating(7, ONE_STEP)), Load(2, 11), CommitUpdate(2), SetActive(1)]

  lemma ThreeSteps(init: seq<Event>, a: Event, b: Event, c: Event, hash: RitualDefinition -> string)
    ensures Run(START, init + [a, b, c], hash) == Step(Step(Step(Run(START, init, hash), a, hash), b, hash), c, hash)
  {
    assert (init + [a, b, c])[..|init| + 2] == init + [a, b];
    assert (init + [a, b])[..|init| + 1] == init + [a];
    Extend(init, a, hash);
    Extend(init + [a], b, hash);
    Extend(init + [a, b], c, hash);
    assert init + [a] + [b] == init + [a, b] && init + [a, b] + [c] == init + [a, b, c];
  }

  lemma FirstFiveEvents(hash: RitualDefinition -> string)
    ensures Run(START, BETWEEN[..5], hash) == ApprovedOnce(hash)
  {
    var e1 := [Spawn(0, Creating(ONE_STEP))];
    Extend([], e1[0], hash);
    Extend(e1, Create(0, 7, 10), hash);
    CreateOne(hash);
    assert [] + [e1[0]] == e1;
    ThreeSteps(BETWEEN[..2], BETWEEN[2], BETWEEN[3], BETWEEN[4], hash);
    assert BETWEEN[..2] == e1 + [Create(0, 7, 10)];
    ApproveFirst(hash);
    assert BETWEEN[..5] == BETWEEN[..2] + [BETWEEN[2], BETWEEN[3], BETWEEN[4]];
  }

  /** An update that commits between an activation's approvals and its status write leaves the ritual Active with a
      current version that nobody approved. */
  lemma ActiveWithoutApproval(hash: RitualDefinition -> string)
    ensures var t := Run(START, BETWEEN, hash).t;
      7 in t.rituals && t.rituals[7].currentVersionId in t.versions && !ActiveIsApproved(t, 7)
  {
    FirstFiveEvents(hash);
    ThreeSteps(BETWEEN[..5], BETWEEN[5], BETWEEN[6], BETWEEN[7], hash);
    UpdateInBetween(hash);
    assert BETWEEN[..8] == BETWEEN[..5] + [BETWEEN[5], BETWEEN[6], BETWEEN[7]];
    Extend(BETWEEN[..8], BETWEEN[8], hash);
    assert BETWEEN == BETWEEN[..8] + [BETWEEN[8]];
    NobodyApprovedSecond(hash);
  }

  lemma Extend(init: seq<Event>, ev: Event, hash: RitualDefinition -> string)
    ensures Run(START, init + [ev], hash) == Step(Run(START, init, hash), ev, hash)
  {
    assert (init + [ev])[..|init|] == init;
  }

  lemma OneApproval(t: Tables, v: RitualVersion, id: Uuid)
    requires |v.definition.actions| == 1 && id !in t.approvals && v.id in t.versions
    ensures InsertApprovals(t, ApprovalsFor(v, [id])) ==
      Ok(t.(approvals := t.approvals[
        id := Approval(id, v.id, ApprovalFieldsOf(v.definition.actions[0]), v.contentHash)]))
  {
    assert ApprovalsFor(v, [id])[..0] == [];
  }

  lemma OthersKeepApproved(s: Sys, ev: Event, hash: RitualDefinition -> string, ritual: Uuid)
    requires ritual in s.t.rituals && Numbered(s.t, ritual) && ActiveIsApproved(s.t, ritual) && !ev.SetActive?
    ensures var t := Step(s, ev, hash).t;
      ritual in t.rituals && t.rituals[ritual].currentVersionId in t.versions && ActiveIsApproved(t, ritual)
  {
    StepGrows(s, ev, hash);
    var v := s.t.versions[s.t.rituals[ritual].currentVersionId];
    if s.t.rituals[ritual].status == Active { AllApprovedGrows(s.t, Step(s, ev, hash).t, s.t.approvals.Values, v); }
    if ev.Approve? && Step(s, ev, hash).t != s.t {
      InsertApprovalsRows(s.t, ApprovalsFor(s.procs[ev.pid].version, ev.ids));
    }
  }

  /** Only the status write of an activation can leave a ritual Active with an unapproved version. */
  lemma OnlyActivationCanBreakIt(evs: seq<Event>, ev: Event, hash: RitualDefinition -> string, ritual: Uuid)
    requires var t := Run(START, evs, hash).t;
      ritual in t.rituals && t.rituals[ritual].currentVersionId in t.versions && ActiveIsApproved(t, ritual)
    requires !ev.SetActive?
    ensures var t := Step(Run(START, evs, hash), ev, hash).t;
      ritual in t.rituals && t.rituals[ritual].currentVersionId in t.versions && ActiveIsApproved(t, ritual)
  {
    ReachableInv(evs, hash);
    OthersKeepApproved(Run(START, evs, hash), ev, hash, ritual);
  }

  /** Some event of the run is the commit of an approving activation that had loaded this version. */
  ghost predicate SomebodyApproved(evs: seq<Event>, hash: RitualDefinition -> string, version: Uuid) {
    exists n :: 0 <= n < |evs| && CommitsApproval(evs, hash, version, n)
  }

  predicate CommitsApproval(evs: seq<Event>, hash: RitualDefinition -> string, version: Uuid, n: nat)
    requires n < |evs|
  {
    && evs[n].Approve?
    && var s, u := Run(START, evs[..n], hash), Run(START, evs[..n + 1], hash); var pid := evs[n].pid;
      && pid in s.procs && s.procs[pid].ActivateLoaded? && s.procs[pid].version.id == version
      && pid in u.procs && u.procs[pid].ActivateApproved?
  }

  lemma {:induction false} RunAppend(s: Sys, a: seq<Event>, b: seq<Event>, hash: RitualDefinition -> string)
    ensures Run(s, a + b, hash) == Run(Run(s, a, hash), b, hash)
  {
    hide Step;
    if b == [] {
      assert a + b == a;
    } else {
      RunAppend(s, a, b[..|b| - 1], hash);
      assert (a + b)[..|a + b| - 1] == a + b[..|b| - 1];
    }
  }

  lemma {:induction false} RunGrows(s: Sys, after: seq<Event>, hash: RitualDefinition -> string)
    ensures Grows(s.t, Run(s, after, hash).t)
  {
    if after != [] {
      RunGrows(s, after[..|after| - 1], hash);
      StepGrows(Run(s, after[..|after| - 1], hash), after[|after| - 1], hash);
    }
  }

  /** A run grows from any of its prefixes on. */
  lemma PrefixGrows(evs: seq<Event>, hash: RitualDefinition -> string, n: nat)
    requires n <= |evs|
    ensures Grows(Run(START, evs[..n], hash).t, Run(START, evs, hash).t)
  {
    assert evs == evs[..n] + evs[n..];
    RunAppend(START, evs[..n], evs[n..], hash);
    RunGrows(Run(START, evs[..n], hash), evs[n..], hash);
  }

  lemma CommitApprovesAll(evs: seq<Event>, hash: RitualDefinition -> string, v: RitualVersion, n: nat)
    requires n < |evs| && CommitsApproval(evs, hash, v.id, n)
    requires Run(START, evs[..n], hash).procs[evs[n].pid].version == v
    ensures AllApproved(Run(START, evs[..n + 1], hash).t.approvals.Values, v)
  {
    assert evs[..n + 1][..n] == evs[..n];
    NewApprovalsCover(Run(START, evs[..n], hash).t, Run(START, evs[..n + 1], hash).t, v, evs[n].ids);
  }

  lemma CommittedApprovalsStay(evs: seq<Event>, hash: RitualDefinition -> string, v: RitualVersion, n: nat)
    requires n < |evs| && CommitsApproval(evs, hash, v.id, n)
    requires v.id in Run(START, evs, hash).t.versions && Run(START, evs, hash).t.versions[v.id] == v
    ensures AllApproved(Run(START, evs, hash).t.approvals.Values, v)
  {
    LoadedIsTheVersion(evs, hash, v, n);
    CommitApprovesAll(evs, hash, v, n);
    PrefixGrows(evs, hash, n + 1);
    var u, t := Run(START, evs[..n + 1], hash).t, Run(START, evs, hash).t;
    AllApprovedGrows(u, t, u.approvals.Values, v);
  }

  lemma LoadedIsTheVersion(evs: seq<Event>, hash: RitualDefinition -> string, v: RitualVersion, n: nat)
    requires n < |evs| && CommitsApproval(evs, hash, v.id, n)
    requires v.id in Run(START, evs, hash).t.versions && Run(START, evs, hash).t.versions[v.id] == v
    ensures Run(START, evs[..n], hash).procs[evs[n].pid].version == v
  {
    ReachableInv(evs[..n], hash);
    assert Remembered(Run(START, evs[..n], hash).t, Run(START, evs[..n], hash).procs[evs[n].pid]);
    PrefixGrows(evs, hash, n);
  }

  lemma VersionHasAction(evs: seq<Event>, hash: RitualDefinition -> string, v: RitualVersion)
    requires v.id in Run(START, evs, hash).t.versions && Run(START, evs, hash).t.versions[v.id] == v
    ensures v.definition.actions != []
  {
    ReachableInv(evs, hash);
  }

  /** And an approved version was approved by such a commit: its definition has at least one action. */
  lemma ApprovedVersionWasCommitted(evs: seq<Event>, hash: RitualDefinition -> string, v: RitualVersion)
    requires v.id in Run(START, evs, hash).t.versions && Run(START, evs, hash).t.versions[v.id] == v
    requires AllApproved(Run(START, evs, hash).t.approvals.Values, v)
    ensures SomebodyApproved(evs, hash, v.id)
  {
    VersionHasAction(evs, hash, v);
    ReachableHistory(evs, hash);
    var action := v.definition.actions[0];
    ApprovalHasOrigin(evs, hash, v, action);
    var a :| a in Run(START, evs, hash).t.approvals.Values && Approves(a, v, action) && ApprovedInRun(evs, hash, a);
    var n :| 0 <= n < |evs| && ApprovedAt(evs, hash, a, n);
    ApprovingEventCommits(evs, hash, a, n);
  }

  lemma ApprovingEventCommits(evs: seq<Event>, hash: RitualDefinition -> string, a: Approval, n: nat)
    requires n < |evs| && ApprovedAt(evs, hash, a, n)
    ensures CommitsApproval(evs, hash, a.versionId, n)
  {
    assert evs[..n + 1][..n] == evs[..n];
  }

  /** A stored version is approved exactly when an approving activation that had loaded it has committed. */
  lemma SomebodyApprovedIff(evs: seq<Event>, hash: RitualDefinition -> string, v: RitualVersion)
    requires v.id in Run(START, evs, hash).t.versions && Run(START, evs, hash).t.versions[v.id] == v
    ensures AllApproved(Run(START, evs, hash).t.approvals.Values, v) <==> SomebodyApproved(evs, hash, v.id)
  {
    if AllApproved(Run(START, evs, hash).t.approvals.Values, v) { ApprovedVersionWasCommitted(evs, hash, v); }
    if SomebodyApproved(evs, hash, v.id) {
      var n :| 0 <= n < |evs| && CommitsApproval(evs, hash, v.id, n);
      CommittedApprovalsStay(evs, hash, v, n);
    }
  }

  /** And it does so exactly when no approving activation that had loaded the version now current has committed: its own
      commit is one if that version is still the one it loaded. */
  lemma ActivationApprovesIffStillCurrent(evs: seq<Event>, hash: RitualDefinition -> string, pid: nat)
    requires pid in Run(START, evs, hash).procs && Run(START, evs, hash).procs[pid].ActivateApproved?
    ensures var s := Run(START, evs, hash); var ritual, loaded := s.procs[pid].ritualId, s.procs[pid].version.id;
      var u := Step(s, SetActive(pid), hash).t;
      && ritual in s.t.rituals && ritual in u.rituals && u.rituals[ritual].status == Active
      && u.rituals[ritual].currentVersionId == s.t.rituals[ritual].currentVersionId
      && u.rituals[ritual].currentVersionId in u.versions
      && (ActiveIsApproved(u, ritual) <==> SomebodyApproved(evs, hash, u.rituals[ritual].currentVersionId))
      && (u.rituals[ritual].currentVersionId == loaded ==> SomebodyApproved(evs, hash, loaded))
  {
    var s := Run(START, evs, hash);
    ApproverKnows(evs, hash, pid);
    SomebodyApprovedIff(evs, hash, s.procs[pid].version);
    SomebodyApprovedIff(evs, hash, s.t.versions[s.t.rituals[s.procs[pid].ritualId].currentVersionId]);
  }

  /** What holds of the ritual of an activation that has committed its approvals. */
  lemma ApproverKnows(evs: seq<Event>, hash: RitualDefinition -> string, pid: nat)
    requires pid in Run(START, evs, hash).procs && Run(START, evs, hash).procs[pid].ActivateApproved?
    ensures var s := Run(START, evs, hash); var ritual, v := s.procs[pid].ritualId, s.procs[pid].version;
      && ritual in s.t.rituals && s.t.rituals[ritual].currentVersionId in s.t.versions
      && s.t.versions[s.t.rituals[ritual].currentVersionId].id == s.t.rituals[ritual].currentVersionId
      && v.id in s.t.versions && s.t.versions[v.id] == v && AllApproved(s.t.approvals.Values, v)
  {
    ReachableInv(evs, hash);
    ReachableHistory(evs, hash);
    var s := Run(START, evs, hash);
    assert Remembered(s.t, s.procs[pid]) && LaunchOk(evs, hash, pid, s.procs[pid]);
    assert Numbered(s.t, s.procs[pid].ritualId);
  }
}
