/** What each ritual handler does from its call to its end, and when a run request starts an execution
    (crates/fubun-core/src/lib.rs). */
module RitualRuns {
  import opened Wrappers
  import opened Domain
  import opened Versions
  import Approvals

  // A process is advanced by its own events only.

  predicate NotOf(evs: seq<Event>, pid: nat) { forall ev <- evs :: ev.pid != pid }

  lemma {:induction false} OthersLeaveIt(s: Sys, evs: seq<Event>, hash: RitualDefinition -> string, pid: nat)
    requires NotOf(evs, pid) && pid in s.procs
    ensures pid in Run(s, evs, hash).procs && Run(s, evs, hash).procs[pid] == s.procs[pid]
  {
    if evs != [] {
      var init, last := evs[..|evs| - 1], evs[|evs| - 1];
      assert last in evs && forall ev <- init :: ev in evs;
      OthersLeaveIt(s, init, hash, pid);
      OtherStays(Run(s, init, hash), last, hash, pid);
    }
  }

  lemma OtherStays(s: Sys, ev: Event, hash: RitualDefinition -> string, pid: nat)
    requires ev.pid != pid && pid in s.procs
    ensures pid in Step(s, ev, hash).procs && Step(s, ev, hash).procs[pid] == s.procs[pid]
  {}

  lemma CurrentVersion(evs: seq<Event>, hash: RitualDefinition -> string, ritual: Uuid)
    requires ritual in Run(START, evs, hash).t.rituals
    ensures var t := Run(START, evs, hash).t;
      && t.rituals[ritual].id == ritual && t.rituals[ritual].currentVersionId in t.versions
      && t.versions[t.rituals[ritual].currentVersionId].id == t.rituals[ritual].currentVersionId
      && t.versions[t.rituals[ritual].currentVersionId].ritualId == ritual
  {
    ReachableInv(evs, hash);
    CurrentIsItsOwn(Run(START, evs, hash).t, ritual);
  }

  /** A new request is accepted exactly if its definition, when it brings one, is valid. */
  lemma RequestsAreAccepted(s: Sys, hash: RitualDefinition -> string, pid: nat, ritual: Uuid, d: RitualDefinition)
    requires pid !in s.procs
    ensures forall proc | proc in {Activating(ritual), Pausing(ritual), Launching(ritual)} ::
      Step(s, Spawn(pid, proc), hash) == s.(procs := s.procs[pid := proc])
    ensures forall proc | proc in {Creating(d), Updating(ritual, d)} ::
      Step(s, Spawn(pid, proc), hash) ==
        if && 0 < |d.name| <= 128 && (forall c <- d.name :: !ControlChar(c))
           && 0 < |d.actions| <= 16 && (forall a <- d.actions :: ActionValid(a))
           && (forall i :: 0 < i < |d.actions| ==> d.actions[i - 1] != d.actions[i])
           && 0 < d.timeoutSeconds <= 120
        then s.(procs := s.procs[pid := proc]) else s
  {}

  // Create, update and pause.

  /** A create stores the ritual as a draft with its first version, and fails exactly if one of the two ids is taken. */
  lemma CreateStores(evs: seq<Event>, hash: RitualDefinition -> string, pid: nat, ritual: Uuid, version: Uuid)
    requires pid in Run(START, evs, hash).procs && Run(START, evs, hash).procs[pid].Creating?
    ensures var s := Run(START, evs, hash); var d := s.procs[pid].definition;
      Step(s, Create(pid, ritual, version), hash).t ==
        if ritual in s.t.rituals || version in s.t.versions then s.t
        else Tables(s.t.rituals[ritual := Ritual(ritual, d.name, Draft, version)],
                    s.t.versions[version := RitualVersion(version, ritual, 1, d, hash(d))], s.t.approvals)
  {
    ReachableInv(evs, hash);
    var s := Run(START, evs, hash);
    if ritual !in s.t.rituals {
      forall k | k in s.t.versions ensures s.t.versions[k].ritualId != ritual {}
    }
  }

  /** An update that nothing comes between makes its definition the next version, the ritual a draft under the new name;
      it fails exactly if the ritual does not exist, the numbers are used up, or the version's id is taken. */
  lemma UpdateStores(evs: seq<Event>, hash: RitualDefinition -> string, pid: nat, version: Uuid)
    requires pid in Run(START, evs, hash).procs && Run(START, evs, hash).procs[pid].Updating?
    ensures var s := Run(START, evs, hash); var ritual, d := s.procs[pid].ritualId, s.procs[pid].definition;
      var t := Step(Step(s, Load(pid, version), hash), CommitUpdate(pid), hash).t;
      if ritual !in s.t.rituals || version in s.t.versions then t == s.t else
        var current := s.t.rituals[ritual].currentVersionId;
        && current in s.t.versions
        && t ==
          if s.t.versions[current].version == 0xFFFF_FFFF then s.t
          else Tables(s.t.rituals[ritual := s.t.rituals[ritual].(name := d.name, status := Draft,
                                                                 currentVersionId := version)],
                      s.t.versions[version := RitualVersion(version, ritual, s.t.versions[current].version + 1, d,
                                                            hash(d))], s.t.approvals)
  {
    var s := Run(START, evs, hash);
    ReachableInv(evs, hash);
    if s.procs[pid].ritualId in s.t.rituals { UpdateStoresHere(s, hash, pid, version); }
  }

  lemma UpdateStoresHere(s: Sys, hash: RitualDefinition -> string, pid: nat, version: Uuid)
    requires Inv(s) && pid in s.procs && s.procs[pid].Updating? && s.procs[pid].ritualId in s.t.rituals
    ensures var ritual, d := s.procs[pid].ritualId, s.procs[pid].definition;
      var t := Step(Step(s, Load(pid, version), hash), CommitUpdate(pid), hash).t;
      var current := s.t.rituals[ritual].currentVersionId;
      && current in s.t.versions
      && t ==
        if s.t.versions[current].version == 0xFFFF_FFFF || version in s.t.versions then s.t
        else Tables(s.t.rituals[ritual := s.t.rituals[ritual].(name := d.name, status := Draft,
                                                               currentVersionId := version)],
                    s.t.versions[version := RitualVersion(version, ritual, s.t.versions[current].version + 1, d,
                                                          hash(d))], s.t.approvals)
  {
    var ritual, d := s.procs[pid].ritualId, s.procs[pid].definition;
    CurrentIsItsOwn(s.t, ritual);
    assert Numbered(s.t, ritual);
    var base := s.t.versions[s.t.rituals[ritual].currentVersionId];
    var next := RitualVersion(version, ritual, NextVersion(base.version), d, hash(d));
    var u := Step(s, Load(pid, version), hash);
    assert u.procs[pid] == UpdateLoaded(s.t.rituals[ritual], base, next);
    UpdateCommitsIffCurrent(s.t, u.procs[pid]);
  }

  /** A pause that nothing comes between leaves the ritual paused, unless it does not exist or is archived. */
  lemma PauseStores(s: Sys, hash: RitualDefinition -> string, pid: nat, version: Uuid)
    requires pid in s.procs && s.procs[pid].Pausing?
    requires s.procs[pid].ritualId in s.t.rituals ==>
      s.t.rituals[s.procs[pid].ritualId].currentVersionId in s.t.versions
    ensures var ritual := s.procs[pid].ritualId;
      Step(Step(s, Load(pid, version), hash), SetPaused(pid), hash).t ==
        if ritual in s.t.rituals && s.t.rituals[ritual].status != Archived
        then s.t.(rituals := s.t.rituals[ritual := s.t.rituals[ritual].(status := Paused)]) else s.t
  {}

  // Activate.

  /** The inserts of one activation go through exactly if their ids are new and differ. */
  lemma InsertApprovalsIff(t: Tables, rows: seq<Approval>)
    requires forall a <- rows :: a.versionId in t.versions
    ensures InsertApprovals(t, rows).Ok? <==>
      && (forall i :: 0 <= i < |rows| ==> rows[i].id !in t.approvals)
      && (forall i, j :: 0 <= i < j < |rows| ==> rows[i].id != rows[j].id)
  {
    if InsertApprovals(t, rows).Ok? {
      InsertApprovalsRows(t, rows);
      InsertedDiffer(t, rows);
    } else {
      SomeIdIsTaken(t, rows);
    }
  }

  lemma {:induction false} InsertedDiffer(t: Tables, rows: seq<Approval>)
    requires InsertApprovals(t, rows).Ok?
    ensures forall i, j :: 0 <= i < j < |rows| ==> rows[i].id != rows[j].id
  {
    if rows != [] {
      var init, last := rows[..|rows| - 1], rows[|rows| - 1];
      InsertedDiffer(t, init);
      LastApproval(t, init, last);
      assert rows == init + [last];
    }
  }

  lemma {:induction false} SomeIdIsTaken(t: Tables, rows: seq<Approval>)
    requires InsertApprovals(t, rows).Err? && forall a <- rows :: a.versionId in t.versions
    ensures (exists i :: 0 <= i < |rows| && rows[i].id in t.approvals)
      || exists i, j :: 0 <= i < j < |rows| && rows[i].id == rows[j].id
  {
    var init, last := rows[..|rows| - 1], rows[|rows| - 1];
    assert rows == init + [last];
    assert last in rows && forall a <- init :: a in rows;
    if InsertApprovals(t, init).Ok? {
      LastApproval(t, init, last);
      if last.id !in t.approvals {
        var i :| 0 <= i < |init| && init[i].id == last.id;
        assert rows[i].id == rows[|rows| - 1].id;
      }
    } else {
      SomeIdIsTaken(t, init);
      if i :| 0 <= i < |init| && init[i].id in t.approvals {
        assert rows[i].id in t.approvals;
      } else {
        var i, j :| 0 <= i < j < |init| && init[i].id == init[j].id;
        assert rows[i].id == rows[j].id;
      }
    }
  }

  lemma LastApproval(t: Tables, init: seq<Approval>, last: Approval)
    requires InsertApprovals(t, init).Ok?
    ensures last.id in InsertApprovals(t, init).value.approvals <==>
      last.id in t.approvals || exists i :: 0 <= i < |init| && init[i].id == last.id
  {
    InsertApprovalsRows(t, init);
  }

  predicate NewIds(t: Tables, ids: seq<Uuid>) {
    && (forall i :: 0 <= i < |ids| ==> ids[i] !in t.approvals)
    && (forall i, j :: 0 <= i < j < |ids| ==> ids[i] != ids[j])
  }

  ghost function Activated(s: Sys, hash: RitualDefinition -> string, pid: nat, executable: bool, ids: seq<Uuid>): Sys {
    Step(Step(Step(s, Load(pid, 0), hash), Approve(pid, executable, ids), hash), SetActive(pid), hash)
  }

  /** What an activation adds: for each action of the version a row with the given id that approves it, and no other. */
  predicate AddsApprovals(t: Tables, u: Tables, v: RitualVersion, ids: seq<Uuid>)
    requires |ids| == |v.definition.actions|
  {
    && (forall k <- t.approvals :: k in u.approvals && u.approvals[k] == t.approvals[k])
    && (forall k <- u.approvals :: k in t.approvals || k in ids)
    && (forall i :: 0 <= i < |ids| ==>
          ids[i] in u.approvals && u.approvals[ids[i]].id == ids[i]
            && Approves(u.approvals[ids[i]], v, v.definition.actions[i]))
  }

  /** An activation that nothing comes between approves each action of the current version and leaves the ritual Active,
      exactly if the ritual exists, its preview is executable, and the approvals' ids are new; otherwise it changes no
      table. */
  lemma ActivationStores(evs: seq<Event>, hash: RitualDefinition -> string, pid: nat, executable: bool, ids: seq<Uuid>)
    requires pid in Run(START, evs, hash).procs && Run(START, evs, hash).procs[pid].Activating?
    ensures var s := Run(START, evs, hash); var ritual := s.procs[pid].ritualId;
      var t := Activated(s, hash, pid, executable, ids).t;
      if ritual !in s.t.rituals then t == s.t else
        var current := s.t.rituals[ritual].currentVersionId;
        && current in s.t.versions && var v := s.t.versions[current];
        if executable && |ids| == |v.definition.actions| && NewIds(s.t, ids)
        then t.rituals == s.t.rituals[ritual := s.t.rituals[ritual].(status := Active)]
          && t.versions == s.t.versions && AddsApprovals(s.t, t, v, ids)
        else t == s.t
  {
    var s := Run(START, evs, hash);
    if s.procs[pid].ritualId in s.t.rituals {
      CurrentVersion(evs, hash, s.procs[pid].ritualId);
      ActivationStoresHere(s, hash, pid, executable, ids);
    }
  }

  lemma ActivationStoresHere(s: Sys, hash: RitualDefinition -> string, pid: nat, executable: bool, ids: seq<Uuid>)
    requires pid in s.procs && s.procs[pid].Activating? && s.procs[pid].ritualId in s.t.rituals
    requires var current := s.t.rituals[s.procs[pid].ritualId].currentVersionId;
      current in s.t.versions && s.t.versions[current].id == current
    ensures var ritual := s.procs[pid].ritualId; var v := s.t.versions[s.t.rituals[ritual].currentVersionId];
      var t := Activated(s, hash, pid, executable, ids).t;
      if executable && |ids| == |v.definition.actions| && NewIds(s.t, ids)
      then t.rituals == s.t.rituals[ritual := s.t.rituals[ritual].(status := Active)]
        && t.versions == s.t.versions && AddsApprovals(s.t, t, v, ids)
      else t == s.t
  {
    var ritual := s.procs[pid].ritualId;
    var v := s.t.versions[s.t.rituals[ritual].currentVersionId];
    var a := Step(s, Load(pid, 0), hash);
    assert a == Put(s, pid, ActivateLoaded(ritual, v));
    if executable && |ids| == |v.definition.actions| {
      ApprovalsStored(s.t, v, ids);
    }
  }

  lemma ApprovalsStored(t: Tables, v: RitualVersion, ids: seq<Uuid>)
    requires |ids| == |v.definition.actions| && v.id in t.versions
    ensures InsertApprovals(t, ApprovalsFor(v, ids)).Ok? <==> NewIds(t, ids)
    ensures InsertApprovals(t, ApprovalsFor(v, ids)).Ok? ==>
      var u := InsertApprovals(t, ApprovalsFor(v, ids)).value;
      u.rituals == t.rituals && u.versions == t.versions && AddsApprovals(t, u, v, ids)
  {
    var rows := ApprovalsFor(v, ids);
    forall i | 0 <= i < |ids| ensures rows[i].id == ids[i] && Approves(rows[i], v, v.definition.actions[i]) {
      MatchingApproves(rows[i], v, v.definition.actions[i]);
    }
    InsertApprovalsIff(t, rows);
    if InsertApprovals(t, rows).Ok? { InsertApprovalsRows(t, rows); }
  }

  // Run.

  predicate ApprovedInTable(t: Tables, v: RitualVersion, action: ActionSpec) {
    exists k <- t.approvals :: Approves(t.approvals[k], v, action)
  }

  lemma ListedMeansApproved(t: Tables, v: RitualVersion)
    ensures AllApproved(ListApprovals(t, v.id), v) <==>
      forall action <- v.definition.actions :: ApprovedInTable(t, v, action)
  {
    forall action | action in v.definition.actions
      ensures (exists a <- ListApprovals(t, v.id) :: Matches(a, v, action)) <==> ApprovedInTable(t, v, action)
    {
      if a :| a in ListApprovals(t, v.id) && Matches(a, v, action) {
        var k :| k in t.approvals && t.approvals[k] == a;
        MatchingApproves(a, v, action);
      }
      if k :| k in t.approvals && Approves(t.approvals[k], v, action) {
        MatchingApproves(t.approvals[k], v, action);
        assert t.approvals[k] in ListApprovals(t, v.id);
      }
    }
  }

  /** The load, anything of others, the listing of approvals, anything of others, and the start. */
  ghost function Launched(s: Sys, hash: RitualDefinition -> string, pid: nat, between: seq<Event>, later: seq<Event>,
                          otherChecks: bool, lockFree: bool): Sys
  {
    Step(Run(Step(Run(Step(s, Load(pid, 0), hash), between, hash), List(pid), hash), later, hash),
         Launch(pid, otherChecks, lockFree), hash)
  }

  /** In every interleaving a run request starts an execution exactly if the ritual was Active when it was loaded, each
      action of the version then current was approved when the approvals were listed, its other checks passed and the
      lock was free; and what it starts is that version. */
  lemma RunStartsIff(evs: seq<Event>, hash: RitualDefinition -> string, pid: nat, between: seq<Event>,
                     later: seq<Event>, otherChecks: bool, lockFree: bool)
    requires pid in Run(START, evs, hash).procs && Run(START, evs, hash).procs[pid].Launching?
    requires NotOf(between, pid) && NotOf(later, pid)
    ensures var s := Run(START, evs, hash); var ritual := s.procs[pid].ritualId;
      var listed := Run(Step(s, Load(pid, 0), hash), between, hash).t;
      var t := Launched(s, hash, pid, between, later, otherChecks, lockFree);
      && pid in t.procs
      && if ritual in s.t.rituals && s.t.rituals[ritual].status == Active then
        var current := s.t.rituals[ritual].currentVersionId;
        && current in s.t.versions && var v := s.t.versions[current];
        && t.procs[pid] ==
          if otherChecks && lockFree && forall action <- v.definition.actions :: ApprovedInTable(listed, v, action)
          then Started(ritual, v) else Done
        else t.procs[pid] == Done
  {
    var s := Run(START, evs, hash);
    var ritual := s.procs[pid].ritualId;
    if ritual in s.t.rituals { CurrentVersion(evs, hash, ritual); }
    var a := Step(s, Load(pid, 0), hash);
    RunIsLoaded(s, hash, pid);
    OthersLeaveIt(a, between, hash, pid);
    var b := Run(a, between, hash);
    var c := Step(b, List(pid), hash);
    RunIsListed(b, hash, pid);
    OthersLeaveIt(c, later, hash, pid);
    RunIsDecided(Run(c, later, hash), hash, pid, otherChecks, lockFree);
  }

  lemma RunIsLoaded(s: Sys, hash: RitualDefinition -> string, pid: nat)
    requires pid in s.procs && s.procs[pid].Launching?
    requires s.procs[pid].ritualId in s.t.rituals ==>
      s.t.rituals[s.procs[pid].ritualId].currentVersionId in s.t.versions
    ensures var ritual := s.procs[pid].ritualId; var t := Step(s, Load(pid, 0), hash);
      && pid in t.procs && t.t == s.t
      && t.procs[pid] ==
        if ritual in s.t.rituals && s.t.rituals[ritual].status == Active
        then LaunchLoaded(ritual, s.t.versions[s.t.rituals[ritual].currentVersionId]) else Done
  {}

  lemma RunIsListed(s: Sys, hash: RitualDefinition -> string, pid: nat)
    requires pid in s.procs && (s.procs[pid].LaunchLoaded? || s.procs[pid] == Done)
    ensures var t := Step(s, List(pid), hash);
      && pid in t.procs
      && (s.procs[pid] == Done ==> t.procs[pid] == Done)
      && (s.procs[pid].LaunchLoaded? ==>
            && t.procs[pid].LaunchListed? && t.procs[pid].ritualId == s.procs[pid].ritualId
            && t.procs[pid].version == s.procs[pid].version
            && (AllApproved(t.procs[pid].approvals, s.procs[pid].version) <==>
                  forall action <- s.procs[pid].version.definition.actions ::
                    ApprovedInTable(s.t, s.procs[pid].version, action)))
  {
    if s.procs[pid].LaunchLoaded? { ListedMeansApproved(s.t, s.procs[pid].version); }
  }

  lemma RunIsDecided(s: Sys, hash: RitualDefinition -> string, pid: nat, otherChecks: bool, lockFree: bool)
    requires pid in s.procs && (s.procs[pid].LaunchListed? || s.procs[pid] == Done)
    ensures var t := Step(s, Launch(pid, otherChecks, lockFree), hash);
      && pid in t.procs
      && t.procs[pid] ==
        if s.procs[pid].LaunchListed? && AllApproved(s.procs[pid].approvals, s.procs[pid].version) && otherChecks
           && lockFree
        then Started(s.procs[pid].ritualId, s.procs[pid].version) else Done
  {}

  /** A run that comes directly after a completed activation does start: on the version the activation approved. */
  lemma ActivatedRitualRuns(evs: seq<Event>, hash: RitualDefinition -> string, activator: nat, ids: seq<Uuid>,
                            runner: nat)
    requires var s := Run(START, evs, hash);
      && activator in s.procs && s.procs[activator].Activating? && s.procs[activator].ritualId in s.t.rituals
      && runner !in s.procs && runner != activator && NewIds(s.t, ids)
    requires var s := Run(START, evs, hash);
      var current := s.t.rituals[s.procs[activator].ritualId].currentVersionId;
      current in s.t.versions && |ids| == |s.t.versions[current].definition.actions|
    ensures var s := Run(START, evs, hash); var ritual := s.procs[activator].ritualId;
      var u := Step(Activated(s, hash, activator, true, ids), Spawn(runner, Launching(ritual)), hash);
      var t := Launched(u, hash, runner, [], [], true, true);
      runner in t.procs
        && t.procs[runner] == Started(ritual, s.t.versions[s.t.rituals[ritual].currentVersionId])
  {
    var s := Run(START, evs, hash);
    var ritual := s.procs[activator].ritualId;
    var u := Step(Activated(s, hash, activator, true, ids), Spawn(runner, Launching(ritual)), hash);
    var v := s.t.versions[s.t.rituals[ritual].currentVersionId];
    var more := ActivatesThenRuns(activator, ids, runner, ritual);
    assert Run(START, evs + more, hash) == u by {
      RunFour(s, more, hash);
      Approvals.RunAppend(START, evs, more, hash);
    }
    ActivationStores(evs, hash, activator, true, ids);
    RunnerIsSpawned(s, hash, activator, ids, runner);
    RunStartsIff(evs + more, hash, runner, [], [], true, true);
    AddedMeansApproved(s.t, u.t, v, ids);
    RunIsLoaded(u, hash, runner);
  }

  function ActivatesThenRuns(activator: nat, ids: seq<Uuid>, runner: nat, ritual: Uuid): (evs: seq<Event>)
    ensures |evs| == 4
  {
    [Load(activator, 0), Approve(activator, true, ids), SetActive(activator), Spawn(runner, Launching(ritual))]
  }

  lemma AddedMeansApproved(t: Tables, u: Tables, v: RitualVersion, ids: seq<Uuid>)
    requires |ids| == |v.definition.actions| && AddsApprovals(t, u, v, ids)
    ensures forall action <- v.definition.actions :: ApprovedInTable(u, v, action)
  {
    forall action | action in v.definition.actions ensures ApprovedInTable(u, v, action) {
      var i :| 0 <= i < |ids| && v.definition.actions[i] == action;
      assert ids[i] in u.approvals && Approves(u.approvals[ids[i]], v, action);
    }
  }

  lemma RunnerIsSpawned(s: Sys, hash: RitualDefinition -> string, activator: nat, ids: seq<Uuid>, runner: nat)
    requires activator in s.procs && s.procs[activator].Activating? && runner !in s.procs && runner != activator
    ensures var ritual := s.procs[activator].ritualId; var a := Activated(s, hash, activator, true, ids);
      && runner !in a.procs
      && Step(a, Spawn(runner, Launching(ritual)), hash) == a.(procs := a.procs[runner := Launching(ritual)])
  {}

  lemma RunFour(s: Sys, e: seq<Event>, hash: RitualDefinition -> string)
    requires |e| == 4
    ensures Run(s, e, hash) == Step(Step(Step(Step(s, e[0], hash), e[1], hash), e[2], hash), e[3], hash)
  {
    forall i | 0 <= i < 4 ensures Run(s, e[..i + 1], hash) == Step(Run(s, e[..i], hash), e[i], hash) {
      assert e[..i + 1][..i] == e[..i];
    }
    assert e[..4] == e && e[..0] == [];
  }
}
