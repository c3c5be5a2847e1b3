/** Ritual versions and approvals. Every handler is a process whose storage operations are atomic, and other
    handlers run between them (crates/fubun-core/src/lib.rs, crates/fubun-storage/src/lib.rs). */
module Versions {
  import opened Wrappers
  import opened Domain

  const U32_MAX: nat := 0xFFFF_FFFF

  datatype RitualStatus = Draft | Active | Paused | Archived
  datatype Ritual = Ritual(id: Uuid, name: string, status: RitualStatus, currentVersionId: Uuid)
  datatype RitualVersion = RitualVersion(
    id: Uuid, ritualId: Uuid, version: nat, definition: RitualDefinition, contentHash: string)
  datatype Approval = Approval(id: Uuid, versionId: Uuid, fields: ApprovalFields, contentHash: string)

  datatype Tables = Tables(
    rituals: map<Uuid, Ritual>, versions: map<Uuid, RitualVersion>, approvals: map<Uuid, Approval>)

  datatype StorageError = NotFound | Sqlite

  // Storage operations; each is one transaction.

  /** The key of the table and UNIQUE(ritual_id, version). */
  predicate VersionCollides(t: Tables, v: RitualVersion) {
    || v.id in t.versions
    || exists k <- t.versions :: t.versions[k].ritualId == v.ritualId && t.versions[k].version == v.version
  }

  function CreateRitual(t: Tables, r: Ritual, v: RitualVersion): Result<Tables, StorageError> {
    if r.id in t.rituals || VersionCollides(t, v) then Err(Sqlite)
    else Ok(t.(rituals := t.rituals[r.id := r], versions := t.versions[v.id := v]))
  }

  function UpdateRitual(t: Tables, r: Ritual, v: RitualVersion): Result<Tables, StorageError> {
    if r.id !in t.rituals then Err(NotFound)
    else if VersionCollides(t, v) then Err(Sqlite)
    else
      var row := t.rituals[r.id].(name := r.name, status := r.status, currentVersionId := v.id);
      Ok(t.(rituals := t.rituals[r.id := row], versions := t.versions[v.id := v]))
  }

  function SetRitualStatus(t: Tables, id: Uuid, status: RitualStatus): Tables {
    if id !in t.rituals then t else t.(rituals := t.rituals[id := t.rituals[id].(status := status)])
  }

  function InsertApprovals(t: Tables, approvals: seq<Approval>): Result<Tables, StorageError> {
    if approvals == [] then Ok(t) else
      var a := approvals[|approvals| - 1];
      match InsertApprovals(t, approvals[..|approvals| - 1])
      case Err(e) => Err(e)
      case Ok(u) => if a.id in u.approvals || a.versionId !in t.versions then Err(Sqlite)
                    else Ok(u.(approvals := u.approvals[a.id := a]))
  }

  /** The ritual with the version it points to. */
  function GetRitual(t: Tables, id: Uuid): Option<(Ritual, RitualVersion)> {
    if id in t.rituals && t.rituals[id].currentVersionId in t.versions
    then Some((t.rituals[id], t.versions[t.rituals[id].currentVersionId])) else None
  }

  function ListApprovals(t: Tables, versionId: Uuid): set<Approval> {
    set k | k in t.approvals && t.approvals[k].versionId == versionId :: t.approvals[k]
  }

  /** u32::saturating_add(1). */
  function NextVersion(n: nat): nat { if n < U32_MAX then n + 1 else U32_MAX }

  // The approval check of preflight.

  predicate Matches(a: Approval, v: RitualVersion, action: ActionSpec) {
    a.versionId == v.id && a.contentHash == v.contentHash && a.fields == ApprovalFieldsOf(action)
  }

  predicate AllApproved(approvals: set<Approval>, v: RitualVersion) {
    forall action <- v.definition.actions :: exists a <- approvals :: Matches(a, v, action)
  }

  /** The same on the fields themselves: which approval covers which action. */
  predicate Approves(a: Approval, v: RitualVersion, action: ActionSpec) {
    && a.versionId == v.id && a.contentHash == v.contentHash
    && a.fields.capability == a.fields.actionType
    && match action
       case LinuxAppEnsureRunning(appId) =>
         a.fields.actionType == "linux.app.ensure_running.v1" && a.fields.resourceId == None
           && a.fields.appId == Some(appId)
       case LinuxPathOpen(resource) =>
         a.fields.actionType == "linux.path.open.v1" && a.fields.resourceId == Some(resource) && a.fields.appId == None
       case DesktopNotificationShow(_, _) =>
         a.fields.actionType == "desktop.notification.show.v1" && a.fields.resourceId == None && a.fields.appId == None
       case BrowserTabEnsureOpen(resource) =>
         a.fields.actionType == "browser.tab.ensure_open.v1" && a.fields.resourceId == Some(resource)
           && a.fields.appId == None
  }

  lemma MatchingApproves(a: Approval, v: RitualVersion, action: ActionSpec)
    ensures Matches(a, v, action) <==> Approves(a, v, action)
  {}

  // Handlers as processes.

  datatype Proc =
    | Creating(definition: RitualDefinition)
    | Updating(ritualId: Uuid, definition: RitualDefinition)
    | UpdateLoaded(ritual: Ritual, base: RitualVersion, next: RitualVersion)
    | Activating(ritualId: Uuid)
    | ActivateLoaded(ritualId: Uuid, version: RitualVersion)
    | ActivateApproved(ritualId: Uuid, version: RitualVersion)
    | Pausing(ritualId: Uuid)
    | PauseLoaded(ritualId: Uuid)
    | Launching(ritualId: Uuid)
    | LaunchLoaded(ritualId: Uuid, version: RitualVersion)
    | LaunchListed(ritualId: Uuid, version: RitualVersion, approvals: set<Approval>)
    | Started(ritualId: Uuid, version: RitualVersion)
    | Done

  datatype Sys = Sys(t: Tables, procs: map<nat, Proc>)

  const START := Sys(Tables(map[], map[], map[]), map[])

  datatype Event =
    | Spawn(pid: nat, proc: Proc)
    | Create(pid: nat, ritualId: Uuid, versionId: Uuid)
    | Load(pid: nat, versionId: Uuid)
    | CommitUpdate(pid: nat)
    | Approve(pid: nat, executable: bool, ids: seq<Uuid>)
    | SetActive(pid: nat)
    | SetPaused(pid: nat)
    | List(pid: nat)
    | Launch(pid: nat, otherChecks: bool, lockFree: bool)

  predicate MaySpawn(proc: Proc) {
    match proc
    case Creating(d) => DefinitionValid(d)
    case Updating(_, d) => DefinitionValid(d)
    case Activating(_) => true
    case Pausing(_) => true
    case Launching(_) => true
    case _ => false
  }

  function Put(s: Sys, pid: nat, proc: Proc): Sys { s.(procs := s.procs[pid := proc]) }

  /** What the handler does with the ritual and version it has read. */
  function LoadStep(s: Sys, pid: nat, versionId: Uuid, hash: RitualDefinition -> string): Sys
    requires pid in s.procs
  {
    match s.procs[pid]
    case Updating(id, d) => (
      match GetRitual(s.t, id)
      case None => Put(s, pid, Done)
      case Some((ritual, base)) =>
        Put(s, pid, UpdateLoaded(ritual, base, RitualVersion(versionId, id, NextVersion(base.version), d, hash(d)))))
    case Activating(id) => (
      match GetRitual(s.t, id)
      case None => Put(s, pid, Done)
      case Some((_, version)) => Put(s, pid, ActivateLoaded(id, version)))
    case Pausing(id) => (
      match GetRitual(s.t, id)
      case None => Put(s, pid, Done)
      case Some((ritual, _)) => Put(s, pid, if ritual.status == Archived then Done else PauseLoaded(id)))
    case Launching(id) => (
      match GetRitual(s.t, id)
      case None => Put(s, pid, Done)
      case Some((ritual, version)) => Put(s, pid, if ritual.status == Active then LaunchLoaded(id, version) else Done))
    case _ => s
  }

  function ApprovalsFor(v: RitualVersion, ids: seq<Uuid>): seq<Approval>
    requires |ids| == |v.definition.actions|
  {
    seq(|ids|, i requires 0 <= i < |ids| =>
      Approval(ids[i], v.id, ApprovalFieldsOf(v.definition.actions[i]), v.contentHash))
  }

  function Step(s: Sys, ev: Event, hash: RitualDefinition -> string): Sys {
    match ev
    case Spawn(pid, proc) => if pid in s.procs || !MaySpawn(proc) then s else Put(s, pid, proc)
    case Create(pid, ritualId, versionId) =>
      if pid !in s.procs || !s.procs[pid].Creating? then s else (
        var d := s.procs[pid].definition;
        match CreateRitual(s.t, Ritual(ritualId, d.name, Draft, versionId),
                           RitualVersion(versionId, ritualId, 1, d, hash(d)))
        case Err(_) => Put(s, pid, Done)
        case Ok(t) => Sys(t, s.procs[pid := Done]))
    case Load(pid, versionId) => if pid in s.procs then LoadStep(s, pid, versionId, hash) else s
    case CommitUpdate(pid) =>
      if pid !in s.procs || !s.procs[pid].UpdateLoaded? then s else (
        var p := s.procs[pid];
        var row := p.ritual.(name := p.next.definition.name, status := Draft, currentVersionId := p.next.id);
        match UpdateRitual(s.t, row, p.next)
        case Err(_) => Put(s, pid, Done)
        case Ok(t) => Sys(t, s.procs[pid := Done]))
    case Approve(pid, executable, ids) =>
      if pid !in s.procs || !s.procs[pid].ActivateLoaded? then s
      else if !executable || |ids| != |s.procs[pid].version.definition.actions| then Put(s, pid, Done) else (
        match InsertApprovals(s.t, ApprovalsFor(s.procs[pid].version, ids))
        case Err(_) => Put(s, pid, Done)
        case Ok(t) => Sys(t, s.procs[pid := ActivateApproved(s.procs[pid].ritualId, s.procs[pid].version)]))
    case SetActive(pid) =>
      if pid !in s.procs || !s.procs[pid].ActivateApproved? then s
      else Sys(SetRitualStatus(s.t, s.procs[pid].ritualId, Active), s.procs[pid := Done])
    case SetPaused(pid) =>
      if pid !in s.procs || !s.procs[pid].PauseLoaded? then s
      else Sys(SetRitualStatus(s.t, s.procs[pid].ritualId, Paused), s.procs[pid := Done])
    case List(pid) =>
      if pid !in s.procs || !s.procs[pid].LaunchLoaded? then s
      else Put(s, pid,
               LaunchListed(s.procs[pid].ritualId, s.procs[pid].version, ListApprovals(s.t, s.procs[pid].version.id)))
    case Launch(pid, otherChecks, lockFree) =>
      if pid !in s.procs || !s.procs[pid].LaunchListed? then s
      else if AllApproved(s.procs[pid].approvals, s.procs[pid].version) && otherChecks && lockFree
      then Put(s, pid, Started(s.procs[pid].ritualId, s.procs[pid].version))
      else Put(s, pid, Done)
  }

  function Run(s: Sys, evs: seq<Event>, hash: RitualDefinition -> string): Sys {
    if evs == [] then s else Step(Run(s, evs[..|evs| - 1], hash), evs[|evs| - 1], hash)
  }

  // Version numbers.

  predicate SameNumber(t: Tables, k: Uuid, l: Uuid) {
    && k in t.versions && l in t.versions && t.versions[k].ritualId == t.versions[l].ritualId
    && t.versions[k].version == t.versions[l].version
  }

  ghost predicate VersionRowsOk(t: Tables) {
    && (forall k <- t.versions :: t.versions[k].id == k && t.versions[k].ritualId in t.rituals
                                  && DefinitionValid(t.versions[k].definition))
    && (forall k, l :: SameNumber(t, k, l) ==> k == l)
  }

  predicate HasVersion(t: Tables, ritual: Uuid, n: nat) {
    exists k <- t.versions :: t.versions[k].ritualId == ritual && t.versions[k].version == n
  }

  /** The version numbers of a ritual are exactly 1..n, and its current version is number n. */
  ghost predicate Numbered(t: Tables, ritual: Uuid)
    requires ritual in t.rituals
  {
    var current := t.rituals[ritual].currentVersionId;
    && t.rituals[ritual].id == ritual
    && current in t.versions && t.versions[current].ritualId == ritual
    && 1 <= t.versions[current].version <= U32_MAX
    && (forall n: nat :: HasVersion(t, ritual, n) <==> 1 <= n <= t.versions[current].version)
  }

  ghost predicate RitualsOk(t: Tables) { forall r <- t.rituals :: Numbered(t, r) }

  /** What the processes remember is a row of the version table. */
  predicate Remembered(t: Tables, proc: Proc) {
    match proc
    case UpdateLoaded(ritual, base, next) =>
      && base.id in t.versions && t.versions[base.id] == base && base.ritualId == ritual.id && ritual.id in t.rituals
      && next.ritualId == ritual.id && next.version == NextVersion(base.version) && DefinitionValid(next.definition)
    case Creating(d) => DefinitionValid(d)
    case Updating(_, d) => DefinitionValid(d)
    case ActivateLoaded(r, v) => v.id in t.versions && t.versions[v.id] == v && v.ritualId == r
    case ActivateApproved(r, v) => v.id in t.versions && t.versions[v.id] == v && v.ritualId == r
    case LaunchLoaded(r, v) => v.id in t.versions && t.versions[v.id] == v && v.ritualId == r
    case LaunchListed(r, v, approvals) =>
      v.id in t.versions && t.versions[v.id] == v && v.ritualId == r && approvals <= t.approvals.Values
    case Started(r, v) => v.id in t.versions && t.versions[v.id] == v && v.ritualId == r
    case _ => true
  }

  predicate ProcsOk(s: Sys) { forall pid <- s.procs :: Remembered(s.t, s.procs[pid]) }

  predicate ApprovalRowsOk(t: Tables) { forall k <- t.approvals :: t.approvals[k].id == k }

  ghost predicate Inv(s: Sys) { VersionRowsOk(s.t) && RitualsOk(s.t) && ApprovalRowsOk(s.t) && ProcsOk(s) }

  /** Rows are only ever added: versions and approvals are immutable. */
  predicate Grows(t: Tables, u: Tables) {
    && (forall k <- t.versions :: k in u.versions && u.versions[k] == t.versions[k])
    && (forall k <- t.approvals :: k in u.approvals && u.approvals[k] == t.approvals[k])
    && t.rituals.Keys <= u.rituals.Keys
  }

  lemma {:induction false} InsertApprovalsRows(t: Tables, approvals: seq<Approval>)
    requires InsertApprovals(t, approvals).Ok?
    ensures var u := InsertApprovals(t, approvals).value;
      && u.rituals == t.rituals && u.versions == t.versions && Grows(t, u)
      && (forall i :: 0 <= i < |approvals| ==>
            && approvals[i].id !in t.approvals && approvals[i].id in u.approvals
            && u.approvals[approvals[i].id] == approvals[i])
      && (forall k <- u.approvals :: k in t.approvals || exists i :: 0 <= i < |approvals| && approvals[i].id == k)
  {
    if approvals != [] {
      var init := approvals[..|approvals| - 1];
      InsertApprovalsRows(t, init);
      forall i | 0 <= i < |init| ensures init[i] == approvals[i] {}
    }
  }

  lemma StepGrows(s: Sys, ev: Event, hash: RitualDefinition -> string)
    ensures Grows(s.t, Step(s, ev, hash).t)
  {
    if ev.Approve? && Step(s, ev, hash).t != s.t {
      InsertApprovalsRows(s.t, ApprovalsFor(s.procs[ev.pid].version, ev.ids));
    }
  }

  lemma RememberedStays(t: Tables, u: Tables, proc: Proc)
    requires Grows(t, u) && Remembered(t, proc)
    ensures Remembered(u, proc)
  {
    if proc.LaunchListed? {
      forall a | a in proc.approvals ensures a in u.approvals.Values {
        var k :| k in t.approvals && t.approvals[k] == a;
        assert k in u.approvals && u.approvals[k] == a;
      }
    }
  }

  lemma LoadIsRemembered(s: Sys, pid: nat, versionId: Uuid, hash: RitualDefinition -> string)
    requires VersionRowsOk(s.t) && RitualsOk(s.t) && pid in s.procs && Remembered(s.t, s.procs[pid])
    ensures Remembered(s.t, LoadStep(s, pid, versionId, hash).procs[pid])
  {
    match s.procs[pid]
    case Updating(id, _) => if id in s.t.rituals { CurrentIsItsOwn(s.t, id); }
    case Activating(id) => if id in s.t.rituals { CurrentIsItsOwn(s.t, id); }
    case Launching(id) => if id in s.t.rituals { CurrentIsItsOwn(s.t, id); }
    case _ =>
  }

  lemma CurrentIsItsOwn(t: Tables, id: Uuid)
    requires VersionRowsOk(t) && RitualsOk(t) && id in t.rituals
    ensures var current := t.rituals[id].currentVersionId;
      && t.rituals[id].id == id && current in t.versions
      && t.versions[current].id == current && t.versions[current].ritualId == id
  {
    assert Numbered(t, id);
  }

  lemma AdvanceIsRemembered(s: Sys, ev: Event, hash: RitualDefinition -> string, pid: nat)
    requires !ev.Load? && !ev.Spawn? && pid in s.procs && Remembered(s.t, s.procs[pid])
    requires pid in Step(s, ev, hash).procs && Step(s, ev, hash).procs[pid] != s.procs[pid]
    ensures Remembered(s.t, Step(s, ev, hash).procs[pid])
  {
    if ev.List? {
      forall a | a in ListApprovals(s.t, s.procs[pid].version.id) ensures a in s.t.approvals.Values {}
    }
  }

  lemma OtherProcsStay(s: Sys, ev: Event, hash: RitualDefinition -> string, pid: nat)
    requires pid in Step(s, ev, hash).procs
    ensures pid !in s.procs ==> Remembered(s.t, Step(s, ev, hash).procs[pid])
    ensures pid in s.procs && pid != ev.pid ==> Step(s, ev, hash).procs[pid] == s.procs[pid]
  {}

  /** The process an event is for remembers rows of the tables as they were before the event. */
  lemma ProcAdvances(s: Sys, ev: Event, hash: RitualDefinition -> string, pid: nat)
    requires VersionRowsOk(s.t) && RitualsOk(s.t) && pid in Step(s, ev, hash).procs
    requires pid in s.procs ==> Remembered(s.t, s.procs[pid])
    ensures Remembered(s.t, Step(s, ev, hash).procs[pid])
  {
    OtherProcsStay(s, ev, hash, pid);
    if pid in s.procs && Step(s, ev, hash).procs[pid] != s.procs[pid] {
      if ev.Load? { LoadIsRemembered(s, pid, ev.versionId, hash); }
      else if !ev.Spawn? { AdvanceIsRemembered(s, ev, hash, pid); }
    }
  }

  lemma ProcsKept(s: Sys, ev: Event, hash: RitualDefinition -> string)
    requires Inv(s)
    ensures ProcsOk(Step(s, ev, hash))
  {
    forall pid | pid in Step(s, ev, hash).procs
      ensures Remembered(Step(s, ev, hash).t, Step(s, ev, hash).procs[pid])
    {
      ProcAdvances(s, ev, hash, pid);
      StepGrows(s, ev, hash);
      RememberedStays(s.t, Step(s, ev, hash).t, Step(s, ev, hash).procs[pid]);
    }
  }

  // Updates.

  lemma CreateKeepsNumbers(t: Tables, r: Ritual, v: RitualVersion)
    requires VersionRowsOk(t) && RitualsOk(t) && CreateRitual(t, r, v).Ok?
    requires v.ritualId == r.id && v.version == 1 && r.currentVersionId == v.id && DefinitionValid(v.definition)
    ensures VersionRowsOk(CreateRitual(t, r, v).value) && RitualsOk(CreateRitual(t, r, v).value)
  {
    var u := CreateRitual(t, r, v).value;
    forall q | q in u.rituals ensures Numbered(u, q) {
      if q == r.id {
        forall n: nat ensures HasVersion(u, q, n) <==> n == 1 {
          assert u.versions[v.id] == v;
        }
      } else {
        assert Numbered(t, q);
        SameVersions(t, u, v, q);
      }
    }
    NumbersStayUnique(t, u, v);
  }

  /** A new version row matters to its own ritual only. */
  lemma SameVersions(t: Tables, u: Tables, v: RitualVersion, q: Uuid)
    requires v.id !in t.versions && u.versions == t.versions[v.id := v] && v.ritualId != q
    ensures forall n: nat :: HasVersion(u, q, n) <==> HasVersion(t, q, n)
  {
    forall n: nat ensures HasVersion(u, q, n) <==> HasVersion(t, q, n) {
      if HasVersion(t, q, n) {
        var k :| k in t.versions && t.versions[k].ritualId == q && t.versions[k].version == n;
        assert u.versions[k] == t.versions[k];
      }
    }
  }

  lemma NextNumber(t: Tables, u: Tables, v: RitualVersion, q: Uuid)
    requires v.id !in t.versions && u.versions == t.versions[v.id := v] && v.ritualId == q
    ensures forall n: nat :: HasVersion(u, q, n) <==> HasVersion(t, q, n) || n == v.version
  {
    forall n: nat ensures HasVersion(u, q, n) <==> HasVersion(t, q, n) || n == v.version {
      if HasVersion(t, q, n) {
        var k :| k in t.versions && t.versions[k].ritualId == q && t.versions[k].version == n;
        assert u.versions[k] == t.versions[k];
      }
      assert u.versions[v.id] == v;
    }
  }

  /** An update commits exactly when the version it read is still the current one, there is a next number,
      and its own id is new; otherwise it is rolled back. */
  lemma UpdateCommitsIffCurrent(t: Tables, proc: Proc)
    requires VersionRowsOk(t) && RitualsOk(t) && proc.UpdateLoaded? && Remembered(t, proc)
    ensures UpdateRitual(t, proc.ritual, proc.next).Ok? <==>
      t.rituals[proc.ritual.id].currentVersionId == proc.base.id && proc.base.version < U32_MAX
        && proc.next.id !in t.versions
  {
    var r := proc.ritual.id;
    assert Numbered(t, r);
    assert HasVersion(t, r, proc.base.version);
    assert VersionCollides(t, proc.next) <==> proc.next.id in t.versions || HasVersion(t, r, proc.next.version);
    if proc.base.version == t.versions[t.rituals[r].currentVersionId].version {
      assert SameNumber(t, proc.base.id, t.rituals[r].currentVersionId);
    }
  }

  lemma UpdateKeepsNumbers(t: Tables, proc: Proc, r: Ritual)
    requires VersionRowsOk(t) && RitualsOk(t) && proc.UpdateLoaded? && Remembered(t, proc)
    requires r.id == proc.ritual.id && UpdateRitual(t, r, proc.next).Ok?
    ensures var u := UpdateRitual(t, r, proc.next).value;
      && VersionRowsOk(u) && RitualsOk(u)
      && u.versions[u.rituals[r.id].currentVersionId].version
        == t.versions[t.rituals[r.id].currentVersionId].version + 1
  {
    var u := UpdateRitual(t, r, proc.next).value;
    UpdateCommitsIffCurrent(t, proc);
    forall q | q in u.rituals ensures Numbered(u, q) {
      assert Numbered(t, q);
      if q == r.id { NextNumber(t, u, proc.next, q); } else { SameVersions(t, u, proc.next, q); }
    }
    NumbersStayUnique(t, u, proc.next);
  }

  lemma NumbersStayUnique(t: Tables, u: Tables, v: RitualVersion)
    requires !VersionCollides(t, v) && u.versions == t.versions[v.id := v]
    requires forall k, l :: SameNumber(t, k, l) ==> k == l
    ensures forall k, l :: SameNumber(u, k, l) ==> k == l
  {
    forall k, l | SameNumber(u, k, l) ensures k == l {
      assert k != v.id && l != v.id ==> SameNumber(t, k, l);
    }
  }

  lemma SameRowsSameNumbers(t: Tables, u: Tables)
    requires VersionRowsOk(t) && RitualsOk(t) && SameVersionRows(t, u)
    ensures VersionRowsOk(u) && RitualsOk(u)
  {
    assert forall k, l :: SameNumber(u, k, l) <==> SameNumber(t, k, l);
    forall r | r in u.rituals ensures Numbered(u, r) {
      assert Numbered(t, r);
      assert forall n: nat :: HasVersion(u, r, n) <==> HasVersion(t, r, n);
    }
  }

  lemma CommitKeepsNumbers(s: Sys, pid: nat, hash: RitualDefinition -> string)
    requires VersionRowsOk(s.t) && RitualsOk(s.t) && ProcsOk(s)
    ensures VersionRowsOk(Step(s, CommitUpdate(pid), hash).t) && RitualsOk(Step(s, CommitUpdate(pid), hash).t)
  {
    if Step(s, CommitUpdate(pid), hash).t != s.t {
      var p := s.procs[pid];
      UpdateKeepsNumbers(s.t, p,
                         p.ritual.(name := p.next.definition.name, status := Draft, currentVersionId := p.next.id));
    }
  }

  predicate SameVersionRows(t: Tables, u: Tables) {
    && u.versions == t.versions && u.rituals.Keys == t.rituals.Keys
    && forall r <- t.rituals ::
      u.rituals[r].currentVersionId == t.rituals[r].currentVersionId && u.rituals[r].id == t.rituals[r].id
  }

  lemma OthersKeepVersionRows(s: Sys, ev: Event, hash: RitualDefinition -> string)
    requires !ev.Create? && !ev.CommitUpdate?
    ensures SameVersionRows(s.t, Step(s, ev, hash).t)
  {
    if ev.Approve? && Step(s, ev, hash).t != s.t {
      InsertApprovalsRows(s.t, ApprovalsFor(s.procs[ev.pid].version, ev.ids));
    }
  }

  lemma NumbersKept(s: Sys, ev: Event, hash: RitualDefinition -> string)
    requires Inv(s)
    ensures VersionRowsOk(Step(s, ev, hash).t) && RitualsOk(Step(s, ev, hash).t)
  {
    match ev
    case Create(pid, ritualId, versionId) =>
      if Step(s, ev, hash).t != s.t {
        var d := s.procs[pid].definition;
        CreateKeepsNumbers(s.t, Ritual(ritualId, d.name, Draft, versionId),
                           RitualVersion(versionId, ritualId, 1, d, hash(d)));
      }
    case CommitUpdate(pid) => CommitKeepsNumbers(s, pid, hash);
    case _ =>
      OthersKeepVersionRows(s, ev, hash);
      SameRowsSameNumbers(s.t, Step(s, ev, hash).t);
  }

  lemma ApprovalRowsKept(s: Sys, ev: Event, hash: RitualDefinition -> string)
    requires ApprovalRowsOk(s.t)
    ensures ApprovalRowsOk(Step(s, ev, hash).t)
  {
    if ev.Approve? && Step(s, ev, hash).t != s.t {
      InsertApprovalsRows(s.t, ApprovalsFor(s.procs[ev.pid].version, ev.ids));
    }
  }

  lemma {:induction false} ReachableInv(evs: seq<Event>, hash: RitualDefinition -> string)
    ensures Inv(Run(START, evs, hash))
  {
    if evs != [] {
      var s := Run(START, evs[..|evs| - 1], hash);
      ReachableInv(evs[..|evs| - 1], hash);
      ProcsKept(s, evs[|evs| - 1], hash);
      NumbersKept(s, evs[|evs| - 1], hash);
      ApprovalRowsKept(s, evs[|evs| - 1], hash);
    }
  }

  /** No lost updates: in every interleaving the stored version numbers of a ritual are exactly 1..n, without
      repetition, its current version is number n, and every stored definition is valid. */
  lemma VersionsAreNumbered(evs: seq<Event>, hash: RitualDefinition -> string, ritual: Uuid)
    requires ritual in Run(START, evs, hash).t.rituals
    ensures var t := Run(START, evs, hash).t;
      && Numbered(t, ritual)
      && (forall k, l :: SameNumber(t, k, l) ==> k == l)
      && (forall k <- t.versions :: DefinitionValid(t.versions[k].definition))
  {
    ReachableInv(evs, hash);
  }

  /** A commit of an update succeeds iff its read is not stale (and a next number exists); a failed one changes no
      table, a successful one moves the ritual to exactly the next number. */
  lemma StaleUpdateRollsBack(evs: seq<Event>, hash: RitualDefinition -> string, pid: nat)
    requires pid in Run(START, evs, hash).procs && Run(START, evs, hash).procs[pid].UpdateLoaded?
    ensures var s := Run(START, evs, hash); var p := s.procs[pid]; var u := Step(s, CommitUpdate(pid), hash);
      && p.ritual.id in s.t.rituals && p.ritual.id in u.t.rituals
      && var live := s.t.rituals[p.ritual.id].currentVersionId == p.base.id && p.base.version < U32_MAX
                      && p.next.id !in s.t.versions;
        && (!live ==> u.t == s.t)
        && (live ==>
              && u.t.rituals == s.t.rituals[p.ritual.id := s.t.rituals[p.ritual.id].(
                   name := p.next.definition.name, status := Draft, currentVersionId := p.next.id)]
              && u.t.versions == s.t.versions[p.next.id := p.next] && u.t.approvals == s.t.approvals
              && p.next.version == p.base.version + 1)
  {
    ReachableInv(evs, hash);
    UpdateCommitsIffCurrent(Run(START, evs, hash).t, Run(START, evs, hash).procs[pid]);
  }
}
