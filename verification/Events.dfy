/** The event store, observation scopes and the handlers that fill them, as processes over atomic storage operations
    (crates/fubun-storage/src/lib.rs, ingest and observation handlers of crates/fubun-core/src/lib.rs). */
module Events {
  import opened Wrappers
  import opened Domain
  import opened Selection

  const I64_MAX: nat := 0x7FFF_FFFF_FFFF_FFFF

  datatype EventType = SyntheticType | BrowserOpenedType | VscodeOpenedType
  datatype EventData =
    | SyntheticData(text: string, counter: int) | BrowserOpened(page: Uuid) | VscodeOpened(workspace: Uuid)
  datatype StoredEvent = StoredEvent(
    id: Uuid, eventType: EventType, source: string, adapterId: string, adapterVersion: string,
    instance: Uuid, sequence: nat, data: EventData)

  datatype AdapterRow = AdapterRow(adapterId: string, version: string, lastSequence: nat)

  datatype Tables = Tables(
    adapters: map<Uuid, AdapterRow>,
    events: map<Uuid, StoredEvent>,
    resources: map<Uuid, Resource>,
    scopes: map<Uuid, ObservationScope>)

  const EMPTY := Tables(map[], map[], map[], map[])

  datatype StorageError = Validation | DuplicateEvent | DuplicateResource | Sqlite

  // Storage operations.

  function UpsertAdapter(adapters: map<Uuid, AdapterRow>, e: StoredEvent): map<Uuid, AdapterRow> {
    var last := if e.instance in adapters && e.sequence < adapters[e.instance].lastSequence
                then adapters[e.instance].lastSequence else e.sequence;
    adapters[e.instance := AdapterRow(e.adapterId, e.adapterVersion, last)]
  }

  predicate SameSlot(a: StoredEvent, b: StoredEvent) { a.instance == b.instance && a.sequence == b.sequence }

  predicate EventCollides(t: Tables, e: StoredEvent) {
    e.id in t.events || exists k <- t.events :: SameSlot(t.events[k], e)
  }

  function InsertEvent(t: Tables, e: StoredEvent): Result<Tables, StorageError> {
    if e.sequence > I64_MAX then Err(Validation)
    else if EventCollides(t, e) then Err(DuplicateEvent)
    else Ok(t.(adapters := UpsertAdapter(t.adapters, e), events := t.events[e.id := e]))
  }

  predicate ResourceCollides(t: Tables, r: Resource) {
    r.id in t.resources || exists k <- t.resources :: t.resources[k].canonicalLocator == r.canonicalLocator
  }

  function CreateResource(t: Tables, r: Resource): Result<Tables, StorageError> {
    if ResourceCollides(t, r) then Err(DuplicateResource) else Ok(t.(resources := t.resources[r.id := r]))
  }

  predicate IsScopeOf(s: ObservationScope, source: ObservationSource, resource: Uuid) {
    s.source == source && s.resourceId == resource
  }

  predicate ScopeExists(t: Tables, source: ObservationSource, resource: Uuid) {
    exists k <- t.scopes :: IsScopeOf(t.scopes[k], source, resource)
  }

  /** One operation: the row of (source, resource) is re-activated, or a new row is inserted. */
  ghost function EnsureScope(t: Tables, candidate: ObservationScope): Result<(Tables, Uuid), StorageError> {
    if ScopeExists(t, candidate.source, candidate.resourceId) then
      var k :| k in t.scopes && IsScopeOf(t.scopes[k], candidate.source, candidate.resourceId);
      Ok((t.(scopes := t.scopes[k := t.scopes[k].(status := ScopeActive)]), k))
    else if candidate.id in t.scopes || candidate.resourceId !in t.resources then Err(Sqlite)
    else Ok((t.(scopes := t.scopes[candidate.id := candidate]), candidate.id))
  }

  function PauseScope(t: Tables, scope: Uuid): Tables {
    if scope in t.scopes then t.(scopes := t.scopes[scope := t.scopes[scope].(status := ScopePaused)]) else t
  }

  // What a table row may say.

  predicate EventRowsOk(t: Tables) {
    && (forall k <- t.events :: t.events[k].id == k && t.events[k].sequence <= I64_MAX)
    && (forall k, l :: k in t.events && l in t.events && SameSlot(t.events[k], t.events[l]) ==> k == l)
  }

  predicate IsLatest(t: Tables, instance: Uuid)
    requires instance in t.adapters
  {
    && (exists k <- t.events ::
          t.events[k].instance == instance && t.events[k].sequence == t.adapters[instance].lastSequence)
    && (forall k <- t.events ::
          t.events[k].instance == instance ==> t.events[k].sequence <= t.adapters[instance].lastSequence)
  }

  /** An instance has a row exactly when it has an event, and last_sequence_no is the maximum over its events. */
  predicate AdapterRowsOk(t: Tables) {
    && (forall k <- t.events :: t.events[k].instance in t.adapters)
    && (forall i <- t.adapters :: IsLatest(t, i))
  }

  predicate SameScopeKey(t: Tables, k: Uuid, l: Uuid) {
    k in t.scopes && l in t.scopes && t.scopes[k].source == t.scopes[l].source
      && t.scopes[k].resourceId == t.scopes[l].resourceId
  }

  predicate SameLocator(t: Tables, k: Uuid, l: Uuid) {
    k in t.resources && l in t.resources && t.resources[k].canonicalLocator == t.resources[l].canonicalLocator
  }

  ghost predicate ResourceRowsOk(t: Tables) {
    && (forall k <- t.resources :: t.resources[k].id == k)
    && (forall k, l :: SameLocator(t, k, l) ==> k == l)
    && (forall k <- t.scopes :: t.scopes[k].id == k && t.scopes[k].resourceId in t.resources)
    && (forall k, l :: SameScopeKey(t, k, l) ==> k == l)
  }

  // The store object.

  class EventStore {
    var adapters: map<Uuid, AdapterRow>
    var events: map<Uuid, StoredEvent>

    constructor ()
      ensures adapters == map[] && events == map[]
    {
      adapters, events := map[], map[];
    }

    function Rows(): Tables
      reads this
    {
      Tables(adapters, events, map[], map[])
    }

    /** The adapter row is written first; a colliding event drops the transaction and with it that write. */
    method Insert(e: StoredEvent) returns (r: Result<(), StorageError>)
      requires EventRowsOk(Rows()) && AdapterRowsOk(Rows())
      modifies this
      ensures r.Ok? <==>
        && e.sequence <= 0x7FFF_FFFF_FFFF_FFFF && e.id !in old(events)
        && forall k <- old(events) :: old(events)[k].instance != e.instance || old(events)[k].sequence != e.sequence
      ensures r.Err? ==> Rows() == old(Rows())
      ensures r.Ok? ==> events == old(events)[e.id := e] && e.instance in adapters
      ensures r.Ok? ==>
        && adapters == old(adapters)[e.instance := adapters[e.instance]]
        && adapters[e.instance].adapterId == e.adapterId && adapters[e.instance].version == e.adapterVersion
        && adapters[e.instance].lastSequence >= e.sequence
      ensures InsertEvent(old(Rows()), e) == if r.Ok? then Ok(Rows()) else Err(r.error)
      ensures EventRowsOk(Rows()) && AdapterRowsOk(Rows())
    {
      if e.sequence > I64_MAX { return Err(Validation); }
      var saved := adapters;
      var last := e.sequence;
      if e.instance in adapters && e.sequence < adapters[e.instance].lastSequence {
        last := adapters[e.instance].lastSequence;
      }
      adapters := adapters[e.instance := AdapterRow(e.adapterId, e.adapterVersion, last)];
      if e.id in events || exists k <- events :: SameSlot(events[k], e) {
        adapters := saved;
        return Err(DuplicateEvent);
      }
      events := events[e.id := e];
      InsertKeepsEventRows(old(Rows()), e);
      return Ok(());
    }
  }

  lemma InsertKeepsEventRows(t: Tables, e: StoredEvent)
    requires EventRowsOk(t) && AdapterRowsOk(t) && InsertEvent(t, e).Ok?
    ensures EventRowsOk(InsertEvent(t, e).value) && AdapterRowsOk(InsertEvent(t, e).value)
  {
    InsertKeepsSlots(t, e);
    InsertKeepsMaxima(t, e);
  }

  lemma InsertKeepsSlots(t: Tables, e: StoredEvent)
    requires EventRowsOk(t) && InsertEvent(t, e).Ok?
    ensures EventRowsOk(InsertEvent(t, e).value)
  {}

  lemma InsertKeepsMaxima(t: Tables, e: StoredEvent)
    requires AdapterRowsOk(t) && InsertEvent(t, e).Ok?
    ensures AdapterRowsOk(InsertEvent(t, e).value)
  {
    forall i | i in InsertEvent(t, e).value.adapters ensures IsLatest(InsertEvent(t, e).value, i) {
      if i in t.adapters { assert IsLatest(t, i); }
      InsertKeepsLatest(t, e, i);
    }
  }

  lemma InsertKeepsLatest(t: Tables, e: StoredEvent, i: Uuid)
    requires InsertEvent(t, e).Ok? && i in InsertEvent(t, e).value.adapters && e.id !in t.events
    requires i in t.adapters ==> IsLatest(t, i)
    requires forall k <- t.events :: t.events[k].instance in t.adapters
    ensures IsLatest(InsertEvent(t, e).value, i)
  {
    var u := InsertEvent(t, e).value;
    if i in t.adapters {
      var k :| k in t.events && t.events[k].instance == i && t.events[k].sequence == t.adapters[i].lastSequence;
      assert u.events[k] == t.events[k];
    }
    if i == e.instance { assert u.events[e.id] == e; }
  }

  // Handlers as processes.

  datatype Ack = Ack(stored: bool, duplicate: bool)

  datatype Proc =
    | Ingesting(event: StoredEvent)                                   // event.ingest of a client
    | Emitting(hello: Hello, claimed: EventType, resource: Uuid, sequence: nat, eventId: Uuid)
    | EmitFound(hello: Hello, resource: Uuid, sequence: nat, eventId: Uuid)
    | EmitScoped(hello: Hello, resource: Uuid, sequence: nat, eventId: Uuid)
    | Acked(event: StoredEvent, fromAdapter: bool, ack: Ack)
    | Refused                                                         // answered without an insert
    | Enabling(source: ObservationSource, locator: string, resourceId: Uuid, scopeId: Uuid)
    | EnableListing(source: ObservationSource, locator: string, scopeId: Uuid)
    | EnableScoping(source: ObservationSource, locator: string, resource: Uuid, scopeId: Uuid)
    | Enabled(source: ObservationSource, locator: string, resource: Uuid, scope: Uuid)

  datatype Sys = Sys(t: Tables, procs: map<nat, Proc>)

  const START := Sys(EMPTY, map[])

  datatype Event =
    | Spawn(pid: nat, proc: Proc)
    | Advance(pid: nat)
    | AddResource(resource: Resource)       // resource.create of a client
    | Pause(scope: Uuid)

  // What an adapter may report.

  function SourceOf(adapterId: string): Option<ObservationSource> {
    if adapterId == BROWSER then Some(BrowserChromium) else if adapterId == VSCODE then Some(VscodeWorkspace) else None
  }

  function KindOf(source: ObservationSource): ResourceKind {
    match source case BrowserChromium => WebPageKind case VscodeWorkspace => DirectoryKind
  }

  function TypeOf(source: ObservationSource): EventType {
    match source case BrowserChromium => BrowserOpenedType case VscodeWorkspace => VscodeOpenedType
  }

  function CapabilityOf(source: ObservationSource): string {
    match source case BrowserChromium => BROWSER_EVENT case VscodeWorkspace => VSCODE_EVENT
  }

  function SourceName(source: ObservationSource): string {
    match source case BrowserChromium => "browser.chromium" case VscodeWorkspace => "vscode.workspace"
  }

  function DataOf(source: ObservationSource, resource: Uuid): EventData {
    match source case BrowserChromium => BrowserOpened(resource) case VscodeWorkspace => VscodeOpened(resource)
  }

  predicate MayReport(hello: Hello, claimed: EventType, resource: Uuid) {
    && SourceOf(hello.adapterId).Some?
    && var source := SourceOf(hello.adapterId).value;
      && claimed == TypeOf(source) && CapabilityOf(source) in hello.eventCapabilities
      && (source == BrowserChromium ==> resource in hello.permittedResources)
  }

  function Built(hello: Hello, source: ObservationSource, resource: Uuid, sequence: nat, eventId: Uuid): StoredEvent {
    StoredEvent(eventId, TypeOf(source), SourceName(source), hello.adapterId, hello.version, hello.instanceId, sequence,
                DataOf(source, resource))
  }

  predicate NonBlank(text: string) { exists c <- text :: !WhiteSpace(c) }

  /** A client may only ingest valid synthetic events. */
  predicate ClientMayIngest(e: StoredEvent) {
    && e.eventType == SyntheticType && e.data.SyntheticData?
    && NonBlank(e.source) && NonBlank(e.adapterId) && NonBlank(e.adapterVersion)
    && NonBlank(e.data.text) && Utf8Length(e.data.text) <= 128 && e.sequence <= I64_MAX
  }

  predicate MaySpawn(proc: Proc) { proc.Ingesting? || proc.Emitting? || proc.Enabling? }

  function Put(s: Sys, pid: nat, proc: Proc): Sys { s.(procs := s.procs[pid := proc]) }

  function InsertStep(s: Sys, pid: nat, e: StoredEvent, fromAdapter: bool): Sys {
    match InsertEvent(s.t, e)
    case Ok(t) => Sys(t, s.procs[pid := Acked(e, fromAdapter, Ack(true, false))])
    case Err(error) => Put(s, pid, Acked(e, fromAdapter, Ack(false, error == DuplicateEvent)))
  }

  predicate ActiveScopeListed(t: Tables, source: ObservationSource, resource: Uuid) {
    exists k <- t.scopes :: IsScopeOf(t.scopes[k], source, resource) && t.scopes[k].status == ScopeActive
  }

  predicate IsEnabledResource(t: Tables, id: Uuid, source: ObservationSource, locator: string) {
    id in t.resources && t.resources[id].kind == KindOf(source) && t.resources[id].canonicalLocator == locator
  }

  ghost function EnableStep(s: Sys, pid: nat): Sys
    requires pid in s.procs
  {
    match s.procs[pid]
    case Enabling(source, locator, resourceId, scopeId) => (
      match CreateResource(s.t, Resource(resourceId, KindOf(source), "", locator, locator))
      case Ok(t) => Sys(t, s.procs[pid := EnableScoping(source, locator, resourceId, scopeId)])
      case Err(_) => Put(s, pid, EnableListing(source, locator, scopeId)))
    case EnableListing(source, locator, scopeId) =>
      if exists id :: IsEnabledResource(s.t, id, source, locator) then
        var id :| IsEnabledResource(s.t, id, source, locator);
        Put(s, pid, EnableScoping(source, locator, id, scopeId))
      else Put(s, pid, Refused)
    case EnableScoping(source, locator, resource, scopeId) => (
      match EnsureScope(s.t, ObservationScope(scopeId, source, resource, ScopeActive))
      case Ok((t, scope)) => Sys(t, s.procs[pid := Enabled(source, locator, resource, scope)])
      case Err(_) => Put(s, pid, Refused))
    case _ => s
  }

  function EmitStep(s: Sys, pid: nat): Sys
    requires pid in s.procs
  {
    match s.procs[pid]
    case Ingesting(e) => if ClientMayIngest(e) then InsertStep(s, pid, e, false) else Put(s, pid, Refused)
    case Emitting(hello, claimed, resource, sequence, eventId) =>
      if && MayReport(hello, claimed, resource) && resource in s.t.resources
         && s.t.resources[resource].kind == KindOf(SourceOf(hello.adapterId).value)
      then Put(s, pid, EmitFound(hello, resource, sequence, eventId)) else Put(s, pid, Refused)
    case EmitFound(hello, resource, sequence, eventId) =>
      if SourceOf(hello.adapterId).Some? && ActiveScopeListed(s.t, SourceOf(hello.adapterId).value, resource)
      then Put(s, pid, EmitScoped(hello, resource, sequence, eventId)) else Put(s, pid, Refused)
    case EmitScoped(hello, resource, sequence, eventId) =>
      if SourceOf(hello.adapterId).Some?
      then InsertStep(s, pid, Built(hello, SourceOf(hello.adapterId).value, resource, sequence, eventId), true)
      else Put(s, pid, Refused)
    case _ => s
  }

  ghost function Step(s: Sys, ev: Event): Sys {
    match ev
    case Spawn(pid, proc) => if pid in s.procs || !MaySpawn(proc) then s else Put(s, pid, proc)
    case Advance(pid) =>
      if pid !in s.procs then s
      else if s.procs[pid].Enabling? || s.procs[pid].EnableListing? || s.procs[pid].EnableScoping? then
        EnableStep(s, pid)
      else EmitStep(s, pid)
    case AddResource(r) => (
      match CreateResource(s.t, r)
      case Ok(t) => s.(t := t)
      case Err(_) => s)
    case Pause(scope) => s.(t := PauseScope(s.t, scope))
  }

  ghost function Run(s: Sys, evs: seq<Event>): Sys {
    if evs == [] then s else Step(Run(s, evs[..|evs| - 1]), evs[|evs| - 1])
  }

  // Tables only grow.

  predicate Grows(t: Tables, u: Tables) {
    && (forall k <- t.events :: k in u.events && u.events[k] == t.events[k])
    && (forall k <- t.resources :: k in u.resources && u.resources[k] == t.resources[k])
    && (forall k <- t.scopes :: k in u.scopes && IsScopeOf(u.scopes[k], t.scopes[k].source, t.scopes[k].resourceId))
  }

  lemma StepGrows(s: Sys, ev: Event)
    ensures Grows(s.t, Step(s, ev).t)
  {
    if ev.Advance? && ev.pid in s.procs {
      EnableGrows(s, ev.pid);
      EmitGrows(s, ev.pid);
    }
  }

  lemma EnableGrows(s: Sys, pid: nat)
    requires pid in s.procs
    ensures Grows(s.t, EnableStep(s, pid).t)
  {}

  lemma EmitGrows(s: Sys, pid: nat)
    requires pid in s.procs
    ensures Grows(s.t, EmitStep(s, pid).t)
  {}

  // The invariant.

  /** A semantic event: an existing resource of the right kind, a scope row of its source, the right adapter. */
  predicate Provenance(t: Tables, e: StoredEvent) {
    match e.data
    case SyntheticData(_, _) => e.eventType == SyntheticType
    case BrowserOpened(page) => FromSource(t, e, BrowserChromium, page)
    case VscodeOpened(workspace) => FromSource(t, e, VscodeWorkspace, workspace)
  }

  predicate FromSource(t: Tables, e: StoredEvent, source: ObservationSource, resource: Uuid) {
    && e.eventType == TypeOf(source) && e.source == SourceName(source) && SourceOf(e.adapterId) == Some(source)
    && resource in t.resources && t.resources[resource].kind == KindOf(source) && ScopeExists(t, source, resource)
  }

  /** An event row and the process that stored it. */
  predicate StoredBy(s: Sys, e: StoredEvent, pid: nat) {
    && pid in s.procs && s.procs[pid].Acked? && s.procs[pid].event == e && s.procs[pid].ack.stored
    && s.procs[pid].fromAdapter == !e.data.SyntheticData?
  }

  predicate ProcOk(t: Tables, proc: Proc) {
    match proc
    case EmitFound(hello, resource, _, _) =>
      && SourceOf(hello.adapterId).Some? && resource in t.resources
      && t.resources[resource].kind == KindOf(SourceOf(hello.adapterId).value)
    case EmitScoped(hello, resource, _, _) =>
      && SourceOf(hello.adapterId).Some? && resource in t.resources
      && t.resources[resource].kind == KindOf(SourceOf(hello.adapterId).value)
      && ScopeExists(t, SourceOf(hello.adapterId).value, resource)
    case Acked(e, _, ack) => (ack.stored ==> e.id in t.events && t.events[e.id] == e) && !(ack.stored && ack.duplicate)
    case EnableScoping(source, locator, resource, _) => IsEnabledResource(t, resource, source, locator)
    case Enabled(source, locator, resource, scope) =>
      IsEnabledResource(t, resource, source, locator) && scope in t.scopes
        && IsScopeOf(t.scopes[scope], source, resource)
    case _ => true
  }

  predicate ProcsOk(s: Sys) { forall pid <- s.procs :: ProcOk(s.t, s.procs[pid]) }

  predicate StoresEvent(s: Sys, pid: nat) { pid in s.procs && s.procs[pid].Acked? && s.procs[pid].ack.stored }

  /** No two processes have stored the same event. */
  ghost predicate OneStorer(s: Sys) {
    forall p, q :: StoresEvent(s, p) && StoresEvent(s, q) && s.procs[p].event.id == s.procs[q].event.id ==> p == q
  }

  ghost predicate EventsExplained(s: Sys) {
    forall k <- s.t.events :: Provenance(s.t, s.t.events[k]) && exists pid :: StoredBy(s, s.t.events[k], pid)
  }

  ghost predicate Inv(s: Sys) {
    && EventRowsOk(s.t) && AdapterRowsOk(s.t) && ResourceRowsOk(s.t)
    && ProcsOk(s) && OneStorer(s) && EventsExplained(s)
  }

  lemma EnsureScopeResult(t: Tables, candidate: ObservationScope)
    requires ResourceRowsOk(t) && EnsureScope(t, candidate).Ok?
    ensures var (u, k) := EnsureScope(t, candidate).value;
      && k in u.scopes && u.scopes[k] == ObservationScope(k, candidate.source, candidate.resourceId, u.scopes[k].status)
      && u == t.(scopes := t.scopes[k := u.scopes[k]])
      && (k in t.scopes ==> IsScopeOf(t.scopes[k], candidate.source, candidate.resourceId))
      && (k !in t.scopes ==>
          !ScopeExists(t, candidate.source, candidate.resourceId) && candidate.resourceId in t.resources)
  {}

  lemma ScopeRowsKept(t: Tables, u: Tables, k: Uuid, source: ObservationSource, resource: Uuid)
    requires ResourceRowsOk(t) && k in u.scopes && u == t.(scopes := t.scopes[k := u.scopes[k]])
    requires u.scopes[k].id == k && IsScopeOf(u.scopes[k], source, resource)
    requires k in t.scopes ==> IsScopeOf(t.scopes[k], source, resource)
    requires k !in t.scopes ==> !ScopeExists(t, source, resource) && resource in t.resources
    ensures ResourceRowsOk(u)
  {
    forall a, b | SameScopeKey(u, a, b) ensures a == b {
      if a in t.scopes && b in t.scopes { assert SameScopeKey(t, a, b); }
    }
    assert forall a, b :: SameLocator(u, a, b) <==> SameLocator(t, a, b);
  }

  lemma NewResourceKeepsRows(t: Tables, r: Resource)
    requires ResourceRowsOk(t) && CreateResource(t, r).Ok?
    ensures ResourceRowsOk(CreateResource(t, r).value)
  {
    var u := CreateResource(t, r).value;
    forall a, b | SameLocator(u, a, b) ensures a == b {
      if a in t.resources && b in t.resources { assert SameLocator(t, a, b); }
    }
    assert forall a, b :: SameScopeKey(u, a, b) <==> SameScopeKey(t, a, b);
  }

  lemma ResourceRowsKept(s: Sys, ev: Event)
    requires ResourceRowsOk(s.t)
    ensures ResourceRowsOk(Step(s, ev).t)
  {
    var u := Step(s, ev).t;
    if u.resources == s.t.resources && u.scopes == s.t.scopes {
      assert forall a, b :: SameLocator(u, a, b) <==> SameLocator(s.t, a, b);
      assert forall a, b :: SameScopeKey(u, a, b) <==> SameScopeKey(s.t, a, b);
    } else {
      match ev
      case AddResource(r) => NewResourceKeepsRows(s.t, r);
      case Pause(scope) => ScopeRowsKept(s.t, u, scope, s.t.scopes[scope].source, s.t.scopes[scope].resourceId);
      case Advance(pid) =>
        match s.procs[pid] {
          case Enabling(source, locator, resourceId, scopeId) =>
            NewResourceKeepsRows(s.t, Resource(resourceId, KindOf(source), "", locator, locator));
          case EnableScoping(source, locator, resource, scopeId) =>
            var candidate := ObservationScope(scopeId, source, resource, ScopeActive);
            EnsureScopeResult(s.t, candidate);
            ScopeRowsKept(s.t, u, EnsureScope(s.t, candidate).value.1, source, resource);
          case _ =>
        }
      case _ =>
    }
  }

  // Growth keeps what was known.

  lemma ScopeStays(t: Tables, u: Tables, source: ObservationSource, resource: Uuid)
    requires Grows(t, u) && ScopeExists(t, source, resource)
    ensures ScopeExists(u, source, resource)
  {
    var k :| k in t.scopes && IsScopeOf(t.scopes[k], source, resource);
    assert k in u.scopes && IsScopeOf(u.scopes[k], source, resource);
  }

  lemma ProcStaysOk(t: Tables, u: Tables, proc: Proc)
    requires Grows(t, u) && ProcOk(t, proc)
    ensures ProcOk(u, proc)
  {
    if proc.EmitScoped? { ScopeStays(t, u, SourceOf(proc.hello.adapterId).value, proc.resource); }
  }

  lemma ProvenanceStays(t: Tables, u: Tables, e: StoredEvent)
    requires Grows(t, u) && Provenance(t, e)
    ensures Provenance(u, e)
  {
    match e.data
    case BrowserOpened(page) => ScopeStays(t, u, BrowserChromium, page);
    case VscodeOpened(workspace) => ScopeStays(t, u, VscodeWorkspace, workspace);
    case _ =>
  }

  lemma OtherProcsStay(s: Sys, ev: Event, pid: nat)
    requires pid in s.procs && !(ev.Advance? && ev.pid == pid)
    ensures pid in Step(s, ev).procs && Step(s, ev).procs[pid] == s.procs[pid]
  {}

  lemma EmitKeepsProc(s: Sys, pid: nat)
    requires pid in s.procs && ProcOk(s.t, s.procs[pid])
    ensures ProcOk(EmitStep(s, pid).t, EmitStep(s, pid).procs[pid])
  {
    if s.procs[pid].EmitFound? && EmitStep(s, pid).procs[pid].EmitScoped? {
      assert ScopeExists(s.t, SourceOf(s.procs[pid].hello.adapterId).value, s.procs[pid].resource);
    }
  }

  lemma EnableKeepsProc(s: Sys, pid: nat)
    requires ResourceRowsOk(s.t) && pid in s.procs && ProcOk(s.t, s.procs[pid])
    ensures ProcOk(EnableStep(s, pid).t, EnableStep(s, pid).procs[pid])
  {
    if s.procs[pid].EnableScoping? {
      var p := s.procs[pid];
      var candidate := ObservationScope(p.scopeId, p.source, p.resource, ScopeActive);
      if EnsureScope(s.t, candidate).Ok? { EnsureScopeResult(s.t, candidate); }
    }
  }

  lemma ProcsKept(s: Sys, ev: Event)
    requires ResourceRowsOk(s.t) && ProcsOk(s)
    ensures ProcsOk(Step(s, ev))
  {
    var t := Step(s, ev);
    StepGrows(s, ev);
    forall pid | pid in t.procs ensures ProcOk(t.t, t.procs[pid]) {
      if ev.Advance? && ev.pid == pid {
        EmitKeepsProc(s, pid);
        EnableKeepsProc(s, pid);
      } else if pid in s.procs {
        OtherProcsStay(s, ev, pid);
        ProcStaysOk(s.t, t.t, s.procs[pid]);
      }
    }
  }

  // Storing events.

  /** A step stores nothing, or exactly the event of the process that advances, which was not there before. */
  lemma StepStores(s: Sys, ev: Event)
    requires ProcsOk(s)
    ensures var t := Step(s, ev);
      if t.t.events == s.t.events then
        t.t.adapters == s.t.adapters && forall p :: StoresEvent(t, p) ==> StoresEvent(s, p) && t.procs[p] == s.procs[p]
      else
        && ev.Advance? && ev.pid in s.procs && !StoresEvent(s, ev.pid) && StoresEvent(t, ev.pid)
        && InsertEvent(s.t, t.procs[ev.pid].event) == Ok(t.t)
        && forall p :: p != ev.pid && StoresEvent(t, p) ==> StoresEvent(s, p) && t.procs[p] == s.procs[p]
  {
    var t := Step(s, ev);
    if ev.Advance? && ev.pid in s.procs { StoringStep(s, ev.pid); }
  }

  lemma StoringStep(s: Sys, pid: nat)
    requires pid in s.procs
    ensures var t := Step(s, Advance(pid));
      && pid in t.procs && t.procs.Keys == s.procs.Keys
      && (forall p <- s.procs :: p != pid ==> t.procs[p] == s.procs[p])
      && (if StoresEvent(t, pid) && !StoresEvent(s, pid) then InsertEvent(s.t, t.procs[pid].event) == Ok(t.t)
          else
            && t.t.events == s.t.events && t.t.adapters == s.t.adapters
            && (StoresEvent(s, pid) ==> t.procs[pid] == s.procs[pid]))
  {}

  lemma EventTablesKept(s: Sys, ev: Event)
    requires ProcsOk(s) && EventRowsOk(s.t) && AdapterRowsOk(s.t)
    ensures EventRowsOk(Step(s, ev).t) && AdapterRowsOk(Step(s, ev).t)
  {
    StepStores(s, ev);
    var t := Step(s, ev);
    if t.t.events != s.t.events {
      InsertKeepsEventRows(s.t, t.procs[ev.pid].event);
    } else {
      forall i | i in t.t.adapters ensures IsLatest(t.t, i) { assert IsLatest(s.t, i); }
    }
  }

  lemma OneStorerKept(s: Sys, ev: Event)
    requires ProcsOk(s) && OneStorer(s)
    ensures OneStorer(Step(s, ev))
  {
    StepStores(s, ev);
    var t := Step(s, ev);
    forall p, q | StoresEvent(t, p) && StoresEvent(t, q) && t.procs[p].event.id == t.procs[q].event.id ensures p == q {
      assert StoresEvent(s, p) ==> ProcOk(s.t, s.procs[p]);
      assert StoresEvent(s, q) ==> ProcOk(s.t, s.procs[q]);
    }
  }

  lemma StoredByStays(s: Sys, ev: Event, e: StoredEvent, pid: nat)
    requires StoredBy(s, e, pid)
    ensures StoredBy(Step(s, ev), e, pid)
  {
    if !(ev.Advance? && ev.pid == pid) { OtherProcsStay(s, ev, pid); }
  }

  lemma NewEventIsExplained(s: Sys, pid: nat)
    requires ProcsOk(s) && pid in s.procs && !StoresEvent(s, pid) && StoresEvent(Step(s, Advance(pid)), pid)
    ensures var t := Step(s, Advance(pid)); var e := t.procs[pid].event;
      Provenance(t.t, e) && StoredBy(t, e, pid)
  {
    assert ProcOk(s.t, s.procs[pid]);
    StepGrows(s, Advance(pid));
    var t := Step(s, Advance(pid));
    if s.procs[pid].EmitScoped? {
      ScopeStays(s.t, t.t, SourceOf(s.procs[pid].hello.adapterId).value, s.procs[pid].resource);
    }
  }

  lemma ExplanationsKept(s: Sys, ev: Event)
    requires ProcsOk(s) && EventsExplained(s)
    ensures EventsExplained(Step(s, ev))
  {
    var t := Step(s, ev);
    StepStores(s, ev);
    StepGrows(s, ev);
    forall k | k in t.t.events ensures Provenance(t.t, t.t.events[k]) && exists pid :: StoredBy(t, t.t.events[k], pid) {
      if k in s.t.events {
        ProvenanceStays(s.t, t.t, s.t.events[k]);
        var pid :| StoredBy(s, s.t.events[k], pid);
        StoredByStays(s, ev, s.t.events[k], pid);
      } else {
        NewEventIsExplained(s, ev.pid);
      }
    }
  }

  lemma {:induction false} ReachableInv(evs: seq<Event>)
    ensures Inv(Run(START, evs))
  {
    if evs != [] {
      var s := Run(START, evs[..|evs| - 1]);
      var ev := evs[|evs| - 1];
      ReachableInv(evs[..|evs| - 1]);
      ResourceRowsKept(s, ev);
      ProcsKept(s, ev);
      EventTablesKept(s, ev);
      OneStorerKept(s, ev);
      ExplanationsKept(s, ev);
    }
  }

  // The main results.

  /** Exactly-once events: per adapter instance and sequence number at most one event is stored and at most one ack
      says stored, and an acknowledged event is in the table. */
  lemma StoredOnce(evs: seq<Event>, p: nat, q: nat)
    requires var s := Run(START, evs);
      StoresEvent(s, p) && StoresEvent(s, q) && SameSlot(s.procs[p].event, s.procs[q].event)
    ensures p == q && Run(START, evs).procs[p].event.id in Run(START, evs).t.events
  {
    ReachableInv(evs);
    var s := Run(START, evs);
    assert ProcOk(s.t, s.procs[p]) && ProcOk(s.t, s.procs[q]);
    assert SameSlot(s.t.events[s.procs[p].event.id], s.t.events[s.procs[q].event.id]);
  }

  /** In every reachable state an instance's stored sequence numbers are distinct and its row holds the maximum. */
  lemma LastSequenceIsMaximum(evs: seq<Event>, instance: Uuid)
    requires instance in Run(START, evs).t.adapters
    ensures IsLatest(Run(START, evs).t, instance)
    ensures var t := Run(START, evs).t;
      forall k, l :: k in t.events && l in t.events && SameSlot(t.events[k], t.events[l]) ==> k == l
  {
    ReachableInv(evs);
  }

  /** A scope row of this source for this resource exists. */
  predicate HasScope(t: Tables, source: ObservationSource, resource: Uuid) {
    exists k <- t.scopes :: t.scopes[k].source == source && t.scopes[k].resourceId == resource
  }

  /** Provenance: every stored browser or VS Code event came through the adapter path and names an existing resource of
      the required kind with a scope row of the matching source. */
  lemma SemanticEventsAreObserved(evs: seq<Event>, k: Uuid)
    requires k in Run(START, evs).t.events && !Run(START, evs).t.events[k].data.SyntheticData?
    ensures var s := Run(START, evs); var e := s.t.events[k];
      && (exists pid :: StoredBy(s, e, pid) && s.procs[pid].fromAdapter)
      && match e.data
         case BrowserOpened(page) =>
           && e.eventType == BrowserOpenedType && e.adapterId == "dev.fubun.browser.chromium"
           && e.source == "browser.chromium" && HasScope(s.t, BrowserChromium, page)
           && page in s.t.resources && s.t.resources[page].kind == WebPageKind
         case VscodeOpened(workspace) =>
           && e.eventType == VscodeOpenedType && e.adapterId == "dev.fubun.vscode"
           && e.source == "vscode.workspace" && HasScope(s.t, VscodeWorkspace, workspace)
           && workspace in s.t.resources && s.t.resources[workspace].kind == DirectoryKind
         case SyntheticData(_, _) => false
  {
    ReachableInv(evs);
    var s := Run(START, evs);
    assert Provenance(s.t, s.t.events[k]);
    var pid :| StoredBy(s, s.t.events[k], pid);
    ProvenanceMeans(s.t, s.t.events[k]);
  }

  lemma ProvenanceMeans(t: Tables, e: StoredEvent)
    requires Provenance(t, e)
    ensures match e.data
      case BrowserOpened(page) =>
        && e.adapterId == "dev.fubun.browser.chromium" && e.source == "browser.chromium"
        && HasScope(t, BrowserChromium, page) && t.resources[page].kind == WebPageKind
      case VscodeOpened(workspace) =>
        && e.adapterId == "dev.fubun.vscode" && e.source == "vscode.workspace"
        && HasScope(t, VscodeWorkspace, workspace) && t.resources[workspace].kind == DirectoryKind
      case SyntheticData(_, _) => true
  {
    assert forall source, resource :: ScopeExists(t, source, resource) <==> HasScope(t, source, resource);
  }

  lemma {:induction false} RunGrows(s: Sys, after: seq<Event>)
    ensures Grows(s.t, Run(s, after).t)
  {
    if after != [] {
      RunGrows(s, after[..|after| - 1]);
      StepGrows(Run(s, after[..|after| - 1]), after[|after| - 1]);
    }
  }

  /** Stable enablement: enabling the same locator for the same source any number of times, in any interleaving and
      across pauses, yields one resource id and one scope id. */
  lemma EnablementIsStable(evs: seq<Event>, p: nat, q: nat)
    requires var s := Run(START, evs);
      && p in s.procs && q in s.procs && s.procs[p].Enabled? && s.procs[q].Enabled?
      && s.procs[p].source == s.procs[q].source && s.procs[p].locator == s.procs[q].locator
    ensures var s := Run(START, evs);
      s.procs[p].resource == s.procs[q].resource && s.procs[p].scope == s.procs[q].scope
  {
    ReachableInv(evs);
    var s := Run(START, evs);
    assert ProcOk(s.t, s.procs[p]) && ProcOk(s.t, s.procs[q]);
    assert SameLocator(s.t, s.procs[p].resource, s.procs[q].resource);
    assert SameScopeKey(s.t, s.procs[p].scope, s.procs[q].scope);
  }

  // The other direction: what one uninterrupted handler does.

  ghost function Handled(s: Sys, pid: nat): Sys { Step(Step(Step(s, Advance(pid)), Advance(pid)), Advance(pid)) }

  /** A new request is taken in. */
  lemma RequestsAreAccepted(s: Sys, pid: nat, proc: Proc)
    requires pid !in s.procs && (proc.Ingesting? || proc.Emitting? || proc.Enabling?)
    ensures Step(s, Spawn(pid, proc)) == s.(procs := s.procs[pid := proc])
  {}

  predicate SlotTaken(t: Tables, instance: Uuid, sequence: nat) {
    exists k <- t.events :: t.events[k].instance == instance && t.events[k].sequence == sequence
  }

  /** An active scope row of this source for this resource exists. */
  predicate Watched(t: Tables, source: ObservationSource, resource: Uuid) {
    exists k <- t.scopes ::
      t.scopes[k].source == source && t.scopes[k].resourceId == resource && t.scopes[k].status == ScopeActive
  }

  /** What an uninterrupted report comes to. One that may not be made is refused; of the others, one with a taken id or
      slot is a duplicate, one beyond the 63-bit numbers is neither stored nor a duplicate, and the rest are stored. */
  ghost predicate Reported(s: Sys, pid: nat, allowed: bool, e: StoredEvent) {
    var t := Handled(s, pid);
    var fits := e.sequence <= 0x7FFF_FFFF_FFFF_FFFF;
    var taken := e.id in s.t.events || SlotTaken(s.t, e.instance, e.sequence);
    && pid in t.procs
    && t.procs[pid] == (if allowed then Acked(e, true, Ack(fits && !taken, fits && taken)) else Refused)
    && t.t.events == (if allowed && fits && !taken then s.t.events[e.id := e] else s.t.events)
    && t.t.resources == s.t.resources && t.t.scopes == s.t.scopes
    && (!(allowed && fits && !taken) ==> t.t == s.t)
  }

  lemma InsertReports(s: Sys, pid: nat, e: StoredEvent)
    ensures var t := InsertStep(s, pid, e, true);
      var fits := e.sequence <= 0x7FFF_FFFF_FFFF_FFFF;
      var taken := e.id in s.t.events || SlotTaken(s.t, e.instance, e.sequence);
      && t.procs == s.procs[pid := Acked(e, true, Ack(fits && !taken, fits && taken))]
      && t.t.events == (if fits && !taken then s.t.events[e.id := e] else s.t.events)
      && t.t.resources == s.t.resources && t.t.scopes == s.t.scopes && (!(fits && !taken) ==> t.t == s.t)
  {
    assert EventCollides(s.t, e) <==> e.id in s.t.events || SlotTaken(s.t, e.instance, e.sequence);
  }

  /** A Chromium adapter may report a page it is permitted and that is actively observed. */
  lemma BrowserReportIsStoredIff(s: Sys, pid: nat)
    requires pid in s.procs && s.procs[pid].Emitting?
    requires s.procs[pid].hello.adapterId == "dev.fubun.browser.chromium"
    ensures var p := s.procs[pid];
      var allowed := p.claimed == BrowserOpenedType
        && "dev.fubun.browser.resource.opened.v1" in p.hello.eventCapabilities
        && p.resource in p.hello.permittedResources
        && p.resource in s.t.resources && s.t.resources[p.resource].kind == WebPageKind
        && Watched(s.t, BrowserChromium, p.resource);
      Reported(s, pid, allowed,
        StoredEvent(p.eventId, BrowserOpenedType, "browser.chromium", "dev.fubun.browser.chromium", p.hello.version,
                    p.hello.instanceId, p.sequence, BrowserOpened(p.resource)))
  {
    ReportAdvances(s, pid, BrowserChromium);
  }

  /** A VS Code adapter may report a workspace folder that is actively observed. */
  lemma WorkspaceReportIsStoredIff(s: Sys, pid: nat)
    requires pid in s.procs && s.procs[pid].Emitting? && s.procs[pid].hello.adapterId == "dev.fubun.vscode"
    ensures var p := s.procs[pid];
      var allowed := p.claimed == VscodeOpenedType
        && "dev.fubun.vscode.workspace.opened.v1" in p.hello.eventCapabilities
        && p.resource in s.t.resources && s.t.resources[p.resource].kind == DirectoryKind
        && Watched(s.t, VscodeWorkspace, p.resource);
      Reported(s, pid, allowed,
        StoredEvent(p.eventId, VscodeOpenedType, "vscode.workspace", "dev.fubun.vscode", p.hello.version,
                    p.hello.instanceId, p.sequence, VscodeOpened(p.resource)))
  {
    ReportAdvances(s, pid, VscodeWorkspace);
  }

  /** No other adapter may report anything. */
  lemma OtherReportsAreRefused(s: Sys, pid: nat)
    requires pid in s.procs && s.procs[pid].Emitting?
    requires s.procs[pid].hello.adapterId !in {"dev.fubun.browser.chromium", "dev.fubun.vscode"}
    ensures Handled(s, pid) == s.(procs := s.procs[pid := Refused])
  {
    assert SourceOf(s.procs[pid].hello.adapterId) == None;
    var u := Step(s, Advance(pid));
    assert u.procs[pid] == Refused && Step(u, Advance(pid)) == u;
  }

  lemma ReportAdvances(s: Sys, pid: nat, source: ObservationSource)
    requires pid in s.procs && s.procs[pid].Emitting? && SourceOf(s.procs[pid].hello.adapterId) == Some(source)
    ensures var p := s.procs[pid];
      var allowed := MayReport(p.hello, p.claimed, p.resource)
        && p.resource in s.t.resources && s.t.resources[p.resource].kind == KindOf(source)
        && Watched(s.t, source, p.resource);
      Reported(s, pid, allowed, Built(p.hello, source, p.resource, p.sequence, p.eventId))
  {
    var p := s.procs[pid];
    var u := Step(s, Advance(pid));
    var v := Step(u, Advance(pid));
    assert ActiveScopeListed(s.t, source, p.resource) <==> Watched(s.t, source, p.resource);
    assert u.t == s.t && v.t == s.t;
    if v.procs[pid].EmitScoped? {
      InsertReports(v, pid, Built(p.hello, source, p.resource, p.sequence, p.eventId));
    } else {
      assert v.procs[pid] == Refused && Step(v, Advance(pid)) == v;
    }
  }

  /** A client may only ingest a synthetic event whose texts are not blank and whose label has at most 128 bytes. */
  lemma IngestIsStoredIff(s: Sys, pid: nat)
    requires pid in s.procs && s.procs[pid].Ingesting?
    ensures var e := s.procs[pid].event; var t := Step(s, Advance(pid));
      var allowed := e.eventType == SyntheticType && e.data.SyntheticData?
        && (exists c <- e.source :: !WhiteSpace(c)) && (exists c <- e.adapterId :: !WhiteSpace(c))
        && (exists c <- e.adapterVersion :: !WhiteSpace(c))
        && (exists c <- e.data.text :: !WhiteSpace(c)) && Utf8Length(e.data.text) <= 128
        && e.sequence <= 0x7FFF_FFFF_FFFF_FFFF;
      var taken := e.id in s.t.events || SlotTaken(s.t, e.instance, e.sequence);
      && pid in t.procs
      && t.procs[pid] == (if allowed then Acked(e, false, Ack(!taken, taken)) else Refused)
      && t.t.events == (if allowed && !taken then s.t.events[e.id := e] else s.t.events)
      && (!(allowed && !taken) ==> t.t == s.t)
  {
    var e := s.procs[pid].event;
    assert EventCollides(s.t, e) <==> e.id in s.t.events || SlotTaken(s.t, e.instance, e.sequence);
  }

  /** A resource is created exactly if neither its id nor its locator is there yet. */
  lemma ResourceIsCreatedIff(s: Sys, r: Resource)
    ensures Step(s, AddResource(r)).t ==
      if r.id !in s.t.resources
         && (forall k <- s.t.resources :: s.t.resources[k].canonicalLocator != r.canonicalLocator)
      then s.t.(resources := s.t.resources[r.id := r]) else s.t
  {}

  /** While a scope is paused, what it observed cannot be reported; enabling makes it active again. */
  lemma PausedIsNotReported(evs: seq<Event>, scope: Uuid, pid: nat)
    requires scope in Run(START, evs).t.scopes && pid in Run(START, evs).procs && Run(START, evs).procs[pid].Emitting?
    requires var s := Run(START, evs);
      && SourceOf(s.procs[pid].hello.adapterId) == Some(s.t.scopes[scope].source)
      && s.procs[pid].resource == s.t.scopes[scope].resourceId
    ensures var u := Step(Run(START, evs), Pause(scope));
      Handled(u, pid).t == u.t && Handled(u, pid).procs[pid] == Refused
  {
    ReachableInv(evs);
    var s := Run(START, evs);
    var u := Step(s, Pause(scope));
    forall k | k in u.t.scopes && u.t.scopes[k].source == u.t.scopes[scope].source
        && u.t.scopes[k].resourceId == u.t.scopes[scope].resourceId
      ensures k == scope
    {
      assert SameScopeKey(s.t, k, scope);
    }
    ReportAdvances(u, pid, s.t.scopes[scope].source);
  }

  /** What an enablement reports: a resource with the locator, and the active scope row of the source for it. */
  predicate EnabledScopeIsActive(t: Tables, source: ObservationSource, locator: string, done: Proc) {
    && done.Enabled? && done.source == source && done.locator == locator
    && done.resource in t.resources && t.resources[done.resource].canonicalLocator == locator
    && done.scope in t.scopes && t.scopes[done.scope].source == source
    && t.scopes[done.scope].resourceId == done.resource && t.scopes[done.scope].status == ScopeActive
  }

  /** A locator is enabled exactly if no resource of another kind has it already; it is then actively observed. */
  lemma LocatorIsEnabledIff(s: Sys, pid: nat)
    requires ResourceRowsOk(s.t) && pid in s.procs && s.procs[pid].Enabling?
    requires s.procs[pid].resourceId !in s.t.resources && s.procs[pid].scopeId !in s.t.scopes
    ensures var p := s.procs[pid]; var t := Handled(s, pid);
      && (t.procs[pid].Enabled? <==>
            forall k <- s.t.resources :: s.t.resources[k].canonicalLocator == p.locator ==>
              s.t.resources[k].kind == if p.source == BrowserChromium then WebPageKind else DirectoryKind)
      && (t.procs[pid].Enabled? ==> EnabledScopeIsActive(t.t, p.source, p.locator, t.procs[pid]))
  {
    var p := s.procs[pid];
    var u := Step(s, Advance(pid));
    if ResourceCollides(s.t, Resource(p.resourceId, KindOf(p.source), "", p.locator, p.locator)) {
      assert u == Put(s, pid, EnableListing(p.source, p.locator, p.scopeId));
      ListingFinds(u, pid);
      var v := Step(u, Advance(pid));
      if v.procs[pid].EnableScoping? {
        ScopingEnables(v, pid);
      } else {
        assert v.procs[pid] == Refused && Step(v, Advance(pid)) == v;
      }
    } else {
      assert u.procs[pid] == EnableScoping(p.source, p.locator, p.resourceId, p.scopeId);
      ScopingEnables(u, pid);
      var v := Step(u, Advance(pid));
      assert v.procs[pid].Enabled? && Step(v, Advance(pid)) == v;
    }
  }

  /** The list of resources has the locator under the right kind, or the enablement is refused. */
  lemma ListingFinds(s: Sys, pid: nat)
    requires ResourceRowsOk(s.t) && pid in s.procs && s.procs[pid].EnableListing?
    requires exists k :: k in s.t.resources && s.t.resources[k].canonicalLocator == s.procs[pid].locator
    ensures var p := s.procs[pid]; var t := Step(s, Advance(pid));
      && pid in t.procs && t.t == s.t && (t.procs[pid].EnableScoping? || t.procs[pid] == Refused)
      && (t.procs[pid].EnableScoping? ==>
            && t.procs[pid] == EnableScoping(p.source, p.locator, t.procs[pid].resource, p.scopeId)
            && IsEnabledResource(s.t, t.procs[pid].resource, p.source, p.locator))
      && (t.procs[pid].EnableScoping? <==>
            forall k <- s.t.resources :: s.t.resources[k].canonicalLocator == p.locator ==>
              s.t.resources[k].kind == if p.source == BrowserChromium then WebPageKind else DirectoryKind)
  {
    var p := s.procs[pid];
    var k :| k in s.t.resources && s.t.resources[k].canonicalLocator == p.locator;
    forall l | l in s.t.resources && s.t.resources[l].canonicalLocator == p.locator ensures l == k {
      assert SameLocator(s.t, k, l);
    }
    assert IsEnabledResource(s.t, k, p.source, p.locator) <==> s.t.resources[k].kind == KindOf(p.source);
  }

  /** The last step makes the scope row active, or inserts an active one. */
  lemma ScopingEnables(s: Sys, pid: nat)
    requires pid in s.procs && s.procs[pid].EnableScoping? && s.procs[pid].scopeId !in s.t.scopes
    requires var p := s.procs[pid]; IsEnabledResource(s.t, p.resource, p.source, p.locator)
    ensures var p := s.procs[pid]; var t := Step(s, Advance(pid));
      pid in t.procs && t.procs[pid].Enabled? && EnabledScopeIsActive(t.t, p.source, p.locator, t.procs[pid])
  {}
}
