/** Preview and preflight: two checkers of the same rituals, written separately (build_preview and preflight of
    crates/fubun-core/src/lib.rs), run on one snapshot of the registry, the storage and the file system. */
module Preview {
  import opened Wrappers
  import opened Domain
  import opened Selection
  import opened Versions
  import Approvals

  /** What std::fs and the URL canonicalisation answer; they are not looked into. */
  datatype World = World(
    connections: map<Uuid, Connection>,
    resources: map<Uuid, Resource>,
    scopes: seq<ObservationScope>,
    pathExists: string -> bool,
    canonicalPath: string -> Option<string>,
    pathKind: string -> Option<ResourceKind>,    // a file or a directory, or neither
    canonicalUrl: string -> Option<string>)

  // The reference: what an action needs to be runnable.

  predicate Reachable(w: World, req: Requirements) {
    exists id <- w.connections :: EligibleIn(w.connections, req, id)
  }

  predicate PathIntact(w: World, r: Resource) {
    && w.pathExists(r.canonicalLocator)
    && w.canonicalPath(r.canonicalLocator) == Some(r.canonicalLocator)
    && w.pathKind(r.canonicalLocator) == Some(r.kind) && (r.kind == FileKind || r.kind == DirectoryKind)
  }

  predicate PageIntact(w: World, r: Resource) {
    r.kind == WebPageKind && w.canonicalUrl(r.canonicalLocator) == Some(r.canonicalLocator)
  }

  predicate Observed(w: World, resource: Uuid) {
    exists s <- w.scopes :: s.source == BrowserChromium && s.resourceId == resource && s.status == ScopeActive
  }

  predicate Runnable(w: World, action: ActionSpec) {
    && ActionValid(action) && Reachable(w, FromAction(action))
    && match action
       case LinuxPathOpen(id) => id in w.resources && PathIntact(w, w.resources[id])
       case BrowserTabEnsureOpen(id) => id in w.resources && PageIntact(w, w.resources[id]) && Observed(w, id)
       case _ => true
  }

  /** A runnable action on the fields themselves. */
  lemma RunnableMeans(w: World, action: ActionSpec)
    ensures Runnable(w, action) <==> match action
      case LinuxAppEnsureRunning(appId) =>
        && 0 < |appId| <= 128
        && (forall c <- appId ::
              'a' <= c <= 'z' || 'A' <= c <= 'Z' || '0' <= c <= '9' || c == '.' || c == '_' || c == '-')
        && exists id <- w.connections ::
          && w.connections[id].hello.adapterId == "dev.fubun.linux"
          && "linux.app.ensure_running.v1" in w.connections[id].hello.actionCapabilities
          && Tool("gtk-launch", true) in w.connections[id].hello.tools
          && appId in w.connections[id].hello.desktopEntries
      case LinuxPathOpen(path) =>
        && (exists id <- w.connections ::
              && w.connections[id].hello.adapterId == "dev.fubun.linux"
              && "linux.path.open.v1" in w.connections[id].hello.actionCapabilities
              && Tool("xdg-open", true) in w.connections[id].hello.tools)
        && path in w.resources && w.resources[path].kind in {FileKind, DirectoryKind}
        && var locator := w.resources[path].canonicalLocator;
          w.pathExists(locator) && w.canonicalPath(locator) == Some(locator)
            && w.pathKind(locator) == Some(w.resources[path].kind)
      case DesktopNotificationShow(title, body) =>
        && 0 < |title| <= 128 && (forall c <- title :: ' ' <= c <= '~' || c > '\U{9F}')
        && 0 < |body| <= 1024 && (forall c <- body :: ' ' <= c <= '~' || c > '\U{9F}')
        && exists id <- w.connections ::
          && w.connections[id].hello.adapterId == "dev.fubun.linux"
          && "desktop.notification.show.v1" in w.connections[id].hello.actionCapabilities
          && Tool("notify-send", true) in w.connections[id].hello.tools
      case BrowserTabEnsureOpen(page) =>
        && (exists id <- w.connections ::
              && w.connections[id].hello.adapterId == "dev.fubun.browser.chromium"
              && "browser.tab.ensure_open.v1" in w.connections[id].hello.actionCapabilities
              && page in w.connections[id].hello.permittedResources)
        && page in w.resources && w.resources[page].kind == WebPageKind
        && w.canonicalUrl(w.resources[page].canonicalLocator) == Some(w.resources[page].canonicalLocator)
        && exists s <- w.scopes :: s.source == BrowserChromium && s.resourceId == page && s.status == ScopeActive
  {
    var req := FromAction(action);
    assert Reachable(w, req) <==> exists id <- w.connections :: Satisfies(w.connections[id].hello, req) by {
      forall id | id in w.connections
        ensures EligibleIn(w.connections, req, id) <==> Satisfies(w.connections[id].hello, req) {}
    }
  }

  // Preview.

  datatype PreviewAction = PreviewAction(
    stepIndex: nat, actionType: string, adapterConnected: bool, toolAvailable: Option<bool>,
    resourceExists: Option<bool>, pathMatches: Option<bool>, kindMatches: Option<bool>, entryExists: Option<bool>,
    warning: Option<string>)

  datatype RitualPreview = RitualPreview(actions: seq<PreviewAction>, warnings: seq<(nat, string)>, executable: bool)

  function EligibilityWarning(e: EligibilityError): string {
    match e
    case Unavailable => "no adapter is connected"
    case Ineligible => "no single adapter instance satisfies the action requirements"
  }

  /** list_observation_scopes(Some(BrowserChromium)). */
  function BrowserScopes(scopes: seq<ObservationScope>): seq<ObservationScope> {
    if scopes == [] then [] else
      (if scopes[0].source == BrowserChromium then [scopes[0]] else []) + BrowserScopes(scopes[1..])
  }

  lemma {:induction false} BrowserScopesFilters(scopes: seq<ObservationScope>)
    ensures forall s :: s in BrowserScopes(scopes) <==> s in scopes && s.source == BrowserChromium
  {
    if scopes != [] {
      BrowserScopesFilters(scopes[1..]);
      assert forall s :: s in scopes <==> s == scopes[0] || s in scopes[1..];
    }
  }

  function Unless(ok: bool, warning: string): seq<string> { if ok then [] else [warning] }

  /** What the preview says about a path: whether it is there, is its own canonical path and of the stored kind. */
  predicate PathChecked(w: World, id: Uuid, found: Option<bool>, path: Option<bool>, kind: Option<bool>,
                        warnings: seq<string>)
  {
    if id !in w.resources then found == None && path == None && kind == None && warnings == ["resource was not found"]
    else
      var r := w.resources[id];
      var there := w.pathExists(r.canonicalLocator);
      && found == Some(there)
      && path == Some(there && w.canonicalPath(r.canonicalLocator) == Some(r.canonicalLocator))
      && kind == Some(there && r.kind in {FileKind, DirectoryKind} && w.pathKind(r.canonicalLocator) == Some(r.kind))
      && warnings == Unless(there, "resource does not exist")
        + Unless(path == Some(true), "resource canonical path changed")
        + Unless(kind == Some(true), "resource type changed")
  }

  /** What the preview says about a page: whether it is known, a page with a canonical URL, and observed. */
  predicate PageChecked(w: World, id: Uuid, found: Option<bool>, path: Option<bool>, kind: Option<bool>,
                        warnings: seq<string>)
  {
    && found == Some(id in w.resources)
    && if id !in w.resources then path == None && kind == None && warnings == ["resource was not found"] else
       var r := w.resources[id];
       && kind == Some(r.kind == WebPageKind)
       && path == Some(r.kind == WebPageKind && w.canonicalUrl(r.canonicalLocator) == Some(r.canonicalLocator))
       && warnings == Unless(r.kind == WebPageKind, "resource is not a web page")
         + Unless(path == Some(true), "web resource canonical URL is invalid")
         + Unless(Observed(w, id), "browser observation scope is not active")
  }

  /** What the preview says that depends on the kind of the action, and the warnings that go with it. */
  predicate Checked(w: World, action: ActionSpec, connected: bool, found: Option<bool>, path: Option<bool>,
                    kind: Option<bool>, entry: Option<bool>, more: seq<string>)
  {
    && entry == (if action.LinuxAppEnsureRunning? then Some(connected) else None)
    && match action
       case LinuxPathOpen(id) => PathChecked(w, id, found, path, kind, more)
       case BrowserTabEnsureOpen(id) => PageChecked(w, id, found, path, kind, more)
       case LinuxAppEnsureRunning(_) =>
         && found == None && path == None && kind == None
         && more == Unless(connected, "desktop entry was not found on an eligible adapter")
       case DesktopNotificationShow(_, _) => found == None && path == None && kind == None && more == []
  }

  /** All warnings of an action, in order. */
  ghost predicate Warned(w: World, action: ActionSpec, p: PreviewAction, warnings: seq<string>) {
    && p.toolAvailable == (if action.BrowserTabEnsureOpen? then None else Some(p.adapterConnected))
    && exists more ::
      && Checked(w, action, p.adapterConnected, p.resourceExists, p.pathMatches, p.kindMatches, p.entryExists, more)
      && warnings ==
        Unless(p.adapterConnected, EligibilityWarning(if w.connections == map[] then Unavailable else Ineligible))
        + more + Unless(ActionValid(action), "action validation failed")
  }

  /** The checks on the resource of an action that opens a path. */
  method PreviewPath(w: World, id: Uuid)
    returns (found: Option<bool>, path: Option<bool>, kind: Option<bool>, warnings: seq<string>)
    ensures warnings == [] <==> id in w.resources && PathIntact(w, w.resources[id])
    ensures PathChecked(w, id, found, path, kind, warnings)
  {
    found, path, kind, warnings := None, None, None, [];
    if id !in w.resources { return found, path, kind, ["resource was not found"]; }
    var r := w.resources[id];
    var there := w.pathExists(r.canonicalLocator);
    found := Some(there);
    path := Some(there && w.canonicalPath(r.canonicalLocator) == Some(r.canonicalLocator));
    kind := Some(there && match w.pathKind(r.canonicalLocator)
      case Some(FileKind) => r.kind == FileKind
      case Some(DirectoryKind) => r.kind == DirectoryKind
      case _ => false);
    if found != Some(true) { warnings := warnings + ["resource does not exist"]; }
    if path != Some(true) { warnings := warnings + ["resource canonical path changed"]; }
    if kind != Some(true) { warnings := warnings + ["resource type changed"]; }
  }

  /** The checks on the resource of an action that opens a page. */
  method PreviewPage(w: World, id: Uuid)
    returns (found: Option<bool>, path: Option<bool>, kind: Option<bool>, warnings: seq<string>)
    ensures warnings == [] <==> id in w.resources && PageIntact(w, w.resources[id]) && Observed(w, id)
    ensures PageChecked(w, id, found, path, kind, warnings)
  {
    found, path, kind, warnings := Some(id in w.resources), None, None, [];
    if id !in w.resources { return found, path, kind, ["resource was not found"]; }
    var r := w.resources[id];
    kind := Some(r.kind == WebPageKind);
    path := Some(r.kind == WebPageKind && w.canonicalUrl(r.canonicalLocator) == Some(r.canonicalLocator));
    if kind != Some(true) { warnings := warnings + ["resource is not a web page"]; }
    if path != Some(true) { warnings := warnings + ["web resource canonical URL is invalid"]; }
    var scopes := BrowserScopes(w.scopes);
    BrowserScopesFilters(w.scopes);
    if !exists s <- scopes :: s.resourceId == id && s.status == ScopeActive {
      warnings := warnings + ["browser observation scope is not active"];
    }
  }

  /** The part of a runnable action that is not about adapters or validity. */
  predicate ResourceIntact(w: World, action: ActionSpec) {
    match action
    case LinuxPathOpen(id) => id in w.resources && PathIntact(w, w.resources[id])
    case BrowserTabEnsureOpen(id) => id in w.resources && PageIntact(w, w.resources[id]) && Observed(w, id)
    case _ => true
  }

  /** The checks by the kind of the action. */
  method PreviewKind(w: World, action: ActionSpec, connected: bool)
    returns (found: Option<bool>, path: Option<bool>, kind: Option<bool>, entry: Option<bool>, more: seq<string>)
    ensures Checked(w, action, connected, found, path, kind, entry, more)
    ensures connected ==> (more == [] <==> ResourceIntact(w, action))
  {
    found, path, kind, entry, more := None, None, None, None, [];
    match action {
      case LinuxPathOpen(id) => found, path, kind, more := PreviewPath(w, id);
      case LinuxAppEnsureRunning(_) =>
        entry := Some(connected);
        if entry != Some(true) { more := ["desktop entry was not found on an eligible adapter"]; }
      case DesktopNotificationShow(_, _) =>
      case BrowserTabEnsureOpen(id) => found, path, kind, more := PreviewPage(w, id);
    }
  }

  method PreviewOne(w: World, index: nat, action: ActionSpec) returns (p: PreviewAction, warnings: seq<string>)
    ensures warnings == [] <==> Runnable(w, action)
    ensures p.warning == (if warnings == [] then None else Some(warnings[0]))
    ensures p.stepIndex == index && p.actionType == ActionType(action)
    ensures p.adapterConnected <==> Reachable(w, FromAction(action))
    ensures Warned(w, action, p, warnings)
  {
    var connected, first := PreviewAdapter(w, action);
    var found, path, kind, entry, more := PreviewKind(w, action, connected);
    warnings := first + more;
    var valid := ActionValid(action);
    if !valid { warnings := warnings + ["action validation failed"]; }
    RunnableParts(w, action);
    NoWarnings(first, more, Unless(valid, "action validation failed"));
    assert warnings == first + more + Unless(valid, "action validation failed");
    p := PreviewAction(index, DescriptorOf(action).actionType, connected,
                       if FromAction(action).tool.Some? then Some(connected) else None, found, path, kind, entry,
                       if warnings == [] then None else Some(warnings[0]));
  }

  /** The look for an adapter. */
  method PreviewAdapter(w: World, action: ActionSpec) returns (connected: bool, warnings: seq<string>)
    ensures connected <==> Reachable(w, FromAction(action))
    ensures warnings ==
      Unless(connected, EligibilityWarning(if w.connections == map[] then Unavailable else Ineligible))
  {
    var req := FromAction(action);
    var selected := SelectEligible(w.connections, req);
    if selected.Ok? { assert EligibleIn(w.connections, req, selected.value.adapter.instanceId); }
    connected := selected.Ok?;
    warnings := if connected then [] else [EligibilityWarning(selected.error)];
  }

  lemma RunnableParts(w: World, action: ActionSpec)
    ensures Runnable(w, action) <==>
      ActionValid(action) && Reachable(w, FromAction(action)) && ResourceIntact(w, action)
  {}

  lemma NoWarnings(a: seq<string>, b: seq<string>, c: seq<string>)
    ensures a + b + c == [] <==> a == [] && b == [] && c == []
  {
    assert |a + b + c| == |a| + |b| + |c|;
  }

  /** The warnings of one action under its number. */
  method Numbered(number: nat, messages: seq<string>) returns (numbered: seq<(nat, string)>)
    ensures |numbered| == |messages|
    ensures forall k :: 0 <= k < |messages| ==> numbered[k] == (number, messages[k])
  {
    numbered := [];
    for k := 0 to |messages|
      invariant |numbered| == k && forall j :: 0 <= j < k ==> numbered[j] == (number, messages[j])
    {
      numbered := numbered + [(number, messages[k])];
    }
  }

  /** What the preview has after its first n actions: one entry each, and warnings of those that are not runnable. */
  predicate PreviewedTo(w: World, def: RitualDefinition, n: nat, actions: seq<PreviewAction>,
                        warnings: seq<(nat, string)>)
    requires n <= |def.actions|
  {
    && |actions| == n
    && (forall i :: 0 <= i < n ==> EntryOk(w, def.actions[i], i, actions[i], warnings))
    && (forall x <- warnings :: 1 <= x.0 <= n && !Runnable(w, def.actions[x.0 - 1]))
  }

  predicate EntryOk(w: World, action: ActionSpec, i: nat, p: PreviewAction, warnings: seq<(nat, string)>) {
    && p.stepIndex == i && p.actionType == ActionType(action)
    && (p.warning == None <==> Runnable(w, action))
    && (p.warning.Some? ==> (i + 1, p.warning.value) in warnings)
  }

  lemma OneMorePreviewed(w: World, def: RitualDefinition, n: nat, actions: seq<PreviewAction>,
                         warnings: seq<(nat, string)>, p: PreviewAction, numbered: seq<(nat, string)>)
    requires n < |def.actions| && PreviewedTo(w, def, n, actions, warnings)
    requires EntryOk(w, def.actions[n], n, p, numbered)
    requires forall x <- numbered :: x.0 == n + 1 && !Runnable(w, def.actions[n])
    ensures PreviewedTo(w, def, n + 1, actions + [p], warnings + numbered)
  {
    forall i | 0 <= i < n + 1 ensures EntryOk(w, def.actions[i], i, (actions + [p])[i], warnings + numbered) {
      if i < n { assert EntryOk(w, def.actions[i], i, actions[i], warnings); }
    }
  }

  /** build_preview. */
  method BuildPreview(w: World, def: RitualDefinition) returns (r: RitualPreview)
    ensures r.executable <==> forall action <- def.actions :: Runnable(w, action)
    ensures PreviewedTo(w, def, |def.actions|, r.actions, r.warnings)
  {
    var actions: seq<PreviewAction>, warnings: seq<(nat, string)> := [], [];
    for i := 0 to |def.actions|
      invariant PreviewedTo(w, def, i, actions, warnings)
    {
      var p, messages := PreviewOne(w, i, def.actions[i]);
      var numbered := Numbered(i + 1, messages);
      if messages != [] { assert numbered[0] in numbered; }
      OneMorePreviewed(w, def, i, actions, warnings, p, numbered);
      warnings := warnings + numbered;
      actions := actions + [p];
    }
    r := RitualPreview(actions, warnings, warnings == []);
    NoWarningsMeansRunnable(w, def, actions, warnings);
  }

  lemma NoWarningsMeansRunnable(w: World, def: RitualDefinition, actions: seq<PreviewAction>,
                                warnings: seq<(nat, string)>)
    requires PreviewedTo(w, def, |def.actions|, actions, warnings)
    ensures warnings == [] <==> forall action <- def.actions :: Runnable(w, action)
  {
    if warnings != [] {
      assert warnings[0] in warnings && def.actions[warnings[0].0 - 1] in def.actions;
    } else {
      forall action | action in def.actions ensures Runnable(w, action) {
        var i :| 0 <= i < |def.actions| && def.actions[i] == action;
        assert EntryOk(w, def.actions[i], i, actions[i], warnings);
      }
    }
  }

  // Preflight.

  datatype PreflightError =
    | InvalidRitual | UnknownAction | AdapterUnavailable | CapabilityUnavailable | NotApproved
    | ResourceNotFound | ResourceChanged | ObservationInactive

  predicate Approved(approvals: set<Approval>, v: RitualVersion, action: ActionSpec) {
    exists a <- approvals :: Matches(a, v, action)
  }

  /** Which check stops an action: the first one that fails, in the order of the code. */
  predicate StoppedBy(w: World, approvals: set<Approval>, v: RitualVersion, action: ActionSpec, error: PreflightError) {
    var placed := ActionValid(action) && Reachable(w, FromAction(action));
    match error
    case InvalidRitual => !ActionValid(action)
    case AdapterUnavailable => ActionValid(action) && w.connections == map[]
    case CapabilityUnavailable => ActionValid(action) && w.connections != map[] && !placed
    case NotApproved => placed && !Approved(approvals, v, action)
    case ResourceNotFound =>
      && placed && Approved(approvals, v, action)
      && ((action.LinuxPathOpen? && action.pathResource !in w.resources)
          || (action.BrowserTabEnsureOpen? && action.tabResource !in w.resources))
    case ResourceChanged =>
      && placed && Approved(approvals, v, action)
      && ((action.LinuxPathOpen? && action.pathResource in w.resources
           && !PathIntact(w, w.resources[action.pathResource]))
          || (action.BrowserTabEnsureOpen? && action.tabResource in w.resources
              && !PageIntact(w, w.resources[action.tabResource])))
    case ObservationInactive =>
      && placed && Approved(approvals, v, action) && action.BrowserTabEnsureOpen?
      && action.tabResource in w.resources && PageIntact(w, w.resources[action.tabResource])
      && !Observed(w, action.tabResource)
    case UnknownAction => false
  }

  method PreflightOne(w: World, approvals: set<Approval>, v: RitualVersion, action: ActionSpec)
    returns (r: Result<(), PreflightError>)
    ensures r.Ok? <==> Runnable(w, action) && Approved(approvals, v, action)
    ensures r.Err? ==> StoppedBy(w, approvals, v, action, r.error)
  {
    if !ActionValid(action) { return Err(InvalidRitual); }
    if !RiskPermitted(action) { return Err(UnknownAction); }
    var req := FromAction(action);
    var found := SelectEligible(w.connections, req);
    if found == Err(Unavailable) { return Err(AdapterUnavailable); }
    if found == Err(Ineligible) { return Err(CapabilityUnavailable); }
    assert EligibleIn(w.connections, req, found.value.adapter.instanceId);
    if !Approved(approvals, v, action) { return Err(NotApproved); }
    match action {
      case LinuxPathOpen(id) =>
        if id !in w.resources { return Err(ResourceNotFound); }
        var res := w.resources[id];
        if !w.pathExists(res.canonicalLocator) { return Err(ResourceChanged); }
        if w.canonicalPath(res.canonicalLocator) != Some(res.canonicalLocator) { return Err(ResourceChanged); }
        var matches := match w.pathKind(res.canonicalLocator)
          case Some(FileKind) => res.kind == FileKind
          case Some(DirectoryKind) => res.kind == DirectoryKind
          case _ => false;
        if !matches { return Err(ResourceChanged); }
      case LinuxAppEnsureRunning(_) =>
      case DesktopNotificationShow(_, _) =>
      case BrowserTabEnsureOpen(id) =>
        if id !in w.resources { return Err(ResourceNotFound); }
        var res := w.resources[id];
        if res.kind != WebPageKind || w.canonicalUrl(res.canonicalLocator) != Some(res.canonicalLocator) {
          return Err(ResourceChanged);
        }
        var scopes := BrowserScopes(w.scopes);
        BrowserScopesFilters(w.scopes);
        if !exists s <- scopes :: s.resourceId == id && s.status == ScopeActive { return Err(ObservationInactive); }
    }
    return Ok(());
  }

  /** preflight: on a runnable ritual the only thing it can miss is an approval. */
  method Preflight(w: World, approvals: set<Approval>, v: RitualVersion) returns (r: Result<(), PreflightError>)
    ensures r.Ok? <==> (forall action <- v.definition.actions :: Runnable(w, action)) && AllApproved(approvals, v)
    ensures r.Err? && (forall action <- v.definition.actions :: Runnable(w, action)) ==>
      r.error == NotApproved && !AllApproved(approvals, v)
    ensures r.Err? ==> exists i ::
      && 0 <= i < |v.definition.actions| && StoppedBy(w, approvals, v, v.definition.actions[i], r.error)
      && forall j :: 0 <= j < i ==>
        Runnable(w, v.definition.actions[j]) && Approved(approvals, v, v.definition.actions[j])
  {
    for i := 0 to |v.definition.actions|
      invariant forall j :: 0 <= j < i ==>
        Runnable(w, v.definition.actions[j]) && Approved(approvals, v, v.definition.actions[j])
    {
      r := PreflightOne(w, approvals, v, v.definition.actions[i]);
      if r.Err? {
        assert v.definition.actions[i] in v.definition.actions;
        return;
      }
    }
    return Ok(());
  }

  /** Agreement: on one snapshot, a ritual passes preflight exactly when its preview is executable and its actions are
      approved; and while the preview is executable, preflight can only complain about approvals. */
  method PreviewThenPreflight(w: World, v: RitualVersion, approvals: set<Approval>)
    returns (preview: RitualPreview, preflight: Result<(), PreflightError>)
    ensures preflight.Ok? <==> preview.executable && AllApproved(approvals, v)
    ensures preview.executable && preflight.Err? ==> preflight.error == NotApproved
  {
    preview := BuildPreview(w, v.definition);
    preflight := Preflight(w, approvals, v);
  }

  /** An activation leaves, for good, approvals that satisfy the list a later preflight reads; so on the snapshot its
      executable preview was made on, a run passes preflight. */
  lemma ActivationLeavesApprovals(t: Tables, u: Tables, later: Tables, v: RitualVersion, ids: seq<Uuid>)
    requires |ids| == |v.definition.actions| && InsertApprovals(t, ApprovalsFor(v, ids)) == Ok(u) && Grows(u, later)
    ensures AllApproved(ListApprovals(later, v.id), v)
  {
    var rows := ApprovalsFor(v, ids);
    InsertApprovalsRows(t, rows);
    forall action | action in v.definition.actions
      ensures exists a <- ListApprovals(later, v.id) :: Matches(a, v, action)
    {
      var i :| 0 <= i < |ids| && v.definition.actions[i] == action;
      assert rows[i].id in later.approvals && later.approvals[rows[i].id] == rows[i];
      assert rows[i] in ListApprovals(later, v.id) && Matches(rows[i], v, action);
    }
  }

  /** Whatever happens in between, a later run of the same version lists the approvals of an activation. */
  lemma ApprovalsReachTheRun(s: Versions.Sys, hash: RitualDefinition -> string, activator: nat, ids: seq<Uuid>,
                             after: seq<Versions.Event>, runner: nat, v: RitualVersion)
    requires activator in s.procs && s.procs[activator].ActivateLoaded? && s.procs[activator].version == v
    requires var u := Step(s, Approve(activator, true, ids), hash); u.procs[activator].ActivateApproved?
    requires var t := Run(Step(s, Approve(activator, true, ids), hash), after, hash);
      runner in t.procs && t.procs[runner].LaunchLoaded? && t.procs[runner].version == v
    ensures var t := Run(Step(s, Approve(activator, true, ids), hash), after, hash);
      var l := Step(t, List(runner), hash).procs[runner];
      l.LaunchListed? && l.version == v && AllApproved(l.approvals, v)
  {
    var u := Step(s, Approve(activator, true, ids), hash);
    var t := Run(u, after, hash);
    Approvals.RunGrows(u, after, hash);
    ActivationLeavesApprovals(s.t, u.t, t.t, v, ids);
  }

  /** An activation whose preview was executable, then anything at all in the ritual handlers, then a run that has
      loaded the same version: on an unchanged registry, storage and file system its preflight passes. */
  method ActivateThenRun(w: World, s: Versions.Sys, hash: RitualDefinition -> string, activator: nat, ids: seq<Uuid>,
                         after: seq<Versions.Event>, runner: nat, v: RitualVersion)
    returns (preview: RitualPreview, preflight: Option<Result<(), PreflightError>>)
    requires activator in s.procs && s.procs[activator].ActivateLoaded? && s.procs[activator].version == v
    ensures var approved := Step(s, Approve(activator, preview.executable, ids), hash);
      var t := Run(approved, after, hash);
      approved.procs[activator].ActivateApproved? && runner in t.procs && t.procs[runner].LaunchLoaded?
        && t.procs[runner].version == v
      ==> preflight.Some? && preflight.value.Ok?
  {
    preview := BuildPreview(w, v.definition);
    var approved := Step(s, Approve(activator, preview.executable, ids), hash);
    var t := Run(approved, after, hash);
    preflight := None;
    if && approved.procs[activator].ActivateApproved? && runner in t.procs && t.procs[runner].LaunchLoaded?
       && t.procs[runner].version == v {
      ApprovalsReachTheRun(s, hash, activator, ids, after, runner, v);
      var listed := Step(t, List(runner), hash).procs[runner];
      var result := Preflight(w, listed.approvals, v);
      preflight := Some(result);
    }
  }

  /** The dispatch picks the instance that preflight found, as long as connections were only touched in between. */
  lemma DispatchPicksTheSame(before: map<Uuid, Connection>, now: map<Uuid, Connection>, req: Requirements,
                             found: Result<Candidate, EligibilityError>, picked: Result<Candidate, EligibilityError>)
    requires before.Keys == now.Keys
    requires forall i <- before :: before[i].token == now[i].token && before[i].hello == now[i].hello
    requires IsSelection(before, req, found) && IsSelection(now, req, picked)
    ensures found == picked
  {
    assert forall id :: EligibleIn(before, req, id) <==> EligibleIn(now, req, id);
    assert IsSelection(before, req, picked) by {
      if picked == Err(Unavailable) { assert before.Keys == {}; }
      if picked == Err(Ineligible) { assert now.Keys != {}; }
    }
    SelectionIsUnique(before, req, found, picked);
  }
}
