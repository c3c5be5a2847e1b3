/** Adapter hello validation and the selection of one connected adapter (crates/fubun-core/src/adapter.rs). */
module Selection {
  import opened Wrappers
  import opened Domain

  datatype Tool = Tool(name: string, available: bool)
  datatype Hello = Hello(
    adapterId: string, version: string, instanceId: Uuid, actionCapabilities: seq<string>,
    eventCapabilities: seq<string>, tools: seq<Tool>, desktopEntries: seq<string>, permittedResources: seq<Uuid>)

  datatype Connection = Connection(token: Uuid, hello: Hello, lastSeen: Timestamp)

  datatype Requirements = Requirements(
    capability: string, tool: Option<string>, desktopEntry: Option<string>, browserResource: Option<Uuid>)

  datatype Adapter = Adapter(adapterId: string, instanceId: Uuid)
  datatype EligibilityError = Unavailable | Ineligible

  const LINUX := "dev.fubun.linux"
  const BROWSER := "dev.fubun.browser.chromium"
  const VSCODE := "dev.fubun.vscode"
  const BROWSER_EVENT := "dev.fubun.browser.resource.opened.v1"
  const VSCODE_EVENT := "dev.fubun.vscode.workspace.opened.v1"
  const APP_RUN := "linux.app.ensure_running.v1"
  const PATH_OPEN := "linux.path.open.v1"
  const NOTIFY := "desktop.notification.show.v1"
  const TAB_OPEN := "browser.tab.ensure_open.v1"

  function FromAction(action: ActionSpec): Requirements {
    match action
    case LinuxAppEnsureRunning(appId) => Requirements(APP_RUN, Some("gtk-launch"), Some(appId), None)
    case LinuxPathOpen(_) => Requirements(PATH_OPEN, Some("xdg-open"), None, None)
    case DesktopNotificationShow(_, _) => Requirements(NOTIFY, Some("notify-send"), None, None)
    case BrowserTabEnsureOpen(resource) => Requirements(TAB_OPEN, None, None, Some(resource))
  }

  predicate AllowedFor(adapterId: string, capability: string) {
    if capability == TAB_OPEN then adapterId == BROWSER
    else if capability == APP_RUN || capability == PATH_OPEN || capability == NOTIFY then adapterId == LINUX
    else false
  }

  predicate Satisfies(hello: Hello, req: Requirements) {
    && AllowedFor(hello.adapterId, req.capability)
    && req.capability in hello.actionCapabilities
    && (req.tool.Some? ==> Tool(req.tool.value, true) in hello.tools)
    && (req.desktopEntry.Some? ==> req.desktopEntry.value in hello.desktopEntries)
    && (req.browserResource.Some? ==>
          hello.adapterId == BROWSER && req.browserResource.value in hello.permittedResources)
  }

  /** What is approved, what is required and what an adapter must offer is one capability, and it has one home. */
  lemma ApprovedCapabilityIsRequired(action: ActionSpec)
    ensures FromAction(action).capability == DescriptorOf(action).capability == ApprovalFieldsOf(action).capability
    ensures forall adapterId ::
      AllowedFor(adapterId, DescriptorOf(action).capability) <==>
        HomeOf(DescriptorOf(action).capability) == Some(adapterId)
  {}

  // The text form of a UUID (RFC 9562, section 4): 32 hexadecimal digits in groups of 8, 4, 4, 4 and 12.

  function HexDigit(d: nat): char
    requires d < 16
  {
    if d < 10 then '0' + d as char else 'a' + (d - 10) as char
  }

  function Hex(u: nat, digits: nat): (text: string)
    ensures |text| == digits
  {
    if digits == 0 then "" else Hex(u / 16, digits - 1) + [HexDigit(u % 16)]
  }

  function Hyphenated(h: string): string
    requires |h| == 32
  {
    h[..8] + "-" + h[8..12] + "-" + h[12..16] + "-" + h[16..20] + "-" + h[20..]
  }

  function UuidText(u: Uuid): string { Hyphenated(Hex(u, 32)) }

  predicate TextLess(a: string, b: string) {
    if a == "" || b == "" then a == "" && b != ""
    else a[0] < b[0] || (a[0] == b[0] && TextLess(a[1..], b[1..]))
  }

  lemma {:induction false} TextLessOfParts(a: string, b: string, x: string, y: string)
    requires |a| == |b|
    ensures TextLess(a + x, b + y) <==> TextLess(a, b) || (a == b && TextLess(x, y))
  {
    if a == "" {
      assert a + x == x && b + y == y;
    } else {
      TextLessOfParts(a[1..], b[1..], x, y);
      assert (a + x)[1..] == a[1..] + x && (b + y)[1..] == b[1..] + y;
      assert a == [a[0]] + a[1..] && b == [b[0]] + b[1..];
    }
  }

  function Pow16(n: nat): nat { if n == 0 then 1 else 16 * Pow16(n - 1) }

  lemma {:induction false} Pow16Sum(a: nat, b: nat)
    ensures Pow16(a + b) == Pow16(a) * Pow16(b)
  {
    if a > 0 { Pow16Sum(a - 1, b); }
  }

  lemma Pow16Of32()
    ensures Pow16(32) == UUID_SPACE
  {
    assert Pow16(4) == 0x1_0000;
    Pow16Sum(4, 4);
    Pow16Sum(8, 8);
    Pow16Sum(16, 16);
  }

  lemma {:induction false} HexOrder(a: nat, b: nat, n: nat)
    requires a < Pow16(n) && b < Pow16(n)
    ensures TextLess(Hex(a, n), Hex(b, n)) <==> a < b
    ensures Hex(a, n) == Hex(b, n) <==> a == b
  {
    if n > 0 {
      HexOrder(a / 16, b / 16, n - 1);
      var x, y := Hex(a / 16, n - 1), Hex(b / 16, n - 1);
      var c, d := [HexDigit(a % 16)], [HexDigit(b % 16)];
      TextLessOfParts(x, y, c, d);
      assert TextLess(c, d) <==> a % 16 < b % 16;
      assert Hex(a, n)[..n - 1] == x && Hex(b, n)[..n - 1] == y;
      assert Hex(a, n)[n - 1] == c[0] && Hex(b, n)[n - 1] == d[0];
    }
  }

  lemma HyphenKeepsOrder(a: string, b: string, x: string, y: string)
    requires |a| == |b|
    ensures TextLess(a + "-" + x, b + "-" + y) <==> TextLess(a + x, b + y)
  {
    TextLessOfParts(a, b, x, y);
    TextLessOfParts(a, b, "-" + x, "-" + y);
    TextLessOfParts("-", "-", x, y);
    assert a + "-" + x == a + ("-" + x) && b + "-" + y == b + ("-" + y);
  }

  function TwoGroups(h: string): string
    requires |h| == 32
  {
    h[..8] + "-" + h[8..12] + "-" + h[12..]
  }

  lemma FirstHyphensKeepOrder(h: string, k: string)
    requires |h| == 32 && |k| == 32
    ensures TextLess(TwoGroups(h), TwoGroups(k)) <==> TextLess(h, k)
  {
    var h2, k2 := h[..8] + "-" + h[8..12], k[..8] + "-" + k[8..12];
    HyphenKeepsOrder(h2, k2, h[12..], k[12..]);
    HyphenKeepsOrder(h[..8], k[..8], h[8..], k[8..]);
    assert h2 + h[12..] == h[..8] + "-" + h[8..] && k2 + k[12..] == k[..8] + "-" + k[8..];
    assert h[..8] + h[8..] == h && k[..8] + k[8..] == k;
  }

  lemma LastHyphensKeepOrder(h: string, k: string)
    requires |h| == 32 && |k| == 32
    ensures TextLess(Hyphenated(h), Hyphenated(k)) <==> TextLess(TwoGroups(h), TwoGroups(k))
  {
    var h3, k3 := h[..8] + "-" + h[8..12] + "-" + h[12..16], k[..8] + "-" + k[8..12] + "-" + k[12..16];
    HyphenKeepsOrder(h3 + "-" + h[16..20], k3 + "-" + k[16..20], h[20..], k[20..]);
    HyphenKeepsOrder(h3, k3, h[16..], k[16..]);
    assert h3 + "-" + h[16..20] + h[20..] == h3 + "-" + h[16..] && k3 + "-" + k[16..20] + k[20..] == k3 + "-" + k[16..];
    assert h3 + h[16..] == TwoGroups(h) && k3 + k[16..] == TwoGroups(k);
  }

  /** Sorting by the text of a UUID is sorting by its number. */
  lemma TextOrderIsNumericOrder(a: Uuid, b: Uuid)
    ensures TextLess(UuidText(a), UuidText(b)) <==> a < b
  {
    Pow16Of32();
    HexOrder(a, b, 32);
    FirstHyphensKeepOrder(Hex(a, 32), Hex(b, 32));
    LastHyphensKeepOrder(Hex(a, 32), Hex(b, 32));
  }

  // Selection.

  datatype Candidate = Candidate(adapter: Adapter, token: Uuid)

  predicate Before(a: Candidate, b: Candidate) {
    TextLess(UuidText(a.adapter.instanceId), UuidText(b.adapter.instanceId))
  }

  /** The stable insertion step of sorting by the instance id's text. */
  function InsertSorted(sorted: seq<Candidate>, c: Candidate): seq<Candidate> {
    if sorted == [] || Before(c, sorted[0]) then [c] + sorted else [sorted[0]] + InsertSorted(sorted[1..], c)
  }

  predicate SortedByInstance(cs: seq<Candidate>) {
    forall i, j :: 0 <= i < j < |cs| ==> cs[i].adapter.instanceId <= cs[j].adapter.instanceId
  }

  lemma {:induction false} InsertSortedOk(sorted: seq<Candidate>, c: Candidate)
    requires SortedByInstance(sorted)
    ensures SortedByInstance(InsertSorted(sorted, c))
    ensures forall x :: x in InsertSorted(sorted, c) <==> x == c || x in sorted
  {
    if sorted != [] {
      TextOrderIsNumericOrder(c.adapter.instanceId, sorted[0].adapter.instanceId);
      if !Before(c, sorted[0]) {
        var rest := InsertSorted(sorted[1..], c);
        InsertSortedOk(sorted[1..], c);
        assert forall x :: x in sorted <==> x == sorted[0] || x in sorted[1..];
        assert forall x :: x in [sorted[0]] + rest <==> x == sorted[0] || x in rest;
        forall i | 0 <= i < |rest| ensures sorted[0].adapter.instanceId <= rest[i].adapter.instanceId {
          assert rest[i] in rest;
        }
      }
    }
  }

  predicate EligibleIn(connections: map<Uuid, Connection>, req: Requirements, id: Uuid) {
    id in connections && Satisfies(connections[id].hello, req)
  }

  /** What the selection promises, whatever order the map is walked in. */
  predicate IsSelection(connections: map<Uuid, Connection>, req: Requirements,
                        r: Result<Candidate, EligibilityError>) {
    match r
    case Ok(c) =>
      && EligibleIn(connections, req, c.adapter.instanceId)
      && c == Candidate(Adapter(connections[c.adapter.instanceId].hello.adapterId, c.adapter.instanceId),
                        connections[c.adapter.instanceId].token)
      && forall id :: EligibleIn(connections, req, id) ==> c.adapter.instanceId <= id
    case Err(Unavailable) => connections == map[]
    case Err(Ineligible) => connections != map[] && forall id :: !EligibleIn(connections, req, id)
  }

  /** The specification has exactly one answer, so the walk order cannot matter. */
  lemma SelectionIsUnique(connections: map<Uuid, Connection>, req: Requirements,
                          a: Result<Candidate, EligibilityError>, b: Result<Candidate, EligibilityError>)
    requires IsSelection(connections, req, a) && IsSelection(connections, req, b)
    ensures a == b
  {
    if a.Ok? && b.Ok? {
      assert EligibleIn(connections, req, a.value.adapter.instanceId);
      assert EligibleIn(connections, req, b.value.adapter.instanceId);
    }
  }

  // What a selection means for each kind of action, on the fields of the connected hellos.

  /** For a tab: some Chromium adapter offers it and lists the page as permitted; the one picked does, and it is the
      least. */
  lemma TabSelectionIff(connections: map<Uuid, Connection>, page: Uuid, r: Result<Candidate, EligibilityError>)
    requires IsSelection(connections, FromAction(BrowserTabEnsureOpen(page)), r)
    ensures r == Err(Unavailable) <==> connections == map[]
    ensures r.Ok? <==> exists id <- connections ::
      && connections[id].hello.adapterId == "dev.fubun.browser.chromium"
      && "browser.tab.ensure_open.v1" in connections[id].hello.actionCapabilities
      && page in connections[id].hello.permittedResources
    ensures r.Ok? ==>
      && PicksConnection(connections, r.value)
      && (var hello := connections[r.value.adapter.instanceId].hello;
          && hello.adapterId == "dev.fubun.browser.chromium"
          && "browser.tab.ensure_open.v1" in hello.actionCapabilities && page in hello.permittedResources)
      && forall id | id in connections
          && connections[id].hello.adapterId == "dev.fubun.browser.chromium"
          && "browser.tab.ensure_open.v1" in connections[id].hello.actionCapabilities
          && page in connections[id].hello.permittedResources
        :: r.value.adapter.instanceId <= id
  {
    EligibleSomewhere(connections, FromAction(BrowserTabEnsureOpen(page)), r);
  }

  /** For an app: some one Linux adapter offers it, has gtk-launch and lists the app's desktop entry. */
  lemma AppSelectionIff(connections: map<Uuid, Connection>, appId: string, r: Result<Candidate, EligibilityError>)
    requires IsSelection(connections, FromAction(LinuxAppEnsureRunning(appId)), r)
    ensures r == Err(Unavailable) <==> connections == map[]
    ensures r.Ok? <==> exists id <- connections ::
      && connections[id].hello.adapterId == "dev.fubun.linux"
      && "linux.app.ensure_running.v1" in connections[id].hello.actionCapabilities
      && Tool("gtk-launch", true) in connections[id].hello.tools && appId in connections[id].hello.desktopEntries
    ensures r.Ok? ==>
      && PicksConnection(connections, r.value)
      && (var hello := connections[r.value.adapter.instanceId].hello;
          && hello.adapterId == "dev.fubun.linux" && "linux.app.ensure_running.v1" in hello.actionCapabilities
          && Tool("gtk-launch", true) in hello.tools && appId in hello.desktopEntries)
      && forall id | id in connections
          && connections[id].hello.adapterId == "dev.fubun.linux"
          && "linux.app.ensure_running.v1" in connections[id].hello.actionCapabilities
          && Tool("gtk-launch", true) in connections[id].hello.tools
          && appId in connections[id].hello.desktopEntries
        :: r.value.adapter.instanceId <= id
  {
    EligibleSomewhere(connections, FromAction(LinuxAppEnsureRunning(appId)), r);
  }

  /** For a path: some Linux adapter offers it and has xdg-open; which path it is does not matter here. */
  lemma PathSelectionIff(connections: map<Uuid, Connection>, resource: Uuid, r: Result<Candidate, EligibilityError>)
    requires IsSelection(connections, FromAction(LinuxPathOpen(resource)), r)
    ensures r == Err(Unavailable) <==> connections == map[]
    ensures r.Ok? <==> exists id <- connections ::
      && connections[id].hello.adapterId == "dev.fubun.linux"
      && "linux.path.open.v1" in connections[id].hello.actionCapabilities
      && Tool("xdg-open", true) in connections[id].hello.tools
    ensures r.Ok? ==>
      && PicksConnection(connections, r.value)
      && (var hello := connections[r.value.adapter.instanceId].hello;
          && hello.adapterId == "dev.fubun.linux" && "linux.path.open.v1" in hello.actionCapabilities
          && Tool("xdg-open", true) in hello.tools)
      && forall id | id in connections
          && connections[id].hello.adapterId == "dev.fubun.linux"
          && "linux.path.open.v1" in connections[id].hello.actionCapabilities
          && Tool("xdg-open", true) in connections[id].hello.tools
        :: r.value.adapter.instanceId <= id
  {
    EligibleSomewhere(connections, FromAction(LinuxPathOpen(resource)), r);
  }

  /** For a notification: some Linux adapter offers it and has notify-send. */
  lemma NotificationSelectionIff(connections: map<Uuid, Connection>, title: string, body: string,
                                 r: Result<Candidate, EligibilityError>)
    requires IsSelection(connections, FromAction(DesktopNotificationShow(title, body)), r)
    ensures r == Err(Unavailable) <==> connections == map[]
    ensures r.Ok? <==> exists id <- connections ::
      && connections[id].hello.adapterId == "dev.fubun.linux"
      && "desktop.notification.show.v1" in connections[id].hello.actionCapabilities
      && Tool("notify-send", true) in connections[id].hello.tools
    ensures r.Ok? ==>
      && PicksConnection(connections, r.value)
      && (var hello := connections[r.value.adapter.instanceId].hello;
          && hello.adapterId == "dev.fubun.linux" && "desktop.notification.show.v1" in hello.actionCapabilities
          && Tool("notify-send", true) in hello.tools)
      && forall id | id in connections
          && connections[id].hello.adapterId == "dev.fubun.linux"
          && "desktop.notification.show.v1" in connections[id].hello.actionCapabilities
          && Tool("notify-send", true) in connections[id].hello.tools
        :: r.value.adapter.instanceId <= id
  {
    EligibleSomewhere(connections, FromAction(DesktopNotificationShow(title, body)), r);
  }

  /** The candidate carries the adapter id and the token of the connection it names. */
  predicate PicksConnection(connections: map<Uuid, Connection>, c: Candidate) {
    && c.adapter.instanceId in connections
    && c.adapter.adapterId == connections[c.adapter.instanceId].hello.adapterId
    && c.token == connections[c.adapter.instanceId].token
  }

  lemma EligibleSomewhere(connections: map<Uuid, Connection>, req: Requirements,
                          r: Result<Candidate, EligibilityError>)
    requires IsSelection(connections, req, r)
    ensures r == Err(Unavailable) <==> connections == map[]
    ensures r.Ok? <==> exists id <- connections :: Satisfies(connections[id].hello, req)
    ensures r.Ok? ==>
      && PicksConnection(connections, r.value)
      && Satisfies(connections[r.value.adapter.instanceId].hello, req)
      && forall id <- connections :: Satisfies(connections[id].hello, req) ==> r.value.adapter.instanceId <= id
  {
    if connections != map[] { assert connections.Keys != {}; }
    forall id | id in connections && Satisfies(connections[id].hello, req) ensures EligibleIn(connections, req, id) {}
  }

  method SelectEligible(connections: map<Uuid, Connection>, req: Requirements)
    returns (r: Result<Candidate, EligibilityError>)
    ensures IsSelection(connections, req, r)
  {
    if |connections| == 0 { return Err(Unavailable); }
    var candidates: seq<Candidate> := [];
    var rest := connections.Keys;
    while rest != {}
      invariant rest <= connections.Keys && SortedByInstance(candidates)
      invariant forall c <- candidates ::
        && EligibleIn(connections, req, c.adapter.instanceId)
        && c == Candidate(Adapter(connections[c.adapter.instanceId].hello.adapterId, c.adapter.instanceId),
                          connections[c.adapter.instanceId].token)
      invariant forall id :: EligibleIn(connections, req, id) && id !in rest ==>
        exists c <- candidates :: c.adapter.instanceId == id
      decreases rest
    {
      var id :| id in rest;
      rest := rest - {id};
      if Satisfies(connections[id].hello, req) {
        var c := Candidate(Adapter(connections[id].hello.adapterId, id), connections[id].token);
        InsertSortedOk(candidates, c);
        ghost var was := candidates;
        candidates := InsertSorted(candidates, c);
        assert c in candidates && forall x <- was :: x in candidates;
      }
    }
    if candidates == [] { return Err(Ineligible); }
    assert candidates[0] in candidates;
    return Ok(candidates[0]);
  }

  /** The unique selection, for the step system. */
  ghost function Selected(connections: map<Uuid, Connection>, req: Requirements):
    (r: Result<Candidate, EligibilityError>)
    ensures IsSelection(connections, req, r)
  {
    SelectionExists(connections, connections.Keys, req);
    var r :| IsSelection(connections, req, r);
    r
  }

  lemma {:induction false} SelectionExists(connections: map<Uuid, Connection>, among: set<Uuid>, req: Requirements)
    requires among == connections.Keys
    ensures exists r :: IsSelection(connections, req, r)
  {
    var eligible := set id | id in connections && EligibleIn(connections, req, id);
    if connections == map[] {
      assert IsSelection(connections, req, Err(Unavailable));
    } else if eligible == {} {
      forall id ensures !EligibleIn(connections, req, id) { assert id !in eligible; }
      assert IsSelection(connections, req, Err(Ineligible));
    } else {
      var least := Least(eligible);
      forall id | EligibleIn(connections, req, id) ensures least <= id { assert id in eligible; }
      assert IsSelection(connections, req,
        Ok(Candidate(Adapter(connections[least].hello.adapterId, least), connections[least].token)));
    }
  }

  lemma {:induction false} Least(ids: set<Uuid>) returns (least: Uuid)
    requires ids != {}
    ensures least in ids && forall id <- ids :: least <= id
  {
    var x :| x in ids;
    if ids == {x} { return x; }
    assert ids == {x} + (ids - {x});
    var y := Least(ids - {x});
    least := if x <= y then x else y;
    assert forall id <- ids :: id == x || id in ids - {x};
  }

  // Hello validation.

  datatype RegistrationError =
    | UnknownAdapter | InvalidVersion | InvalidCapabilityCount
    | InvalidCapability | UnknownCapability | DuplicateCapability

  predicate ActionCapability(c: string) { c == APP_RUN || c == PATH_OPEN || c == NOTIFY || c == TAB_OPEN }
  predicate EventCapability(c: string) { c == BROWSER_EVENT || c == VSCODE_EVENT }

  /** The adapter that may offer a capability: each has exactly one. */
  function HomeOf(capability: string): Option<string> {
    if capability == TAB_OPEN || capability == BROWSER_EVENT then Some(BROWSER)
    else if capability == VSCODE_EVENT then Some(VSCODE)
    else if ActionCapability(capability) then Some(LINUX)
    else None
  }

  predicate KnownAdapter(adapterId: string) { adapterId == LINUX || adapterId == BROWSER || adapterId == VSCODE }

  predicate VersionOk(version: string) {
    0 < |version| && Utf8Length(version) <= 128 && forall c <- version :: !ControlChar(c)
  }

  predicate StartsWith(text: string, prefix: string) { prefix <= text }

  predicate WellFormed(capability: string) {
    capability != "" && Utf8Length(capability) <= 128 && forall x <- capability :: !ControlChar(x) && !WhiteSpace(x)
  }

  /** The checks on one capability, in the source's order. */
  function CapabilityError(adapterId: string, c: string): (error: Option<RegistrationError>)
    ensures error.Some? ==> error.value == InvalidCapability || error.value == UnknownCapability
  {
    if !WellFormed(c) then Some(InvalidCapability)
    else if !ActionCapability(c) && !EventCapability(c) then Some(UnknownCapability)
    else if adapterId == VSCODE && ActionCapability(c) then Some(UnknownCapability)
    else if adapterId == BROWSER && StartsWith(c, "dev.fubun.vscode.") then Some(UnknownCapability)
    else if c == TAB_OPEN && adapterId != BROWSER then Some(UnknownCapability)
    else if (c == APP_RUN || c == PATH_OPEN || c == NOTIFY) && adapterId != LINUX then Some(UnknownCapability)
    else if c == BROWSER_EVENT && adapterId != BROWSER then Some(UnknownCapability)
    else if c == VSCODE_EVENT && adapterId != VSCODE then Some(UnknownCapability)
    else None
  }

  lemma CapabilityErrorMeansNotAtHome(adapterId: string, c: string)
    requires KnownAdapter(adapterId)
    ensures CapabilityError(adapterId, c) == None <==> WellFormed(c) && HomeOf(c) == Some(adapterId)
  {
    assert BROWSER_EVENT[10] == 'b' && "dev.fubun.vscode."[10] == 'v';
    assert TAB_OPEN[0] == 'b' && "dev.fubun.vscode."[0] == 'd';
  }

  /** The error of the capability at i, coming after the ones before it. */
  function ErrorAt(adapterId: string, all: seq<string>, i: nat): Option<RegistrationError>
    requires i < |all|
  {
    if CapabilityError(adapterId, all[i]).Some? then CapabilityError(adapterId, all[i])
    else if all[i] in all[..i] then Some(DuplicateCapability) else None
  }

  /** Every capability is well formed, belongs to this adapter and is listed once. */
  predicate AllAtHome(adapterId: string, all: seq<string>) {
    && (forall c <- all :: WellFormed(c) && HomeOf(c) == Some(adapterId))
    && (forall i, j :: 0 <= i < j < |all| ==> all[i] != all[j])
  }

  lemma FirstErrorDecides(adapterId: string, all: seq<string>, i: nat)
    requires KnownAdapter(adapterId) && i < |all|
    ensures ErrorAt(adapterId, all, i).Some? ==> !AllAtHome(adapterId, all)
  {
    CapabilityErrorMeansNotAtHome(adapterId, all[i]);
    assert all[i] in all;
  }

  lemma NoErrorDecides(adapterId: string, all: seq<string>)
    requires KnownAdapter(adapterId) && forall i :: 0 <= i < |all| ==> ErrorAt(adapterId, all, i) == None
    ensures AllAtHome(adapterId, all)
  {
    forall c | c in all ensures WellFormed(c) && HomeOf(c) == Some(adapterId) {
      var i :| 0 <= i < |all| && all[i] == c;
      CapabilityErrorMeansNotAtHome(adapterId, all[i]);
      assert ErrorAt(adapterId, all, i) == None;
    }
    forall i, j | 0 <= i < j < |all| ensures all[i] != all[j] {
      assert ErrorAt(adapterId, all, j) == None && all[..j][i] == all[i];
    }
  }

  /** The capabilities of the three adapters. */
  predicate Offers(adapterId: string, c: string) {
    || (adapterId == "dev.fubun.linux"
        && c in {"linux.app.ensure_running.v1", "linux.path.open.v1", "desktop.notification.show.v1"})
    || (adapterId == "dev.fubun.browser.chromium"
        && c in {"browser.tab.ensure_open.v1", "dev.fubun.browser.resource.opened.v1"})
    || (adapterId == "dev.fubun.vscode" && c == "dev.fubun.vscode.workspace.opened.v1")
  }

  lemma AsciiLength(s: string)
    requires forall c <- s :: c < '\U{80}'
    ensures Utf8Length(s) == |s|
  {
    forall i | 0 <= i < |s| ensures s[i] < '\U{80}' { assert s[i] in s; }
    assert (set i | 0 <= i < |s| && s[i] >= '\U{80}') == {};
    assert (set i | 0 <= i < |s| && s[i] >= '\U{800}') == {};
    assert (set i | 0 <= i < |s| && s[i] >= '\U{10000}') == {};
  }

  lemma PrintableIsWellFormed(c: string)
    requires 0 < |c| <= 128 && forall x <- c :: '!' <= x <= '~'
    ensures WellFormed(c)
  {
    AsciiLength(c);
  }

  lemma LinuxCapabilitiesAreWellFormed()
    ensures WellFormed("linux.app.ensure_running.v1") && WellFormed("linux.path.open.v1")
  {
    PrintableIsWellFormed("linux.app.ensure_running.v1");
    PrintableIsWellFormed("linux.path.open.v1");
  }

  lemma DesktopCapabilitiesAreWellFormed()
    ensures WellFormed("desktop.notification.show.v1") && WellFormed("browser.tab.ensure_open.v1")
  {
    PrintableIsWellFormed("desktop.notification.show.v1");
    PrintableIsWellFormed("browser.tab.ensure_open.v1");
  }

  lemma BrowserEventIsWellFormed()
    ensures WellFormed("dev.fubun.browser.resource.opened.v1")
  {
    PrintableIsWellFormed("dev.fubun.browser.resource.opened.v1");
  }

  lemma WorkspaceEventIsWellFormed()
    ensures WellFormed("dev.fubun.vscode.workspace.opened.v1")
  {
    PrintableIsWellFormed("dev.fubun.vscode.workspace.opened.v1");
  }

  /** Of the known adapters each may offer its own capabilities and no others. */
  lemma AtHomeMeans(adapterId: string, c: string)
    ensures WellFormed(c) && HomeOf(c) == Some(adapterId) <==> Offers(adapterId, c)
  {
    LinuxCapabilitiesAreWellFormed();
    DesktopCapabilitiesAreWellFormed();
    BrowserEventIsWellFormed();
    WorkspaceEventIsWellFormed();
  }

  /** The loop over the capabilities, with the set of those already seen. */
  method FirstError(adapterId: string, all: seq<string>) returns (r: Option<RegistrationError>)
    requires KnownAdapter(adapterId)
    ensures r.None? <==> AllAtHome(adapterId, all)
    ensures r.Some? ==> r.value in {InvalidCapability, UnknownCapability, DuplicateCapability}
    ensures r.Some? ==>
      exists i :: 0 <= i < |all| && ErrorAt(adapterId, all, i) == r
        && forall j :: 0 <= j < i ==> ErrorAt(adapterId, all, j) == None
  {
    var seen: set<string> := {};
    for i := 0 to |all|
      invariant seen == set c | c in all[..i]
      invariant forall j :: 0 <= j < i ==> ErrorAt(adapterId, all, j) == None
    {
      FirstErrorDecides(adapterId, all, i);
      var error := CapabilityError(adapterId, all[i]);
      if error.Some? {
        assert ErrorAt(adapterId, all, i) == error;
        return error;
      }
      if all[i] in seen {
        assert ErrorAt(adapterId, all, i) == Some(DuplicateCapability);
        return Some(DuplicateCapability);
      }
      seen := seen + {all[i]};
      assert all[..i + 1] == all[..i] + [all[i]];
    }
    NoErrorDecides(adapterId, all);
    return None;
  }

  lemma AllAtHomeMeans(adapterId: string, all: seq<string>)
    ensures AllAtHome(adapterId, all) <==>
      && (forall c <- all :: Offers(adapterId, c))
      && forall i, j :: 0 <= i < j < |all| ==> all[i] != all[j]
    ensures !KnownAdapter(adapterId) && all != [] ==> !Offers(adapterId, all[0]) && all[0] in all
  {
    forall c | c in all ensures WellFormed(c) && HomeOf(c) == Some(adapterId) <==> Offers(adapterId, c) {
      AtHomeMeans(adapterId, c);
    }
  }

  /** A version of 1 to 128 bytes without control characters, and 1 to 16 different capabilities that this adapter may
      offer. */
  predicate Acceptable(hello: Hello) {
    && 0 < |hello.version| && Utf8Length(hello.version) <= 128 && (forall c <- hello.version :: !ControlChar(c))
    && var all := hello.actionCapabilities + hello.eventCapabilities;
      && 0 < |all| <= 16 && (forall c <- all :: Offers(hello.adapterId, c))
      && forall i, j :: 0 <= i < j < |all| ==> all[i] != all[j]
  }

  lemma AcceptableMeans(hello: Hello)
    ensures var all := hello.actionCapabilities + hello.eventCapabilities;
      Acceptable(hello) <==>
        KnownAdapter(hello.adapterId) && VersionOk(hello.version) && 0 < |all| <= 16 && AllAtHome(hello.adapterId, all)
  {
    AllAtHomeMeans(hello.adapterId, hello.actionCapabilities + hello.eventCapabilities);
  }

  method ValidateHello(hello: Hello) returns (r: Result<(), RegistrationError>)
    ensures r.Ok? <==> Acceptable(hello)
    ensures r == Err(UnknownAdapter) <==> !KnownAdapter(hello.adapterId)
    ensures r == Err(InvalidVersion) <==> KnownAdapter(hello.adapterId) && !VersionOk(hello.version)
    ensures var all := hello.actionCapabilities + hello.eventCapabilities;
      r == Err(InvalidCapabilityCount) <==>
        KnownAdapter(hello.adapterId) && VersionOk(hello.version) && !(0 < |all| <= 16)
    ensures var all := hello.actionCapabilities + hello.eventCapabilities;
      r.Err? && r.error in {InvalidCapability, UnknownCapability, DuplicateCapability} ==>
        exists i :: 0 <= i < |all| && ErrorAt(hello.adapterId, all, i) == Some(r.error)
          && forall j :: 0 <= j < i ==> ErrorAt(hello.adapterId, all, j) == None
  {
    var all := hello.actionCapabilities + hello.eventCapabilities;
    AcceptableMeans(hello);
    if !KnownAdapter(hello.adapterId) { return Err(UnknownAdapter); }
    if !VersionOk(hello.version) { return Err(InvalidVersion); }
    if |all| > 16 || |all| == 0 { return Err(InvalidCapabilityCount); }
    var error := FirstError(hello.adapterId, all);
    r := match error case Some(e) => Err(e) case None => Ok(());
  }

  /** For validated adapters the identity check of the selection adds nothing to the capability check. */
  lemma ValidatedCapabilityIsAllowed(hello: Hello, action: ActionSpec)
    requires forall c <- hello.actionCapabilities + hello.eventCapabilities :: HomeOf(c) == Some(hello.adapterId)
    requires FromAction(action).capability in hello.actionCapabilities
    ensures AllowedFor(hello.adapterId, FromAction(action).capability)
  {
    assert FromAction(action).capability in hello.actionCapabilities + hello.eventCapabilities;
  }
}
