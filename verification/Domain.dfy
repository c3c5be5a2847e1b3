/** The records that the daemon stores and the fixed action registry (crates/fubun-domain, crates/fubun-policy). */
module Domain {
  import opened Wrappers

  /** A UUID is a 128-bit number. */
  const UUID_SPACE: nat := 0x1_0000_0000_0000_0000_0000_0000_0000_0000
  type Uuid = n: int | 0 <= n < UUID_SPACE witness 0

  /** Timestamps are opaque: nothing in the model compares them. */
  type Timestamp = int

  datatype ActionSpec =
    | LinuxAppEnsureRunning(appId: string)
    | LinuxPathOpen(pathResource: Uuid)
    | DesktopNotificationShow(title: string, body: string)
    | BrowserTabEnsureOpen(tabResource: Uuid)

  datatype RitualDefinition = RitualDefinition(name: string, actions: seq<ActionSpec>, timeoutSeconds: nat)

  datatype ExecutionStatus = Planned | Running | Succeeded | Failed | Partial | Aborted
  datatype StepStatus = StepPending | StepRunning | StepSucceeded | StepSkipped | StepFailed | StepAborted

  datatype Execution = Execution(
    id: Uuid, ritualId: Uuid, versionId: Uuid, status: ExecutionStatus, startedAt: Timestamp,
    finishedAt: Option<Timestamp>, failureCode: Option<string>, createdAt: Timestamp)

  datatype ExecutionStep = ExecutionStep(
    id: Uuid, executionId: Uuid, index: nat, actionType: string, status: StepStatus,
    adapterId: Option<string>, adapterInstance: Option<Uuid>, startedAt: Timestamp,
    finishedAt: Option<Timestamp>, resultCode: Option<string>, message: Option<string>)

  datatype ResourceKind = FileKind | DirectoryKind | WebPageKind
  datatype Resource = Resource(id: Uuid, kind: ResourceKind, title: string, locator: string, canonicalLocator: string)

  datatype ObservationSource = BrowserChromium | VscodeWorkspace
  datatype ObservationStatus = ScopeActive | ScopePaused
  datatype ObservationScope = ObservationScope(
    id: Uuid, source: ObservationSource, resourceId: Uuid, status: ObservationStatus)

  predicate Finished(status: StepStatus) {
    status.StepSucceeded? || status.StepSkipped? || status.StepFailed? || status.StepAborted?
  }

  predicate Good(status: StepStatus) {
    status.StepSucceeded? || status.StepSkipped?
  }

  // The fixed action registry.

  datatype RiskLevel = R0 | R1 | R2 | R3
  datatype Descriptor = Descriptor(actionType: string, risk: RiskLevel, capability: string, defaultTimeoutMs: nat)

  function ActionType(action: ActionSpec): string {
    match action
    case LinuxAppEnsureRunning(_) => "linux.app.ensure_running.v1"
    case LinuxPathOpen(_) => "linux.path.open.v1"
    case DesktopNotificationShow(_, _) => "desktop.notification.show.v1"
    case BrowserTabEnsureOpen(_) => "browser.tab.ensure_open.v1"
  }

  function DescriptorOf(action: ActionSpec): Descriptor {
    match action
    case LinuxAppEnsureRunning(_) =>
      Descriptor("linux.app.ensure_running.v1", R1, "linux.app.ensure_running.v1", 10_000)
    case LinuxPathOpen(_) =>
      Descriptor("linux.path.open.v1", R1, "linux.path.open.v1", 10_000)
    case DesktopNotificationShow(_, _) =>
      Descriptor("desktop.notification.show.v1", R0, "desktop.notification.show.v1", 10_000)
    case BrowserTabEnsureOpen(_) =>
      Descriptor("browser.tab.ensure_open.v1", R1, "browser.tab.ensure_open.v1", 10_000)
  }

  /** The part of an approval that is computed from the action it approves. */
  datatype ApprovalFields = ApprovalFields(
    actionType: string, capability: string, resourceId: Option<Uuid>, appId: Option<string>)

  function ApprovalFieldsOf(action: ActionSpec): ApprovalFields {
    var d := DescriptorOf(action);
    match action
    case LinuxAppEnsureRunning(appId) => ApprovalFields(d.actionType, d.capability, None, Some(appId))
    case LinuxPathOpen(resource) => ApprovalFields(d.actionType, d.capability, Some(resource), None)
    case DesktopNotificationShow(_, _) => ApprovalFields(d.actionType, d.capability, None, None)
    case BrowserTabEnsureOpen(resource) => ApprovalFields(d.actionType, d.capability, Some(resource), None)
  }

  predicate RiskPermitted(action: ActionSpec) {
    DescriptorOf(action).risk.R0? || DescriptorOf(action).risk.R1?
  }

  // ActionSpec::validate.

  predicate ControlChar(c: char) {
    c < ' ' || '\U{7F}' <= c <= '\U{9F}'
  }

  predicate WhiteSpace(c: char) {
    || '\U{9}' <= c <= '\U{D}' || c == ' ' || c == '\U{85}' || c == '\U{A0}' || c == '\U{1680}'
    || '\U{2000}' <= c <= '\U{200A}' || c == '\U{2028}' || c == '\U{2029}' || c == '\U{202F}'
    || c == '\U{205F}' || c == '\U{3000}'
  }

  function CharsFrom(s: string, first: char): nat { |set i | 0 <= i < |s| && s[i] >= first| }

  /** The length of the text in UTF-8: a character takes one byte, and one more from each of three bounds on. */
  function Utf8Length(s: string): (n: nat)
    ensures n >= |s|
  {
    |s| + CharsFrom(s, '\U{80}') + CharsFrom(s, '\U{800}') + CharsFrom(s, '\U{10000}')
  }

  lemma CharsFromGrows(s: string, c: char, first: char)
    ensures CharsFrom(s + [c], first) == CharsFrom(s, first) + if c >= first then 1 else 0
  {
    var before := set i | 0 <= i < |s| && s[i] >= first;
    var after := set i | 0 <= i < |s + [c]| && (s + [c])[i] >= first;
    assert after == if c >= first then before + {|s|} else before;
  }

  /** The empty text has no bytes, and each character adds one to four. */
  lemma Utf8LengthGrows(s: string, c: char)
    ensures Utf8Length("") == 0
    ensures Utf8Length(s + [c]) == Utf8Length(s) +
      if c < '\U{80}' then 1 else if c < '\U{800}' then 2 else if c < '\U{10000}' then 3 else 4
  {
    CharsFromGrows(s, c, '\U{80}');
    CharsFromGrows(s, c, '\U{800}');
    CharsFromGrows(s, c, '\U{10000}');
    NoCharsFrom('\U{80}');
    NoCharsFrom('\U{800}');
    NoCharsFrom('\U{10000}');
  }

  lemma NoCharsFrom(first: char)
    ensures CharsFrom("", first) == 0
  {
    assert (set i | 0 <= i < |""| && ""[i] >= first) == {};
  }

  predicate AppIdChar(c: char) {
    'a' <= c <= 'z' || 'A' <= c <= 'Z' || '0' <= c <= '9' || c == '.' || c == '_' || c == '-'
  }

  predicate ActionValid(action: ActionSpec) {
    match action
    case LinuxAppEnsureRunning(appId) => 0 < |appId| <= 128 && forall c <- appId :: AppIdChar(c)
    case DesktopNotificationShow(title, body) =>
      && 0 < |title| <= 128 && (forall c <- title :: !ControlChar(c))
      && 0 < |body| <= 1024 && (forall c <- body :: !ControlChar(c))
    case _ => true
  }

  // RitualDefinition::validate and the registry check of every action.

  predicate DefinitionValid(d: RitualDefinition) {
    && 0 < |d.name| <= 128 && (forall c <- d.name :: !ControlChar(c))
    && 0 < |d.actions| <= 16
    && 0 < d.timeoutSeconds <= 120
    && (forall a <- d.actions :: ActionValid(a) && RiskPermitted(a))
    && (forall i :: 0 < i < |d.actions| ==> d.actions[i - 1] != d.actions[i])
  }
}
