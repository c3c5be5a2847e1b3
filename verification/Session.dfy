/** The VS Code adapter session (extensions/vscode/src/adapter-session.ts): its fields, the parts of its methods and
    callbacks that run without interruption, and every order in which the event loop may run them. */
module Session {
  import opened Wrappers
  import opened Domain

  type Transport = nat
  type Timer = nat

  const FIRST_DELAY: nat := 250
  const LAST_DELAY: nat := 30_000

  /** A frame as the session understands it. */
  datatype Frame = HelloAck(requestId: Uuid) | EventAck(requestId: Uuid) | OtherFrame

  datatype Reason = TimedOut | WriteFailed | BadHello | Disconnected | Stopped | HelloFailed
  datatype Outcome = Acked | Rejected(reason: Reason)

  datatype PendingHello = PendingHello(requestId: Uuid, timer: Timer)
  datatype Alarm = HelloAlarm(requestId: Uuid) | EventAlarm(requestId: Uuid) | ReconnectAlarm

  /** The fields, the timers that are set, and what each promise was settled with, in order. */
  datatype State = State(
    pending: map<Uuid, Timer>,
    transport: Option<Transport>,
    connecting: Option<nat>,
    hello: Option<PendingHello>,
    desired: bool,
    connected: bool,
    nextSequence: nat,
    reconnectDelay: nat,
    reconnectTimer: Option<Timer>,
    timers: map<Timer, Alarm>,
    nextTimer: Timer,
    promises: map<Uuid, seq<Outcome>>)

  const NEW := State(map[], None, None, None, false, false, 1, FIRST_DELAY, None, map[], 0, map[])

  function Min(a: nat, b: nat): nat { if a < b then a else b }

  function Told(promises: map<Uuid, seq<Outcome>>, id: Uuid, outcome: Outcome): map<Uuid, seq<Outcome>> {
    promises[id := (if id in promises then promises[id] else []) + [outcome]]
  }

  // What the methods compute.

  /** The event's promise is settled, its entry and its timer go. */
  function SettleEvent(c: State, id: Uuid, outcome: Outcome): State
    requires id in c.pending
  {
    c.(pending := c.pending - {id}, timers := c.timers - {c.pending[id]}, promises := Told(c.promises, id, outcome))
  }

  function SettleHello(c: State, outcome: Outcome): State {
    if c.hello.None? then c else
      c.(hello := None, timers := c.timers - {c.hello.value.timer},
         promises := Told(c.promises, c.hello.value.requestId, outcome))
  }

  function TimersOf(pending: map<Uuid, Timer>, ids: set<Uuid>): set<Timer> {
    set id | id in ids && id in pending :: pending[id]
  }

  function TellAll(promises: map<Uuid, seq<Outcome>>, ids: set<Uuid>, outcome: Outcome): map<Uuid, seq<Outcome>> {
    map id | id in promises.Keys + ids ::
      if id in ids then (if id in promises then promises[id] else []) + [outcome] else promises[id]
  }

  function RejectThese(c: State, ids: set<Uuid>, reason: Reason): State {
    c.(pending := c.pending - ids, timers := c.timers - TimersOf(c.pending, ids),
       promises := TellAll(c.promises, ids, Rejected(reason)))
  }

  function CloseCurrent(c: State, reason: Reason): State {
    var closed := SettleHello(c.(transport := None, connected := false), Rejected(reason));
    RejectThese(closed, closed.pending.Keys, reason)
  }

  function ScheduleReconnect(c: State): State {
    if !c.desired || c.reconnectTimer.Some? then c else
      c.(reconnectDelay := Min(c.reconnectDelay * 2, LAST_DELAY), reconnectTimer := Some(c.nextTimer),
         timers := c.timers[c.nextTimer := ReconnectAlarm], nextTimer := c.nextTimer + 1)
  }

  function HandleClose(c: State, transport: Transport): State {
    if c.transport != Some(transport) then c else ScheduleReconnect(CloseCurrent(c, Disconnected))
  }

  /** No longer desired, and no reconnect is scheduled. */
  function Quieted(c: State): State {
    if c.reconnectTimer.None? then c.(desired := false) else
      c.(desired := false, timers := c.timers - {c.reconnectTimer.value}, reconnectTimer := None)
  }

  function Stop(c: State): State {
    CloseCurrent(Quieted(c), Stopped)
  }

  /** The frames of one chunk, in order. */
  function HandleFrames(c: State, transport: Transport, frames: seq<Frame>): State
    decreases |frames|
  {
    if frames == [] then c
    else if c.hello.Some? then
      var good := frames[0] == HelloAck(c.hello.value.requestId);
      HandleFrames(SettleHello(c, if good then Acked else Rejected(BadHello)), transport, frames[1..])
    else match frames[0]
      case EventAck(id) =>
        HandleFrames(if id in c.pending then SettleEvent(c, id, Acked) else c, transport, frames[1..])
      case _ => HandleClose(c, transport)
  }

  /** None when the decoder throws on the chunk. */
  function HandleData(c: State, transport: Transport, frames: Option<seq<Frame>>): State {
    if c.transport != Some(transport) then c
    else if frames.None? then HandleClose(c, transport)
    else HandleFrames(c, transport, frames.value)
  }

  function EnterEvent(c: State, id: Uuid): State {
    c.(pending := c.pending[id := c.nextTimer], timers := c.timers[c.nextTimer := EventAlarm(id)],
       nextTimer := c.nextTimer + 1, promises := c.promises[id := []])
  }

  /** The part of emitOne after its transport is known. */
  function WriteEvent(c: State, id: Uuid, throws: bool): State {
    var entered := EnterEvent(c, id);
    if throws then SettleEvent(entered, id, Rejected(WriteFailed)) else entered
  }

  /** The synchronous part of establish when the transport was created. */
  function Establish(c: State, transport: Transport, id: Uuid): State {
    c.(transport := Some(transport), hello := Some(PendingHello(id, c.nextTimer)),
       timers := c.timers[c.nextTimer := HelloAlarm(id)], nextTimer := c.nextTimer + 1,
       promises := c.promises[id := []])
  }

  function EventTimeout(c: State, timer: Timer, id: Uuid): State {
    var fired := c.(timers := c.timers - {timer});
    if id !in c.pending then fired else
      fired.(pending := c.pending - {id}, promises := Told(c.promises, id, Rejected(TimedOut)))
  }

  function HelloTimeout(c: State, timer: Timer, id: Uuid): State {
    var fired := c.(timers := c.timers - {timer});
    if c.hello.None? || c.hello.value.requestId != id then fired else
      fired.(hello := None, promises := Told(c.promises, id, Rejected(TimedOut)))
  }

  // The event loop. Each event is one uninterrupted turn of the program.

  /** A call of ensureConnected. */
  datatype Call =
    | Awaiting(attempt: nat, mine: bool)
    | HasTransport(transport: Transport)
    | Returned

  /** One run of establish. */
  datatype Attempt = Greeting(transport: Transport, hello: Uuid) | Ended(ok: bool)

  datatype Phase =
    | Queued                              // behind the previous call on the event chain
    | Connecting(call: Call)
    | Sent(requestId: Uuid)
    | Settled(ok: bool)

  /** One call of emitWorkspaceOpened; `after` is the call its chain link waits for. */
  datatype Emit = Emit(sequenceNo: nat, after: Option<nat>, phase: Phase)

  datatype Written =
    | HelloFrame(on: Transport, requestId: Uuid)
    | EventFrame(on: Transport, requestId: Uuid, sequenceNo: nat)

  datatype Sys = Sys(
    c: State,
    calls: map<nat, Call>,                // of start and of the reconnect timer
    attempts: seq<Attempt>,
    emits: seq<Emit>,
    eventChain: Option<nat>,              // the call whose settlement ends the chain
    nextTransport: Transport,
    greeting: map<Transport, Uuid>,       // the hello request of each transport
    ids: set<Uuid>,
    owner: map<Uuid, nat>,                // the emit of each event request
    written: seq<Written>)

  const START := Sys(NEW, map[], [], [], None, 0, map[], {}, map[], [])

  /** What createTransport does, and the id the hello would get. */
  datatype Making = Throws | Makes(hello: Uuid)

  datatype Event =
    | StartCall(pid: nat, making: Making)
    | StopCall
    | EmitCall
    | BeginEmit(k: nat, making: Making)   // the previous call has settled
    | ResumeCall(pid: nat)                // the awaited attempt has ended
    | ResumeEmit(k: nat)
    | Write(k: nat, id: Uuid, throws: bool)
    | EmitSeen(k: nat)                    // emitOne goes on after its event was settled
    | Connect(attempt: nat, throws: bool)
    | HelloSeen(attempt: nat)             // establish goes on after its hello was settled
    | Data(transport: Transport, frames: Option<seq<Frame>>)
    | Closed(transport: Transport)        // close or error
    | Alarmed(timer: Timer, pid: nat, making: Making)

  /** Opens a connection: the attempt, and its result when createTransport throws at once. */
  function Open(s: Sys, making: Making): Sys {
    var attempt := |s.attempts|;
    match making
    case Throws =>
      s.(c := ScheduleReconnect(s.c).(connecting := Some(attempt)), attempts := s.attempts + [Ended(false)])
    case Makes(id) =>
      s.(c := Establish(s.c, s.nextTransport, id).(connecting := Some(attempt)),
         attempts := s.attempts + [Greeting(s.nextTransport, id)],
         greeting := s.greeting[s.nextTransport := id], nextTransport := s.nextTransport + 1, ids := s.ids + {id})
  }

  predicate Opens(c: State) { c.desired && !(c.transport.Some? && c.connected) && c.connecting.None? }

  /** ensureConnected up to its first await. */
  function CallFor(s: Sys): Call {
    if !s.c.desired then Returned
    else if s.c.transport.Some? && s.c.connected then HasTransport(s.c.transport.value)
    else if s.c.connecting.Some? then Awaiting(s.c.connecting.value, false)
    else Awaiting(|s.attempts|, true)
  }

  function EnsureConnected(s: Sys, making: Making): Sys { if Opens(s.c) then Open(s, making) else s }

  predicate Possible(s: Sys, making: Making) { making.Makes? ==> making.hello !in s.ids }

  predicate Ready(s: Sys, call: Call) {
    call.Awaiting? && call.attempt < |s.attempts| && s.attempts[call.attempt].Ended?
  }

  /** An awaiting call goes on. Its own attempt is no longer the one being made. */
  function Cleared(s: Sys, call: Call): Sys
    requires call.Awaiting?
  {
    if call.mine && s.c.connecting == Some(call.attempt) then s.(c := s.c.(connecting := None)) else s
  }

  function Next(s: Sys, call: Call): Call
    requires Ready(s, call)
  {
    if s.attempts[call.attempt].ok && s.c.transport.Some? && s.c.connected then HasTransport(s.c.transport.value)
    else Returned
  }

  function SetPhase(s: Sys, k: nat, phase: Phase): Sys
    requires k < |s.emits|
  {
    s.(emits := s.emits[k := s.emits[k].(phase := phase)])
  }

  /** emitOne rejects when ensureConnected does. */
  function PhaseOf(call: Call): Phase { if call.Returned? then Settled(false) else Connecting(call) }

  predicate IsSettled(s: Sys, k: nat) { k < |s.emits| && s.emits[k].phase.Settled? }

  predicate MayBegin(s: Sys, k: nat) {
    k < |s.emits| && s.emits[k].phase == Queued && (s.emits[k].after.Some? ==> IsSettled(s, s.emits[k].after.value))
  }

  predicate HelloDue(s: Sys, a: nat) {
    a < |s.attempts| && s.attempts[a].Greeting? && s.attempts[a].hello in s.c.promises
      && s.c.promises[s.attempts[a].hello] != []
  }

  /** The then and catch handlers of establish. */
  function AttemptGoesOn(s: Sys, a: nat): Sys
    requires HelloDue(s, a)
  {
    if s.c.promises[s.attempts[a].hello][0].Acked? then
      s.(c := s.c.(connected := true, reconnectDelay := FIRST_DELAY), attempts := s.attempts[a := Ended(true)])
    else
      s.(c := ScheduleReconnect(CloseCurrent(s.c, HelloFailed)), attempts := s.attempts[a := Ended(false)])
  }

  function Ring(s: Sys, timer: Timer, pid: nat, making: Making): Sys
    requires timer in s.c.timers
  {
    match s.c.timers[timer]
    case EventAlarm(id) => s.(c := EventTimeout(s.c, timer, id))
    case HelloAlarm(id) => s.(c := HelloTimeout(s.c, timer, id))
    case ReconnectAlarm =>
      var fired := s.(c := s.c.(timers := s.c.timers - {timer}, reconnectTimer := None));
      if !s.c.desired || s.c.transport.Some? || s.c.connecting.Some? then fired else
        EnsureConnected(fired, making).(calls := s.calls[pid := CallFor(fired)])
  }

  function WriteFrame(s: Sys, k: nat, id: Uuid, throws: bool): Sys
    requires k < |s.emits| && s.emits[k].phase.Connecting? && s.emits[k].phase.call.HasTransport?
  {
    var sent :=
      SetPhase(s, k, Sent(id)).(c := WriteEvent(s.c, id, throws), ids := s.ids + {id}, owner := s.owner[id := k]);
    if throws then sent else
      sent.(written := s.written + [EventFrame(s.emits[k].phase.call.transport, id, s.emits[k].sequenceNo)])
  }

  /** Request ids are UUIDs that were never used before; an event that is not possible changes nothing. */
  function Step(s: Sys, ev: Event): Sys {
    match ev
    case StartCall(pid, making) =>
      if pid in s.calls || !Possible(s, making) then s else
        var wanted := s.(c := s.c.(desired := true));
        EnsureConnected(wanted, making).(calls := s.calls[pid := CallFor(wanted)])
    case StopCall => s.(c := Stop(s.c))
    case EmitCall =>
      s.(c := s.c.(nextSequence := s.c.nextSequence + 1),
         emits := s.emits + [Emit(s.c.nextSequence, s.eventChain, Queued)],
         eventChain := Some(|s.emits|))
    case BeginEmit(k, making) =>
      if !MayBegin(s, k) || !Possible(s, making) then s else
        SetPhase(EnsureConnected(s, making), k, PhaseOf(CallFor(s)))
    case ResumeCall(pid) =>
      if pid !in s.calls || !Ready(s, s.calls[pid]) then s else
        var t := Cleared(s, s.calls[pid]); t.(calls := s.calls[pid := Next(t, s.calls[pid])])
    case ResumeEmit(k) =>
      if k >= |s.emits| || !s.emits[k].phase.Connecting? || !Ready(s, s.emits[k].phase.call) then s else
        var t := Cleared(s, s.emits[k].phase.call); SetPhase(t, k, PhaseOf(Next(t, s.emits[k].phase.call)))
    case Write(k, id, throws) =>
      if k >= |s.emits| || !s.emits[k].phase.Connecting? || !s.emits[k].phase.call.HasTransport?
        || id in s.ids then s else
        WriteFrame(s, k, id, throws)
    case EmitSeen(k) =>
      if k >= |s.emits| || !s.emits[k].phase.Sent? || s.emits[k].phase.requestId !in s.c.promises then s else
        var outcome := s.c.promises[s.emits[k].phase.requestId];
        if outcome == [] then s else SetPhase(s, k, Settled(outcome[0].Acked?))
    case Connect(a, throws) =>
      if a >= |s.attempts| || !s.attempts[a].Greeting? then s else
        var transport, id := s.attempts[a].transport, s.attempts[a].hello;
        if s.c.transport != Some(transport) || s.c.hello.None? || s.c.hello.value.requestId != id then s
        else if throws then s.(c := HandleClose(s.c, transport))
        else s.(written := s.written + [HelloFrame(transport, id)])
    case HelloSeen(a) => if !HelloDue(s, a) then s else AttemptGoesOn(s, a)
    case Data(transport, frames) => s.(c := HandleData(s.c, transport, frames))
    case Closed(transport) => s.(c := HandleClose(s.c, transport))
    case Alarmed(timer, pid, making) =>
      if timer !in s.c.timers || pid in s.calls || !Possible(s, making) then s else Ring(s, timer, pid, making)
  }

  function Run(s: Sys, evs: seq<Event>): Sys {
    if evs == [] then s else Step(Run(s, evs[..|evs| - 1]), evs[|evs| - 1])
  }

  // The invariant of the object, in parts.

  predicate Unsettled(c: State, id: Uuid) { id in c.pending || (c.hello.Some? && c.hello.value.requestId == id) }

  predicate SettledOnce(c: State) {
    && c.pending.Keys <= c.promises.Keys
    && (c.hello.Some? ==> c.hello.value.requestId in c.promises && c.hello.value.requestId !in c.pending)
    && forall id <- c.promises :: |c.promises[id]| == if Unsettled(c, id) then 0 else 1
  }

  /** What a timer that is set was set for is still waiting for it. */
  predicate AlarmOk(c: State, t: Timer, alarm: Alarm) {
    match alarm
    case EventAlarm(id) => id in c.pending && c.pending[id] == t
    case HelloAlarm(id) => c.hello == Some(PendingHello(id, t))
    case ReconnectAlarm => c.reconnectTimer == Some(t)
  }

  predicate TimersOk(c: State) {
    && (forall id <- c.pending :: c.pending[id] in c.timers && c.timers[c.pending[id]] == EventAlarm(id))
    && (c.hello.Some? ==>
          c.hello.value.timer in c.timers && c.timers[c.hello.value.timer] == HelloAlarm(c.hello.value.requestId))
    && (c.reconnectTimer.Some? ==>
        c.reconnectTimer.value in c.timers && c.timers[c.reconnectTimer.value] == ReconnectAlarm)
    && (forall t <- c.timers :: t < c.nextTimer)
    && (forall t <- c.timers :: AlarmOk(c, t, c.timers[t]))
  }

  predicate StateOk(c: State) { SettledOnce(c) && TimersOk(c) && FIRST_DELAY <= c.reconnectDelay <= LAST_DELAY }

  lemma SettleEventKeeps(c: State, id: Uuid, outcome: Outcome)
    requires StateOk(c) && id in c.pending
    ensures StateOk(SettleEvent(c, id, outcome))
  {}

  lemma SettleHelloKeeps(c: State, outcome: Outcome)
    requires StateOk(c)
    ensures StateOk(SettleHello(c, outcome))
  {}

  lemma RejectAllKeeps(c: State, reason: Reason)
    requires StateOk(c)
    ensures StateOk(RejectThese(c, c.pending.Keys, reason))
  {}

  lemma CloseKeeps(c: State, reason: Reason)
    requires StateOk(c)
    ensures StateOk(CloseCurrent(c, reason))
  {
    SettleHelloKeeps(c.(transport := None, connected := false), Rejected(reason));
    RejectAllKeeps(SettleHello(c.(transport := None, connected := false), Rejected(reason)), reason);
  }

  lemma ScheduleKeeps(c: State)
    requires StateOk(c)
    ensures StateOk(ScheduleReconnect(c))
  {}

  lemma HandleCloseKeeps(c: State, transport: Transport)
    requires StateOk(c)
    ensures StateOk(HandleClose(c, transport))
  {
    CloseKeeps(c, Disconnected);
    ScheduleKeeps(CloseCurrent(c, Disconnected));
  }

  lemma QuietedKeeps(c: State)
    requires StateOk(c)
    ensures StateOk(Quieted(c))
  {}

  lemma StopKeeps(c: State)
    requires StateOk(c)
    ensures StateOk(Stop(c))
  {
    QuietedKeeps(c);
    CloseKeeps(Quieted(c), Stopped);
  }

  lemma {:induction false} HandleFramesKeeps(c: State, transport: Transport, frames: seq<Frame>)
    requires StateOk(c)
    ensures StateOk(HandleFrames(c, transport, frames))
    decreases |frames|
  {
    if frames != [] {
      if c.hello.Some? {
        var outcome := if frames[0] == HelloAck(c.hello.value.requestId) then Acked else Rejected(BadHello);
        SettleHelloKeeps(c, outcome);
        HandleFramesKeeps(SettleHello(c, outcome), transport, frames[1..]);
      } else if frames[0].EventAck? {
        var id := frames[0].requestId;
        if id in c.pending { SettleEventKeeps(c, id, Acked); }
        HandleFramesKeeps(if id in c.pending then SettleEvent(c, id, Acked) else c, transport, frames[1..]);
      } else {
        HandleCloseKeeps(c, transport);
      }
    }
  }

  lemma HandleDataKeeps(c: State, transport: Transport, frames: Option<seq<Frame>>)
    requires StateOk(c)
    ensures StateOk(HandleData(c, transport, frames))
  {
    HandleCloseKeeps(c, transport);
    if frames.Some? { HandleFramesKeeps(c, transport, frames.value); }
  }

  lemma EnterKeeps(c: State, id: Uuid)
    requires StateOk(c) && id !in c.promises
    ensures StateOk(EnterEvent(c, id))
  {}

  lemma WriteKeeps(c: State, id: Uuid, throws: bool)
    requires StateOk(c) && id !in c.promises
    ensures StateOk(WriteEvent(c, id, throws))
  {
    EnterKeeps(c, id);
    SettleEventKeeps(EnterEvent(c, id), id, Rejected(WriteFailed));
  }

  lemma EstablishKeeps(c: State, transport: Transport, id: Uuid)
    requires StateOk(c) && id !in c.promises && c.hello.None?
    ensures StateOk(Establish(c, transport, id))
  {}

  lemma EventTimeoutKeeps(c: State, timer: Timer, id: Uuid)
    requires StateOk(c) && timer in c.timers && c.timers[timer] == EventAlarm(id)
    ensures EventTimeout(c, timer, id) == SettleEvent(c, id, Rejected(TimedOut)) && StateOk(EventTimeout(c, timer, id))
  {
    SettleEventKeeps(c, id, Rejected(TimedOut));
  }

  lemma HelloTimeoutKeeps(c: State, timer: Timer, id: Uuid)
    requires StateOk(c) && timer in c.timers && c.timers[timer] == HelloAlarm(id)
    ensures HelloTimeout(c, timer, id) == SettleHello(c, Rejected(TimedOut)) && StateOk(HelloTimeout(c, timer, id))
  {
    SettleHelloKeeps(c, Rejected(TimedOut));
  }

  lemma ReconnectAlarmKeeps(c: State, timer: Timer)
    requires StateOk(c) && timer in c.timers && c.timers[timer] == ReconnectAlarm
    ensures StateOk(c.(timers := c.timers - {timer}, reconnectTimer := None))
  {}

  // What the synchronous methods mean for whoever calls them, on a consistent state.

  /** The reconnect timer field is the one reconnect alarm that is set. */
  predicate ReconnectAlarmIs(c: State, timer: Option<Timer>) {
    && (timer.Some? ==> timer.value in c.timers && c.timers[timer.value] == ReconnectAlarm)
    && forall t <- c.timers :: c.timers[t].ReconnectAlarm? ==> timer == Some(t)
  }

  /** The hello and every event that were unsettled have been rejected, once and for this reason; no other promise is
      touched. */
  predicate Emptied(c: State, after: State, reason: Reason) {
    && after.pending == map[] && after.hello.None? && after.promises.Keys == c.promises.Keys
    && forall id <- c.promises ::
      after.promises[id] == if Unsettled(c, id) then [Rejected(reason)] else c.promises[id]
  }

  lemma ScheduleMeans(c: State)
    requires StateOk(c)
    ensures var d := ScheduleReconnect(c);
      && StateOk(d) && ReconnectAlarmIs(d, d.reconnectTimer)
      && (forall t <- c.timers :: t in d.timers && d.timers[t] == c.timers[t])
      && (d.reconnectTimer.Some? <==> c.desired || c.reconnectTimer.Some?)
      && (c.reconnectTimer.Some? ==> d.reconnectTimer == c.reconnectTimer)
      && d.pending == c.pending && d.promises == c.promises
      && d.reconnectDelay ==
        if !c.desired || c.reconnectTimer.Some? then c.reconnectDelay
        else if c.reconnectDelay <= 15_000 then 2 * c.reconnectDelay else 30_000
  {
    ScheduleKeeps(c);
  }

  lemma ClosingEmpties(c: State, reason: Reason)
    requires SettledOnce(c)
    ensures Emptied(c, CloseCurrent(c, reason), reason)
  {
    forall id | id in c.promises && Unsettled(c, id) ensures c.promises[id] == [] {}
  }

  lemma ClosingMeans(c: State, reason: Reason)
    requires StateOk(c)
    ensures var d := CloseCurrent(c, reason);
      && StateOk(d) && Emptied(c, d, reason) && d.transport.None? && !d.connected
      && d.reconnectTimer == c.reconnectTimer && d.desired == c.desired
      && forall t <- d.timers :: d.timers[t] == ReconnectAlarm && d.reconnectTimer == Some(t)
  {
    CloseKeeps(c, reason);
    ClosingEmpties(c, reason);
  }

  /** After stop no timer of any kind is set, and whatever was unsettled has been rejected. */
  lemma StopMeans(c: State)
    requires StateOk(c)
    ensures var d := Stop(c);
      StateOk(d) && d.timers == map[] && Emptied(c, d, Stopped) && d.transport.None? && !d.connected && !d.desired
  {
    QuietedKeeps(c);
    ClosingMeans(Quieted(c), Stopped);
  }

  /** Losing the current transport rejects everything and schedules a reconnect if one is desired; losing any other
      transport is not noticed. */
  lemma HandleCloseMeans(c: State, transport: Transport)
    requires StateOk(c)
    ensures var d := HandleClose(c, transport);
      && StateOk(d)
      && (c.transport != Some(transport) ==> d == c)
      && (c.transport == Some(transport) ==>
            && Emptied(c, d, Disconnected) && d.transport.None? && !d.connected && ReconnectAlarmIs(d, d.reconnectTimer)
            && (d.reconnectTimer.Some? <==> c.desired || c.reconnectTimer.Some?)
            && forall t <- d.timers :: d.timers[t].ReconnectAlarm?)
  {
    ClosingMeans(c, Disconnected);
    ScheduleMeans(CloseCurrent(c, Disconnected));
  }

  /** An event is unsettled with exactly one timer if it was written, and rejected without one if the write failed. */
  lemma WriteMeans(c: State, id: Uuid, throws: bool)
    requires StateOk(c) && id !in c.promises
    ensures var d := WriteEvent(c, id, throws);
      && StateOk(d)
      && d.promises == c.promises[id := if throws then [Rejected(WriteFailed)] else []]
      && (id in d.pending <==> !throws)
      && (forall t <- d.timers :: d.timers[t] == EventAlarm(id) ==> id in d.pending && d.pending[id] == t)
      && (forall t <- c.timers :: t in d.timers && d.timers[t] == c.timers[t])
  {
    WriteKeeps(c, id, throws);
    WritePromise(c, id, throws);
  }

  lemma WritePromise(c: State, id: Uuid, throws: bool)
    requires id !in c.promises
    ensures WriteEvent(c, id, throws).promises == c.promises[id := if throws then [Rejected(WriteFailed)] else []]
  {
    assert [] + [Rejected(WriteFailed)] == [Rejected(WriteFailed)];
  }

  /** An alarm ends its own promise with the timeout and changes nothing else. */
  lemma EventTimeoutMeans(c: State, timer: Timer, id: Uuid)
    requires StateOk(c) && timer in c.timers && c.timers[timer] == EventAlarm(id)
    ensures var d := EventTimeout(c, timer, id);
      && StateOk(d) && id in c.pending && d.pending == c.pending - {id} && d.timers == c.timers - {timer}
      && d.promises == c.promises[id := [Rejected(TimedOut)]]
  {
    EventTimeoutKeeps(c, timer, id);
    assert c.promises[id] == [] && [] + [Rejected(TimedOut)] == [Rejected(TimedOut)];
  }

  lemma HelloTimeoutMeans(c: State, timer: Timer, id: Uuid)
    requires StateOk(c) && timer in c.timers && c.timers[timer] == HelloAlarm(id)
    ensures var d := HelloTimeout(c, timer, id);
      && StateOk(d) && c.hello.Some? && d.hello.None? && d.pending == c.pending && d.timers == c.timers - {timer}
      && d.promises == c.promises[id := [Rejected(TimedOut)]]
  {
    HelloTimeoutKeeps(c, timer, id);
    assert c.promises[id] == [] && [] + [Rejected(TimedOut)] == [Rejected(TimedOut)];
  }

  // The invariant of the program around it, in parts.

  predicate InFlight(attempt: Attempt) { attempt.Greeting? }

  /** Only one connection is being made at a time; an unanswered hello is that of the attempt and of the transport. */
  predicate ConnectOk(s: Sys) {
    && (s.c.transport.Some? ==> s.c.transport.value < s.nextTransport)
    && (s.c.connecting.Some? ==> s.c.connecting.value < |s.attempts|)
    && (forall a :: 0 <= a < |s.attempts| && InFlight(s.attempts[a]) ==> AttemptOk(s, a))
    && (s.c.hello.Some? ==>
          && s.c.connecting.Some? && InFlight(s.attempts[s.c.connecting.value])
          && s.attempts[s.c.connecting.value].hello == s.c.hello.value.requestId && s.c.transport.Some?)
    && (s.c.transport.Some? && !s.c.connected ==> s.c.connecting.Some? && InFlight(s.attempts[s.c.connecting.value]))
  }

  predicate AttemptOk(s: Sys, a: nat)
    requires a < |s.attempts| && InFlight(s.attempts[a])
  {
    var transport, id := s.attempts[a].transport, s.attempts[a].hello;
    && s.c.connecting == Some(a) && transport < s.nextTransport && transport in s.greeting
      && s.greeting[transport] == id
    && (s.c.transport.Some? ==> s.c.transport.value == transport)
    && id in s.c.promises && id !in s.owner
    && (s.c.promises[id] == [] ==> s.c.hello.Some? && s.c.hello.value.requestId == id)
  }

  /** Every event request belongs to the one call that sent it. */
  predicate OwnersOk(s: Sys) {
    && s.c.promises.Keys <= s.ids && s.owner.Keys <= s.ids
    && (forall id <- s.c.pending :: id in s.owner && s.owner[id] < |s.emits| && s.emits[s.owner[id]].phase == Sent(id))
    && (forall k :: 0 <= k < |s.emits| && s.emits[k].phase.Sent? ==>
          var id := s.emits[k].phase.requestId; id in s.c.promises && id in s.owner && s.owner[id] == k)
  }

  /** The event chain: a call that has begun comes after settled calls only. */
  predicate ChainOk(s: Sys) {
    && s.c.nextSequence == |s.emits| + 1
    && s.eventChain == (if s.emits == [] then None else Some(|s.emits| - 1))
    && (forall k :: 0 <= k < |s.emits| ==>
          s.emits[k].sequenceNo == k + 1 && s.emits[k].after == if k == 0 then None else Some(k - 1))
    && (forall j, k :: 0 <= j < k < |s.emits| && s.emits[k].phase != Queued ==> s.emits[j].phase.Settled?)
  }

  predicate Past(phase: Phase) { phase.Sent? || phase.Settled? }

  predicate WrittenOk(s: Sys) {
    && (forall i :: 0 <= i < |s.written| && s.written[i].EventFrame? ==>
          && 1 <= s.written[i].sequenceNo <= |s.emits| && Past(s.emits[s.written[i].sequenceNo - 1].phase))
    && Increasing(s.written)
  }

  predicate Increasing(written: seq<Written>) {
    forall i, j :: 0 <= i < j < |written| && written[i].EventFrame? && written[j].EventFrame? ==>
      written[i].sequenceNo < written[j].sequenceNo
  }

  predicate Inv(s: Sys) { StateOk(s.c) && ConnectOk(s) && OwnersOk(s) && ChainOk(s) && WrittenOk(s) }

  // Most events only settle promises, close the transport, or set and clear timers.

  predicate OnlySettles(c: State, d: State) {
    && d.pending.Keys <= c.pending.Keys && d.promises.Keys == c.promises.Keys
    && (forall id <- d.promises :: d.promises[id] == [] ==> c.promises[id] == [])
    && (forall id <- d.promises :: c.promises[id] != [] ==> d.promises[id] == c.promises[id])
    && d.connecting == c.connecting && d.nextSequence == c.nextSequence
    && (d.transport == c.transport || d.transport == None)
    && (d.hello == c.hello || d.hello == None)
    && (d.hello.Some? ==> d.transport == c.transport)
    && (d.transport.Some? && !d.connected ==> !c.connected) && (d.connected ==> c.connected)
  }

  lemma OnlySettlesTrans(c: State, d: State, e: State)
    requires OnlySettles(c, d) && OnlySettles(d, e)
    ensures OnlySettles(c, e)
  {}

  lemma ClosingSettles(c: State, reason: Reason)
    requires StateOk(c)
    ensures OnlySettles(c, CloseCurrent(c, reason)) && OnlySettles(c, ScheduleReconnect(CloseCurrent(c, reason)))
  {}

  lemma SettlingHelloSettles(c: State, outcome: Outcome)
    requires SettledOnce(c)
    ensures OnlySettles(c, SettleHello(c, outcome))
  {}

  lemma SettlingEventSettles(c: State, id: Uuid, outcome: Outcome)
    requires SettledOnce(c) && id in c.pending
    ensures OnlySettles(c, SettleEvent(c, id, outcome))
  {}

  lemma {:induction false} FramesSettle(c: State, transport: Transport, frames: seq<Frame>)
    requires StateOk(c)
    ensures OnlySettles(c, HandleFrames(c, transport, frames))
    decreases |frames|
  {
    if frames != [] {
      if c.hello.Some? {
        var outcome := if frames[0] == HelloAck(c.hello.value.requestId) then Acked else Rejected(BadHello);
        var d := SettleHello(c, outcome);
        SettleHelloKeeps(c, outcome);
        SettlingHelloSettles(c, outcome);
        FramesSettle(d, transport, frames[1..]);
        OnlySettlesTrans(c, d, HandleFrames(d, transport, frames[1..]));
      } else if frames[0].EventAck? {
        var id := frames[0].requestId;
        var d := if id in c.pending then SettleEvent(c, id, Acked) else c;
        if id in c.pending {
          SettleEventKeeps(c, id, Acked);
          SettlingEventSettles(c, id, Acked);
        }
        FramesSettle(d, transport, frames[1..]);
        OnlySettlesTrans(c, d, HandleFrames(d, transport, frames[1..]));
      } else {
        ClosingSettles(c, Disconnected);
      }
    }
  }

  lemma SettlingKeepsConnect(s: Sys, d: State)
    requires ConnectOk(s) && OnlySettles(s.c, d) && StateOk(s.c) && StateOk(d) && OwnersOk(s)
    ensures ConnectOk(s.(c := d))
  {
    forall a | 0 <= a < |s.attempts| && InFlight(s.attempts[a]) ensures AttemptOk(s.(c := d), a) {
      assert AttemptOk(s, a);
    }
  }

  lemma SettlingKeepsOwners(s: Sys, d: State)
    requires OwnersOk(s) && OnlySettles(s.c, d)
    ensures OwnersOk(s.(c := d))
  {}

  lemma SettlingKeepsInv(s: Sys, d: State)
    requires Inv(s) && OnlySettles(s.c, d) && StateOk(d)
    ensures Inv(s.(c := d))
  {
    SettlingKeepsConnect(s, d);
    SettlingKeepsOwners(s, d);
  }

  // Every event keeps the invariant.

  lemma OpenKeepsConnect(s: Sys, making: Making)
    requires ConnectOk(s) && OwnersOk(s) && StateOk(s.c) && Opens(s.c) && Possible(s, making)
    ensures ConnectOk(Open(s, making)) && StateOk(Open(s, making).c)
  {
    OpenKeepsState(s, making);
    if making.Makes? { assert AttemptOk(Open(s, making), |s.attempts|); }
  }

  lemma OpenKeepsState(s: Sys, making: Making)
    requires ConnectOk(s) && OwnersOk(s) && StateOk(s.c) && Opens(s.c) && Possible(s, making)
    ensures StateOk(Open(s, making).c)
  {
    OpensWithoutHello(s, making);
    OpenFreeKeepsState(s, making);
  }

  lemma OpensWithoutHello(s: Sys, making: Making)
    requires ConnectOk(s) && OwnersOk(s) && Opens(s.c) && Possible(s, making)
    ensures s.c.hello.None? && (making.Makes? ==> making.hello !in s.c.promises)
  {}

  lemma OpenFreeKeepsState(s: Sys, making: Making)
    requires StateOk(s.c) && s.c.hello.None? && (making.Makes? ==> making.hello !in s.c.promises)
    ensures StateOk(Open(s, making).c)
  {
    match making
    case Throws => ScheduleKeeps(s.c);
    case Makes(id) => EstablishKeeps(s.c, s.nextTransport, id);
  }

  lemma OpenKeepsRest(s: Sys, making: Making)
    requires OwnersOk(s) && ChainOk(s) && WrittenOk(s) && Possible(s, making)
    ensures OwnersOk(Open(s, making)) && ChainOk(Open(s, making)) && WrittenOk(Open(s, making))
  {}

  lemma EnsureConnectedKeeps(s: Sys, making: Making)
    requires Inv(s) && Possible(s, making)
    ensures Inv(EnsureConnected(s, making))
  {
    if Opens(s.c) {
      OpenKeepsConnect(s, making);
      OpenKeepsRest(s, making);
    }
  }

  lemma CallsKeep(s: Sys, calls: map<nat, Call>)
    requires Inv(s)
    ensures Inv(s.(calls := calls))
  {
    SettlingKeepsConnect(s.(calls := calls), s.c);
  }

  lemma StartKeeps(s: Sys, pid: nat, making: Making)
    requires Inv(s)
    ensures Inv(Step(s, StartCall(pid, making)))
  {
    if pid !in s.calls && Possible(s, making) {
      var wanted := s.(c := s.c.(desired := true));
      SettlingKeepsInv(s, s.c.(desired := true));
      EnsureConnectedKeeps(wanted, making);
      CallsKeep(EnsureConnected(wanted, making), s.calls[pid := CallFor(wanted)]);
    }
  }

  lemma StopKeepsInv(s: Sys)
    requires Inv(s)
    ensures Inv(Step(s, StopCall))
  {
    StopKeeps(s.c);
    StoppingSettles(s.c);
    SettlingKeepsInv(s, Stop(s.c));
  }

  lemma StoppingSettles(c: State)
    requires StateOk(c)
    ensures OnlySettles(c, Stop(c))
  {
    QuietedKeeps(c);
    QuietedSettles(c);
    ClosingSettles(Quieted(c), Stopped);
    OnlySettlesTrans(c, Quieted(c), Stop(c));
  }

  lemma QuietedSettles(c: State)
    ensures OnlySettles(c, Quieted(c))
  {}

  lemma EmitKeepsRest(s: Sys)
    requires OwnersOk(s) && ChainOk(s) && WrittenOk(s)
    ensures OwnersOk(Step(s, EmitCall)) && ChainOk(Step(s, EmitCall)) && WrittenOk(Step(s, EmitCall))
  {}

  lemma EmitKeeps(s: Sys)
    requires Inv(s)
    ensures Inv(Step(s, EmitCall))
  {
    EmitKeepsRest(s);
    forall a | 0 <= a < |s.attempts| && InFlight(s.attempts[a]) ensures AttemptOk(Step(s, EmitCall), a) {
      assert AttemptOk(s, a);
    }
  }

  /** A call moves on within the chain, neither sending nor forgetting a request. */
  predicate PhaseMoves(before: Phase, after: Phase) {
    !after.Sent? && after != Queued && (before.Settled? ==> after.Settled?) && (before.Sent? ==> after.Settled?)
  }

  lemma PhaseKeepsChain(s: Sys, k: nat, phase: Phase)
    requires ChainOk(s) && k < |s.emits| && PhaseMoves(s.emits[k].phase, phase)
    requires s.emits[k].phase != Queued || k == 0 || s.emits[k - 1].phase.Settled?
    ensures ChainOk(SetPhase(s, k, phase))
  {
    if k > 0 && s.emits[k].phase == Queued { assert s.emits[k - 1].phase != Queued; }
  }

  lemma PhaseKeepsRest(s: Sys, k: nat, phase: Phase)
    requires OwnersOk(s) && WrittenOk(s) && k < |s.emits| && PhaseMoves(s.emits[k].phase, phase)
    requires s.emits[k].phase.Sent? ==> s.emits[k].phase.requestId !in s.c.pending
    ensures OwnersOk(SetPhase(s, k, phase)) && WrittenOk(SetPhase(s, k, phase))
  {}

  lemma PhaseKeeps(s: Sys, k: nat, phase: Phase)
    requires Inv(s) && k < |s.emits| && PhaseMoves(s.emits[k].phase, phase)
    requires s.emits[k].phase != Queued || k == 0 || s.emits[k - 1].phase.Settled?
    requires s.emits[k].phase.Sent? ==> s.emits[k].phase.requestId !in s.c.pending
    ensures Inv(SetPhase(s, k, phase))
  {
    PhaseKeepsChain(s, k, phase);
    PhaseKeepsRest(s, k, phase);
    SettlingKeepsConnect(SetPhase(s, k, phase), s.c);
  }

  lemma EmitSeenKeeps(s: Sys, k: nat)
    requires Inv(s)
    ensures Inv(Step(s, EmitSeen(k)))
  {
    if Step(s, EmitSeen(k)) != s {
      PhaseKeeps(s, k, Settled(s.c.promises[s.emits[k].phase.requestId][0].Acked?));
    }
  }

  lemma BeginKeeps(s: Sys, k: nat, making: Making)
    requires Inv(s)
    ensures Inv(Step(s, BeginEmit(k, making)))
  {
    if MayBegin(s, k) && Possible(s, making) {
      EnsureConnectedKeeps(s, making);
      PhaseKeeps(EnsureConnected(s, making), k, PhaseOf(CallFor(s)));
    }
  }

  lemma ClearedKeeps(s: Sys, call: Call)
    requires Inv(s) && Ready(s, call)
    ensures Inv(Cleared(s, call))
  {
    ClearedKeepsConnect(s, call);
    ClearedKeepsRest(s, call);
  }

  lemma ClearedKeepsRest(s: Sys, call: Call)
    requires StateOk(s.c) && OwnersOk(s) && ChainOk(s) && WrittenOk(s) && call.Awaiting?
    ensures var t := Cleared(s, call); StateOk(t.c) && OwnersOk(t) && ChainOk(t) && WrittenOk(t)
  {}

  lemma ClearedKeepsConnect(s: Sys, call: Call)
    requires ConnectOk(s) && Ready(s, call)
    ensures ConnectOk(Cleared(s, call))
  {}

  lemma ResumeCallKeeps(s: Sys, pid: nat)
    requires Inv(s)
    ensures Inv(Step(s, ResumeCall(pid)))
  {
    if pid in s.calls && Ready(s, s.calls[pid]) {
      ClearedKeeps(s, s.calls[pid]);
      var t := Cleared(s, s.calls[pid]);
      CallsKeep(t, s.calls[pid := Next(t, s.calls[pid])]);
    }
  }

  lemma ResumeEmitKeeps(s: Sys, k: nat)
    requires Inv(s)
    ensures Inv(Step(s, ResumeEmit(k)))
  {
    if k < |s.emits| && s.emits[k].phase.Connecting? && Ready(s, s.emits[k].phase.call) {
      ClearedKeeps(s, s.emits[k].phase.call);
      var t := Cleared(s, s.emits[k].phase.call);
      PhaseKeeps(t, k, PhaseOf(Next(t, s.emits[k].phase.call)));
    }
  }

  predicate MayWrite(s: Sys, k: nat, id: Uuid) {
    k < |s.emits| && s.emits[k].phase.Connecting? && s.emits[k].phase.call.HasTransport? && id !in s.ids
  }

  lemma WriteKeepsOwners(s: Sys, k: nat, id: Uuid, throws: bool)
    requires OwnersOk(s) && MayWrite(s, k, id)
    ensures OwnersOk(WriteFrame(s, k, id, throws))
  {}

  lemma WriteKeepsChain(s: Sys, k: nat, id: Uuid, throws: bool)
    requires ChainOk(s) && MayWrite(s, k, id)
    ensures ChainOk(WriteFrame(s, k, id, throws))
  {}

  /** What was written before belongs to calls before this one. */
  lemma WrittenEarlier(s: Sys, k: nat, i: nat)
    requires ChainOk(s) && WrittenOk(s) && k < |s.emits| && s.emits[k].phase.Connecting?
    requires i < |s.written| && s.written[i].EventFrame?
    ensures s.written[i].sequenceNo < s.emits[k].sequenceNo
  {
    var j := s.written[i].sequenceNo - 1;
    assert s.emits[j].phase != Queued;
  }

  lemma WriteKeepsWritten(s: Sys, k: nat, id: Uuid, throws: bool)
    requires ChainOk(s) && WrittenOk(s) && MayWrite(s, k, id)
    ensures WrittenOk(WriteFrame(s, k, id, throws))
  {
    forall i | 0 <= i < |s.written| && s.written[i].EventFrame?
      ensures s.written[i].sequenceNo < s.emits[k].sequenceNo
    {
      WrittenEarlier(s, k, i);
    }
  }

  lemma WriteKeepsConnect(s: Sys, k: nat, id: Uuid, throws: bool)
    requires ConnectOk(s) && OwnersOk(s) && MayWrite(s, k, id)
    ensures ConnectOk(WriteFrame(s, k, id, throws))
  {
    forall a | 0 <= a < |s.attempts| && InFlight(s.attempts[a]) ensures AttemptOk(WriteFrame(s, k, id, throws), a) {
      assert AttemptOk(s, a);
    }
  }

  lemma WriteKeepsInv(s: Sys, k: nat, id: Uuid, throws: bool)
    requires Inv(s) && MayWrite(s, k, id)
    ensures Inv(WriteFrame(s, k, id, throws))
  {
    WriteKeeps(s.c, id, throws);
    WriteKeepsOwners(s, k, id, throws);
    WriteKeepsChain(s, k, id, throws);
    WriteKeepsWritten(s, k, id, throws);
    WriteKeepsConnect(s, k, id, throws);
  }

  lemma HandleCloseKeepsInv(s: Sys, transport: Transport)
    requires Inv(s)
    ensures Inv(s.(c := HandleClose(s.c, transport)))
  {
    HandleCloseKeeps(s.c, transport);
    ClosingSettles(s.c, Disconnected);
    SettlingKeepsInv(s, HandleClose(s.c, transport));
  }

  lemma HelloWrittenKeeps(s: Sys, frame: Written)
    requires Inv(s) && frame.HelloFrame?
    ensures Inv(s.(written := s.written + [frame]))
  {
    SettlingKeepsConnect(s.(written := s.written + [frame]), s.c);
  }

  lemma ConnectKeeps(s: Sys, a: nat, throws: bool)
    requires Inv(s)
    ensures Inv(Step(s, Connect(a, throws)))
  {
    if a < |s.attempts| && s.attempts[a].Greeting? {
      HandleCloseKeepsInv(s, s.attempts[a].transport);
      HelloWrittenKeeps(s, HelloFrame(s.attempts[a].transport, s.attempts[a].hello));
    }
  }

  lemma ConnectedKeeps(s: Sys, a: nat)
    requires ConnectOk(s) && SettledOnce(s.c) && HelloDue(s, a)
    ensures ConnectOk(s.(c := s.c.(connected := true, reconnectDelay := FIRST_DELAY),
                         attempts := s.attempts[a := Ended(true)]))
  {
    assert AttemptOk(s, a);
  }

  lemma GivenUpKeeps(s: Sys, a: nat)
    requires ConnectOk(s) && a < |s.attempts| && s.c.transport == None && s.c.hello == None
    ensures ConnectOk(s.(attempts := s.attempts[a := Ended(false)]))
  {
    var t := s.(attempts := s.attempts[a := Ended(false)]);
    forall b | 0 <= b < |t.attempts| && InFlight(t.attempts[b]) ensures AttemptOk(t, b) { assert AttemptOk(s, b); }
  }

  lemma AnsweredKeeps(s: Sys, a: nat)
    requires Inv(s) && HelloDue(s, a) && s.c.promises[s.attempts[a].hello][0].Acked?
    ensures Inv(AttemptGoesOn(s, a))
  {
    ConnectedKeeps(s, a);
    DelayKeeps(s.c);
  }

  lemma ClosedKeeps(s: Sys, reason: Reason)
    requires Inv(s)
    ensures Inv(s.(c := ScheduleReconnect(CloseCurrent(s.c, reason))))
  {
    CloseKeeps(s.c, reason);
    ScheduleKeeps(CloseCurrent(s.c, reason));
    ClosingSettles(s.c, reason);
    SettlingKeepsInv(s, ScheduleReconnect(CloseCurrent(s.c, reason)));
  }

  lemma UnansweredKeeps(s: Sys, a: nat)
    requires Inv(s) && HelloDue(s, a) && !s.c.promises[s.attempts[a].hello][0].Acked?
    ensures Inv(AttemptGoesOn(s, a))
  {
    ClosedKeeps(s, HelloFailed);
    GivenUpKeeps(s.(c := ScheduleReconnect(CloseCurrent(s.c, HelloFailed))), a);
  }

  lemma HelloSeenKeeps(s: Sys, a: nat)
    requires Inv(s) && HelloDue(s, a)
    ensures Inv(AttemptGoesOn(s, a))
  {
    if s.c.promises[s.attempts[a].hello][0].Acked? { AnsweredKeeps(s, a); } else { UnansweredKeeps(s, a); }
  }

  lemma DelayKeeps(c: State)
    requires StateOk(c)
    ensures StateOk(c.(connected := true, reconnectDelay := FIRST_DELAY))
  {}

  lemma DataKeeps(s: Sys, transport: Transport, frames: Option<seq<Frame>>)
    requires Inv(s)
    ensures Inv(Step(s, Data(transport, frames)))
  {
    HandleCloseKeepsInv(s, transport);
    if s.c.transport == Some(transport) && frames.Some? { FramesKeepInv(s, transport, frames.value); }
  }

  lemma FramesKeepInv(s: Sys, transport: Transport, frames: seq<Frame>)
    requires Inv(s)
    ensures Inv(s.(c := HandleFrames(s.c, transport, frames)))
  {
    HandleFramesKeeps(s.c, transport, frames);
    FramesSettle(s.c, transport, frames);
    SettlingKeepsInv(s, HandleFrames(s.c, transport, frames));
  }

  lemma ReconnectRings(s: Sys, timer: Timer, pid: nat, making: Making)
    requires Inv(s) && timer in s.c.timers && s.c.timers[timer] == ReconnectAlarm && Possible(s, making)
    ensures Inv(Ring(s, timer, pid, making))
  {
    var d := s.c.(timers := s.c.timers - {timer}, reconnectTimer := None);
    ReconnectAlarmKeeps(s.c, timer);
    SettlingKeepsInv(s, d);
    var fired := s.(c := d);
    EnsureConnectedKeeps(fired, making);
    CallsKeep(EnsureConnected(fired, making), s.calls[pid := CallFor(fired)]);
  }

  lemma RingKeeps(s: Sys, timer: Timer, pid: nat, making: Making)
    requires Inv(s) && timer in s.c.timers && Possible(s, making)
    ensures Inv(Ring(s, timer, pid, making))
  {
    match s.c.timers[timer]
    case EventAlarm(id) =>
      EventTimeoutKeeps(s.c, timer, id);
      SettlingEventSettles(s.c, id, Rejected(TimedOut));
      SettlingKeepsInv(s, EventTimeout(s.c, timer, id));
    case HelloAlarm(id) =>
      HelloTimeoutKeeps(s.c, timer, id);
      SettlingHelloSettles(s.c, Rejected(TimedOut));
      SettlingKeepsInv(s, HelloTimeout(s.c, timer, id));
    case ReconnectAlarm => ReconnectRings(s, timer, pid, making);
  }

  lemma StepKeepsInv(s: Sys, ev: Event)
    requires Inv(s)
    ensures Inv(Step(s, ev))
  {
    if OfEmit(ev) { EmitsKeepInv(s, ev); }
    else if FromOutside(ev) { OutsideKeepsInv(s, ev); }
    else { CallsKeepInv(s, ev); }
  }

  predicate OfEmit(ev: Event) { ev.EmitCall? || ev.BeginEmit? || ev.ResumeEmit? || ev.Write? || ev.EmitSeen? }

  lemma EmitsKeepInv(s: Sys, ev: Event)
    requires Inv(s) && OfEmit(ev)
    ensures Inv(Step(s, ev))
  {
    match ev
    case EmitCall => EmitKeeps(s);
    case BeginEmit(k, making) => BeginKeeps(s, k, making);
    case ResumeEmit(k) => ResumeEmitKeeps(s, k);
    case Write(k, id, throws) => WriteStepKeeps(s, k, id, throws);
    case EmitSeen(k) => EmitSeenKeeps(s, k);
  }

  lemma WriteStepKeeps(s: Sys, k: nat, id: Uuid, throws: bool)
    requires Inv(s)
    ensures Inv(Step(s, Write(k, id, throws)))
  {
    if MayWrite(s, k, id) { WriteKeepsInv(s, k, id, throws); }
  }

  predicate FromOutside(ev: Event) { ev.StopCall? || ev.Connect? || ev.Data? || ev.Closed? || ev.Alarmed? }

  lemma OutsideKeepsInv(s: Sys, ev: Event)
    requires Inv(s) && FromOutside(ev)
    ensures Inv(Step(s, ev))
  {
    match ev
    case StopCall => StopKeepsInv(s);
    case Connect(a, throws) => ConnectKeeps(s, a, throws);
    case Data(transport, frames) => DataKeeps(s, transport, frames);
    case Closed(transport) => ClosedStepKeeps(s, transport);
    case Alarmed(timer, pid, making) => AlarmedKeeps(s, timer, pid, making);
  }

  lemma ClosedStepKeeps(s: Sys, transport: Transport)
    requires Inv(s)
    ensures Inv(Step(s, Closed(transport)))
  {
    HandleCloseKeepsInv(s, transport);
  }

  lemma AlarmedKeeps(s: Sys, timer: Timer, pid: nat, making: Making)
    requires Inv(s)
    ensures Inv(Step(s, Alarmed(timer, pid, making)))
  {
    AlarmedIsRing(s, timer, pid, making);
    if timer in s.c.timers && Possible(s, making) { RingKeeps(s, timer, pid, making); }
  }

  lemma AlarmedIsRing(s: Sys, timer: Timer, pid: nat, making: Making)
    ensures Step(s, Alarmed(timer, pid, making)) ==
      if timer !in s.c.timers || pid in s.calls || !Possible(s, making) then s else Ring(s, timer, pid, making)
  {}

  lemma CallsKeepInv(s: Sys, ev: Event)
    requires Inv(s) && !OfEmit(ev) && !FromOutside(ev)
    ensures Inv(Step(s, ev))
  {
    match ev
    case StartCall(pid, making) => StartKeeps(s, pid, making);
    case ResumeCall(pid) => ResumeCallKeeps(s, pid);
    case HelloSeen(a) => if HelloDue(s, a) { HelloSeenKeeps(s, a); }
  }

  lemma {:induction false} ReachableInv(evs: seq<Event>)
    ensures Inv(Run(START, evs))
  {
    if evs != [] {
      ReachableInv(evs[..|evs| - 1]);
      StepKeepsInv(Run(START, evs[..|evs| - 1]), evs[|evs| - 1]);
    }
  }

  // Main results, for every run of the session.

  /** The event frames on the wire, over all transports, carry strictly increasing sequence numbers. */
  lemma SequenceNumbersIncrease(evs: seq<Event>)
    ensures var written := Run(START, evs).written;
      forall i, j :: 0 <= i < j < |written| && written[i].EventFrame? && written[j].EventFrame? ==>
        1 <= written[i].sequenceNo < written[j].sequenceNo
  {
    ReachableInv(evs);
  }

  /** At most one event is waiting for its acknowledgement; every earlier call has settled, no later one has begun. */
  lemma OneUnacknowledgedEvent(evs: seq<Event>)
    ensures var s := Run(START, evs);
      && |s.c.pending| <= 1
      && forall id <- s.c.pending ::
        && id in s.owner && s.owner[id] < |s.emits| && s.emits[s.owner[id]].phase == Sent(id)
        && (forall k :: 0 <= k < s.owner[id] ==> s.emits[k].phase.Settled?)
        && (forall k :: s.owner[id] < k < |s.emits| ==> s.emits[k].phase == Queued)
  {
    ReachableInv(evs);
    var s := Run(START, evs);
    forall a, b | a in s.c.pending && b in s.c.pending ensures a == b {
      OneSender(s, s.owner[a], s.owner[b]);
    }
    AtMostOne(s.c.pending);
    forall id, k | id in s.c.pending && s.owner[id] < k < |s.emits| ensures s.emits[k].phase == Queued {
      OnlyQueuedBehind(s, s.owner[id], k);
    }
  }

  lemma OneSender(s: Sys, j: nat, k: nat)
    requires ChainOk(s) && j < |s.emits| && k < |s.emits| && s.emits[j].phase.Sent? && s.emits[k].phase.Sent?
    ensures j == k
  {}

  lemma OnlyQueuedBehind(s: Sys, j: nat, k: nat)
    requires ChainOk(s) && j < k < |s.emits| && !s.emits[j].phase.Settled?
    ensures s.emits[k].phase == Queued
  {}

  lemma AtMostOne<K, V>(m: map<K, V>)
    requires forall a, b :: a in m && b in m ==> a == b
    ensures |m| <= 1
  {
    if m != map[] {
      var a :| a in m;
      assert m.Keys == {a};
    }
  }

  /** Every promise is settled exactly once, when it stops being pending; a timer is set for it exactly until then. */
  lemma PromisesSettleOnce(evs: seq<Event>, id: Uuid)
    ensures var c := Run(START, evs).c;
      && (id in c.promises ==> |c.promises[id]| == if Unsettled(c, id) then 0 else 1)
      && (Unsettled(c, id) ==> id in c.promises)
      && (Unsettled(c, id) <==> exists t <- c.timers :: c.timers[t] == EventAlarm(id) || c.timers[t] == HelloAlarm(id))
  {
    ReachableInv(evs);
    var c := Run(START, evs).c;
    if id in c.pending { assert c.timers[c.pending[id]] == EventAlarm(id); }
    if c.hello.Some? { assert c.timers[c.hello.value.timer] == HelloAlarm(c.hello.value.requestId); }
  }

  /** An emit call that has sent its event can settle exactly when the event's promise has, and with its result. */
  lemma EmitFollowsItsEvent(evs: seq<Event>, k: nat)
    requires var s := Run(START, evs); k < |s.emits| && s.emits[k].phase.Sent?
    ensures var s := Run(START, evs); var id := s.emits[k].phase.requestId;
      && id in s.c.promises
      && (id !in s.c.pending && !(s.c.hello.Some? && s.c.hello.value.requestId == id) <==>
            Step(s, EmitSeen(k)).emits[k].phase == Settled(s.c.promises[id] == [Acked]))
  {
    ReachableInv(evs);
  }

  // What a chunk does.

  function AckedIn(frames: seq<Frame>): set<Uuid> { set f | f in frames && f.EventAck? :: f.requestId }

  /** The pending events among ids, and no other promise, are settled as acknowledged. */
  predicate AcksTaken(c: State, d: State, ids: set<Uuid>) {
    && d.pending == c.pending - ids && d.promises.Keys == c.promises.Keys
    && forall id <- c.promises ::
      d.promises[id] == if id in c.pending && id in ids then [Acked] else c.promises[id]
  }

  function AckOne(c: State, id: Uuid): State { if id in c.pending then SettleEvent(c, id, Acked) else c }

  lemma AckOneIsTaken(c: State, id: Uuid)
    requires SettledOnce(c)
    ensures AcksTaken(c, AckOne(c, id), {id}) && SettledOnce(AckOne(c, id))
  {
    if id in c.pending { assert c.promises[id] == []; }
  }

  lemma AcksAddUp(c: State, d: State, e: State, a: set<Uuid>, b: set<Uuid>)
    requires AcksTaken(c, d, a) && AcksTaken(d, e, b)
    ensures AcksTaken(c, e, a + b)
  {
    assert c.pending - (a + b) == c.pending - a - b;
  }

  lemma {:induction false} AcksSettle(c: State, transport: Transport, frames: seq<Frame>)
    requires SettledOnce(c) && c.hello.None? && forall f <- frames :: f.EventAck?
    ensures AcksTaken(c, HandleFrames(c, transport, frames), AckedIn(frames))
    decreases |frames|
  {
    if frames != [] {
      var id := frames[0].requestId;
      AckOneIsTaken(c, id);
      AcksSettle(AckOne(c, id), transport, frames[1..]);
      assert AckedIn(frames) == {id} + AckedIn(frames[1..]);
      AcksAddUp(c, AckOne(c, id), HandleFrames(c, transport, frames), {id}, AckedIn(frames[1..]));
    }
  }

  /** In every reachable state, a chunk of acknowledgements settles exactly the pending events it names, in whatever
      order and however often it names them. */
  lemma ChunkOfAcks(evs: seq<Event>, transport: Transport, frames: seq<Frame>)
    requires var s := Run(START, evs); s.c.transport == Some(transport) && s.c.hello.None?
    requires forall f <- frames :: f.EventAck?
    ensures AcksTaken(Run(START, evs).c, Step(Run(START, evs), Data(transport, Some(frames))).c, AckedIn(frames))
  {
    ReachableInv(evs);
    AcksSettle(Run(START, evs).c, transport, frames);
  }

  lemma AnsweredByFirst(c: State, transport: Transport, frame: Frame, rest: seq<Frame>)
    requires StateOk(c) && c.hello.Some?
    ensures var id := c.hello.value.requestId; var d := HandleFrames(c, transport, [frame] + rest);
      && d.hello.None? && id in d.promises
      && d.promises[id] == [if frame == HelloAck(id) then Acked else Rejected(BadHello)]
  {
    var outcome := if frame == HelloAck(c.hello.value.requestId) then Acked else Rejected(BadHello);
    assert ([frame] + rest)[1..] == rest;
    SettleHelloKeeps(c, outcome);
    FramesSettle(SettleHello(c, outcome), transport, rest);
  }

  /** While a hello is unanswered, the first frame of the next chunk answers it, for good or bad. */
  lemma FirstFrameAnswersHello(evs: seq<Event>, transport: Transport, frame: Frame, rest: seq<Frame>)
    requires var s := Run(START, evs); s.c.transport == Some(transport) && s.c.hello.Some?
    ensures var id := Run(START, evs).c.hello.value.requestId;
      var t := Step(Run(START, evs), Data(transport, Some([frame] + rest)));
      && t.c.hello.None? && id in t.c.promises
      && t.c.promises[id] == [if frame == HelloAck(id) then Acked else Rejected(BadHello)]
  {
    ReachableInv(evs);
    AnsweredByFirst(Run(START, evs).c, transport, frame, rest);
  }

  // What is settled stays settled.

  lemma SettledEmitStays(s: Sys, ev: Event, k: nat)
    requires k < |s.emits| && s.emits[k].phase.Settled?
    ensures k < |Step(s, ev).emits| && Step(s, ev).emits[k] == s.emits[k]
  {
    if !ev.EmitCall? && !ev.BeginEmit? && !ev.ResumeEmit? && !ev.Write? && !ev.EmitSeen? { OthersKeepEmits(s, ev); }
  }

  lemma OthersKeepEmits(s: Sys, ev: Event)
    requires !ev.EmitCall? && !ev.BeginEmit? && !ev.ResumeEmit? && !ev.Write? && !ev.EmitSeen?
    ensures Step(s, ev).emits == s.emits
  {}

  /** An emit call that has settled keeps its result. */
  lemma {:induction false} EmitSettlesForGood(before: seq<Event>, after: seq<Event>, k: nat)
    requires IsSettled(Run(START, before), k)
    ensures var s, t := Run(START, before), Run(Run(START, before), after);
      k < |t.emits| && t.emits[k] == s.emits[k]
  {
    if after != [] {
      EmitSettlesForGood(before, after[..|after| - 1], k);
      SettledEmitStays(Run(Run(START, before), after[..|after| - 1]), after[|after| - 1], k);
    }
  }
}
