/** The browser extension's bridge to the native host (extensions/browser/src/native-bridge.ts): its fields, the
    synchronous parts of its methods and callbacks, and every order in which the event loop may run them. */
module Bridge {
  import opened Wrappers
  import opened Domain

  type Port = nat
  type Timer = nat
  type Kind = string

  const HELLO_ACK: Kind := "extension.hello.ack"
  const ACTION_EXECUTE: Kind := "browser.action.execute"
  const INTEGRATION_ERROR: Kind := "integration.error"
  const FIRST_DELAY: nat := 250
  const LAST_DELAY: nat := 30_000

  datatype Message = Message(requestId: Uuid, kind: Kind, payload: string)

  datatype Reason =
    | TimedOut | WriteFailed | HostRejected | TypeMismatch | Disconnected | Replaced | Stopped | HelloFailed
  datatype Outcome = Resolved(port: Port, message: Message) | Rejected(reason: Reason)

  datatype PendingRequest = PendingRequest(expected: Kind, timer: Timer)
  datatype Alarm = RequestAlarm(requestId: Uuid) | ReconnectAlarm

  /** The fields, the timers that are set, and what each accepted request's promise was settled with, in order. */
  datatype State = State(
    pending: map<Uuid, PendingRequest>,
    port: Option<Port>,
    ready: bool,
    desired: bool,
    connecting: Option<nat>,
    reconnectDelay: nat,
    reconnectTimer: Option<Timer>,
    timers: map<Timer, Alarm>,
    nextTimer: Timer,
    outcomes: map<Uuid, seq<Outcome>>)

  const NEW := State(map[], None, false, false, None, FIRST_DELAY, None, map[], 0, map[])

  function Min(a: nat, b: nat): nat { if a < b then a else b }

  // What the methods compute.

  /** The request's promise is settled, its entry and its timer go. */
  function Settle(b: State, id: Uuid, outcome: Outcome): State
    requires id in b.pending && id in b.outcomes
  {
    b.(pending := b.pending - {id}, timers := b.timers - {b.pending[id].timer},
       outcomes := b.outcomes[id := b.outcomes[id] + [outcome]])
  }

  function TimersOf(pending: map<Uuid, PendingRequest>, ids: set<Uuid>): set<Timer> {
    set id | id in ids && id in pending :: pending[id].timer
  }

  function WithRejected(outcomes: map<Uuid, seq<Outcome>>, ids: set<Uuid>, reason: Reason): map<Uuid, seq<Outcome>> {
    map id <- outcomes :: if id in ids then outcomes[id] + [Rejected(reason)] else outcomes[id]
  }

  function RejectThese(b: State, ids: set<Uuid>, reason: Reason): State {
    b.(pending := b.pending - ids, timers := b.timers - TimersOf(b.pending, ids),
       outcomes := WithRejected(b.outcomes, ids, reason))
  }

  function RejectAll(b: State, reason: Reason): State { RejectThese(b, b.pending.Keys, reason) }

  function CloseCurrentPort(b: State, reason: Reason): State {
    RejectAll(b.(port := None, ready := false), reason)
  }

  function ScheduleReconnect(b: State): State {
    if !b.desired || b.reconnectTimer.Some? then b else
      b.(reconnectDelay := Min(b.reconnectDelay * 2, LAST_DELAY), reconnectTimer := Some(b.nextTimer),
         timers := b.timers[b.nextTimer := ReconnectAlarm], nextTimer := b.nextTimer + 1)
  }

  function CancelReconnect(b: State): State {
    if b.reconnectTimer.None? then b else
      b.(timers := b.timers - {b.reconnectTimer.value}, reconnectTimer := None)
  }

  function Stop(b: State): State { CloseCurrentPort(CancelReconnect(b.(desired := false)), Stopped) }

  /** What can happen to a message that is posted. */
  datatype Posting = TooLarge | Posted | PostThrows

  predicate Accepts(b: State, max: nat, posting: Posting) { posting != TooLarge && |b.pending| < max }

  function Enter(b: State, id: Uuid, expected: Kind): State {
    b.(pending := b.pending[id := PendingRequest(expected, b.nextTimer)],
       timers := b.timers[b.nextTimer := RequestAlarm(id)], nextTimer := b.nextTimer + 1,
       outcomes := b.outcomes[id := []])
  }

  function RequestOnPort(b: State, max: nat, id: Uuid, expected: Kind, posting: Posting): State {
    if !Accepts(b, max, posting) then b else
      var entered := Enter(b, id, expected);
      if posting == PostThrows then Settle(entered, id, Rejected(WriteFailed)) else entered
  }

  function Verdict(port: Port, expected: Kind, m: Message): Outcome {
    if m.kind == INTEGRATION_ERROR then Rejected(HostRejected)
    else if m.kind != expected then Rejected(TypeMismatch)
    else Resolved(port, m)
  }

  /** A message that does not parse is None. */
  function HandleMessage(b: State, port: Port, raw: Option<Message>): State {
    if b.port != Some(port) || raw.None? || raw.value.kind == ACTION_EXECUTE then b else
      var id := raw.value.requestId;
      if id !in b.pending || id !in b.outcomes then b else
        Settle(b, id, Verdict(port, b.pending[id].expected, raw.value))
  }

  function HandleDisconnect(b: State, port: Port): State {
    if b.port != Some(port) then b else ScheduleReconnect(CloseCurrentPort(b, Disconnected))
  }

  /** A request's timer goes off: it is no longer set. */
  function RequestTimeout(b: State, timer: Timer, id: Uuid): State {
    var fired := b.(timers := b.timers - {timer});
    if id !in b.pending || id !in b.outcomes then fired else
      fired.(pending := b.pending - {id}, outcomes := b.outcomes[id := b.outcomes[id] + [Rejected(TimedOut)]])
  }

  // The event loop. Each event is one uninterrupted turn of the program.

  /** A call of ensureConnected, and what its caller does with the port: nothing more, or a request. */
  datatype Call =
    | Awaiting(attempt: nat, mine: bool, request: Option<Kind>)
    | HasPort(port: Port, request: Option<Kind>)
    | Returned

  /** One run of establish. */
  datatype Attempt =
    | AwaitingHello(port: Port)                  // createHello is running
    | Greeting(port: Port, hello: Uuid)          // the hello was accepted by requestOnPort
    | Refused(port: Port)                        // the hello was rejected at once, the rejection not yet seen
    | Ended(ok: bool)

  datatype Sys = Sys(
    b: State,
    calls: map<nat, Call>,
    attempts: seq<Attempt>,
    open: set<Port>,                             // ports created and neither closed nor lost
    nextPort: Port,
    hello: map<Port, Uuid>,                      // the hello request of each port that has sent one
    ids: set<Uuid>,
    asked: map<Uuid, Kind>,                      // the accepted requests
    heard: set<(Port, Message)>)

  const START := Sys(NEW, map[], [], {}, 0, map[], {}, map[], {})

  datatype Event =
    | StartCall(pid: nat, portFails: bool)
    | ReconnectCall(pid: nat, portFails: bool)
    | StopCall
    | RequestCall(pid: nat, expected: Kind, portFails: bool)
    | Resume(pid: nat)                           // the awaited attempt has ended
    | Submit(pid: nat, id: Uuid, posting: Posting)
    | GiveUp(pid: nat)                           // the payload factory throws
    | HelloMade(attempt: nat, id: Uuid, posting: Posting)
    | HelloThrows(attempt: nat)
    | HelloSeen(attempt: nat)                    // establish goes on after its hello was settled
    | Receive(port: Port, raw: Option<Message>)
    | Lost(port: Port)
    | Alarmed(timer: Timer, pid: nat, portFails: bool)

  predicate Fresh(s: Sys, pid: nat) { pid !in s.calls }

  /** ensureConnected up to its first await, with the synchronous part of establish. */
  function EnsureConnected(s: Sys, pid: nat, request: Option<Kind>, portFails: bool): Sys {
    if s.b.port.Some? && s.b.ready then s.(calls := s.calls[pid := HasPort(s.b.port.value, request)])
    else if s.b.connecting.Some? then s.(calls := s.calls[pid := Awaiting(s.b.connecting.value, false, request)])
    else
      var attempt := |s.attempts|;
      var waiting := s.(calls := s.calls[pid := Awaiting(attempt, true, request)]);
      if portFails then
        waiting.(b := ScheduleReconnect(s.b).(connecting := Some(attempt)), attempts := s.attempts + [Ended(false)])
      else
        waiting.(b := s.b.(port := Some(s.nextPort), connecting := Some(attempt)),
                 attempts := s.attempts + [AwaitingHello(s.nextPort)],
                 open := s.open + {s.nextPort}, nextPort := s.nextPort + 1)
  }

  function Close(s: Sys, b: State): Sys { s.(b := b, open := if b.port.None? then {} else s.open) }

  function WithRequest(s: Sys, max: nat, id: Uuid, expected: Kind, posting: Posting): Sys {
    s.(b := RequestOnPort(s.b, max, id, expected, posting), ids := s.ids + {id},
       asked := if Accepts(s.b, max, posting) then s.asked[id := expected] else s.asked)
  }

  /** The catch block of establish. */
  function AttemptFails(s: Sys, attempt: nat, port: Port): Sys
    requires attempt < |s.attempts|
  {
    var ended := s.(attempts := s.attempts[attempt := Ended(false)]);
    if s.b.port != Some(port) then ended else
      Close(ended, ScheduleReconnect(CloseCurrentPort(s.b, HelloFailed)))
  }

  /** The hello was handed to the port. */
  function Greet(s: Sys, attempt: nat, id: Uuid): Sys
    requires attempt < |s.attempts| && s.attempts[attempt].AwaitingHello?
  {
    var port := s.attempts[attempt].port;
    s.(attempts := s.attempts[attempt := Greeting(port, id)], hello := s.hello[port := id])
  }

  function AttemptGoesOn(s: Sys, attempt: nat, port: Port, outcome: Outcome): Sys
    requires attempt < |s.attempts|
  {
    if outcome.Rejected? || s.b.port != Some(port) then AttemptFails(s, attempt, port)
    else s.(b := s.b.(ready := true, reconnectDelay := FIRST_DELAY), attempts := s.attempts[attempt := Ended(true)])
  }

  /** An awaiting call goes on. Its own attempt is no longer the one being made. */
  function Resumed(s: Sys, pid: nat, call: Call): Sys
    requires call.Awaiting? && call.attempt < |s.attempts| && s.attempts[call.attempt].Ended?
  {
    var b := if call.mine && s.b.connecting == Some(call.attempt) then s.b.(connecting := None) else s.b;
    var next :=
      if s.attempts[call.attempt].ok && b.port.Some? && b.ready then HasPort(b.port.value, call.request) else Returned;
    s.(b := b, calls := s.calls[pid := next])
  }

  /** A timer goes off. */
  function Ring(s: Sys, timer: Timer, pid: nat, portFails: bool): Sys
    requires timer in s.b.timers
  {
    match s.b.timers[timer]
    case RequestAlarm(id) => s.(b := RequestTimeout(s.b, timer, id))
    case ReconnectAlarm =>
      var fired := s.(b := s.b.(timers := s.b.timers - {timer}, reconnectTimer := None));
      if !s.b.desired || s.b.port.Some? || s.b.connecting.Some? then fired
      else EnsureConnected(fired, pid, None, portFails)
  }

  /** Request ids are UUIDs that were never used before; an event that is not possible changes nothing. */
  function Step(s: Sys, max: nat, ev: Event): Sys {
    match ev
    case StartCall(pid, portFails) =>
      if !Fresh(s, pid) then s else EnsureConnected(s.(b := s.b.(desired := true)), pid, None, portFails)
    case ReconnectCall(pid, portFails) =>
      if !Fresh(s, pid) then s else
        EnsureConnected(Close(s, CloseCurrentPort(CancelReconnect(s.b.(desired := true)), Replaced)), pid, None,
                        portFails)
    case StopCall => Close(s, Stop(s.b))
    case RequestCall(pid, expected, portFails) =>
      if !Fresh(s, pid) then s else EnsureConnected(s, pid, Some(expected), portFails)
    case Resume(pid) =>
      if pid !in s.calls || !s.calls[pid].Awaiting? then s else
        var a := s.calls[pid].attempt;
        if a >= |s.attempts| || !s.attempts[a].Ended? then s else Resumed(s, pid, s.calls[pid])
    case Submit(pid, id, posting) =>
      if pid !in s.calls || !s.calls[pid].HasPort? || s.calls[pid].request.None? || id in s.ids then s else
        WithRequest(s, max, id, s.calls[pid].request.value, posting).(calls := s.calls[pid := Returned])
    case GiveUp(pid) => if pid !in s.calls || !s.calls[pid].HasPort? then s else s.(calls := s.calls[pid := Returned])
    case HelloMade(a, id, posting) =>
      if a >= |s.attempts| || !s.attempts[a].AwaitingHello? || id in s.ids then s else
        var port := s.attempts[a].port;
        var t := WithRequest(s, max, id, HELLO_ACK, posting);
        if posting == TooLarge then AttemptFails(t, a, port)
        else if !Accepts(s.b, max, posting) then t.(attempts := s.attempts[a := Refused(port)])
        else Greet(t, a, id)
    case HelloThrows(a) =>
      if a >= |s.attempts| || !s.attempts[a].AwaitingHello? then s else AttemptFails(s, a, s.attempts[a].port)
    case HelloSeen(a) =>
      if a >= |s.attempts| then s else (
        match s.attempts[a]
        case Refused(port) => AttemptFails(s, a, port)
        case Greeting(port, id) =>
          if id !in s.b.outcomes || s.b.outcomes[id] == [] then s else AttemptGoesOn(s, a, port, s.b.outcomes[id][0])
        case _ => s)
    case Receive(port, raw) =>
      s.(b := HandleMessage(s.b, port, raw), heard := if raw.Some? then s.heard + {(port, raw.value)} else s.heard)
    case Lost(port) => Close(s, HandleDisconnect(s.b, port))
    case Alarmed(timer, pid, portFails) =>
      if timer !in s.b.timers || !Fresh(s, pid) then s else Ring(s, timer, pid, portFails)
  }

  function Run(s: Sys, max: nat, evs: seq<Event>): Sys {
    if evs == [] then s else Step(Run(s, max, evs[..|evs| - 1]), max, evs[|evs| - 1])
  }

  // The invariant of the object, in parts.

  predicate SettledOnce(b: State) {
    && HasPromises(b)
    && forall id <- b.outcomes :: |b.outcomes[id]| == if id in b.pending then 0 else 1
  }

  predicate HasPromises(b: State) { b.pending.Keys <= b.outcomes.Keys }

  predicate TimersOk(b: State) {
    && (forall id <- b.pending :: b.pending[id].timer in b.timers && b.timers[b.pending[id].timer] == RequestAlarm(id))
    && (forall t <- b.timers :: t < b.nextTimer)
    && (forall t <- b.timers :: match b.timers[t]
          case RequestAlarm(id) => id in b.pending && b.pending[id].timer == t
          case ReconnectAlarm => b.reconnectTimer == Some(t))
    && (b.reconnectTimer.Some? ==>
        b.reconnectTimer.value in b.timers && b.timers[b.reconnectTimer.value] == ReconnectAlarm)
  }

  predicate StateOk(b: State, max: nat) {
    && SettledOnce(b) && TimersOk(b) && |b.pending| <= max
    && (b.ready ==> b.port.Some?)
    && FIRST_DELAY <= b.reconnectDelay <= LAST_DELAY
  }

  lemma SettleKeeps(b: State, max: nat, id: Uuid, outcome: Outcome)
    requires StateOk(b, max) && id in b.pending
    ensures StateOk(Settle(b, id, outcome), max)
  {
    assert (b.pending - {id}).Keys <= b.pending.Keys;
    Smaller(b.pending - {id}, b.pending);
  }

  lemma Smaller<K, V>(a: map<K, V>, b: map<K, V>)
    requires a.Keys <= b.Keys
    ensures |a| <= |b|
  {
    assert |a.Keys| <= |b.Keys| by { SmallerSet(a.Keys, b.Keys); }
  }

  lemma SmallerSet<K>(a: set<K>, b: set<K>)
    requires a <= b
    ensures |a| <= |b|
  {
    assert b == a + (b - a);
  }

  /** This is where request ids must be fresh: a reused id leaves a timer set that would settle the wrong request. */
  lemma EnterKeepsTimersIff(b: State, id: Uuid, expected: Kind)
    requires TimersOk(b)
    ensures TimersOk(Enter(b, id, expected)) <==> id !in b.pending
  {
    if id in b.pending {
      var left := b.pending[id].timer;
      assert Enter(b, id, expected).timers[left] == RequestAlarm(id);
    }
  }

  lemma EnterKeeps(b: State, max: nat, id: Uuid, expected: Kind)
    requires StateOk(b, max) && id !in b.outcomes && |b.pending| < max
    ensures StateOk(Enter(b, id, expected), max)
  {
    assert id !in b.pending;
    EnterKeepsTimersIff(b, id, expected);
  }

  lemma RequestKeeps(b: State, max: nat, id: Uuid, expected: Kind, posting: Posting)
    requires StateOk(b, max) && id !in b.outcomes
    ensures StateOk(RequestOnPort(b, max, id, expected, posting), max)
  {
    if Accepts(b, max, posting) {
      EnterKeeps(b, max, id, expected);
      SettleKeeps(Enter(b, id, expected), max, id, Rejected(WriteFailed));
    }
  }

  lemma CloseKeeps(b: State, max: nat, reason: Reason)
    requires StateOk(b, max)
    ensures StateOk(CloseCurrentPort(b, reason), max)
  {}

  lemma ScheduleKeeps(b: State, max: nat)
    requires StateOk(b, max)
    ensures StateOk(ScheduleReconnect(b), max)
  {}

  lemma CancelKeeps(b: State, max: nat)
    requires StateOk(b, max)
    ensures StateOk(CancelReconnect(b), max)
  {}

  // What the synchronous methods mean for whoever calls them, on a consistent state.

  /** The reconnect timer field is the one reconnect alarm that is set. */
  predicate ReconnectAlarmIs(b: State, timer: Option<Timer>) {
    && (timer.Some? ==> timer.value in b.timers && b.timers[timer.value] == ReconnectAlarm)
    && forall t <- b.timers :: b.timers[t].ReconnectAlarm? ==> timer == Some(t)
  }

  predicate KeepsAlarms(b: State, after: State) {
    forall t <- b.timers :: b.timers[t].RequestAlarm? ==> t in after.timers && after.timers[t] == b.timers[t]
  }

  /** Nothing is pending any more: what was has now been rejected, once and for this reason, and no other promise is
      touched. */
  predicate Emptied(b: State, after: State, reason: Reason) {
    && after.pending == map[] && after.outcomes.Keys == b.outcomes.Keys
    && (forall id <- b.pending :: id in after.outcomes && after.outcomes[id] == [Rejected(reason)])
    && forall id <- b.outcomes :: id !in b.pending ==> after.outcomes[id] == b.outcomes[id]
  }

  /** No reconnect is scheduled any more, and every request timer still is. */
  lemma CancelMeans(b: State, max: nat)
    requires StateOk(b, max)
    ensures var d := CancelReconnect(b);
      && StateOk(d, max) && ReconnectAlarmIs(d, None) && KeepsAlarms(b, d)
      && d.pending == b.pending && d.outcomes == b.outcomes
  {}

  /** A reconnect is scheduled exactly if one was or it is desired; there is one alarm for it, and a newly scheduled one
      doubles the next delay, up to 30 seconds. */
  lemma ScheduleMeans(b: State, max: nat)
    requires StateOk(b, max)
    ensures var d := ScheduleReconnect(b);
      && StateOk(d, max) && ReconnectAlarmIs(d, d.reconnectTimer) && KeepsAlarms(b, d)
      && (d.reconnectTimer.Some? <==> b.desired || b.reconnectTimer.Some?)
      && (b.reconnectTimer.Some? ==> d.reconnectTimer == b.reconnectTimer)
      && d.pending == b.pending && d.outcomes == b.outcomes
      && d.reconnectDelay ==
        if !b.desired || b.reconnectTimer.Some? then b.reconnectDelay
        else if b.reconnectDelay <= 15_000 then 2 * b.reconnectDelay else 30_000
  {}

  /** After stop no timer of any kind is set, nothing is pending, and what was pending has been rejected. */
  lemma StopMeans(b: State, max: nat)
    requires StateOk(b, max)
    ensures var d := Stop(b);
      StateOk(d, max) && d.timers == map[] && Emptied(b, d, Stopped) && d.port.None? && !d.ready && !d.desired
  {
    var quiet := CancelReconnect(b.(desired := false));
    CancelMeans(b.(desired := false), max);
    ClosingMeans(quiet, max, Stopped);
  }

  /** A port that is lost takes every request and every request timer with it. */
  lemma ClosingMeans(b: State, max: nat, reason: Reason)
    requires StateOk(b, max)
    ensures var d := CloseCurrentPort(b, reason);
      && StateOk(d, max) && Emptied(b, d, reason) && d.port.None? && !d.ready
      && d.reconnectTimer == b.reconnectTimer && d.desired == b.desired
      && forall t <- d.timers :: d.timers[t] == ReconnectAlarm && d.reconnectTimer == Some(t)
  {
    CloseKeeps(b, max, reason);
    ClosingEmpties(b, reason);
  }

  /** A new request is taken in exactly below the maximum and if it is not too large. It is then pending under its
      timer; if the port throws, it is rejected at once and neither is left. Otherwise it changes nothing. */
  lemma RequestMeans(b: State, max: nat, id: Uuid, expected: Kind, posting: Posting)
    requires StateOk(b, max) && id !in b.outcomes
    ensures var d := RequestOnPort(b, max, id, expected, posting);
      && StateOk(d, max)
      && (posting == TooLarge || |b.pending| >= max ==> d == b)
      && (posting == Posted && |b.pending| < max ==>
            && id in d.pending && d.pending == b.pending[id := d.pending[id]] && d.pending[id].expected == expected
            && d.pending[id].timer !in b.timers
            && d.timers == b.timers[d.pending[id].timer := RequestAlarm(id)] && d.outcomes == b.outcomes[id := []])
      && (posting == PostThrows && |b.pending| < max ==>
            && d.pending == b.pending && d.timers == b.timers
            && d.outcomes == b.outcomes[id := [Rejected(WriteFailed)]])
  {
    RequestKeeps(b, max, id, expected, posting);
    assert b.nextTimer !in b.timers;
    if Accepts(b, max, posting) && posting == PostThrows { FailedWriteMeans(b, id, expected); }
  }

  lemma FailedWriteMeans(b: State, id: Uuid, expected: Kind)
    requires id !in b.pending && id !in b.outcomes && b.nextTimer !in b.timers
    ensures var d := Settle(Enter(b, id, expected), id, Rejected(WriteFailed));
      d.pending == b.pending && d.timers == b.timers && d.outcomes == b.outcomes[id := [Rejected(WriteFailed)]]
  {
    assert b.pending[id := PendingRequest(expected, b.nextTimer)] - {id} == b.pending;
    assert b.timers[b.nextTimer := RequestAlarm(id)] - {b.nextTimer} == b.timers;
    assert [] + [Rejected(WriteFailed)] == [Rejected(WriteFailed)];
  }

  lemma MessageKeeps(b: State, max: nat, port: Port, raw: Option<Message>)
    requires StateOk(b, max)
    ensures StateOk(HandleMessage(b, port, raw), max)
  {
    if HandleMessage(b, port, raw) != b {
      var id := raw.value.requestId;
      SettleKeeps(b, max, id, Verdict(port, b.pending[id].expected, raw.value));
    }
  }

  /** A request's alarm ends that request with the timeout and changes nothing else. */
  lemma TimeoutMeans(b: State, max: nat, timer: Timer, id: Uuid)
    requires StateOk(b, max) && timer in b.timers && b.timers[timer] == RequestAlarm(id)
    ensures var d := RequestTimeout(b, timer, id);
      && StateOk(d, max) && id in b.pending && d.pending == b.pending - {id} && d.timers == b.timers - {timer}
      && d.outcomes == b.outcomes[id := [Rejected(TimedOut)]]
  {
    TimeoutKeeps(b, max, timer, id);
    assert b.outcomes[id] == [];
    assert b.outcomes[id] + [Rejected(TimedOut)] == [Rejected(TimedOut)];
  }

  /** Losing the current port rejects everything and schedules a reconnect if one is desired; losing any other port is
      not noticed. */
  lemma DisconnectMeans(b: State, max: nat, port: Port)
    requires StateOk(b, max)
    ensures var d := HandleDisconnect(b, port);
      && StateOk(d, max)
      && (b.port != Some(port) ==> d == b)
      && (b.port == Some(port) ==>
            && Emptied(b, d, Disconnected) && d.port.None? && !d.ready && ReconnectAlarmIs(d, d.reconnectTimer)
            && (d.reconnectTimer.Some? <==> b.desired || b.reconnectTimer.Some?)
            && forall t <- d.timers :: d.timers[t].ReconnectAlarm?)
  {
    ClosingMeans(b, max, Disconnected);
    ScheduleMeans(CloseCurrentPort(b, Disconnected), max);
  }

  lemma TimeoutKeeps(b: State, max: nat, timer: Timer, id: Uuid)
    requires StateOk(b, max) && timer in b.timers && b.timers[timer] == RequestAlarm(id)
    ensures RequestTimeout(b, timer, id) == Settle(b, id, Rejected(TimedOut))
    ensures StateOk(RequestTimeout(b, timer, id), max)
  {
    SettleKeeps(b, max, id, Rejected(TimedOut));
  }

  // The invariant of the program around it.

  predicate InFlight(attempt: Attempt) { !attempt.Ended? }

  /** Only one connection is being made at a time, for the port that is current if any is, and only the current port
      is open. */
  predicate PortsOk(s: Sys) {
    && s.open == (if s.b.port.Some? then {s.b.port.value} else {})
    && (s.b.port.Some? ==> s.b.port.value < s.nextPort)
    && (s.b.connecting.Some? ==> s.b.connecting.value < |s.attempts|)
    && (forall a :: 0 <= a < |s.attempts| && InFlight(s.attempts[a]) ==>
          && s.b.connecting == Some(a) && !s.b.ready
          && s.attempts[a].port < s.nextPort && (s.b.port.Some? ==> s.b.port.value == s.attempts[a].port))
    && (s.b.port.Some? && !s.b.ready ==> s.b.connecting.Some? && InFlight(s.attempts[s.b.connecting.value]))
  }

  predicate RequestsOk(s: Sys) {
    && s.b.outcomes.Keys == s.asked.Keys && s.asked.Keys <= s.ids
    && (forall id <- s.b.pending :: id in s.asked && s.b.pending[id].expected == s.asked[id])
    && (forall id <- s.b.outcomes :: forall o <- s.b.outcomes[id] :: o.Resolved? ==>
          (o.port, o.message) in s.heard && o.message.requestId == id && o.message.kind == s.asked[id])
  }

  /** What the hello of a port was answered with came in on that port. */
  predicate HelloOk(s: Sys, port: Port) {
    && port in s.hello && s.hello[port] in s.b.outcomes
    && s.hello[port] in s.asked && s.asked[s.hello[port]] == HELLO_ACK
    && forall o <- s.b.outcomes[s.hello[port]] :: o.Resolved? ==> o.port == port
  }

  predicate Greeted(s: Sys, port: Port) {
    && HelloOk(s, port) && |s.b.outcomes[s.hello[port]]| == 1 && s.b.outcomes[s.hello[port]][0].Resolved?
  }

  predicate HellosOk(s: Sys) {
    && (forall a :: 0 <= a < |s.attempts| && s.attempts[a].Greeting? ==>
          HelloOk(s, s.attempts[a].port) && s.hello[s.attempts[a].port] == s.attempts[a].hello)
    && (s.b.ready && s.b.port.Some? ==> Greeted(s, s.b.port.value))
  }

  predicate Inv(s: Sys, max: nat) { StateOk(s.b, max) && PortsOk(s) && RequestsOk(s) && HellosOk(s) }

  // What each part of the invariant looks at.

  predicate SamePromises(s: Sys, t: Sys) {
    t.b.outcomes == s.b.outcomes && t.b.pending == s.b.pending && t.asked == s.asked && s.ids <= t.ids
      && s.heard <= t.heard
  }

  predicate SameHellos(s: Sys, t: Sys) {
    && t.b.outcomes == s.b.outcomes && t.asked == s.asked && t.hello == s.hello
    && (forall a :: 0 <= a < |t.attempts| && t.attempts[a].Greeting? ==>
        a < |s.attempts| && s.attempts[a] == t.attempts[a])
    && (t.b.ready && t.b.port.Some? ==> s.b.ready && s.b.port == t.b.port)
  }

  lemma SameKeepsRequests(s: Sys, t: Sys)
    requires RequestsOk(s) && SamePromises(s, t)
    ensures RequestsOk(t)
  {}

  lemma SameKeepsHellos(s: Sys, t: Sys)
    requires HellosOk(s) && SameHellos(s, t)
    ensures HellosOk(t)
  {}

  lemma EnsureConnectedKeepsState(s: Sys, max: nat, pid: nat, request: Option<Kind>, portFails: bool)
    requires StateOk(s.b, max)
    ensures StateOk(EnsureConnected(s, pid, request, portFails).b, max)
  {
    ScheduleKeeps(s.b, max);
  }

  lemma EnsureConnectedKeepsPorts(s: Sys, pid: nat, request: Option<Kind>, portFails: bool)
    requires PortsOk(s) && (s.b.ready ==> s.b.port.Some?)
    ensures PortsOk(EnsureConnected(s, pid, request, portFails))
  {}

  lemma EnsureConnectedKeepsPromises(s: Sys, pid: nat, request: Option<Kind>, portFails: bool)
    requires s.b.ready ==> s.b.port.Some?
    ensures SamePromises(s, EnsureConnected(s, pid, request, portFails))
    ensures SameHellos(s, EnsureConnected(s, pid, request, portFails))
  {}

  lemma EnsureConnectedKeeps(s: Sys, max: nat, pid: nat, request: Option<Kind>, portFails: bool)
    requires Inv(s, max)
    ensures Inv(EnsureConnected(s, pid, request, portFails), max)
  {
    EnsureConnectedKeepsState(s, max, pid, request, portFails);
    EnsureConnectedKeepsPorts(s, pid, request, portFails);
    EnsureConnectedKeepsPromises(s, pid, request, portFails);
    SameKeepsRequests(s, EnsureConnected(s, pid, request, portFails));
    SameKeepsHellos(s, EnsureConnected(s, pid, request, portFails));
  }

  // Settling.

  /** A resolution is the message that was asked for. */
  predicate Answers(s: Sys, id: Uuid, outcome: Outcome) {
    outcome.Resolved? ==>
      && (outcome.port, outcome.message) in s.heard && outcome.message.requestId == id
      && id in s.asked && outcome.message.kind == s.asked[id] && s.b.port == Some(outcome.port)
  }

  lemma SettleKeepsRequests(s: Sys, id: Uuid, outcome: Outcome)
    requires RequestsOk(s) && id in s.b.pending && id in s.b.outcomes && Answers(s, id, outcome)
    ensures RequestsOk(s.(b := Settle(s.b, id, outcome)))
  {}

  lemma SettleKeepsHellos(s: Sys, id: Uuid, outcome: Outcome)
    requires HellosOk(s) && PortsOk(s) && SettledOnce(s.b)
    requires id in s.b.pending && id in s.b.outcomes && Answers(s, id, outcome)
    ensures HellosOk(s.(b := Settle(s.b, id, outcome)))
  {}

  lemma RejectKeepsRequests(s: Sys, reason: Reason)
    requires RequestsOk(s)
    ensures RequestsOk(s.(b := CloseCurrentPort(s.b, reason)))
  {}

  lemma RejectKeepsHellos(s: Sys, reason: Reason)
    requires HellosOk(s)
    ensures HellosOk(s.(b := CloseCurrentPort(s.b, reason)))
  {}

  lemma CloseKeepsInv(s: Sys, max: nat, reason: Reason)
    requires Inv(s, max)
    ensures Inv(Close(s, CloseCurrentPort(s.b, reason)), max)
  {
    var u, t := s.(b := CloseCurrentPort(s.b, reason)), Close(s, CloseCurrentPort(s.b, reason));
    CloseKeeps(s.b, max, reason);
    RejectKeepsRequests(s, reason);
    RejectKeepsHellos(s, reason);
    SameKeepsRequests(u, t);
    SameKeepsHellos(u, t);
  }

  lemma WithRequestKeepsRequests(s: Sys, max: nat, id: Uuid, expected: Kind, posting: Posting)
    requires RequestsOk(s) && id !in s.ids
    ensures RequestsOk(WithRequest(s, max, id, expected, posting))
  {
    EnterKeepsRequests(s, id, expected);
    if posting == PostThrows { SettleKeepsRequests(Entered(s, id, expected), id, Rejected(WriteFailed)); }
  }

  function Entered(s: Sys, id: Uuid, expected: Kind): Sys {
    s.(b := Enter(s.b, id, expected), ids := s.ids + {id}, asked := s.asked[id := expected])
  }

  lemma EnterKeepsRequests(s: Sys, id: Uuid, expected: Kind)
    requires RequestsOk(s) && id !in s.ids
    ensures RequestsOk(Entered(s, id, expected))
  {}

  lemma WithRequestKeepsHellos(s: Sys, max: nat, id: Uuid, expected: Kind, posting: Posting)
    requires HellosOk(s) && id !in s.b.outcomes && id !in s.asked
    ensures HellosOk(WithRequest(s, max, id, expected, posting))
  {
    RequestOnlyAdds(s, max, id, expected, posting);
    AddedKeepsHellos(s, WithRequest(s, max, id, expected, posting));
  }

  /** Promises and requests are only added. */
  predicate OnlyAdds(s: Sys, t: Sys) {
    && t.hello == s.hello && t.attempts == s.attempts && t.b.ready == s.b.ready && t.b.port == s.b.port
    && (forall id <- s.b.outcomes :: id in t.b.outcomes && t.b.outcomes[id] == s.b.outcomes[id])
    && (forall id <- s.asked :: id in t.asked && t.asked[id] == s.asked[id])
  }

  lemma RequestOnlyAdds(s: Sys, max: nat, id: Uuid, expected: Kind, posting: Posting)
    requires id !in s.b.outcomes && id !in s.asked
    ensures OnlyAdds(s, WithRequest(s, max, id, expected, posting))
  {}

  lemma AddedKeepsHellos(s: Sys, t: Sys)
    requires HellosOk(s) && OnlyAdds(s, t)
    ensures HellosOk(t)
  {}

  lemma WithRequestKeepsPorts(s: Sys, max: nat, id: Uuid, expected: Kind, posting: Posting)
    requires PortsOk(s)
    ensures PortsOk(WithRequest(s, max, id, expected, posting))
  {}

  lemma WithRequestKeeps(s: Sys, max: nat, id: Uuid, expected: Kind, posting: Posting)
    requires Inv(s, max) && id !in s.ids
    ensures Inv(WithRequest(s, max, id, expected, posting), max)
  {
    RequestKeeps(s.b, max, id, expected, posting);
    WithRequestKeepsRequests(s, max, id, expected, posting);
    WithRequestKeepsHellos(s, max, id, expected, posting);
    WithRequestKeepsPorts(s, max, id, expected, posting);
  }

  /** Timers and counters that are of no concern to the rest. */
  lemma RetimedKeepsInv(s: Sys, max: nat, b: State)
    requires Inv(s, max) && StateOk(b, max)
    requires b == s.b.(desired := b.desired, reconnectDelay := b.reconnectDelay, reconnectTimer := b.reconnectTimer,
                       timers := b.timers, nextTimer := b.nextTimer)
    ensures Inv(s.(b := b), max)
  {
    SameKeepsRequests(s, s.(b := b));
    SameKeepsHellos(s, s.(b := b));
  }

  function EndAttempt(s: Sys, a: nat, ok: bool): Sys
    requires a < |s.attempts|
  {
    s.(attempts := s.attempts[a := Ended(ok)])
  }

  lemma EndAttemptKeeps(s: Sys, max: nat, a: nat, ok: bool)
    requires Inv(s, max) && a < |s.attempts| && s.b.port == None
    ensures Inv(EndAttempt(s, a, ok), max)
  {
    SameKeepsRequests(s, EndAttempt(s, a, ok));
    SameKeepsHellos(s, EndAttempt(s, a, ok));
  }

  lemma CloseAndRetryKeeps(s: Sys, max: nat, reason: Reason)
    requires Inv(s, max)
    ensures Inv(Close(s, ScheduleReconnect(CloseCurrentPort(s.b, reason))), max)
  {
    CloseKeepsInv(s, max, reason);
    var closed := Close(s, CloseCurrentPort(s.b, reason));
    ScheduleKeeps(closed.b, max);
    RetimedKeepsInv(closed, max, ScheduleReconnect(closed.b));
  }

  lemma AttemptFailsKeeps(s: Sys, max: nat, a: nat)
    requires Inv(s, max) && a < |s.attempts| && InFlight(s.attempts[a])
    ensures Inv(AttemptFails(s, a, s.attempts[a].port), max)
  {
    if s.b.port != Some(s.attempts[a].port) {
      EndAttemptKeeps(s, max, a, false);
    } else {
      CloseAndRetryKeeps(s, max, HelloFailed);
      EndAttemptKeeps(Close(s, ScheduleReconnect(CloseCurrentPort(s.b, HelloFailed))), max, a, false);
    }
  }

  lemma ReadyKeepsHellos(s: Sys, a: nat, port: Port)
    requires HellosOk(s) && a < |s.attempts| && s.attempts[a].Greeting? && s.attempts[a].port == port
      && s.b.port == Some(port)
    requires |s.b.outcomes[s.attempts[a].hello]| == 1 && s.b.outcomes[s.attempts[a].hello][0].Resolved?
    ensures HellosOk(EndAttempt(s, a, true).(b := s.b.(ready := true, reconnectDelay := FIRST_DELAY)))
  {}

  lemma ReadyKeeps(s: Sys, max: nat, a: nat)
    requires Inv(s, max) && a < |s.attempts| && s.attempts[a].Greeting? && s.b.port == Some(s.attempts[a].port)
    requires s.b.outcomes[s.attempts[a].hello] != [] && s.b.outcomes[s.attempts[a].hello][0].Resolved?
    ensures Inv(EndAttempt(s, a, true).(b := s.b.(ready := true, reconnectDelay := FIRST_DELAY)), max)
  {
    var t := EndAttempt(s, a, true).(b := s.b.(ready := true, reconnectDelay := FIRST_DELAY));
    ReadyKeepsHellos(s, a, s.attempts[a].port);
    SameKeepsRequests(s, t);
    assert TimersOk(t.b);
  }

  // Every event keeps the invariant.

  lemma GreetKeepsHellos(s: Sys, a: nat, id: Uuid)
    requires PortsOk(s) && HellosOk(s) && a < |s.attempts| && s.attempts[a].AwaitingHello?
    requires id in s.b.outcomes && id in s.asked && s.asked[id] == HELLO_ACK
      && forall o <- s.b.outcomes[id] :: !o.Resolved?
    ensures HellosOk(Greet(s, a, id))
  {}

  lemma GreetKeeps(s: Sys, max: nat, a: nat, id: Uuid)
    requires Inv(s, max) && a < |s.attempts| && s.attempts[a].AwaitingHello?
    requires id in s.b.outcomes && id in s.asked && s.asked[id] == HELLO_ACK
      && forall o <- s.b.outcomes[id] :: !o.Resolved?
    ensures Inv(Greet(s, a, id), max)
  {
    GreetKeepsHellos(s, a, id);
    SameKeepsRequests(s, Greet(s, a, id));
  }

  lemma RefuseKeeps(s: Sys, max: nat, a: nat)
    requires Inv(s, max) && a < |s.attempts| && s.attempts[a].AwaitingHello?
    ensures Inv(s.(attempts := s.attempts[a := Refused(s.attempts[a].port)]), max)
  {
    SameKeepsRequests(s, s.(attempts := s.attempts[a := Refused(s.attempts[a].port)]));
    SameKeepsHellos(s, s.(attempts := s.attempts[a := Refused(s.attempts[a].port)]));
  }

  lemma AcceptedRequest(s: Sys, max: nat, id: Uuid, expected: Kind, posting: Posting)
    requires Accepts(s.b, max, posting)
    ensures var t := WithRequest(s, max, id, expected, posting);
      && t.attempts == s.attempts && id in t.asked && t.asked[id] == expected
      && id in t.b.outcomes && forall o <- t.b.outcomes[id] :: !o.Resolved?
  {}

  lemma HandedOverKeeps(s: Sys, max: nat, a: nat, id: Uuid, posting: Posting)
    requires a < |s.attempts| && s.attempts[a].AwaitingHello? && Accepts(s.b, max, posting)
    requires Inv(WithRequest(s, max, id, HELLO_ACK, posting), max)
    ensures Inv(Greet(WithRequest(s, max, id, HELLO_ACK, posting), a, id), max)
  {
    AcceptedRequest(s, max, id, HELLO_ACK, posting);
    GreetKeeps(WithRequest(s, max, id, HELLO_ACK, posting), max, a, id);
  }

  lemma TooLargeKeeps(s: Sys, max: nat, a: nat, id: Uuid)
    requires a < |s.attempts| && s.attempts[a].AwaitingHello?
    requires Inv(WithRequest(s, max, id, HELLO_ACK, TooLarge), max)
    ensures Inv(AttemptFails(WithRequest(s, max, id, HELLO_ACK, TooLarge), a, s.attempts[a].port), max)
  {
    AttemptFailsKeeps(WithRequest(s, max, id, HELLO_ACK, TooLarge), max, a);
  }

  lemma HelloMadeKeeps(s: Sys, max: nat, a: nat, id: Uuid, posting: Posting)
    requires Inv(s, max) && a < |s.attempts| && s.attempts[a].AwaitingHello? && id !in s.ids
    ensures Inv(Step(s, max, HelloMade(a, id, posting)), max)
  {
    WithRequestKeeps(s, max, id, HELLO_ACK, posting);
    HelloAnyKeeps(s, max, a, id, posting);
  }

  lemma HelloAnyKeeps(s: Sys, max: nat, a: nat, id: Uuid, posting: Posting)
    requires a < |s.attempts| && s.attempts[a].AwaitingHello? && id !in s.ids
    requires Inv(WithRequest(s, max, id, HELLO_ACK, posting), max)
    ensures Inv(Step(s, max, HelloMade(a, id, posting)), max)
  {
    HelloMadeIs(s, max, a, id, posting);
    if posting == TooLarge {
      TooLargeKeeps(s, max, a, id);
    } else if Accepts(s.b, max, posting) {
      HandedOverKeeps(s, max, a, id, posting);
    } else {
      RefuseKeeps(WithRequest(s, max, id, HELLO_ACK, posting), max, a);
    }
  }

  lemma HelloMadeIs(s: Sys, max: nat, a: nat, id: Uuid, posting: Posting)
    requires a < |s.attempts| && s.attempts[a].AwaitingHello? && id !in s.ids
    ensures var t := WithRequest(s, max, id, HELLO_ACK, posting);
      && t.attempts == s.attempts
      && Step(s, max, HelloMade(a, id, posting)) ==
        if posting == TooLarge then AttemptFails(t, a, s.attempts[a].port)
        else if Accepts(s.b, max, posting) then Greet(t, a, id)
        else t.(attempts := s.attempts[a := Refused(s.attempts[a].port)])
  {}

  lemma SettleKeepsInv(s: Sys, max: nat, id: Uuid, outcome: Outcome)
    requires Inv(s, max) && id in s.b.pending && Answers(s, id, outcome)
    ensures Inv(s.(b := Settle(s.b, id, outcome)), max)
  {
    SettleKeeps(s.b, max, id, outcome);
    SettleKeepsRequests(s, id, outcome);
    SettleKeepsHellos(s, id, outcome);
  }

  lemma HeardKeeps(s: Sys, max: nat, port: Port, m: Message)
    requires Inv(s, max)
    ensures Inv(s.(heard := s.heard + {(port, m)}), max)
  {
    SameKeepsRequests(s, s.(heard := s.heard + {(port, m)}));
    SameKeepsHellos(s, s.(heard := s.heard + {(port, m)}));
  }

  lemma VerdictAnswers(s: Sys, port: Port, m: Message)
    requires RequestsOk(s) && m.requestId in s.b.pending && (port, m) in s.heard && s.b.port == Some(port)
    ensures Answers(s, m.requestId, Verdict(port, s.b.pending[m.requestId].expected, m))
  {}

  lemma ReceiveKeeps(s: Sys, max: nat, port: Port, raw: Option<Message>)
    requires Inv(s, max)
    ensures Inv(Step(s, max, Receive(port, raw)), max)
  {
    if raw.Some? {
      var u := s.(heard := s.heard + {(port, raw.value)});
      HeardKeeps(s, max, port, raw.value);
      if HandleMessage(s.b, port, raw) != s.b {
        VerdictAnswers(u, port, raw.value);
        SettleKeepsInv(u, max, raw.value.requestId,
                       Verdict(port, u.b.pending[raw.value.requestId].expected, raw.value));
      }
    }
  }

  lemma RingKeeps(s: Sys, max: nat, timer: Timer, pid: nat, portFails: bool)
    requires Inv(s, max) && timer in s.b.timers
    ensures Inv(Ring(s, timer, pid, portFails), max)
  {
    match s.b.timers[timer]
    case RequestAlarm(id) =>
      TimeoutKeeps(s.b, max, timer, id);
      SettleKeepsRequests(s, id, Rejected(TimedOut));
      SettleKeepsHellos(s, id, Rejected(TimedOut));
    case ReconnectAlarm =>
      var b := s.b.(timers := s.b.timers - {timer}, reconnectTimer := None);
      CancelKeeps(s.b, max);
      assert b == CancelReconnect(s.b);
      RetimedKeepsInv(s, max, b);
      EnsureConnectedKeeps(s.(b := b), max, pid, None, portFails);
  }

  lemma CancelledIsOk(s: Sys, max: nat, desired: bool)
    requires Inv(s, max)
    ensures Inv(s.(b := CancelReconnect(s.b.(desired := desired))), max)
  {
    CancelKeeps(s.b.(desired := desired), max);
    RetimedKeepsInv(s, max, CancelReconnect(s.b.(desired := desired)));
  }

  lemma CancelAndCloseKeeps(s: Sys, max: nat, desired: bool, reason: Reason)
    requires Inv(s, max)
    ensures Inv(Close(s, CloseCurrentPort(CancelReconnect(s.b.(desired := desired)), reason)), max)
  {
    CancelledIsOk(s, max, desired);
    CloseKeepsInv(s.(b := CancelReconnect(s.b.(desired := desired))), max, reason);
  }

  lemma ReconnectKeeps(s: Sys, max: nat, pid: nat, portFails: bool)
    requires Inv(s, max)
    ensures Inv(Step(s, max, ReconnectCall(pid, portFails)), max)
  {
    CancelAndCloseKeeps(s, max, true, Replaced);
    EnsureConnectedKeeps(Close(s, CloseCurrentPort(CancelReconnect(s.b.(desired := true)), Replaced)), max, pid, None,
                         portFails);
  }

  lemma ResumeKeeps(s: Sys, max: nat, pid: nat, call: Call)
    requires Inv(s, max) && call.Awaiting? && call.attempt < |s.attempts| && s.attempts[call.attempt].Ended?
    ensures Inv(Resumed(s, pid, call), max)
  {
    SameKeepsRequests(s, Resumed(s, pid, call));
    SameKeepsHellos(s, Resumed(s, pid, call));
  }

  lemma CallsKeepInv(s: Sys, max: nat, calls: map<nat, Call>)
    requires Inv(s, max)
    ensures Inv(s.(calls := calls), max)
  {
    SameKeepsRequests(s, s.(calls := calls));
    SameKeepsHellos(s, s.(calls := calls));
  }

  lemma GoesOnKeeps(s: Sys, max: nat, a: nat)
    requires Inv(s, max) && a < |s.attempts| && s.attempts[a].Greeting?
    requires s.attempts[a].hello in s.b.outcomes && s.b.outcomes[s.attempts[a].hello] != []
    ensures Inv(AttemptGoesOn(s, a, s.attempts[a].port, s.b.outcomes[s.attempts[a].hello][0]), max)
  {
    if s.b.outcomes[s.attempts[a].hello][0].Rejected? || s.b.port != Some(s.attempts[a].port) {
      AttemptFailsKeeps(s, max, a);
    } else {
      ReadyKeeps(s, max, a);
    }
  }

  lemma HelloSeenKeeps(s: Sys, max: nat, a: nat)
    requires Inv(s, max)
    ensures Inv(Step(s, max, HelloSeen(a)), max)
  {
    if a < |s.attempts| {
      match s.attempts[a]
      case Refused(port) => AttemptFailsKeeps(s, max, a);
      case Greeting(port, id) =>
        if id in s.b.outcomes && s.b.outcomes[id] != [] { GoesOnKeeps(s, max, a); }
      case _ =>
    }
  }

  lemma OtherPortIsIgnored(s: Sys, max: nat, port: Port)
    requires PortsOk(s) && s.b.port != Some(port)
    ensures Step(s, max, Lost(port)) == s
  {}

  lemma CurrentPortIsLost(s: Sys, max: nat, port: Port)
    requires s.b.port == Some(port)
    ensures Step(s, max, Lost(port)) == Close(s, ScheduleReconnect(CloseCurrentPort(s.b, Disconnected)))
  {}

  lemma LostKeeps(s: Sys, max: nat, port: Port)
    requires Inv(s, max)
    ensures Inv(Step(s, max, Lost(port)), max)
  {
    if s.b.port == Some(port) {
      CurrentPortIsLost(s, max, port);
      CloseAndRetryKeeps(s, max, Disconnected);
    } else {
      OtherPortIsIgnored(s, max, port);
    }
  }

  lemma StartKeeps(s: Sys, max: nat, pid: nat, portFails: bool)
    requires Inv(s, max)
    ensures Inv(Step(s, max, StartCall(pid, portFails)), max)
  {
    RetimedKeepsInv(s, max, s.b.(desired := true));
    EnsureConnectedKeeps(s.(b := s.b.(desired := true)), max, pid, None, portFails);
  }

  lemma SubmitKeeps(s: Sys, max: nat, pid: nat, id: Uuid, posting: Posting)
    requires Inv(s, max)
    ensures Inv(Step(s, max, Submit(pid, id, posting)), max)
  {
    if Step(s, max, Submit(pid, id, posting)) != s {
      WithRequestKeeps(s, max, id, s.calls[pid].request.value, posting);
      CallsKeepInv(WithRequest(s, max, id, s.calls[pid].request.value, posting), max, s.calls[pid := Returned]);
    }
  }

  lemma HelloThrowsKeeps(s: Sys, max: nat, a: nat)
    requires Inv(s, max)
    ensures Inv(Step(s, max, HelloThrows(a)), max)
  {
    if Step(s, max, HelloThrows(a)) != s { AttemptFailsKeeps(s, max, a); }
  }

  lemma AlarmedKeeps(s: Sys, max: nat, timer: Timer, pid: nat, portFails: bool)
    requires Inv(s, max)
    ensures Inv(Step(s, max, Alarmed(timer, pid, portFails)), max)
  {
    AlarmedIsRing(s, max, timer, pid, portFails);
    if timer in s.b.timers { RingKeeps(s, max, timer, pid, portFails); }
  }

  lemma AlarmedIsRing(s: Sys, max: nat, timer: Timer, pid: nat, portFails: bool)
    ensures Step(s, max, Alarmed(timer, pid, portFails)) ==
      if timer !in s.b.timers || !Fresh(s, pid) then s else Ring(s, timer, pid, portFails)
  {}

  predicate FromRuntime(ev: Event) { ev.Receive? || ev.Lost? || ev.Alarmed? }

  lemma RuntimeKeepsInv(s: Sys, max: nat, ev: Event)
    requires Inv(s, max) && FromRuntime(ev)
    ensures Inv(Step(s, max, ev), max)
  {
    match ev
    case Receive(port, raw) => ReceiveKeeps(s, max, port, raw);
    case Lost(port) => LostKeeps(s, max, port);
    case Alarmed(timer, pid, portFails) => AlarmedKeeps(s, max, timer, pid, portFails);
  }

  predicate FromAttempt(ev: Event) { ev.HelloMade? || ev.HelloThrows? || ev.HelloSeen? }

  lemma AttemptsKeepInv(s: Sys, max: nat, ev: Event)
    requires Inv(s, max) && FromAttempt(ev)
    ensures Inv(Step(s, max, ev), max)
  {
    match ev
    case HelloMade(a, id, posting) => if Step(s, max, ev) != s { HelloMadeKeeps(s, max, a, id, posting); }
    case HelloThrows(a) => HelloThrowsKeeps(s, max, a);
    case HelloSeen(a) => HelloSeenKeeps(s, max, a);
  }

  lemma CallersKeepInv(s: Sys, max: nat, ev: Event)
    requires Inv(s, max) && !FromRuntime(ev) && !FromAttempt(ev)
    ensures Inv(Step(s, max, ev), max)
  {
    match ev
    case StartCall(pid, portFails) => StartKeeps(s, max, pid, portFails);
    case ReconnectCall(pid, portFails) => ReconnectKeeps(s, max, pid, portFails);
    case StopCall => StopKeeps(s, max);
    case RequestCall(pid, expected, portFails) => RequestCallKeeps(s, max, pid, expected, portFails);
    case Resume(pid) => ResumeStepKeeps(s, max, pid);
    case Submit(pid, id, posting) => SubmitKeeps(s, max, pid, id, posting);
    case GiveUp(pid) => GiveUpKeeps(s, max, pid);
  }

  lemma StopKeeps(s: Sys, max: nat)
    requires Inv(s, max)
    ensures Inv(Step(s, max, StopCall), max)
  {
    CancelAndCloseKeeps(s, max, false, Stopped);
  }

  lemma RequestCallKeeps(s: Sys, max: nat, pid: nat, expected: Kind, portFails: bool)
    requires Inv(s, max)
    ensures Inv(Step(s, max, RequestCall(pid, expected, portFails)), max)
  {
    RequestCallIs(s, max, pid, expected, portFails);
    EnsureConnectedKeeps(s, max, pid, Some(expected), portFails);
  }

  lemma RequestCallIs(s: Sys, max: nat, pid: nat, expected: Kind, portFails: bool)
    ensures Step(s, max, RequestCall(pid, expected, portFails))
      == if Fresh(s, pid) then EnsureConnected(s, pid, Some(expected), portFails) else s
  {}

  lemma ResumeStepKeeps(s: Sys, max: nat, pid: nat)
    requires Inv(s, max)
    ensures Inv(Step(s, max, Resume(pid)), max)
  {
    if Step(s, max, Resume(pid)) != s { ResumeKeeps(s, max, pid, s.calls[pid]); }
  }

  lemma GiveUpKeeps(s: Sys, max: nat, pid: nat)
    requires Inv(s, max)
    ensures Inv(Step(s, max, GiveUp(pid)), max)
  {
    CallsKeepInv(s, max, s.calls[pid := Returned]);
  }

  lemma StepKeepsInv(s: Sys, max: nat, ev: Event)
    requires Inv(s, max)
    ensures Inv(Step(s, max, ev), max)
  {
    if FromRuntime(ev) { RuntimeKeepsInv(s, max, ev); }
    else if FromAttempt(ev) { AttemptsKeepInv(s, max, ev); }
    else { CallersKeepInv(s, max, ev); }
  }

  lemma {:induction false} ReachableInv(max: nat, evs: seq<Event>)
    ensures Inv(Run(START, max, evs), max)
  {
    if evs != [] {
      ReachableInv(max, evs[..|evs| - 1]);
      StepKeepsInv(Run(START, max, evs[..|evs| - 1]), max, evs[|evs| - 1]);
    }
  }

  // A settled request stays settled.

  predicate Done(b: State, id: Uuid, outcome: seq<Outcome>) {
    id in b.outcomes && id !in b.pending && b.outcomes[id] == outcome
  }

  predicate Settled(s: Sys, id: Uuid, outcome: seq<Outcome>) { id in s.ids && Done(s.b, id, outcome) }

  lemma CloseStays(s: Sys, reason: Reason, id: Uuid, outcome: seq<Outcome>)
    requires Settled(s, id, outcome)
    ensures Settled(Close(s, CloseCurrentPort(s.b, reason)), id, outcome)
    ensures Settled(Close(s, ScheduleReconnect(CloseCurrentPort(s.b, reason))), id, outcome)
  {}

  lemma AttemptFailsStays(s: Sys, a: nat, port: Port, id: Uuid, outcome: seq<Outcome>)
    requires a < |s.attempts| && Settled(s, id, outcome)
    ensures Settled(AttemptFails(s, a, port), id, outcome)
  {}

  lemma EnsureConnectedStays(s: Sys, pid: nat, request: Option<Kind>, portFails: bool, id: Uuid, outcome: seq<Outcome>)
    requires Settled(s, id, outcome)
    ensures Settled(EnsureConnected(s, pid, request, portFails), id, outcome)
  {}

  lemma WithRequestStays(s: Sys, max: nat, r: Uuid, expected: Kind, posting: Posting, id: Uuid, outcome: seq<Outcome>)
    requires Settled(s, id, outcome) && r !in s.ids
    ensures Settled(WithRequest(s, max, r, expected, posting), id, outcome)
  {}

  lemma ReceiveStays(s: Sys, max: nat, port: Port, raw: Option<Message>, id: Uuid, outcome: seq<Outcome>)
    requires Settled(s, id, outcome)
    ensures Settled(Step(s, max, Receive(port, raw)), id, outcome)
  {}

  lemma RingStays(s: Sys, timer: Timer, pid: nat, portFails: bool, id: Uuid, outcome: seq<Outcome>)
    requires Settled(s, id, outcome) && timer in s.b.timers
    ensures Settled(Ring(s, timer, pid, portFails), id, outcome)
  {
    if s.b.timers[timer].ReconnectAlarm? {
      var fired := s.(b := s.b.(timers := s.b.timers - {timer}, reconnectTimer := None));
      EnsureConnectedStays(fired, pid, None, portFails, id, outcome);
    }
  }

  lemma ReconnectStays(s: Sys, max: nat, pid: nat, portFails: bool, id: Uuid, outcome: seq<Outcome>)
    requires Settled(s, id, outcome)
    ensures Settled(Step(s, max, ReconnectCall(pid, portFails)), id, outcome)
  {
    var b := CancelReconnect(s.b.(desired := true));
    CloseStays(s.(b := b), Replaced, id, outcome);
    EnsureConnectedStays(Close(s, CloseCurrentPort(b, Replaced)), pid, None, portFails, id, outcome);
  }

  lemma HelloSeenStays(s: Sys, max: nat, a: nat, id: Uuid, outcome: seq<Outcome>)
    requires Settled(s, id, outcome)
    ensures Settled(Step(s, max, HelloSeen(a)), id, outcome)
  {
    if a < |s.attempts| && InFlight(s.attempts[a]) { AttemptFailsStays(s, a, s.attempts[a].port, id, outcome); }
  }

  lemma HelloMadeStays(s: Sys, max: nat, a: nat, r: Uuid, posting: Posting, id: Uuid, outcome: seq<Outcome>)
    requires Settled(s, id, outcome)
    ensures Settled(Step(s, max, HelloMade(a, r, posting)), id, outcome)
  {
    if a < |s.attempts| && s.attempts[a].AwaitingHello? && r !in s.ids {
      WithRequestStays(s, max, r, HELLO_ACK, posting, id, outcome);
      AttemptFailsStays(WithRequest(s, max, r, HELLO_ACK, posting), a, s.attempts[a].port, id, outcome);
    }
  }

  lemma SettledStays(s: Sys, max: nat, ev: Event, id: Uuid, outcome: seq<Outcome>)
    requires Settled(s, id, outcome)
    ensures Settled(Step(s, max, ev), id, outcome)
  {
    match ev
    case StartCall(pid, portFails) =>
      EnsureConnectedStays(s.(b := s.b.(desired := true)), pid, None, portFails, id, outcome);
    case ReconnectCall(pid, portFails) => ReconnectStays(s, max, pid, portFails, id, outcome);
    case StopCall => CloseStays(s.(b := CancelReconnect(s.b.(desired := false))), Stopped, id, outcome);
    case RequestCall(pid, expected, portFails) => EnsureConnectedStays(s, pid, Some(expected), portFails, id, outcome);
    case Resume(pid) =>
    case Submit(pid, r, posting) =>
      if Step(s, max, ev) != s { WithRequestStays(s, max, r, s.calls[pid].request.value, posting, id, outcome); }
    case GiveUp(pid) =>
    case HelloMade(a, r, posting) => HelloMadeStays(s, max, a, r, posting, id, outcome);
    case HelloThrows(a) => if Step(s, max, ev) != s { AttemptFailsStays(s, a, s.attempts[a].port, id, outcome); }
    case HelloSeen(a) => HelloSeenStays(s, max, a, id, outcome);
    case Receive(port, raw) => ReceiveStays(s, max, port, raw, id, outcome);
    case Lost(port) => CloseStays(s, Disconnected, id, outcome);
    case Alarmed(timer, pid, portFails) => if timer in s.b.timers { RingStays(s, timer, pid, portFails, id, outcome); }
  }

  // Main results, for every run of the program.

  /** Every accepted request is pending and unsettled, or was settled exactly once; a timer is set for it exactly while
      it is pending; there are never more than max of them. */
  lemma SettledExactlyOnce(max: nat, evs: seq<Event>, id: Uuid)
    ensures var s := Run(START, max, evs);
      && (id in s.asked <==> id in s.b.outcomes)
      && (id in s.b.outcomes ==> |s.b.outcomes[id]| == if id in s.b.pending then 0 else 1)
      && (id in s.b.pending <==> exists t <- s.b.timers :: s.b.timers[t] == RequestAlarm(id))
      && |s.b.pending| <= max
  {
    ReachableInv(max, evs);
    var s := Run(START, max, evs);
    if id in s.b.pending { assert s.b.timers[s.b.pending[id].timer] == RequestAlarm(id); }
  }

  /** Once settled, a request's outcome never changes. */
  lemma {:induction false} OutcomeIsFinal(max: nat, before: seq<Event>, after: seq<Event>, id: Uuid)
    requires id in Run(START, max, before).b.outcomes && id !in Run(START, max, before).b.pending
    ensures Done(Run(Run(START, max, before), max, after).b, id, Run(START, max, before).b.outcomes[id])
  {
    ReachableInv(max, before);
    var s := Run(START, max, before);
    StaysThroughout(s, max, after, id, s.b.outcomes[id]);
  }

  lemma {:induction false} StaysThroughout(s: Sys, max: nat, evs: seq<Event>, id: Uuid, outcome: seq<Outcome>)
    requires Settled(s, id, outcome)
    ensures Settled(Run(s, max, evs), id, outcome)
  {
    if evs != [] {
      StaysThroughout(s, max, evs[..|evs| - 1], id, outcome);
      SettledStays(Run(s, max, evs[..|evs| - 1]), max, evs[|evs| - 1], id, outcome);
    }
  }

  /** When its timer goes off, a request that is still pending is settled by the timeout and by nothing else. */
  lemma TimerSettles(max: nat, evs: seq<Event>, id: Uuid, pid: nat, portFails: bool)
    requires id in Run(START, max, evs).b.pending && pid !in Run(START, max, evs).calls
    ensures var s := Run(START, max, evs);
      Done(Step(s, max, Alarmed(s.b.pending[id].timer, pid, portFails)).b, id, [Rejected(TimedOut)])
  {
    ReachableInv(max, evs);
    AlarmSettles(Run(START, max, evs), max, id, pid, portFails);
  }

  lemma AlarmSettles(s: Sys, max: nat, id: Uuid, pid: nat, portFails: bool)
    requires StateOk(s.b, max) && id in s.b.pending && Fresh(s, pid)
    ensures Done(Step(s, max, Alarmed(s.b.pending[id].timer, pid, portFails)).b, id, [Rejected(TimedOut)])
  {
    TimeoutKeeps(s.b, max, s.b.pending[id].timer, id);
  }

  lemma ClosingEmpties(b: State, reason: Reason)
    requires SettledOnce(b)
    ensures Emptied(b, CloseCurrentPort(b, reason), reason)
    ensures Emptied(b, ScheduleReconnect(CloseCurrentPort(b, reason)), reason)
  {
    var d := CloseCurrentPort(b, reason);
    forall id | id in b.pending ensures id in d.outcomes && d.outcomes[id] == [Rejected(reason)] {
      assert b.outcomes[id] == [];
    }
  }

  /** A connection is only opened when there is none. */
  lemma EnsureConnectedKeepsPort(s: Sys, pid: nat, request: Option<Kind>, portFails: bool)
    requires PortsOk(s) && s.b.port.Some?
    ensures EnsureConnected(s, pid, request, portFails).b.port == s.b.port
  {}

  lemma AttemptFailsEmpties(s: Sys, a: nat, port: Port)
    requires SettledOnce(s.b) && a < |s.attempts|
    ensures AttemptFails(s, a, port).b.port == s.b.port || Emptied(s.b, AttemptFails(s, a, port).b, HelloFailed)
  {
    ClosingEmpties(s.b, HelloFailed);
  }

  lemma ReconnectEmpties(s: Sys, max: nat, pid: nat, portFails: bool)
    requires SettledOnce(s.b) && Fresh(s, pid)
    ensures Emptied(s.b, Step(s, max, ReconnectCall(pid, portFails)).b, Replaced)
  {
    var b := CancelReconnect(s.b.(desired := true));
    ClosingEmpties(b, Replaced);
    EnsureConnectedKeepsPending(Close(s, CloseCurrentPort(b, Replaced)), pid, None, portFails);
  }

  lemma EnsureConnectedKeepsPending(s: Sys, pid: nat, request: Option<Kind>, portFails: bool)
    ensures var t := EnsureConnected(s, pid, request, portFails);
      t.b.pending == s.b.pending && t.b.outcomes == s.b.outcomes
  {}

  lemma HelloMadeEmpties(s: Sys, max: nat, a: nat, id: Uuid, posting: Posting)
    requires SettledOnce(s.b) && Step(s, max, HelloMade(a, id, posting)).b.port != s.b.port
    ensures Emptied(s.b, Step(s, max, HelloMade(a, id, posting)).b, HelloFailed)
  {
    AttemptFailsEmpties(WithRequest(s, max, id, HELLO_ACK, posting), a, s.attempts[a].port);
  }

  predicate MayClose(ev: Event) {
    ev.ReconnectCall? || ev.StopCall? || ev.HelloMade? || ev.HelloThrows? || ev.HelloSeen? || ev.Lost?
  }

  lemma OthersKeepPort(s: Sys, max: nat, ev: Event)
    requires PortsOk(s) && s.b.port.Some? && !MayClose(ev)
    ensures Step(s, max, ev).b.port == s.b.port
  {
    match ev
    case StartCall(pid, portFails) => EnsureConnectedKeepsPort(s.(b := s.b.(desired := true)), pid, None, portFails);
    case RequestCall(pid, expected, portFails) => EnsureConnectedKeepsPort(s, pid, Some(expected), portFails);
    case _ =>
  }

  lemma HelloSeenEmpties(s: Sys, max: nat, a: nat)
    requires SettledOnce(s.b) && Step(s, max, HelloSeen(a)).b.port != s.b.port
    ensures Emptied(s.b, Step(s, max, HelloSeen(a)).b, HelloFailed)
  {
    AttemptFailsEmpties(s, a, s.attempts[a].port);
  }

  function LossReason(ev: Event): Reason {
    if ev.StopCall? then Stopped else if ev.ReconnectCall? then Replaced else if ev.Lost? then Disconnected
    else HelloFailed
  }

  lemma CloserEmpties(s: Sys, max: nat, ev: Event)
    requires SettledOnce(s.b) && MayClose(ev) && s.b.port.Some? && Step(s, max, ev).b.port != s.b.port
    ensures Emptied(s.b, Step(s, max, ev).b, LossReason(ev))
  {
    match ev
    case ReconnectCall(pid, portFails) => ReconnectEmpties(s, max, pid, portFails);
    case StopCall => StopEmpties(s, max);
    case HelloMade(a, id, posting) => HelloMadeEmpties(s, max, a, id, posting);
    case HelloThrows(a) => HelloThrowsEmpties(s, max, a);
    case HelloSeen(a) => HelloSeenEmpties(s, max, a);
    case Lost(port) => if s.b.port == Some(port) { LostEmpties(s, max, port); }
  }

  lemma StopEmpties(s: Sys, max: nat)
    requires SettledOnce(s.b)
    ensures Emptied(s.b, Step(s, max, StopCall).b, Stopped)
  {
    ClosingEmpties(CancelReconnect(s.b.(desired := false)), Stopped);
  }

  lemma HelloThrowsEmpties(s: Sys, max: nat, a: nat)
    requires SettledOnce(s.b) && Step(s, max, HelloThrows(a)).b.port != s.b.port
    ensures Emptied(s.b, Step(s, max, HelloThrows(a)).b, HelloFailed)
  {
    AttemptFailsEmpties(s, a, s.attempts[a].port);
  }

  lemma LostEmpties(s: Sys, max: nat, port: Port)
    requires SettledOnce(s.b) && s.b.port == Some(port)
    ensures Emptied(s.b, Step(s, max, Lost(port)).b, Disconnected)
  {
    ClosingEmpties(s.b, Disconnected);
  }

  lemma LossEmpties(s: Sys, max: nat, ev: Event)
    requires SettledOnce(s.b) && PortsOk(s) && s.b.port.Some? && Step(s, max, ev).b.port != s.b.port
    ensures Emptied(s.b, Step(s, max, ev).b, LossReason(ev))
  {
    if MayClose(ev) { CloserEmpties(s, max, ev); } else { OthersKeepPort(s, max, ev); }
  }

  /** Right after the current port is lost or replaced nothing is pending: what was pending has been rejected. */
  lemma NothingPendingAfterLoss(max: nat, evs: seq<Event>, ev: Event)
    requires var s := Run(START, max, evs); s.b.port.Some? && Step(s, max, ev).b.port != s.b.port
    ensures var t := Step(Run(START, max, evs), max, ev);
      && Emptied(Run(START, max, evs).b, t.b,
                 if ev.StopCall? then Stopped else if ev.ReconnectCall? then Replaced
                 else if ev.Lost? then Disconnected else HelloFailed)
      && forall timer <- t.b.timers :: t.b.timers[timer] == ReconnectAlarm
  {
    ReachableInv(max, evs);
    StepKeepsInv(Run(START, max, evs), max, ev);
    LossEmpties(Run(START, max, evs), max, ev);
  }

  /** A message settles a pending request exactly if it comes on the current port, names it and is no action to
      execute: an error rejects it, another type than the expected one rejects it as a mismatch, and the expected type
      resolves it with the message. */
  lemma MessageSettlesItsRequest(max: nat, evs: seq<Event>, port: Port, m: Message, id: Uuid)
    requires id in Run(START, max, evs).b.pending
    ensures var s := Run(START, max, evs); var t := Step(s, max, Receive(port, Some(m)));
      && id in s.asked
      && id in t.b.outcomes
      && (id !in t.b.pending <==>
            s.b.port == Some(port) && m.requestId == id && m.kind != "browser.action.execute")
      && t.b.outcomes[id] ==
        (if id in t.b.pending then []
         else if m.kind == "integration.error" then [Rejected(HostRejected)]
         else if m.kind != s.asked[id] then [Rejected(TypeMismatch)]
         else [Resolved(port, m)])
      && forall other <- s.b.outcomes :: other != id && other != m.requestId ==>
        t.b.outcomes[other] == s.b.outcomes[other]
  {
    ReachableInv(max, evs);
    MessageEffect(Run(START, max, evs), max, port, m, id);
  }

  lemma MessageEffect(s: Sys, max: nat, port: Port, m: Message, id: Uuid)
    requires SettledOnce(s.b) && RequestsOk(s) && id in s.b.pending
    ensures var t := Step(s, max, Receive(port, Some(m)));
      && id in t.b.outcomes
      && (id !in t.b.pending <==>
            s.b.port == Some(port) && m.requestId == id && m.kind != "browser.action.execute")
      && t.b.outcomes[id] ==
        (if id in t.b.pending then []
         else if m.kind == "integration.error" then [Rejected(HostRejected)]
         else if m.kind != s.asked[id] then [Rejected(TypeMismatch)]
         else [Resolved(port, m)])
      && forall other <- s.b.outcomes :: other != id && other != m.requestId ==>
        t.b.outcomes[other] == s.b.outcomes[other]
  {
    assert s.b.outcomes[id] == [];
    var outcome := Verdict(port, s.b.pending[id].expected, m);
    assert s.b.outcomes[id] + [outcome] == [outcome];
  }

  /** A request is resolved only by a message with its own id and the type it expects. */
  lemma ResolvedByItsAnswer(max: nat, evs: seq<Event>, id: Uuid)
    requires var b := Run(START, max, evs).b; id in b.outcomes && |b.outcomes[id]| == 1 && b.outcomes[id][0].Resolved?
    ensures var s := Run(START, max, evs); var o := s.b.outcomes[id][0];
      && (o.port, o.message) in s.heard && o.message.requestId == id
      && id in s.asked && o.message.kind == s.asked[id]
  {
    ReachableInv(max, evs);
    assert Run(START, max, evs).b.outcomes[id][0] in Run(START, max, evs).b.outcomes[id];
  }

  /** A ready bridge has a port, the only open one, and that port itself answered its hello. */
  lemma ReadyPortWasGreeted(max: nat, evs: seq<Event>)
    requires Run(START, max, evs).b.ready
    ensures var s := Run(START, max, evs);
      && s.b.port.Some? && s.open == {s.b.port.value} && s.b.port.value in s.hello
      && var id := s.hello[s.b.port.value];
        exists m :: id in s.b.outcomes && s.b.outcomes[id] == [Resolved(s.b.port.value, m)] && m.kind == HELLO_ACK
          && (s.b.port.value, m) in s.heard
  {
    ReachableInv(max, evs);
    var s := Run(START, max, evs);
    var id := s.hello[s.b.port.value];
    var o := s.b.outcomes[id][0];
    assert o in s.b.outcomes[id] && s.b.outcomes[id] == [Resolved(s.b.port.value, o.message)];
  }

  /** Connections are made one at a time, and a port that is neither ready nor being greeted is never kept. */
  lemma OneAttemptAtATime(max: nat, evs: seq<Event>, a: nat, b: nat)
    requires var s := Run(START, max, evs);
      a < |s.attempts| && b < |s.attempts| && InFlight(s.attempts[a]) && InFlight(s.attempts[b])
    ensures a == b && |Run(START, max, evs).open| <= 1
  {
    ReachableInv(max, evs);
  }
}
