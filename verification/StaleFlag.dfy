/** The connected flag of the VS Code session (extensions/vscode/src/adapter-session.ts:197-199): when it is stale, and
    what follows from that for the order of hello and events on a transport. */
module StaleFlag {
  import opened Wrappers
  import opened Domain
  import opened Session

  // Is an event written only after the hello of its transport was acknowledged? The code sets `connected` without
  // looking whether the transport is still there (197-199).

  predicate Acknowledged(s: Sys, transport: Transport) {
    && transport in s.greeting && s.greeting[transport] in s.c.promises
    && s.c.promises[s.greeting[transport]] == [Acked]
  }

  /** `connected` is set although there is no transport. */
  predicate Stale(s: Sys) { s.c.connected && s.c.transport.None? }

  predicate CallGreeted(s: Sys, call: Call) { call.HasTransport? ==> Acknowledged(s, call.transport) }

  predicate GreetedOk(s: Sys) {
    && s.greeting.Values <= s.ids && (forall t <- s.greeting :: t < s.nextTransport)
    && (s.c.connected && s.c.transport.Some? ==> Acknowledged(s, s.c.transport.value))
    && (forall k :: 0 <= k < |s.emits| && s.emits[k].phase.Connecting? ==> CallGreeted(s, s.emits[k].phase.call))
  }

  predicate EventsGreeted(s: Sys) {
    forall i :: 0 <= i < |s.written| && s.written[i].EventFrame? ==> Acknowledged(s, s.written[i].on)
  }

  /** Acknowledgements are kept. */
  predicate KeepsAcks(s: Sys, t: Sys) {
    forall transport <- s.greeting :: Acknowledged(s, transport) ==> Acknowledged(t, transport)
  }

  lemma SettlingKeepsAcks(s: Sys, d: State)
    requires OnlySettles(s.c, d)
    ensures KeepsAcks(s, s.(c := d))
  {}

  lemma OpenKeepsAcks(s: Sys, making: Making)
    requires GreetedOk(s) && OwnersOk(s) && Possible(s, making)
    ensures KeepsAcks(s, Open(s, making))
  {}

  lemma WriteKeepsAcks(s: Sys, k: nat, id: Uuid, throws: bool)
    requires OwnersOk(s) && MayWrite(s, k, id)
    ensures KeepsAcks(s, WriteFrame(s, k, id, throws))
  {}

  lemma EnsureKeepsAcks(s: Sys, making: Making)
    requires GreetedOk(s) && OwnersOk(s) && Possible(s, making)
    ensures KeepsAcks(s, EnsureConnected(s, making))
  {
    if Opens(s.c) { OpenKeepsAcks(s, making); }
  }

  lemma RingKeepsAcks(s: Sys, timer: Timer, pid: nat, making: Making)
    requires Inv(s) && GreetedOk(s) && timer in s.c.timers && Possible(s, making)
    ensures KeepsAcks(s, Ring(s, timer, pid, making))
  {
    match s.c.timers[timer]
    case EventAlarm(id) =>
      EventTimeoutKeeps(s.c, timer, id);
      SettlingEventSettles(s.c, id, Rejected(TimedOut));
    case HelloAlarm(id) =>
      HelloTimeoutKeeps(s.c, timer, id);
      SettlingHelloSettles(s.c, Rejected(TimedOut));
    case ReconnectAlarm =>
      EnsureKeepsAcks(s.(c := s.c.(timers := s.c.timers - {timer}, reconnectTimer := None)), making);
  }

  lemma StopKeepsAcks(s: Sys)
    requires StateOk(s.c)
    ensures KeepsAcks(s, Step(s, StopCall))
  {
    StoppingSettles(s.c);
    SettlingKeepsAcks(s, Stop(s.c));
  }

  lemma CloseKeepsAcks(s: Sys, transport: Transport)
    requires StateOk(s.c)
    ensures KeepsAcks(s, s.(c := HandleClose(s.c, transport)))
  {
    ClosingSettles(s.c, Disconnected);
    SettlingKeepsAcks(s, ScheduleReconnect(CloseCurrent(s.c, Disconnected)));
  }

  lemma HelloSeenKeepsAcks(s: Sys, a: nat)
    requires StateOk(s.c) && HelloDue(s, a)
    ensures KeepsAcks(s, AttemptGoesOn(s, a))
  {
    ClosingSettles(s.c, HelloFailed);
    SettlingKeepsAcks(s, ScheduleReconnect(CloseCurrent(s.c, HelloFailed)));
  }

  lemma DataKeepsAcks(s: Sys, transport: Transport, frames: Option<seq<Frame>>)
    requires StateOk(s.c)
    ensures KeepsAcks(s, Step(s, Data(transport, frames)))
  {
    CloseKeepsAcks(s, transport);
    if frames.Some? {
      FramesSettle(s.c, transport, frames.value);
      SettlingKeepsAcks(s, HandleFrames(s.c, transport, frames.value));
    }
  }

  lemma StartKeepsAcks(s: Sys, pid: nat, making: Making)
    requires GreetedOk(s) && OwnersOk(s) && Possible(s, making)
    ensures KeepsAcks(s, Step(s, StartCall(pid, making)))
  {
    EnsureKeepsAcks(s.(c := s.c.(desired := true)), making);
  }

  lemma StepKeepsAcks(s: Sys, ev: Event)
    requires Inv(s) && GreetedOk(s)
    ensures KeepsAcks(s, Step(s, ev))
  {
    match ev
    case StartCall(pid, making) => if Possible(s, making) { StartKeepsAcks(s, pid, making); }
    case BeginEmit(k, making) => if Possible(s, making) { EnsureKeepsAcks(s, making); }
    case Write(k, id, throws) => if MayWrite(s, k, id) { WriteKeepsAcks(s, k, id, throws); }
    case Alarmed(timer, pid, making) =>
      if timer in s.c.timers && Possible(s, making) { RingKeepsAcks(s, timer, pid, making); }
    case _ => TurnsKeepAcks(s, ev);
  }

  lemma TurnsKeepAcks(s: Sys, ev: Event)
    requires StateOk(s.c) && !ev.StartCall? && !ev.BeginEmit? && !ev.Write? && !ev.Alarmed?
    ensures KeepsAcks(s, Step(s, ev))
  {
    match ev
    case StopCall => StopKeepsAcks(s);
    case Connect(a, throws) =>
      if a < |s.attempts| && s.attempts[a].Greeting? { CloseKeepsAcks(s, s.attempts[a].transport); }
    case HelloSeen(a) => if HelloDue(s, a) { HelloSeenKeepsAcks(s, a); }
    case Data(transport, frames) => DataKeepsAcks(s, transport, frames);
    case Closed(transport) => CloseKeepsAcks(s, transport);
    case _ =>
  }

  // New calls take the transport only when it is connected.

  /** Without a stale flag, a transport that is taken is acknowledged. */
  lemma TakenIsGreeted(s: Sys, call: Call)
    requires GreetedOk(s)
    ensures CallGreeted(s, CallFor(s))
    ensures Ready(s, call) ==> CallGreeted(s, Next(s, call))
  {}

  lemma OpenKeepsGreeted(s: Sys, making: Making)
    requires GreetedOk(s) && !s.c.connected && KeepsAcks(s, Open(s, making))
    ensures GreetedOk(Open(s, making))
  {}

  lemma EnsureKeepsGreeted(s: Sys, making: Making)
    requires Inv(s) && GreetedOk(s) && !Stale(s) && Possible(s, making)
    ensures GreetedOk(EnsureConnected(s, making))
  {
    EnsureKeepsAcks(s, making);
    if Opens(s.c) { OpenKeepsGreeted(s, making); }
  }

  lemma SettlingKeepsGreeted(s: Sys, d: State)
    requires GreetedOk(s) && OnlySettles(s.c, d)
    ensures GreetedOk(s.(c := d))
  {
    SettlingKeepsAcks(s, d);
  }

  lemma PhaseKeepsGreeted(s: Sys, k: nat, phase: Phase)
    requires GreetedOk(s) && k < |s.emits| && (phase.Connecting? ==> CallGreeted(s, phase.call))
    ensures GreetedOk(SetPhase(s, k, phase))
  {}

  lemma EnsureKeepsCalls(s: Sys, making: Making)
    requires GreetedOk(s) && KeepsAcks(s, EnsureConnected(s, making))
    ensures CallGreeted(EnsureConnected(s, making), CallFor(s))
  {}

  lemma StartKeepsGreeted(s: Sys, pid: nat, making: Making)
    requires Inv(s) && GreetedOk(s) && !Stale(s)
    ensures GreetedOk(Step(s, StartCall(pid, making)))
  {
    if pid !in s.calls && Possible(s, making) { WantedKeepsGreeted(s, making); }
  }

  lemma WantedKeepsGreeted(s: Sys, making: Making)
    requires Inv(s) && GreetedOk(s) && !Stale(s) && Possible(s, making)
    ensures GreetedOk(EnsureConnected(s.(c := s.c.(desired := true)), making))
  {
    SettlingKeepsInv(s, s.c.(desired := true));
    SettlingKeepsGreeted(s, s.c.(desired := true));
    EnsureKeepsGreeted(s.(c := s.c.(desired := true)), making);
  }

  lemma BeginKeepsGreeted(s: Sys, k: nat, making: Making)
    requires Inv(s) && GreetedOk(s) && !Stale(s)
    ensures GreetedOk(Step(s, BeginEmit(k, making)))
  {
    if MayBegin(s, k) && Possible(s, making) {
      EnsureKeepsGreeted(s, making);
      EnsureKeepsAcks(s, making);
      EnsureKeepsCalls(s, making);
      PhaseKeepsGreeted(EnsureConnected(s, making), k, PhaseOf(CallFor(s)));
    }
  }

  lemma ResumeKeepsGreeted(s: Sys, k: nat)
    requires GreetedOk(s)
    ensures GreetedOk(Step(s, ResumeEmit(k)))
  {
    if k < |s.emits| && s.emits[k].phase.Connecting? && Ready(s, s.emits[k].phase.call) {
      var t := Cleared(s, s.emits[k].phase.call);
      assert GreetedOk(t);
      TakenIsGreeted(t, s.emits[k].phase.call);
      PhaseKeepsGreeted(t, k, PhaseOf(Next(t, s.emits[k].phase.call)));
    }
  }

  lemma WriteKeepsGreeted(s: Sys, k: nat, id: Uuid, throws: bool)
    requires GreetedOk(s) && OwnersOk(s) && MayWrite(s, k, id)
    ensures GreetedOk(WriteFrame(s, k, id, throws))
  {
    WriteKeepsAcks(s, k, id, throws);
  }

  lemma HelloSeenKeepsGreeted(s: Sys, a: nat)
    requires GreetedOk(s) && ConnectOk(s) && StateOk(s.c) && HelloDue(s, a)
    ensures GreetedOk(AttemptGoesOn(s, a))
  {
    assert AttemptOk(s, a);
    if s.c.promises[s.attempts[a].hello][0].Acked? {
      AnsweredKeepsGreeted(s, a);
    } else {
      ClosingSettles(s.c, HelloFailed);
      SettlingKeepsGreeted(s, ScheduleReconnect(CloseCurrent(s.c, HelloFailed)));
    }
  }

  lemma AnsweredKeepsGreeted(s: Sys, a: nat)
    requires GreetedOk(s) && SettledOnce(s.c) && HelloDue(s, a) && s.c.promises[s.attempts[a].hello][0].Acked?
      && AttemptOk(s, a)
    ensures GreetedOk(s.(c := s.c.(connected := true, reconnectDelay := FIRST_DELAY),
                         attempts := s.attempts[a := Ended(true)]))
  {
    assert s.c.promises[s.attempts[a].hello] == [Acked];
    assert Acknowledged(s, s.attempts[a].transport);
  }

  lemma DataKeepsGreeted(s: Sys, transport: Transport, frames: Option<seq<Frame>>)
    requires GreetedOk(s) && StateOk(s.c)
    ensures GreetedOk(Step(s, Data(transport, frames)))
  {
    ClosedKeepsGreeted(s, transport);
    if s.c.transport == Some(transport) && frames.Some? {
      FramesSettle(s.c, transport, frames.value);
      SettlingKeepsGreeted(s, HandleFrames(s.c, transport, frames.value));
    }
  }

  lemma ClosedKeepsGreeted(s: Sys, transport: Transport)
    requires GreetedOk(s) && StateOk(s.c)
    ensures GreetedOk(s.(c := HandleClose(s.c, transport)))
  {
    ClosingSettles(s.c, Disconnected);
    SettlingKeepsGreeted(s, ScheduleReconnect(CloseCurrent(s.c, Disconnected)));
  }

  lemma RingKeepsGreeted(s: Sys, timer: Timer, pid: nat, making: Making)
    requires Inv(s) && GreetedOk(s) && !Stale(s) && timer in s.c.timers && Possible(s, making)
    ensures GreetedOk(Ring(s, timer, pid, making))
  {
    match s.c.timers[timer]
    case EventAlarm(id) =>
      EventTimeoutKeeps(s.c, timer, id);
      SettlingEventSettles(s.c, id, Rejected(TimedOut));
      SettlingKeepsGreeted(s, EventTimeout(s.c, timer, id));
    case HelloAlarm(id) =>
      HelloTimeoutKeeps(s.c, timer, id);
      SettlingHelloSettles(s.c, Rejected(TimedOut));
      SettlingKeepsGreeted(s, HelloTimeout(s.c, timer, id));
    case ReconnectAlarm => ReconnectKeepsGreeted(s, timer, making);
  }

  lemma ReconnectKeepsGreeted(s: Sys, timer: Timer, making: Making)
    requires Inv(s) && GreetedOk(s) && !Stale(s) && Possible(s, making)
    requires timer in s.c.timers && s.c.timers[timer] == ReconnectAlarm
    ensures GreetedOk(EnsureConnected(s.(c := s.c.(timers := s.c.timers - {timer}, reconnectTimer := None)), making))
  {
    var d := s.c.(timers := s.c.timers - {timer}, reconnectTimer := None);
    ReconnectAlarmKeeps(s.c, timer);
    SettlingKeepsInv(s, d);
    SettlingKeepsGreeted(s, d);
    EnsureKeepsGreeted(s.(c := d), making);
  }

  lemma StopKeepsGreeted(s: Sys)
    requires GreetedOk(s) && StateOk(s.c)
    ensures GreetedOk(Step(s, StopCall))
  {
    StoppingSettles(s.c);
    SettlingKeepsGreeted(s, Stop(s.c));
  }

  lemma StepKeepsGreeted(s: Sys, ev: Event)
    requires Inv(s) && GreetedOk(s) && !Stale(s)
    ensures GreetedOk(Step(s, ev))
  {
    if FromOutside(ev) { OutsideKeepsGreeted(s, ev); } else { InsideKeepsGreeted(s, ev); }
  }

  lemma OutsideKeepsGreeted(s: Sys, ev: Event)
    requires Inv(s) && GreetedOk(s) && !Stale(s) && FromOutside(ev)
    ensures GreetedOk(Step(s, ev))
  {
    match ev
    case StopCall => StopKeepsGreeted(s);
    case Connect(a, throws) =>
      if a < |s.attempts| && s.attempts[a].Greeting? { ClosedKeepsGreeted(s, s.attempts[a].transport); }
    case Data(transport, frames) => DataKeepsGreeted(s, transport, frames);
    case Closed(transport) => ClosedKeepsGreeted(s, transport);
    case Alarmed(timer, pid, making) =>
      if timer in s.c.timers && Possible(s, making) { RingKeepsGreeted(s, timer, pid, making); }
  }

  lemma InsideKeepsGreeted(s: Sys, ev: Event)
    requires Inv(s) && GreetedOk(s) && !Stale(s) && !FromOutside(ev)
    ensures GreetedOk(Step(s, ev))
  {
    match ev
    case StartCall(pid, making) => StartKeepsGreeted(s, pid, making);
    case BeginEmit(k, making) => BeginKeepsGreeted(s, k, making);
    case ResumeEmit(k) => ResumeKeepsGreeted(s, k);
    case Write(k, id, throws) => if MayWrite(s, k, id) { WriteKeepsGreeted(s, k, id, throws); }
    case HelloSeen(a) => if HelloDue(s, a) { HelloSeenKeepsGreeted(s, a); }
    case _ => QuietKeepsGreeted(s, ev);
  }

  lemma QuietKeepsGreeted(s: Sys, ev: Event)
    requires GreetedOk(s) && (ev.EmitCall? || ev.ResumeCall? || ev.EmitSeen?)
    ensures GreetedOk(Step(s, ev))
  {}

  /** Only a call that holds a transport writes an event, and on that transport. */
  lemma WritesWhatItHolds(s: Sys, ev: Event, i: nat)
    requires |s.written| <= i < |Step(s, ev).written| && Step(s, ev).written[i].EventFrame?
    ensures ev.Write? && MayWrite(s, ev.k, ev.id) && Step(s, ev).written[i].on == s.emits[ev.k].phase.call.transport
  {}

  lemma WrittenGrows(s: Sys, ev: Event)
    ensures s.written <= Step(s, ev).written
  {}

  lemma StepKeepsEventsGreeted(s: Sys, ev: Event)
    requires Inv(s) && GreetedOk(s) && EventsGreeted(s)
    ensures EventsGreeted(Step(s, ev))
  {
    StepKeepsAcks(s, ev);
    WrittenGrows(s, ev);
    var t := Step(s, ev);
    forall i | 0 <= i < |t.written| && t.written[i].EventFrame? ensures Acknowledged(t, t.written[i].on) {
      if i < |s.written| {
        assert Acknowledged(s, s.written[i].on);
      } else {
        WritesWhatItHolds(s, ev, i);
        assert CallGreeted(s, s.emits[ev.k].phase.call);
      }
    }
  }

  /** The code's handler sets the flag (197-199) while the transport it greeted is gone. */
  predicate GoesStale(s: Sys, ev: Event) {
    && ev.HelloSeen? && HelloDue(s, ev.attempt) && s.c.promises[s.attempts[ev.attempt].hello][0].Acked?
    && s.c.transport.None?
  }

  lemma {:induction false} FramesDoNotStale(c: State, transport: Transport, frames: seq<Frame>)
    requires c.connected ==> c.transport.Some?
    ensures HandleFrames(c, transport, frames).connected ==> HandleFrames(c, transport, frames).transport.Some?
    decreases |frames|
  {
    if frames != [] {
      if c.hello.Some? {
        var outcome := if frames[0] == HelloAck(c.hello.value.requestId) then Acked else Rejected(BadHello);
        FramesDoNotStale(SettleHello(c, outcome), transport, frames[1..]);
      } else if frames[0].EventAck? {
        var id := frames[0].requestId;
        FramesDoNotStale(if id in c.pending then SettleEvent(c, id, Acked) else c, transport, frames[1..]);
      }
    }
  }

  lemma ContinuationsDoNotStale(s: Sys, ev: Event)
    requires !Stale(s) && !FromOutside(ev) && !ev.HelloSeen?
    ensures !Stale(Step(s, ev))
  {}

  lemma OutsideDoesNotStale(s: Sys, ev: Event)
    requires !Stale(s) && FromOutside(ev)
    ensures !Stale(Step(s, ev))
  {
    if ev.Data? {
      if ev.frames.Some? { FramesDoNotStale(s.c, ev.transport, ev.frames.value); }
    } else if ev.Alarmed? {
      AlarmsDoNotStale(s, ev);
    }
  }

  lemma AlarmsDoNotStale(s: Sys, ev: Event)
    requires !Stale(s) && ev.Alarmed?
    ensures !Stale(Step(s, ev))
  {
    AlarmedIsRing(s, ev.timer, ev.pid, ev.making);
    if ev.timer in s.c.timers { RingDoesNotStale(s, ev.timer, ev.pid, ev.making); }
  }

  lemma RingDoesNotStale(s: Sys, timer: Timer, pid: nat, making: Making)
    requires !Stale(s) && timer in s.c.timers
    ensures !Stale(Ring(s, timer, pid, making))
  {
    if s.c.timers[timer].ReconnectAlarm? {
      ReconnectRingIs(s, timer, pid, making);
      OpeningDoesNotStale(s.(c := s.c.(timers := s.c.timers - {timer}, reconnectTimer := None)), making);
    }
  }

  lemma OpeningDoesNotStale(s: Sys, making: Making)
    requires !Stale(s)
    ensures !Stale(EnsureConnected(s, making))
  {}

  /** The flag goes stale exactly there: in no other turn of the program, and always in that one. */
  lemma GoesStaleIff(s: Sys, ev: Event)
    requires !Stale(s)
    ensures Stale(Step(s, ev)) <==> GoesStale(s, ev)
  {
    if FromOutside(ev) { OutsideDoesNotStale(s, ev); }
    else if !ev.HelloSeen? { ContinuationsDoNotStale(s, ev); }
  }

  ghost predicate NeverGoesStale(evs: seq<Event>) {
    forall n: nat :: n < |evs| ==> !GoesStale(Run(START, evs[..n]), evs[n])
  }

  /** As long as the handler never ran without its transport, the flag is good and every event was written on a
      transport whose hello had been acknowledged. */
  lemma {:induction false} EventsFollowHello(evs: seq<Event>)
    requires NeverGoesStale(evs)
    ensures !Stale(Run(START, evs)) && EventsGreeted(Run(START, evs)) && GreetedOk(Run(START, evs))
  {
    if evs != [] {
      var init, ev := evs[..|evs| - 1], evs[|evs| - 1];
      forall n: nat | n < |init| ensures !GoesStale(Run(START, init[..n]), init[n]) {
        assert init[..n] == evs[..n] && init[n] == evs[n];
      }
      EventsFollowHello(init);
      ReachableInv(init);
      GoesStaleIff(Run(START, init), ev);
      StepKeepsGreeted(Run(START, init), ev);
      StepKeepsEventsGreeted(Run(START, init), ev);
    }
  }

  // Conversely, a stale flag lets an event through.

  /** What start makes of a stale flag: a transport that counts as connected before its hello is even written. */
  predicate Leaking(s: Sys, transport: Transport, hello: Uuid) {
    && s.c.desired && s.c.connected && s.c.transport == Some(transport)
    && transport in s.greeting && s.greeting[transport] == hello
    && hello in s.ids && hello in s.c.promises && s.c.promises[hello] == []
  }

  predicate AllSettled(s: Sys) { forall k :: 0 <= k < |s.emits| ==> s.emits[k].phase.Settled? }

  lemma StartLeaks(s: Sys, pid: nat, hello: Uuid)
    requires Stale(s) && s.c.connecting.None? && pid !in s.calls && hello !in s.ids
    ensures var t := Step(s, StartCall(pid, Makes(hello)));
      && Leaking(t, s.nextTransport, hello)
      && t == t.(c := t.c, emits := s.emits, eventChain := s.eventChain, written := s.written)
      && t.ids == s.ids + {hello} && t.c.nextSequence == s.c.nextSequence
  {}

  lemma EmitLeaks(s: Sys, transport: Transport, hello: Uuid, id: Uuid)
    requires Leaking(s, transport, hello) && ChainOk(s) && AllSettled(s) && id !in s.ids
    ensures var k := |s.emits|;
      var t := Step(Step(Step(s, EmitCall), BeginEmit(k, Throws)), Write(k, id, false));
      && t.written == s.written + [EventFrame(transport, id, k + 1)]
      && hello in t.c.promises && t.c.promises[hello] == [] && t.greeting == s.greeting
  {
    var k := |s.emits|;
    var u := Step(s, EmitCall);
    assert u.emits[k] == Emit(k + 1, s.eventChain, Queued) && MayBegin(u, k);
    var v := Step(u, BeginEmit(k, Throws));
    assert v.emits[k] == Emit(k + 1, s.eventChain, Connecting(HasTransport(transport))) && v.c == u.c;
  }

  function Leak(s: Sys, pid: nat, hello: Uuid, id: Uuid): Sys {
    Step(Step(Step(Step(s, StartCall(pid, Makes(hello))), EmitCall), BeginEmit(|s.emits|, Throws)),
         Write(|s.emits|, id, false))
  }

  lemma LeaksFrom(s: Sys, pid: nat, hello: Uuid, id: Uuid)
    requires Stale(s) && s.c.connecting.None? && AllSettled(s) && ChainOk(s)
    requires pid !in s.calls && hello !in s.ids && id !in s.ids && hello != id
    ensures var t := Leak(s, pid, hello, id);
      && t.written == s.written + [EventFrame(s.nextTransport, id, |s.emits| + 1)]
      && hello in t.c.promises && t.c.promises[hello] == [] && !Acknowledged(t, s.nextTransport)
  {
    StartLeaks(s, pid, hello);
    EmitLeaks(Step(s, StartCall(pid, Makes(hello))), s.nextTransport, hello, id);
  }

  // Every stale state leads there: what is still under way can be brought to its end first.

  predicate CallOk(s: Sys, call: Call) { call.Awaiting? ==> call.attempt < |s.attempts| }

  predicate WaitsFor(call: Call, attempt: nat) { call == Awaiting(attempt, true) }

  predicate OwnerWaits(s: Sys, attempt: nat) {
    || (exists pid <- s.calls :: WaitsFor(s.calls[pid], attempt))
    || (exists k :: 0 <= k < |s.emits| && s.emits[k].phase.Connecting? && WaitsFor(s.emits[k].phase.call, attempt))
  }

  /** Whoever waits, waits for an attempt that was made, and somebody will clear the one being made. */
  predicate WaitsOk(s: Sys) {
    && (forall pid <- s.calls :: CallOk(s, s.calls[pid]))
    && (forall k :: 0 <= k < |s.emits| && s.emits[k].phase.Connecting? ==>
          CallOk(s, s.emits[k].phase.call) && !s.emits[k].phase.call.Returned?)
    && (s.c.connecting.Some? ==> OwnerWaits(s, s.c.connecting.value))
  }

  /** No hello is awaited while the flag is stale. */
  predicate StaleIsQuiet(s: Sys) { Stale(s) ==> forall a :: 0 <= a < |s.attempts| ==> !InFlight(s.attempts[a]) }

  predicate Sound(s: Sys) { Inv(s) && WaitsOk(s) && StaleIsQuiet(s) }

  predicate SameWaits(s: Sys, t: Sys) {
    && t.calls == s.calls && |t.attempts| == |s.attempts| && t.c.connecting == s.c.connecting && |s.emits| <= |t.emits|
    && (forall k :: 0 <= k < |s.emits| && s.emits[k].phase.Connecting? && s.emits[k].phase.call.Awaiting? ==>
          t.emits[k].phase == s.emits[k].phase)
    && (forall k :: 0 <= k < |t.emits| && t.emits[k].phase.Connecting? ==>
          k < |s.emits| && t.emits[k].phase == s.emits[k].phase)
  }

  lemma SameKeepsWaits(s: Sys, t: Sys)
    requires WaitsOk(s) && SameWaits(s, t)
    ensures WaitsOk(t)
  {
    if t.c.connecting.Some? {
      var a := t.c.connecting.value;
      if !(exists pid <- s.calls :: WaitsFor(s.calls[pid], a)) {
        var k :| 0 <= k < |s.emits| && s.emits[k].phase.Connecting? && WaitsFor(s.emits[k].phase.call, a);
        assert t.emits[k].phase == s.emits[k].phase;
      }
    }
  }

  lemma StartKeepsWaits(s: Sys, pid: nat, making: Making)
    requires WaitsOk(s) && ConnectOk(s) && pid !in s.calls
    ensures WaitsOk(EnsureConnected(s, making).(calls := s.calls[pid := CallFor(s)]))
  {
    var t := EnsureConnected(s, making).(calls := s.calls[pid := CallFor(s)]);
    if Opens(s.c) {
      assert WaitsFor(t.calls[pid], |s.attempts|);
    } else if s.c.connecting.Some? {
      if exists p <- s.calls :: WaitsFor(s.calls[p], s.c.connecting.value) {
        var p :| p in s.calls && WaitsFor(s.calls[p], s.c.connecting.value);
        assert t.calls[p] == s.calls[p];
      }
    }
  }

  lemma BeginKeepsWaits(s: Sys, k: nat, making: Making)
    requires WaitsOk(s) && ConnectOk(s) && k < |s.emits| && s.emits[k].phase == Queued
    ensures WaitsOk(SetPhase(EnsureConnected(s, making), k, PhaseOf(CallFor(s))))
  {
    var t := SetPhase(EnsureConnected(s, making), k, PhaseOf(CallFor(s)));
    if Opens(s.c) {
      assert t.emits[k].phase.Connecting? && WaitsFor(t.emits[k].phase.call, |s.attempts|);
    } else if s.c.connecting.Some? {
      if !(exists p <- s.calls :: WaitsFor(s.calls[p], s.c.connecting.value)) {
        var j :| 0 <= j < |s.emits| && s.emits[j].phase.Connecting?
          && WaitsFor(s.emits[j].phase.call, s.c.connecting.value);
        assert t.emits[j] == s.emits[j];
      }
    }
  }

  lemma ResumeCallKeepsWaits(s: Sys, pid: nat)
    requires WaitsOk(s) && pid in s.calls && Ready(s, s.calls[pid])
    ensures WaitsOk(Step(s, ResumeCall(pid)))
  {
    var t := Step(s, ResumeCall(pid));
    if t.c.connecting.Some? {
      var a := t.c.connecting.value;
      if exists p <- s.calls :: WaitsFor(s.calls[p], a) {
        var p :| p in s.calls && WaitsFor(s.calls[p], a);
        assert p != pid && t.calls[p] == s.calls[p];
      } else {
        var j :| 0 <= j < |s.emits| && s.emits[j].phase.Connecting? && WaitsFor(s.emits[j].phase.call, a);
        assert t.emits[j] == s.emits[j];
      }
    }
  }

  lemma ResumeEmitKeepsWaits(s: Sys, k: nat)
    requires WaitsOk(s) && k < |s.emits| && s.emits[k].phase.Connecting? && Ready(s, s.emits[k].phase.call)
    ensures WaitsOk(Step(s, ResumeEmit(k)))
  {
    var t := Step(s, ResumeEmit(k));
    if t.c.connecting.Some? {
      var a := t.c.connecting.value;
      if exists p <- s.calls :: WaitsFor(s.calls[p], a) {
        var p :| p in s.calls && WaitsFor(s.calls[p], a);
        assert t.calls[p] == s.calls[p];
      } else {
        var j :| 0 <= j < |s.emits| && s.emits[j].phase.Connecting? && WaitsFor(s.emits[j].phase.call, a);
        assert j != k && t.emits[j] == s.emits[j];
      }
    }
  }

  lemma RingKeepsWaits(s: Sys, timer: Timer, pid: nat, making: Making)
    requires WaitsOk(s) && ConnectOk(s) && timer in s.c.timers && pid !in s.calls
    ensures WaitsOk(Ring(s, timer, pid, making))
  {
    if s.c.timers[timer].ReconnectAlarm? { ReconnectKeepsWaits(s, timer, pid, making); }
    else {
      PromiseAlarmKeepsCalls(s, timer, pid, making);
      SameKeepsWaits(s, Ring(s, timer, pid, making));
    }
  }

  lemma PromiseAlarmKeepsCalls(s: Sys, timer: Timer, pid: nat, making: Making)
    requires timer in s.c.timers && !s.c.timers[timer].ReconnectAlarm?
    ensures SameWaits(s, Ring(s, timer, pid, making))
  {}

  lemma ReconnectKeepsWaits(s: Sys, timer: Timer, pid: nat, making: Making)
    requires WaitsOk(s) && ConnectOk(s) && timer in s.c.timers && s.c.timers[timer].ReconnectAlarm? && pid !in s.calls
    ensures WaitsOk(Ring(s, timer, pid, making))
  {
    var fired := s.(c := s.c.(timers := s.c.timers - {timer}, reconnectTimer := None));
    SameKeepsWaits(s, fired);
    ReconnectRingIs(s, timer, pid, making);
    if s.c.desired && s.c.transport.None? && s.c.connecting.None? { StartKeepsWaits(fired, pid, making); }
  }

  lemma ReconnectRingIs(s: Sys, timer: Timer, pid: nat, making: Making)
    requires timer in s.c.timers && s.c.timers[timer].ReconnectAlarm?
    ensures var fired := s.(c := s.c.(timers := s.c.timers - {timer}, reconnectTimer := None));
      Ring(s, timer, pid, making) ==
        if !s.c.desired || s.c.transport.Some? || s.c.connecting.Some? then fired
        else EnsureConnected(fired, making).(calls := s.calls[pid := CallFor(fired)])
  {}

  predicate KeepsCalls(ev: Event) {
    ev.StopCall? || ev.EmitCall? || ev.Write? || ev.EmitSeen? || ev.Connect? || ev.HelloSeen? || ev.Data? || ev.Closed?
  }

  lemma {:induction false} FramesKeepConnecting(c: State, transport: Transport, frames: seq<Frame>)
    ensures HandleFrames(c, transport, frames).connecting == c.connecting
    decreases |frames|
  {
    if frames != [] {
      if c.hello.Some? {
        var outcome := if frames[0] == HelloAck(c.hello.value.requestId) then Acked else Rejected(BadHello);
        FramesKeepConnecting(SettleHello(c, outcome), transport, frames[1..]);
      } else if frames[0].EventAck? {
        var id := frames[0].requestId;
        FramesKeepConnecting(if id in c.pending then SettleEvent(c, id, Acked) else c, transport, frames[1..]);
      }
    }
  }

  lemma DataIsSameWaits(s: Sys, transport: Transport, frames: Option<seq<Frame>>)
    ensures SameWaits(s, Step(s, Data(transport, frames)))
  {
    if frames.Some? { FramesKeepConnecting(s.c, transport, frames.value); }
  }

  lemma EmitsAreSameWaits(s: Sys, ev: Event)
    requires ev.EmitCall? || ev.Write? || ev.EmitSeen?
    ensures SameWaits(s, Step(s, ev))
  {}

  lemma TurnsAreSameWaits(s: Sys, ev: Event)
    requires KeepsCalls(ev) && !ev.Data?
    ensures SameWaits(s, Step(s, ev))
  {
    if ev.EmitCall? || ev.Write? || ev.EmitSeen? { EmitsAreSameWaits(s, ev); } else { ClosersAreSameWaits(s, ev); }
  }

  lemma ClosersAreSameWaits(s: Sys, ev: Event)
    requires ev.StopCall? || ev.Connect? || ev.HelloSeen? || ev.Closed?
    ensures SameWaits(s, Step(s, ev))
  {
    if ev.HelloSeen? { HelloSeenIsSameWaits(s, ev); }
  }

  lemma HelloSeenIsSameWaits(s: Sys, ev: Event)
    requires ev.HelloSeen?
    ensures SameWaits(s, Step(s, ev))
  {}

  lemma StepKeepsWaits(s: Sys, ev: Event)
    requires Inv(s) && WaitsOk(s)
    ensures WaitsOk(Step(s, ev))
  {
    if KeepsCalls(ev) {
      if ev.Data? { DataIsSameWaits(s, ev.transport, ev.frames); } else { TurnsAreSameWaits(s, ev); }
      SameKeepsWaits(s, Step(s, ev));
    } else {
      CallsKeepWaits(s, ev);
    }
  }

  lemma CallsKeepWaits(s: Sys, ev: Event)
    requires ConnectOk(s) && WaitsOk(s) && !KeepsCalls(ev)
    ensures WaitsOk(Step(s, ev))
  {
    match ev
    case StartCall(pid, making) =>
      if pid !in s.calls {
        SameKeepsWaits(s, s.(c := s.c.(desired := true)));
        StartKeepsWaits(s.(c := s.c.(desired := true)), pid, making);
      }
    case BeginEmit(k, making) => if MayBegin(s, k) { BeginKeepsWaits(s, k, making); }
    case ResumeCall(pid) => if pid in s.calls && Ready(s, s.calls[pid]) { ResumeCallKeepsWaits(s, pid); }
    case ResumeEmit(k) =>
      if k < |s.emits| && s.emits[k].phase.Connecting? && Ready(s, s.emits[k].phase.call) {
        ResumeEmitKeepsWaits(s, k);
      }
    case Alarmed(timer, pid, making) =>
      if timer in s.c.timers && pid !in s.calls { RingKeepsWaits(s, timer, pid, making); }
  }

  /** An attempt in flight was so before, unless a transport has just been opened. */
  lemma AttemptsOnlyEnd(s: Sys, ev: Event, a: nat)
    requires a < |Step(s, ev).attempts| && InFlight(Step(s, ev).attempts[a])
    ensures Step(s, ev).c.transport.Some? || (a < |s.attempts| && InFlight(s.attempts[a]))
  {
    if !ev.HelloSeen? && !ev.Alarmed? { AttemptsAreKept(s, ev, a); }
  }

  lemma AttemptsAreKept(s: Sys, ev: Event, a: nat)
    requires a < |Step(s, ev).attempts| && InFlight(Step(s, ev).attempts[a]) && !ev.HelloSeen? && !ev.Alarmed?
    ensures Step(s, ev).c.transport.Some? || (a < |s.attempts| && InFlight(s.attempts[a]))
  {
    if OfEmit(ev) { EmitsKeepAttempts(s, ev, a); }
  }

  lemma EmitsKeepAttempts(s: Sys, ev: Event, a: nat)
    requires a < |Step(s, ev).attempts| && InFlight(Step(s, ev).attempts[a]) && OfEmit(ev)
    ensures Step(s, ev).c.transport.Some? || (a < |s.attempts| && InFlight(s.attempts[a]))
  {}

  lemma StepKeepsQuiet(s: Sys, ev: Event)
    requires ConnectOk(s) && StaleIsQuiet(s)
    ensures StaleIsQuiet(Step(s, ev))
  {
    var t := Step(s, ev);
    if Stale(t) {
      forall a | 0 <= a < |t.attempts| ensures !InFlight(t.attempts[a]) {
        if InFlight(t.attempts[a]) {
          AttemptsOnlyEnd(s, ev, a);
          assert AttemptOk(s, a);
          EndedByStaleness(s, ev, a);
        }
      }
    }
  }

  lemma EndedByStaleness(s: Sys, ev: Event, a: nat)
    requires !Stale(s) && Stale(Step(s, ev)) && ConnectOk(s) && a < |s.attempts| && InFlight(s.attempts[a])
    ensures a < |Step(s, ev).attempts| && !InFlight(Step(s, ev).attempts[a])
  {
    GoesStaleIff(s, ev);
    assert AttemptOk(s, a) && AttemptOk(s, ev.attempt);
  }

  lemma StepKeepsSound(s: Sys, ev: Event)
    requires Sound(s)
    ensures Sound(Step(s, ev))
  {
    StepKeepsInv(s, ev);
    StepKeepsWaits(s, ev);
    StepKeepsQuiet(s, ev);
  }

  lemma {:induction false} ReachableSound(evs: seq<Event>)
    ensures Sound(Run(START, evs))
  {
    if evs != [] {
      ReachableSound(evs[..|evs| - 1]);
      StepKeepsSound(Run(START, evs[..|evs| - 1]), evs[|evs| - 1]);
    }
  }

  // Bringing a stale state to rest.

  lemma OneMore(s: Sys, evs: seq<Event>, ev: Event)
    ensures Run(s, evs + [ev]) == Step(Run(s, evs), ev)
  {
    assert (evs + [ev])[..|evs|] == evs;
  }

  lemma {:induction false} RunAppend(s: Sys, a: seq<Event>, b: seq<Event>)
    ensures Run(s, a + b) == Run(Run(s, a), b)
  {
    hide Step;
    if b == [] {
      assert a + b == a;
    } else {
      RunAppend(s, a, b[..|b| - 1]);
      assert (a + b)[..|a + b| - 1] == a + b[..|b| - 1];
    }
  }

  lemma RunTwo(s: Sys, a: Event, b: Event)
    ensures Run(s, [a]) == Step(s, a) && Run(s, [a, b]) == Step(Step(s, a), b)
  {
    assert [a][..0] == [] && [a, b][..1] == [a];
  }

  /** Stale, and no connection is being made. */
  predicate Resting(s: Sys) { Sound(s) && Stale(s) && s.c.connecting.None? }

  lemma OwnerCallClears(s: Sys, pid: nat)
    requires Stale(s) && s.c.connecting.Some? && pid in s.calls && WaitsFor(s.calls[pid], s.c.connecting.value)
    requires Ready(s, s.calls[pid])
    ensures var t := Step(s, ResumeCall(pid));
      Stale(t) && t.c.connecting.None? && t.ids == s.ids && t.calls.Keys == s.calls.Keys
  {}

  lemma OwnerEmitClears(s: Sys, k: nat)
    requires Stale(s) && s.c.connecting.Some? && k < |s.emits|
    requires s.emits[k].phase.Connecting? && WaitsFor(s.emits[k].phase.call, s.c.connecting.value)
    requires Ready(s, s.emits[k].phase.call)
    ensures var t := Step(s, ResumeEmit(k));
      Stale(t) && t.c.connecting.None? && t.ids == s.ids && t.calls.Keys == s.calls.Keys
  {}

  lemma ClearConnecting(s: Sys) returns (after: seq<Event>)
    requires Sound(s) && Stale(s)
    ensures Resting(Run(s, after)) && Run(s, after).ids == s.ids && Run(s, after).calls.Keys == s.calls.Keys
  {
    if s.c.connecting.None? { return []; }
    var a := s.c.connecting.value;
    if pid :| pid in s.calls && WaitsFor(s.calls[pid], a) {
      OwnerCallClears(s, pid);
      StepKeepsSound(s, ResumeCall(pid));
      RunTwo(s, ResumeCall(pid), StopCall);
      return [ResumeCall(pid)];
    } else {
      var k :| 0 <= k < |s.emits| && s.emits[k].phase.Connecting? && WaitsFor(s.emits[k].phase.call, a);
      OwnerEmitClears(s, k);
      StepKeepsSound(s, ResumeEmit(k));
      RunTwo(s, ResumeEmit(k), StopCall);
      return [ResumeEmit(k)];
    }
  }

  /** From s to t emit call k has settled, and nothing else of interest has changed. */
  predicate SettlesOne(s: Sys, t: Sys, k: nat, ids: set<Uuid>) {
    && Stale(t) && t.c.connecting.None? && t.calls == s.calls && t.ids <= ids
    && |t.emits| == |s.emits| && IsSettled(t, k)
    && forall j :: 0 <= j < |s.emits| && j != k ==> t.emits[j] == s.emits[j]
  }

  lemma AwaitingSettles(s: Sys, k: nat)
    requires Resting(s) && k < |s.emits| && s.emits[k].phase.Connecting? && s.emits[k].phase.call.Awaiting?
    ensures SettlesOne(s, Step(s, ResumeEmit(k)), k, s.ids)
  {
    assert CallOk(s, s.emits[k].phase.call);
  }

  lemma HoldingSettles(s: Sys, k: nat, spare: Uuid)
    requires Stale(s) && s.c.connecting.None? && MayWrite(s, k, spare)
    ensures SettlesOne(s, Step(Step(s, Write(k, spare, true)), EmitSeen(k)), k, s.ids + {spare})
  {
    var u := Step(s, Write(k, spare, true));
    assert u == WriteFrame(s, k, spare, true) && u.emits[k].phase == Sent(spare);
    assert u.c.promises[spare] == [Rejected(WriteFailed)];
  }

  lemma SeenSettles(s: Sys, k: nat)
    requires Stale(s) && s.c.connecting.None? && SettledOnce(s.c) && s.c.hello.None?
    requires k < |s.emits| && s.emits[k].phase.Sent? && s.emits[k].phase.requestId in s.c.promises
    requires s.emits[k].phase.requestId !in s.c.pending
    ensures SettlesOne(s, Step(s, EmitSeen(k)), k, s.ids)
  {}

  lemma PendingTimesOut(s: Sys, id: Uuid, pid: nat)
    requires StateOk(s.c) && id in s.c.pending && pid !in s.calls
    ensures Step(s, Alarmed(s.c.pending[id], pid, Throws)) == s.(c := SettleEvent(s.c, id, Rejected(TimedOut)))
  {
    EventTimeoutKeeps(s.c, s.c.pending[id], id);
  }

  lemma SentSettles(s: Sys, k: nat, pid: nat) returns (after: seq<Event>)
    requires Resting(s) && k < |s.emits| && s.emits[k].phase.Sent? && pid !in s.calls
    ensures SettlesOne(s, Run(s, after), k, s.ids) && Sound(Run(s, after))
  {
    var id := s.emits[k].phase.requestId;
    if id in s.c.pending {
      var alarm := Alarmed(s.c.pending[id], pid, Throws);
      PendingTimesOut(s, id, pid);
      StepKeepsSound(s, alarm);
      var u := Step(s, alarm);
      SeenSettles(u, k);
      StepKeepsSound(u, EmitSeen(k));
      RunTwo(s, alarm, EmitSeen(k));
      return [alarm, EmitSeen(k)];
    } else {
      SeenSettles(s, k);
      StepKeepsSound(s, EmitSeen(k));
      RunTwo(s, EmitSeen(k), StopCall);
      return [EmitSeen(k)];
    }
  }

  /** The one call that has begun and not settled can be brought to its end. */
  lemma RunningSettles(s: Sys, k: nat, pid: nat, spare: Uuid) returns (after: seq<Event>)
    requires Resting(s) && k < |s.emits| && !s.emits[k].phase.Settled? && s.emits[k].phase != Queued
    requires pid !in s.calls && spare !in s.ids
    ensures SettlesOne(s, Run(s, after), k, s.ids + {spare}) && Sound(Run(s, after))
  {
    match s.emits[k].phase
    case Sent(_) => after := SentSettles(s, k, pid);
    case Connecting(call) =>
      if call.Awaiting? {
        AwaitingSettles(s, k);
        StepKeepsSound(s, ResumeEmit(k));
        RunTwo(s, ResumeEmit(k), StopCall);
        return [ResumeEmit(k)];
      }
      HoldingSettles(s, k, spare);
      StepKeepsSound(s, Write(k, spare, true));
      StepKeepsSound(Step(s, Write(k, spare, true)), EmitSeen(k));
      RunTwo(s, Write(k, spare, true), EmitSeen(k));
      return [Write(k, spare, true), EmitSeen(k)];
  }

  predicate SettledOrQueued(s: Sys) {
    forall k :: 0 <= k < |s.emits| ==> s.emits[k].phase.Settled? || s.emits[k].phase == Queued
  }

  lemma UndesiredSettles(s: Sys, k: nat)
    requires Resting(s) && MayBegin(s, k) && !s.c.desired
    ensures SettlesOne(s, Step(s, BeginEmit(k, Throws)), k, s.ids)
  {}

  lemma FailingSettles(s: Sys, k: nat)
    requires Resting(s) && MayBegin(s, k) && s.c.desired
    ensures SettlesOne(s, Step(Step(s, BeginEmit(k, Throws)), ResumeEmit(k)), k, s.ids)
  {
    var u := Step(s, BeginEmit(k, Throws));
    assert u.emits[k].phase == Connecting(Awaiting(|s.attempts|, true)) && u.attempts == s.attempts + [Ended(false)];
    assert Ready(u, u.emits[k].phase.call);
  }

  lemma QueuedSettles(s: Sys, k: nat) returns (after: seq<Event>)
    requires Resting(s) && MayBegin(s, k)
    ensures SettlesOne(s, Run(s, after), k, s.ids) && Sound(Run(s, after))
  {
    var begin := BeginEmit(k, Throws);
    StepKeepsSound(s, begin);
    RunTwo(s, begin, ResumeEmit(k));
    if s.c.desired {
      FailingSettles(s, k);
      StepKeepsSound(Step(s, begin), ResumeEmit(k));
      return [begin, ResumeEmit(k)];
    } else {
      UndesiredSettles(s, k);
      return [begin];
    }
  }

  lemma QueueSettles(s: Sys, k: nat) returns (after: seq<Event>)
    requires Resting(s) && SettledOrQueued(s) && k <= |s.emits| && forall j :: 0 <= j < k ==> s.emits[j].phase.Settled?
    ensures var t := Run(s, after); Resting(t) && AllSettled(t) && t.ids <= s.ids && t.calls == s.calls
    decreases |s.emits| - k
  {
    if k == |s.emits| { return []; }
    if s.emits[k].phase.Settled? {
      after := QueueSettles(s, k + 1);
    } else {
      assert s.emits[k].after == if k == 0 then None else Some(k - 1);
      var first := QueuedSettles(s, k);
      var rest := QueueSettles(Run(s, first), k + 1);
      RunAppend(s, first, rest);
      return first + rest;
    }
  }

  /** Every stale state can be brought to rest, still stale, with every emit call settled. */
  lemma StaleComesToRest(s: Sys, pid: nat, spare: Uuid) returns (after: seq<Event>)
    requires Sound(s) && Stale(s) && pid !in s.calls && spare !in s.ids
    ensures var t := Run(s, after);
      Resting(t) && AllSettled(t) && t.ids <= s.ids + {spare} && t.calls.Keys == s.calls.Keys
  {
    var clear := ClearConnecting(s);
    var u := Run(s, clear);
    if k :| 0 <= k < |u.emits| && !u.emits[k].phase.Settled? && u.emits[k].phase != Queued {
      var running := RunningSettles(u, k, pid, spare);
      OnlyOneRuns(u, k);
      var rest := QueueSettles(Run(u, running), 0);
      RunAppend(u, running, rest);
      RunAppend(s, clear, running + rest);
      return clear + (running + rest);
    } else {
      var rest := QueueSettles(u, 0);
      RunAppend(s, clear, rest);
      return clear + rest;
    }
  }

  lemma OnlyOneRuns(s: Sys, k: nat)
    requires ChainOk(s) && k < |s.emits| && !s.emits[k].phase.Settled? && s.emits[k].phase != Queued
    ensures forall j :: 0 <= j < |s.emits| && j != k ==> s.emits[j].phase.Settled? || s.emits[j].phase == Queued
  {
    forall j | k < j < |s.emits| ensures s.emits[j].phase == Queued { OnlyQueuedBehind(s, k, j); }
  }

  function LeakEvents(s: Sys, pid: nat, hello: Uuid, id: Uuid): seq<Event> {
    [StartCall(pid, Makes(hello)), EmitCall, BeginEmit(|s.emits|, Throws), Write(|s.emits|, id, false)]
  }

  lemma LeakIsRun(s: Sys, pid: nat, hello: Uuid, id: Uuid)
    ensures Run(s, LeakEvents(s, pid, hello, id)) == Leak(s, pid, hello, id)
  {
    var evs := LeakEvents(s, pid, hello, id);
    assert evs == evs[..2] + evs[2..];
    RunAppend(s, evs[..2], evs[2..]);
    RunTwo(s, evs[0], evs[1]);
    RunTwo(Run(s, evs[..2]), evs[2], evs[3]);
    assert evs[..2] == [evs[0], evs[1]] && evs[2..] == [evs[2], evs[3]];
  }

  /** From every stale state of every run there is a continuation that writes an event on a transport whose hello has
      not been acknowledged: whatever is under way settles, then start and one emit. */
  lemma StaleFlagLeaks(evs: seq<Event>, pid: nat, hello: Uuid, id: Uuid, spare: Uuid) returns (after: seq<Event>)
    requires Stale(Run(START, evs)) && pid !in Run(START, evs).calls
    requires {hello, id, spare} !! Run(START, evs).ids && hello != id && id != spare && hello != spare
    ensures var t := Run(START, evs + after);
      && t.written != [] && t.written[|t.written| - 1].EventFrame?
      && !Acknowledged(t, t.written[|t.written| - 1].on)
  {
    ReachableSound(evs);
    var s := Run(START, evs);
    var rest := StaleComesToRest(s, pid, spare);
    var t := Run(s, rest);
    LeaksFrom(t, pid, hello, id);
    LeakIsRun(t, pid, hello, id);
    after := rest + LeakEvents(t, pid, hello, id);
    RunAppend(s, rest, LeakEvents(t, pid, hello, id));
    RunAppend(START, evs, after);
  }

  /** The hello is answered and the next frame of the same chunk cannot be read. */
  lemma AckThenBadFrame(c: State, transport: Transport)
    requires StateOk(c) && c.hello.Some? && c.transport == Some(transport) && c.pending == map[]
    ensures var d := HandleData(c, transport, Some([HelloAck(c.hello.value.requestId), OtherFrame]));
      && d.transport.None? && d.hello.None? && d.connecting == c.connecting
      && c.hello.value.requestId in d.promises && d.promises[c.hello.value.requestId] == [Acked]
  {
    var id := c.hello.value.requestId;
    var answered := SettleHello(c, Acked);
    var frames := [HelloAck(id), OtherFrame];
    assert frames[1..] == [OtherFrame];
    assert HandleFrames(answered, transport, [OtherFrame]) == HandleClose(answered, transport);
    assert HandleFrames(c, transport, frames) == HandleFrames(answered, transport, frames[1..]);
    assert answered.promises[id] == [Acked];
  }

  predicate FirstHelloSent(s: Sys, hello: Uuid) {
    && StateOk(s.c) && s.c.hello.Some? && s.c.hello.value.requestId == hello && s.c.transport == Some(0)
    && s.c.connecting == Some(0) && s.c.pending == map[] && s.attempts == [Greeting(0, hello)]
    && s.emits == [] && s.ids == {hello} && s.calls == map[0 := Awaiting(0, true)]
  }

  lemma FirstHello(hello: Uuid)
    ensures FirstHelloSent(Run(START, [StartCall(0, Makes(hello)), Connect(0, false)]), hello)
  {
    RunTwo(START, StartCall(0, Makes(hello)), Connect(0, false));
    ReachableState([StartCall(0, Makes(hello)), Connect(0, false)]);
    FirstHelloSteps(hello);
  }

  lemma ReachableState(evs: seq<Event>)
    ensures StateOk(Run(START, evs).c)
  {
    ReachableInv(evs);
  }

  lemma FirstHelloSteps(hello: Uuid)
    ensures var s := Step(Step(START, StartCall(0, Makes(hello))), Connect(0, false));
      StateOk(s.c) ==> FirstHelloSent(s, hello)
  {}

  lemma AckThenBadFrameIsStale(s: Sys, hello: Uuid)
    requires FirstHelloSent(s, hello)
    ensures var t := Step(Step(Step(s, Data(0, Some([HelloAck(hello), OtherFrame]))), HelloSeen(0)), ResumeCall(0));
      Stale(t) && t.c.connecting.None? && AllSettled(t) && t.ids == {hello} && t.calls.Keys == {0}
  {
    AckThenBadFrame(s.c, 0);
    var t := Step(Step(s, Data(0, Some([HelloAck(hello), OtherFrame]))), HelloSeen(0));
    assert t.c.connected && t.attempts == [Ended(true)];
  }

  /** The flag does become stale: this run answers the hello of the first connection in a chunk with a bad frame. */
  lemma FlagBecomesStale(hello: Uuid)
    ensures var evs := [StartCall(0, Makes(hello)), Connect(0, false)]
        + [Data(0, Some([HelloAck(hello), OtherFrame]))] + [HelloSeen(0)] + [ResumeCall(0)];
      var s := Run(START, evs);
      && Stale(s) && s.c.connecting.None? && AllSettled(s) && s.ids == {hello} && s.calls.Keys == {0}
  {
    var evs, data := [StartCall(0, Makes(hello)), Connect(0, false)], Data(0, Some([HelloAck(hello), OtherFrame]));
    FirstHello(hello);
    AckThenBadFrameIsStale(Run(START, evs), hello);
    OneMore(START, evs, data);
    OneMore(START, evs + [data], HelloSeen(0));
    OneMore(START, evs + [data] + [HelloSeen(0)], ResumeCall(0));
  }
}
