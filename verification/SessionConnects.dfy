/** How the session gets from a start to a connection and from an emit call to its result: what each step in between
    leads to (extensions/vscode/src/adapter-session.ts). */
module SessionConnects {
  import opened Wrappers
  import opened Domain
  import opened Session

  // The handlers of a hello, a chunk and the reconnect timer.

  /** An acknowledged hello makes the session connected; a rejected one closes whatever transport there is, rejects what
      was unsettled, and schedules a reconnect if one is desired. */
  lemma HelloDecides(evs: seq<Event>, a: nat)
    requires HelloDue(Run(START, evs), a)
    ensures var s := Run(START, evs); var t := Step(s, HelloSeen(a));
      if s.c.promises[s.attempts[a].hello] == [Acked]
      then t == s.(c := s.c.(connected := true, reconnectDelay := 250), attempts := s.attempts[a := Ended(true)])
      else
        && t.attempts == s.attempts[a := Ended(false)] && t.c.transport == None && !t.c.connected
        && Emptied(s.c, t.c, HelloFailed)
        && (t.c.reconnectTimer.Some? <==> s.c.desired || s.c.reconnectTimer.Some?)
  {
    ReachableInv(evs);
    HelloDecidesHere(Run(START, evs), a);
  }

  lemma HelloDecidesHere(s: Sys, a: nat)
    requires Inv(s) && HelloDue(s, a)
    ensures var t := Step(s, HelloSeen(a));
      if s.c.promises[s.attempts[a].hello] == [Acked]
      then t == s.(c := s.c.(connected := true, reconnectDelay := 250), attempts := s.attempts[a := Ended(true)])
      else
        && t.attempts == s.attempts[a := Ended(false)] && t.c.transport == None && !t.c.connected
        && Emptied(s.c, t.c, HelloFailed)
        && (t.c.reconnectTimer.Some? <==> s.c.desired || s.c.reconnectTimer.Some?)
  {
    assert |s.c.promises[s.attempts[a].hello]| == 1;
    ClosingMeans(s.c, HelloFailed);
    ScheduleMeans(CloseCurrent(s.c, HelloFailed));
  }

  /** A chunk on another transport is ignored. One that cannot be decoded, or whose first frame is no acknowledgement
      while no hello waits, is treated as the loss of the transport. */
  lemma UnreadableChunkCloses(s: Sys, transport: Transport, frames: Option<seq<Frame>>)
    ensures s.c.transport != Some(transport) ==> Step(s, Data(transport, frames)) == s
    ensures s.c.transport == Some(transport) && frames == None ==>
      Step(s, Data(transport, frames)) == Step(s, Closed(transport))
    ensures s.c.transport == Some(transport) && frames.Some? && frames.value != [] && s.c.hello.None? ==>
      frames.value[0].EventAck? || Step(s, Data(transport, frames)) == Step(s, Closed(transport))
  {}

  predicate Rung(s: Sys, t: Sys, pid: nat, id: Uuid) {
    && t.c.reconnectTimer == None && t.c.pending == s.c.pending
    && if s.c.desired && s.c.transport == None && s.c.connecting == None
       then t.c.transport == Some(s.nextTransport) && t.attempts == s.attempts + [Greeting(s.nextTransport, id)]
         && t.calls == s.calls[pid := Awaiting(|s.attempts|, true)]
       else t.c.transport == s.c.transport && t.attempts == s.attempts && t.calls == s.calls
  }

  /** The reconnect alarm opens a transport exactly if a connection is desired and there is none, nor one being made. */
  lemma ReconnectRings(evs: seq<Event>, pid: nat, id: Uuid)
    requires Run(START, evs).c.reconnectTimer.Some? && pid !in Run(START, evs).calls && id !in Run(START, evs).ids
    ensures var s := Run(START, evs);
      Rung(s, Step(s, Alarmed(s.c.reconnectTimer.value, pid, Makes(id))), pid, id)
  {
    ReachableInv(evs);
    RingsHere(Run(START, evs), pid, id);
  }

  lemma RingsHere(s: Sys, pid: nat, id: Uuid)
    requires TimersOk(s.c) && s.c.reconnectTimer.Some? && pid !in s.calls && id !in s.ids
    ensures Rung(s, Step(s, Alarmed(s.c.reconnectTimer.value, pid, Makes(id))), pid, id)
  {
    assert s.c.reconnectTimer.value in s.c.timers && s.c.timers[s.c.reconnectTimer.value] == ReconnectAlarm;
    AlarmedIsRing(s, s.c.reconnectTimer.value, pid, Makes(id));
    RingOpens(s, s.c.reconnectTimer.value, pid, id);
  }

  lemma RingOpens(s: Sys, timer: Timer, pid: nat, id: Uuid)
    requires timer in s.c.timers && s.c.timers[timer] == ReconnectAlarm
    ensures Rung(s, Ring(s, timer, pid, Makes(id)), pid, id)
  {
    var fired := s.(c := s.c.(timers := s.c.timers - {timer}, reconnectTimer := None));
    if s.c.desired && s.c.transport == None && s.c.connecting == None { OpensNext(fired, id); }
  }

  lemma OpensNext(s: Sys, id: Uuid)
    requires s.c.desired && s.c.transport == None && s.c.connecting == None
    ensures CallFor(s) == Awaiting(|s.attempts|, true)
    ensures var t := EnsureConnected(s, Makes(id));
      && t.c.transport == Some(s.nextTransport) && t.attempts == s.attempts + [Greeting(s.nextTransport, id)]
      && t.c.reconnectTimer == s.c.reconnectTimer && t.c.pending == s.c.pending
  {}

  /** The hello is written when the transport connects, exactly if both are still waited for; a write that throws is
      treated as the loss of the transport. */
  lemma HelloIsWritten(s: Sys, a: nat)
    requires a < |s.attempts| && s.attempts[a].Greeting?
    ensures var transport, id := s.attempts[a].transport, s.attempts[a].hello;
      if s.c.transport == Some(transport) && s.c.hello.Some? && s.c.hello.value.requestId == id
      then Step(s, Connect(a, false)) == s.(written := s.written + [HelloFrame(transport, id)])
        && Step(s, Connect(a, true)) == Step(s, Closed(transport))
      else Step(s, Connect(a, false)) == s && Step(s, Connect(a, true)) == s
  {}

  /** A call that awaited an attempt gets the transport exactly if the attempt succeeded and the transport is still
      there; an emit call fails otherwise. */
  lemma CallGoesOn(s: Sys, pid: nat, k: nat, call: Call)
    requires call.Awaiting? && call.attempt < |s.attempts| && s.attempts[call.attempt].Ended?
    ensures var c := if call.mine && s.c.connecting == Some(call.attempt) then s.c.(connecting := None) else s.c;
      var has := s.attempts[call.attempt].ok && s.c.transport.Some? && s.c.connected;
      && (pid in s.calls && s.calls[pid] == call ==>
            Step(s, ResumeCall(pid)) ==
              s.(c := c, calls := s.calls[pid := if has then HasTransport(s.c.transport.value) else Returned]))
      && (k < |s.emits| && s.emits[k].phase == Connecting(call) ==>
            Step(s, ResumeEmit(k)) ==
              s.(c := c, emits := s.emits[k := s.emits[k].(
                   phase := if has then Connecting(HasTransport(s.c.transport.value)) else Settled(false))]))
  {}

  // From a start to a connection.

  ghost function Greeted(s: Sys, pid: nat, id: Uuid): Sys {
    Step(Step(s, StartCall(pid, Makes(id))), Connect(|s.attempts|, false))
  }

  ghost function Connected(s: Sys, pid: nat, id: Uuid): Sys {
    var acked := Step(Greeted(s, pid, id), Data(s.nextTransport, Some([HelloAck(id)])));
    Step(Step(acked, HelloSeen(|s.attempts|)), ResumeCall(pid))
  }

  lemma StartGreets(s: Sys, pid: nat, id: Uuid)
    requires pid !in s.calls && id !in s.ids && s.c.transport == None && s.c.connecting == None
    ensures var t := Greeted(s, pid, id);
      && t.c == Establish(s.c.(desired := true), s.nextTransport, id).(connecting := Some(|s.attempts|))
      && t.attempts == s.attempts + [Greeting(s.nextTransport, id)]
      && t.calls == s.calls[pid := Awaiting(|s.attempts|, true)]
      && t.written == s.written + [HelloFrame(s.nextTransport, id)]
  {}

  lemma AckIsTaken(c: State, transport: Transport, id: Uuid)
    requires c.transport == Some(transport) && c.hello.Some? && c.hello.value.requestId == id
    requires id in c.promises && c.promises[id] == []
    ensures HandleData(c, transport, Some([HelloAck(id)])) == SettleHello(c, Acked)
    ensures var d := SettleHello(c, Acked);
      && d.hello == None && d.promises == c.promises[id := [Acked]] && d.pending == c.pending
      && d.transport == c.transport && d.connecting == c.connecting && d.desired == c.desired
  {
    var frames := [HelloAck(id)];
    assert frames[1..] == [];
    assert HandleFrames(c, transport, frames) == HandleFrames(SettleHello(c, Acked), transport, []);
    assert [] + [Acked] == [Acked];
  }

  lemma ConnectedCallHasTransport(s: Sys, a: nat, pid: nat)
    requires a < |s.attempts| && s.attempts[a].Greeting? && s.attempts[a].hello in s.c.promises
    requires s.c.promises[s.attempts[a].hello] == [Acked] && s.c.transport.Some? && s.c.connecting == Some(a)
    requires pid in s.calls && s.calls[pid] == Awaiting(a, true)
    ensures var t := Step(Step(s, HelloSeen(a)), ResumeCall(pid));
      && t.c == s.c.(connected := true, reconnectDelay := 250, connecting := None) && t.written == s.written
      && t.calls == s.calls[pid := HasTransport(s.c.transport.value)]
  {
    HelloIsSeen(s, a);
    var t := Step(s, HelloSeen(a));
    assert Ready(t, t.calls[pid]);
  }

  lemma ChunkIsHandled(s: Sys, transport: Transport, frames: Option<seq<Frame>>)
    ensures Step(s, Data(transport, frames)) == s.(c := HandleData(s.c, transport, frames))
  {}

  lemma HelloIsSeen(s: Sys, a: nat)
    requires a < |s.attempts| && s.attempts[a].Greeting? && s.attempts[a].hello in s.c.promises
    requires s.c.promises[s.attempts[a].hello] == [Acked]
    ensures Step(s, HelloSeen(a))
      == s.(c := s.c.(connected := true, reconnectDelay := 250), attempts := s.attempts[a := Ended(true)])
  {}

  /** In every reachable state without a transport or an attempt, a start whose hello is written and acknowledged ends
      in a connected session on the new transport, and the starting call has it. */
  lemma StartConnects(evs: seq<Event>, pid: nat, id: Uuid)
    requires var s := Run(START, evs);
      pid !in s.calls && id !in s.ids && s.c.transport == None && s.c.connecting == None
    ensures var s := Run(START, evs); var t := Connected(s, pid, id);
      && t.c.connected && t.c.desired && t.c.transport == Some(s.nextTransport) && t.c.connecting == None
      && t.c.hello == None && t.c.reconnectDelay == 250 && t.c.pending == s.c.pending
      && t.written == s.written + [HelloFrame(s.nextTransport, id)]
      && pid in t.calls && t.calls[pid] == HasTransport(s.nextTransport)
  {
    var s := Run(START, evs);
    assert id !in s.c.promises by { ReachableInv(evs); }
    StartGreets(s, pid, id);
    var g := Greeted(s, pid, id);
    AckIsTaken(g.c, s.nextTransport, id);
    ChunkIsHandled(g, s.nextTransport, Some([HelloAck(id)]));
    var r := Step(g, Data(s.nextTransport, Some([HelloAck(id)])));
    ConnectedCallHasTransport(r, |s.attempts|, pid);
  }

  // From an emit call to its result.

  /** In every state with the invariant, a call of emit takes the next number, which counts the calls from one, and
      queues behind the call before it. */
  lemma EmitTakesNextNumber(s: Sys)
    requires Inv(s)
    ensures forall k :: 0 <= k < |s.emits| ==> s.emits[k].sequenceNo == k + 1
    ensures var t := Step(s, EmitCall);
      && t.emits == s.emits + [Emit(|s.emits| + 1, if s.emits == [] then None else Some(|s.emits| - 1), Queued)]
      && t.c == s.c.(nextSequence := |s.emits| + 2) && t.written == s.written && t.ids == s.ids
  {
    EmitQueues(s);
  }

  lemma EmitQueues(s: Sys)
    requires ChainOk(s)
    ensures var t := Step(s, EmitCall);
      && t.emits == s.emits + [Emit(|s.emits| + 1, if s.emits == [] then None else Some(|s.emits| - 1), Queued)]
      && t.c == s.c.(nextSequence := |s.emits| + 2) && t.written == s.written && t.ids == s.ids
  {}

  /** The first call in the queue begins: it fails at once if the session is stopped, and has the transport if the
      session is connected. */
  lemma EmitBegins(s: Sys, k: nat)
    requires k < |s.emits| && s.emits[k].phase == Queued
    requires s.emits[k].after.Some? ==> IsSettled(s, s.emits[k].after.value)
    ensures !s.c.desired ==> Step(s, BeginEmit(k, Throws)) == SetPhase(s, k, Settled(false))
    ensures s.c.desired && s.c.transport.Some? && s.c.connected ==>
      Step(s, BeginEmit(k, Throws)) == SetPhase(s, k, Connecting(HasTransport(s.c.transport.value)))
  {}

  /** The event is written on the transport the call has, under its own number; if the write throws, nothing is. */
  lemma EmitWrites(s: Sys, k: nat, id: Uuid, throws: bool)
    requires k < |s.emits| && s.emits[k].phase.Connecting? && s.emits[k].phase.call.HasTransport? && id !in s.ids
    requires StateOk(s.c) && id !in s.c.promises
    ensures var t := Step(s, Write(k, id, throws));
      && t.emits == s.emits[k := s.emits[k].(phase := Sent(id))]
      && t.written ==
        (if throws then s.written
         else s.written + [EventFrame(s.emits[k].phase.call.transport, id, s.emits[k].sequenceNo)])
      && t.c.promises == s.c.promises[id := if throws then [Rejected(WriteFailed)] else []]
      && t.c.transport == s.c.transport && t.c.hello == s.c.hello && (id in t.c.pending <==> !throws)
  {
    WriteMeans(s.c, id, throws);
  }

  /** The call settles with the result of its event. */
  lemma EmitSettles(s: Sys, k: nat)
    requires k < |s.emits| && s.emits[k].phase.Sent? && s.emits[k].phase.requestId in s.c.promises
    requires |s.c.promises[s.emits[k].phase.requestId]| == 1
    ensures Step(s, EmitSeen(k)) == SetPhase(s, k, Settled(s.c.promises[s.emits[k].phase.requestId] == [Acked]))
  {}

  ghost function Sending(s: Sys, k: nat, id: Uuid): Sys {
    Step(Step(Step(s, EmitCall), BeginEmit(k, Throws)), Write(k, id, false))
  }

  ghost function Emitted(s: Sys, k: nat, id: Uuid, transport: Transport): Sys {
    Step(Step(Sending(s, k, id), Data(transport, Some([EventAck(id)]))), EmitSeen(k))
  }

  /** In every state with the invariant (so in every reachable one) that is connected and in which all earlier emit
      calls have settled, an emit call whose event is acknowledged writes it on the transport under the next number and
      succeeds. */
  lemma EmitSucceeds(s: Sys, id: Uuid, transport: Transport)
    requires Inv(s) && forall k :: 0 <= k < |s.emits| ==> s.emits[k].phase.Settled?
    requires s.c.desired && s.c.connected && s.c.transport == Some(transport) && s.c.hello == None && id !in s.ids
    ensures var k := |s.emits|; var t := Emitted(s, k, id, transport);
      && k < |t.emits| && t.emits[k].sequenceNo == k + 1 && t.emits[k].phase == Settled(true)
      && t.written == s.written + [EventFrame(transport, id, k + 1)] && t.c.pending == map[]
  {
    NothingPending(s);
    UnusedIsNotPromised(s, id);
    EmitIsSent(s, id, transport);
    EmitIsAcked(Sending(s, |s.emits|, id), |s.emits|, id, transport);
  }

  lemma UnusedIsNotPromised(s: Sys, id: Uuid)
    requires OwnersOk(s) && id !in s.ids
    ensures id !in s.c.promises
  {}

  lemma EmitIsSent(s: Sys, id: Uuid, transport: Transport)
    requires s.c.desired && s.c.connected && s.c.transport == Some(transport) && s.c.hello == None && id !in s.ids
    requires StateOk(s.c) && ChainOk(s) && s.c.pending == map[] && id !in s.c.promises
    requires forall k :: 0 <= k < |s.emits| ==> s.emits[k].phase.Settled?
    ensures var k := |s.emits|; var t := Sending(s, k, id);
      && StateOk(t.c) && t.c.transport == Some(transport) && t.c.hello == None && t.c.pending.Keys == {id}
      && k < |t.emits| && t.emits[k].sequenceNo == k + 1 && t.emits[k].phase == Sent(id)
      && t.written == s.written + [EventFrame(transport, id, k + 1)]
  {
    var k := |s.emits|;
    EmitQueues(s);
    var queued := Step(s, EmitCall);
    EmitBegins(queued, k);
    NumberedKeeps(s.c, |s.emits| + 2);
    var begun := Step(queued, BeginEmit(k, Throws));
    EmitWrites(begun, k, id, false);
    WriteKeeps(begun.c, id, false);
    OnePending(begun.c, id);
  }

  lemma NumberedKeeps(c: State, next: nat)
    requires StateOk(c)
    ensures StateOk(c.(nextSequence := next))
  {}

  lemma OnePending(c: State, id: Uuid)
    requires c.pending == map[]
    ensures WriteEvent(c, id, false).pending.Keys == {id}
  {}

  lemma EmitIsAcked(s: Sys, k: nat, id: Uuid, transport: Transport)
    requires StateOk(s.c) && s.c.transport == Some(transport) && s.c.hello == None && s.c.pending.Keys == {id}
    requires k < |s.emits| && s.emits[k].phase == Sent(id)
    ensures var t := Step(Step(s, Data(transport, Some([EventAck(id)]))), EmitSeen(k));
      && t.emits == s.emits[k := s.emits[k].(phase := Settled(true))]
      && t.written == s.written && t.c.pending == map[]
  {
    AckOfOne(s.c, transport, id);
    var t := Step(s, Data(transport, Some([EventAck(id)])));
    ChunkIsHandled(s, transport, Some([EventAck(id)]));
    EmitSettles(t, k);
  }

  lemma NothingPending(s: Sys)
    requires OwnersOk(s) && forall k :: 0 <= k < |s.emits| ==> s.emits[k].phase.Settled?
    ensures s.c.pending == map[]
  {
    forall id ensures id !in s.c.pending {
      if id in s.c.pending { assert false; }
    }
  }

  lemma AckOfOne(c: State, transport: Transport, id: Uuid)
    requires StateOk(c) && c.transport == Some(transport) && c.hello == None && id in c.pending
    ensures var d := HandleData(c, transport, Some([EventAck(id)]));
      d.pending == c.pending - {id} && d.promises == c.promises[id := [Acked]]
  {
    var frames := [EventAck(id)];
    assert frames[1..] == [];
    assert HandleFrames(c, transport, frames) == HandleFrames(SettleEvent(c, id, Acked), transport, []);
    assert c.promises[id] == [] && [] + [Acked] == [Acked];
  }
}
