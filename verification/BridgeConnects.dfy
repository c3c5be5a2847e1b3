/** How the bridge gets from a call to a connection and from a request to its answer: what each step in between leads to
    (extensions/browser/src/native-bridge.ts). */
module BridgeConnects {
  import opened Wrappers
  import opened Domain
  import opened Bridge

  /** The attempt has failed and there is no port. If there was one, what was pending is rejected with it, and a
      reconnect is scheduled if one is desired. */
  predicate GaveUp(s: Sys, t: Sys, a: nat)
    requires a < |s.attempts|
  {
    && t.attempts == s.attempts[a := Ended(false)] && t.b.port == None && !t.b.ready && t.open == {}
    && (s.b.port == None ==> t.b == s.b)
    && (s.b.port.Some? ==>
          Emptied(s.b, t.b, HelloFailed) && (t.b.reconnectTimer.Some? <==> s.b.desired || s.b.reconnectTimer.Some?))
  }

  /** A hello that was answered as expected makes the bridge ready, exactly if its port is still the current one; any
      other end of the hello leaves no port, and takes back its own if that was still current. */
  lemma HelloDecides(max: nat, evs: seq<Event>, a: nat)
    requires var s := Run(START, max, evs);
      && a < |s.attempts| && s.attempts[a].Greeting? && s.attempts[a].hello in s.b.outcomes
      && s.b.outcomes[s.attempts[a].hello] != []
    ensures var s := Run(START, max, evs); var port := s.attempts[a].port; var t := Step(s, max, HelloSeen(a));
      if s.b.outcomes[s.attempts[a].hello][0].Resolved? && s.b.port == Some(port)
      then t == s.(b := s.b.(ready := true, reconnectDelay := 250), attempts := s.attempts[a := Ended(true)])
      else GaveUp(s, t, a)
  {
    ReachableInv(max, evs);
    HelloDecidesHere(Run(START, max, evs), max, a);
  }

  lemma HelloDecidesHere(s: Sys, max: nat, a: nat)
    requires StateOk(s.b, max) && PortsOk(s) && a < |s.attempts| && s.attempts[a].Greeting?
    requires s.attempts[a].hello in s.b.outcomes && s.b.outcomes[s.attempts[a].hello] != []
    ensures var port := s.attempts[a].port; var t := Step(s, max, HelloSeen(a));
      if s.b.outcomes[s.attempts[a].hello][0].Resolved? && s.b.port == Some(port)
      then t == s.(b := s.b.(ready := true, reconnectDelay := 250), attempts := s.attempts[a := Ended(true)])
      else GaveUp(s, t, a)
  {
    HelloIsSeen(s, max, a);
    if s.b.outcomes[s.attempts[a].hello][0].Rejected? || s.b.port != Some(s.attempts[a].port) {
      assert s.b.port.Some? ==> s.b.port.value == s.attempts[a].port;
      FailedAttemptMeans(s, max, a);
    }
  }

  lemma HelloIsSeen(s: Sys, max: nat, a: nat)
    requires a < |s.attempts| && s.attempts[a].Greeting?
    requires s.attempts[a].hello in s.b.outcomes && s.b.outcomes[s.attempts[a].hello] != []
    ensures Step(s, max, HelloSeen(a))
      == AttemptGoesOn(s, a, s.attempts[a].port, s.b.outcomes[s.attempts[a].hello][0])
  {}

  lemma FailedAttemptMeans(s: Sys, max: nat, a: nat)
    requires StateOk(s.b, max) && a < |s.attempts| && InFlight(s.attempts[a])
    requires (s.b.ready ==> s.b.port.Some?) && (s.b.port.Some? ==> s.b.port.value == s.attempts[a].port)
    requires s.open == (if s.b.port.Some? then {s.b.port.value} else {})
    ensures GaveUp(s, AttemptFails(s, a, s.attempts[a].port), a)
  {
    GivingUpMeans(s.b, max);
    FailedAttemptIs(s, a);
  }

  lemma FailedAttemptIs(s: Sys, a: nat)
    requires a < |s.attempts| && InFlight(s.attempts[a])
    requires s.b.port.Some? ==> s.b.port.value == s.attempts[a].port
    ensures var t := AttemptFails(s, a, s.attempts[a].port);
      && t.attempts == s.attempts[a := Ended(false)]
      && t.b == (if s.b.port.Some? then ScheduleReconnect(CloseCurrentPort(s.b, HelloFailed)) else s.b)
      && t.open == if s.b.port.Some? && t.b.port.None? then {} else s.open
  {}

  lemma GivingUpMeans(b: State, max: nat)
    requires StateOk(b, max)
    ensures var d := ScheduleReconnect(CloseCurrentPort(b, HelloFailed));
      && d.port == None && !d.ready && Emptied(b, d, HelloFailed)
      && (d.reconnectTimer.Some? <==> b.desired || b.reconnectTimer.Some?)
  {
    ClosingMeans(b, max, HelloFailed);
    ClosingEmpties(b, HelloFailed);
    ScheduleMeans(CloseCurrentPort(b, HelloFailed), max);
  }

  /** An attempt whose hello cannot be made, is too large, or is refused because too many requests are pending, ends the
      same way. */
  lemma FailedHelloGivesUp(max: nat, evs: seq<Event>, a: nat, id: Uuid)
    requires a < |Run(START, max, evs).attempts| && id !in Run(START, max, evs).ids
    ensures var s := Run(START, max, evs);
      && (s.attempts[a].AwaitingHello? ==>
            && GaveUp(s, Step(s, max, HelloThrows(a)), a)
            && GaveUp(s, Step(s, max, HelloMade(a, id, TooLarge)), a)
            && (|s.b.pending| >= max ==>
                  var t := Step(s, max, HelloMade(a, id, Posted));
                  t.b == s.b && t.attempts == s.attempts[a := Refused(s.attempts[a].port)]))
      && (s.attempts[a].Refused? ==> GaveUp(s, Step(s, max, HelloSeen(a)), a))
  {
    ReachableInv(max, evs);
    var s := Run(START, max, evs);
    if s.attempts[a].AwaitingHello? || s.attempts[a].Refused? {
      FailedAttemptGivesUp(s, max, a);
      if s.attempts[a].AwaitingHello? { UnsentHelloFails(s, max, a, id); } else { RefusedHelloFails(s, max, a); }
    }
  }

  lemma FailedAttemptGivesUp(s: Sys, max: nat, a: nat)
    requires StateOk(s.b, max) && PortsOk(s) && a < |s.attempts| && InFlight(s.attempts[a])
    ensures GaveUp(s, AttemptFails(s, a, s.attempts[a].port), a)
  {
    assert s.b.port.Some? ==> s.b.port.value == s.attempts[a].port;
    FailedAttemptMeans(s, max, a);
  }

  lemma UnsentHelloFails(s: Sys, max: nat, a: nat, id: Uuid)
    requires a < |s.attempts| && id !in s.ids && s.attempts[a].AwaitingHello?
    ensures Step(s, max, HelloThrows(a)) == AttemptFails(s, a, s.attempts[a].port)
    ensures var t := Step(s, max, HelloMade(a, id, TooLarge)); var u := AttemptFails(s, a, s.attempts[a].port);
      t.b == u.b && t.attempts == u.attempts && t.open == u.open
    ensures |s.b.pending| >= max ==>
      var t := Step(s, max, HelloMade(a, id, Posted));
      t.b == s.b && t.attempts == s.attempts[a := Refused(s.attempts[a].port)]
  {}

  lemma RefusedHelloFails(s: Sys, max: nat, a: nat)
    requires a < |s.attempts| && s.attempts[a].Refused?
    ensures Step(s, max, HelloSeen(a)) == AttemptFails(s, a, s.attempts[a].port)
  {}

  /** A reconnect rejects everything that was pending and gives up the port; the alarm is cleared. With no attempt being
      made it opens the next port. */
  lemma ReconnectReplaces(max: nat, evs: seq<Event>, pid: nat)
    requires pid !in Run(START, max, evs).calls
    ensures var s := Run(START, max, evs); var t := Step(s, max, ReconnectCall(pid, false));
      && Emptied(s.b, t.b, Replaced) && t.b.desired && !t.b.ready && t.b.reconnectTimer == None
      && (s.b.connecting.Some? ==>
            t.b.port == None && t.calls == s.calls[pid := Awaiting(s.b.connecting.value, false, None)])
      && (s.b.connecting == None ==>
            t.b.port == Some(s.nextPort) && t.calls == s.calls[pid := Awaiting(|s.attempts|, true, None)])
  {
    ReachableInv(max, evs);
    var s := Run(START, max, evs);
    ReconnectEmpties(s, max, pid, false);
    ReconnectOpens(s, max, pid);
  }

  lemma ReconnectOpens(s: Sys, max: nat, pid: nat)
    requires pid !in s.calls
    ensures var t := Step(s, max, ReconnectCall(pid, false));
      && t.b.desired && !t.b.ready && t.b.reconnectTimer == None
      && (s.b.connecting.Some? ==>
            t.b.port == None && t.calls == s.calls[pid := Awaiting(s.b.connecting.value, false, None)])
      && (s.b.connecting == None ==>
            t.b.port == Some(s.nextPort) && t.calls == s.calls[pid := Awaiting(|s.attempts|, true, None)])
  {}

  /** A call that awaited an attempt gets the port exactly if the attempt succeeded and the port is still there. */
  lemma CallGoesOn(s: Sys, max: nat, pid: nat)
    requires pid in s.calls && s.calls[pid].Awaiting? && s.calls[pid].attempt < |s.attempts|
    requires s.attempts[s.calls[pid].attempt].Ended?
    ensures var call := s.calls[pid]; var t := Step(s, max, Resume(pid));
      && t.calls == s.calls[pid :=
           if s.attempts[call.attempt].ok && s.b.port.Some? && s.b.ready then HasPort(s.b.port.value, call.request)
           else Returned]
      && t.b == if call.mine && s.b.connecting == Some(call.attempt) then s.b.(connecting := None) else s.b
  {}

  /** With nothing connected and nothing being connected, a call opens the next port and waits for its hello; if no port
      can be created it waits for a failed attempt, and a reconnect is scheduled if one is desired. */
  lemma CallOpensPort(s: Sys, max: nat, pid: nat, request: Option<Kind>, portFails: bool)
    requires StateOk(s.b, max) && s.b.port == None && s.b.connecting == None
    ensures var t := EnsureConnected(s, pid, request, portFails);
      && t.calls == s.calls[pid := Awaiting(|s.attempts|, true, request)] && t.b.connecting == Some(|s.attempts|)
      && t.attempts == s.attempts + [if portFails then Ended(false) else AwaitingHello(s.nextPort)]
      && t.b.port == (if portFails then None else Some(s.nextPort))
      && t.open == (if portFails then s.open else s.open + {s.nextPort})
      && t.b.pending == s.b.pending && t.b.outcomes == s.b.outcomes && t.b.desired == s.b.desired && !t.b.ready
      && t.b.reconnectTimer.Some? == (s.b.reconnectTimer.Some? || (portFails && s.b.desired))
  {
    ScheduleMeans(s.b, max);
  }

  /** While the bridge is ready a call has the port at once; while an attempt is being made it waits for that one. */
  lemma CallWaitsOrHasPort(s: Sys, pid: nat, request: Option<Kind>, portFails: bool)
    ensures s.b.port.Some? && s.b.ready ==>
      EnsureConnected(s, pid, request, portFails) == s.(calls := s.calls[pid := HasPort(s.b.port.value, request)])
    ensures !(s.b.port.Some? && s.b.ready) && s.b.connecting.Some? ==>
      EnsureConnected(s, pid, request, portFails)
        == s.(calls := s.calls[pid := Awaiting(s.b.connecting.value, false, request)])
  {}

  /** The reconnect alarm opens a new port exactly if a connection is desired and there is none, nor one being made. */
  lemma ReconnectRings(s: Sys, max: nat, pid: nat)
    requires Inv(s, max) && s.b.reconnectTimer.Some? && pid !in s.calls
    ensures var t := Step(s, max, Alarmed(s.b.reconnectTimer.value, pid, false));
      && t.b.reconnectTimer == None && t.b.pending == s.b.pending && t.b.outcomes == s.b.outcomes
      && if s.b.desired && s.b.port == None && s.b.connecting == None
         then t.b.port == Some(s.nextPort) && t.attempts == s.attempts + [AwaitingHello(s.nextPort)]
           && t.calls == s.calls[pid := Awaiting(|s.attempts|, true, None)]
         else t.b.port == s.b.port && t.attempts == s.attempts && t.calls == s.calls
  {
    var timer := s.b.reconnectTimer.value;
    assert timer in s.b.timers && s.b.timers[timer] == ReconnectAlarm;
    AlarmedIsRing(s, max, timer, pid, false);
    RingOpens(s, timer, pid);
  }

  lemma RingOpens(s: Sys, timer: Timer, pid: nat)
    requires timer in s.b.timers && s.b.timers[timer] == ReconnectAlarm
    ensures var t := Ring(s, timer, pid, false);
      && t.b.reconnectTimer == None && t.b.pending == s.b.pending && t.b.outcomes == s.b.outcomes
      && if s.b.desired && s.b.port == None && s.b.connecting == None
         then t.b.port == Some(s.nextPort) && t.attempts == s.attempts + [AwaitingHello(s.nextPort)]
           && t.calls == s.calls[pid := Awaiting(|s.attempts|, true, None)]
         else t.b.port == s.b.port && t.attempts == s.attempts && t.calls == s.calls
  {}

  // From a call to a connection.

  ghost function Greeted(s: Sys, max: nat, pid: nat, id: Uuid): Sys {
    Step(Step(s, max, StartCall(pid, false)), max, HelloMade(|s.attempts|, id, Posted))
  }

  ghost function Connected(s: Sys, max: nat, pid: nat, id: Uuid, payload: string): Sys {
    var answered := Step(Greeted(s, max, pid, id), max,
                         Receive(s.nextPort, Some(Message(id, "extension.hello.ack", payload))));
    Step(Step(answered, max, HelloSeen(|s.attempts|)), max, Resume(pid))
  }

  lemma StartGreets(s: Sys, max: nat, pid: nat, id: Uuid)
    requires Fresh(s, pid) && s.b.port == None && s.b.connecting == None && |s.b.pending| < max && id !in s.ids
    requires StateOk(s.b, max)
    ensures var t := Greeted(s, max, pid, id);
      && t.b == Enter(s.b.(desired := true, port := Some(s.nextPort), connecting := Some(|s.attempts|)), id, HELLO_ACK)
      && t.attempts == s.attempts + [Greeting(s.nextPort, id)] && t.open == s.open + {s.nextPort}
      && t.calls == s.calls[pid := Awaiting(|s.attempts|, true, None)]
  {
    var u := Step(s, max, StartCall(pid, false));
    assert u.attempts == s.attempts + [AwaitingHello(s.nextPort)];
    assert u.attempts[|s.attempts| := Greeting(s.nextPort, id)] == s.attempts + [Greeting(s.nextPort, id)];
  }

  lemma AckSettlesHello(b: State, id: Uuid, port: Port, payload: string)
    requires id !in b.pending && id !in b.outcomes && b.port == Some(port)
    ensures var m := Message(id, "extension.hello.ack", payload);
      var d := HandleMessage(Enter(b, id, HELLO_ACK), port, Some(m));
      && d.outcomes == b.outcomes[id := [Resolved(port, m)]] && d.pending == b.pending
      && d.port == b.port && d.connecting == b.connecting && d.desired == b.desired
  {
    assert b.pending[id := PendingRequest(HELLO_ACK, b.nextTimer)] - {id} == b.pending;
    var m := Message(id, "extension.hello.ack", payload);
    assert [] + [Resolved(port, m)] == [Resolved(port, m)];
    assert Verdict(port, HELLO_ACK, m) == Resolved(port, m);
  }

  /** In every reachable state without a connection or an attempt, a start whose hello is posted and acknowledged ends
      in a ready bridge on the new port, the only open one, and the starting call has that port. */
  lemma StartConnects(max: nat, evs: seq<Event>, pid: nat, id: Uuid, payload: string)
    requires var s := Run(START, max, evs);
      pid !in s.calls && s.b.port == None && s.b.connecting == None && |s.b.pending| < max && id !in s.ids
    ensures var s := Run(START, max, evs); var t := Connected(s, max, pid, id, payload);
      && t.b.ready && t.b.port == Some(s.nextPort) && t.open == {s.nextPort} && t.b.desired
      && t.b.connecting == None && t.b.reconnectDelay == 250 && t.b.pending == s.b.pending
      && pid in t.calls && t.calls[pid] == HasPort(s.nextPort, None)
  {
    ReachableInv(max, evs);
    var s := Run(START, max, evs);
    assert id !in s.b.outcomes && id !in s.b.pending && s.open == {};
    StartConnectsHere(s, max, pid, id, payload);
  }

  lemma AckIsHeard(s: Sys, max: nat, port: Port, m: Message)
    ensures Step(s, max, Receive(port, Some(m)))
      == s.(b := HandleMessage(s.b, port, Some(m)), heard := s.heard + {(port, m)})
  {}

  lemma AnsweredHelloConnects(s: Sys, max: nat, a: nat, pid: nat)
    requires a < |s.attempts| && s.attempts[a].Greeting? && s.attempts[a].hello in s.b.outcomes
    requires |s.b.outcomes[s.attempts[a].hello]| == 1 && s.b.outcomes[s.attempts[a].hello][0].Resolved?
    requires s.b.port == Some(s.attempts[a].port) && s.b.connecting == Some(a)
    requires pid in s.calls && s.calls[pid] == Awaiting(a, true, None)
    ensures var t := Step(Step(s, max, HelloSeen(a)), max, Resume(pid));
      && t.b == s.b.(ready := true, reconnectDelay := 250, connecting := None) && t.open == s.open
      && t.calls == s.calls[pid := HasPort(s.attempts[a].port, None)]
  {
    HelloIsSeen(s, max, a);
    CallGoesOn(Step(s, max, HelloSeen(a)), max, pid);
  }

  lemma StartConnectsHere(s: Sys, max: nat, pid: nat, id: Uuid, payload: string)
    requires StateOk(s.b, max) && s.open == {} && id !in s.b.outcomes && id !in s.b.pending
    requires Fresh(s, pid) && s.b.port == None && s.b.connecting == None && |s.b.pending| < max && id !in s.ids
    ensures var t := Connected(s, max, pid, id, payload);
      && t.b.ready && t.b.port == Some(s.nextPort) && t.open == {s.nextPort} && t.b.desired
      && t.b.connecting == None && t.b.reconnectDelay == 250 && t.b.pending == s.b.pending
      && pid in t.calls && t.calls[pid] == HasPort(s.nextPort, None)
  {
    var a, port, m := |s.attempts|, s.nextPort, Message(id, "extension.hello.ack", payload);
    StartGreets(s, max, pid, id);
    AckSettlesHello(s.b.(desired := true, port := Some(port), connecting := Some(a)), id, port, payload);
    var g := Greeted(s, max, pid, id);
    AckIsHeard(g, max, port, m);
    AnsweredHelloConnects(Step(g, max, Receive(port, Some(m))), max, a, pid);
  }

  // From a request to its answer.

  ghost function Asked(s: Sys, max: nat, pid: nat, id: Uuid, expected: Kind): Sys {
    Step(Step(s, max, RequestCall(pid, expected, false)), max, Submit(pid, id, Posted))
  }

  /** While the bridge is ready and below its maximum, a request that is answered on its port with the type it expects
      is resolved with that message, and everything else is as it was. */
  lemma RequestIsAnswered(max: nat, evs: seq<Event>, pid: nat, id: Uuid, m: Message, expected: Kind)
    requires var s := Run(START, max, evs); pid !in s.calls && s.b.ready && |s.b.pending| < max && id !in s.ids
    requires m.requestId == id && m.kind == expected
    requires expected != "browser.action.execute" && expected != "integration.error"
    ensures var s := Run(START, max, evs);
      && s.b.port.Some?
      && var t := Step(Asked(s, max, pid, id, expected), max, Receive(s.b.port.value, Some(m)));
        && t.b.outcomes == s.b.outcomes[id := [Resolved(s.b.port.value, m)]]
        && t.b.pending == s.b.pending && t.b.timers == s.b.timers && t.b.ready && t.b.port == s.b.port
  {
    ReachableInv(max, evs);
    var s := Run(START, max, evs);
    assert id !in s.b.outcomes && id !in s.b.pending && s.b.nextTimer !in s.b.timers && s.b.port.Some?;
    RequestIsAsked(s, max, pid, id, expected);
    AckIsHeard(Asked(s, max, pid, id, expected), max, s.b.port.value, m);
    AnswerSettles(s.b, s.b.port.value, id, m, expected);
  }

  lemma RequestIsAsked(s: Sys, max: nat, pid: nat, id: Uuid, expected: Kind)
    requires Fresh(s, pid) && s.b.port.Some? && s.b.ready && |s.b.pending| < max && id !in s.ids
    ensures Asked(s, max, pid, id, expected).b == Enter(s.b, id, expected)
  {}

  lemma AnswerSettles(b: State, port: Port, id: Uuid, m: Message, expected: Kind)
    requires b.port == Some(port) && id !in b.outcomes && id !in b.pending && b.nextTimer !in b.timers
    requires m.requestId == id && m.kind == expected && expected != ACTION_EXECUTE && expected != INTEGRATION_ERROR
    ensures var d := HandleMessage(Enter(b, id, expected), port, Some(m));
      && d.outcomes == b.outcomes[id := [Resolved(port, m)]]
      && d.pending == b.pending && d.timers == b.timers && d.ready == b.ready && d.port == b.port
  {
    assert b.pending[id := PendingRequest(expected, b.nextTimer)] - {id} == b.pending;
    assert b.timers[b.nextTimer := RequestAlarm(id)] - {b.nextTimer} == b.timers;
    assert [] + [Resolved(port, m)] == [Resolved(port, m)];
    assert Verdict(port, expected, m) == Resolved(port, m);
  }
}
