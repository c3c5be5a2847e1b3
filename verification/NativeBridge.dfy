/** The bridge object itself: every method and callback that runs without interruption, updating the fields in place. */
module NativeBridge {
  import opened Wrappers
  import opened Domain
  import opened Bridge

  lemma RejectOneMore(b: State, ids: set<Uuid>, id: Uuid, reason: Reason)
    requires id in b.pending && id !in ids && id in b.outcomes
    ensures RejectThese(b, ids + {id}, reason) == Settle(RejectThese(b, ids, reason), id, Rejected(reason))
  {
    assert TimersOf(b.pending, ids + {id}) == TimersOf(b.pending, ids) + {b.pending[id].timer};
    var t := RejectThese(b, ids, reason);
    assert b.pending - (ids + {id}) == t.pending - {id};
    assert WithRejected(b.outcomes, ids + {id}, reason) == t.outcomes[id := t.outcomes[id] + [Rejected(reason)]];
  }

  lemma RejectNone(b: State, reason: Reason)
    ensures RejectThese(b, {}, reason) == b
  {
    assert TimersOf(b.pending, {}) == {} && WithRejected(b.outcomes, {}, reason) == b.outcomes;
    assert b.timers - {} == b.timers && b.pending - {} == b.pending;
  }

  /** The object. Promises are settled through `outcomes`; `timers` is the runtime's table of timers that are set. */
  class BrowserNativeBridge {
    var pending: map<Uuid, PendingRequest>
    var port: Option<Port>
    var ready: bool
    var desired: bool
    var connecting: Option<nat>
    var reconnectDelay: nat
    var reconnectTimer: Option<Timer>
    var timers: map<Timer, Alarm>
    var nextTimer: Timer
    var outcomes: map<Uuid, seq<Outcome>>
    const maxPending: nat

    ghost function View(): State
      reads this
    {
      State(pending, port, ready, desired, connecting, reconnectDelay, reconnectTimer, timers, nextTimer, outcomes)
    }

    /** Every pending request has a promise to settle. */
    ghost predicate Valid()
      reads this
    {
      pending.Keys <= outcomes.Keys
    }

    /** The bridge's invariant: one outcome per settled promise, one timer per pending request, room for all of them. */
    ghost predicate Consistent()
      reads this
    {
      StateOk(View(), maxPending)
    }

    constructor (maxPending: nat)
      ensures Valid() && Consistent() && View() == NEW && this.maxPending == maxPending
    {
      pending, port, ready, desired, connecting := map[], None, false, false, None;
      reconnectDelay, reconnectTimer, timers, nextTimer := FIRST_DELAY, None, map[], 0;
      outcomes := map[];
      this.maxPending := maxPending;
    }

    method SetTimer(alarm: Alarm) returns (timer: Timer)
      modifies `timers, `nextTimer
      ensures timer == old(nextTimer) && nextTimer == timer + 1 && timers == old(timers)[timer := alarm]
    {
      timer := nextTimer;
      timers, nextTimer := timers[timer := alarm], nextTimer + 1;
    }

    /** The entry goes, its timer is cleared, its promise is rejected. */
    method Reject(id: Uuid, reason: Reason)
      requires Valid() && id in pending
      modifies `pending, `timers, `outcomes
      ensures Valid() && View() == Settle(old(View()), id, Rejected(reason))
    {
      var request := pending[id];
      pending := pending - {id};
      timers := timers - {request.timer};
      outcomes := outcomes[id := outcomes[id] + [Rejected(reason)]];
    }

    method RejectAll(reason: Reason)
      requires Valid()
      modifies `pending, `timers, `outcomes
      ensures Valid() && View() == Bridge.RejectAll(old(View()), reason)
    {
      ghost var start := View();
      ghost var gone: set<Uuid> := {};
      RejectNone(start, reason);
      while pending.Keys != {}
        invariant Valid() && gone <= start.pending.Keys && View() == RejectThese(start, gone, reason)
        decreases pending.Keys
      {
        var id :| id in pending.Keys;
        RejectOneMore(start, gone, id, reason);
        Reject(id, reason);
        gone := gone + {id};
      }
      assert gone == start.pending.Keys;
    }

    method CloseCurrentPort(reason: Reason)
      requires Valid()
      modifies this
      ensures Valid() && View() == Bridge.CloseCurrentPort(old(View()), reason)
      ensures old(Consistent()) ==> Consistent() && Emptied(old(View()), View(), reason) && port.None? && !ready
    {
      ghost var b := View();
      port, ready := None, false;
      RejectAll(reason);
      if StateOk(b, maxPending) { ClosingMeans(b, maxPending, reason); }
    }

    method ScheduleReconnect()
      requires Valid()
      modifies `reconnectDelay, `reconnectTimer, `timers, `nextTimer
      ensures Valid() && View() == Bridge.ScheduleReconnect(old(View()))
      ensures old(Consistent()) ==>
        && Consistent() && ReconnectAlarmIs(View(), reconnectTimer) && KeepsAlarms(old(View()), View())
        && (reconnectTimer.Some? <==> desired || old(reconnectTimer).Some?)
        && reconnectDelay ==
          (if !desired || old(reconnectTimer).Some? then old(reconnectDelay)
           else if old(reconnectDelay) <= 15_000 then 2 * old(reconnectDelay) else 30_000)
    {
      if StateOk(View(), maxPending) { ScheduleMeans(View(), maxPending); }
      if !desired || reconnectTimer.Some? { return; }
      reconnectDelay := Min(reconnectDelay * 2, LAST_DELAY);
      var timer := SetTimer(ReconnectAlarm);
      reconnectTimer := Some(timer);
    }

    method CancelReconnect()
      requires Valid()
      modifies `reconnectTimer, `timers
      ensures Valid() && View() == Bridge.CancelReconnect(old(View()))
      ensures old(Consistent()) ==> Consistent() && ReconnectAlarmIs(View(), None) && KeepsAlarms(old(View()), View())
    {
      if StateOk(View(), maxPending) { CancelMeans(View(), maxPending); }
      if reconnectTimer.Some? {
        timers := timers - {reconnectTimer.value};
        reconnectTimer := None;
      }
    }

    method Stop()
      requires Valid()
      modifies this
      ensures Valid() && View() == Bridge.Stop(old(View()))
      ensures old(Consistent()) ==>
        Consistent() && timers == map[] && Emptied(old(View()), View(), Stopped) && port.None? && !ready && !desired
    {
      if StateOk(View(), maxPending) { StopMeans(View(), maxPending); }
      desired := false;
      CancelReconnect();
      CloseCurrentPort(Stopped);
    }

    /** The timer and the entry come before the message is posted. */
    method EnterRequest(id: Uuid, expected: Kind)
      requires Valid()
      modifies `pending, `timers, `nextTimer, `outcomes
      ensures Valid() && View() == Enter(old(View()), id, expected) && id in pending
    {
      var timer := SetTimer(RequestAlarm(id));
      pending, outcomes := pending[id := PendingRequest(expected, timer)], outcomes[id := []];
    }

    method RequestOnPort(id: Uuid, expected: Kind, posting: Posting) returns (accepted: bool)
      requires Valid()
      modifies `pending, `timers, `nextTimer, `outcomes
      ensures Valid() && accepted == Accepts(old(View()), maxPending, posting)
      ensures View() == Bridge.RequestOnPort(old(View()), maxPending, id, expected, posting)
      ensures old(Consistent()) && id !in old(outcomes) ==>
        && Consistent() && (accepted <==> posting != TooLarge && |old(pending)| < maxPending)
        && (id in pending <==> accepted && posting == Posted)
        && (accepted ==> outcomes == old(outcomes)[id := if posting == Posted then [] else [Rejected(WriteFailed)]])
    {
      ghost var b := View();
      accepted := posting != TooLarge && |pending| < maxPending;
      if accepted {
        EnterRequest(id, expected);
        if posting == PostThrows { Reject(id, WriteFailed); }
      }
      if StateOk(b, maxPending) && id !in b.outcomes { RequestMeans(b, maxPending, id, expected, posting); }
    }

    /** The callback of a request's timer, which is no longer set when it runs. */
    method OnRequestTimer(timer: Timer, id: Uuid)
      requires Valid()
      modifies `pending, `timers, `outcomes
      ensures Valid() && View() == RequestTimeout(old(View()), timer, id)
      ensures old(Consistent()) && timer in old(timers) && old(timers)[timer] == RequestAlarm(id) ==>
        && Consistent() && pending == old(pending) - {id} && timers == old(timers) - {timer}
        && outcomes == old(outcomes)[id := [Rejected(TimedOut)]]
    {
      if StateOk(View(), maxPending) && timer in timers && timers[timer] == RequestAlarm(id) {
        TimeoutMeans(View(), maxPending, timer, id);
      }
      timers := timers - {timer};
      if id !in pending { return; }
      pending := pending - {id};
      outcomes := outcomes[id := outcomes[id] + [Rejected(TimedOut)]];
    }

    method HandleMessage(from: Port, raw: Option<Message>)
      requires Valid()
      modifies `pending, `timers, `outcomes
      ensures Valid() && View() == Bridge.HandleMessage(old(View()), from, raw)
      ensures old(Consistent()) ==> Consistent()
    {
      if port != Some(from) || raw.None? { return; }
      var message := raw.value;
      if message.kind == ACTION_EXECUTE || message.requestId !in pending { return; }
      ghost var b := View();
      SettlePending(message.requestId, from, message);
      if StateOk(b, maxPending) { MessageKeeps(b, maxPending, from, raw); }
    }

    /** The entry and its timer go, and the promise is settled by the type of the message. */
    method SettlePending(id: Uuid, from: Port, message: Message)
      requires Valid() && id in pending
      modifies `pending, `timers, `outcomes
      ensures Valid() && View() == Settle(old(View()), id, Verdict(from, old(pending)[id].expected, message))
    {
      var request := pending[id];
      pending := pending - {id};
      timers := timers - {request.timer};
      var settled := outcomes[id];
      if message.kind == INTEGRATION_ERROR {
        outcomes := outcomes[id := settled + [Rejected(HostRejected)]];
        return;
      }
      if message.kind != request.expected {
        outcomes := outcomes[id := settled + [Rejected(TypeMismatch)]];
        return;
      }
      outcomes := outcomes[id := settled + [Resolved(from, message)]];
    }

    method HandleDisconnect(from: Port)
      requires Valid()
      modifies this
      ensures Valid() && View() == Bridge.HandleDisconnect(old(View()), from)
      ensures old(port) != Some(from) ==> View() == old(View())
      ensures old(Consistent()) && old(port) == Some(from) ==>
        && Consistent() && Emptied(old(View()), View(), Disconnected) && port.None? && !ready
        && ReconnectAlarmIs(View(), reconnectTimer) && (forall t <- timers :: timers[t].ReconnectAlarm?)
        && (reconnectTimer.Some? <==> desired || old(reconnectTimer).Some?)
    {
      if StateOk(View(), maxPending) { DisconnectMeans(View(), maxPending, from); }
      if port != Some(from) { return; }
      port, ready := None, false;
      RejectAll(Disconnected);
      ScheduleReconnect();
    }
  }
}
