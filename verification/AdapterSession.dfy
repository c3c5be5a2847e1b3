/** The session object itself: every method and callback that runs without interruption, updating fields in place. */
module AdapterSession {
  import opened Wrappers
  import opened Domain
  import opened Session

  lemma RejectOneMore(c: State, ids: set<Uuid>, id: Uuid, reason: Reason)
    requires id in c.pending && id !in ids && c.pending.Keys <= c.promises.Keys
    ensures RejectThese(c, ids + {id}, reason) == SettleEvent(RejectThese(c, ids, reason), id, Rejected(reason))
  {
    assert TimersOf(c.pending, ids + {id}) == TimersOf(c.pending, ids) + {c.pending[id]};
    var t := RejectThese(c, ids, reason);
    assert c.pending - (ids + {id}) == t.pending - {id};
    assert TellAll(c.promises, ids + {id}, Rejected(reason)) == Told(t.promises, id, Rejected(reason));
  }

  lemma RejectNone(c: State, reason: Reason)
    ensures RejectThese(c, {}, reason) == c
  {
    assert TimersOf(c.pending, {}) == {} && TellAll(c.promises, {}, Rejected(reason)) == c.promises;
    assert c.timers - {} == c.timers && c.pending - {} == c.pending;
  }

  /** Promises are settled through `promises`; `timers` is the runtime's table of timers that are set. */
  class VscodeAdapterSession {
    var pending: map<Uuid, Timer>
    var transport: Option<Transport>
    var connecting: Option<nat>
    var hello: Option<PendingHello>
    var desired: bool
    var connected: bool
    var nextSequence: nat
    var reconnectDelay: nat
    var reconnectTimer: Option<Timer>
    var timers: map<Timer, Alarm>
    var nextTimer: Timer
    var promises: map<Uuid, seq<Outcome>>

    ghost function View(): State
      reads this
    {
      State(pending, transport, connecting, hello, desired, connected, nextSequence, reconnectDelay, reconnectTimer,
            timers, nextTimer, promises)
    }

    /** Every pending event has a promise to settle. */
    ghost predicate Valid()
      reads this
    {
      pending.Keys <= promises.Keys
    }

    /** The session's invariant: one outcome per settled promise, one timer per unsettled one. */
    ghost predicate Consistent()
      reads this
    {
      StateOk(View())
    }

    constructor ()
      ensures Consistent() && Valid() && View() == NEW
    {
      pending, transport, connecting, hello, desired, connected := map[], None, None, None, false, false;
      nextSequence, reconnectDelay, reconnectTimer, timers, nextTimer := 1, FIRST_DELAY, None, map[], 0;
      promises := map[];
    }

    method SetTimer(alarm: Alarm) returns (timer: Timer)
      modifies `timers, `nextTimer
      ensures timer == old(nextTimer) && nextTimer == timer + 1 && timers == old(timers)[timer := alarm]
    {
      timer := nextTimer;
      timers, nextTimer := timers[timer := alarm], nextTimer + 1;
    }

    /** Settles a promise. */
    method Settle(id: Uuid, outcome: Outcome)
      modifies `promises
      ensures promises == Told(old(promises), id, outcome)
    {
      promises := promises[id := (if id in promises then promises[id] else []) + [outcome]];
    }

    /** The hello field is emptied before its promise is settled. */
    method FinishHello(outcome: Outcome)
      requires Valid()
      modifies `hello, `timers, `promises
      ensures Valid() && View() == SettleHello(old(View()), outcome)
    {
      var was := hello;
      hello := None;
      if was.Some? {
        timers := timers - {was.value.timer};
        Settle(was.value.requestId, outcome);
      }
    }

    method FinishEvent(id: Uuid, outcome: Outcome)
      requires Valid() && id in pending
      modifies `pending, `timers, `promises
      ensures Valid() && View() == SettleEvent(old(View()), id, outcome)
    {
      var timer := pending[id];
      pending := pending - {id};
      timers := timers - {timer};
      Settle(id, outcome);
    }

    method CloseCurrent(reason: Reason)
      requires Valid()
      modifies this
      ensures Valid() && View() == Session.CloseCurrent(old(View()), reason)
      ensures old(Consistent()) ==>
        Consistent() && Emptied(old(View()), View(), reason) && transport.None? && !connected
    {
      if StateOk(View()) { ClosingMeans(View(), reason); }
      transport, connected := None, false;
      FinishHello(Rejected(reason));
      ghost var start := View();
      ghost var gone: set<Uuid> := {};
      RejectNone(start, reason);
      while pending.Keys != {}
        invariant Valid() && gone <= start.pending.Keys && View() == RejectThese(start, gone, reason)
        decreases pending.Keys
      {
        var id :| id in pending.Keys;
        RejectOneMore(start, gone, id, reason);
        FinishEvent(id, Rejected(reason));
        gone := gone + {id};
      }
      assert gone == start.pending.Keys;
    }

    method ScheduleReconnect()
      requires Valid()
      modifies `reconnectDelay, `reconnectTimer, `timers, `nextTimer
      ensures Valid() && View() == Session.ScheduleReconnect(old(View()))
      ensures old(Consistent()) ==>
        && Consistent() && ReconnectAlarmIs(View(), reconnectTimer)
        && (forall t <- old(timers) :: t in timers && timers[t] == old(timers)[t])
        && (reconnectTimer.Some? <==> desired || old(reconnectTimer).Some?)
        && reconnectDelay ==
          (if !desired || old(reconnectTimer).Some? then old(reconnectDelay)
           else if old(reconnectDelay) <= 15_000 then 2 * old(reconnectDelay) else 30_000)
    {
      if StateOk(View()) { ScheduleMeans(View()); }
      if !desired || reconnectTimer.Some? { return; }
      reconnectDelay := Min(reconnectDelay * 2, LAST_DELAY);
      var timer := SetTimer(ReconnectAlarm);
      reconnectTimer := Some(timer);
    }

    method HandleClose(from: Transport)
      requires Valid()
      modifies this
      ensures Valid() && View() == Session.HandleClose(old(View()), from)
      ensures old(transport) != Some(from) ==> View() == old(View())
      ensures old(Consistent()) && old(transport) == Some(from) ==>
        && Consistent() && Emptied(old(View()), View(), Disconnected) && transport.None? && !connected
        && ReconnectAlarmIs(View(), reconnectTimer) && (forall t <- timers :: timers[t].ReconnectAlarm?)
        && (reconnectTimer.Some? <==> desired || old(reconnectTimer).Some?)
    {
      if StateOk(View()) { HandleCloseMeans(View(), from); }
      if transport != Some(from) { return; }
      CloseCurrent(Disconnected);
      ScheduleReconnect();
    }

    method Stop()
      requires Valid()
      modifies this
      ensures Valid() && View() == Session.Stop(old(View()))
      ensures old(Consistent()) ==>
        && Consistent() && timers == map[] && Emptied(old(View()), View(), Stopped)
        && transport.None? && !connected && !desired
    {
      if StateOk(View()) { StopMeans(View()); }
      desired := false;
      if reconnectTimer.Some? {
        timers := timers - {reconnectTimer.value};
        reconnectTimer := None;
      }
      CloseCurrent(Stopped);
    }

    /** The frames of one chunk are taken one by one; an unreadable one closes the connection and drops the rest. */
    method HandleData(from: Transport, frames: Option<seq<Frame>>)
      requires Valid()
      modifies this
      ensures Valid() && View() == Session.HandleData(old(View()), from, frames)
      ensures old(Consistent()) ==> Consistent()
    {
      if StateOk(View()) { HandleDataKeeps(View(), from, frames); }
      if transport != Some(from) { return; }
      if frames.None? {
        HandleClose(from);
        return;
      }
      var i := 0;
      while i < |frames.value|
        invariant Valid() && 0 <= i <= |frames.value|
        invariant HandleFrames(old(View()), from, frames.value) == HandleFrames(View(), from, frames.value[i..])
      {
        var frame := frames.value[i];
        assert frames.value[i..][0] == frame && frames.value[i..][1..] == frames.value[i + 1..];
        i := i + 1;
        if hello.Some? {
          FinishHello(if frame == HelloAck(hello.value.requestId) then Acked else Rejected(BadHello));
        } else if frame.EventAck? {
          if frame.requestId in pending { FinishEvent(frame.requestId, Acked); }
        } else {
          HandleClose(from);
          return;
        }
      }
    }

    /** A call of emitWorkspaceOpened takes the next number at once. */
    method TakeSequenceNo() returns (sequenceNo: nat)
      requires Valid()
      modifies `nextSequence
      ensures Valid() && sequenceNo == old(nextSequence)
      ensures View() == old(View()).(nextSequence := sequenceNo + 1)
    {
      sequenceNo := nextSequence;
      nextSequence := nextSequence + 1;
    }

    /** The promise of emitOne: the timer and the entry come before the write. */
    method SendEvent(id: Uuid, throws: bool)
      requires Valid()
      modifies `pending, `timers, `nextTimer, `promises
      ensures Valid() && View() == WriteEvent(old(View()), id, throws)
      ensures old(Consistent()) && id !in old(promises) ==>
        && Consistent() && promises == old(promises)[id := if throws then [Rejected(WriteFailed)] else []]
        && ((exists t <- timers :: timers[t] == EventAlarm(id)) <==> !throws)
        && (id in pending <==> !throws)
    {
      if StateOk(View()) && id !in promises { WriteMeans(View(), id, throws); }
      var timer := SetTimer(EventAlarm(id));
      pending, promises := pending[id := timer], promises[id := []];
      if throws { FinishEvent(id, Rejected(WriteFailed)); }
    }

    /** The callbacks of the two kinds of request timer, which are no longer set when they run. */
    method OnEventTimer(timer: Timer, id: Uuid)
      requires Valid()
      modifies `pending, `timers, `promises
      ensures Valid() && View() == EventTimeout(old(View()), timer, id)
      ensures old(Consistent()) && timer in old(timers) && old(timers)[timer] == EventAlarm(id) ==>
        && Consistent() && pending == old(pending) - {id} && timers == old(timers) - {timer}
        && promises == old(promises)[id := [Rejected(TimedOut)]]
    {
      if StateOk(View()) && timer in timers && timers[timer] == EventAlarm(id) { EventTimeoutMeans(View(), timer, id); }
      timers := timers - {timer};
      if id !in pending { return; }
      pending := pending - {id};
      Settle(id, Rejected(TimedOut));
    }

    method OnHelloTimer(timer: Timer, id: Uuid)
      requires Valid()
      modifies `hello, `timers, `promises
      ensures Valid() && View() == HelloTimeout(old(View()), timer, id)
      ensures old(Consistent()) && timer in old(timers) && old(timers)[timer] == HelloAlarm(id) ==>
        && Consistent() && hello.None? && pending == old(pending) && timers == old(timers) - {timer}
        && promises == old(promises)[id := [Rejected(TimedOut)]]
    {
      if StateOk(View()) && timer in timers && timers[timer] == HelloAlarm(id) { HelloTimeoutMeans(View(), timer, id); }
      timers := timers - {timer};
      if hello.None? || hello.value.requestId != id { return; }
      hello := None;
      Settle(id, Rejected(TimedOut));
    }
  }
}
