/** The adapter registry as a step system: every lock section of AdapterManager is one atomic step, and each
    register, disconnect, shutdown, execute and resolve in flight is a process (crates/fubun-core/src/adapter.rs). */
module Registry {
  import opened Wrappers
  import opened Domain
  import opened Selection

  datatype DispatchError = NotAvailable | NotCapable | TimedOut | Disconnected | ProtocolError
  datatype Body = ActionResult(code: string) | OtherBody
  datatype Response = Response(requestId: Uuid, actionId: Uuid, body: Body)
  datatype Reply = Success(code: string) | Failure(kind: DispatchError)

  datatype Pending = Pending(adapter: Adapter, token: Uuid, actionId: Uuid)

  /** A dispatch after its request has been inserted as pending. */
  datatype Call = Call(req: Requirements, adapter: Adapter, token: Uuid, requestId: Uuid, actionId: Uuid)

  datatype Outcome = Answered(reply: Reply) | Cancelled

  datatype Proc =
    | Registering(hello: Hello)
    | Replacing(replaced: Uuid)                      // inserted; the old token's requests are still to be failed
    | Disconnecting(instance: Uuid, token: Uuid)
    | Draining(removed: Uuid)                        // removed; its requests are still to be failed
    | ShuttingDown
    | DrainingAll(cleared: set<Uuid>)                // registry cleared; all requests are still to be failed
    | Selecting(req: Requirements)
    | Chosen(req: Requirements, candidate: Candidate)
    | Sending(call: Call)                            // pending, guarded; the request is not in the channel yet
    | Waiting(call: Call)                            // pending, guarded; the reply timer runs
    | Dropping(call: Call, outcome: Outcome)         // decided; the guard is still to be dropped
    | Settled(call: Call, outcome: Outcome)
    | Rejected(kind: DispatchError)                  // settled before anything was inserted
    | Resolving(response: Response)
    | Delivering(taken: Uuid, reply: Reply)          // holds the sender it took from the pending map
    | Done

  /** Where the sending half of a dispatch's oneshot channel is. */
  datatype Sender = InPending | HeldBy(pid: nat) | Sent(reply: Reply) | Dropped
  datatype Channel = Channel(owner: nat, sender: Sender)

  datatype Sys = Sys(
    connections: map<Uuid, Connection>,
    pending: map<Uuid, Pending>,
    channels: map<Uuid, Channel>,     // by request id; one for every dispatch ever inserted
    procs: map<nat, Proc>,
    tokens: set<Uuid>,                // every connection token ever issued
    heard: set<Response>)             // every response that reached resolve

  const START := Sys(map[], map[], map[], map[], {}, {})

  datatype Event =
    | Spawn(pid: nat, proc: Proc)
    | Insert(pid: nat, token: Uuid, now: Timestamp)
    | Remove(pid: nat)
    | Clear(pid: nat)
    | Drain(pid: nat)
    | Choose(pid: nat)
    | Post(pid: nat, requestId: Uuid, actionId: Uuid)
    | SendDone(pid: nat, delivered: bool)
    | Wake(pid: nat)
    | TimeOut(pid: nat)
    | Cancel(pid: nat)
    | DropGuard(pid: nat)
    | Take(pid: nat)
    | Deliver(pid: nat)
    | Touch(instance: Uuid, now: Timestamp)

  // The lock sections, on the two maps.

  predicate IsCurrent(connections: map<Uuid, Connection>, instance: Uuid, token: Uuid) {
    instance in connections && connections[instance].token == token
  }

  function WithToken(pending: map<Uuid, Pending>, token: Uuid): set<Uuid> {
    set id | id in pending && pending[id].token == token
  }

  /** Requests that are failed with Disconnected leave the map and their channels carry that reply. */
  function FailChannels(channels: map<Uuid, Channel>, ids: set<Uuid>): map<Uuid, Channel> {
    map id | id in channels :: if id in ids then channels[id].(sender := Sent(Failure(Disconnected))) else channels[id]
  }

  function FailRequests(s: Sys, ids: set<Uuid>): Sys {
    s.(pending := s.pending - ids, channels := FailChannels(s.channels, ids))
  }

  function ReplyTo(p: Pending, response: Response): Reply {
    if p.actionId != response.actionId then Failure(ProtocolError)
    else match response.body
      case ActionResult(code) => Success(code)
      case OtherBody => Failure(ProtocolError)
  }

  predicate MaySpawn(proc: Proc) {
    proc.Registering? || proc.Disconnecting? || proc.ShuttingDown? || proc.Selecting? || proc.Resolving?
  }

  function Put(s: Sys, pid: nat, proc: Proc): Sys {
    s.(procs := s.procs[pid := proc])
  }

  function InsertStep(s: Sys, pid: nat, token: Uuid, now: Timestamp): Sys
    requires pid in s.procs && s.procs[pid].Registering?
  {
    var hello := s.procs[pid].hello;
    var s' :=
      s.(connections := s.connections[hello.instanceId := Connection(token, hello, now)], tokens := s.tokens + {token});
    if hello.instanceId in s.connections then Put(s', pid, Replacing(s.connections[hello.instanceId].token))
    else Put(s', pid, Done)
  }

  function RemoveStep(s: Sys, pid: nat): Sys
    requires pid in s.procs && s.procs[pid].Disconnecting?
  {
    var p := s.procs[pid];
    if IsCurrent(s.connections, p.instance, p.token)
    then Put(s.(connections := s.connections - {p.instance}), pid, Draining(p.token))
    else Put(s, pid, Done)
  }

  function DrainStep(s: Sys, pid: nat): Sys
    requires pid in s.procs
  {
    match s.procs[pid]
    case Replacing(replaced) => Put(FailRequests(s, WithToken(s.pending, replaced)), pid, Done)
    case Draining(token) => Put(FailRequests(s, WithToken(s.pending, token)), pid, Done)
    case DrainingAll(_) => Put(FailRequests(s, s.pending.Keys), pid, Done)
    case _ => s
  }

  ghost function ChooseStep(s: Sys, pid: nat): Sys
    requires pid in s.procs && s.procs[pid].Selecting?
  {
    match Selected(s.connections, s.procs[pid].req)
    case Ok(candidate) => Put(s, pid, Chosen(s.procs[pid].req, candidate))
    case Err(Unavailable) => Put(s, pid, Rejected(NotAvailable))
    case Err(Ineligible) => Put(s, pid, Rejected(NotCapable))
  }

  /** insert_pending_if_current: the token is checked and the request inserted under the connections lock. */
  function PostStep(s: Sys, pid: nat, requestId: Uuid, actionId: Uuid): Sys
    requires pid in s.procs && s.procs[pid].Chosen?
  {
    var p := s.procs[pid];
    var who, token := p.candidate.adapter, p.candidate.token;
    if IsCurrent(s.connections, who.instanceId, token)
    then s.(pending := s.pending[requestId := Pending(who, token, actionId)],
            channels := s.channels[requestId := Channel(pid, InPending)],
            procs := s.procs[pid := Sending(Call(p.req, who, token, requestId, actionId))])
    else Put(s, pid, Rejected(Disconnected))
  }

  function DropGuardStep(s: Sys, pid: nat): Sys
    requires pid in s.procs && s.procs[pid].Dropping?
  {
    var p := s.procs[pid];
    var id := p.call.requestId;
    var s' := Put(s, pid, Settled(p.call, p.outcome));
    if id in s.pending && id in s.channels
    then s'.(pending := s.pending - {id}, channels := s.channels[id := s.channels[id].(sender := Dropped)])
    else s'
  }

  function TakeStep(s: Sys, pid: nat): Sys
    requires pid in s.procs && s.procs[pid].Resolving?
  {
    var response := s.procs[pid].response;
    var id := response.requestId;
    if id in s.pending && id in s.channels
    then s.(pending := s.pending - {id},
            channels := s.channels[id := s.channels[id].(sender := HeldBy(pid))],
            procs := s.procs[pid := Delivering(id, ReplyTo(s.pending[id], response))])
    else Put(s, pid, Done)
  }

  function DeliverStep(s: Sys, pid: nat): Sys
    requires pid in s.procs && s.procs[pid].Delivering?
  {
    var p := s.procs[pid];
    if p.taken in s.channels
    then Put(s.(channels := s.channels[p.taken := s.channels[p.taken].(sender := Sent(p.reply))]), pid, Done)
    else Put(s, pid, Done)
  }

  /** The receiver of a dispatch that waits: a reply, or an error once the sender is gone. */
  function WakeStep(s: Sys, pid: nat): Sys
    requires pid in s.procs && s.procs[pid].Waiting?
  {
    var call := s.procs[pid].call;
    if call.requestId !in s.channels then s else
      match s.channels[call.requestId].sender
      case Sent(reply) => Put(s, pid, Settled(call, Answered(reply)))
      case Dropped => Put(s, pid, Settled(call, Answered(Failure(Disconnected))))
      case _ => s
  }

  predicate Ready(s: Sys, call: Call) {
    call.requestId in s.channels && s.channels[call.requestId].sender.Sent?
  }

  ghost function Step(s: Sys, ev: Event): Sys {
    match ev
    case Spawn(pid, proc) =>
      if pid in s.procs || !MaySpawn(proc) then s else
        Put(if proc.Resolving? then s.(heard := s.heard + {proc.response}) else s, pid, proc)
    case Insert(pid, token, now) =>
      if pid in s.procs && s.procs[pid].Registering? && token !in s.tokens then InsertStep(s, pid, token, now) else s
    case Remove(pid) => if pid in s.procs && s.procs[pid].Disconnecting? then RemoveStep(s, pid) else s
    case Clear(pid) =>
      if pid in s.procs && s.procs[pid].ShuttingDown?
      then Put(s.(connections := map[]), pid, DrainingAll(set i | i in s.connections :: s.connections[i].token)) else s
    case Drain(pid) => if pid in s.procs then DrainStep(s, pid) else s
    case Choose(pid) => if pid in s.procs && s.procs[pid].Selecting? then ChooseStep(s, pid) else s
    case Post(pid, requestId, actionId) =>
      if pid in s.procs && s.procs[pid].Chosen? && requestId !in s.channels
      then PostStep(s, pid, requestId, actionId) else s
    case SendDone(pid, delivered) =>
      if pid !in s.procs || !s.procs[pid].Sending? then s
      else if delivered then Put(s, pid, Waiting(s.procs[pid].call))
      else Put(s, pid, Dropping(s.procs[pid].call, Answered(Failure(Disconnected))))
    case Wake(pid) => if pid in s.procs && s.procs[pid].Waiting? then WakeStep(s, pid) else s
    case TimeOut(pid) =>
      if pid in s.procs && s.procs[pid].Waiting? && !Ready(s, s.procs[pid].call)
      then Put(s, pid, Dropping(s.procs[pid].call, Answered(Failure(TimedOut)))) else s
    case Cancel(pid) =>
      if pid in s.procs && (s.procs[pid].Sending? || s.procs[pid].Waiting?)
      then Put(s, pid, Dropping(s.procs[pid].call, Cancelled)) else s
    case DropGuard(pid) => if pid in s.procs && s.procs[pid].Dropping? then DropGuardStep(s, pid) else s
    case Take(pid) => if pid in s.procs && s.procs[pid].Resolving? then TakeStep(s, pid) else s
    case Deliver(pid) => if pid in s.procs && s.procs[pid].Delivering? then DeliverStep(s, pid) else s
    case Touch(instance, now) =>
      if instance in s.connections
      then s.(connections := s.connections[instance := s.connections[instance].(lastSeen := now)]) else s
  }

  ghost function Run(s: Sys, evs: seq<Event>): Sys {
    if evs == [] then s else Step(Run(s, evs[..|evs| - 1]), evs[|evs| - 1])
  }

  // Connections and tokens.

  predicate ConnectionsOk(s: Sys) {
    && (forall i <- s.connections :: s.connections[i].hello.instanceId == i && s.connections[i].token in s.tokens)
    && (forall i, j ::
          i in s.connections && j in s.connections && s.connections[i].token == s.connections[j].token ==> i == j)
  }

  predicate Drains(proc: Proc, token: Uuid) {
    || (proc.Replacing? && proc.replaced == token)
    || (proc.Draining? && proc.removed == token)
    || (proc.DrainingAll? && token in proc.cleared)
  }

  predicate CurrentSomewhere(s: Sys, token: Uuid) {
    exists i :: IsCurrent(s.connections, i, token)
  }

  /** A token that is being drained was issued and is not current any more. */
  predicate DrainsOk(s: Sys) {
    forall pid, token ::
      pid in s.procs && Drains(s.procs[pid], token) ==> token in s.tokens && !CurrentSomewhere(s, token)
  }

  predicate BeingDrained(s: Sys, token: Uuid) {
    exists pid :: pid in s.procs && Drains(s.procs[pid], token)
  }

  predicate Covered(s: Sys, p: Pending) {
    IsCurrent(s.connections, p.adapter.instanceId, p.token) || BeingDrained(s, p.token)
  }

  /** Each pending request belongs to the current connection of its instance, or its token is being drained. */
  predicate PendingTokensOk(s: Sys) {
    forall id <- s.pending :: Covered(s, s.pending[id])
  }

  /** The events that change the connections map or which tokens are being drained. */
  predicate MovesTokens(ev: Event) {
    ev.Insert? || ev.Remove? || ev.Clear? || ev.Drain? || ev.Touch?
  }

  lemma OtherEventsKeepConnections(s: Sys, ev: Event)
    requires !MovesTokens(ev)
    ensures Step(s, ev).connections == s.connections && Step(s, ev).tokens == s.tokens
  {}

  predicate Drainer(proc: Proc) { proc.Replacing? || proc.Draining? || proc.DrainingAll? }

  lemma OtherEventsKeepDrains(s: Sys, ev: Event, pid: nat, token: Uuid)
    requires !MovesTokens(ev)
    ensures pid in Step(s, ev).procs && Drains(Step(s, ev).procs[pid], token) <==>
      pid in s.procs && Drains(s.procs[pid], token)
  {
    if pid in s.procs && Drainer(s.procs[pid]) { DrainersWait(s, ev, pid); }
  }

  /** A process that still has to drain is touched by no other event. */
  lemma DrainersWait(s: Sys, ev: Event, pid: nat)
    requires !MovesTokens(ev) && pid in s.procs && Drainer(s.procs[pid])
    ensures pid in Step(s, ev).procs && Step(s, ev).procs[pid] == s.procs[pid]
  {}

  lemma OtherEventsKeepTokens(s: Sys, ev: Event)
    requires !MovesTokens(ev)
    ensures Step(s, ev).connections == s.connections && Step(s, ev).tokens == s.tokens
    ensures forall token :: BeingDrained(Step(s, ev), token) <==> BeingDrained(s, token)
    ensures DrainsOk(s) ==> DrainsOk(Step(s, ev))
  {
    var t := Step(s, ev);
    OtherEventsKeepConnections(s, ev);
    forall token ensures CurrentSomewhere(t, token) <==> CurrentSomewhere(s, token) {}
    forall pid, token
      ensures pid in t.procs && Drains(t.procs[pid], token) <==> pid in s.procs && Drains(s.procs[pid], token)
    {
      OtherEventsKeepDrains(s, ev, pid, token);
    }
  }

  lemma MovesKeepConnections(s: Sys, ev: Event)
    requires ConnectionsOk(s) && (ev.Insert? || ev.Remove?)
    ensures ConnectionsOk(Step(s, ev))
  {}

  lemma MovesKeepDrains(s: Sys, ev: Event)
    requires ConnectionsOk(s) && DrainsOk(s) && (ev.Insert? || ev.Remove?)
    ensures DrainsOk(Step(s, ev))
  {
    var t := Step(s, ev);
    if t != s {
      forall p, d | p in t.procs && Drains(t.procs[p], d) ensures d in t.tokens && !CurrentSomewhere(t, d) {
        assert p == ev.pid || Drains(s.procs[p], d);
        forall i ensures !IsCurrent(t.connections, i, d) {
          assert p == ev.pid || !IsCurrent(s.connections, i, d);
        }
      }
    }
  }

  lemma ClearKeepsTokens(s: Sys, pid: nat)
    requires ConnectionsOk(s) && DrainsOk(s)
    ensures ConnectionsOk(Step(s, Clear(pid))) && DrainsOk(Step(s, Clear(pid)))
  {
    var t := Step(s, Clear(pid));
    forall p, d | p in t.procs && Drains(t.procs[p], d) ensures d in t.tokens && !CurrentSomewhere(t, d) {
      assert t == s || p == pid || (p in s.procs && Drains(s.procs[p], d));
    }
  }

  lemma DrainKeepsTokens(s: Sys, pid: nat)
    requires ConnectionsOk(s) && DrainsOk(s)
    ensures ConnectionsOk(Step(s, Drain(pid))) && DrainsOk(Step(s, Drain(pid)))
  {
    var t := Step(s, Drain(pid));
    forall p, d | p in t.procs && Drains(t.procs[p], d) ensures d in t.tokens && !CurrentSomewhere(t, d) {
      assert p in s.procs && Drains(s.procs[p], d);
    }
  }

  lemma TouchKeepsTokens(s: Sys, instance: Uuid, now: Timestamp)
    requires ConnectionsOk(s) && DrainsOk(s)
    ensures ConnectionsOk(Step(s, Touch(instance, now))) && DrainsOk(Step(s, Touch(instance, now)))
  {
    var t := Step(s, Touch(instance, now));
    assert forall i, d :: IsCurrent(t.connections, i, d) <==> IsCurrent(s.connections, i, d);
  }

  lemma TokensKept(s: Sys, ev: Event)
    requires ConnectionsOk(s) && DrainsOk(s)
    ensures ConnectionsOk(Step(s, ev)) && DrainsOk(Step(s, ev))
  {
    match ev
    case Insert(_, _, _) => MovesKeepConnections(s, ev); MovesKeepDrains(s, ev);
    case Remove(_) => MovesKeepConnections(s, ev); MovesKeepDrains(s, ev);
    case Clear(pid) => ClearKeepsTokens(s, pid);
    case Drain(pid) => DrainKeepsTokens(s, pid);
    case Touch(instance, now) => TouchKeepsTokens(s, instance, now);
    case _ => OtherEventsKeepTokens(s, ev);
  }

  // Pending requests and their tokens.

  lemma StaysDrained(s: Sys, t: Sys, pid: nat, token: Uuid)
    requires BeingDrained(s, token) && (pid in s.procs ==> !Drains(s.procs[pid], token))
    requires forall d <- s.procs :: d != pid ==> d in t.procs && t.procs[d] == s.procs[d]
    ensures BeingDrained(t, token)
  {
    var d :| d in s.procs && Drains(s.procs[d], token);
    assert d in t.procs && Drains(t.procs[d], token);
  }

  lemma InsertKeepsPendingTokens(s: Sys, pid: nat, token: Uuid, now: Timestamp)
    requires PendingTokensOk(s)
    ensures PendingTokensOk(Step(s, Insert(pid, token, now)))
  {
    var t := Step(s, Insert(pid, token, now));
    if t != s {
      forall id | id in t.pending ensures Covered(t, t.pending[id]) {
        var p := s.pending[id];
        if BeingDrained(s, p.token) {
          StaysDrained(s, t, pid, p.token);
        } else if p.adapter.instanceId == s.procs[pid].hello.instanceId {
          assert Drains(t.procs[pid], p.token);
        }
      }
    }
  }

  lemma RemovalsKeepPendingTokens(s: Sys, ev: Event)
    requires PendingTokensOk(s) && (ev.Remove? || ev.Clear?)
    ensures PendingTokensOk(Step(s, ev))
  {
    var t := Step(s, ev);
    if t != s {
      forall id | id in t.pending ensures Covered(t, t.pending[id]) {
        var p := s.pending[id];
        if BeingDrained(s, p.token) {
          StaysDrained(s, t, ev.pid, p.token);
        } else if p.adapter.instanceId !in t.connections {
          assert Drains(t.procs[ev.pid], p.token);
        }
      }
    }
  }

  lemma DrainKeepsPendingTokens(s: Sys, pid: nat)
    requires PendingTokensOk(s)
    ensures PendingTokensOk(Step(s, Drain(pid)))
  {
    var t := Step(s, Drain(pid));
    if t != s {
      forall id | id in t.pending ensures Covered(t, t.pending[id]) {
        if BeingDrained(s, s.pending[id].token) { StaysDrained(s, t, pid, s.pending[id].token); }
      }
    }
  }

  lemma OtherEventsKeepPendingTokens(s: Sys, ev: Event)
    requires PendingTokensOk(s) && !MovesTokens(ev)
    ensures PendingTokensOk(Step(s, ev))
  {
    OtherEventsKeepTokens(s, ev);
    var t := Step(s, ev);
    forall id | id in t.pending ensures Covered(t, t.pending[id]) {
      assert ev.Post? || (id in s.pending && t.pending[id] == s.pending[id]);
    }
  }

  lemma PendingTokensKept(s: Sys, ev: Event)
    requires PendingTokensOk(s)
    ensures PendingTokensOk(Step(s, ev))
  {
    match ev
    case Insert(pid, token, now) => InsertKeepsPendingTokens(s, pid, token, now);
    case Drain(pid) => DrainKeepsPendingTokens(s, pid);
    case Touch(instance, now) =>
      var t := Step(s, ev);
      forall id | id in t.pending ensures Covered(t, t.pending[id]) {
        if BeingDrained(s, s.pending[id].token) {
          var d :| d in s.procs && Drains(s.procs[d], s.pending[id].token);
          assert d in t.procs && Drains(t.procs[d], s.pending[id].token);
        }
      }
    case _ => if MovesTokens(ev) { RemovalsKeepPendingTokens(s, ev); } else { OtherEventsKeepPendingTokens(s, ev); }
  }
}
