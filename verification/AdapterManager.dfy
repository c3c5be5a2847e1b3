/** The registry object itself: the two maps that AdapterManager updates in place. Each method is one or two
    lock sections run without interruption; Registry.dfy lets other processes run between them. */
module AdapterManager {
  import opened Wrappers
  import opened Domain
  import opened Selection
  import opened Registry

  class Manager {
    var connections: map<Uuid, Connection>
    var pending: map<Uuid, Pending>

    constructor ()
      ensures connections == map[] && pending == map[]
    {
      connections, pending := map[], map[];
    }

    /** Collects the requests of a token, then removes them one by one; each gets Disconnected. */
    method FailPendingForToken(token: Uuid) returns (failed: set<Uuid>)
      modifies `pending
      ensures failed == WithToken(old(pending), token)
      ensures pending == old(pending) - failed
    {
      var ids: set<Uuid> := {};
      var rest := pending.Keys;
      while rest != {}
        invariant rest <= pending.Keys && pending == old(pending)
        invariant ids == WithToken(pending, token) - rest
        decreases rest
      {
        var id :| id in rest;
        if pending[id].token == token { ids := ids + {id}; }
        rest := rest - {id};
      }
      failed := {};
      while ids != {}
        invariant failed !! ids && failed + ids == WithToken(old(pending), token)
        invariant pending == old(pending) - failed
        decreases ids
      {
        var id :| id in ids;
        pending, failed, ids := pending - {id}, failed + {id}, ids - {id};
      }
    }

    /** register: a connection of the same instance is replaced, and only its requests are failed. */
    method Register(hello: Hello, token: Uuid, now: Timestamp)
      returns (r: Result<Uuid, RegistrationError>, failed: set<Uuid>)
      modifies this
      ensures r.Err? ==> connections == old(connections) && pending == old(pending) && failed == {}
      ensures r.Ok? ==>
        r.value == token && connections == old(connections)[hello.instanceId := Connection(token, hello, now)]
      ensures r.Ok? && hello.instanceId in old(connections) ==>
        failed == WithToken(old(pending), old(connections)[hello.instanceId].token)
      ensures hello.instanceId !in old(connections) ==> failed == {}
      ensures pending == old(pending) - failed
      ensures r.Ok? ==>
        forall c <- hello.actionCapabilities + hello.eventCapabilities :: HomeOf(c) == Some(hello.adapterId)
    {
      failed := {};
      var valid := ValidateHello(hello);
      if valid.Err? {
        assert pending - failed == pending;
        return Err(valid.error), failed;
      }
      var was := if hello.instanceId in connections then Some(connections[hello.instanceId].token) else None;
      connections := connections[hello.instanceId := Connection(token, hello, now)];
      if was.Some? { failed := FailPendingForToken(was.value); }
      r := Ok(token);
    }

    /** disconnect_if_current: a stale token changes nothing. */
    method DisconnectIfCurrent(instance: Uuid, token: Uuid) returns (failed: set<Uuid>)
      modifies this
      ensures IsCurrent(old(connections), instance, token) ==>
        connections == old(connections) - {instance} && failed == WithToken(old(pending), token)
      ensures !IsCurrent(old(connections), instance, token) ==> connections == old(connections) && failed == {}
      ensures pending == old(pending) - failed
    {
      failed := {};
      if instance !in connections || connections[instance].token != token { return; }
      connections := connections - {instance};
      failed := FailPendingForToken(token);
    }

    method Shutdown() returns (failed: set<Uuid>)
      modifies this
      ensures connections == map[] && pending == map[] && failed == old(pending).Keys
    {
      connections := map[];
      failed := pending.Keys;
      pending := map[];
    }

    method InsertPendingIfCurrent(adapter: Adapter, token: Uuid, requestId: Uuid, actionId: Uuid) returns (ok: bool)
      modifies `pending
      ensures ok <==> IsCurrent(connections, adapter.instanceId, token)
      ensures pending == if ok then old(pending)[requestId := Pending(adapter, token, actionId)] else old(pending)
    {
      if adapter.instanceId !in connections { return false; }
      if connections[adapter.instanceId].token != token { return false; }
      pending := pending[requestId := Pending(adapter, token, actionId)];
      return true;
    }

    /** resolve: the reply goes to the dispatch with this request id, whatever socket it came from. */
    method Resolve(response: Response, now: Timestamp) returns (sent: Option<Reply>)
      modifies this
      ensures sent.Some? <==> response.requestId in old(pending)
      ensures sent.Some? ==>
        && sent.value == ReplyTo(old(pending)[response.requestId], response)
        && sent.value ==
          if old(pending)[response.requestId].actionId == response.actionId && response.body.ActionResult?
          then Success(response.body.code) else Failure(ProtocolError)
      ensures pending == old(pending) - {response.requestId}
      ensures connections ==
        if sent.Some? && old(pending)[response.requestId].adapter.instanceId in old(connections)
        then var instance := old(pending)[response.requestId].adapter.instanceId;
          old(connections)[instance := old(connections)[instance].(lastSeen := now)]
        else old(connections)
    {
      if response.requestId !in pending {
        assert pending - {response.requestId} == pending;
        return None;
      }
      var instance := pending[response.requestId].adapter.instanceId;
      if instance in connections { connections := connections[instance := connections[instance].(lastSeen := now)]; }
      var entry := pending[response.requestId];
      pending := pending - {response.requestId};
      if entry.actionId != response.actionId { return Some(Failure(ProtocolError)); }
      match response.body {
        case ActionResult(code) => return Some(Success(code));
        case OtherBody => return Some(Failure(ProtocolError));
      }
    }

    /** The guard's drop while it is armed. */
    method DropGuard(requestId: Uuid)
      modifies `pending
      ensures pending == old(pending) - {requestId}
    {
      pending := pending - {requestId};
    }
  }

  /** Uninterrupted, the two sections of a registration are the two steps of the step system. */
  ghost predicate Agrees(connections: map<Uuid, Connection>, pending: map<Uuid, Pending>, s: Sys) {
    s.connections == connections && s.pending == pending
  }

  lemma RegisterIsInsertThenDrain(s: Sys, pid: nat, token: Uuid, now: Timestamp)
    requires pid in s.procs && s.procs[pid].Registering? && token !in s.tokens
    ensures var hello := s.procs[pid].hello; var t := Step(Step(s, Insert(pid, token, now)), Drain(pid));
      && t.procs[pid] == Done
      && Agrees(s.connections[hello.instanceId := Connection(token, hello, now)],
                s.pending - (if hello.instanceId in s.connections
                             then WithToken(s.pending, s.connections[hello.instanceId].token) else {}), t)
  {}

  lemma DisconnectIsRemoveThenDrain(s: Sys, pid: nat)
    requires pid in s.procs && s.procs[pid].Disconnecting?
    ensures var p := s.procs[pid]; var t := Step(Step(s, Remove(pid)), Drain(pid));
      && t.procs[pid] == Done
      && if IsCurrent(s.connections, p.instance, p.token)
         then Agrees(s.connections - {p.instance}, s.pending - WithToken(s.pending, p.token), t)
         else Agrees(s.connections, s.pending, t)
  {}
}
