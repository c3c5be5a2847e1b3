/** Where every outcome of a dispatch comes from, and what each of its steps leads to
    (crates/fubun-core/src/adapter.rs). */
module DispatchOutcomes {
  import opened Wrappers
  import opened Domain
  import opened Selection
  import opened Registry
  import opened Dispatch

  // What the steps of one dispatch lead to, in every reachable state.

  /** A dispatch is rejected before anything is inserted exactly if nothing is connected or nothing connected is
      eligible, and which of the two is told apart; otherwise the selection's answer is chosen. */
  lemma ChoiceIff(evs: seq<Event>, pid: nat)
    requires pid in Run(START, evs).procs && Run(START, evs).procs[pid].Selecting?
    ensures var s := Run(START, evs); var req := s.procs[pid].req; var t := Step(s, Choose(pid));
      && pid in t.procs && t.pending == s.pending && t.connections == s.connections
      && (t.procs[pid] == Rejected(NotAvailable) <==> s.connections == map[])
      && (t.procs[pid] == Rejected(NotCapable) <==>
            s.connections != map[] && forall id <- s.connections :: !Satisfies(s.connections[id].hello, req))
      && (t.procs[pid].Chosen? <==> exists id <- s.connections :: Satisfies(s.connections[id].hello, req))
      && (t.procs[pid].Chosen? ==>
            t.procs[pid].req == req && IsSelection(s.connections, req, Ok(t.procs[pid].candidate)))
  {
    var s := Run(START, evs);
    EligibleSomewhere(s.connections, s.procs[pid].req, Selected(s.connections, s.procs[pid].req));
  }

  /** The request of a chosen connection is inserted exactly if that connection is still the current one of its
      instance; otherwise the dispatch is rejected as disconnected and nothing is inserted. */
  lemma PostIff(evs: seq<Event>, pid: nat, requestId: Uuid, actionId: Uuid)
    requires var s := Run(START, evs); pid in s.procs && s.procs[pid].Chosen? && requestId !in s.channels
    ensures var s := Run(START, evs); var req, c := s.procs[pid].req, s.procs[pid].candidate;
      var t := Step(s, Post(pid, requestId, actionId));
      && pid in t.procs
      && if c.adapter.instanceId in s.connections && s.connections[c.adapter.instanceId].token == c.token
         then t.procs[pid] == Sending(Call(req, c.adapter, c.token, requestId, actionId))
           && t.pending == s.pending[requestId := Pending(c.adapter, c.token, actionId)]
         else t.procs[pid] == Rejected(Disconnected) && t.pending == s.pending
  {}

  predicate NoReplyYet(s: Sys, call: Call) {
    call.requestId in s.channels ==> !s.channels[call.requestId].sender.Sent?
  }

  /** When the timer of a waiting dispatch runs out before a reply was sent, it settles as timed out; when the reply was
      sent first, the timer does nothing. Either way no other request is touched. */
  lemma TimeoutSettles(evs: seq<Event>, pid: nat)
    requires pid in Run(START, evs).procs && Run(START, evs).procs[pid].Waiting?
    ensures var s := Run(START, evs); var call := s.procs[pid].call;
      var t := Step(Step(s, TimeOut(pid)), DropGuard(pid));
      && pid in t.procs && t.pending == (if NoReplyYet(s, call) then s.pending - {call.requestId} else s.pending)
      && t.procs[pid] == if NoReplyYet(s, call) then Settled(call, Answered(Failure(TimedOut))) else s.procs[pid]
  {
    ReachableInv(evs);
    TimeoutSettlesHere(Run(START, evs), pid);
  }

  lemma TimeoutSettlesHere(s: Sys, pid: nat)
    requires PendingOk(s) && pid in s.procs && s.procs[pid].Waiting?
    ensures var call := s.procs[pid].call; var t := Step(Step(s, TimeOut(pid)), DropGuard(pid));
      && pid in t.procs && t.pending == (if NoReplyYet(s, call) then s.pending - {call.requestId} else s.pending)
      && t.procs[pid] == if NoReplyYet(s, call) then Settled(call, Answered(Failure(TimedOut))) else s.procs[pid]
  {
    TimerRings(s, pid);
    if NoReplyYet(s, s.procs[pid].call) { DropsGuard(s, pid, Answered(Failure(TimedOut))); }
  }

  lemma TimerRings(s: Sys, pid: nat)
    requires pid in s.procs && s.procs[pid].Waiting?
    ensures Step(s, TimeOut(pid)) ==
      if NoReplyYet(s, s.procs[pid].call) then Put(s, pid, Dropping(s.procs[pid].call, Answered(Failure(TimedOut))))
      else s
    ensures Step(s, DropGuard(pid)) == s
  {}

  /** A dispatch whose request cannot be sent settles as disconnected; one whose request was sent waits. */
  lemma SendDecides(evs: seq<Event>, pid: nat)
    requires pid in Run(START, evs).procs && Run(START, evs).procs[pid].Sending?
    ensures var s := Run(START, evs); var call := s.procs[pid].call;
      var t := Step(Step(s, SendDone(pid, false)), DropGuard(pid));
      && Step(s, SendDone(pid, true)) == s.(procs := s.procs[pid := Waiting(call)])
      && pid in t.procs && t.pending == s.pending - {call.requestId}
      && t.procs[pid] == Settled(call, Answered(Failure(Disconnected)))
  {
    ReachableInv(evs);
    Local(Run(START, evs), pid);
    DropsGuard(Run(START, evs), pid, Answered(Failure(Disconnected)));
  }

  /** A dispatch that is dropped before it was answered leaves no request behind. */
  lemma CancelSettles(evs: seq<Event>, pid: nat)
    requires pid in Run(START, evs).procs && Undecided(Run(START, evs).procs[pid])
    ensures var s := Run(START, evs); var call := s.procs[pid].call;
      var t := Step(Step(s, Cancel(pid)), DropGuard(pid));
      pid in t.procs && t.pending == s.pending - {call.requestId} && t.procs[pid] == Settled(call, Cancelled)
  {
    ReachableInv(evs);
    Local(Run(START, evs), pid);
    DropsGuard(Run(START, evs), pid, Cancelled);
  }

  lemma DropsGuard(s: Sys, pid: nat, outcome: Outcome)
    requires PendingOk(s) && pid in s.procs && Undecided(s.procs[pid])
    ensures var call := s.procs[pid].call;
      var t := Step(Put(s, pid, Dropping(call, outcome)), DropGuard(pid));
      pid in t.procs && t.pending == s.pending - {call.requestId} && t.procs[pid] == Settled(call, outcome)
  {
    var id := s.procs[pid].call.requestId;
    if id !in s.pending { assert s.pending - {id} == s.pending; }
  }

  /** A shutdown clears every connection, and its drain fails every request that is pending by then. */
  lemma ShutdownFailsEverything(evs: seq<Event>, pid: nat)
    requires pid in Run(START, evs).procs
    ensures var s := Run(START, evs);
      && (s.procs[pid].ShuttingDown? ==>
            Step(s, Clear(pid)).connections == map[] && Step(s, Clear(pid)).procs[pid].DrainingAll?)
      && (s.procs[pid].DrainingAll? ==>
            var t := Step(s, Drain(pid));
            && t.pending == map[] && t.procs[pid] == Done
            && forall id <- s.pending ::
              id in s.channels && id in t.channels && t.channels[id].sender == Sent(Failure(Disconnected)))
  {
    ReachableInv(evs);
    var s := Run(START, evs);
    if s.procs[pid].DrainingAll? { assert s.pending - s.pending.Keys == map[]; }
  }

  // From a call to its result.

  /** A new call of any of the five operations is taken in; what a resolver was called with has then been heard. */
  lemma CallsAreTakenIn(s: Sys, pid: nat, proc: Proc)
    requires pid !in s.procs
    requires proc.Registering? || proc.Disconnecting? || proc.ShuttingDown? || proc.Selecting? || proc.Resolving?
    ensures Step(s, Spawn(pid, proc)) ==
      s.(procs := s.procs[pid := proc], heard := if proc.Resolving? then s.heard + {proc.response} else s.heard)
  {}

  /** Disconnecting a current connection removes it and leaves its requests to be drained; a touch changes only when the
      connection was last seen. */
  lemma RemovesOrTouches(s: Sys, pid: nat, instance: Uuid, token: Uuid, now: Timestamp)
    requires instance in s.connections && s.connections[instance].token == token
    ensures pid in s.procs && s.procs[pid] == Disconnecting(instance, token) ==>
      Step(s, Remove(pid))
        == s.(connections := s.connections - {instance}, procs := s.procs[pid := Draining(token)])
    ensures Step(s, Touch(instance, now))
      == s.(connections := s.connections[instance := s.connections[instance].(lastSeen := now)])
  {}

  /** A hello that comes in on a new connection makes that connection the current one of its instance. */
  lemma RegistrationConnects(s: Sys, pid: nat, hello: Hello, token: Uuid, now: Timestamp)
    requires pid !in s.procs && token !in s.tokens
    ensures var t := Step(Step(s, Spawn(pid, Registering(hello))), Insert(pid, token, now));
      t.connections == s.connections[hello.instanceId := Connection(token, hello, now)] && t.pending == s.pending
  {}

  /** The events of a dispatch that is selected, inserted, sent and answered with an action result. */
  function Answering(pid: nat, resolver: nat, req: Requirements, id: Uuid, actionId: Uuid, code: string): seq<Event> {
    [Spawn(pid, Selecting(req)), Choose(pid), Post(pid, id, actionId), SendDone(pid, true),
     Spawn(resolver, Resolving(Response(id, actionId, ActionResult(code)))), Take(resolver), Deliver(resolver),
     Wake(pid)]
  }

  lemma DispatchIsSelected(s: Sys, pid: nat, req: Requirements, at: Uuid)
    requires pid !in s.procs && at in s.connections && Satisfies(s.connections[at].hello, req)
    ensures var t := AfterChoice(s, pid, req);
      && pid in t.procs && t.procs[pid].Chosen? && t == Put(s, pid, t.procs[pid]) && t.procs[pid].req == req
      && var c := t.procs[pid].candidate;
        && c.adapter.instanceId in s.connections && s.connections[c.adapter.instanceId].token == c.token
        && Satisfies(s.connections[c.adapter.instanceId].hello, req)
  {
    EligibleSomewhere(s.connections, req, Selected(s.connections, req));
  }

  lemma DispatchIsSent(s: Sys, pid: nat, id: Uuid, actionId: Uuid)
    requires pid in s.procs && s.procs[pid].Chosen? && id !in s.channels
    requires var c := s.procs[pid].candidate;
      c.adapter.instanceId in s.connections && s.connections[c.adapter.instanceId].token == c.token
    ensures var p := s.procs[pid]; var t := AfterSending(s, pid, id, actionId);
      && t.pending == s.pending[id := Pending(p.candidate.adapter, p.candidate.token, actionId)]
      && t.channels == s.channels[id := Channel(pid, InPending)] && t.procs.Keys == s.procs.Keys
      && t.procs[pid] == Waiting(Call(p.req, p.candidate.adapter, p.candidate.token, id, actionId))
  {}

  lemma DispatchIsAnswered(s: Sys, pid: nat, resolver: nat, call: Call, code: string)
    requires pid in s.procs && s.procs[pid] == Waiting(call) && resolver !in s.procs
    requires call.requestId in s.pending && s.pending[call.requestId].actionId == call.actionId
    requires call.requestId in s.channels && s.channels[call.requestId] == Channel(pid, InPending)
    ensures var t := AfterAnswer(s, pid, resolver, Response(call.requestId, call.actionId, ActionResult(code)));
      && pid in t.procs && t.procs[pid] == Settled(call, Answered(Success(code)))
      && t.pending == s.pending - {call.requestId}
  {
    var a := Step(s, Spawn(resolver, Resolving(Response(call.requestId, call.actionId, ActionResult(code)))));
    var b := Step(a, Take(resolver));
    assert b.procs[resolver] == Delivering(call.requestId, Success(code)) && b.procs[pid] == s.procs[pid];
    var c := Step(b, Deliver(resolver));
    assert c.channels[call.requestId].sender == Sent(Success(code)) && c.procs[pid] == s.procs[pid];
  }

  ghost function AfterChoice(s: Sys, pid: nat, req: Requirements): Sys {
    Step(Step(s, Spawn(pid, Selecting(req))), Choose(pid))
  }

  ghost function AfterSending(s: Sys, pid: nat, id: Uuid, actionId: Uuid): Sys {
    Step(Step(s, Post(pid, id, actionId)), SendDone(pid, true))
  }

  ghost function AfterAnswer(s: Sys, pid: nat, resolver: nat, response: Response): Sys {
    Step(Step(Step(Step(s, Spawn(resolver, Resolving(response))), Take(resolver)), Deliver(resolver)), Wake(pid))
  }

  ghost function AfterAll(s: Sys, pid: nat, resolver: nat, req: Requirements, id: Uuid, actionId: Uuid, code: string):
    Sys
  {
    AfterAnswer(AfterSending(AfterChoice(s, pid, req), pid, id, actionId), pid, resolver,
                Response(id, actionId, ActionResult(code)))
  }

  lemma RunAnswering(s: Sys, pid: nat, resolver: nat, req: Requirements, id: Uuid, actionId: Uuid, code: string)
    ensures Run(s, Answering(pid, resolver, req, id, actionId, code))
      == AfterAll(s, pid, resolver, req, id, actionId, code)
  {
    var response := Response(id, actionId, ActionResult(code));
    var chosen := Run(s, [Spawn(pid, Selecting(req)), Choose(pid)]);
    var sent := Run(chosen, [Post(pid, id, actionId), SendDone(pid, true)]);
    var given := Run(sent, [Spawn(resolver, Resolving(response)), Take(resolver)]);
    RunFourPairs(s, Answering(pid, resolver, req, id, actionId, code));
    RunPair(s, Spawn(pid, Selecting(req)), Choose(pid));
    RunPair(chosen, Post(pid, id, actionId), SendDone(pid, true));
    RunPair(sent, Spawn(resolver, Resolving(response)), Take(resolver));
    RunPair(given, Deliver(resolver), Wake(pid));
  }

  lemma RunPair(s: Sys, a: Event, b: Event)
    ensures Run(s, [a, b]) == Step(Step(s, a), b)
  {
    assert [a, b][..1] == [a] && [a][..0] == [];
    assert Run(s, [a]) == Step(Run(s, []), a);
  }

  lemma RunFourPairs(s: Sys, e: seq<Event>)
    requires |e| == 8
    ensures Run(s, e) == Run(Run(Run(Run(s, [e[0], e[1]]), [e[2], e[3]]), [e[4], e[5]]), [e[6], e[7]])
  {
    RunAppend(s, [e[0], e[1]], [e[2], e[3]]);
    RunAppend(s, [e[0], e[1]] + [e[2], e[3]], [e[4], e[5]]);
    RunAppend(s, [e[0], e[1]] + [e[2], e[3]] + [e[4], e[5]], [e[6], e[7]]);
    assert e == [e[0], e[1]] + [e[2], e[3]] + [e[4], e[5]] + [e[6], e[7]];
  }

  lemma DispatchSucceedsHere(s: Sys, pid: nat, resolver: nat, req: Requirements, at: Uuid, id: Uuid, actionId: Uuid,
                             code: string)
    requires pid !in s.procs && resolver !in s.procs && pid != resolver && id !in s.channels && id !in s.pending
    requires at in s.connections && Satisfies(s.connections[at].hello, req)
    ensures var t := AfterAll(s, pid, resolver, req, id, actionId, code);
      && pid in t.procs && t.procs[pid].Settled? && t.procs[pid].outcome == Answered(Success(code))
      && t.pending == s.pending
      && var call := t.procs[pid].call;
        && call.req == req && call.requestId == id && call.actionId == actionId
        && call.adapter.instanceId in s.connections && s.connections[call.adapter.instanceId].token == call.token
        && Satisfies(s.connections[call.adapter.instanceId].hello, req)
  {
    DispatchIsSelected(s, pid, req, at);
    var chosen := AfterChoice(s, pid, req);
    DispatchIsSent(chosen, pid, id, actionId);
    var waiting := AfterSending(chosen, pid, id, actionId);
    DispatchIsAnswered(waiting, pid, resolver, waiting.procs[pid].call, code);
    assert s.pending[id := waiting.pending[id]] - {id} == s.pending;
  }

  /** In every reachable state with an eligible connection a new dispatch can be answered: selected, inserted, sent, and
      its action result taken, it settles with that result on an eligible connection, and pending is as it was. */
  lemma DispatchCanSucceed(evs: seq<Event>, pid: nat, resolver: nat, req: Requirements, at: Uuid, id: Uuid,
                           actionId: Uuid, code: string)
    requires var s := Run(START, evs);
      && pid !in s.procs && resolver !in s.procs && pid != resolver && id !in s.channels
      && at in s.connections && Satisfies(s.connections[at].hello, req)
    ensures var s := Run(START, evs); var t := Run(s, Answering(pid, resolver, req, id, actionId, code));
      && pid in t.procs && t.procs[pid].Settled? && t.procs[pid].outcome == Answered(Success(code))
      && t.pending == s.pending
      && var call := t.procs[pid].call;
        && call.req == req && call.requestId == id && call.actionId == actionId
        && call.adapter.instanceId in s.connections && s.connections[call.adapter.instanceId].token == call.token
        && Satisfies(s.connections[call.adapter.instanceId].hello, req)
  {
    var s := Run(START, evs);
    assert id !in s.pending by { ReachableInv(evs); }
    RunAnswering(s, pid, resolver, req, id, actionId, code);
    DispatchSucceedsHere(s, pid, resolver, req, at, id, actionId, code);
  }

  // Every outcome has its cause in the run.

  /** Event n is the timer of this dispatch, which waits for a reply that was not sent. */
  ghost predicate TimedOutAt(evs: seq<Event>, pid: nat, call: Call, n: nat)
    requires n < |evs|
  {
    && evs[n] == TimeOut(pid)
    && var s := Run(START, evs[..n]); pid in s.procs && s.procs[pid] == Waiting(call) && NoReplyYet(s, call)
  }

  /** Event n is the failure to send the request of this dispatch. */
  ghost predicate SendFailedAt(evs: seq<Event>, pid: nat, call: Call, n: nat)
    requires n < |evs|
  {
    evs[n] == SendDone(pid, false)
      && var s := Run(START, evs[..n]); pid in s.procs && s.procs[pid] == Sending(call)
  }

  /** Event n drops the future of this dispatch. */
  ghost predicate CancelledAt(evs: seq<Event>, pid: nat, call: Call, n: nat)
    requires n < |evs|
  {
    && evs[n] == Cancel(pid)
    && var s := Run(START, evs[..n]); pid in s.procs && (s.procs[pid] == Sending(call) || s.procs[pid] == Waiting(call))
  }

  /** Event n is the end of a replacement or removal of this connection, or of a shutdown, while the request was
      pending. */
  ghost predicate DrainedAt(evs: seq<Event>, call: Call, n: nat)
    requires n < |evs|
  {
    && evs[n].Drain?
    && var s := Run(START, evs[..n]);
      && call.requestId in s.pending && evs[n].pid in s.procs
      && (s.procs[evs[n].pid] == Replacing(call.token) || s.procs[evs[n].pid] == Draining(call.token)
          || s.procs[evs[n].pid].DrainingAll?)
  }

  ghost predicate TimedOutIn(evs: seq<Event>, pid: nat, call: Call) {
    exists n :: 0 <= n < |evs| && TimedOutAt(evs, pid, call, n)
  }

  ghost predicate SendFailedIn(evs: seq<Event>, pid: nat, call: Call) {
    exists n :: 0 <= n < |evs| && SendFailedAt(evs, pid, call, n)
  }

  ghost predicate CancelledIn(evs: seq<Event>, pid: nat, call: Call) {
    exists n :: 0 <= n < |evs| && CancelledAt(evs, pid, call, n)
  }

  ghost predicate Drained(evs: seq<Event>, call: Call) {
    exists n :: 0 <= n < |evs| && DrainedAt(evs, call, n)
  }

  /** A response named this request but another action, or was no action result. */
  predicate Misheard(heard: set<Response>, call: Call) {
    exists r <- heard :: r.requestId == call.requestId && (r.actionId != call.actionId || r.body == OtherBody)
  }

  /** Why a reply was sent to a dispatch. */
  ghost predicate ReplyCause(evs: seq<Event>, call: Call, reply: Reply) {
    match reply
    case Success(code) => Response(call.requestId, call.actionId, ActionResult(code)) in Run(START, evs).heard
    case Failure(ProtocolError) => Misheard(Run(START, evs).heard, call)
    case Failure(Disconnected) => Drained(evs, call)
    case _ => false
  }

  ghost predicate Cause(evs: seq<Event>, pid: nat, call: Call, outcome: Outcome) {
    match outcome
    case Cancelled => CancelledIn(evs, pid, call)
    case Answered(reply) =>
      || ReplyCause(evs, call, reply)
      || (reply == Failure(TimedOut) && TimedOutIn(evs, pid, call))
      || (reply == Failure(Disconnected) && SendFailedIn(evs, pid, call))
  }

  lemma ReplyCauseStays(init: seq<Event>, ev: Event, call: Call, reply: Reply)
    requires ReplyCause(init, call, reply)
    ensures ReplyCause(init + [ev], call, reply)
  {
    var evs := init + [ev];
    assert evs[..|init|] == init;
    HeardStays(Run(START, init), ev);
    if reply == Failure(Disconnected) {
      var n :| 0 <= n < |init| && DrainedAt(init, call, n);
      assert evs[..n] == init[..n];
      assert DrainedAt(evs, call, n);
    }
  }

  lemma HeardStays(s: Sys, ev: Event)
    ensures s.heard <= Step(s, ev).heard
  {}

  lemma CauseStays(init: seq<Event>, ev: Event, pid: nat, call: Call, outcome: Outcome)
    requires Cause(init, pid, call, outcome)
    ensures Cause(init + [ev], pid, call, outcome)
  {
    var evs := init + [ev];
    forall n | 0 <= n < |init| ensures evs[..n] == init[..n] {}
    if outcome == Cancelled {
      var n :| 0 <= n < |init| && CancelledAt(init, pid, call, n);
      assert CancelledAt(evs, pid, call, n);
    } else if ReplyCause(init, call, outcome.reply) {
      ReplyCauseStays(init, ev, call, outcome.reply);
    } else if outcome.reply == Failure(TimedOut) {
      var n :| 0 <= n < |init| && TimedOutAt(init, pid, call, n);
      assert TimedOutAt(evs, pid, call, n);
    } else {
      var n :| 0 <= n < |init| && SendFailedAt(init, pid, call, n);
      assert SendFailedAt(evs, pid, call, n);
    }
  }

  /** What is known about one process. */
  ghost predicate ProcCaused(evs: seq<Event>, pid: nat, proc: Proc) {
    match proc
    case Dropping(call, outcome) => Cause(evs, pid, call, outcome)
    case Settled(call, outcome) => Cause(evs, pid, call, outcome)
    case Delivering(id, reply) => ChannelCaused(evs, id, reply)
    case _ => true
  }

  /** What is known about a reply for the dispatch that owns a channel. */
  ghost predicate ChannelCaused(evs: seq<Event>, id: Uuid, reply: Reply) {
    var s := Run(START, evs);
    OwnerHas(s, id) && ReplyCause(evs, CallOf(s.procs[s.channels[id].owner]).value, reply)
  }

  ghost predicate Caused(evs: seq<Event>) {
    var s := Run(START, evs);
    && (forall pid <- s.procs :: ProcCaused(evs, pid, s.procs[pid]))
    && (forall id <- s.channels :: s.channels[id].sender.Sent? ==> ChannelCaused(evs, id, s.channels[id].sender.reply))
  }

  lemma CallStays(s: Sys, ev: Event, pid: nat)
    requires pid in s.procs && CallOf(s.procs[pid]).Some?
    ensures pid in Step(s, ev).procs && CallOf(Step(s, ev).procs[pid]) == CallOf(s.procs[pid])
  {
    if Quiet(ev) { QuietKeepsCall(s, ev, pid); } else { LoudCallStays(s, ev, pid); }
  }

  lemma LoudCallStays(s: Sys, ev: Event, pid: nat)
    requires !Quiet(ev) && pid in s.procs && CallOf(s.procs[pid]).Some?
    ensures pid in Step(s, ev).procs && CallOf(Step(s, ev).procs[pid]) == CallOf(s.procs[pid])
  {}

  lemma OwnerStays(s: Sys, ev: Event, id: Uuid)
    requires id in s.channels
    ensures id in Step(s, ev).channels && Step(s, ev).channels[id].owner == s.channels[id].owner
  {}

  lemma ChannelCausedStays(init: seq<Event>, ev: Event, id: Uuid, reply: Reply)
    requires ChannelCaused(init, id, reply)
    ensures ChannelCaused(init + [ev], id, reply)
  {
    assert (init + [ev])[..|init|] == init;
    var s := Run(START, init);
    OwnerHasStays(s, ev, id);
    ReplyCauseStays(init, ev, CallOf(s.procs[s.channels[id].owner]).value, reply);
  }

  lemma ProcCausedStays(init: seq<Event>, ev: Event, pid: nat, proc: Proc)
    requires ProcCaused(init, pid, proc)
    ensures ProcCaused(init + [ev], pid, proc)
  {
    match proc
    case Dropping(call, outcome) => CauseStays(init, ev, pid, call, outcome);
    case Settled(call, outcome) => CauseStays(init, ev, pid, call, outcome);
    case Delivering(id, reply) => ChannelCausedStays(init, ev, id, reply);
    case _ =>
  }

  /** The events that can give a process a cause. */
  predicate Causes(ev: Event) {
    ev.SendDone? || ev.TimeOut? || ev.Cancel? || ev.DropGuard? || ev.Wake? || ev.Take?
  }

  predicate HasCause(proc: Proc) { proc.Dropping? || proc.Settled? || proc.Delivering? }

  lemma OthersGiveNoCause(s: Sys, ev: Event, pid: nat)
    requires pid in Step(s, ev).procs && HasCause(Step(s, ev).procs[pid]) && !(Causes(ev) && ev.pid == pid)
    ensures pid in s.procs && s.procs[pid] == Step(s, ev).procs[pid]
  {
    if Quiet(ev) { QuietGivesNoCause(s, ev, pid); } else { LoudGivesNoCause(s, ev, pid); }
  }

  lemma QuietGivesNoCause(s: Sys, ev: Event, pid: nat)
    requires Quiet(ev) && pid in Step(s, ev).procs && HasCause(Step(s, ev).procs[pid])
    ensures pid in s.procs && s.procs[pid] == Step(s, ev).procs[pid]
  {
    QuietEffect(s, ev, pid);
  }

  lemma LoudGivesNoCause(s: Sys, ev: Event, pid: nat)
    requires !Quiet(ev) && pid in Step(s, ev).procs && HasCause(Step(s, ev).procs[pid])
    requires !(Causes(ev) && ev.pid == pid)
    ensures pid in s.procs && s.procs[pid] == Step(s, ev).procs[pid]
  {}

  lemma DecisionIsCaused(init: seq<Event>, ev: Event)
    requires ev.SendDone? || ev.TimeOut? || ev.Cancel?
    requires DispatchOk(Run(START, init)) && ev.pid in Run(START, init).procs
    requires Step(Run(START, init), ev) != Run(START, init)
    ensures ev.pid in Step(Run(START, init), ev).procs
    ensures ProcCaused(init + [ev], ev.pid, Step(Run(START, init), ev).procs[ev.pid])
  {
    var evs, n := init + [ev], |init|;
    assert evs[..n] == init;
    var call := Run(START, init).procs[ev.pid].call;
    match ev
    case SendDone(pid, false) => assert SendFailedAt(evs, pid, call, n);
    case TimeOut(pid) => assert TimedOutAt(evs, pid, call, n);
    case Cancel(pid) => assert CancelledAt(evs, pid, call, n);
    case _ =>
  }

  /** A dispatch wakes only with the reply that was sent to it. */
  lemma WakesWithReply(s: Sys, pid: nat)
    requires LocalOk(s, pid) && pid in s.procs && s.procs[pid].Waiting? && Step(s, Wake(pid)) != s
    ensures var call := s.procs[pid].call;
      && call.requestId in s.channels && s.channels[call.requestId].owner == pid
      && s.channels[call.requestId].sender.Sent? && pid in Step(s, Wake(pid)).procs
      && Step(s, Wake(pid)).procs[pid] == Settled(call, Answered(s.channels[call.requestId].sender.reply))
  {}

  lemma SentReplyIsCaused(evs: seq<Event>, pid: nat, call: Call, reply: Reply)
    requires Caused(evs) && call.requestId in Run(START, evs).channels
    requires Run(START, evs).channels[call.requestId] == Channel(pid, Sent(reply))
    requires pid in Run(START, evs).procs && CallOf(Run(START, evs).procs[pid]) == Some(call)
    ensures ReplyCause(evs, call, reply)
  {
    assert ChannelCaused(evs, call.requestId, reply);
  }

  lemma WakeIsCaused(init: seq<Event>, pid: nat)
    requires DispatchOk(Run(START, init)) && Caused(init) && pid in Run(START, init).procs
    requires Run(START, init).procs[pid].Waiting? && Step(Run(START, init), Wake(pid)) != Run(START, init)
    ensures pid in Step(Run(START, init), Wake(pid)).procs
    ensures ProcCaused(init + [Wake(pid)], pid, Step(Run(START, init), Wake(pid)).procs[pid])
  {
    var s := Run(START, init);
    var call := s.procs[pid].call;
    assert LocalOk(s, pid) by { Local(s, pid); }
    WakesWithReply(s, pid);
    var reply := s.channels[call.requestId].sender.reply;
    SentReplyIsCaused(init, pid, call, reply);
    ReplyCauseStays(init, Wake(pid), call, reply);
  }

  lemma TakeIsCaused(init: seq<Event>, pid: nat)
    requires DispatchOk(Run(START, init)) && pid in Run(START, init).procs && Run(START, init).procs[pid].Resolving?
    ensures pid in Step(Run(START, init), Take(pid)).procs
    ensures ProcCaused(init + [Take(pid)], pid, Step(Run(START, init), Take(pid)).procs[pid])
  {
    var evs := init + [Take(pid)];
    assert evs[..|init|] == init;
    var s := Run(START, init);
    var id := s.procs[pid].response.requestId;
    Local(s, pid);
    if id in s.pending {
      var owner := s.channels[id].owner;
      var call := CallOf(s.procs[owner]).value;
      CallStays(s, Take(pid), owner);
      assert s.pending[id].actionId == call.actionId && s.procs[pid].response in s.heard;
      assert Run(START, evs) == Step(s, Take(pid));
      TakenReplyIsCaused(evs, s.pending[id], s.procs[pid].response, call);
    }
  }

  lemma TakenReplyIsCaused(evs: seq<Event>, p: Pending, response: Response, call: Call)
    requires response in Run(START, evs).heard
    requires response.requestId == call.requestId && p.actionId == call.actionId
    ensures ReplyCause(evs, call, ReplyTo(p, response))
  {}

  lemma ProcCausedGained(init: seq<Event>, ev: Event)
    requires DispatchOk(Run(START, init)) && Caused(init) && Causes(ev)
    requires ev.pid in Step(Run(START, init), ev).procs
    ensures ProcCaused(init + [ev], ev.pid, Step(Run(START, init), ev).procs[ev.pid])
  {
    var s := Run(START, init);
    var pid := ev.pid;
    if Step(s, ev) == s { ProcCausedStays(init, ev, pid, s.procs[pid]); }
    else if ev.Wake? { WakeIsCaused(init, pid); }
    else if ev.Take? { TakeIsCaused(init, pid); }
    else if ev.DropGuard? {
      assert ProcCaused(init, pid, s.procs[pid]);
      CauseStays(init, ev, pid, s.procs[pid].call, s.procs[pid].outcome);
    } else { DecisionIsCaused(init, ev); }
  }

  lemma ProcsStayCaused(init: seq<Event>, ev: Event, pid: nat)
    requires DispatchOk(Run(START, init)) && Caused(init) && pid in Step(Run(START, init), ev).procs
    ensures ProcCaused(init + [ev], pid, Step(Run(START, init), ev).procs[pid])
  {
    var s := Run(START, init);
    if HasCause(Step(s, ev).procs[pid]) {
      if Causes(ev) && ev.pid == pid {
        ProcCausedGained(init, ev);
      } else {
        OthersGiveNoCause(s, ev, pid);
        ProcCausedStays(init, ev, pid, s.procs[pid]);
      }
    }
  }

  lemma OthersSendNothing(s: Sys, ev: Event, id: Uuid)
    requires id in Step(s, ev).channels && Step(s, ev).channels[id].sender.Sent? && !ev.Drain? && !ev.Deliver?
    ensures id in s.channels && s.channels[id].sender == Step(s, ev).channels[id].sender
  {}

  lemma DeliveredIsCaused(init: seq<Event>, pid: nat, id: Uuid)
    requires Caused(init) && id in Run(START, init).channels
    requires var t := Step(Run(START, init), Deliver(pid)); id in t.channels && t.channels[id].sender.Sent?
    ensures ChannelCaused(init + [Deliver(pid)], id, Step(Run(START, init), Deliver(pid)).channels[id].sender.reply)
  {
    var s := Run(START, init);
    var t := Step(s, Deliver(pid));
    if t.channels[id] != s.channels[id] { assert ProcCaused(init, pid, s.procs[pid]); }
    ChannelCausedStays(init, Deliver(pid), id, t.channels[id].sender.reply);
  }

  /** A channel that a drain changes carries the disconnection, and its request was pending with the drained token. */
  lemma DrainChanges(s: Sys, pid: nat, id: Uuid)
    requires id in s.channels && ChannelOk(s, id) && PendingOk(s)
    requires var t := Step(s, Drain(pid)); id in t.channels && t.channels[id] != s.channels[id]
    ensures Step(s, Drain(pid)).channels[id] == Channel(s.channels[id].owner, Sent(Failure(Disconnected)))
    ensures var call := CallOf(s.procs[s.channels[id].owner]).value;
      && call.requestId == id && id in s.pending && pid in s.procs
      && (s.procs[pid] == Replacing(call.token) || s.procs[pid] == Draining(call.token) || s.procs[pid].DrainingAll?)
  {}

  lemma OwnerHasStays(s: Sys, ev: Event, id: Uuid)
    requires OwnerHas(s, id)
    ensures var t := Step(s, ev);
      && OwnerHas(t, id) && t.channels[id].owner == s.channels[id].owner
      && CallOf(t.procs[t.channels[id].owner]) == CallOf(s.procs[s.channels[id].owner])
  {
    OwnerStays(s, ev, id);
    CallStays(s, ev, s.channels[id].owner);
  }

  lemma DrainIsCause(init: seq<Event>, pid: nat, call: Call)
    requires var s := Run(START, init);
      && call.requestId in s.pending && pid in s.procs
      && (s.procs[pid] == Replacing(call.token) || s.procs[pid] == Draining(call.token) || s.procs[pid].DrainingAll?)
    ensures Drained(init + [Drain(pid)], call)
  {
    assert (init + [Drain(pid)])[..|init|] == init;
    assert DrainedAt(init + [Drain(pid)], call, |init|);
  }

  lemma DrainedIsCaused(init: seq<Event>, pid: nat, id: Uuid)
    requires DispatchOk(Run(START, init)) && Caused(init) && id in Run(START, init).channels
    requires var t := Step(Run(START, init), Drain(pid)); id in t.channels && t.channels[id].sender.Sent?
    ensures ChannelCaused(init + [Drain(pid)], id, Step(Run(START, init), Drain(pid)).channels[id].sender.reply)
  {
    var s := Run(START, init);
    assert (init + [Drain(pid)])[..|init|] == init;
    var t := Step(s, Drain(pid));
    if t.channels[id] == s.channels[id] {
      ChannelCausedStays(init, Drain(pid), id, t.channels[id].sender.reply);
    } else {
      assert ChannelOk(s, id);
      DrainChanges(s, pid, id);
      OwnerHasStays(s, Drain(pid), id);
      DrainIsCause(init, pid, CallOf(s.procs[s.channels[id].owner]).value);
    }
  }

  lemma ChannelsStayCaused(init: seq<Event>, ev: Event, id: Uuid)
    requires DispatchOk(Run(START, init)) && Caused(init)
    requires var t := Step(Run(START, init), ev); id in t.channels && t.channels[id].sender.Sent?
    ensures ChannelCaused(init + [ev], id, Step(Run(START, init), ev).channels[id].sender.reply)
  {
    var s := Run(START, init);
    if ev.Drain? { DrainedIsCaused(init, ev.pid, id); }
    else if ev.Deliver? { DeliveredIsCaused(init, ev.pid, id); }
    else {
      OthersSendNothing(s, ev, id);
      ChannelCausedStays(init, ev, id, s.channels[id].sender.reply);
    }
  }

  lemma {:induction false} AllCaused(evs: seq<Event>)
    ensures Caused(evs)
  {
    if evs != [] {
      var init, ev := evs[..|evs| - 1], evs[|evs| - 1];
      assert evs == init + [ev];
      AllCaused(init);
      ReachableInv(init);
      var t := Run(START, evs);
      forall pid | pid in t.procs ensures ProcCaused(evs, pid, t.procs[pid]) { ProcsStayCaused(init, ev, pid); }
      forall id | id in t.channels && t.channels[id].sender.Sent?
        ensures ChannelCaused(evs, id, t.channels[id].sender.reply)
      {
        ChannelsStayCaused(init, ev, id);
      }
    }
  }

  /** Every outcome has its cause in the run: a success was heard as an action result with both ids; a protocol error
      was heard with another action id or as something else; a timeout came from the dispatch's own timer before any
      reply; a disconnection came from the failed send or from the end of its connection or of the daemon; a
      cancellation from its caller. No dispatch settles as unavailable or not capable. */
  lemma EveryOutcomeHasItsCause(evs: seq<Event>, pid: nat)
    requires pid in Run(START, evs).procs && Run(START, evs).procs[pid].Settled?
    ensures Cause(evs, pid, Run(START, evs).procs[pid].call, Run(START, evs).procs[pid].outcome)
  {
    AllCaused(evs);
    assert ProcCaused(evs, pid, Run(START, evs).procs[pid]);
  }

  /** In particular, only its own timer times a dispatch out, and only while no reply was sent. */
  lemma TimedOutByItsTimer(evs: seq<Event>, pid: nat, call: Call)
    requires pid in Run(START, evs).procs
      && Run(START, evs).procs[pid] == Settled(call, Answered(Failure(TimedOut)))
    ensures TimedOutIn(evs, pid, call)
  {
    EveryOutcomeHasItsCause(evs, pid);
    OnlyTimersTimeOut(evs, pid, call);
  }

  lemma OnlyTimersTimeOut(evs: seq<Event>, pid: nat, call: Call)
    requires Cause(evs, pid, call, Answered(Failure(TimedOut)))
    ensures TimedOutIn(evs, pid, call)
  {}
}
