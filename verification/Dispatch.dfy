/** Exactly-once dispatch, eligibility and token safety, in every interleaving of the adapter registry. */
module Dispatch {
  import opened Wrappers
  import opened Domain
  import opened Selection
  import opened Registry

  function CallOf(proc: Proc): Option<Call> {
    match proc
    case Sending(call) => Some(call)
    case Waiting(call) => Some(call)
    case Dropping(call, _) => Some(call)
    case Settled(call, _) => Some(call)
    case _ => None
  }

  /** The dispatch has not been decided yet. */
  predicate Undecided(proc: Proc) { proc.Sending? || proc.Waiting? }
  predicate Guarded(proc: Proc) { Undecided(proc) || proc.Dropping? }

  /** A success was really heard: an action result with this request id and this action execution id. */
  predicate Backed(s: Sys, call: Call, reply: Reply) {
    reply.Success? ==> Response(call.requestId, call.actionId, ActionResult(reply.code)) in s.heard
  }

  predicate OwnerHas(s: Sys, id: Uuid) {
    && id in s.channels && s.channels[id].owner in s.procs
    && CallOf(s.procs[s.channels[id].owner]).Some?
    && CallOf(s.procs[s.channels[id].owner]).value.requestId == id
  }

  /** The sending half is in exactly one place, and the owner's process fits. */
  predicate ChannelOk(s: Sys, id: Uuid)
    requires id in s.channels
  {
    && OwnerHas(s, id)
    && var owner := s.procs[s.channels[id].owner];
      var call := CallOf(owner).value;
      match s.channels[id].sender
      case InPending =>
        id in s.pending && s.pending[id] == Pending(call.adapter, call.token, call.actionId) && Guarded(owner)
      case HeldBy(pid) =>
        id !in s.pending && pid in s.procs && s.procs[pid].Delivering? && s.procs[pid].taken == id
      case Sent(reply) => id !in s.pending && Backed(s, call, reply)
      case Dropped => id !in s.pending && owner.Settled?
  }

  predicate Owns(s: Sys, pid: nat, call: Call) {
    call.requestId in s.channels && s.channels[call.requestId].owner == pid
  }

  predicate ProcOk(s: Sys, pid: nat)
    requires pid in s.procs
  {
    match s.procs[pid]
    case Sending(call) => Owns(s, pid, call)
    case Waiting(call) => Owns(s, pid, call)
    case Dropping(call, outcome) =>
      Owns(s, pid, call) && (outcome.Answered? ==> outcome.reply.Failure?)
    case Settled(call, outcome) =>
      Owns(s, pid, call) && call.requestId !in s.pending && (outcome.Answered? ==> Backed(s, call, outcome.reply))
    case Resolving(response) => response in s.heard
    case Delivering(id, reply) =>
      && OwnerHas(s, id) && s.channels[id].sender == HeldBy(pid)
      && Backed(s, CallOf(s.procs[s.channels[id].owner]).value, reply)
    case _ => true
  }

  predicate ChannelsOk(s: Sys) { forall id <- s.channels :: ChannelOk(s, id) }
  predicate ProcsOk(s: Sys) { forall pid <- s.procs :: ProcOk(s, pid) }
  predicate PendingOk(s: Sys) { forall id <- s.pending :: id in s.channels && s.channels[id].sender == InPending }

  predicate DispatchOk(s: Sys) { ChannelsOk(s) && ProcsOk(s) && PendingOk(s) }

  /** What the invariant says about one process and the channel it works on. */
  predicate LocalOk(s: Sys, pid: nat) {
    pid in s.procs ==>
      && ProcOk(s, pid)
      && (CallOf(s.procs[pid]).Some? && CallOf(s.procs[pid]).value.requestId in s.channels ==>
            ChannelOk(s, CallOf(s.procs[pid]).value.requestId))
      && (s.procs[pid].Delivering? && s.procs[pid].taken in s.channels ==> ChannelOk(s, s.procs[pid].taken))
      && (s.procs[pid].Resolving? && s.procs[pid].response.requestId in s.channels ==>
            ChannelOk(s, s.procs[pid].response.requestId))
  }

  /** Events that touch neither a channel nor the pending map. */
  predicate Quiet(ev: Event) {
    ev.Spawn? || ev.Insert? || ev.Remove? || ev.Clear? || ev.Choose? || ev.Touch?
  }

  predicate Decides(ev: Event) { ev.SendDone? || ev.TimeOut? || ev.Cancel? || ev.Wake? }

  function PidOf(ev: Event): nat { if ev.Touch? then 0 else ev.pid }

  lemma QuietKeepsChannel(s: Sys, ev: Event, id: Uuid)
    requires Quiet(ev) && id in s.channels && ChannelOk(s, id)
    ensures id in Step(s, ev).channels && ChannelOk(Step(s, ev), id)
  {}

  /** No dispatch changes, and a process that changes is not one that holds a sender. */
  predicate SameDispatches(s: Sys, t: Sys) {
    && t.channels == s.channels && t.pending == s.pending && s.heard <= t.heard
    && (forall p <- s.procs :: p in t.procs && CallOf(t.procs[p]) == CallOf(s.procs[p]))
  }

  lemma QuietKeepsMaps(s: Sys, ev: Event)
    requires Quiet(ev)
    ensures Step(s, ev).channels == s.channels && Step(s, ev).pending == s.pending && s.heard <= Step(s, ev).heard
  {}

  lemma QuietKeepsCall(s: Sys, ev: Event, p: nat)
    requires Quiet(ev) && p in s.procs
    ensures p in Step(s, ev).procs && CallOf(Step(s, ev).procs[p]) == CallOf(s.procs[p])
  {}

  predicate HoldsNothing(s: Sys, proc: Proc) {
    CallOf(proc) == None && !proc.Delivering? && (proc.Resolving? ==> proc.response in s.heard)
  }

  lemma QuietEffect(s: Sys, ev: Event, p: nat)
    requires Quiet(ev) && p in Step(s, ev).procs
    ensures (p in s.procs && Step(s, ev).procs[p] == s.procs[p]) || HoldsNothing(Step(s, ev), Step(s, ev).procs[p])
  {}

  lemma SameProcKept(s: Sys, t: Sys, pid: nat)
    requires SameDispatches(s, t) && pid in s.procs && pid in t.procs && t.procs[pid] == s.procs[pid] && ProcOk(s, pid)
    ensures ProcOk(t, pid)
  {}

  lemma QuietKeepsProc(s: Sys, ev: Event, pid: nat)
    requires Quiet(ev) && pid in Step(s, ev).procs && (pid in s.procs ==> ProcOk(s, pid))
    ensures ProcOk(Step(s, ev), pid)
  {
    var t := Step(s, ev);
    QuietKeepsMaps(s, ev);
    QuietEffect(s, ev, pid);
    forall p | p in s.procs
      ensures p in t.procs && CallOf(t.procs[p]) == CallOf(s.procs[p])
    {
      QuietKeepsCall(s, ev, p);
    }
    if pid in s.procs && t.procs[pid] == s.procs[pid] { SameProcKept(s, t, pid); }
  }

  lemma DecisionKeepsChannel(s: Sys, ev: Event, id: Uuid)
    requires Decides(ev) && id in s.channels && ChannelOk(s, id) && LocalOk(s, PidOf(ev))
    ensures id in Step(s, ev).channels && ChannelOk(Step(s, ev), id)
  {
    if ev.Wake? { WakeKeepsChannel(s, ev, id); }
  }

  lemma WakeKeepsChannel(s: Sys, ev: Event, id: Uuid)
    requires ev.Wake? && id in s.channels && ChannelOk(s, id) && LocalOk(s, PidOf(ev))
    ensures id in Step(s, ev).channels && ChannelOk(Step(s, ev), id)
  {}

  lemma WakeKeepsProc(s: Sys, ev: Event, pid: nat)
    requires ev.Wake? && pid in Step(s, ev).procs && LocalOk(s, pid)
    ensures ProcOk(Step(s, ev), pid)
  {}

  /** What a decision makes of the process of its dispatch. */
  predicate Decision(before: Proc, after: Proc) {
    && Undecided(before) && (after.Waiting? || after.Dropping?) && CallOf(after) == CallOf(before)
    && (after.Dropping? && after.outcome.Answered? ==> after.outcome.reply.Failure?)
  }

  lemma DecisionIsPut(s: Sys, ev: Event)
    requires Decides(ev) && !ev.Wake? && Step(s, ev) != s
    ensures ev.pid in s.procs && ev.pid in Step(s, ev).procs
    ensures Decision(s.procs[ev.pid], Step(s, ev).procs[ev.pid])
    ensures Step(s, ev) == Put(s, ev.pid, Step(s, ev).procs[ev.pid])
  {}

  lemma PutKeepsProc(s: Sys, p: nat, next: Proc, pid: nat)
    requires p in s.procs && Decision(s.procs[p], next)
    requires pid in s.procs && ProcOk(s, pid)
    ensures ProcOk(Put(s, p, next), pid)
  {}

  lemma DecisionKeepsProc(s: Sys, ev: Event, pid: nat)
    requires Decides(ev) && !ev.Wake? && pid in Step(s, ev).procs && LocalOk(s, pid)
    ensures ProcOk(Step(s, ev), pid)
  {
    if Step(s, ev) != s {
      DecisionIsPut(s, ev);
      PutKeepsProc(s, ev.pid, Step(s, ev).procs[ev.pid], pid);
    }
  }

  lemma PostKeepsChannel(s: Sys, ev: Event, id: Uuid)
    requires ev.Post? && id in Step(s, ev).channels && (id in s.channels ==> ChannelOk(s, id))
    ensures ChannelOk(Step(s, ev), id)
  {}

  lemma PostKeepsProc(s: Sys, ev: Event, pid: nat)
    requires ev.Post? && pid in Step(s, ev).procs && LocalOk(s, pid)
    ensures ProcOk(Step(s, ev), pid)
  {}

  lemma HandoverKeepsChannel(s: Sys, ev: Event, id: Uuid)
    requires (ev.DropGuard? || ev.Take? || ev.Deliver?) && id in Step(s, ev).channels
    requires id in s.channels && ChannelOk(s, id) && LocalOk(s, PidOf(ev))
    ensures ChannelOk(Step(s, ev), id)
  {
    if ev.DropGuard? { DropGuardKeepsChannel(s, ev, id); }
    else if ev.Take? { TakeKeepsChannel(s, ev, id); }
    else { DeliverKeepsChannel(s, ev, id); }
  }

  lemma DropGuardKeepsChannel(s: Sys, ev: Event, id: Uuid)
    requires ev.DropGuard? && id in s.channels && ChannelOk(s, id) && LocalOk(s, ev.pid)
    ensures id in Step(s, ev).channels && ChannelOk(Step(s, ev), id)
  {}

  lemma TakeKeepsChannel(s: Sys, ev: Event, id: Uuid)
    requires ev.Take? && id in s.channels && ChannelOk(s, id) && LocalOk(s, ev.pid)
    ensures id in Step(s, ev).channels && ChannelOk(Step(s, ev), id)
  {}

  lemma DeliverKeepsChannel(s: Sys, ev: Event, id: Uuid)
    requires ev.Deliver? && id in s.channels && ChannelOk(s, id) && LocalOk(s, ev.pid)
    ensures id in Step(s, ev).channels && ChannelOk(Step(s, ev), id)
  {}

  lemma DropGuardKeepsProc(s: Sys, ev: Event, pid: nat)
    requires ev.DropGuard? && PendingOk(s) && pid in Step(s, ev).procs && LocalOk(s, pid) && LocalOk(s, ev.pid)
    ensures ProcOk(Step(s, ev), pid)
  {
    if s.procs[pid].Delivering? { DropGuardKeepsOwner(s, ev, s.procs[pid].taken); }
  }

  lemma DropGuardKeepsOwner(s: Sys, ev: Event, id: Uuid)
    requires ev.DropGuard? && OwnerHas(s, id)
    ensures OwnerHas(Step(s, ev), id)
  {}

  lemma TakeKeepsProc(s: Sys, ev: Event, pid: nat)
    requires ev.Take? && PendingOk(s) && pid in Step(s, ev).procs && LocalOk(s, pid) && LocalOk(s, ev.pid)
    ensures ProcOk(Step(s, ev), pid)
  {
    if pid == ev.pid { TakerIsOk(s, ev); } else { TakeKeepsOthers(s, ev, pid); }
  }

  lemma TakeKeepsOthers(s: Sys, ev: Event, pid: nat)
    requires ev.Take? && PendingOk(s) && pid in s.procs && pid != ev.pid && LocalOk(s, pid)
    ensures pid in Step(s, ev).procs && ProcOk(Step(s, ev), pid)
  {
    if s.procs[pid].Delivering? { TakeKeepsOwner(s, ev, s.procs[pid].taken); }
  }

  lemma TakeKeepsOwner(s: Sys, ev: Event, id: Uuid)
    requires ev.Take? && OwnerHas(s, id)
    ensures OwnerHas(Step(s, ev), id)
  {}

  lemma TakerIsOk(s: Sys, ev: Event)
    requires ev.Take? && PendingOk(s) && ev.pid in s.procs && LocalOk(s, ev.pid)
    ensures ev.pid in Step(s, ev).procs && ProcOk(Step(s, ev), ev.pid)
  {}

  lemma DeliverKeepsProc(s: Sys, ev: Event, pid: nat)
    requires ev.Deliver? && pid in Step(s, ev).procs && LocalOk(s, pid) && LocalOk(s, ev.pid)
    ensures ProcOk(Step(s, ev), pid)
  {}

  lemma DrainKeepsChannel(s: Sys, ev: Event, id: Uuid)
    requires ev.Drain? && id in s.channels && ChannelOk(s, id)
    ensures id in Step(s, ev).channels && ChannelOk(Step(s, ev), id)
  {}

  lemma DrainKeepsProc(s: Sys, ev: Event, pid: nat)
    requires ev.Drain? && pid in Step(s, ev).procs && LocalOk(s, pid)
    ensures ProcOk(Step(s, ev), pid)
  {
    if s.procs[pid].Delivering? { DrainKeepsOwner(s, ev, s.procs[pid].taken); }
  }

  lemma DrainKeepsOwner(s: Sys, ev: Event, id: Uuid)
    requires ev.Drain? && OwnerHas(s, id)
    ensures OwnerHas(Step(s, ev), id)
  {}

  lemma PendingKept(s: Sys, ev: Event)
    requires PendingOk(s) && LocalOk(s, PidOf(ev))
    ensures PendingOk(Step(s, ev))
  {
    if Quiet(ev) { QuietKeepsMaps(s, ev); } else { LoudKeepsPending(s, ev); }
  }

  lemma LoudKeepsPending(s: Sys, ev: Event)
    requires !Quiet(ev) && PendingOk(s) && LocalOk(s, PidOf(ev))
    ensures PendingOk(Step(s, ev))
  {}

  lemma Local(s: Sys, pid: nat)
    requires DispatchOk(s)
    ensures LocalOk(s, pid)
  {}

  lemma ChannelKept(s: Sys, ev: Event, id: Uuid)
    requires id in s.channels ==> ChannelOk(s, id)
    requires LocalOk(s, PidOf(ev)) && id in Step(s, ev).channels
    ensures ChannelOk(Step(s, ev), id)
  {
    if ev.Post? { PostKeepsChannel(s, ev, id); }
    else {
      assert id in s.channels;
      if Quiet(ev) { QuietKeepsChannel(s, ev, id); }
      else if Decides(ev) { DecisionKeepsChannel(s, ev, id); }
      else if ev.Drain? { DrainKeepsChannel(s, ev, id); }
      else { HandoverKeepsChannel(s, ev, id); }
    }
  }

  lemma ProcKept(s: Sys, ev: Event, pid: nat)
    requires PendingOk(s) && LocalOk(s, pid) && LocalOk(s, PidOf(ev)) && pid in Step(s, ev).procs
    ensures ProcOk(Step(s, ev), pid)
  {
    if Quiet(ev) { QuietKeepsProc(s, ev, pid); }
    else if ev.Wake? { WakeKeepsProc(s, ev, pid); }
    else if Decides(ev) { DecisionKeepsProc(s, ev, pid); }
    else if ev.Post? { PostKeepsProc(s, ev, pid); }
    else if ev.Drain? { DrainKeepsProc(s, ev, pid); }
    else if ev.DropGuard? { DropGuardKeepsProc(s, ev, pid); }
    else if ev.Take? { TakeKeepsProc(s, ev, pid); }
    else { DeliverKeepsProc(s, ev, pid); }
  }

  lemma DispatchKept(s: Sys, ev: Event)
    requires DispatchOk(s)
    ensures DispatchOk(Step(s, ev))
  {
    Local(s, PidOf(ev));
    forall id | id in Step(s, ev).channels ensures ChannelOk(Step(s, ev), id) { ChannelKept(s, ev, id); }
    forall pid | pid in Step(s, ev).procs ensures ProcOk(Step(s, ev), pid) { Local(s, pid); ProcKept(s, ev, pid); }
    PendingKept(s, ev);
  }

  // Eligibility: a token stands for one hello.

  /** While the token is current, its connection is the chosen instance and meets the requirements. */
  predicate Fits(s: Sys, req: Requirements, adapter: Adapter, token: Uuid) {
    && token in s.tokens
    && forall i <- s.connections :: s.connections[i].token == token ==>
         i == adapter.instanceId && s.connections[i].hello.adapterId == adapter.adapterId
         && Satisfies(s.connections[i].hello, req)
  }

  predicate EligibleOk(s: Sys) {
    forall pid <- s.procs ::
      && (s.procs[pid].Chosen? ==>
          Fits(s, s.procs[pid].req, s.procs[pid].candidate.adapter, s.procs[pid].candidate.token))
      && (CallOf(s.procs[pid]).Some? ==>
            var call := CallOf(s.procs[pid]).value; Fits(s, call.req, call.adapter, call.token))
  }

  lemma FitsKept(s: Sys, ev: Event, req: Requirements, adapter: Adapter, token: Uuid)
    requires Fits(s, req, adapter, token)
    ensures Fits(Step(s, ev), req, adapter, token)
  {
    if !MovesTokens(ev) { OtherEventsKeepConnections(s, ev); }
  }

  lemma ChoiceFits(s: Sys, req: Requirements)
    requires ConnectionsOk(s) && Selected(s.connections, req).Ok?
    ensures var c := Selected(s.connections, req).value; Fits(s, req, c.adapter, c.token)
  {}

  lemma ChosenComesFrom(s: Sys, ev: Event, pid: nat)
    requires pid in Step(s, ev).procs && Step(s, ev).procs[pid].Chosen?
    ensures var proc := Step(s, ev).procs[pid];
      || (pid in s.procs && s.procs[pid] == proc)
      || (ev.Choose? && Selected(s.connections, proc.req) == Ok(proc.candidate))
  {
    if !ev.Choose? { ChosenStays(s, ev, pid); }
  }

  lemma ChosenStays(s: Sys, ev: Event, pid: nat)
    requires !ev.Choose? && pid in Step(s, ev).procs && Step(s, ev).procs[pid].Chosen?
    ensures pid in s.procs && s.procs[pid] == Step(s, ev).procs[pid]
  {
    if !Quiet(ev) { LoudKeepsChosen(s, ev, pid); }
  }

  lemma LoudKeepsChosen(s: Sys, ev: Event, pid: nat)
    requires !Quiet(ev) && pid in Step(s, ev).procs && Step(s, ev).procs[pid].Chosen?
    ensures pid in s.procs && s.procs[pid] == Step(s, ev).procs[pid]
  {}

  lemma CallComesFrom(s: Sys, ev: Event, pid: nat)
    requires pid in Step(s, ev).procs && CallOf(Step(s, ev).procs[pid]).Some?
    ensures pid in s.procs
    ensures var call := CallOf(Step(s, ev).procs[pid]).value;
      CallOf(s.procs[pid]) == Some(call) || s.procs[pid] == Chosen(call.req, Candidate(call.adapter, call.token))
  {
    if !ev.Post? { CallsAreKept(s, ev, pid); }
  }

  lemma CallsAreKept(s: Sys, ev: Event, pid: nat)
    requires !ev.Post? && pid in Step(s, ev).procs && CallOf(Step(s, ev).procs[pid]).Some?
    ensures pid in s.procs && CallOf(s.procs[pid]) == CallOf(Step(s, ev).procs[pid])
  {
    if Quiet(ev) { QuietEffect(s, ev, pid); } else { LoudCallsAreKept(s, ev, pid); }
  }

  lemma LoudCallsAreKept(s: Sys, ev: Event, pid: nat)
    requires !ev.Post? && !Quiet(ev) && pid in Step(s, ev).procs && CallOf(Step(s, ev).procs[pid]).Some?
    ensures pid in s.procs && CallOf(s.procs[pid]) == CallOf(Step(s, ev).procs[pid])
  {}

  lemma EligibleKept(s: Sys, ev: Event)
    requires ConnectionsOk(s) && EligibleOk(s)
    ensures EligibleOk(Step(s, ev))
  {
    var t := Step(s, ev);
    forall pid | pid in t.procs
      ensures t.procs[pid].Chosen? ==>
        Fits(t, t.procs[pid].req, t.procs[pid].candidate.adapter, t.procs[pid].candidate.token)
      ensures CallOf(t.procs[pid]).Some? ==>
        var call := CallOf(t.procs[pid]).value; Fits(t, call.req, call.adapter, call.token)
    {
      if t.procs[pid].Chosen? {
        ChosenComesFrom(s, ev, pid);
        if !(pid in s.procs && s.procs[pid] == t.procs[pid]) { ChoiceFits(s, t.procs[pid].req); }
        FitsKept(s, ev, t.procs[pid].req, t.procs[pid].candidate.adapter, t.procs[pid].candidate.token);
      }
      if CallOf(t.procs[pid]).Some? {
        CallComesFrom(s, ev, pid);
        var call := CallOf(t.procs[pid]).value;
        FitsKept(s, ev, call.req, call.adapter, call.token);
      }
    }
  }

  // One drainer per token.

  predicate OneDrainer(s: Sys) {
    forall p, q, token ::
      p in s.procs && q in s.procs && Drains(s.procs[p], token) && Drains(s.procs[q], token) ==> p == q
  }

  /** A drain that is new drains a token that was current. */
  lemma DrainsComeFrom(s: Sys, ev: Event, pid: nat, token: Uuid)
    requires pid in Step(s, ev).procs && Drains(Step(s, ev).procs[pid], token)
    ensures (pid in s.procs && Drains(s.procs[pid], token))
      || (CurrentSomewhere(s, token) && (ev.Insert? || ev.Remove? || ev.Clear?) && ev.pid == pid)
  {
    if !MovesTokens(ev) {
      OtherEventsKeepDrains(s, ev, pid, token);
    } else if !(pid in s.procs && Drains(s.procs[pid], token)) {
      match ev
      case Insert(_, _, _) => assert IsCurrent(s.connections, s.procs[pid].hello.instanceId, token);
      case Remove(_) => assert IsCurrent(s.connections, s.procs[pid].instance, token);
      case Clear(_) =>
        var i :| i in s.connections && s.connections[i].token == token;
        assert IsCurrent(s.connections, i, token);
      case _ =>
    }
  }

  lemma OneDrainerKept(s: Sys, ev: Event)
    requires DrainsOk(s) && OneDrainer(s)
    ensures OneDrainer(Step(s, ev))
  {
    var t := Step(s, ev);
    forall p, q, token | p in t.procs && q in t.procs && Drains(t.procs[p], token) && Drains(t.procs[q], token)
      ensures p == q
    {
      DrainsComeFrom(s, ev, p, token);
      DrainsComeFrom(s, ev, q, token);
    }
  }

  // Everything together, in every reachable state.

  predicate Inv(s: Sys) {
    ConnectionsOk(s) && DrainsOk(s) && OneDrainer(s) && PendingTokensOk(s) && EligibleOk(s) && DispatchOk(s)
  }

  lemma InvKept(s: Sys, ev: Event)
    requires Inv(s)
    ensures Inv(Step(s, ev))
  {
    TokensKept(s, ev);
    OneDrainerKept(s, ev);
    PendingTokensKept(s, ev);
    EligibleKept(s, ev);
    DispatchKept(s, ev);
  }

  lemma {:induction false} ReachableInv(evs: seq<Event>)
    ensures Inv(Run(START, evs))
  {
    if evs != [] {
      ReachableInv(evs[..|evs| - 1]);
      InvKept(Run(START, evs[..|evs| - 1]), evs[|evs| - 1]);
    }
  }

  lemma {:induction false} RunAppend(s: Sys, a: seq<Event>, b: seq<Event>)
    ensures Run(s, a + b) == Run(Run(s, a), b)
  {
    hide Step;
    if b == [] {
      assert a + b == a;
    } else {
      RunAppend(s, a, b[..|b| - 1]);
      assert (a + b)[..|a + b| - 1] == a + b[..|b| - 1];
    }
  }

  // Token safety.

  /** Registry safety: a pending request's token is current for its instance or still being drained. */
  lemma PendingIsCurrentOrDrained(evs: seq<Event>, id: Uuid)
    requires id in Run(START, evs).pending
    ensures Covered(Run(START, evs), Run(START, evs).pending[id])
  {
    ReachableInv(evs);
  }

  /** Issued once, replaced or removed since, and its drain has ended. */
  predicate Retired(s: Sys, token: Uuid) {
    token in s.tokens && !CurrentSomewhere(s, token) && !BeingDrained(s, token)
  }

  lemma RetiredKept(s: Sys, ev: Event, token: Uuid)
    requires Retired(s, token)
    ensures Retired(Step(s, ev), token)
  {
    var t := Step(s, ev);
    if BeingDrained(t, token) {
      var d :| d in t.procs && Drains(t.procs[d], token);
      DrainsComeFrom(s, ev, d, token);
      assert false;
    }
    if !MovesTokens(ev) { OtherEventsKeepConnections(s, ev); }
    forall i ensures !IsCurrent(t.connections, i, token) { assert !IsCurrent(s.connections, i, token); }
  }

  lemma DrainEndsAtOnce(s: Sys, pid: nat, token: Uuid)
    requires OneDrainer(s) && pid in s.procs && Drains(s.procs[pid], token)
    ensures !BeingDrained(Step(s, Drain(pid)), token)
  {
    var t := Step(s, Drain(pid));
    assert forall d <- t.procs :: d in s.procs && (d == pid || t.procs[d] == s.procs[d]);
    assert t.procs[pid] == Done;
  }

  lemma DrainEndRetires(s: Sys, pid: nat, token: Uuid)
    requires DrainsOk(s) && OneDrainer(s) && pid in s.procs && Drains(s.procs[pid], token)
    ensures Retired(Step(s, Drain(pid)), token)
  {
    DrainEndsAtOnce(s, pid, token);
    assert Step(s, Drain(pid)).connections == s.connections && Step(s, Drain(pid)).tokens == s.tokens;
  }

  /** The end of a token's drain retires it at once. */
  lemma DrainRetires(evs: seq<Event>, pid: nat, token: Uuid)
    requires pid in Run(START, evs).procs && Drains(Run(START, evs).procs[pid], token)
    ensures Retired(Step(Run(START, evs), Drain(pid)), token)
  {
    ReachableInv(evs);
    DrainEndRetires(Run(START, evs), pid, token);
  }

  lemma {:induction false} RetiredForever(s: Sys, after: seq<Event>, token: Uuid)
    requires Retired(s, token)
    ensures Retired(Run(s, after), token)
  {
    if after != [] {
      RetiredForever(s, after[..|after| - 1], token);
      RetiredKept(Run(s, after[..|after| - 1]), after[|after| - 1], token);
    }
  }

  /** Once a token's drain has ended, no request with that token is pending, now or ever after. */
  lemma RetiredTokenNeverPends(evs: seq<Event>, after: seq<Event>, token: Uuid)
    requires Retired(Run(START, evs), token)
    ensures forall id <- Run(Run(START, evs), after).pending :: Run(Run(START, evs), after).pending[id].token != token
  {
    RetiredForever(Run(START, evs), after, token);
    RunAppend(START, evs, after);
    ReachableInv(evs + after);
    var t := Run(Run(START, evs), after);
    forall id | id in t.pending ensures t.pending[id].token != token {
      assert Covered(t, t.pending[id]);
    }
  }

  lemma SparesOthers(s: Sys, pid: nat, id: Uuid, token: Uuid, ev: Event)
    requires PendingOk(s) && pid in s.procs && id in s.pending && s.pending[id].token != token
    requires s.procs[pid] == Draining(token) || (s.procs[pid].Disconnecting? && s.procs[pid].token == token)
    requires ev == Remove(pid) || ev == Drain(pid)
    ensures var t := Step(s, ev);
      && id in t.pending && t.pending[id] == s.pending[id]
      && id in s.channels && id in t.channels && t.channels[id] == s.channels[id]
  {}

  /** A disconnect whose token is not the instance's current one changes no connection, request or channel. */
  lemma StaleDisconnectChangesNothing(s: Sys, pid: nat)
    requires pid in s.procs && s.procs[pid].Disconnecting?
    requires !IsCurrent(s.connections, s.procs[pid].instance, s.procs[pid].token)
    ensures Step(s, Remove(pid)) == s.(procs := s.procs[pid := Done])
    ensures Step(s, Drain(pid)) == s && Step(Step(s, Remove(pid)), Drain(pid)) == Step(s, Remove(pid))
  {}

  /** A disconnect, stale or not, leaves every request of any other connection pending and unanswered. */
  lemma DisconnectSparesOthers(evs: seq<Event>, pid: nat, id: Uuid, token: Uuid)
    requires var s := Run(START, evs);
      && pid in s.procs && id in s.pending && s.pending[id].token != token
      && (s.procs[pid] == Draining(token) || (s.procs[pid].Disconnecting? && s.procs[pid].token == token))
    ensures var s := Run(START, evs);
      forall ev | ev == Remove(pid) || ev == Drain(pid) :: var t := Step(s, ev);
        && id in t.pending && t.pending[id] == s.pending[id]
        && id in s.channels && id in t.channels && t.channels[id] == s.channels[id]
  {
    ReachableInv(evs);
    SparesOthers(Run(START, evs), pid, id, token, Remove(pid));
    SparesOthers(Run(START, evs), pid, id, token, Drain(pid));
  }

  // Exactly-once dispatch.

  predicate SameRequest(s: Sys, p: nat, q: nat) {
    && p in s.procs && q in s.procs && CallOf(s.procs[p]).Some? && CallOf(s.procs[q]).Some?
    && CallOf(s.procs[p]).value.requestId == CallOf(s.procs[q]).value.requestId
  }

  /** The pending map is exactly the set of unanswered dispatches in flight: an undecided dispatch is in it unless its
      reply has been sent or a resolver is about to send it, and everything in it belongs to a guarded dispatch. */
  lemma PendingIsUnanswered(evs: seq<Event>)
    ensures var s := Run(START, evs);
      && (forall pid <- s.procs :: Undecided(s.procs[pid]) ==>
            (s.procs[pid].call.requestId in s.pending <==>
               !Ready(s, s.procs[pid].call)
               && forall d <- s.procs :: !(s.procs[d].Delivering? && s.procs[d].taken == s.procs[pid].call.requestId)))
      && (forall id <- s.pending :: OwnerHas(s, id) && Guarded(s.procs[s.channels[id].owner]))
      && (forall p, q | SameRequest(s, p, q) :: p == q)
  {
    ReachableInv(evs);
    var s := Run(START, evs);
    forall pid | pid in s.procs && Undecided(s.procs[pid])
      ensures s.procs[pid].call.requestId in s.pending <==>
        !Ready(s, s.procs[pid].call)
        && forall d <- s.procs :: !(s.procs[d].Delivering? && s.procs[d].taken == s.procs[pid].call.requestId)
    {
      UnansweredOne(s, pid);
    }
    forall id | id in s.pending ensures OwnerHas(s, id) && Guarded(s.procs[s.channels[id].owner]) {
      assert ChannelOk(s, id);
    }
    forall p, q | SameRequest(s, p, q) ensures p == q {
      assert ProcOk(s, p) && ProcOk(s, q);
    }
  }

  lemma UnansweredOne(s: Sys, pid: nat)
    requires DispatchOk(s) && pid in s.procs && Undecided(s.procs[pid])
    ensures s.procs[pid].call.requestId in s.pending <==>
      !Ready(s, s.procs[pid].call)
      && forall d <- s.procs :: !(s.procs[d].Delivering? && s.procs[d].taken == s.procs[pid].call.requestId)
  {
    var id := s.procs[pid].call.requestId;
    assert ProcOk(s, pid) && ChannelOk(s, id);
    forall d | d in s.procs && s.procs[d].Delivering? && s.procs[d].taken == id
      ensures s.channels[id].sender == HeldBy(d) { assert ProcOk(s, d); }
  }

  /** A settled dispatch has left no entry, a success was heard as an action result with both of its ids, and
      the receiver of a waiting dispatch never finds the sender gone. */
  lemma SettledDispatch(evs: seq<Event>, pid: nat)
    requires pid in Run(START, evs).procs
    ensures var s := Run(START, evs);
      match s.procs[pid]
      case Settled(call, outcome) =>
        && call.requestId !in s.pending
        && (outcome.Answered? && outcome.reply.Success? ==>
              Response(call.requestId, call.actionId, ActionResult(outcome.reply.code)) in s.heard)
      case Waiting(call) => call.requestId in s.channels && s.channels[call.requestId].sender != Dropped
      case _ => true
  {
    ReachableInv(evs);
    var s := Run(START, evs);
    assert ProcOk(s, pid);
    if s.procs[pid].Waiting? { assert ChannelOk(s, s.procs[pid].call.requestId); }
  }

  /** A response that names a waiting dispatch decides it: success exactly if it is an action result with the right
      action execution id. */
  lemma ResponseDecides(evs: seq<Event>, pid: nat, resolver: nat, response: Response)
    requires var s := Run(START, evs);
      && pid in s.procs && s.procs[pid].Waiting? && resolver !in s.procs
      && response.requestId == s.procs[pid].call.requestId && response.requestId in s.pending
    ensures var s := Run(START, evs); var call := s.procs[pid].call;
      var t := Step(Step(Step(Step(s, Spawn(resolver, Resolving(response))), Take(resolver)), Deliver(resolver)),
                    Wake(pid));
      && pid in t.procs && call.requestId !in t.pending
      && t.procs[pid] == Settled(call, Answered(
        if response.actionId == call.actionId && response.body.ActionResult? then Success(response.body.code)
        else Failure(ProtocolError)))
  {
    ReachableInv(evs);
    Local(Run(START, evs), pid);
    ResponseDecidesHere(Run(START, evs), pid, resolver, response);
  }

  lemma ResponseDecidesHere(s: Sys, pid: nat, resolver: nat, response: Response)
    requires pid in s.procs && s.procs[pid].Waiting? && resolver !in s.procs && LocalOk(s, pid)
    requires response.requestId == s.procs[pid].call.requestId && response.requestId in s.pending
    ensures var call := s.procs[pid].call;
      var t := Step(Step(Step(Step(s, Spawn(resolver, Resolving(response))), Take(resolver)), Deliver(resolver)),
                    Wake(pid));
      && pid in t.procs && call.requestId !in t.pending
      && t.procs[pid] == Settled(call, Answered(
        if response.actionId == call.actionId && response.body.ActionResult? then Success(response.body.code)
        else Failure(ProtocolError)))
  {
    var id := response.requestId;
    var reply := ReplyTo(s.pending[id], response);
    var u := Step(Step(s, Spawn(resolver, Resolving(response))), Take(resolver));
    assert u.procs[resolver] == Delivering(id, reply) && u.procs[pid] == s.procs[pid];
    var v := Step(u, Deliver(resolver));
    assert v.channels[id].sender == Sent(reply) && v.procs[pid] == s.procs[pid];
  }

  /** The end of a drain decides every waiting dispatch with a drained token that is still pending: it wakes as
      disconnected. */
  lemma DrainDisconnects(evs: seq<Event>, drainer: nat, pid: nat)
    requires var s := Run(START, evs);
      && drainer in s.procs && pid in s.procs && s.procs[pid].Waiting?
      && Drains(s.procs[drainer], s.procs[pid].call.token) && s.procs[pid].call.requestId in s.pending
    ensures var call := Run(START, evs).procs[pid].call;
      var t := Step(Step(Run(START, evs), Drain(drainer)), Wake(pid));
      && pid in t.procs && t.procs[pid] == Settled(call, Answered(Failure(Disconnected)))
      && call.requestId !in t.pending
  {
    ReachableInv(evs);
    Local(Run(START, evs), pid);
    DrainDecidesHere(Run(START, evs), drainer, pid);
  }

  /** The same for a dispatch whose request was still being sent: it settles as disconnected once it comes to wait. */
  lemma DrainDisconnectsSending(evs: seq<Event>, drainer: nat, pid: nat)
    requires var s := Run(START, evs);
      && drainer in s.procs && pid in s.procs && s.procs[pid].Sending?
      && Drains(s.procs[drainer], s.procs[pid].call.token) && s.procs[pid].call.requestId in s.pending
    ensures var call := Run(START, evs).procs[pid].call;
      var t := Step(Step(Step(Run(START, evs), Drain(drainer)), SendDone(pid, true)), Wake(pid));
      && pid in t.procs && t.procs[pid] == Settled(call, Answered(Failure(Disconnected)))
      && call.requestId !in t.pending
  {
    ReachableInv(evs);
    Local(Run(START, evs), pid);
    DrainDecidesSending(Run(START, evs), drainer, pid);
  }

  lemma DrainDecidesSending(s: Sys, drainer: nat, pid: nat)
    requires drainer in s.procs && pid in s.procs && s.procs[pid].Sending? && LocalOk(s, pid)
    requires Drains(s.procs[drainer], s.procs[pid].call.token) && s.procs[pid].call.requestId in s.pending
    ensures var call := s.procs[pid].call;
      var t := Step(Step(Step(s, Drain(drainer)), SendDone(pid, true)), Wake(pid));
      && pid in t.procs && t.procs[pid] == Settled(call, Answered(Failure(Disconnected)))
      && call.requestId !in t.pending
  {
    var id := s.procs[pid].call.requestId;
    assert s.pending[id].token == s.procs[pid].call.token && id in s.channels;
    var u := Step(s, Drain(drainer));
    assert u.procs[pid] == s.procs[pid] && id !in u.pending;
    assert u.channels[id].sender == Sent(Failure(Disconnected));
    assert Step(u, SendDone(pid, true)) == Put(u, pid, Waiting(s.procs[pid].call));
  }

  lemma DrainDecidesHere(s: Sys, drainer: nat, pid: nat)
    requires drainer in s.procs && pid in s.procs && s.procs[pid].Waiting? && LocalOk(s, pid)
    requires Drains(s.procs[drainer], s.procs[pid].call.token) && s.procs[pid].call.requestId in s.pending
    ensures var call := s.procs[pid].call; var t := Step(Step(s, Drain(drainer)), Wake(pid));
      && pid in t.procs && t.procs[pid] == Settled(call, Answered(Failure(Disconnected)))
      && call.requestId !in t.pending
  {
    var id := s.procs[pid].call.requestId;
    assert s.pending[id].token == s.procs[pid].call.token && id in s.channels;
    var u := Step(s, Drain(drainer));
    assert u.procs[pid] == s.procs[pid] && id !in u.pending;
    assert u.channels[id].sender == Sent(Failure(Disconnected));
  }

  lemma OutcomeKept(s: Sys, ev: Event, pid: nat)
    requires pid in s.procs && (s.procs[pid].Settled? || s.procs[pid].Rejected?)
    ensures pid in Step(s, ev).procs && Step(s, ev).procs[pid] == s.procs[pid]
  {
    if Quiet(ev) { QuietKeepsOutcome(s, ev, pid); } else { LoudKeepsOutcome(s, ev, pid); }
  }

  lemma QuietKeepsOutcome(s: Sys, ev: Event, pid: nat)
    requires Quiet(ev) && pid in s.procs && (s.procs[pid].Settled? || s.procs[pid].Rejected?)
    ensures pid in Step(s, ev).procs && Step(s, ev).procs[pid] == s.procs[pid]
  {}

  lemma LoudKeepsOutcome(s: Sys, ev: Event, pid: nat)
    requires !Quiet(ev) && pid in s.procs && (s.procs[pid].Settled? || s.procs[pid].Rejected?)
    ensures pid in Step(s, ev).procs && Step(s, ev).procs[pid] == s.procs[pid]
  {}

  /** A dispatch has one outcome: once settled or rejected it stays exactly as it is. */
  lemma {:induction false} OutcomeIsFinal(s: Sys, after: seq<Event>, pid: nat)
    requires pid in s.procs && (s.procs[pid].Settled? || s.procs[pid].Rejected?)
    ensures pid in Run(s, after).procs && Run(s, after).procs[pid] == s.procs[pid]
  {
    if after != [] {
      OutcomeIsFinal(s, after[..|after| - 1], pid);
      OutcomeKept(Run(s, after[..|after| - 1]), after[|after| - 1], pid);
    }
  }

  /** Selection and insertion are separate lock sections, yet a request is inserted only into the chosen instance's
      current connection, and that connection meets the requirements at that moment. */
  lemma PostedRequestIsEligible(evs: seq<Event>, pid: nat, requestId: Uuid, actionId: Uuid)
    requires var s := Run(START, evs);
      requestId !in s.pending && requestId in Step(s, Post(pid, requestId, actionId)).pending
    ensures var s := Run(START, evs); var t := Step(s, Post(pid, requestId, actionId));
      && pid in s.procs && s.procs[pid].Chosen?
      && var req, c := s.procs[pid].req, s.procs[pid].candidate;
        && t.pending[requestId] == Pending(c.adapter, c.token, actionId)
        && EligibleIn(t.connections, req, c.adapter.instanceId)
        && t.connections[c.adapter.instanceId].token == c.token
  {
    ReachableInv(evs);
  }
}
