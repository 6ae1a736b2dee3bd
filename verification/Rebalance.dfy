/**
 The rebalance approval machine: the pure decision, the outcome of each RPC,
 the status a pass writes, and the reconcile method over one resource.
 */
module Rebalance {
  import opened Options
  import opened Text

  datatype State = New | ProposalReady | Rebalancing | Ready | NotReady | Stopped

  datatype Command = Approve | Refresh | Stop

  datatype Action = CreateProposal | Execute | PollExecution | Cancel | IdleAction

  datatype ProposalStatus = Unspecified | Computed | Executing | Completed | Failed | Cancelled

  datatype Proposal = Proposal(id: string, status: ProposalStatus, summary: string, failure: Option<string>)

  datatype RpcError = Transport | Rpc(code: string) | Decode

  function StateName(s: State): (n: string)
  {
    match s
    case New => "New"
    case ProposalReady => "ProposalReady"
    case Rebalancing => "Rebalancing"
    case Ready => "Ready"
    case NotReady => "NotReady"
    case Stopped => "Stopped"
  }

  function ParseState(n: string): (s: Option<State>)
  {
    if n == "New" then Some(New)
    else if n == "ProposalReady" then Some(ProposalReady)
    else if n == "Rebalancing" then Some(Rebalancing)
    else if n == "Ready" then Some(Ready)
    else if n == "NotReady" then Some(NotReady)
    else if n == "Stopped" then Some(Stopped)
    else None
  }

  function ParseCommand(v: string): (c: Option<Command>)
  {
    var t := Trim(v);
    if t == "approve" then Some(Approve)
    else if t == "refresh" then Some(Refresh)
    else if t == "stop" then Some(Stop)
    else None
  }

  function Decide(state: State, command: Option<Command>, hasSession: bool): (a: Action)
  {
    match command
    case Some(Refresh) => CreateProposal
    case Some(Stop) => if state == Rebalancing && hasSession then Cancel else IdleAction
    case Some(Approve) => if state == ProposalReady && hasSession then Execute else IdleAction
    case None =>
      match state
      case New => CreateProposal
      case Rebalancing => if hasSession then PollExecution else CreateProposal
      case _ => IdleAction
  }

  // ------------------------------------------------------------------ outcomes

  datatype Outcome = Outcome(
    state: State,
    reason: string,
    message: string,
    newSession: Option<string>,
    newOptimization: Option<string>,
    advanceGeneration: bool)

  function Transient(state: State, reason: string, message: string): (o: Outcome)
  {
    Outcome(state, reason, message, None, None, false)
  }

  function FromCreate(p: Proposal): (o: Outcome)
  {
    match p.status
    case Computed => Outcome(ProposalReady, "ProposalReady", p.summary, Some(p.id), Some(p.summary), true)
    case Completed => Outcome(Ready, "AlreadyBalanced", p.summary, Some(p.id), Some(p.summary), true)
    case _ => Outcome(NotReady, "UnexpectedProposalStatus", p.id, Some(p.id), None, false)
  }

  function FromExecuteOrPoll(p: Proposal): (o: Outcome)
  {
    match p.status
    case Executing => Transient(Rebalancing, "Rebalancing", p.id)
    case Computed => Transient(Rebalancing, "Rebalancing", p.id)
    case Completed => Transient(Ready, "Ready", p.id)
    case Failed => Transient(NotReady, "RebalanceFailed", if p.failure.Some? then p.failure.value else p.id)
    case Cancelled => Transient(Stopped, "Stopped", p.id)
    case Unspecified => Transient(NotReady, "UnexpectedProposalStatus", p.id)
  }

  function FromCancel(p: Proposal): (o: Outcome)
  {
    Transient(Stopped, "Stopped", p.id)
  }

  const RETRYABLE: set<string> := {
    "failed_precondition", "unavailable", "aborted", "resource_exhausted",
    "deadline_exceeded", "http_502", "http_503", "http_504" }

  predicate IsRetryable(e: RpcError)
  {
    e.Transport? || (e.Rpc? && e.code in RETRYABLE)
  }

  function FromRpcError(a: Action, e: RpcError): (o: Outcome)
  {
    if a == CreateProposal && IsRetryable(e) then Transient(New, "RetryingProposal", "")
    else Transient(NotReady, "RebalancerError", "")
  }

  function FromReply(a: Action, p: Proposal): (o: Outcome)
    requires a != IdleAction
  {
    match a
    case CreateProposal => FromCreate(p)
    case Execute => FromExecuteOrPoll(p)
    case PollExecution => FromExecuteOrPoll(p)
    case Cancel => FromCancel(p)
  }

  // -------------------------------------------------------- resource and status

  datatype Condition = Condition(kind: string, status: string, reason: string, message: string, since: int)

  datatype Status = Status(
    conditions: seq<Condition>,
    observedGeneration: Option<int>,
    session: Option<string>,
    optimization: Option<string>)

  datatype Resource = Resource(generation: int, annotation: Option<string>, status: Option<Status>)

  /** The last condition that holds. */
  function Active(cs: seq<Condition>): (c: Option<Condition>)
  {
    if cs == [] then None
    else if cs[|cs| - 1].status == "True" then Some(cs[|cs| - 1])
    else Active(cs[..|cs| - 1])
  }

  function CurrentState(r: Resource): (s: State)
  {
    var c := if r.status.Some? then Active(r.status.value.conditions) else None;
    if c.Some? && ParseState(c.value.kind).Some? then ParseState(c.value.kind).value else New
  }

  function ReadCommand(r: Resource): (c: Option<Command>)
  {
    if r.annotation.Some? then ParseCommand(r.annotation.value) else None
  }

  function Session(r: Resource): (s: Option<string>)
  {
    if r.status.Some? then r.status.value.session else None
  }

  /** Keeps the transition time while the state does not change. */
  function ActiveCondition(existing: Option<Status>, o: Outcome, now: int): (c: Condition)
  {
    var previous := if existing.Some? then Active(existing.value.conditions) else None;
    var since := if previous.Some? && previous.value.kind == StateName(o.state) then previous.value.since else now;
    Condition(StateName(o.state), "True", o.reason, o.message, since)
  }

  /** The status a pass writes: new values where the outcome has them, carried forward otherwise. */
  function WrittenStatus(r: Resource, o: Outcome, now: int): (s: Status)
  {
    var existing := r.status;
    Status([ActiveCondition(existing, o, now)],
           if o.advanceGeneration then Some(r.generation)
           else if existing.Some? then existing.value.observedGeneration else None,
           if o.newSession.Some? then o.newSession else Session(r),
           if o.newOptimization.Some? then o.newOptimization
           else if existing.Some? then existing.value.optimization else None)
  }

  /** The next pass reads back the state this pass decided. */
  lemma WrittenStateReadsBack(r: Resource, o: Outcome, now: int)
    ensures CurrentState(r.(status := Some(WrittenStatus(r, o, now)))) == o.state
  {
    var s := WrittenStatus(r, o, now);
    assert s.conditions[|s.conditions| - 1].status == "True";
  }

  /** A change of state moves the transition time. */
  lemma ChangeMovesTransitionTime(r: Resource, o: Outcome, now: int)
    requires CurrentState(r) != o.state
    ensures |WrittenStatus(r, o, now).conditions| == 1 && WrittenStatus(r, o, now).conditions[0].since == now
  {
  }

  /** Writing the same outcome again, at any later time, changes nothing, so no watch event fires. */
  lemma RewriteIsIdentical(r: Resource, o: Outcome, now: int, later: int)
    requires o.newSession.None? && o.newOptimization.None? && !o.advanceGeneration
    ensures
      var r' := r.(status := Some(WrittenStatus(r, o, now)));
      WrittenStatus(r', o, later) == r'.status.value
  {
    var s := WrittenStatus(r, o, now);
    assert Active(s.conditions) == Some(s.conditions[0]);
  }

  // ---------------------------------------------------------------- one pass

  datatype Endpoint = Resolved | Unresolved(reason: string)

  datatype Call = CreateCall | ExecuteCall(id: string) | PollCall(id: string) | CancelCall(id: string)

  /** Everything outside the resource that decides how a pass goes. */
  datatype World = World(
    endpoint: Endpoint,
    credentialFailure: Option<string>,
    reply: Result<Proposal, RpcError>,
    now: int)

  function CallFor(a: Action, session: Option<string>): (c: Call)
    requires a != IdleAction
  {
    var id := if session.Some? then session.value else "";
    match a
    case CreateProposal => CreateCall
    case Execute => ExecuteCall(id)
    case PollExecution => PollCall(id)
    case Cancel => CancelCall(id)
  }

  /** The resource after a pass, and the RPC it issued. */
  function PassResult(r: Resource, w: World): (res: (Resource, Option<Call>))
  {
    if w.endpoint.Unresolved? then
      (r.(status := Some(WrittenStatus(r, Transient(NotReady, w.endpoint.reason, ""), w.now))), None)
    else
      var command := ReadCommand(r);
      var action := Decide(CurrentState(r), command, Session(r).Some?);
      var consumed := if command.Some? then r.(annotation := None) else r;
      if action == IdleAction then (consumed, None)
      else if w.credentialFailure.Some? && (action == CreateProposal || action == Execute) then
        (r.(status := Some(WrittenStatus(r, Transient(NotReady, w.credentialFailure.value, ""), w.now))), None)
      else
        var call := CallFor(action, Session(r));
        if w.reply == Err(Transport) then (r, Some(call))
        else
          var o := if w.reply.Ok? then FromReply(action, w.reply.value) else FromRpcError(action, w.reply.error);
          (consumed.(status := Some(WrittenStatus(r, o, w.now))), Some(call))
  }

  /** The KafkaRebalance object, updated in place by a pass. */
  class RebalanceObject {
    var resource: Resource

    constructor (r: Resource)
      ensures resource == r
    {
      resource := r;
    }

    method WriteStatus(o: Outcome, read: Resource, now: int)
      modifies this
      ensures resource == old(resource).(status := Some(WrittenStatus(read, o, now)))
    {
      resource := resource.(status := Some(WrittenStatus(read, o, now)));
    }

    method RemoveCommandAnnotation()
      modifies this
      ensures resource == old(resource).(annotation := None)
    {
      resource := resource.(annotation := None);
    }

    method Reconcile(w: World) returns (call: Option<Call>)
      modifies this
      ensures (resource, call) == PassResult(old(resource), w)
    {
      var obj := resource;
      if w.endpoint.Unresolved? {
        WriteStatus(Transient(NotReady, w.endpoint.reason, ""), obj, w.now);
        return None;
      }
      var state, command, session := CurrentState(obj), ReadCommand(obj), Session(obj);
      var action := Decide(state, command, session.Some?);
      if action == IdleAction {
        if command.Some? {
          RemoveCommandAnnotation();
        }
        return None;
      }
      if (action == CreateProposal || action == Execute) && w.credentialFailure.Some? {
        WriteStatus(Transient(NotReady, w.credentialFailure.value, ""), obj, w.now);
        return None;
      }
      call := Some(CallFor(action, session));
      var o;
      match w.reply {
        case Ok(p) => o := FromReply(action, p);
        case Err(Transport) => return;
        case Err(e) => o := FromRpcError(action, e);
      }
      if command.Some? {
        RemoveCommandAnnotation();
      }
      WriteStatus(o, obj, w.now);
    }
  }
}
