/**
 Runs of the approval machine: users set, change and clear the command
 annotation at any time, also in the middle of a pass, specs change, and passes
 run one after another.  The patches of a pass may be lost.

 Each property of the runs is given with the steps that break it: it holds
 throughout a run if and only if no such step occurs.
 */
module RebalanceRuns {
  import opened Options
  import opened Text
  import opened Rebalance

  /** A pass removes the annotation first and writes the status last; it may end before either. */
  datatype Loss = AllWritten | StatusLost | NothingWritten

  /** `during` is what the user sets after a pass has read the resource and before it writes. */
  datatype Event =
    | Annotate(value: Option<string>)
    | EditSpec
    | Pass(w: World, loss: Loss, during: Option<string>)

  /**
   `latest` is the last proposal CreateProposal returned, `createdAt` when it
   did, `executed` whether ExecuteProposal was sent since, `annotatedAt` when
   the annotation was last set, and `call` the RPC of the last event.
   */
  datatype Sys = Sys(
    resource: Resource,
    clock: nat,
    latest: Option<Proposal>,
    createdAt: nat,
    executed: bool,
    annotatedAt: nat,
    call: Option<Call>)

  /** The resource after a pass whose patches may be lost and whose annotation may change meanwhile. */
  function Stored(r: Resource, written: Resource, loss: Loss, during: Option<string>): (r': Resource)
  {
    var removed := written.annotation != r.annotation && !loss.NothingWritten?;
    Resource(r.generation,
             if removed then None else if during.Some? then during else r.annotation,
             if loss.AllWritten? then written.status else r.status)
  }

  function Next(s: Sys, e: Event): (s': Sys)
  {
    var t := s.clock + 1;
    match e
    case Annotate(v) => s.(resource := s.resource.(annotation := v), clock := t, annotatedAt := t, call := None)
    case EditSpec => s.(resource := s.resource.(generation := s.resource.generation + 1), clock := t, call := None)
    case Pass(w, loss, during) =>
      var (r, call) := PassResult(s.resource, w);
      var created := call == Some(CreateCall) && w.reply.Ok?;
      s.(resource := Stored(s.resource, r, loss, during),
         clock := t + 1, call := call,
         annotatedAt := if during.Some? then t else s.annotatedAt,
         latest := if created then Some(w.reply.value) else s.latest,
         createdAt := if created then t + 1 else s.createdAt,
         executed := !created && (s.executed || (call.Some? && call.value.ExecuteCall?)))
  }

  ghost predicate Init(s: Sys)
  {
    s.resource.status.None? && s.latest.None? && s.call.None? && !s.executed && s.createdAt == 0 && s.annotatedAt == s.clock == 1
  }

  ghost predicate Run(ss: seq<Sys>, es: seq<Event>)
  {
    && |ss| == |es| + 1
    && Init(ss[0])
    && forall i :: 0 <= i < |es| ==> ss[i + 1] == Next(ss[i], es[i])
  }

  // ------------------------------------------- properties and what breaks them

  /** A proposal on offer, or under execution, is the latest one the rebalancer returned. */
  ghost predicate Latest(s: Sys)
  {
    CurrentState(s.resource) in {ProposalReady, Rebalancing} ==>
      s.latest.Some? && Session(s.resource) == Some(s.latest.value.id)
  }

  /** What is on offer was computed. */
  ghost predicate Computable(s: Sys)
  {
    CurrentState(s.resource) == ProposalReady ==> s.latest.Some? && s.latest.value.status == Computed
  }

  /** What is under execution was sent for it. */
  ghost predicate Sent(s: Sys)
  {
    CurrentState(s.resource) == Rebalancing ==> s.executed
  }

  /** An approve that is set was set after the latest proposal came back. */
  ghost predicate Timely(s: Sys)
  {
    ReadCommand(s.resource) == Some(Approve) ==> s.createdAt < s.annotatedAt
  }

  predicate Creates(s: Sys, e: Event)
  {
    e.Pass? && e.w.reply.Ok? && PassResult(s.resource, e.w).1 == Some(CreateCall)
  }

  /** The pass computed a new proposal, and the patch that records it was lost. */
  predicate LosesOffer(s: Sys, e: Event)
  {
    Creates(s, e) && !e.loss.AllWritten?
  }

  /** An offer is lost while another one is on offer or under execution. */
  predicate HarmfulLoss(s: Sys, e: Event)
  {
    && LosesOffer(s, e) && CurrentState(s.resource) in {ProposalReady, Rebalancing}
    && Session(s.resource) != Some(e.w.reply.value.id)
  }

  /** A proposal that was not computed is lost while one is on offer. */
  predicate UncomputedLoss(s: Sys, e: Event)
  {
    LosesOffer(s, e) && CurrentState(s.resource) == ProposalReady && e.w.reply.value.status != Computed
  }

  /** An offer is lost during an execution. */
  predicate LossInFlight(s: Sys, e: Event)
  {
    LosesOffer(s, e) && CurrentState(s.resource) == Rebalancing
  }

  /** An approve is set while CreateProposal is in flight, and the pass does not remove it. */
  predicate EarlyApprove(s: Sys, e: Event)
  {
    && Creates(s, e) && (ReadCommand(s.resource).None? || e.loss.NothingWritten?)
    && e.during.Some? && ParseCommand(e.during.value) == Some(Approve)
  }

  // ----------------------------------------------------------------------- steps

  /** The state and session a pass writes: an offer or an execution comes only from its own call. */
  lemma WrittenState(r: Resource, w: World)
    ensures
      var (r', call) := PassResult(r, w);
      && (CurrentState(r') == ProposalReady ==>
            || (call == Some(CreateCall) && w.reply.Ok? && w.reply.value.status == Computed && Session(r') == Some(w.reply.value.id))
            || (r'.status == r.status && !(call == Some(CreateCall) && w.reply.Ok?)))
      && (CurrentState(r') == Rebalancing ==>
            || (CurrentState(r) == ProposalReady && call.Some? && call.value.ExecuteCall? && Session(r') == Session(r))
            || (CurrentState(r) == Rebalancing && Session(r') == Session(r) && !(call == Some(CreateCall) && w.reply.Ok?)))
  {
    hide Trim, Active, ActiveCondition, ParseState;
    if w.endpoint.Unresolved? {
      WrittenStateReadsBack(r, Transient(NotReady, w.endpoint.reason, ""), w.now);
    } else {
      var command := ReadCommand(r);
      var action := Decide(CurrentState(r), command, Session(r).Some?);
      var consumed := if command.Some? then r.(annotation := None) else r;
      if action != IdleAction {
        if w.credentialFailure.Some? && (action == CreateProposal || action == Execute) {
          WrittenStateReadsBack(r, Transient(NotReady, w.credentialFailure.value, ""), w.now);
        } else if w.reply != Err(Transport) {
          var o := if w.reply.Ok? then FromReply(action, w.reply.value) else FromRpcError(action, w.reply.error);
          WrittenStateReadsBack(r, o, w.now);
          assert CurrentState(consumed.(status := Some(WrittenStatus(r, o, w.now)))) == o.state;
        }
      } else {
        assert CurrentState(consumed) == CurrentState(r);
      }
    }
  }

  /** The state after a pass depends on the status that is stored, and on nothing else. */
  lemma StoredState(r: Resource, w: World, loss: Loss, during: Option<string>)
    ensures
      var r' := Stored(r, PassResult(r, w).0, loss, during);
      var kept := if loss.AllWritten? then PassResult(r, w).0 else r;
      CurrentState(r') == CurrentState(kept) && Session(r') == Session(kept)
  {
  }

  lemma LatestStep(s: Sys, e: Event)
    requires Latest(s)
    ensures Latest(Next(s, e)) <==> !HarmfulLoss(s, e)
  {
    hide Trim, Active, ParseState, PassResult, Stored;
    if e.Pass? {
      WrittenState(s.resource, e.w);
      StoredState(s.resource, e.w, e.loss, e.during);
    }
    SameStatus(s, e);
  }

  /** Edits of the annotation or the spec do not touch the status. */
  lemma SameStatus(s: Sys, e: Event)
    ensures !e.Pass? ==>
      && CurrentState(Next(s, e).resource) == CurrentState(s.resource) && Session(Next(s, e).resource) == Session(s.resource)
  {
  }

  lemma ComputableStep(s: Sys, e: Event)
    requires Computable(s)
    ensures Computable(Next(s, e)) <==> !UncomputedLoss(s, e)
  {
    hide Trim, Active, ParseState, PassResult, Stored;
    if e.Pass? {
      WrittenState(s.resource, e.w);
      SameStateOfStatus(s.resource, PassResult(s.resource, e.w).0);
      StoredState(s.resource, e.w, e.loss, e.during);
    }
    SameStatus(s, e);
  }

  lemma SameStateOfStatus(r: Resource, r': Resource)
    ensures r'.status == r.status ==> CurrentState(r') == CurrentState(r)
  {
  }

  lemma SentStep(s: Sys, e: Event)
    requires Sent(s)
    ensures Sent(Next(s, e)) <==> !LossInFlight(s, e)
  {
    hide Trim, Active, ParseState, PassResult, Stored;
    if e.Pass? {
      WrittenState(s.resource, e.w);
      StoredState(s.resource, e.w, e.loss, e.during);
    }
    SameStatus(s, e);
  }

  /** What a pass does to the annotation: it stays, or the command it held is removed; a creating pass read no approve. */
  lemma WrittenAnnotation(r: Resource, w: World)
    ensures
      var (r', call) := PassResult(r, w);
      && (r'.annotation == r.annotation || (r'.annotation.None? && ReadCommand(r).Some?))
      && (call == Some(CreateCall) && w.reply.Ok? ==>
            ReadCommand(r) in {None, Some(Refresh)} && (ReadCommand(r).Some? ==> r'.annotation.None?))
  {
    hide Trim, Active, ActiveCondition, ParseState;
  }

  lemma TimelyStep(s: Sys, e: Event)
    requires Timely(s) && s.createdAt <= s.clock
    ensures Timely(Next(s, e)) <==> !EarlyApprove(s, e)
    ensures Next(s, e).createdAt <= Next(s, e).clock
  {
    hide Trim, Active, ParseState, PassResult, ParseCommand;
    if e.Pass? {
      WrittenAnnotation(s.resource, e.w);
    }
  }

  // ------------------------------------------------------------------------ runs

  /** The steps before `n` are free of `bad` ones. */
  ghost predicate Free(ss: seq<Sys>, es: seq<Event>, bad: (Sys, Event) -> bool, n: nat)
    requires |ss| == |es| + 1 && n <= |es|
  {
    forall k :: 0 <= k < n ==> !bad(ss[k], es[k])
  }

  ghost predicate Throughout(ss: seq<Sys>, good: Sys -> bool)
  {
    forall i :: 0 <= i < |ss| ==> good(ss[i])
  }

  /** A property that every step keeps exactly when it is not bad holds as long as no step is bad. */
  lemma {:induction false} GoodUpTo(ss: seq<Sys>, es: seq<Event>, good: Sys -> bool, bad: (Sys, Event) -> bool, i: nat)
    requires Run(ss, es) && good(ss[0]) && i < |ss| && Free(ss, es, bad, i)
    requires forall s, e :: good(s) ==> (good(Next(s, e)) <==> !bad(s, e))
    ensures good(ss[i])
  {
    hide Next, Init;
    if i > 0 {
      GoodUpTo(ss, es, good, bad, i - 1);
      assert ss[i] == Next(ss[i - 1], es[i - 1]);
    }
  }

  /** And throughout a run if and only if the run has no bad step. */
  lemma GoodIff(ss: seq<Sys>, es: seq<Event>, good: Sys -> bool, bad: (Sys, Event) -> bool)
    requires Run(ss, es) && good(ss[0])
    requires forall s, e :: good(s) ==> (good(Next(s, e)) <==> !bad(s, e))
    ensures Throughout(ss, good) <==> Free(ss, es, bad, |es|)
  {
    hide Next, Init;
    if Free(ss, es, bad, |es|) {
      forall i | 0 <= i < |ss| ensures good(ss[i]) {
        GoodUpTo(ss, es, good, bad, i);
      }
    }
    if Throughout(ss, good) {
      forall k | 0 <= k < |es| ensures !bad(ss[k], es[k]) {
        assert good(ss[k]) && good(ss[k + 1]) && ss[k + 1] == Next(ss[k], es[k]);
      }
    }
  }

  ghost predicate TimelyClock(s: Sys)
  {
    Timely(s) && s.createdAt <= s.clock
  }

  lemma StartsGood(s: Sys)
    requires Init(s)
    ensures Latest(s) && Computable(s) && Sent(s) && TimelyClock(s)
  {
  }

  /**
   In every run the recorded session is the latest proposal's, whenever one is
   on offer or under execution, if and only if no offer is lost while another
   one is.
   */
  lemma SessionIsLatestIff(ss: seq<Sys>, es: seq<Event>)
    requires Run(ss, es)
    ensures Throughout(ss, Latest) <==> Free(ss, es, HarmfulLoss, |es|)
  {
    hide Latest, HarmfulLoss, Next, Init;
    StartsGood(ss[0]);
    forall s, e | Latest(s) ensures Latest(Next(s, e)) <==> !HarmfulLoss(s, e) {
      LatestStep(s, e);
    }
    GoodIff(ss, es, Latest, HarmfulLoss);
  }

  /** What is on offer was computed, if and only if no other reply is lost over an offer. */
  lemma OfferIsComputedIff(ss: seq<Sys>, es: seq<Event>)
    requires Run(ss, es)
    ensures Throughout(ss, Computable) <==> Free(ss, es, UncomputedLoss, |es|)
  {
    hide Computable, UncomputedLoss, Next, Init;
    StartsGood(ss[0]);
    forall s, e | Computable(s) ensures Computable(Next(s, e)) <==> !UncomputedLoss(s, e) {
      ComputableStep(s, e);
    }
    GoodIff(ss, es, Computable, UncomputedLoss);
  }

  /** What is under execution was sent for it, if and only if no offer is lost during an execution. */
  lemma ExecutionWasSentIff(ss: seq<Sys>, es: seq<Event>)
    requires Run(ss, es)
    ensures Throughout(ss, Sent) <==> Free(ss, es, LossInFlight, |es|)
  {
    hide Sent, LossInFlight, Next, Init;
    StartsGood(ss[0]);
    forall s, e | Sent(s) ensures Sent(Next(s, e)) <==> !LossInFlight(s, e) {
      SentStep(s, e);
    }
    GoodIff(ss, es, Sent, LossInFlight);
  }

  /** An approve always postdates the latest proposal, if and only if none is set while one is being created. */
  lemma ApproveIsTimelyIff(ss: seq<Sys>, es: seq<Event>)
    requires Run(ss, es)
    ensures Throughout(ss, TimelyClock) <==> Free(ss, es, EarlyApprove, |es|)
  {
    hide Timely, EarlyApprove, Next, Init;
    StartsGood(ss[0]);
    forall s, e | TimelyClock(s) ensures TimelyClock(Next(s, e)) <==> !EarlyApprove(s, e) {
      TimelyStep(s, e);
    }
    GoodIff(ss, es, TimelyClock, EarlyApprove);
  }

  lemma LatestUpTo(ss: seq<Sys>, es: seq<Event>, i: nat)
    requires Run(ss, es) && i < |ss| && Free(ss, es, HarmfulLoss, i)
    ensures Latest(ss[i])
  {
    hide Latest, HarmfulLoss, Next, Init;
    StartsGood(ss[0]);
    forall s, e | Latest(s) ensures Latest(Next(s, e)) <==> !HarmfulLoss(s, e) {
      LatestStep(s, e);
    }
    GoodUpTo(ss, es, Latest, HarmfulLoss, i);
  }

  lemma ComputableUpTo(ss: seq<Sys>, es: seq<Event>, i: nat)
    requires Run(ss, es) && i < |ss| && Free(ss, es, UncomputedLoss, i)
    ensures Computable(ss[i])
  {
    hide Computable, UncomputedLoss, Next, Init;
    StartsGood(ss[0]);
    forall s, e | Computable(s) ensures Computable(Next(s, e)) <==> !UncomputedLoss(s, e) {
      ComputableStep(s, e);
    }
    GoodUpTo(ss, es, Computable, UncomputedLoss, i);
  }

  lemma TimelyUpTo(ss: seq<Sys>, es: seq<Event>, i: nat)
    requires Run(ss, es) && i < |ss| && Free(ss, es, EarlyApprove, i)
    ensures Timely(ss[i])
  {
    hide Timely, EarlyApprove, Next, Init;
    StartsGood(ss[0]);
    forall s, e | TimelyClock(s) ensures TimelyClock(Next(s, e)) <==> !EarlyApprove(s, e) {
      TimelyStep(s, e);
    }
    GoodUpTo(ss, es, TimelyClock, EarlyApprove, i);
  }

  /** A call names the recorded session, and says in which state and by which command it was issued. */
  lemma CallsComeFrom(s: Sys, e: Event)
    requires e.Pass? && Next(s, e).call.Some? && !Next(s, e).call.value.CreateCall?
    ensures Session(s.resource) == Some(Next(s, e).call.value.id)
    ensures Next(s, e).call.value.ExecuteCall? ==>
      CurrentState(s.resource) == ProposalReady && ReadCommand(s.resource) == Some(Approve)
    ensures !Next(s, e).call.value.ExecuteCall? ==> CurrentState(s.resource) == Rebalancing
  {
    hide Trim, Active, ActiveCondition, ParseState, WrittenStatus;
  }

  /**
   Approval before execution: every ExecuteProposal is sent from the state that
   offers a proposal and on an approve.  While no offer was lost over another
   one it sends the id of the latest proposal, while no other reply was lost
   over an offer that proposal was computed, and while no approve came too
   early the approve was set after the proposal came back.
   */
  lemma ApprovedBeforeExecuted(ss: seq<Sys>, es: seq<Event>, i: nat)
    requires Run(ss, es) && i < |es|
    requires es[i].Pass? && ss[i + 1].call.Some? && ss[i + 1].call.value.ExecuteCall?
    ensures CurrentState(ss[i].resource) == ProposalReady && ReadCommand(ss[i].resource) == Some(Approve)
    ensures Free(ss, es, HarmfulLoss, i) ==>
      ss[i].latest.Some? && ss[i + 1].call == Some(ExecuteCall(ss[i].latest.value.id))
    ensures Free(ss, es, UncomputedLoss, i) ==> ss[i].latest.Some? && ss[i].latest.value.status == Computed
    ensures Free(ss, es, EarlyApprove, i) ==> ss[i].createdAt < ss[i].annotatedAt
  {
    hide Next, Init, HarmfulLoss, EarlyApprove, UncomputedLoss;
    assert ss[i + 1] == Next(ss[i], es[i]);
    CallsComeFrom(ss[i], es[i]);
    if Free(ss, es, HarmfulLoss, i) {
      LatestUpTo(ss, es, i);
    }
    if Free(ss, es, UncomputedLoss, i) {
      ComputableUpTo(ss, es, i);
    }
    if Free(ss, es, EarlyApprove, i) {
      TimelyUpTo(ss, es, i);
    }
  }

  /** Polling and cancelling concern the latest proposal, after it was sent for execution. */
  lemma FollowsAnExecution(ss: seq<Sys>, es: seq<Event>, i: nat)
    requires Run(ss, es) && i < |es| && es[i].Pass? && ss[i + 1].call.Some?
    requires ss[i + 1].call.value.PollCall? || ss[i + 1].call.value.CancelCall?
    ensures Free(ss, es, HarmfulLoss, i) ==> ss[i].latest.Some? && ss[i + 1].call.value.id == ss[i].latest.value.id
    ensures Free(ss, es, LossInFlight, i) ==> ss[i].executed
  {
    hide Next, Init, HarmfulLoss, LossInFlight;
    assert ss[i + 1] == Next(ss[i], es[i]);
    CallsComeFrom(ss[i], es[i]);
    if Free(ss, es, HarmfulLoss, i) {
      LatestUpTo(ss, es, i);
    }
    if Free(ss, es, LossInFlight, i) {
      StartsGood(ss[0]);
      forall s, e | Sent(s) ensures Sent(Next(s, e)) <==> !LossInFlight(s, e) {
        SentStep(s, e);
      }
      GoodUpTo(ss, es, Sent, LossInFlight, i);
    }
  }

  // ------------------------------------------------------ what a pass does, case by case

  /** A pass whose patches all land and that nobody disturbs. */
  function Undisturbed(s: Sys, w: World): (s': Sys)
  {
    Next(s, Pass(w, AllWritten, None))
  }

  function Observed(r: Resource): (g: Option<int>)
  {
    if r.status.Some? then r.status.value.observedGeneration else None
  }

  function Optimization(r: Resource): (o: Option<string>)
  {
    if r.status.Some? then r.status.value.optimization else None
  }

  /** Which call a pass sends: everything that is due is sent, and nothing else. */
  lemma CallsThatAreDue(s: Sys, w: World)
    requires w.endpoint.Resolved? && w.credentialFailure.None?
    ensures
      var call, state, command, session := Undisturbed(s, w).call, CurrentState(s.resource), ReadCommand(s.resource), Session(s.resource);
      && (command == Some(Refresh) ==> call == Some(CreateCall))
      && (command == Some(Approve) ==>
            call == if state == ProposalReady && session.Some? then Some(ExecuteCall(session.value)) else None)
      && (command == Some(Stop) ==>
            call == if state == Rebalancing && session.Some? then Some(CancelCall(session.value)) else None)
      && (command == None && state == New ==> call == Some(CreateCall))
      && (command == None && state == Rebalancing ==>
            call == if session.Some? then Some(PollCall(session.value)) else Some(CreateCall))
      && (command == None && state in {ProposalReady, Ready, NotReady, Stopped} ==> call == None)
  {
    hide Trim, Active, ActiveCondition, ParseState, WrittenStatus;
  }

  /** Polls and cancels need no credential. */
  lemma FollowUpsNeedNoCredential(s: Sys, w: World)
    requires w.endpoint.Resolved? && CurrentState(s.resource) == Rebalancing && Session(s.resource).Some?
    ensures ReadCommand(s.resource) == None ==> Undisturbed(s, w).call == Some(PollCall(Session(s.resource).value))
    ensures ReadCommand(s.resource) == Some(Stop) ==> Undisturbed(s, w).call == Some(CancelCall(Session(s.resource).value))
  {
    hide Trim, Active, ActiveCondition, ParseState, WrittenStatus;
  }

  /** The answer to an execution or a poll decides the state: success, failure, cancellation and progress are told apart. */
  lemma ExecutionReplyDecides(s: Sys, w: World)
    requires w.reply.Ok? && Undisturbed(s, w).call.Some?
    requires Undisturbed(s, w).call.value.ExecuteCall? || Undisturbed(s, w).call.value.PollCall?
    ensures
      var r, status := Undisturbed(s, w).resource, w.reply.value.status;
      && (CurrentState(r) == Ready <==> status == Completed)
      && (CurrentState(r) == Stopped <==> status == Cancelled)
      && (CurrentState(r) == Rebalancing <==> status in {Executing, Computed})
      && (CurrentState(r) == NotReady <==> status in {Failed, Unspecified})
      && Session(r) == Session(s.resource) && r.annotation == (if ReadCommand(s.resource).Some? then None else s.resource.annotation)
      && Optimization(r) == Optimization(s.resource) && Observed(r) == Observed(s.resource)
  {
    hide Trim, Active, ActiveCondition, ParseState;
    ReplyIsWritten(s, w, FromExecuteOrPoll(w.reply.value));
  }

  /** The answer to a creation decides the state, becomes the session, and is the only thing that moves the observed generation. */
  lemma CreationReplyDecides(s: Sys, w: World)
    requires w.reply.Ok? && Undisturbed(s, w).call == Some(CreateCall)
    ensures
      var r, p := Undisturbed(s, w).resource, w.reply.value;
      && (CurrentState(r) == ProposalReady <==> p.status == Computed)
      && (CurrentState(r) == Ready <==> p.status == Completed)
      && (CurrentState(r) == NotReady <==> p.status !in {Computed, Completed})
      && Session(r) == Some(p.id)
      && Observed(r) == (if p.status in {Computed, Completed} then Some(s.resource.generation) else Observed(s.resource))
      && Optimization(r) == (if p.status in {Computed, Completed} then Some(p.summary) else Optimization(s.resource))
  {
    hide Trim, Active, ActiveCondition, ParseState;
    ReplyIsWritten(s, w, FromCreate(w.reply.value));
  }

  /** A cancellation that is answered ends in Stopped. */
  lemma CancellationStops(s: Sys, w: World)
    requires w.reply.Ok? && Undisturbed(s, w).call.Some? && Undisturbed(s, w).call.value.CancelCall?
    ensures CurrentState(Undisturbed(s, w).resource) == Stopped && Undisturbed(s, w).resource.annotation.None?
  {
    hide Trim, Active, ActiveCondition, ParseState;
    ReplyIsWritten(s, w, FromCancel(w.reply.value));
  }

  /** A refused call: only a creation that may be retried stays New, everything else waits as NotReady, and the session stays. */
  lemma RefusalDecides(s: Sys, w: World)
    requires w.reply.Err? && !w.reply.error.Transport? && Undisturbed(s, w).call.Some?
    ensures
      var r := Undisturbed(s, w).resource;
      var retry := Undisturbed(s, w).call == Some(CreateCall) && w.reply.error.Rpc? && w.reply.error.code in
        {"failed_precondition", "unavailable", "aborted", "resource_exhausted", "deadline_exceeded", "http_502", "http_503", "http_504"};
      && CurrentState(r) == (if retry then New else NotReady) && Session(r) == Session(s.resource)
      && Optimization(r) == Optimization(s.resource) && Observed(r) == Observed(s.resource)
  {
    hide Trim, Active, ActiveCondition, ParseState;
    var a := if Undisturbed(s, w).call == Some(CreateCall) then CreateProposal else Execute;
    ReplyIsWritten(s, w, FromRpcError(a, w.reply.error));
  }

  /** A transport failure changes nothing, so the next pass tries again. */
  lemma TransportFailureChangesNothing(s: Sys, w: World)
    requires w.reply == Err(Transport) && Undisturbed(s, w).call.Some?
    ensures Undisturbed(s, w).resource == s.resource
  {
    hide Trim, Active, ActiveCondition, ParseState, WrittenStatus;
  }

  /** Without an endpoint, or without a credential that is needed, nothing is called, the command waits, and the state says so. */
  lemma NothingIsCalledBlindly(s: Sys, w: World)
    requires w.endpoint.Unresolved?
      || (w.credentialFailure.Some? && ReadCommand(s.resource) == Some(Refresh))
      || (w.credentialFailure.Some? && ReadCommand(s.resource) == Some(Approve)
          && CurrentState(s.resource) == ProposalReady && Session(s.resource).Some?)
    ensures
      var s' := Undisturbed(s, w);
      && s'.call.None? && CurrentState(s'.resource) == NotReady && s'.resource.annotation == s.resource.annotation
      && Session(s'.resource) == Session(s.resource)
  {
    hide Trim, Active, ActiveCondition, ParseState;
    var reason := if w.endpoint.Unresolved? then w.endpoint.reason else w.credentialFailure.value;
    var o := Transient(NotReady, reason, "");
    WrittenStateReadsBack(s.resource, o, w.now);
    assert Undisturbed(s, w).resource.status == Some(WrittenStatus(s.resource, o, w.now));
    assert CurrentState(Undisturbed(s, w).resource) == o.state;
  }

  lemma ReplyIsWritten(s: Sys, w: World, o: Outcome)
    requires Undisturbed(s, w).resource.status == Some(WrittenStatus(s.resource, o, w.now))
    ensures CurrentState(Undisturbed(s, w).resource) == o.state
  {
    hide Trim, Active, ActiveCondition, ParseState, PassResult, WrittenStatus;
    WrittenStateReadsBack(s.resource, o, w.now);
    SameStateOfStatus(s.resource.(status := Some(WrittenStatus(s.resource, o, w.now))), Undisturbed(s, w).resource);
  }

  // ------------------------------------------------------------- single commands

  /** A failed CreateProposal is repeated by the next undisturbed pass exactly when its error is retryable. */
  lemma CreateRetriesExactlyWhenRetryable(s: Sys, w: World, w': World)
    requires Next(s, Pass(w, AllWritten, None)).call == Some(CreateCall) && w.reply.Err? && !w.reply.error.Transport?
    requires w'.endpoint.Resolved? && w'.credentialFailure.None?
    requires Next(s, Pass(w, AllWritten, None)).resource.annotation.None?
    ensures var s' := Next(s, Pass(w, AllWritten, None));
      Next(s', Pass(w', AllWritten, None)).call == (if IsRetryable(w.reply.error) then Some(CreateCall) else None)
  {
    hide Trim, Active, ActiveCondition, ParseState, IsRetryable;
    var r := s.resource;
    var o := FromRpcError(CreateProposal, w.reply.error);
    WrittenStateReadsBack(r, o, w.now);
    var s' := Next(s, Pass(w, AllWritten, None));
    assert s'.resource.status == Some(WrittenStatus(r, o, w.now));
    assert CurrentState(s'.resource) == o.state;
  }

  /** One approve executes once: unless the RPC never arrived, it is consumed and the offer is gone. */
  lemma ApproveIsSpent(s: Sys, w: World)
    requires w.reply != Err(Transport)
    requires Next(s, Pass(w, AllWritten, None)).call.Some? && Next(s, Pass(w, AllWritten, None)).call.value.ExecuteCall?
    ensures
      var r := Next(s, Pass(w, AllWritten, None)).resource;
      r.annotation.None? && CurrentState(r) != ProposalReady && Session(r) == Session(s.resource)
  {
    hide Trim, Active, ActiveCondition, ParseState;
    var r := s.resource;
    var o := if w.reply.Ok? then FromReply(Execute, w.reply.value) else FromRpcError(Execute, w.reply.error);
    WrittenStateReadsBack(r, o, w.now);
    var s' := Next(s, Pass(w, AllWritten, None));
    assert s'.resource.status == Some(WrittenStatus(r, o, w.now));
    assert CurrentState(s'.resource) == o.state;
  }

  /** An approve that finds no offer is consumed without an RPC and without a status change. */
  lemma StrayApproveIsConsumed(s: Sys, w: World, loss: Loss)
    requires w.endpoint.Resolved? && ReadCommand(s.resource) == Some(Approve) && !loss.NothingWritten?
    requires CurrentState(s.resource) != ProposalReady
    ensures
      var s' := Next(s, Pass(w, loss, None));
      s'.call.None? && s'.resource == s.resource.(annotation := None)
  {
  }

  // -------------------------------------------------------------- harmful examples

  lemma CommandWords()
    ensures Trim("refresh") == "refresh" && Trim("approve") == "approve"
  {
  }

  /** From every state with an offer, losing a newer one makes the next approve execute the superseded proposal. */
  lemma LostOfferExecutesOldProposal(s: Sys, e: Event, w: World)
    requires HarmfulLoss(s, e) && CurrentState(s.resource) == ProposalReady && Session(s.resource).Some?
    requires w.endpoint.Resolved? && w.credentialFailure.None?
    ensures
      var s2 := Next(Next(s, e), Annotate(Some("approve")));
      var s3 := Next(s2, Pass(w, AllWritten, None));
      && s3.call == Some(ExecuteCall(Session(s.resource).value))
      && s2.latest.Some? && s3.call.value.id != s2.latest.value.id
  {
    hide Trim, Active, ParseState;
    CommandWords();
    var s2 := Next(Next(s, e), Annotate(Some("approve")));
    assert s2.resource.status == s.resource.status;
    assert CurrentState(s2.resource) == CurrentState(s.resource);
  }

  /** A run from an empty status that loses an offer in this way. */
  lemma LostStatusExecutesOldProposal(w: World) returns (ss: seq<Sys>, es: seq<Event>)
    requires w.endpoint.Resolved? && w.credentialFailure.None?
    ensures Run(ss, es) && |es| == 5
    ensures ss[5].call.Some? && ss[5].call.value.ExecuteCall?
    ensures ss[4].latest.Some? && ss[5].call.value.id != ss[4].latest.value.id
  {
    hide Trim;
    CommandWords();
    var p1, p2 := Proposal("1", Computed, "", None), Proposal("2", Computed, "", None);
    var s0 := Sys(Resource(1, None, None), 1, None, 0, false, 1, None);
    var e0 := Pass(w.(reply := Ok(p1)), AllWritten, None);
    var s1 := Next(s0, e0);
    WrittenStateReadsBack(s0.resource, FromCreate(p1), w.now);
    var e1 := Annotate(Some("refresh"));
    var s2 := Next(s1, e1);
    var e2 := Pass(w.(reply := Ok(p2)), StatusLost, None);
    var s3 := Next(s2, e2);
    LostOfferExecutesOldProposal(s2, e2, w);
    var e3 := Annotate(Some("approve"));
    var s4 := Next(s3, e3);
    var e4 := Pass(w, AllWritten, None);
    var s5 := Next(s4, e4);
    ss, es := [s0, s1, s2, s3, s4, s5], [e0, e1, e2, e3, e4];
  }

  /**
   An approve set while the first CreateProposal is in flight survives the
   pass, and the next one executes a proposal the user cannot have seen.
   */
  lemma EarlyApproveExecutes(s: Sys, w: World, w': World)
    requires CurrentState(s.resource) == New && s.resource.annotation.None?
    requires w.endpoint.Resolved? && w.credentialFailure.None? && w.reply.Ok? && w.reply.value.status == Computed
    requires w'.endpoint.Resolved? && w'.credentialFailure.None?
    ensures
      var s1 := Next(s, Pass(w, AllWritten, Some("approve")));
      var s2 := Next(s1, Pass(w', AllWritten, None));
      && s2.call == Some(ExecuteCall(w.reply.value.id))
      && s1.annotatedAt < s1.createdAt
  {
    hide Trim, Active, ActiveCondition, ParseState;
    CommandWords();
    var o := FromCreate(w.reply.value);
    WrittenStateReadsBack(s.resource, o, w.now);
    var s1 := Next(s, Pass(w, AllWritten, Some("approve")));
    assert s1.resource.status == Some(WrittenStatus(s.resource, o, w.now));
    assert CurrentState(s1.resource) == o.state;
  }
}
