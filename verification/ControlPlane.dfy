/** The authority side of one session run (recon_cockpit/secure_agent/control_plane.py): a
    request-driven state machine that an untrusted coordinator may drive with anything. */
module ControlPlane {
  import opened Prelude
  import opened Execution
  import opened Models
  import opened SessionTrace
  import opened SessionSafety
  import opened Approvals
  import opened ControlPath
  import opened SessionProtocol

  /** A JSON value in a request: one that the plan validator accepts, or any other, by its text. */
  datatype Document = PlanDoc(plan: Plan) | OtherDoc(text: string)

  /** What the coordinator may send: bytes that are no bounded JSON object, or an object. Values of fields
      that are not among `names` are never looked at. */
  datatype Request =
    | Garbage
    | Object(names: set<string>, version: string, session: string, sequence: Option<int>, operation: Option<string>,
      plan: Document)

  /** What the coordinator's run returns: a close document, or any other bytes. */
  datatype Close = CloseDoc(version: string, session: string, status: string) | OtherClose

  datatype Reply = Reply(sequence: nat, stop: bool, plan: Option<Plan>, observed: Option<Status>)

  function Names(offline: bool, proposing: bool): set<string> {
    if !offline then {"schema_version", "session_id", "sequence", "plan"}
    else if proposing then {"schema_version", "session_id", "sequence", "operation", "plan"}
    else {"schema_version", "session_id", "sequence", "operation"}
  }

  predicate Proposes(request: Request) {
    request.Object? && request.operation == Some("propose")
  }

  /** Why a request is refused, in the order the checks are made; None: it is handled. */
  function Refusal(offline: bool, sessionId: string, maxSteps: nat, closed: bool, attempted: nat, pending: Option<Plan>,
                   request: Request): Option<string>
  {
    if closed then Some("session_closed")
    else match request
      case Garbage => Some("invalid_request_envelope")
      case Object(names, version, session, sequence, operation, plan) =>
        var proposing := offline && operation == Some("propose");
        var expected := attempted + if proposing then 0 else 1;
        if offline && operation != Some("plan") && operation != Some("propose") then Some("invalid_request_operation")
        else if names != Names(offline, proposing)
          || version != (if offline then "2" else "1") then Some("invalid_request_envelope")
        else if session != sessionId then Some("wrong_session")
        else if sequence != Some(expected) || expected < 1 then Some("sequence_mismatch")
        else if expected > maxSteps then Some("step_limit")
        else if offline && (operation == Some("plan")) != pending.None? then Some("phase_mismatch")
        else if proposing && plan != PlanDoc(pending.value) then Some("provider_plan_mismatch")
        else None
  }

  /** The requests an open channel is waiting for: version 1 proposes the next step; version 2 asks for the next plan
      and then, once, proposes exactly the plan it was given, with all the fields of its kind and no others. */
  predicate Awaited(offline: bool, sessionId: string, maxSteps: nat, attempted: nat, pending: Option<Plan>,
                    request: Request)
  {
    && request.Object? && request.session == sessionId && request.version == (if offline then "2" else "1")
    && request.names == Names(offline, pending.Some?)
    && (if offline && pending.Some? then
          request.operation == Some("propose") && request.sequence == Some(attempted) && 1 <= attempted <= maxSteps
          && request.plan == PlanDoc(pending.value)
        else
          (offline ==> request.operation == Some("plan")) && request.sequence == Some(attempted + 1)
          && attempted + 1 <= maxSteps)
  }

  /** Nothing else gets past the checks, and they let all of it past. */
  lemma RefusedExactly(offline: bool, sessionId: string, maxSteps: nat, closed: bool, attempted: nat,
                       pending: Option<Plan>, request: Request)
    requires pending.Some? ==> offline
    ensures Refusal(offline, sessionId, maxSteps, closed, attempted, pending, request).None?
       <==> !closed && Awaited(offline, sessionId, maxSteps, attempted, pending, request)
  {
    assert |"plan"| == 4 && |"propose"| == 7;
  }

  /** How a reply answers a request: it carries the released plan, or says whether the channel is closed now. */
  predicate Answers(offline: bool, closed: bool, pending: Option<Plan>, attempted: nat, request: Request,
                    reply: Reply) {
    && request.Object? && request.sequence == Some(reply.sequence as int) && attempted == reply.sequence
    && (reply.plan.Some? ==> offline && !Proposes(request) && reply.plan == pending && !reply.stop && !closed)
    && (reply.plan.None? ==>
          reply.stop == closed && (offline && !Proposes(request) ==> closed) && (!closed ==> pending.None?))
  }

  /** The one step status that lets a session go on. */
  function Good(execute: bool): Status {
    if execute then Succeeded else DryRun
  }

  /** All recorded steps but the last went well, and the last one did exactly if the session may go on. */
  ghost predicate Ran(execute: bool, steps: seq<Status>, halted: bool) {
    && (forall i :: 0 <= i < |steps| - 1 ==> steps[i] == Good(execute))
    && (steps == [] ==> !halted)
    && (steps != [] ==> (halted <==> steps[|steps| - 1] != Good(execute)))
  }

  lemma RanStep(execute: bool, steps: seq<Status>, status: Status)
    requires Ran(execute, steps, false)
    ensures Ran(execute, steps + [status], status != Good(execute))
  {
  }

  /** The summary keeps the accounts of the history, up to the one update a failed write may leave ahead. */
  ghost predicate Tally(m: Monitor, failed: bool, limits: Limits, execute: bool, attempted: nat, reserved: nat,
                        succeeded: nat,
                        steps: seq<Status>)
  {
    && m.attempted <= attempted <= limits.maxSteps && m.reserved <= reserved <= limits.maxOutput
    && (!failed ==>
          attempted == m.attempted && reserved == m.reserved && succeeded == m.succeeded && |steps| == m.steps)
    && (!failed ==> Ran(execute, steps, m.halted))
  }

  lemma TallyRecorded(cfg: Config, m: Monitor, n: Monitor, limits: Limits, attempted: nat, reserved: nat,
                      succeeded: nat,
                      steps: seq<Status>, status: Status)
    requires Tally(m, false, limits, cfg.execute, attempted, reserved, succeeded, steps) && !m.halted
    requires Core(n) == AfterStep(cfg.execute, Core(m), status)
    ensures Tally(n, false, limits, cfg.execute, attempted, reserved, succeeded, steps + [status])
    ensures n.phase == Idle && n.final == m.final && n.attempted == m.attempted
    ensures n.halted <==> if cfg.execute then status != Succeeded else status != DryRun
  {
    RanStep(cfg.execute, steps, status);
  }

  /** After a failed write the summary may be one step ahead. */
  lemma TallyAhead(m: Monitor, n: Monitor, failed: bool, limits: Limits, execute: bool, attempted: nat, reserved: nat,
                   succeeded: nat, steps: seq<Status>, more: seq<Status>)
    requires Tally(m, failed, limits, execute, attempted, reserved, succeeded, steps) && Core(n) == Core(m)
    ensures Tally(n, true, limits, execute, attempted, reserved, succeeded, more)
    ensures n.final == m.final && n.phase == m.phase
  {
  }

  lemma NotHalted(cfg: Config, tr: Trace)
    requires Replay(cfg, tr).Some? && !Replay(cfg, tr).value.phase.Idle?
    ensures !Replay(cfg, tr).value.halted
  {
    TalliesHold(cfg, tr);
  }

  lemma LeadsReleased(cfg: Config, m: Monitor, step: nat, plan: Plan)
    requires m == Core(m) && m.phase == Consulted(plan) && step == m.attempted
    ensures Leads(cfg, m, PlanReleased(step, plan), m.(phase := Released(plan)))
  {
  }

  /** What a completed session looks like from its accounts. */
  lemma CompletedAccounts(cfg: Config, tr: Trace, limits: Limits, attempted: nat, reserved: nat, succeeded: nat,
                          steps: seq<Status>)
    requires Replay(cfg, tr).Some?
    requires var m := Replay(cfg, tr).value;
      Complete(m) && Tally(m, false, limits, cfg.execute, attempted, reserved, succeeded, steps)
    ensures forall i :: 0 <= i < |steps| ==> steps[i] == Good(cfg.execute)
    ensures succeeded == if cfg.execute then |steps| else 0
    ensures attempted == |steps| || attempted == |steps| + 1
  {
    TalliesHold(cfg, tr);
    BudgetsHold(cfg, tr);
  }

  /** The reported reason of a run that failed: an approval fault first, then a protocol failure, then the fault
      itself. */
  function Blame(fault: Option<Fault>, protocolFailed: bool, approvalFailed: bool): (reason: Reason)
    ensures reason != CoordinatorDone
    ensures reason == ProtocolError <==> !approvalFailed && (protocolFailed || fault == Some(ProtocolFailure))
  {
    if approvalFailed then ApprovalsUnavailable
    else if protocolFailed || fault == Some(ProtocolFailure) then ProtocolError
    else if fault.Some? && fault.value.Stopped? then ControlStopped(fault.value.stop)
    else CoordinatorFailure
  }

  /** What the plan validator accepts. */
  predicate ValidDocument(document: Document) {
    document.PlanDoc? && ValidPlan(document.plan)
  }

  /** How a handled plan ends the session, if it does; `status` is the outcome recorded for it. */
  function Ending(policy: Policy, execute: bool, limits: Limits, reserved: nat, plan: Plan, step: nat,
                  status: Status): Option<Reason> {
    if plan.action.None? then Some(CoordinatorDone)
    else Ruling(policy, execute, limits, reserved, plan.action.value, plan.done, step, status)
  }

  /** The same of a proposed action. */
  function Ruling(policy: Policy, execute: bool, limits: Limits, reserved: nat, proposal: Proposal, done: bool,
                  step: nat, status: Status): Option<Reason>
  {
    match proposal.parsed
    case None => Some(ProposalDenied)
    case Some(a) =>
      if policy.evaluate(a) == Deny then Some(ProposalDenied)
      else if reserved + a.maxOutput > limits.maxOutput then Some(OutputExhausted)
      else GoingOn(execute, limits, done, step, status)
  }

  function GoingOn(execute: bool, limits: Limits, done: bool, step: nat, status: Status): Option<Reason> {
    if execute && status != Succeeded then Some(ActionEnded(status))
    else if done then Some(CoordinatorDone)
    else if step == limits.maxSteps then Some(StepsExhausted)
    else None
  }

  /** The successes in one submission. */
  function Counted(r: Submission): nat {
    if r.Outcome? && r.status == Succeeded then 1 else 0
  }

  /** What asking the provider may come to. */
  datatype Proposing =
    | Returned(plan: Option<Plan>)  // None: too many bytes, or bytes the plan validator refuses
    | ProviderRaised(fault: Fault)

  class AuthoritySession {
    const sessionId: string
    const offline: bool
    const execute: bool
    const interactive: bool
    const reviewer: bool  // there is an approval callback
    const limits: Limits
    const controller: Controller
    const cells: Cells
    var stepsAttempted: nat
    var actionsSucceeded: nat
    var outputReserved: nat
    var steps: seq<Status>
    var pendingPlan: Option<Plan>
    ghost var lost: bool    // an exception that nobody catches has left an exchange
    ghost var driven: bool  // the coordinator has been run
    ghost var bound: bool   // the provider has been bound to this session

    ghost function Parts(): set<object> {
      {controller, controller.history, controller.control, controller.cells, controller.approvals, controller.backend}
    }

    ghost function M(): Monitor
      reads this, Parts()
    {
      controller.history.m
    }

    ghost predicate Wired()
      reads this, Parts()
    {
      && controller.Linked() && controller.Covered() && cells == controller.cells && ValidLimits(limits)
      && |sessionId| == ID_LENGTH
      && controller.history.cfg == Settings(controller.evidence, controller.policy) && Told()
    }

    /** What is fixed for the history of this session. */
    ghost function Settings(evidence: bool, policy: Policy): Config {
      Config(offline, execute, evidence, interactive, reviewer, limits, policy)
    }

    /** A reason that blames something blames what has happened. */
    ghost predicate Happened(reason: Reason)
      reads this, Parts(), cells
    {
      match reason
      case ControlStopped(stop) => controller.Caused(Stopped(stop))
      case ApprovalsUnavailable => ApprovalUnavailable in controller.history.raised
      case CoordinatorFailure => Ordinary in controller.history.raised
      case ProviderFailure => Ordinary in controller.history.raised
      case ProtocolError => Troubled()
      case _ => true
    }

    /** The reported reason is true, as soon as the channel is closed. */
    ghost predicate Told()
      reads this, Parts(), cells
    {
      Happened(cells.stopReason) || (cells.stopReason == ProtocolError && !cells.closed)
    }

    /** Something has gone wrong: a rejection, a stop, or something raised outside. */
    ghost predicate Troubled()
      reads this, Parts(), cells
    {
      cells.protocolFailed || controller.history.raised != {} || Halting(controller.control, SessionCancelled)
      || Halting(controller.control, SessionTimeout)
    }

    ghost predicate Accounts()
      reads this, Parts()
    {
      Tally(M(), controller.auditFailed, limits, execute, stepsAttempted, outputReserved, actionsSucceeded, steps)
    }

    /** While a request is being handled nothing has been completed yet. */
    ghost predicate Unfinished()
      reads this, cells
    {
      cells.status == Halted && cells.stopReason != CoordinatorDone
    }

    ghost predicate Working()
      reads this, Parts(), cells
    {
      Wired() && Accounts() && Unfinished()
    }

    /** The reply that releases this plan fits its frame. */
    predicate Fitting(plan: Plan, step: nat) {
      PlanReplySize(sessionId, step, false, Some(plan)) <= MAX_RESPONSE_BYTES
    }

    /** An open channel waits for a request of its next kind, with nothing poisoned. */
    ghost predicate Ready()
      reads this, Parts(), cells
    {
      !cells.closed ==>
        && !controller.auditFailed && !controller.approvalFailed && !M().halted
        && M().phase == (if pendingPlan.Some? then Released(pendingPlan.value) else Idle)
        && (if pendingPlan.Some? then
              offline && stepsAttempted >= 1 && ValidPlan(pendingPlan.value)
                && Fitting(pendingPlan.value, stepsAttempted)
            else stepsAttempted < limits.maxSteps)
    }

    /** Only a failed write, or an exception that nobody catches, leaves an execution under way. */
    ghost predicate Grounded()
      reads this, Parts()
    {
      Stranded(M().phase) ==> controller.auditFailed || lost
    }

    /** The same, for the failure on its way out. */
    ghost predicate Unbroken(r: Result<Reply, Fault>)
      reads this, Parts()
    {
      Stranded(M().phase) ==> controller.auditFailed || r == Err(Unlisted)
    }

    /** After a request, whether it was answered or not. */
    ghost predicate Settled()
      reads this, Parts(), cells
    {
      && Wired() && Accounts()
      && (cells.status == Completed <==> cells.stopReason == CoordinatorDone)
      && (cells.status == Completed ==> cells.closed && Complete(M()))
    }

    /** The state between requests. */
    ghost predicate Valid()
      reads this, Parts(), cells
    {
      Settled() && Ready() && Grounded()
    }

    /** While the channel is open, or whenever no write has failed and no exception has escaped, every start of an
        execution has its finish. */
    lemma BalancedSession()
      requires Valid()
      ensures !cells.closed || (!controller.auditFailed && !lost) ==>
        Starts(controller.history.trace) == Finishes(controller.history.trace)
    {
      Balance(controller.history.cfg, controller.history.trace);
    }

    /** Budgets nest in every reachable state, and the executor's own budget guard has never fired. */
    lemma Nested()
      requires Settled()
      ensures controller.backend.spawned <= controller.backend.output <= M().launchedBytes
      ensures M().launchedBytes <= outputReserved <= limits.maxOutput
      ensures controller.backend.sequence <= M().launches <= stepsAttempted <= limits.maxSteps
      ensures !controller.backend.exhausted
    {
      BudgetsHold(controller.history.cfg, controller.history.trace);
    }

    constructor (sessionId: string, offline: bool, execute: bool, interactive: bool, reviewer: bool, limits: Limits,
                 controller: Controller)
      requires controller.Linked() && controller.Covered() && ValidLimits(limits) && |sessionId| == ID_LENGTH
      requires controller.history.cfg ==
        Config(offline, execute, controller.evidence, interactive, reviewer, limits, controller.policy)
      requires controller.history.m == FRESH && !controller.auditFailed && !controller.approvalFailed
      requires !controller.cells.closed && controller.cells.status == Halted
      requires controller.cells.stopReason == ProtocolError
      ensures Valid() && this.controller == controller && this.limits == limits
      ensures stepsAttempted == 0 && steps == [] && pendingPlan.None? && !lost
      ensures this.sessionId == sessionId && this.offline == offline && !cells.closed && cells.status == Halted
    {
      this.sessionId, this.offline, this.execute := sessionId, offline, execute;
      this.interactive, this.reviewer := interactive, reviewer;
      this.limits, this.controller, this.cells := limits, controller, controller.cells;
      stepsAttempted, actionsSucceeded, outputReserved, steps, pendingPlan := 0, 0, 0, [], None;
      lost, driven, bound := false, false, false;
    }

    /** A reason that is not about anything raised outside, or is about what was. */
    ghost predicate Unblaming(reason: Reason)
      reads this, Parts()
    {
      || reason.InvalidProposal? || reason.ProposalDenied? || reason.OutputExhausted? || reason.ActionEnded?
      || reason.StepsExhausted? || (reason.ProviderFailure? && Ordinary in controller.history.raised)
    }

    /** Close the channel for a reason that completes nothing. */
    method Close(reason: Reason)
      requires Working() && reason != CoordinatorDone && Unblaming(reason)
      modifies cells
      ensures Working() && cells.closed && cells.stopReason == reason
    {
      cells.closed, cells.stopReason := true, reason;
    }

    /** Nobody but a rejected concurrent caller has written the cells. */
    twostate predicate Undisturbed()
      reads cells
    {
      unchanged(cells) || cells.protocolFailed
    }

    /** control.check() */
    method Check() returns (stop: Option<Stop>)
      requires Working()
      modifies controller`auditFailed, controller.history, controller.control, cells
      ensures Undisturbed() && Working() && Core(M()) == Core(old(M()))
      ensures old(controller.auditFailed) ==> controller.auditFailed
      ensures stop.None? ==>
        controller.auditFailed == old(controller.auditFailed) && unchanged(cells)
        && !old(controller.control.cancelled)
      ensures stop.Some? ==> Halting(controller.control, stop.value)
    {
      stop := controller.Check();
    }

    /** An audit event that moves the current step along. */
    method Tell(e: Event, ghost next: Phase) returns (ok: bool)
      requires Working() && !controller.auditFailed && Durable(e)
      requires Leads(controller.history.cfg, Core(M()), e, Core(M()).(phase := next))
      modifies controller`auditFailed, controller.history, controller.control, cells
      ensures Undisturbed() && Working() && ok == !controller.auditFailed
      ensures Core(M()) == if ok then Core(old(M())).(phase := next) else Core(old(M()))
      ensures old(cells.closed) ==> cells.closed
    {
      ok := controller.Tell(e, next);
    }

    /** The provider has answered with a plan, or the coordinator has proposed one. */
    ghost method Hear(e: Event, next: Phase, final: bool)
      requires Working() && (e.Planned? || e.NoPlan? || e.Proposed?)
      requires Next(controller.history.cfg, M(), e) == Some(M().(phase := next, ledger := M().ledger.(final := final)))
      modifies controller.history
      ensures Working() && M() == old(M()).(phase := next, ledger := old(M().ledger).(final := final))
    {
      controller.Heard(e, next, final);
    }

    /** session_step_started */
    method BeginStep(step: nat) returns (ok: bool)
      requires Working() && M().phase.Idle? && !M().halted && step == M().attempted + 1 <= limits.maxSteps
      requires !controller.auditFailed
      modifies this`stepsAttempted, controller`auditFailed, controller.history, controller.control, cells
      ensures Undisturbed() && Working() && ok == !controller.auditFailed
      ensures stepsAttempted == step
      ensures ok ==> M().phase == Begun && M().attempted == step && !M().halted
      ensures !Stranded(M().phase)
      ensures controller.approvalFailed == old(controller.approvalFailed)
    {
      stepsAttempted := step;
      ok := controller.StartStep(step);
    }

    /** session_step_finished, for the step just appended to the summary. */
    method EndStep(step: nat, status: Status, ghost before: seq<Status>) returns (ok: bool)
      requires Wired() && Unfinished() && step == M().attempted && !M().halted
      requires Tally(M(), false, limits, execute, stepsAttempted, outputReserved, actionsSucceeded, before)
      requires steps == before + [status]
      requires M().phase == Over(status) || (M().phase.Finished? && M().phase.status == status)
        || (M().phase.Previewed? && status == Blocked) || (M().phase.Reserved? && status == DryRun && !execute)
      modifies controller`auditFailed, controller.history, controller.control, cells
      ensures Undisturbed() && Working() && ok == !controller.auditFailed
      ensures M().phase == (if ok then Idle else old(M().phase)) && M().final == old(M().final)
      ensures ok ==> (M().halted <==> if execute then status != Succeeded else status != DryRun)
      ensures controller.approvalFailed == old(controller.approvalFailed)
      ensures old(cells.closed) ==> cells.closed
    {
      ok := controller.EndStep(step, status);
      if ok {
        TallyRecorded(controller.history.cfg, old(M()), M(), limits, stepsAttempted, outputReserved, actionsSucceeded,
                      before, status);
      } else {
        TallyAhead(old(M()), M(), false, limits, execute, stepsAttempted, outputReserved, actionsSucceeded, before,
                   steps);
      }
    }

    /** record(): the public step, in the summary first and then durably. */
    method Record(step: nat, status: Status) returns (ok: bool)
      requires Working() && step == M().attempted && !controller.auditFailed
      requires M().phase == Over(status) || (M().phase.Finished? && M().phase.status == status)
        || (M().phase.Previewed? && status == Blocked) || (M().phase.Reserved? && status == DryRun && !execute)
      modifies this`steps, controller`auditFailed, controller.history, controller.control, cells
      ensures M().final == old(M().final)
      ensures Undisturbed() && Working() && ok == !controller.auditFailed && steps == old(steps) + [status]
      ensures ok ==> M().phase == Idle && (M().halted <==> if execute then status != Succeeded else status != DryRun)
      ensures !Stranded(M().phase)
      ensures controller.approvalFailed == old(controller.approvalFailed)
      ensures old(cells.closed) ==> cells.closed
    {
      NotHalted(controller.history.cfg, controller.history.trace);
      ghost var before := steps;
      steps := steps + [status];
      ok := EndStep(step, status, before);
    }

    /** session_provider_failed or session_proposal_rejected: the channel closes without a plan. */
    method GiveUp(step: nat, refused: bool) returns (r: Result<Reply, Fault>)
      requires Working() && step == M().attempted
      requires if refused then (if offline then M().phase.Consulted? || M().phase.Planless? else M().phase.Begun?)
               else offline && M().phase.Begun? && Ordinary in controller.history.raised
      requires !M().halted && !controller.auditFailed && !controller.approvalFailed
      modifies controller`auditFailed, controller.history, controller.control, cells
      ensures Working() && controller.approvalFailed == old(controller.approvalFailed) && cells.closed
      ensures r == if controller.auditFailed then Err(AuditUnavailable) else Ok(Reply(step, true, None, None))
      ensures EndsBy(Some(if refused then InvalidProposal else ProviderFailure)) && !Stranded(M().phase)
    {
      Close(if refused then InvalidProposal else ProviderFailure);
      var ok := Tell(if refused then ProposalRejected(step) else ProviderFailed(step), Over(Failed));
      return if ok then Ok(Reply(step, cells.closed, None, None)) else Err(AuditUnavailable);
    }

    /** The provider is asked for a plan. Its answer decides the reply: a validated plan whose reply fits is
        released; a failure, an invalid plan or one too long closes the channel, each for its own reason. */
    method ConsultProvider(step: nat) returns (r: Result<Reply, Fault>, ghost answer: Option<Proposing>)
      requires Working() && offline && M().phase.Begun? && step == M().attempted >= 1 && pendingPlan.None?
      requires !M().halted && !controller.auditFailed && !controller.approvalFailed
      requires cells.closed ==> cells.protocolFailed
      modifies this`pendingPlan, controller`auditFailed, controller.history, controller.control, cells
      ensures Working() && controller.approvalFailed == old(controller.approvalFailed) && !Stranded(M().phase)
      ensures r.Ok? ==> Ready() && answer.Some? && r.value.sequence == step && r.value.observed.None?
      ensures r.Ok? ==>
        r.value.plan == Releasable(answer.value, step) && r.value.stop == r.value.plan.None? == cells.closed
      ensures r.Ok? ==> pendingPlan == r.value.plan
      ensures r.Ok? && r.value.plan.None? ==>
        EndsBy(Some(if answer.value.Returned? then InvalidProposal else ProviderFailure))
      ensures answer.Some? && answer.value.ProviderRaised? && answer.value.fault != Ordinary ==>
        r == Err(answer.value.fault)
      ensures r.Err? ==> r.error != ProtocolFailure && r.error != ApprovalUnavailable && r.error != Ordinary
      ensures r.Err? ==> controller.Caused(r.error)
    {
      answer := None;
      var stop := Check();
      if stop.Some? { return Err(Stopped(stop.value)), None; }
      var given := AskProvider(step);
      answer := Some(given);
      if given.Returned? && given.plan.Some? && Fitting(given.plan.value, step) {
        r := ReleasePlan(step, given.plan.value);
        return;
      }
      if given.ProviderRaised? && given.fault != Ordinary { return Err(given.fault), answer; }
      r := GiveUp(step, given.Returned?);
    }

    /** The plan an answer releases: one that validated and whose reply fits. */
    function Releasable(answer: Proposing, step: nat): Option<Plan> {
      if answer.Returned? && answer.plan.Some? && Fitting(answer.plan.value, step) then answer.plan else None
    }

    /** provider.propose() and the check right after it. */
    method AskProvider(step: nat) returns (answer: Proposing)
      requires Working() && offline && M().phase.Begun? && step == M().attempted >= 1 && !M().halted
      requires !controller.auditFailed
      modifies controller`auditFailed, controller.history, controller.control, cells
      ensures Undisturbed() && Working() && !Stranded(M().phase)
      ensures answer.Returned? ==> !controller.auditFailed && !M().halted && M().attempted == step
      ensures answer.Returned? ==> M().phase == if answer.plan.Some? then Consulted(answer.plan.value) else Planless
      ensures answer.Returned? && answer.plan.Some? ==> ValidPlan(answer.plan.value)
      ensures answer.ProviderRaised? ==> answer.fault != ProtocolFailure && answer.fault != ApprovalUnavailable
      ensures answer == ProviderRaised(Ordinary) ==> M() == old(M()) && !controller.auditFailed
      ensures answer.ProviderRaised? ==> controller.Caused(answer.fault)
      ensures controller.approvalFailed == old(controller.approvalFailed)
    {
      var raised: bool, fault: Fault := *, *;
      if raised {
        if fault == ProtocolFailure || fault == ApprovalUnavailable { fault := Unlisted; }
        controller.history.Blame(fault);
        return ProviderRaised(fault);
      }
      var plan := TakePlan(step);
      var stop := Check();
      if stop.Some? { return ProviderRaised(Stopped(stop.value)); }
      return Returned(plan);
    }

    /** What the provider returned: any valid plan, or none. */
    method TakePlan(step: nat) returns (plan: Option<Plan>)
      requires Working() && offline && M().phase.Begun? && step == M().attempted >= 1
      modifies controller.history
      ensures Working() && (plan.Some? ==> ValidPlan(plan.value))
      ensures M() == old(M()).(phase := if plan.Some? then Consulted(plan.value) else Planless)
    {
      plan := *;
      if plan.Some? && !ValidPlan(plan.value) { plan := None; }
      if plan.Some? {
        Hear(Planned(step, plan.value), Consulted(plan.value), M().final);
      } else {
        Hear(NoPlan(step), Planless, M().final);
      }
    }

    /** session_plan_received */
    method Publish(step: nat, plan: Plan) returns (ok: bool)
      requires Working() && M().phase == Consulted(plan) && step == M().attempted && !controller.auditFailed
      modifies controller`auditFailed, controller.history, controller.control, cells
      ensures Undisturbed() && Working() && ok == !controller.auditFailed
      ensures Core(M()) == if ok then Core(old(M())).(phase := Released(plan)) else Core(old(M()))
    {
      LeadsReleased(controller.history.cfg, Core(M()), step, plan);
      ok := Tell(PlanReleased(step, plan), Released(plan));
    }

    method ReleasePlan(step: nat, plan: Plan) returns (r: Result<Reply, Fault>)
      requires Working() && offline && M().phase == Consulted(plan) && step == M().attempted >= 1
      requires ValidPlan(plan) && Fitting(plan, step)
      requires !M().halted && !controller.auditFailed && !controller.approvalFailed
      requires cells.closed ==> cells.protocolFailed
      modifies this`pendingPlan, controller`auditFailed, controller.history, controller.control, cells
      ensures Undisturbed() && Working() && controller.approvalFailed == old(controller.approvalFailed)
      ensures !Stranded(M().phase)
      ensures r.Ok? ==> Ready() && pendingPlan == Some(plan)
      ensures r.Ok? ==> r.value.sequence == step && r.value.plan == Some(plan) && r.value.observed.None?
      ensures r.Ok? ==> !r.value.stop && !cells.closed
      ensures r.Err? ==> (r.error == AuditUnavailable || r.error.Stopped?) && controller.Caused(r.error)
    {
      var reply := Reply(step, cells.closed, Some(plan), None);
      pendingPlan := Some(plan);
      var ok := Publish(step, plan);
      if !ok { return Err(AuditUnavailable); }
      var stop := Check();
      if stop.Some? { return Err(Stopped(stop.value)); }
      return Ok(reply);
    }

    /** The reply to the coordinator; a version 1 session also returns the bounded observation. */
    function Response(step: nat, status: Option<Status>): Reply
      reads cells
    {
      Reply(step, cells.closed, None, if offline then None else status)
    }

    /** The channel is closed for this reason, or left as it was; a concurrent rejection overrides both. */
    twostate predicate EndsBy(reason: Option<Reason>)
      reads cells
    {
      cells.protocolFailed || (if reason.Some? then cells.closed && cells.stopReason == reason.value
        else unchanged(cells))
    }

    /** What follows a recorded step: the session goes on, completes, or closes. */
    method Continue(step: nat, done: bool, status: Status) returns (r: Result<Reply, Fault>)
      requires Working() && M().phase.Idle? && step == M().attempted && pendingPlan.None?
      requires !controller.auditFailed && !controller.approvalFailed && (M().halted <==> status != Good(execute))
      requires done ==> M().final
      requires !execute ==> status == DryRun
      modifies controller`auditFailed, controller.history, controller.control, cells
      ensures r.Ok? ==> Settled() && Ready() && r.value == Response(step, Some(status))
      ensures r.Ok? ==> EndsBy(GoingOn(execute, limits, done, step, status))
      ensures r.Err? ==> Settled() && r.error.Stopped? && controller.Caused(r.error)
      ensures controller.approvalFailed == old(controller.approvalFailed) && !Stranded(M().phase)
    {
      var stop := Check();
      if stop.Some? { return Err(Stopped(stop.value)); }
      if execute && status != Succeeded {
        Close(ActionEnded(status));
      } else if done {
        cells.closed, cells.status, cells.stopReason := true, Completed, CoordinatorDone;
      } else if step == limits.maxSteps {
        Close(StepsExhausted);
      }
      return Ok(Response(step, Some(status)));
    }

    /** A proposal that is denied, or that the output limit has no room for, closes the channel. */
    method Refuse(step: nat, reason: Reason, status: Status) returns (r: Result<Reply, Fault>)
      requires Working() && step == M().attempted && pendingPlan.None? && !controller.auditFailed
      requires !controller.approvalFailed
      requires M().phase == Over(status) || (M().phase.Previewed? && status == Blocked)
      requires reason == ProposalDenied || reason == OutputExhausted
      modifies this`steps, controller`auditFailed, controller.history, controller.control, cells
      ensures Working() && controller.approvalFailed == old(controller.approvalFailed) && cells.closed
      ensures EndsBy(Some(reason)) && steps == old(steps) + [status] && !Stranded(M().phase)
      ensures r == if controller.auditFailed then Err(AuditUnavailable) else Ok(Response(step, Some(status)))
    {
      Close(reason);
      var ok := Record(step, status);
      return if ok then Ok(Response(step, Some(status))) else Err(AuditUnavailable);
    }

    /** session_output_reserved: added to the summary first, then written down. */
    method SetAside(action: Action, step: nat) returns (ok: bool)
      requires Working() && step == M().attempted && M().phase == Previewed(action)
      requires !controller.auditFailed && outputReserved + action.maxOutput <= limits.maxOutput
      modifies this`outputReserved, controller`auditFailed, controller.history, controller.control, cells
      ensures Undisturbed() && Working() && controller.approvalFailed == old(controller.approvalFailed)
      ensures outputReserved == old(outputReserved) + action.maxOutput && ok == !controller.auditFailed
      ensures M().phase == (if ok then Reserved(action) else old(M().phase)) && M().attempted == step
      ensures M().final == old(M().final)
    {
      outputReserved := outputReserved + action.maxOutput;
      ok := controller.ReserveOutput(action, step, outputReserved);
    }

    /** The reservation precedes any prompt or launch, and nothing ever refunds it. */
    method Reserve(action: Action, step: nat) returns (fault: Option<Fault>)
      requires Working() && step == M().attempted && M().phase == Previewed(action)
      requires !controller.auditFailed && outputReserved + action.maxOutput <= limits.maxOutput
      modifies this`outputReserved, controller`auditFailed, controller.history, controller.control, cells
      ensures M().final == old(M().final)
      ensures Undisturbed() && Working() && controller.approvalFailed == old(controller.approvalFailed)
      ensures outputReserved == old(outputReserved) + action.maxOutput
      ensures fault.None? ==> M().phase == Reserved(action) && M().attempted == step && !controller.auditFailed
      ensures fault.Some? ==>
        (fault.value == AuditUnavailable || fault.value.Stopped?) && controller.Caused(fault.value)
      ensures !Stranded(M().phase)
    {
      var ok := SetAside(action, step);
      if !ok { return Some(AuditUnavailable); }
      var stop := Check();
      return if stop.Some? then Some(Stopped(stop.value)) else None;
    }

    /** The approval callback, asked about the reserved action. */
    method Review(action: Action, ghost step: nat) returns (answer: Reference, fault: Option<Fault>)
      requires Working() && execute && Asks(controller.history.cfg, action)
      requires step == M().attempted && M().phase == Reserved(action)
      modifies controller`auditFailed, controller.history, controller.control, cells, controller.approvals
      ensures Undisturbed() && Working() && Core(M()) == Core(old(M())).(issued := M().issued,
        phase := if fault.None? then Asked(action, answer) else Reserved(action))
      ensures fault.Some? ==> fault.value != ProtocolFailure && controller.Caused(fault.value)
      ensures old(controller.auditFailed) ==> controller.auditFailed
      ensures controller.auditFailed && !old(controller.auditFailed) ==> controller.control.cancelled
    {
      answer, fault := controller.Review(action, step);
    }

    /** The trusted review: the human is asked exactly if the action needs an approval and there is someone to ask, and
        the answer is what they gave. */
    method AskApproval(action: Action, step: nat) returns (answer: Reference, fault: Option<Fault>)
      requires Working() && execute && step == M().attempted && M().phase == Reserved(action)
      modifies controller`auditFailed, controller.history, controller.control, cells, controller.approvals
      ensures Undisturbed() && Working() && controller.approvalFailed == old(controller.approvalFailed)
      ensures Core(M()) == Core(old(M())).(issued := M().issued, phase := M().phase)
      ensures M().phase == Reserved(action) || M().phase.Asked?
      ensures fault.Some? ==> fault.value != ProtocolFailure && controller.Caused(fault.value)
      ensures fault.None? ==> controller.auditFailed == old(controller.auditFailed)
      ensures fault.None? ==> Presenting(controller.history.cfg, M().phase, action, answer)
    {
      answer, fault := Missing, None;
      if controller.policy.evaluate(action) == ApprovalRequired && interactive && reviewer {
        answer, fault := Review(action, step);
        if fault.Some? { return; }
      }
      var stop := Check();
      if stop.Some? { fault := Some(Stopped(stop.value)); }
    }

    /** submit(execute=True) */
    method Submit(proposal: Proposal, answer: Reference, step: nat) returns (r: Submission)
      requires Working() && execute && step == M().attempted && !controller.auditFailed
      requires proposal.parsed.Some? && controller.policy.evaluate(proposal.parsed.value) != Deny
      requires Presenting(controller.history.cfg, M().phase, proposal.parsed.value, answer)
      modifies controller, controller.history, controller.control, cells, controller.approvals, controller.backend
      ensures M().final == old(M().final)
      ensures Undisturbed() && M().attempted == step && M().halted == old(M().halted)
      ensures Wired() && Unfinished() && Tally(M(), controller.auditFailed, limits, execute, stepsAttempted,
        outputReserved, actionsSucceeded + Counted(r), steps)
      ensures r.Outcome? ==> !controller.auditFailed && controller.approvalFailed == old(controller.approvalFailed)
      ensures r.Outcome? ==>
        r.status != DryRun && controller.Resulted(proposal.parsed.value, interactive, answer, r.status)
      ensures r.Raised? ==> r.fault != ProtocolFailure && controller.Caused(r.fault)
      ensures Stranded(M().phase) ==> controller.auditFailed || r == Raised(Unlisted)
    {
      r := controller.Execute(proposal, interactive, answer, step);
    }

    /** The same, counted when it succeeds. */
    method Attempt(proposal: Proposal, answer: Reference, step: nat) returns (r: Submission)
      requires Working() && execute && step == M().attempted && !controller.auditFailed
      requires proposal.parsed.Some? && controller.policy.evaluate(proposal.parsed.value) != Deny
      requires Presenting(controller.history.cfg, M().phase, proposal.parsed.value, answer)
      modifies this`actionsSucceeded, controller, controller.history, controller.control, cells, controller.approvals,
        controller.backend
      ensures M().final == old(M().final)
      ensures Undisturbed() && Working() && M().attempted == step && M().halted == old(M().halted)
      ensures r.Outcome? ==> !controller.auditFailed && controller.approvalFailed == old(controller.approvalFailed)
      ensures r.Outcome? ==>
        r.status != DryRun && controller.Resulted(proposal.parsed.value, interactive, answer, r.status)
      ensures r.Raised? ==> r.fault != ProtocolFailure && controller.Caused(r.fault)
      ensures Stranded(M().phase) ==> controller.auditFailed || r == Raised(Unlisted)
    {
      r := Submit(proposal, answer, step);
      if r.Outcome? && r.status == Succeeded {
        actionsSucceeded := actionsSucceeded + 1;
      }
    }

    /** What an execute run comes to: blocked because a required approval was not given or the backend was not
        available, and otherwise what the backend's run, or a stop before it, has come to. */
    twostate predicate Executed(action: Action, status: Status)
      reads this, Parts()
    {
      if M().phase == Over(Blocked) then
        status == Blocked && (controller.backend.up ==> controller.policy.evaluate(action) == ApprovalRequired)
      else M().phase == Finished(action, status) && controller.Sourced(Some(status))
    }

    /** An execute run. When the review fails, or the check after it stops the session, nothing has been executed:
        the step still stands where its reservation, or the review, left it. */
    method CarryOut(proposal: Proposal, step: nat) returns (r: Submission, ghost refused: bool)
      requires Working() && execute && step == M().attempted
      requires proposal.parsed.Some? && controller.policy.evaluate(proposal.parsed.value) != Deny
      requires M().phase == Reserved(proposal.parsed.value) && !controller.auditFailed
      modifies this`actionsSucceeded, controller, controller.history, controller.control, cells, controller.approvals,
        controller.backend
      ensures M().final == old(M().final)
      ensures Undisturbed() && Working() && M().attempted == step && M().halted == old(M().halted)
      ensures r.Outcome? ==> !controller.auditFailed && controller.approvalFailed == old(controller.approvalFailed)
      ensures r.Outcome? ==> r.status != DryRun && Executed(proposal.parsed.value, r.status)
      ensures r.Raised? ==> r.fault != ProtocolFailure && controller.Caused(r.fault)
      ensures refused ==>
        && r.Raised? && actionsSucceeded == old(actionsSucceeded)
        && Core(M()) == Core(old(M())).(issued := M().issued, phase := M().phase)
        && (M().phase == Reserved(proposal.parsed.value) || M().phase.Asked?)
      ensures Stranded(M().phase) ==> controller.auditFailed || r == Raised(Unlisted)
    {
      var answer, fault := AskApproval(proposal.parsed.value, step);
      refused := fault.Some?;
      if fault.Some? { return Raised(fault.value), true; }
      r := Attempt(proposal, answer, step);
    }

    /** A proposal that has been paid for: executed or only previewed, then recorded. */
    method Settle(proposal: Proposal, done: bool, step: nat) returns (r: Result<Reply, Fault>)
      requires Working() && step == M().attempted && pendingPlan.None?
      requires proposal.parsed.Some? && controller.policy.evaluate(proposal.parsed.value) != Deny
      requires M().phase == Reserved(proposal.parsed.value) && !controller.auditFailed && !controller.approvalFailed
      requires done ==> M().final
      modifies this`actionsSucceeded, this`steps, controller, controller.history, controller.control, cells
      modifies controller.approvals, controller.backend
      ensures if r.Ok? then Settled() && Ready() && r.value.sequence == step && r.value.plan.None?
              else Settled() && r.error != ProtocolFailure && controller.Caused(r.error)
      ensures r.Ok? ==> r.value.stop == cells.closed && |steps| == |old(steps)| + 1
      ensures r.Ok? ==> EndsBy(GoingOn(execute, limits, done, step, steps[|old(steps)|]))
      ensures r.Ok? && !offline ==> r.value.observed == Some(steps[|old(steps)|])
      ensures Unbroken(r)
    {
      var status := DryRun;
      if execute {
        var outcome, refused := CarryOut(proposal, step);
        if outcome.Raised? { return Err(outcome.fault); }
        status := outcome.status;
      }
      var ok := Record(step, status);
      if !ok { return Err(AuditUnavailable); }
      r := Continue(step, done, status);
    }

    /** submit(execute=False) */
    method Preview(proposal: Proposal, step: nat) returns (r: Submission)
      requires Working() && step == M().attempted && !controller.auditFailed
      requires M().phase.Accepted? && M().phase.plan.action == Some(proposal)
      modifies controller`auditFailed, controller.history, controller.control, cells
      ensures M().final == old(M().final)
      ensures Undisturbed() && Working() && M().attempted == step
      ensures r.Outcome? ==> (r.decision == Deny <==>
        proposal.parsed.None? || controller.policy.evaluate(proposal.parsed.value) == Deny)
      ensures r.Outcome? ==> !controller.auditFailed && if r.decision == Deny then M().phase == Over(r.status) else
          r.status == DryRun && proposal.parsed.Some? && controller.policy.evaluate(proposal.parsed.value) != Deny
          && M().phase == Previewed(proposal.parsed.value)
      ensures r.Raised? ==> r.fault != ProtocolFailure && controller.Caused(r.fault)
      ensures !Stranded(M().phase)
    {
      r := controller.Preview(proposal, step);
    }

    /** A proposal the policy does not deny: out of budget, or paid for and settled. */
    method Afford(proposal: Proposal, done: bool, step: nat) returns (r: Result<Reply, Fault>)
      requires Working() && step == M().attempted && pendingPlan.None?
      requires proposal.parsed.Some? && controller.policy.evaluate(proposal.parsed.value) != Deny
      requires M().phase == Previewed(proposal.parsed.value) && !controller.auditFailed && !controller.approvalFailed
      requires done ==> M().final
      modifies this`actionsSucceeded, this`steps, this`outputReserved, controller, controller.history,
        controller.control, cells
      modifies controller.approvals, controller.backend
      ensures if r.Ok? then Settled() && Ready() && r.value.sequence == step && r.value.plan.None?
              else Settled() && r.error != ProtocolFailure && controller.Caused(r.error)
      ensures r.Ok? ==> r.value.stop == cells.closed && |steps| == |old(steps)| + 1
      ensures r.Ok? ==> EndsBy(if old(outputReserved) + proposal.parsed.value.maxOutput > limits.maxOutput then
        Some(OutputExhausted)
                               else GoingOn(execute, limits, done, step, steps[|old(steps)|]))
      ensures Unbroken(r)
    {
      var action := proposal.parsed.value;
      if outputReserved + action.maxOutput > limits.maxOutput {
        r := Refuse(step, OutputExhausted, Blocked);
        return;
      }
      var fault := Reserve(action, step);
      if fault.Some? { return Err(fault.value); }
      r := Settle(proposal, done, step);
    }

    /** A final plan without an action completes the session. */
    method Finish(step: nat) returns (r: Result<Reply, Fault>)
      requires Working() && step == M().attempted && pendingPlan.None? && Complete(M())
      requires !controller.auditFailed && !controller.approvalFailed && !Stranded(M().phase)
      modifies cells
      ensures Settled() && Ready() && r == Ok(Response(step, None)) && cells.closed
      ensures EndsBy(Some(CoordinatorDone))
    {
      cells.closed, cells.status, cells.stopReason := true, Completed, CoordinatorDone;
      return Ok(Response(step, None));
    }

    /** A proposed action: denied, or afforded. */
    method Judge(proposal: Proposal, done: bool, step: nat) returns (r: Result<Reply, Fault>)
      requires Working() && step == M().attempted && pendingPlan.None?
      requires M().phase.Accepted? && M().phase.plan.action == Some(proposal)
      requires !controller.auditFailed && !controller.approvalFailed && M().final == done
      modifies this`actionsSucceeded, this`steps, this`outputReserved, controller, controller.history,
        controller.control, cells
      modifies controller.approvals, controller.backend
      ensures if r.Ok? then Settled() && Ready() && r.value.sequence == step && r.value.plan.None?
              else Settled() && r.error != ProtocolFailure && controller.Caused(r.error)
      ensures r.Ok? ==> r.value.stop == cells.closed && |steps| == |old(steps)| + 1
      ensures r.Ok? ==> EndsBy(Ruling(controller.policy, execute, limits, old(outputReserved), proposal, done, step,
                                      steps[|old(steps)|]))
      ensures Unbroken(r)
    {
      var preview := Preview(proposal, step);
      if preview.Raised? { return Err(preview.fault); }
      if preview.decision == Deny {
        r := Refuse(step, ProposalDenied, preview.status);
        return;
      }
      r := Afford(proposal, done, step);
    }

    /** How a plan that has been accepted ends its step; the status is the recorded outcome, if one was recorded. */
    function EndingNow(reserved: nat, before: nat, plan: Plan, step: nat): Option<Reason>
      reads this
    {
      Ending(controller.policy, execute, limits, reserved, plan, step,
             if before < |steps| then steps[before] else DryRun)
    }

    /** An accepted plan: completed, denied, or afforded. */
    method Act(plan: Plan, step: nat) returns (r: Result<Reply, Fault>)
      requires Working() && step == M().attempted && pendingPlan.None? && M().phase == Accepted(plan)
      requires !controller.auditFailed && !controller.approvalFailed && !M().halted
      requires ValidPlan(plan) && M().final == plan.done
      modifies this`actionsSucceeded, this`steps, this`outputReserved, controller, controller.history,
        controller.control, cells
      modifies controller.approvals, controller.backend
      ensures if r.Ok? then Settled() && Ready() && r.value.sequence == step && r.value.plan.None?
              else Settled() && r.error != ProtocolFailure && controller.Caused(r.error)
      ensures r.Ok? ==> r.value.stop == cells.closed && |steps| == |old(steps)| + (if plan.action.None? then 0 else 1)
      ensures r.Ok? ==> EndsBy(EndingNow(old(outputReserved), |old(steps)|, plan, step))
      ensures Unbroken(r)
    {
      if plan.action.None? {
        r := Finish(step);
      } else {
        r := Judge(plan.action.value, plan.done, step);
      }
    }

    /** The released plan comes back, once. */
    method TakePending(step: nat) returns (plan: Plan)
      requires Working() && Ready() && !cells.closed && pendingPlan.Some? && step == stepsAttempted
      modifies this`pendingPlan, controller.history
      ensures Working() && pendingPlan.None? && old(pendingPlan) == Some(plan) && step == M().attempted
      ensures M().phase == Accepted(plan) && ValidPlan(plan) && M().final == plan.done && !M().halted
    {
      plan := pendingPlan.value;
      pendingPlan := None;
      Hear(Proposed(step, plan), Accepted(plan), plan.done);
    }

    /** A version 2 proposal: the released plan comes back, is acted on, and is gone whatever happens. */
    method HandleProposal(step: nat) returns (r: Result<Reply, Fault>)
      requires Working() && Ready() && !cells.closed && pendingPlan.Some? && step == stepsAttempted
      modifies this`actionsSucceeded, this`steps, this`outputReserved, this`pendingPlan
      modifies controller, controller.history, controller.control, cells, controller.approvals, controller.backend
      ensures if r.Ok? then Settled() && Ready()
              else Settled() && r.error != ProtocolFailure && controller.Caused(r.error)
      ensures r.Ok? ==> r.value.sequence == step && r.value.plan.None? && r.value.stop == cells.closed
      ensures pendingPlan.None? && Unbroken(r)
      ensures r.Ok? ==> EndsBy(EndingNow(old(outputReserved), |old(steps)|, old(pendingPlan).value, step))
    {
      var plan := TakePending(step);
      r := Act(plan, step);
    }

    /** A version 1 proposal: a valid plan is acted on, anything else closes the channel. */
    method HandlePlan(step: nat, document: Document) returns (r: Result<Reply, Fault>)
      requires Working() && !offline && M().phase.Begun? && step == M().attempted && pendingPlan.None?
      requires !M().halted && !controller.auditFailed && !controller.approvalFailed
      modifies this`actionsSucceeded, this`steps, this`outputReserved
      modifies controller, controller.history, controller.control, cells, controller.approvals, controller.backend
      ensures if r.Ok? then Settled() && Ready()
              else Settled() && r.error != ProtocolFailure && controller.Caused(r.error)
      ensures r.Ok? ==> r.value.sequence == step && r.value.plan.None? && r.value.stop == cells.closed
      ensures Unbroken(r)
      ensures r.Ok? && ValidDocument(document) ==>
        EndsBy(EndingNow(old(outputReserved), |old(steps)|, document.plan, step))
      ensures r.Ok? && !ValidDocument(document) ==> cells.closed && EndsBy(Some(InvalidProposal)) && steps == old(steps)
    {
      if !ValidDocument(document) {
        r := GiveUp(step, true);
        return;
      }
      Hear(Proposed(step, document.plan), Accepted(document.plan), document.plan.done);
      r := Act(document.plan, step);
    }

    /** Why this request is refused now, if it is. */
    function Refuses(request: Request): Option<string>
      reads this, cells
    {
      Refusal(offline, sessionId, limits.maxSteps, cells.closed, stepsAttempted, pendingPlan, request)
    }

    /** The check that precedes everything else. */
    method Poll() returns (stop: Option<Stop>)
      requires Settled()
      modifies controller`auditFailed, controller.history, controller.control, cells
      ensures Settled() && Core(M()) == Core(old(M())) && (old(controller.auditFailed) ==> controller.auditFailed)
      ensures stop.None? ==>
        controller.auditFailed == old(controller.auditFailed) && unchanged(cells) && !cells.protocolFailed
        && !old(controller.control.cancelled) && old(controller.control.now) < controller.control.deadline
      ensures stop.None? && old(Valid()) ==> Valid()
      ensures old(Grounded()) ==> Grounded()
      ensures stop.Some? ==> Halting(controller.control, stop.value)
      ensures old(controller.history.raised) <= controller.history.raised
      ensures old(cells.closed) ==> cells.closed
    {
      stop := controller.Check();
    }

    /** reject(): the refusal closes the channel for good and cancels all outstanding work. */
    method Reject() returns (fault: Fault)
      requires Settled()
      modifies controller`auditFailed, controller.history, controller.control, cells
      ensures Settled() && cells.closed && cells.protocolFailed && cells.status == Halted
      ensures controller.control.cancelled
      ensures fault == if controller.auditFailed then AuditUnavailable else ProtocolFailure
      ensures Core(M()) == Core(old(M())) && (old(controller.auditFailed) ==> controller.auditFailed)
    {
      fault := controller.Reject();
    }

    /** A request that passed every check. */
    method Serve(request: Request) returns (r: Result<Reply, Fault>)
      requires Valid() && !cells.closed && Refuses(request).None?
      modifies this`actionsSucceeded, this`steps, this`outputReserved, this`pendingPlan, this`stepsAttempted
      modifies controller, controller.history, controller.control, cells, controller.approvals, controller.backend
      ensures if r.Ok? then Settled() && Ready()
              else Settled() && r.error != ProtocolFailure && controller.Caused(r.error)
      ensures Unbroken(r)
      ensures r.Ok? ==> Answers(offline, cells.closed, pendingPlan, stepsAttempted, request, r.value)
    {
      var step: nat := request.sequence.value;
      if offline && Proposes(request) {
        r := HandleProposal(step);
        return;
      }
      var ok := BeginStep(step);
      if !ok { return Err(AuditUnavailable); }
      if offline {
        ghost var answer;
        r, answer := ConsultProvider(step);
      } else {
        r := HandlePlan(step, request.plan);
      }
    }

    /** One request, whatever it is: refused with a protocol rejection exactly when a check says so. */
    method Handle(request: Request) returns (r: Result<Reply, Fault>)
      requires Valid()
      modifies this`actionsSucceeded, this`steps, this`outputReserved, this`pendingPlan, this`stepsAttempted
      modifies controller, controller.history, controller.control, cells, controller.approvals, controller.backend
      ensures if r.Ok? then Settled() && Ready() else Settled()
      ensures Stranded(M().phase) ==> controller.auditFailed || lost || r == Err(Unlisted)
      ensures r.Ok? ==> old(Refuses(request)).None?
      ensures r.Ok? ==> !old(controller.control.cancelled) && old(controller.control.now) < controller.control.deadline
      ensures r.Err? ==> controller.Caused(r.error)
      ensures r.Err? && r.error == ProtocolFailure ==>
        old(Refuses(request)).Some? && cells.closed && cells.protocolFailed
      ensures old(Refuses(request)).Some? ==>
        r.Err? && (r.error.Stopped? || r.error == ProtocolFailure || r.error == AuditUnavailable)
      ensures old(Refuses(request)).Some? ==>
        unchanged(this) && M().launches == old(M().launches) && M().attempted == old(M().attempted)
      ensures r.Ok? ==> Answers(offline, cells.closed, pendingPlan, stepsAttempted, request, r.value)
    {
      var stop := Poll();
      if stop.Some? { return Err(Stopped(stop.value)); }
      if Refuses(request).Some? {
        var fault := Reject();
        return Err(fault);
      }
      r := Serve(request);
    }

    /** Any failure closes the channel before it leaves; an audit or approval fault poisons the controller too. */
    method Abandon(fault: Fault)
      requires Settled() && (Stranded(M().phase) ==> controller.auditFailed || lost || fault == Unlisted)
      requires controller.Caused(fault)
      modifies this`lost, controller, controller.history, controller.control, cells
      ensures Valid() && cells.closed && cells.protocolFailed == old(cells.protocolFailed)
      ensures M().launches == old(M().launches) && lost == (old(lost) || fault == Unlisted)
      ensures fault == AuditUnavailable ==> controller.auditFailed
      ensures fault == ApprovalUnavailable ==> controller.approvalFailed && controller.control.cancelled
      ensures controller.Caused(fault) && controller.history.raised == old(controller.history.raised)
    {
      Poison(fault);
      Lose(fault);
      Shut();
    }

    /** An exception that nobody catches may have left an execution under way. */
    ghost method Lose(fault: Fault)
      requires Settled() && (Stranded(M().phase) ==> controller.auditFailed || lost || fault == Unlisted)
      modifies this`lost
      ensures Settled() && Grounded() && lost == (old(lost) || fault == Unlisted)
    {
      lost := lost || fault == Unlisted;
    }

    /** The channel is closed because something has gone wrong. */
    method Shut()
      requires Settled() && Grounded() && Troubled()
      modifies cells`closed
      ensures Valid() && cells.closed
    {
      cells.closed := true;
    }

    /** A fault of the audit or of the approval service is remembered for good. */
    method Poison(fault: Fault)
      requires Settled() && controller.Caused(fault)
      modifies controller, controller.history, controller.control
      ensures controller.Caused(fault) && controller.history.raised == old(controller.history.raised)
      ensures Settled() && M().phase == old(M().phase) && M().launches == old(M().launches)
      ensures old(controller.auditFailed) ==> controller.auditFailed
      ensures fault == AuditUnavailable ==> controller.auditFailed
      ensures fault == ApprovalUnavailable ==> controller.approvalFailed && controller.control.cancelled
    {
      if fault == AuditUnavailable {
        controller.PoisonAudit();
      } else if fault == ApprovalUnavailable {
        controller.PoisonApproval();
        controller.control.cancelled := true;
      }
    }

    /** exchange(): the only operation an untrusted coordinator can reach. A closed channel stays closed. */
    method Exchange(request: Request, foreign: bool) returns (r: Result<Reply, Fault>)
      requires Valid()
      modifies this`actionsSucceeded, this`steps, this`outputReserved, this`pendingPlan, this`stepsAttempted, this`lost
      modifies controller, controller.history, controller.control, cells, controller.approvals, controller.backend
      ensures Valid() && (r.Err? ==> cells.closed) && (old(cells.closed) ==> cells.closed)
      ensures r.Ok? ==> old(Refuses(request)).None? && !foreign && lost == old(lost)
      ensures r.Ok? ==> !old(controller.control.cancelled) && old(controller.control.now) < controller.control.deadline
      ensures r.Err? ==> controller.Caused(r.error)
      ensures r.Err? && r.error == ProtocolFailure ==> (foreign || old(Refuses(request)).Some?) && cells.protocolFailed
      ensures r.Err? && r.error == AuditUnavailable ==> controller.auditFailed
      ensures r.Err? && r.error == ApprovalUnavailable ==> controller.approvalFailed
      ensures lost == (old(lost) || r == Err(Unlisted))
      ensures foreign || old(Refuses(request)).Some? ==> M().launches == old(M().launches)
      ensures r.Ok? ==> Answers(offline, cells.closed, pendingPlan, stepsAttempted, request, r.value)
    {
      if foreign {
        var fault := Reject();
        r := Err(fault);
      } else {
        r := Handle(request);
      }
      if r.Err? { Abandon(r.error); }
    }

    /** What the untrusted side may do: any number of any requests, swallowing any failure. Once the channel is
        closed nothing it does launches anything. */
    method Drive(requests: nat)
      requires Valid()
      modifies this`driven, this`bound
      modifies this`actionsSucceeded, this`steps, this`outputReserved, this`pendingPlan, this`stepsAttempted, this`lost
      modifies controller, controller.history, controller.control, cells, controller.approvals, controller.backend
      ensures Valid() && driven
      ensures old(cells.closed) ==> cells.closed && M().launches == old(M().launches)
    {
      driven := true;
      for i := 0 to requests
        invariant Valid() && driven
        invariant old(cells.closed) ==> cells.closed && M().launches == old(M().launches)
      {
        var request: Request, foreign: bool := *, *;
        var r := Exchange(request, foreign);
      }
    }

    /** Bind the provider to this session; a provider that belongs to another one closes the channel. */
    method Bind() returns (fault: Option<Fault>)
      requires Valid() && cells.status == Halted
      modifies controller`auditFailed, controller.history, controller.control, cells, this`bound
      ensures Settled() && Grounded() && (fault.None? ==> Valid() && !cells.protocolFailed && cells.status == Halted)
      ensures fault != Some(ProtocolFailure) && (fault.Some? ==> controller.Caused(fault.value))
      ensures fault.None? && !cells.closed && offline ==> bound
      ensures fault.None? && !old(cells.closed) && cells.closed ==> Ordinary in controller.history.raised
    {
      fault := TryBinding();
      if fault == Some(Ordinary) { fault := RefuseProvider(); }
      if fault.Some? { return; }
      var stop := Poll();
      return if stop.Some? then Some(Stopped(stop.value)) else None;
    }

    /** provider.bind_session() */
    method TryBinding() returns (fault: Option<Fault>)
      requires Valid()
      modifies controller.history`raised, this`bound
      ensures Valid() && fault != Some(ProtocolFailure) && (fault.Some? ==> fault.value in controller.history.raised)
      ensures fault.None? ==> bound
    {
      fault := Fall(false);
      bound := bound || fault.None?;
    }

    /** session_provider_failed, before any exchange. */
    method RefuseProvider() returns (fault: Option<Fault>)
      requires Valid() && cells.status == Halted && Ordinary in controller.history.raised
      modifies controller`auditFailed, controller.history, controller.control, cells
      ensures Settled() && Grounded() && (fault.None? ==> Valid() && cells.closed && cells.status == Halted)
      ensures fault.None? || (fault == Some(AuditUnavailable) && controller.auditFailed)
      ensures Ordinary in controller.history.raised
    {
      NameProvider();
      var ok := controller.Mark("session_provider_failed");
      if !ok { return Some(AuditUnavailable); }
      Shut();
      return None;
    }

    /** The provider is to blame. */
    method NameProvider()
      requires Valid() && cells.status == Halted && Ordinary in controller.history.raised
      modifies cells`stopReason
      ensures Valid() && cells.stopReason == ProviderFailure
    {
      cells.stopReason := ProviderFailure;
    }

    /** The coordinator's run and the validation of its close: only a provider that belongs to another session keeps the
        coordinator from being run before its close is judged. */
    method Converse() returns (fault: Option<Fault>)
      requires Valid() && cells.status == Halted
      modifies this`actionsSucceeded, this`steps, this`outputReserved, this`pendingPlan, this`stepsAttempted, this`lost
      modifies this`driven, this`bound
      modifies controller, controller.history, controller.control, cells, controller.approvals, controller.backend
      ensures Settled() && Grounded() && (fault.None? ==> !cells.protocolFailed && cells.closed)
      ensures fault.Some? ==> controller.Caused(fault.value)
      ensures fault.None? || fault == Some(ProtocolFailure) ==>
        driven || Ordinary in controller.history.raised || old(cells.closed)
    {
      fault := Enter();
      if fault.Some? || cells.closed { return; }
      fault := Coordinate();
    }

    /** coordinator.run(), and what is made of what it returns; a version 2 session has bound its provider before. */
    method Coordinate() returns (fault: Option<Fault>)
      requires Valid() && cells.status == Halted && (offline ==> bound)
      modifies this`actionsSucceeded, this`steps, this`outputReserved, this`pendingPlan, this`stepsAttempted, this`lost
      modifies this`driven, this`bound
      modifies controller, controller.history, controller.control, cells, controller.approvals, controller.backend
      ensures Settled() && Grounded() && (fault.None? ==> !cells.protocolFailed && cells.closed)
      ensures fault.Some? ==> controller.Caused(fault.value)
      ensures driven
    {
      var requests: int :| 0 <= requests;
      Drive(requests);
      fault := Fall(true);
      if fault.Some? { return; }
      var result: Close := *;
      fault := Conclude(result);
    }

    /** A call outside may end in any failure; only the coordinator's run passes on protocol failures. */
    method Fall(passing: bool) returns (fault: Option<Fault>)
      requires Valid()
      modifies controller.history`raised
      ensures Valid() && (fault.Some? ==> fault.value in controller.history.raised)
      ensures !passing ==> fault != Some(ProtocolFailure)
    {
      fault := *;
      if !passing && fault == Some(ProtocolFailure) { fault := Some(Unlisted); }
      if fault.Some? { controller.history.Blame(fault.value); }
    }

    /** What comes before the coordinator: a check, and the binding of the provider. */
    method Enter() returns (fault: Option<Fault>)
      requires Valid() && cells.status == Halted
      modifies controller`auditFailed, controller.history, controller.control, cells, this`bound
      ensures Settled() && Grounded() && (fault.None? ==> Valid() && !cells.protocolFailed && cells.status == Halted)
      ensures fault != Some(ProtocolFailure) && (fault.Some? ==> controller.Caused(fault.value))
      ensures fault.None? && !cells.closed && offline ==> bound
      ensures fault.None? && !old(cells.closed) && cells.closed ==> Ordinary in controller.history.raised
    {
      var stop := Poll();
      if stop.Some? { return Some(Stopped(stop.value)); }
      fault := None;
      if offline { fault := Bind(); }
    }

    predicate GoodClose(result: Close) {
      result == CloseDoc(if offline then "2" else "1", sessionId, "closed")
    }

    /** The validation of the close: it is rejected only for an open channel or for a result that is not the close
        document; a rejection by a concurrent caller shows as a stop. */
    method Conclude(result: Close) returns (fault: Option<Fault>)
      requires Valid()
      modifies controller`auditFailed, controller.history, controller.control, cells
      ensures Settled() && Grounded() && (fault.None? ==> !cells.protocolFailed && cells.closed)
      ensures fault.None? ==> GoodClose(result) && old(cells.closed)
      ensures fault.Some? && !fault.value.Stopped? ==> !old(cells.closed) || !GoodClose(result)
      ensures fault.Some? ==> controller.Caused(fault.value)
    {
      var stop := Poll();
      if stop.Some? { return Some(Stopped(stop.value)); }
      if cells.protocolFailed || !cells.closed || !GoodClose(result) {
        var raised := Reject();
        return Some(raised);
      }
      return None;
    }

    /** The accounts of a finished session. */
    ghost predicate Concluded()
      reads this, Parts(), cells
    {
      && stepsAttempted == M().attempted && outputReserved == M().reserved && actionsSucceeded == M().succeeded
      && (cells.status == Completed <==> cells.stopReason == CoordinatorDone)
      && (cells.status == Completed ==> Complete(M()))
      && (cells.status == Completed ==>
            && !cells.protocolFailed && !controller.auditFailed && !controller.approvalFailed
            && (forall i :: 0 <= i < |steps| ==> steps[i] == Good(execute))
            && actionsSucceeded == (if execute then |steps| else 0)
            && (stepsAttempted == |steps| || stepsAttempted == |steps| + 1))
    }

    /** Whatever is blamed for a failed run has happened. */
    lemma BlameHappened(fault: Option<Fault>)
      requires controller.Linked() && (fault.Some? || controller.approvalFailed)
      requires fault.Some? ==> controller.Caused(fault.value) && fault.value !in {AuditUnavailable, Unlisted}
      requires fault == Some(ApprovalUnavailable) ==> controller.approvalFailed
      requires cells == controller.cells
      ensures Happened(Blame(fault, cells.protocolFailed, controller.approvalFailed))
    {
    }

    /** The session has failed for this reason. */
    method Fail(reason: Reason)
      requires Settled() && Happened(reason) && reason != CoordinatorDone
      modifies cells
      ensures Settled() && cells.closed && cells.protocolFailed == old(cells.protocolFailed)
      ensures cells.stopReason == reason && cells.status == Halted
    {
      cells.status, cells.stopReason, cells.closed := Halted, reason, true;
    }

    /** How the run ended, as the summary says it: an approval fault overrides everything else. */
    method Explain(fault: Option<Fault>)
      requires Settled() && (fault.None? ==> cells.closed && !cells.protocolFailed)
      requires fault.Some? ==> controller.Caused(fault.value) && fault.value !in {AuditUnavailable, Unlisted}
      requires fault == Some(ApprovalUnavailable) ==> controller.approvalFailed
      modifies cells
      ensures Settled() && cells.closed && cells.protocolFailed == old(cells.protocolFailed)
      ensures fault.None? && !controller.approvalFailed ==> unchanged(cells)
      ensures cells.status == Completed ==> !cells.protocolFailed && !controller.approvalFailed && fault.None?
      ensures fault.Some? || controller.approvalFailed ==>
        cells.stopReason == Blame(fault, cells.protocolFailed, controller.approvalFailed)
    {
      if fault.Some? || controller.approvalFailed {
        BlameHappened(fault);
        Fail(Blame(fault, cells.protocolFailed, controller.approvalFailed));
      }
    }

    /** The end of the run; an audit fault, or an exception nobody catches, leaves no summary. */
    method Exit(fault: Option<Fault>) returns (summarised: bool)
      requires Settled() && Grounded() && (fault.None? ==> cells.closed && !cells.protocolFailed)
      requires fault.Some? ==> controller.Caused(fault.value)
      modifies this`lost, controller, controller.history, controller.control, cells
      ensures Settled() && Grounded() && cells.closed
      ensures summarised <==> fault != Some(AuditUnavailable) && fault != Some(Unlisted)
      ensures summarised && cells.status == Completed ==> !cells.protocolFailed && !controller.approvalFailed
      ensures !summarised ==> fault.value in controller.history.raised
    {
      if fault == Some(AuditUnavailable) || fault == Some(Unlisted) {
        Abandon(fault.value);
        return false;
      }
      if fault == Some(ApprovalUnavailable) { LoseApprovals(); }
      Explain(fault);
      return true;
    }

    /** The loss of the approval service is remembered. */
    method LoseApprovals()
      requires Settled() && Grounded() && ApprovalUnavailable in controller.history.raised
      modifies controller`approvalFailed, controller.history
      ensures Settled() && Grounded() && controller.approvalFailed
      ensures controller.history.raised == old(controller.history.raised)
    {
      controller.PoisonApproval();
    }

    /** Nothing but a lost journal, or an exception that nobody catches, keeps a session from returning a summary. */
    ghost predicate Unsummarised()
      reads this, Parts()
    {
      AuditUnavailable in controller.history.raised || Unlisted in controller.history.raised
    }

    /** One whole session, from a fresh state to its summary. When a summary is returned nothing is left under way,
        unless the coordinator has swallowed an exception that nobody else catches. */
    method Run() returns (finished: bool)
      requires Valid() && cells.status == Halted
      modifies this`actionsSucceeded, this`steps, this`outputReserved, this`pendingPlan, this`stepsAttempted, this`lost
      modifies this`driven, this`bound
      modifies controller, controller.history, controller.control, cells, controller.approvals, controller.backend
      ensures Settled() && Safe(controller.history.cfg, controller.history.trace)
      ensures finished ==> cells.closed && Concluded() && (Stranded(M().phase) ==> lost)
      ensures if finished then controller.history.Ends(SessionMarked("session_finished")) else Unsummarised()
    {
      var ok := controller.Mark("session_started");
      finished := false;
      if ok { finished := Proceed(); }
      Safety(controller.history.cfg, controller.history.trace);
    }

    /** What follows the durable start of the session. */
    method Proceed() returns (finished: bool)
      requires Valid() && cells.status == Halted
      requires controller.history.Ends(SessionMarked("session_started"))
      modifies this`actionsSucceeded, this`steps, this`outputReserved, this`pendingPlan, this`stepsAttempted, this`lost
      modifies this`driven, this`bound
      modifies controller, controller.history, controller.control, cells, controller.approvals, controller.backend
      ensures Settled() && (finished ==> cells.closed && Concluded() && (Stranded(M().phase) ==> lost))
      ensures if finished then controller.history.Ends(SessionMarked("session_finished")) else Unsummarised()
    {
      var fault := Converse();
      finished := Exit(fault);
      if finished { finished := Summarise(); }
    }

    /** session_finished: no summary is returned that could not be audited. */
    method Summarise() returns (ok: bool)
      requires Settled() && Grounded() && cells.closed
      requires cells.status == Completed ==> !cells.protocolFailed && !controller.approvalFailed
      modifies controller`auditFailed, controller.history, controller.control, cells
      ensures Settled() && cells.closed && (ok ==> Concluded() && (Stranded(M().phase) ==> lost))
      ensures if ok then controller.history.Ends(SessionMarked("session_finished")) else Unsummarised()
    {
      ok := controller.Mark("session_finished");
      if ok && cells.status == Completed {
        CompletedAccounts(controller.history.cfg, controller.history.trace, limits, stepsAttempted, outputReserved,
                          actionsSucceeded, steps);
      }
    }
  }
}
