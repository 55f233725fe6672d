/** The single proposal-to-execution path (recon_cockpit/secure_agent/controller.py), with the
    objects it shares with its session. */
module ControlPath {
  import opened Prelude
  import opened Execution
  import opened Models
  import opened SessionTrace
  import opened SessionSafety
  import opened Approvals

  /** A monitor without its asynchronous flags: what a concurrent rejection cannot change. */
  function Core(m: Monitor): Monitor {
    m.(rejected := false, auditFault := false)
  }

  /** The accounts that only the session itself moves. */
  predicate SameLedger(a: Monitor, b: Monitor) {
    a.ledger == b.ledger
  }

  predicate SameLaunches(a: Monitor, b: Monitor) {
    a.launches == b.launches && a.launchedBytes == b.launchedBytes && a.succeeded == b.succeeded
  }

  /** Events whose recording may fail and then poisons the session: audit and evidence. */
  predicate Durable(e: Event) {
    (IsAudit(e) && !e.RequestRejected?) || e.EvidenceOpened? || e.EvidenceClosed?
  }

  /** Event e leads from core m to core n. */
  ghost predicate Leads(cfg: Config, m: Monitor, e: Event, n: Monitor) {
    n == Core(n) && n.approvalFault == m.approvalFault && Next(cfg, m, e) == Some(n)
  }

  /** A concurrent rejection stops no event but a launch clearance, and no such event depends on one. */
  lemma RejectionCommutes(cfg: Config, m: Monitor, e: Event, rejected: bool)
    requires Durable(e) && Next(cfg, m, e).Some?
    ensures Next(cfg, m.(rejected := rejected), e) == Some(Next(cfg, m, e).value.(rejected := rejected))
  {
    if e.SessionMarked? {
    } else {
      StepCommutes(cfg, m, e, rejected);
    }
  }

  lemma LaunchCommutes(cfg: Config, m: Monitor, e: Event, rejected: bool)
    requires !e.LaunchCleared? && NextLaunch(cfg, m, e).Some?
    ensures NextLaunch(cfg, m.(rejected := rejected), e) == Some(NextLaunch(cfg, m, e).value.(rejected := rejected))
  {
  }

  lemma DecisionCommutes(cfg: Config, m: Monitor, e: Event, rejected: bool)
    requires !e.LaunchCleared? && NextDecision(cfg, m, e).Some?
    ensures NextDecision(cfg, m.(rejected := rejected), e) == Some(NextDecision(cfg, m, e).value.(rejected := rejected))
  {
    if NextLaunch(cfg, m, e).Some? { LaunchCommutes(cfg, m, e, rejected); }
  }

  lemma StepCommutes(cfg: Config, m: Monitor, e: Event, rejected: bool)
    requires !e.LaunchCleared? && NextStep(cfg, m, e).Some?
    ensures NextStep(cfg, m.(rejected := rejected), e) == Some(NextStep(cfg, m, e).value.(rejected := rejected))
  {
    if NextDecision(cfg, m, e).Some? { DecisionCommutes(cfg, m, e, rejected); }
  }

  datatype Fault = Stopped(stop: Stop) | AuditUnavailable | ApprovalUnavailable | ProtocolFailure | Ordinary | Unlisted

  /** The history of the session. Nothing is appended to it that a replay would refuse. */
  class History {
    ghost const cfg: Config
    ghost var trace: Trace
    ghost var m: Monitor
    ghost var raised: set<Fault>  // by the journal, the services and the callbacks around the session

    ghost predicate Valid()
      reads this
    {
      Replay(cfg, trace) == Some(m)
    }

    constructor (ghost cfg: Config)
      ensures Valid() && trace == [] && m == FRESH && raised == {} && this.cfg == cfg
    {
      this.cfg := cfg;
      trace, m, raised := [], FRESH, {};
    }

    ghost method Append(e: Event)
      requires Valid() && Next(cfg, m, e).Some?
      modifies this`trace, this`m
      ensures Valid() && trace == old(trace) + [e] && Some(m) == Next(cfg, old(m), e)
    {
      ReplayAppend(cfg, trace, e);
      trace, m := trace + [e], Next(cfg, m, e).value;
    }

    /** The last event. */
    ghost predicate Ends(e: Event)
      reads this
    {
      trace != [] && trace[|trace| - 1] == e
    }

    /** Something outside has raised this. */
    ghost method Blame(fault: Fault)
      modifies this`raised
      ensures raised == old(raised) + {fault}
    {
      raised := raised + {fault};
    }
  }

  datatype SessionStatus = Completed | Halted

  datatype Reason =
    | ProtocolError | ProviderFailure | InvalidProposal | CoordinatorDone | ProposalDenied | OutputExhausted
    | ActionEnded(status: Status) | StepsExhausted | ControlStopped(stop: Stop) | ApprovalsUnavailable
    | CoordinatorFailure

  /** The cells of one session run that a concurrent caller's rejection writes too. */
  class Cells {
    var closed: bool
    var protocolFailed: bool
    var status: SessionStatus
    var stopReason: Reason

    constructor ()
      ensures !closed && !protocolFailed && status == Halted && stopReason == ProtocolError
    {
      closed, protocolFailed, status, stopReason := false, false, Halted, ProtocolError;
    }
  }

  /** What happens around one executor run: another run is still going on; the executor could be started; and what its
      run, or the failed start, comes to. */
  datatype Attempt = Attempt(busy: bool, starts: bool, outcome: RunResult)
  {
    function Result(): RunResult {
      if outcome.Exhausted? || (outcome.Reported? && !starts) then OrdinaryError else outcome
    }
  }

  /** The executor adapter of one session: allowances are reserved before a launch and never refunded
      (recon_cockpit/secure_agent/authorized_execution.py). */
  class AuthorizedFixtureBackend {
    const policy: Policy
    const limits: Limits
    const executes: bool
    var sequence: nat
    var output: nat
    var bound: ExecutionControl?
    ghost var spawned: nat     // allowances of executors actually started
    ghost var exhausted: bool  // the adapter's own budget guard has fired
    ghost var runs: nat        // calls of run()
    ghost var last: RunResult  // what the last one came to
    ghost var up: bool         // what the last availability check said

    ghost predicate Valid()
      reads this
    {
      spawned <= output <= limits.maxOutput && sequence <= limits.maxSteps
    }

    predicate HasBudget(action: Action)
      reads this
    {
      sequence < limits.maxSteps && output + action.maxOutput <= limits.maxOutput
    }

    /** The adapter is meant for this policy, action and control. */
    predicate Authorises(action: Action, policy: Policy, control: ExecutionControl)
      reads this, control
    {
      && executes && policy.fingerprint == this.policy.fingerprint && this.policy.evaluate(action) != Deny
      && (if bound == null then control.deadline - control.now <= limits.maxSeconds else bound == control)
    }

    constructor (policy: Policy, limits: Limits, executes: bool)
      ensures Valid() && sequence == 0 && output == 0 && !exhausted && runs == 0
      ensures this.policy == policy && this.limits == limits && this.executes == executes
    {
      this.policy, this.limits, this.executes := policy, limits, executes;
      sequence, output, bound, spawned, exhausted, runs, last, up := 0, 0, null, 0, false, 0, Unavailable, false;
    }

    method CheckAvailable() returns (ok: bool)
      modifies this`up
      ensures up == ok && (ok ==> executes)
    {
      ok := *;
      ok := ok && executes;
      up := ok;
    }

    /** run(): every failure after the reservation keeps the full cost. Unless the session is stopped, an authorised
        run with budget of an available executor comes to what the executor says. */
    method Run(action: Action, policy: Policy, control: ExecutionControl, attempt: Attempt) returns (result: RunResult)
      requires Valid()
      modifies this, control
      ensures Valid() && old(control.now) <= control.now && (old(control.cancelled) ==> control.cancelled)
      ensures (sequence == old(sequence) && output == old(output) && spawned == old(spawned))
           || (sequence == old(sequence) + 1 && output == old(output) + action.maxOutput)
      ensures result.Reported? ==> sequence == old(sequence) + 1 && old(HasBudget(action)) && !attempt.busy
      ensures result.Reported? ==> result == attempt.outcome && attempt.starts && executes && up
      ensures result.Reported? ==> !control.cancelled && control.now < control.deadline
      ensures exhausted <==> old(exhausted) || result.Exhausted?
      ensures result.Exhausted? ==> !old(HasBudget(action))
      ensures !attempt.busy && old(Authorises(action, policy, control)) && old(HasBudget(action)) ==>
        (up && !control.cancelled && control.now < control.deadline ==> result == attempt.Result())
      ensures result.StopRaised? ==> result == attempt.outcome || Halting(control, result.stop)
      ensures last == result && runs == old(runs) + 1
    {
      result := Guarded(action, policy, control, attempt);
      last, runs := result, runs + 1;
    }

    method Guarded(action: Action, policy: Policy, control: ExecutionControl, attempt: Attempt)
      returns (result: RunResult)
      requires Valid()
      modifies this`sequence, this`output, this`bound, this`spawned, this`exhausted, this`up, control
      ensures Valid() && old(control.now) <= control.now && (old(control.cancelled) ==> control.cancelled)
      ensures (sequence == old(sequence) && output == old(output) && spawned == old(spawned))
           || (sequence == old(sequence) + 1 && output == old(output) + action.maxOutput)
      ensures result.Reported? ==> sequence == old(sequence) + 1 && old(HasBudget(action)) && !attempt.busy
      ensures result.Reported? ==> result == attempt.outcome && attempt.starts && executes && up
      ensures result.Reported? ==> !control.cancelled && control.now < control.deadline
      ensures exhausted <==> old(exhausted) || result.Exhausted?
      ensures result.Exhausted? ==> !old(HasBudget(action))
      ensures !attempt.busy && old(Authorises(action, policy, control)) && old(HasBudget(action)) ==>
        (up && !control.cancelled && control.now < control.deadline ==> result == attempt.Result())
      ensures result.StopRaised? ==> result == attempt.outcome || Halting(control, result.stop)
    {
      if attempt.busy || !executes { return Unavailable; }
      var stop := control.Check();
      if stop.Some? { return StopRaised(stop.value); }
      if policy.fingerprint != this.policy.fingerprint || this.policy.evaluate(action) == Deny { return Unavailable; }
      if bound == null {
        if control.deadline - control.now > limits.maxSeconds { return Unavailable; }
        bound := control;
      } else if bound != control {
        return Unavailable;
      }
      if sequence >= limits.maxSteps || output + action.maxOutput > limits.maxOutput {
        exhausted := true;
        return Exhausted;
      }
      var ok := CheckAvailable();
      if !ok { return Unavailable; }
      sequence, output := sequence + 1, output + action.maxOutput;
      if !attempt.starts { return attempt.Result(); }
      spawned := spawned + action.maxOutput;
      stop := control.Check();
      return if stop.Some? then StopRaised(stop.value) else attempt.Result();
    }
  }

  datatype Verdict = Ruled(action: Action, decision: Decision) | Invalid | VerdictRaised(fault: Fault)
  datatype Consenting = Given | Withheld | ConsentRaised(fault: Fault)
  datatype Submission = Outcome(decision: Decision, status: Status) | Raised(fault: Fault)
  datatype Launching = Ended(status: Status) | LaunchRaised(fault: Fault)

  /** Live grants in the store are exactly backed by issued, unspent grants of the history. */
  ghost predicate Backed(s: Store, issued: map<nat, Grant>, spent: set<nat>) {
    && (forall r :: r in s.grants ==>
          r in issued && r !in spent && s.grants[r].action == Sha256(issued[r].action)
          && s.grants[r].policy == issued[r].policy && s.grants[r].expires == issued[r].expires)
    && (forall r :: r in issued ==> r < s.next)
    && (forall r :: r in spent ==> r < s.next)
  }

  lemma SpendBacked(s: Store, now: real, reference: Reference, action: Action, policy: Policy, issued: map<nat, Grant>,
                    spent: set<nat>)
    requires Backed(s, issued, spent)
    ensures var c := ConsumeStep(s, now, reference, action, policy);
      && (c.code.Some? ==> Backed(c.store, issued, spent))
      && (c.code.None? ==>
            && reference.Token? && reference.n in issued && reference.n !in spent
            && issued[reference.n].action == action && now < issued[reference.n].expires
            && Backed(c.store, issued, spent + {reference.n}))
  {
  }

  lemma IssueBacked(s: Store, now: real, action: Action, policy: Policy, issued: map<nat, Grant>, spent: set<nat>)
    requires Backed(s, issued, spent)
    ensures match IssueStep(s, now, action, policy)
      case Refused(t, _) => Backed(t, issued, spent)
      case Granted(t, g) =>
        && g.reference !in issued && policy.evaluate(action) == ApprovalRequired
        && Backed(t, issued[g.reference := Grant(action, policy.fingerprint, g.expires)], spent)
  {
  }

  /** The accounts after an execution has been reported finished. */
  function AfterExecution(evidence: bool, m: Monitor, action: Action, status: Status): Monitor {
    m.(phase := Finished(action, status), counts := m.counts.(finished := m.finished + 1,
       succeeded := m.succeeded + if !evidence && status == Succeeded then 1 else 0))
  }

  /** The accounts after the evidence of an execution has been closed. */
  function AfterClose(m: Monitor, action: Action, status: Status): Monitor {
    m.(phase := Closed(action, status),
      counts := m.counts.(succeeded := m.succeeded + if status == Succeeded then 1 else 0))
  }

  /** The accounts after an execution has been closed, with or without evidence. */
  function AfterFinish(m: Monitor, action: Action, status: Status): Monitor {
    m.(phase := Finished(action, status), counts := m.counts.(finished := m.finished + 1,
       succeeded := m.succeeded + if status == Succeeded then 1 else 0))
  }

  lemma CloseThenFinish(m: Monitor, action: Action, status: Status)
    ensures AfterExecution(true, AfterClose(m, action, status), action, status) == AfterFinish(m, action, status)
    ensures AfterExecution(false, m, action, status) == AfterFinish(m, action, status)
  {
  }

  /** The execution under way has come to a result, to be recorded as this status. */
  predicate RanAs(phase: Phase, action: Action, status: Status) {
    phase.Ran? && phase.action == action && Recorded(phase.result) == Some(status)
  }

  lemma LeadsFinished(cfg: Config, m: Monitor, step: nat, action: Action, status: Status)
    requires m == Core(m) && step == m.attempted
    requires if cfg.evidence then m.phase == Closed(action, status) else RanAs(m.phase, action, status)
    ensures Leads(cfg, m, ExecutionFinished(step, action, status), AfterExecution(cfg.evidence, m, action, status))
  {
  }

  function AfterStep(execute: bool, m: Monitor, status: Status): Monitor {
    m.(phase := Idle, ledger := m.ledger.(steps := m.steps + 1,
       halted := if execute then status != Succeeded else status != DryRun))
  }

  lemma LeadsEnded(cfg: Config, m: Monitor, step: nat, status: Status)
    requires m == Core(m) && step == m.attempted
    requires m.phase == Over(status) || (m.phase.Finished? && m.phase.status == status)
      || (m.phase.Previewed? && status == Blocked) || (m.phase.Reserved? && status == DryRun && !cfg.execute)
    ensures Leads(cfg, m, StepFinished(step, status), AfterStep(cfg.execute, m, status))
  {
  }

  /** At some time between these two the store turns the answer down. */
  ghost predicate Declines(s: Store, from: real, to: real, answer: Reference, action: Action, policy: Policy) {
    exists now :: from <= now <= to && ConsumeStep(s, now, answer, action, policy).code.Some?
  }

  /** The step stands where submit(execute=True) may be called with this answer: the human's own when one had to be
      asked, and none otherwise. */
  predicate Presenting(cfg: Config, phase: Phase, action: Action, answer: Reference) {
    if Asks(cfg, action) then phase == Asked(action, answer) else phase == Reserved(action) && answer == Missing
  }

  class Controller {
    const history: History
    const control: ExecutionControl
    const cells: Cells
    const policy: Policy
    const evidence: bool
    const approvals: ApprovalStore
    const backend: AuthorizedFixtureBackend
    var auditFailed: bool
    var approvalFailed: bool

    ghost predicate Linked()
      reads this, history, control, cells
    {
      && history.Valid()
      && history.m.auditFault == auditFailed
      && history.m.approvalFault == approvalFailed
      && (history.m.rejected ==> control.cancelled && cells.closed && cells.protocolFailed)
      && (cells.protocolFailed ==> control.cancelled && cells.closed)
      && policy == history.cfg.policy && evidence == history.cfg.evidence
      && (auditFailed ==> AuditUnavailable in history.raised)
      && (approvalFailed ==> ApprovalUnavailable in history.raised)
    }

    /** No failure comes out of nowhere: it was raised outside, the control has stopped the session, or a request of it
        has been rejected. */
    ghost predicate Caused(fault: Fault)
      reads history, control, cells
    {
      || fault in history.raised
      || (fault.Stopped? && Halting(control, fault.stop))
      || (fault.ProtocolFailure? && cells.protocolFailed)
    }

    /** Grants and executor budgets never exceed what the history accounts for. */
    ghost predicate Covered()
      reads this, history, approvals, backend
    {
      && Backed(approvals.Model(), history.m.issued, history.m.spent)
      && backend.Valid() && !backend.exhausted && backend.limits == history.cfg.limits
      && backend.sequence <= history.m.launches && backend.output <= history.m.launchedBytes
      && backend.runs == history.m.launches
    }

    constructor (history: History, control: ExecutionControl, cells: Cells, policy: Policy, evidence: bool,
                 approvals: ApprovalStore, backend: AuthorizedFixtureBackend)
      requires history.Valid() && history.m == FRESH && history.cfg.policy == policy && history.cfg.evidence == evidence
      requires approvals.Model() == Store(map[], 0)
      requires backend.Valid() && !backend.exhausted && backend.limits == history.cfg.limits
      requires backend.sequence == 0 && backend.output == 0 && backend.runs == 0 && !cells.protocolFailed
      ensures Linked() && Covered() && this.history == history && this.control == control && this.cells == cells
      ensures this.policy == policy && this.approvals == approvals && this.backend == backend
      ensures !auditFailed && !approvalFailed
    {
      this.history, this.control, this.cells := history, control, cells;
      this.policy, this.evidence, this.approvals, this.backend := policy, evidence, approvals, backend;
      auditFailed, approvalFailed := false, false;
    }

    /** A journal that has failed is never written again. */
    method LoseJournal()
      requires Linked() && AuditUnavailable in history.raised
      modifies this`auditFailed, history`trace, history`m
      ensures Linked() && auditFailed && history.m == old(history.m).(auditFault := true)
    {
      auditFailed := true;
      history.Append(AuditFault);
    }

    /** One write of the journal, which may fail. */
    method Persist() returns (ok: bool)
      modifies history`raised
      ensures history.raised == if ok then old(history.raised) else old(history.raised) + {AuditUnavailable}
    {
      ok := *;
      if !ok { history.Blame(AuditUnavailable); }
    }

    /** One durable append, or a failed one that poisons the controller. */
    method Write(e: Event, ghost n: Monitor) returns (ok: bool)
      requires Linked()
      requires !auditFailed ==>
        && Next(history.cfg, history.m, e) == Some(n)
        && !n.auditFault && n.approvalFault == history.m.approvalFault && n.rejected == history.m.rejected
      modifies this`auditFailed, history
      ensures Linked() && ok == !auditFailed && (old(auditFailed) ==> !ok)
      ensures history.m == if ok then n else old(history.m).(auditFault := true)
      ensures ok ==> history.Ends(e)
      ensures old(history.raised) <= history.raised
    {
      if auditFailed { return false; }
      ok := Persist();
      if ok {
        history.Append(e);
      } else {
        LoseJournal();
      }
    }

    /** What concurrent callers may do to shared state: cancel, or poison the session by a rejection. */
    twostate predicate Nudged()
      reads control, cells, history
    {
      && old(history.raised) <= history.raised && old(control.now) <= control.now
      && (old(control.cancelled) ==> control.cancelled)
      && (unchanged(cells)
          || (cells.closed && cells.protocolFailed && cells.status == Halted && cells.stopReason == ProtocolError
            && control.cancelled))
    }

    /** reject(): close the channel, cancel outstanding work, then try to record the reason. */
    method Reject() returns (fault: Fault)
      requires Linked()
      modifies this`auditFailed, history, control, cells
      ensures Linked() && Nudged() && control.cancelled && cells.closed && cells.protocolFailed
      ensures cells.status == Halted && cells.stopReason == ProtocolError
      ensures Core(history.m) == Core(old(history.m))
      ensures fault == if auditFailed then AuditUnavailable else ProtocolFailure
      ensures old(auditFailed) ==> auditFailed
    {
      cells.closed, cells.protocolFailed := true, true;
      control.cancelled := true;
      cells.status, cells.stopReason := Halted, ProtocolError;
      fault := NoteRejection();
    }

    /** coordinator_request_rejected */
    method NoteRejection() returns (fault: Fault)
      requires Linked() && control.cancelled && cells.closed && cells.protocolFailed
      modifies this`auditFailed, history
      ensures Linked() && Core(history.m) == Core(old(history.m)) && (old(auditFailed) ==> auditFailed)
      ensures fault == if auditFailed then AuditUnavailable else ProtocolFailure
      ensures old(history.raised) <= history.raised
    {
      if auditFailed { return AuditUnavailable; }
      var ok := Persist();
      if !ok {
        LoseJournal();
        return AuditUnavailable;
      }
      history.Append(RequestRejected);
      return ProtocolFailure;
    }

    /** Other threads: each concurrent exchange() finds the request lock taken and rejects. */
    method Interfere()
      requires Linked()
      modifies this`auditFailed, history, control, cells
      ensures Linked() && Nudged()
      ensures Core(history.m) == Core(old(history.m))
      ensures old(auditFailed) ==> auditFailed
      ensures auditFailed && !old(auditFailed) ==> control.cancelled
    {
      control.Wait();
      var callers: int :| 0 <= callers;
      for i := 0 to callers
        invariant Linked() && Nudged()
        invariant Core(history.m) == Core(old(history.m))
        invariant old(auditFailed) ==> auditFailed
        invariant auditFailed && !old(auditFailed) ==> control.cancelled
      {
        var fault := Reject();
      }
    }

    /** _emit(), and the evidence calls: a hard precondition of everything that follows. */
    method Emit(e: Event, ghost n: Monitor) returns (ok: bool)
      requires Linked() && Durable(e) && Leads(history.cfg, Core(history.m), e, n)
      modifies this`auditFailed, history, control, cells
      ensures Linked() && Nudged() && ok == !auditFailed && (old(auditFailed) ==> !ok)
      ensures Core(history.m) == if ok then n else Core(old(history.m))
      ensures ok ==> history.Ends(e)
    {
      Interfere();
      RejectionCommutes(history.cfg, Core(history.m), e, history.m.rejected);
      assert !auditFailed ==> history.m == Core(history.m).(rejected := history.m.rejected);
      ok := Write(e, n.(rejected := history.m.rejected));
    }

    /** control.check(), with concurrent callers able to act just before it. */
    method Check() returns (stop: Option<Stop>)
      requires Linked()
      modifies this`auditFailed, history, control, cells
      ensures Linked() && Nudged()
      ensures Core(history.m) == Core(old(history.m))
      ensures old(auditFailed) ==> auditFailed
      ensures stop.None? ==>
        !control.cancelled && control.now < control.deadline && auditFailed == old(auditFailed) && unchanged(cells)
      ensures stop.Some? ==> Halting(control, stop.value)
    {
      Interfere();
      stop := control.Check();
    }

    /** Validation and the audited policy decision, for a preview and again before execution. */
    method Decide(proposal: Proposal, step: nat, ghost second: bool, ghost answer: Reference)
      returns (verdict: Verdict)
      requires Linked() && step == history.m.attempted
      requires if second then proposal.parsed.Some? && history.cfg.execute
                 && Presenting(history.cfg, history.m.phase, proposal.parsed.value, answer)
                 && policy.evaluate(proposal.parsed.value) != Deny
               else history.m.phase.Accepted? && history.m.phase.plan.action == Some(proposal)
      modifies this`auditFailed, history, control, cells
      ensures Linked() && Nudged()
      ensures verdict.Ruled? ==>
        proposal.parsed == Some(verdict.action) && verdict.decision == policy.evaluate(verdict.action)
      ensures verdict.Ruled? ==> Core(history.m) == Core(old(history.m)).(phase :=
        if second then Redecided(verdict.action, answer) else if verdict.decision == Deny then Over(Blocked)
          else Previewed(verdict.action))
      ensures !verdict.VerdictRaised? ==> !auditFailed
      ensures verdict.VerdictRaised? ==> Core(history.m) == Core(old(history.m)) && auditFailed
      ensures verdict.Invalid? ==>
        !second && proposal.parsed.None? && Core(history.m) == Core(old(history.m)).(phase := Over(Rejected))
    {
      if proposal.parsed.None? {
        var ok := Emit(ValidationRejected(step), Core(history.m).(phase := Over(Rejected)));
        return if ok then Invalid else VerdictRaised(AuditUnavailable);
      }
      var action := proposal.parsed.value;
      var decision := policy.evaluate(action);
      var ok := Emit(PolicyDecided(step, action, decision), Core(history.m).(phase :=
        if second then Redecided(action, answer) else if decision == Deny then Over(Blocked) else Previewed(action)));
      return if ok then Ruled(action, decision) else VerdictRaised(AuditUnavailable);
    }

    /** consume() of the session's store: it decides on the very answer given, and a success spends its grant in the
        history. */
    method Redeem(answer: Reference, action: Action, ghost step: nat) returns (code: Option<string>)
      requires Linked() && Backed(approvals.Model(), history.m.issued, history.m.spent)
      requires step == history.m.attempted && history.m.phase == Redecided(action, answer) && history.cfg.interactive
      requires policy.evaluate(action) == ApprovalRequired
      modifies history, approvals
      ensures Linked() && Backed(approvals.Model(), history.m.issued, history.m.spent)
      ensures code == ConsumeStep(old(approvals.Model()), control.now, answer, action, policy).code
      ensures code.None? ==> answer.Token?
      ensures history.m.phase == if code.None? then Spent(action, answer.n) else TurnedDown(action)
      ensures SameLedger(old(history.m), history.m) && SameLaunches(old(history.m), history.m)
      ensures history.raised == old(history.raised)
    {
      var grant;
      SpendBacked(approvals.Model(), control.now, answer, action, policy, history.m.issued, history.m.spent);
      code, grant := approvals.ConsumeWithGrant(control.now, answer, action, policy);
      MarkAnswer(code.None?, answer, action, step);
    }

    /** The store has accepted or refused the answer. */
    ghost method MarkAnswer(accepted: bool, answer: Reference, action: Action, step: nat)
      requires history.Valid() && policy == history.cfg.policy && policy.evaluate(action) == ApprovalRequired
      requires step == history.m.attempted && history.m.phase == Redecided(action, answer) && history.cfg.interactive
      requires accepted ==>
        answer.Token? && answer.n in history.m.issued && answer.n !in history.m.spent
        && history.m.issued[answer.n].action == action && control.now < history.m.issued[answer.n].expires
      modifies history
      ensures history.Valid() && history.raised == old(history.raised)
      ensures history.m == if accepted then
        old(history.m).(phase := Spent(action, answer.n), spent := old(history.m).spent + {answer.n})
        else old(history.m).(phase := TurnedDown(action))
    {
      if accepted {
        history.Append(GrantSpent(step, action, answer.n, control.now));
      } else {
        history.Append(GrantRefused(step, action, answer));
      }
    }

    /** The approval service: the in-process store, or a confined one that may become unreachable. */
    method Consume(answer: Reference, action: Action, ghost step: nat)
      returns (code: Option<string>, reachable: bool)
      requires Linked() && Backed(approvals.Model(), history.m.issued, history.m.spent)
      requires step == history.m.attempted && history.m.phase == Redecided(action, answer) && history.cfg.interactive
      requires policy.evaluate(action) == ApprovalRequired
      modifies this`approvalFailed, history, approvals
      ensures Linked() && Backed(approvals.Model(), history.m.issued, history.m.spent)
      ensures if reachable then approvalFailed == old(approvalFailed) else approvalFailed
      ensures SameLedger(old(history.m), history.m) && SameLaunches(old(history.m), history.m)
      ensures reachable ==> code == ConsumeStep(old(approvals.Model()), control.now, answer, action, policy).code
      ensures reachable && code.None? ==> answer.Token?
      ensures reachable ==> history.m.phase == if code.None? then Spent(action, answer.n) else TurnedDown(action)
      ensures !Stranded(history.m.phase) && old(history.raised) <= history.raised
    {
      code, reachable := None, *;
      if reachable {
        code := Redeem(answer, action, step);
      } else {
        history.Blame(ApprovalUnavailable);
        approvalFailed := true;
        history.Append(ApprovalFault);
      }
    }

    /** Where the step stands after the approval has been looked at. */
    predicate Judged(phase: Phase, interactive: bool, code: Option<string>, action: Action, reference: nat) {
      if code.None? then phase == Spent(action, reference)
      else if interactive then phase == TurnedDown(action)
      else phase == Redecided(action, Missing)
    }

    /** The consumption, or its refusal, is durable before anything else. */
    method Conclude(code: Option<string>, action: Action, reference: nat, step: nat) returns (r: Consenting)
      requires Linked() && step == history.m.attempted && policy.evaluate(action) == ApprovalRequired
      requires Judged(history.m.phase, history.cfg.interactive, code, action, reference)
      modifies this`auditFailed, history, control, cells
      ensures Linked() && Nudged()
      ensures r.Given? ==> code.None? && history.m.phase == Approved(action)
      ensures r.Withheld? ==> code.Some? && history.m.phase == Over(Blocked)
      ensures Core(history.m) == Core(old(history.m)).(phase := history.m.phase)
      ensures r.ConsentRaised? ==> r.fault == AuditUnavailable && auditFailed
      ensures !r.ConsentRaised? ==> !auditFailed
      ensures !Stranded(history.m.phase)
    {
      var ok;
      if code.Some? {
        ok := Emit(ApprovalRejected(step, action), Core(history.m).(phase := Over(Blocked)));
        return if ok then Withheld else ConsentRaised(AuditUnavailable);
      }
      ok := Emit(ApprovalConsumed(step, action, reference), Core(history.m).(phase := Approved(action)));
      return if ok then Given else ConsentRaised(AuditUnavailable);
    }

    /** A required approval is consumed once before execution; without a grant that the store accepts the action is
        blocked, and with one it is not. */
    method Consent(action: Action, interactive: bool, answer: Reference, step: nat) returns (r: Consenting)
      requires Linked() && Backed(approvals.Model(), history.m.issued, history.m.spent)
      requires interactive == history.cfg.interactive && policy.evaluate(action) != Deny
      requires step == history.m.attempted && history.m.phase == Redecided(action, answer)
      requires !interactive ==> answer == Missing
      modifies this, history, control, cells, approvals
      ensures Linked() && Backed(approvals.Model(), history.m.issued, history.m.spent) && Nudged()
      ensures r.Given? ==> Authorised(history.cfg, history.m.phase, action)
      ensures r.Withheld? ==> history.m.phase == Over(Blocked)
      ensures !r.ConsentRaised? && policy.evaluate(action) == Allow ==> r.Given?
      ensures !r.ConsentRaised? && policy.evaluate(action) == ApprovalRequired ==>
        (r.Given? <==>
          interactive && ConsumeStep(old(approvals.Model()), old(control.now), answer, action, policy).code.None?)
      ensures SameLedger(old(history.m), history.m) && SameLaunches(old(history.m), history.m)
      ensures !r.ConsentRaised? ==> approvalFailed == old(approvalFailed)
      ensures r.ConsentRaised? ==>
        (r.fault == AuditUnavailable && auditFailed) || (r.fault == ApprovalUnavailable && approvalFailed)
      ensures r.Withheld? ==> !auditFailed
      ensures !Stranded(history.m.phase)
    {
      if policy.evaluate(action) == Allow { return Given; }
      var code: Option<string> := Some("noninteractive_approval_required");
      if interactive {
        var reachable;
        code, reachable := Consume(answer, action, step);
        if !reachable { return ConsentRaised(ApprovalUnavailable); }
      }
      r := Conclude(code, action, if answer.Token? then answer.n else 0, step);
    }

    /** execution_blocked: no isolated backend is available. */
    method Block(action: Action, step: nat) returns (ok: bool)
      requires Linked() && step == history.m.attempted && Authorised(history.cfg, history.m.phase, action)
      modifies this`auditFailed, history, control, cells
      ensures Linked() && Nudged() && ok == !auditFailed
      ensures ok ==> Core(history.m) == Core(old(history.m)).(phase := Over(Blocked))
      ensures !ok ==> Core(history.m) == Core(old(history.m))
    {
      ok := Emit(ExecutionBlocked(step, action), Core(history.m).(phase := Over(Blocked)));
    }

    /** evidence.start() */
    method OpenEvidence(action: Action, step: nat) returns (ok: bool)
      requires Linked() && step == history.m.attempted && Authorised(history.cfg, history.m.phase, action) && evidence
      modifies this`auditFailed, history, control, cells
      ensures Linked() && Nudged() && ok == !auditFailed
      ensures ok ==> Core(history.m) == Core(old(history.m)).(phase := Opened(action),
        counts := old(history.m.counts).(recorded := old(history.m.recorded) + 1))
      ensures !ok ==> Core(history.m) == Core(old(history.m))
    {
      ok := Emit(EvidenceOpened(step, action), Core(history.m).(phase := Opened(action),
                 counts := history.m.counts.(recorded := history.m.recorded + 1)));
    }

    /** execution_started, the hard precondition of a launch. */
    method Announce(action: Action, step: nat) returns (ok: bool)
      requires Linked() && step == history.m.attempted
      requires if evidence then history.m.phase == Opened(action) else Authorised(history.cfg, history.m.phase, action)
      modifies this`auditFailed, history, control, cells
      ensures Linked() && Nudged() && ok == !auditFailed
      ensures ok ==> Core(history.m) == Core(old(history.m)).(phase := Started(action),
        counts := old(history.m.counts).(started := old(history.m.started) + 1))
      ensures !ok ==> Core(history.m) == Core(old(history.m))
    {
      ok := Emit(ExecutionStarted(step, action), Core(history.m).(phase := Started(action),
                 counts := history.m.counts.(started := history.m.started + 1)));
    }

    /** What a concurrent caller and a few events leave of the accounts. */
    twostate predicate Steady()
      reads history
    {
      SameLedger(old(history.m), history.m) && SameLaunches(old(history.m), history.m)
      && history.m.issued == old(history.m.issued) && history.m.spent == old(history.m.spent)
    }

    /** Availability, the evidence record and the durable intent: everything that must precede a launch. */
    method Prepare(action: Action, step: nat) returns (ok: bool, blocked: bool)
      requires Linked() && step == history.m.attempted && Authorised(history.cfg, history.m.phase, action)
      modifies this`auditFailed, history, control, cells, backend`up
      ensures Linked() && Nudged() && Steady() && ok == !auditFailed
      ensures ok ==> history.m.phase == if blocked then Over(Blocked) else Started(action)
      ensures ok ==> (blocked <==> !backend.up)
    {
      blocked := false;
      ok := backend.CheckAvailable();
      if !ok {
        ok := Block(action, step);
        return ok, true;
      }
      if evidence {
        ok := OpenEvidence(action, step);
        if !ok { return; }
      }
      ok := Announce(action, step);
    }

    /** The passed final check and the launch, in the history; the reservation covers the executor's budget. */
    ghost method MarkLaunch(action: Action, step: nat)
      requires Linked() && step == history.m.attempted && history.m.phase == Started(action)
      requires !history.m.rejected && !auditFailed && !approvalFailed
      modifies history
      ensures Linked() && SameLedger(old(history.m), history.m) && history.m.phase == Running(action)
      ensures history.m.issued == old(history.m.issued) && history.m.spent == old(history.m.spent)
      ensures history.m.launches == old(history.m.launches) + 1 <= history.cfg.limits.maxSteps
      ensures history.m.launchedBytes == old(history.m.launchedBytes) + action.maxOutput <= history.cfg.limits.maxOutput
      ensures history.m.succeeded == old(history.m.succeeded) && history.raised == old(history.raised)
    {
      BudgetsHold(history.cfg, history.trace);
      history.Append(LaunchCleared(step, action));
      MarkRun(action, step);
    }

    ghost method MarkRun(action: Action, step: nat)
      requires history.Valid() && step == history.m.attempted && history.m.phase == Cleared(action)
      modifies history
      ensures history.Valid() && history.raised == old(history.raised)
      ensures history.m == old(history.m).(phase := Running(action), counts := old(history.m.counts).(
        launches := old(history.m.launches) + 1, launchedBytes := old(history.m.launchedBytes) + action.maxOutput))
    {
      history.Append(Launched(step, action));
    }

    /** The final check has stopped the execution. */
    ghost method MarkStop(action: Action, step: nat, stop: Stop)
      requires Linked() && step == history.m.attempted && history.m.phase == Started(action)
      modifies history
      ensures Linked() && history.m == old(history.m).(phase := Ran(action, StopRaised(stop)))
      ensures history.raised == old(history.raised)
    {
      history.Append(StoppedBefore(step, action, stop));
    }

    /** The backend has come to its result; an exception that nobody catches is raised by it. */
    ghost method MarkResult(action: Action, step: nat, result: RunResult)
      requires Linked() && step == history.m.attempted && history.m.phase == Running(action)
      modifies history
      ensures Linked() && history.m == old(history.m).(phase := Ran(action, result))
      ensures old(history.raised) <= history.raised && (result.UnlistedError? ==> Unlisted in history.raised)
    {
      history.Append(BackendReturned(step, action, result));
      if result.UnlistedError? { history.Blame(Unlisted); }
    }

    /** backend.run(), with concurrent callers able to act around it. */
    method Invoke(action: Action, step: nat) returns (result: RunResult)
      requires Linked() && backend.Valid() && !backend.exhausted && backend.HasBudget(action)
      requires step == history.m.attempted && history.m.phase == Running(action)
      modifies this`auditFailed, history, control, cells, backend
      ensures Linked() && Nudged() && Core(history.m) == Core(old(history.m)).(phase := Ran(action, result))
      ensures backend.last == result && backend.runs == old(backend.runs) + 1
      ensures result.UnlistedError? ==> Unlisted in history.raised
      ensures backend.Valid() && !backend.exhausted
      ensures backend.sequence <= old(backend.sequence) + 1 && backend.output <= old(backend.output) + action.maxOutput
    {
      Interfere();
      var attempt: Attempt := *;
      result := backend.Run(action, policy, control, attempt);
      MarkResult(action, step, result);
      Interfere();
    }

    /** backend.run() and what the controller makes of its outcome; None: an exception nobody catches. */
    method RunBackend(action: Action, step: nat) returns (status: Option<Status>)
      requires Linked() && backend.Valid() && !backend.exhausted && backend.HasBudget(action)
      requires step == history.m.attempted && history.m.phase == Running(action)
      modifies this`auditFailed, history, control, cells, backend
      ensures Linked() && Nudged() && Core(history.m) == Core(old(history.m)).(phase := Ran(action, backend.last))
      ensures status == Recorded(backend.last) && backend.runs == old(backend.runs) + 1
      ensures status.None? ==> Unlisted in history.raised
      ensures backend.Valid() && !backend.exhausted
      ensures backend.sequence <= old(backend.sequence) + 1 && backend.output <= old(backend.output) + action.maxOutput
    {
      var result := Invoke(action, step);
      match result {
        case Reported(s) => return Some(if s.DryRun? || s.Rejected? then Failed else s);
        case StopRaised(s) => return Some(if s.SessionCancelled? then Cancelled else Timeout);
        case Unavailable => return Some(Blocked);
        case Exhausted => return Some(Blocked);
        case OrdinaryError => return Some(Failed);
        case UnlistedError => return None;
      }
    }

    /** Where the outcome of an execution comes from: the backend's own report of its one run, or, if it has not run, a
        stop of the control. */
    twostate predicate Sourced(status: Option<Status>)
      reads history, control, backend
    {
      if history.m.launches == old(history.m.launches) then
        || (status == Some(Cancelled) && control.cancelled)
        || (status == Some(Timeout) && control.deadline <= control.now)
      else history.m.launches == old(history.m.launches) + 1 && status == Recorded(backend.last)
    }

    /** The final check, then the launch. Nothing runs once the session has been poisoned. */
    method Launch(action: Action, step: nat) returns (status: Option<Status>)
      requires Linked() && Covered() && step == history.m.attempted && history.m.phase == Started(action)
      requires !auditFailed && !approvalFailed
      modifies this`auditFailed, history, control, cells, backend
      ensures Linked() && Covered() && Nudged() && SameLedger(old(history.m), history.m)
      ensures approvalFailed == old(approvalFailed) && history.m.succeeded == old(history.m.succeeded)
      ensures history.m.phase.Ran? && history.m.phase.action == action && status == Recorded(history.m.phase.result)
      ensures Sourced(status) && (status.None? ==> Unlisted in history.raised)
    {
      var stop := Check();
      if stop.Some? {
        MarkStop(action, step, stop.value);
        return Some(if stop.value.SessionCancelled? then Cancelled else Timeout);
      }
      MarkLaunch(action, step);
      status := RunBackend(action, step);
    }

    /** evidence.finish() */
    method CloseEvidence(action: Action, status: Status, step: nat) returns (ok: bool)
      requires Linked() && step == history.m.attempted && evidence && RanAs(history.m.phase, action, status)
      modifies this`auditFailed, history, control, cells
      ensures Linked() && Nudged() && ok == !auditFailed
      ensures Core(history.m) == if ok then AfterClose(Core(old(history.m)), action, status) else Core(old(history.m))
    {
      ok := Emit(EvidenceClosed(step, status), AfterClose(Core(history.m), action, status));
    }

    /** execution_finished */
    method Conclusion(action: Action, status: Status, step: nat) returns (ok: bool)
      requires Linked() && step == history.m.attempted
      requires if evidence then history.m.phase == Closed(action, status) else RanAs(history.m.phase, action, status)
      modifies this`auditFailed, history, control, cells
      ensures Linked() && Nudged() && ok == !auditFailed
      ensures Core(history.m) == if ok then AfterExecution(evidence, Core(old(history.m)), action, status)
        else Core(old(history.m))
    {
      LeadsFinished(history.cfg, Core(history.m), step, action, status);
      ok := Emit(ExecutionFinished(step, action, status), AfterExecution(evidence, Core(history.m), action, status));
    }

    /** Evidence first, then the audit event that closes the execution. */
    method Finish(action: Action, status: Status, step: nat) returns (ok: bool)
      requires Linked() && step == history.m.attempted && RanAs(history.m.phase, action, status)
      modifies this`auditFailed, history, control, cells
      ensures Linked() && Nudged() && ok == !auditFailed
      ensures ok ==> Core(history.m) == AfterFinish(Core(old(history.m)), action, status)
      ensures !ok ==>
        Core(history.m) == Core(old(history.m)) || Core(history.m) == AfterClose(Core(old(history.m)), action, status)
    {
      CloseThenFinish(Core(history.m), action, status);
      if evidence {
        ok := CloseEvidence(action, status, step);
        if !ok { return; }
      }
      ok := Conclusion(action, status, step);
    }

    /** The launch, and the record of its outcome. */
    method Conduct(action: Action, step: nat) returns (r: Launching)
      requires Linked() && Covered() && step == history.m.attempted && history.m.phase == Started(action)
      requires !auditFailed && !approvalFailed
      modifies this`auditFailed, history, control, cells, backend
      ensures Linked() && Covered() && Nudged() && SameLedger(old(history.m), history.m)
      ensures r.Ended? ==> !auditFailed && r.status != DryRun && history.m.phase == Finished(action, r.status)
      ensures r.Ended? ==> Sourced(Some(r.status))
      ensures r.Ended? ==> history.m.succeeded == old(history.m.succeeded) + if r.status == Succeeded then 1 else 0
      ensures r.LaunchRaised? ==>
        (r.fault == AuditUnavailable && auditFailed)
        || (r.fault == Unlisted && Unlisted in history.raised && history.m.succeeded == old(history.m.succeeded))
      ensures approvalFailed == old(approvalFailed)
    {
      var status := Launch(action, step);
      if status.None? { return LaunchRaised(Unlisted); }
      var ok := Finish(action, status.value, step);
      return if ok then Ended(status.value) else LaunchRaised(AuditUnavailable);
    }

    /** From the durable intent to the recorded outcome, which is blocked for an unavailable backend and otherwise what
        the backend, or a stop before it, has come to: an execution is left under way only by a failed write or by an
        exception nobody catches. */
    method Perform(action: Action, step: nat) returns (r: Launching)
      requires Linked() && Covered() && step == history.m.attempted && Authorised(history.cfg, history.m.phase, action)
      requires !approvalFailed
      modifies this`auditFailed, history, control, cells, backend
      ensures Linked() && Covered() && Nudged() && SameLedger(old(history.m), history.m)
      ensures r.Ended? ==> !auditFailed && r.status != DryRun
      ensures r.Ended? ==> if history.m.phase == Over(Blocked) then r.status == Blocked && !backend.up
        else history.m.phase == Finished(action, r.status) && Sourced(Some(r.status))
      ensures r.Ended? ==> history.m.succeeded == old(history.m.succeeded) + if r.status == Succeeded then 1 else 0
      ensures r.LaunchRaised? ==>
        (r.fault == AuditUnavailable && auditFailed)
        || (r.fault == Unlisted && Unlisted in history.raised && history.m.succeeded == old(history.m.succeeded))
      ensures approvalFailed == old(approvalFailed)
      ensures Stranded(history.m.phase) ==> auditFailed || r == LaunchRaised(Unlisted)
    {
      var ok, blocked := Prepare(action, step);
      if !ok { return LaunchRaised(AuditUnavailable); }
      if blocked { return Ended(Blocked); }
      r := Conduct(action, step);
    }

    /** submit() begins with the memory of a lost approval service and a check. */
    method Admit() returns (fault: Option<Fault>)
      requires Linked() && Covered()
      modifies this`auditFailed, history, control, cells
      ensures Linked() && Covered() && Nudged() && Core(history.m) == Core(old(history.m))
      ensures fault.None? ==> !approvalFailed && auditFailed == old(auditFailed)
      ensures fault.Some? ==> Caused(fault.value)
      ensures fault.Some? ==> fault.value.Stopped? || (fault.value == ApprovalUnavailable && approvalFailed)
    {
      if approvalFailed { return Some(ApprovalUnavailable); }
      var stop := Check();
      return if stop.Some? then Some(Stopped(stop.value)) else None;
    }

    /** submit(execute=False): the decision is validated and audited, nothing else happens. */
    method Preview(proposal: Proposal, step: nat) returns (r: Submission)
      requires Linked() && Covered() && step == history.m.attempted
      requires history.m.phase.Accepted? && history.m.phase.plan.action == Some(proposal)
      modifies this`auditFailed, history, control, cells
      ensures Linked() && Covered() && Nudged() && SameLedger(old(history.m), history.m)
      ensures history.m.succeeded == old(history.m.succeeded)
      ensures r.Outcome? ==> (r.decision == Deny <==>
        proposal.parsed.None? || policy.evaluate(proposal.parsed.value) == Deny)
      ensures r.Outcome? ==> !auditFailed && if r.decision == Deny then
          history.m.phase == Over(r.status) && (r.status == Rejected || r.status == Blocked)
        else
          r.status == DryRun && proposal.parsed.Some? && r.decision == policy.evaluate(proposal.parsed.value)
          && history.m.phase == Previewed(proposal.parsed.value)
      ensures !Stranded(history.m.phase)
      ensures r.Raised? ==> r.fault != ProtocolFailure && r.fault != Ordinary && Caused(r.fault)
    {
      var fault := Admit();
      if fault.Some? { return Raised(fault.value); }
      var verdict := Decide(proposal, step, false, Missing);
      match verdict {
        case VerdictRaised(fault) => return Raised(AuditUnavailable);
        case Invalid => return Outcome(Deny, Rejected);
        case Ruled(action, decision) => return Outcome(decision, if decision == Deny then Blocked else DryRun);
      }
    }

    /** The status of an execution that came to an end: blocked because a required approval was not given or because
        the backend was not available, and otherwise what the backend, or a stop before it, has come to. */
    twostate predicate Resulted(action: Action, interactive: bool, answer: Reference, status: Status)
      reads history, control, backend
    {
      if history.m.phase == Over(Blocked) then
        && status == Blocked
        && (!backend.up
            || (policy.evaluate(action) == ApprovalRequired && !interactive)
            || (policy.evaluate(action) == ApprovalRequired
                && Declines(old(approvals.Model()), old(control.now), control.now, answer, action, policy)))
      else history.m.phase == Finished(action, status) && Sourced(Some(status))
    }

    /** submit(execute=True): decided again, consented to, and only then carried out. */
    method Execute(proposal: Proposal, interactive: bool, answer: Reference, step: nat) returns (r: Submission)
      requires Linked() && Covered() && step == history.m.attempted && history.cfg.execute
      requires proposal.parsed.Some? && policy.evaluate(proposal.parsed.value) != Deny
      requires interactive == history.cfg.interactive
      requires Presenting(history.cfg, history.m.phase, proposal.parsed.value, answer)
      modifies this, history, control, cells, approvals, backend
      ensures Linked() && Covered() && Nudged() && SameLedger(old(history.m), history.m)
      ensures r.Outcome? ==> !auditFailed && r.status != DryRun && r.decision == policy.evaluate(proposal.parsed.value)
      ensures r.Outcome? ==> Resulted(proposal.parsed.value, interactive, answer, r.status)
      ensures r.Outcome? ==> history.m.succeeded == old(history.m.succeeded) + if r.status == Succeeded then 1 else 0
      ensures r.Raised? ==> r.fault != ProtocolFailure && r.fault != Ordinary && Caused(r.fault)
      ensures r.Raised? && r.fault == ApprovalUnavailable ==> approvalFailed
      ensures r.Raised? && !auditFailed ==> history.m.succeeded == old(history.m.succeeded)
      ensures Stranded(history.m.phase) ==> auditFailed || r == Raised(Unlisted)
      ensures r.Outcome? ==> approvalFailed == old(approvalFailed)
    {
      var fault := Admit();
      if fault.Some? { return Raised(fault.value); }
      var verdict := Decide(proposal, step, true, answer);
      if verdict.VerdictRaised? { return Raised(AuditUnavailable); }
      r := Carry(verdict.action, interactive, answer, step);
    }

    method Carry(action: Action, interactive: bool, answer: Reference, step: nat) returns (r: Submission)
      requires Linked() && Covered() && step == history.m.attempted && !approvalFailed && !auditFailed
      requires history.m.phase == Redecided(action, answer) && policy.evaluate(action) != Deny
      requires interactive == history.cfg.interactive && (!interactive ==> answer == Missing)
      modifies this, history, control, cells, approvals, backend
      ensures Linked() && Covered() && Nudged() && SameLedger(old(history.m), history.m)
      ensures r.Outcome? ==> !auditFailed && r.status != DryRun && r.decision == policy.evaluate(action)
      ensures r.Outcome? ==> Resulted(action, interactive, answer, r.status)
      ensures r.Outcome? ==> history.m.succeeded == old(history.m.succeeded) + if r.status == Succeeded then 1 else 0
      ensures r.Raised? ==> r.fault != ProtocolFailure && r.fault != Ordinary && Caused(r.fault)
      ensures r.Raised? && r.fault == ApprovalUnavailable ==> approvalFailed
      ensures r.Raised? && !auditFailed ==> history.m.succeeded == old(history.m.succeeded)
      ensures Stranded(history.m.phase) ==> auditFailed || r == Raised(Unlisted)
      ensures r.Outcome? ==> approvalFailed == old(approvalFailed)
    {
      var stop := Check();
      if stop.Some? { return Raised(Stopped(stop.value)); }
      var consent := Consent(action, interactive, answer, step);
      match consent {
        case ConsentRaised(fault) => return Raised(fault);
        case Withheld => return Outcome(policy.evaluate(action), Blocked);
        case Given =>
          var done := Perform(action, step);
          match done {
            case LaunchRaised(fault) => return Raised(fault);
            case Ended(status) => return Outcome(policy.evaluate(action), status);
          }
      }
    }

    /** One grant request of the trusted review UI. */
    method Grant(action: Action)
      requires Linked() && Backed(approvals.Model(), history.m.issued, history.m.spent)
      modifies history, approvals
      ensures Linked() && Backed(approvals.Model(), history.m.issued, history.m.spent)
      ensures Core(history.m) == Core(old(history.m)).(issued := history.m.issued)
      ensures history.m.rejected == old(history.m.rejected) && history.m.auditFault == old(history.m.auditFault)
      ensures history.raised == old(history.raised)
      ensures match IssueStep(old(approvals.Model()), control.now, action, policy)
        case Refused(store, _) => approvals.Model() == store && history.m == old(history.m)
        case Granted(store, g) =>
          approvals.Model() == store && history.m.issued ==
            old(history.m.issued)[g.reference := SessionTrace.Grant(action, policy.fingerprint, g.expires)]
    {
      IssueBacked(approvals.Model(), control.now, action, policy, history.m.issued, history.m.spent);
      var grant := approvals.Issue(control.now, action, policy);
      if grant.Ok? {
        history.Append(GrantIssued(grant.value.reference,
          SessionTrace.Grant(action, policy.fingerprint, grant.value.expires)));
      }
    }

    /** What the approval callback may do to the session: grant anything any number of times. */
    method Consider()
      requires Linked() && Covered()
      modifies this`auditFailed, history, control, cells, approvals
      ensures Linked() && Covered() && Nudged()
      ensures Core(history.m) == Core(old(history.m)).(issued := history.m.issued)
      ensures old(auditFailed) ==> auditFailed
      ensures auditFailed && !old(auditFailed) ==> control.cancelled
    {
      Interfere();
      var wanted: seq<Action> := *;
      for i := 0 to |wanted|
        invariant Linked() && Covered() && Nudged()
        invariant Core(history.m) == Core(old(history.m)).(issued := history.m.issued)
        invariant old(auditFailed) ==> auditFailed
        invariant auditFailed && !old(auditFailed) ==> control.cancelled
      {
        Grant(wanted[i]);
      }
    }

    /** The approval callback, asked about one reserved action: it returns anything, or fails. */
    method Review(action: Action, ghost step: nat) returns (answer: Reference, fault: Option<Fault>)
      requires Linked() && Covered() && history.cfg.execute && Asks(history.cfg, action)
      requires step == history.m.attempted && history.m.phase == Reserved(action)
      modifies this`auditFailed, history, control, cells, approvals
      ensures Linked() && Covered() && Nudged()
      ensures Core(history.m) == Core(old(history.m)).(issued := history.m.issued,
        phase := if fault.None? then Asked(action, answer) else Reserved(action))
      ensures fault.Some? ==> fault.value != ProtocolFailure && fault.value in history.raised
      ensures old(auditFailed) ==> auditFailed
      ensures auditFailed && !old(auditFailed) ==> control.cancelled
    {
      Consider();
      answer, fault := *, *;
      if fault == Some(ProtocolFailure) { fault := Some(Ordinary); }
      if fault.Some? {
        history.Blame(fault.value);
      } else {
        history.Append(Reviewed(step, action, answer));
      }
    }

    /** session_step_started */
    method StartStep(step: nat) returns (ok: bool)
      requires Linked() && Covered()
      requires history.m.phase.Idle? && !history.m.halted
      requires step == history.m.attempted + 1 <= history.cfg.limits.maxSteps
      modifies this`auditFailed, history, control, cells
      ensures Linked() && Covered() && Nudged() && ok == !auditFailed
      ensures Core(history.m) == Core(old(history.m)).(phase := history.m.phase, ledger := history.m.ledger)
      ensures history.m.ledger == if ok then old(history.m.ledger).(attempted := step) else old(history.m.ledger)
      ensures history.m.phase == if ok then Begun else Idle
    {
      ok := Emit(StepStarted(step), Core(history.m).(phase := Begun, ledger := history.m.ledger.(attempted := step)));
    }

    /** session_step_finished */
    method EndStep(step: nat, status: Status) returns (ok: bool)
      requires Linked() && Covered() && step == history.m.attempted
      requires history.m.phase == Over(status) || (history.m.phase.Finished? && history.m.phase.status == status)
        || (history.m.phase.Previewed? && status == Blocked)
        || (history.m.phase.Reserved? && status == DryRun && !history.cfg.execute)
      modifies this`auditFailed, history, control, cells
      ensures Linked() && Covered() && Nudged() && ok == !auditFailed
      ensures Core(history.m) == if ok then AfterStep(history.cfg.execute, Core(old(history.m)), status)
        else Core(old(history.m))
    {
      LeadsEnded(history.cfg, Core(history.m), step, status);
      ok := Emit(StepFinished(step, status), AfterStep(history.cfg.execute, Core(history.m), status));
    }

    /** An audit event that only moves the current step along. */
    method Tell(e: Event, ghost next: Phase) returns (ok: bool)
      requires Linked() && Covered() && Durable(e)
      requires Leads(history.cfg, Core(history.m), e, Core(history.m).(phase := next))
      modifies this`auditFailed, history, control, cells
      ensures Linked() && Covered() && Nudged() && ok == !auditFailed
      ensures Core(history.m) == if ok then Core(old(history.m)).(phase := next) else Core(old(history.m))
    {
      ok := Emit(e, Core(history.m).(phase := next));
    }

    /** An audit fault met elsewhere poisons the controller too. */
    method PoisonAudit()
      requires Linked() && Covered()
      modifies this`auditFailed, history
      requires AuditUnavailable in history.raised
      ensures Linked() && Covered() && auditFailed && Core(history.m) == Core(old(history.m))
      ensures history.raised == old(history.raised)
    {
      if !auditFailed { LoseJournal(); }
    }

    /** So does the loss of the approval service. */
    method PoisonApproval()
      requires Linked() && Covered()
      modifies this`approvalFailed, history
      requires ApprovalUnavailable in history.raised
      ensures Linked() && Covered() && approvalFailed && Core(history.m) == Core(old(history.m)).(approvalFault := true)
      ensures history.raised == old(history.raised)
    {
      if !approvalFailed {
        approvalFailed := true;
        history.Append(ApprovalFault);
      }
    }

    /** An audit event about the session as a whole. */
    method Mark(kind: string) returns (ok: bool)
      requires Linked() && Covered()
      modifies this`auditFailed, history, control, cells
      ensures Linked() && Covered() && Nudged() && ok == !auditFailed
      ensures old(auditFailed) ==> auditFailed
      ensures Core(history.m) == Core(old(history.m)) && (ok ==> history.Ends(SessionMarked(kind)))
    {
      ok := Emit(SessionMarked(kind), Core(history.m));
    }

    /** session_output_reserved */
    method ReserveOutput(action: Action, step: nat, total: nat) returns (ok: bool)
      requires Linked() && Covered() && step == history.m.attempted && history.m.phase == Previewed(action)
      requires total == history.m.reserved + action.maxOutput <= history.cfg.limits.maxOutput
      modifies this`auditFailed, history, control, cells
      ensures Linked() && Covered() && Nudged() && ok == !auditFailed
      ensures Core(history.m) == if ok then
        Core(old(history.m)).(phase := Reserved(action), ledger := old(history.m.ledger).(reserved := total))
        else Core(old(history.m))
    {
      ok := Emit(OutputReserved(step, action, total),
        Core(history.m).(phase := Reserved(action), ledger := history.m.ledger.(reserved := total)));
    }

    /** The provider has answered with a plan; the coordinator has proposed one. Neither is audited. */
    ghost method Heard(e: Event, next: Phase, final: bool)
      requires Linked() && Covered() && (e.Planned? || e.NoPlan? || e.Proposed?)
      requires Next(history.cfg, history.m, e) ==
        Some(history.m.(phase := next, ledger := history.m.ledger.(final := final)))
      modifies history
      ensures Linked() && Covered()
      ensures history.m == old(history.m).(phase := next, ledger := old(history.m.ledger).(final := final))
      ensures history.raised == old(history.raised)
    {
      history.Append(e);
    }
  }
}
