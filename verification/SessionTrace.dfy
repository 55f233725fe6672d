/** The observable history of one authority session: durable audit events interleaved with the
    effects they must precede, and a replay that says which histories a session may leave.
    The session classes keep this replay defined; everything below is proved about replays. */
module SessionTrace {
  import opened Prelude
  import opened Execution
  import opened Models

  /** What an executor backend comes to: a report, a refusal, a stop or an exception. */
  datatype RunResult =
    | Reported(status: Status) | Unavailable | Exhausted | StopRaised(stop: Stop) | OrdinaryError | UnlistedError

  /** The status the controller records for it; None: an exception nobody catches. */
  function Recorded(result: RunResult): Option<Status> {
    match result
    case Reported(status) => Some(if status.DryRun? || status.Rejected? then Failed else status)
    case StopRaised(stop) => Some(if stop.SessionCancelled? then Cancelled else Timeout)
    case Unavailable => Some(Blocked)
    case Exhausted => Some(Blocked)
    case OrdinaryError => Some(Failed)
    case UnlistedError => None
  }

  datatype Grant = Grant(action: Action, policy: nat, expires: real)

  datatype Event =
    // audit events, written durably before anything that follows them
    | StepStarted(step: nat)
    | ProviderFailed(step: nat)
    | ProposalRejected(step: nat)
    | PlanReleased(step: nat, plan: Plan)
    | ValidationRejected(step: nat)
    | PolicyDecided(step: nat, action: Action, decision: Decision)
    | OutputReserved(step: nat, action: Action, total: nat)
    | ApprovalConsumed(step: nat, action: Action, reference: nat)
    | ApprovalRejected(step: nat, action: Action)
    | ExecutionBlocked(step: nat, action: Action)
    | ExecutionStarted(step: nat, action: Action)
    | ExecutionFinished(step: nat, action: Action, status: Status)
    | StepFinished(step: nat, status: Status)
    | RequestRejected
    | SessionMarked(kind: string)
    // effects outside the audit journal
    | Planned(step: nat, plan: Plan)
    | NoPlan(step: nat)
    | Proposed(step: nat, plan: Plan)
    | GrantIssued(reference: nat, grant: Grant)
    | Reviewed(step: nat, action: Action, answer: Reference)
    | GrantSpent(step: nat, action: Action, reference: nat, at: real)
    | GrantRefused(step: nat, action: Action, answer: Reference)
    | EvidenceOpened(step: nat, action: Action)
    | LaunchCleared(step: nat, action: Action)
    | Launched(step: nat, action: Action)
    | BackendReturned(step: nat, action: Action, result: RunResult)
    | StoppedBefore(step: nat, action: Action, stop: Stop)
    | EvidenceClosed(step: nat, status: Status)
    | AuditFault
    | ApprovalFault

  type Trace = seq<Event>

  /** What is fixed for the whole session. */
  datatype Config = Config(offline: bool, execute: bool, evidence: bool, interactive: bool, reviewer: bool,
    limits: Limits, policy: Policy)

  /** A human is asked for this action: the policy wants it, and there is someone to ask. */
  predicate Asks(cfg: Config, a: Action) {
    cfg.interactive && cfg.reviewer && cfg.policy.evaluate(a) == ApprovalRequired
  }

  /** Where the current step stands. */
  datatype Phase =
    | Idle
    | Begun
    | Consulted(plan: Plan)
    | Planless
    | Released(plan: Plan)
    | Accepted(plan: Plan)
    | Previewed(action: Action)
    | Reserved(action: Action)
    | Asked(action: Action, answer: Reference)
    | Redecided(action: Action, answer: Reference)
    | TurnedDown(action: Action)
    | Spent(action: Action, reference: nat)
    | Approved(action: Action)
    | Opened(action: Action)
    | Started(action: Action)
    | Cleared(action: Action)
    | Running(action: Action)
    | Ran(action: Action, result: RunResult)
    | Closed(action: Action, status: Status)
    | Finished(action: Action, status: Status)
    | Over(status: Status)

  /** The session's own accounts. */
  datatype Ledger = Ledger(attempted: nat, reserved: nat, steps: nat, final: bool, halted: bool)

  /** What has been started, launched and recorded. */
  datatype Counts = Counts(started: nat, finished: nat, launches: nat, launchedBytes: nat, succeeded: nat,
    recorded: nat)

  datatype Monitor = Monitor(
    phase: Phase,
    ledger: Ledger,
    counts: Counts,
    issued: map<nat, Grant>,
    spent: set<nat>,
    rejected: bool,
    auditFault: bool,
    approvalFault: bool)
  {
    const attempted: nat := ledger.attempted
    const reserved: nat := ledger.reserved
    const steps: nat := ledger.steps
    const final: bool := ledger.final
    const halted: bool := ledger.halted
    const started: nat := counts.started
    const finished: nat := counts.finished
    const launches: nat := counts.launches
    const launchedBytes: nat := counts.launchedBytes
    const succeeded: nat := counts.succeeded
    const recorded: nat := counts.recorded
  }

  const FRESH := Monitor(Idle, Ledger(0, 0, 0, false, false), Counts(0, 0, 0, 0, 0, 0), map[], {}, false, false, false)

  predicate IsAudit(e: Event) {
    e.StepStarted? || e.ProviderFailed? || e.ProposalRejected? || e.PlanReleased? || e.ValidationRejected?
    || e.PolicyDecided? || e.OutputReserved? || e.ApprovalConsumed? || e.ApprovalRejected? || e.ExecutionBlocked?
    || e.ExecutionStarted? || e.ExecutionFinished? || e.StepFinished? || e.RequestRejected? || e.SessionMarked?
  }

  /** Ready to start execution: decided to allow, or an approval durably consumed. */
  predicate Authorised(cfg: Config, phase: Phase, a: Action) {
    phase == Approved(a) || (phase.Redecided? && phase.action == a && cfg.policy.evaluate(a) == Allow)
  }

  /** The step an event claims to belong to is the current one. */
  predicate OnStep(m: Monitor, step: nat) {
    step == m.attempted
  }

  function Next(cfg: Config, m: Monitor, e: Event): Option<Monitor> {
    if IsAudit(e) && m.auditFault then None
    else match e
      case AuditFault => Some(m.(auditFault := true))
      case ApprovalFault => Some(m.(approvalFault := true))
      case RequestRejected => Some(m.(rejected := true))
      case SessionMarked(_) => Some(m)
      case GrantIssued(r, g) =>
        if r !in m.issued && g.policy == cfg.policy.fingerprint && cfg.policy.evaluate(g.action) == ApprovalRequired
        then Some(m.(issued := m.issued[r := g])) else None
      case _ => NextStep(cfg, m, e)
  }

  /** From the start of a step to an accepted plan. */
  function NextStep(cfg: Config, m: Monitor, e: Event): Option<Monitor>
  {
    match e
    case StepStarted(s) =>
      if m.phase.Idle? && !m.halted && s == m.attempted + 1 <= cfg.limits.maxSteps
      then Some(m.(phase := Begun, ledger := m.ledger.(attempted := s))) else None
    case Planned(s, plan) =>
      if OnStep(m, s) && m.phase.Begun? && cfg.offline then Some(m.(phase := Consulted(plan))) else None
    case NoPlan(s) => if OnStep(m, s) && m.phase.Begun? && cfg.offline then Some(m.(phase := Planless)) else None
    case ProviderFailed(s) =>
      if OnStep(m, s) && m.phase.Begun? && cfg.offline then Some(m.(phase := Over(Failed))) else None
    case ProposalRejected(s) =>
      if OnStep(m, s) && (if cfg.offline then m.phase.Planless? || m.phase.Consulted? else m.phase.Begun?)
      then Some(m.(phase := Over(Failed))) else None
    case PlanReleased(s, plan) =>
      if OnStep(m, s) && m.phase == Consulted(plan) then Some(m.(phase := Released(plan))) else None
    case Proposed(s, plan) =>
      if OnStep(m, s) && (if cfg.offline then m.phase == Released(plan) else m.phase.Begun?)
      then Some(m.(phase := Accepted(plan), ledger := m.ledger.(final := plan.done))) else None
    case _ => NextDecision(cfg, m, e)
  }

  /** From an accepted plan to a reserved, decided and approved action. */
  function NextDecision(cfg: Config, m: Monitor, e: Event): Option<Monitor>
  {
    match e
    case ValidationRejected(s) =>
      if OnStep(m, s) && m.phase.Accepted? && m.phase.plan.action.Some? && m.phase.plan.action.value.parsed.None?
      then Some(m.(phase := Over(Rejected))) else None
    case PolicyDecided(s, a, d) =>
      if !OnStep(m, s) || d != cfg.policy.evaluate(a) then None
      else if m.phase.Accepted? && m.phase.plan.action.Some? && m.phase.plan.action.value.parsed == Some(a) then
        Some(m.(phase := if d == Deny then Over(Blocked) else Previewed(a)))
      else if !cfg.execute || d == Deny then None
      else if m.phase == Reserved(a) && !Asks(cfg, a) then Some(m.(phase := Redecided(a, Missing)))
      else if m.phase.Asked? && m.phase.action == a then Some(m.(phase := Redecided(a, m.phase.answer)))
      else None
    case Reviewed(s, a, answer) =>
      if OnStep(m, s) && m.phase == Reserved(a) && cfg.execute && Asks(cfg, a)
      then Some(m.(phase := Asked(a, answer))) else None
    case OutputReserved(s, a, total) =>
      if OnStep(m, s) && m.phase == Previewed(a) && total == m.reserved + a.maxOutput <= cfg.limits.maxOutput
      then Some(m.(phase := Reserved(a), ledger := m.ledger.(reserved := total))) else None
    case GrantSpent(s, a, r, at) =>
      if OnStep(m, s) && m.phase == Redecided(a, Token(r)) && cfg.policy.evaluate(a) == ApprovalRequired
         && r in m.issued && r !in m.spent && m.issued[r].action == a && at < m.issued[r].expires
      then Some(m.(phase := Spent(a, r), spent := m.spent + {r})) else None
    case GrantRefused(s, a, answer) =>
      if OnStep(m, s) && m.phase == Redecided(a, answer) && cfg.interactive
        && cfg.policy.evaluate(a) == ApprovalRequired
      then Some(m.(phase := TurnedDown(a))) else None
    case ApprovalConsumed(s, a, r) =>
      if OnStep(m, s) && m.phase == Spent(a, r) then Some(m.(phase := Approved(a))) else None
    case ApprovalRejected(s, a) =>
      if OnStep(m, s) && (m.phase == TurnedDown(a) || (m.phase == Redecided(a, Missing) && !cfg.interactive))
         && cfg.policy.evaluate(a) == ApprovalRequired
      then Some(m.(phase := Over(Blocked))) else None
    case _ => NextLaunch(cfg, m, e)
  }

  /** From an authorised action to a recorded step. */
  function NextLaunch(cfg: Config, m: Monitor, e: Event): Option<Monitor>
  {
    match e
    case ExecutionBlocked(s, a) =>
      if OnStep(m, s) && Authorised(cfg, m.phase, a) then Some(m.(phase := Over(Blocked))) else None
    case EvidenceOpened(s, a) =>
      if OnStep(m, s) && cfg.evidence && Authorised(cfg, m.phase, a)
      then Some(m.(phase := Opened(a), counts := m.counts.(recorded := m.recorded + 1))) else None
    case ExecutionStarted(s, a) =>
      if OnStep(m, s) && (if cfg.evidence then m.phase == Opened(a) else Authorised(cfg, m.phase, a))
      then Some(m.(phase := Started(a), counts := m.counts.(started := m.started + 1))) else None
    case LaunchCleared(s, a) =>
      if OnStep(m, s) && m.phase == Started(a) && !m.rejected && !m.auditFault && !m.approvalFault
      then Some(m.(phase := Cleared(a))) else None
    case Launched(s, a) =>
      if OnStep(m, s) && m.phase == Cleared(a)
      then Some(m.(phase := Running(a),
                counts := m.counts.(launches := m.launches + 1, launchedBytes := m.launchedBytes + a.maxOutput)))
                  else None
    case BackendReturned(s, a, result) =>
      if OnStep(m, s) && m.phase == Running(a) then Some(m.(phase := Ran(a, result))) else None
    case StoppedBefore(s, a, stop) =>
      if OnStep(m, s) && m.phase == Started(a) then Some(m.(phase := Ran(a, StopRaised(stop)))) else None
    case EvidenceClosed(s, status) =>
      if OnStep(m, s) && cfg.evidence && m.phase.Ran? && Recorded(m.phase.result) == Some(status)
      then Some(m.(phase := Closed(m.phase.action, status),
                counts := m.counts.(succeeded := m.succeeded + if status == Succeeded then 1 else 0))) else None
    case ExecutionFinished(s, a, status) =>
      if !OnStep(m, s) then None
      else if cfg.evidence then
        if m.phase == Closed(a, status) then
          Some(m.(phase := Finished(a, status), counts := m.counts.(finished := m.finished + 1))) else None
      else if m.phase.Ran? && m.phase.action == a && Recorded(m.phase.result) == Some(status) then
        Some(m.(phase := Finished(a, status), counts := m.counts.(finished := m.finished + 1,
                succeeded := m.succeeded + if status == Succeeded then 1 else 0)))
      else None
    case StepFinished(s, status) =>
      if OnStep(m, s) &&
         (m.phase == Over(status) || (m.phase.Finished? && m.phase.status == status)
          || (m.phase.Previewed? && status == Blocked) || (m.phase.Reserved? && status == DryRun && !cfg.execute))
      then Some(m.(phase := Idle, ledger := m.ledger.(steps := m.steps + 1,
                   halted := if cfg.execute then status != Succeeded else status != DryRun))) else None
    case _ => None
  }

  function Replay(cfg: Config, tr: Trace): Option<Monitor> {
    if tr == [] then Some(FRESH)
    else
      var before := Replay(cfg, tr[..|tr| - 1]);
      if before.None? then None else Next(cfg, before.value, tr[|tr| - 1])
  }

  lemma ReplayAppend(cfg: Config, tr: Trace, e: Event)
    ensures Replay(cfg, tr + [e]) == if Replay(cfg, tr).None? then None else Next(cfg, Replay(cfg, tr).value, e)
  {
    assert (tr + [e])[..|tr|] == tr;
  }
}
