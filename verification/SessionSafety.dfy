/** What every replayable session history guarantees: justified launches, nested budgets, linear
    grants, fail-stop and balance. */
module SessionSafety {
  import opened Prelude
  import opened Models
  import opened SessionTrace

  // --------------------------------------------------------------- counters

  /** The action of a step that has been paid for but not launched yet. */
  function Held(phase: Phase): nat {
    match phase
    case Reserved(a) => a.maxOutput
    case Asked(a, _) => a.maxOutput
    case Redecided(a, _) => a.maxOutput
    case TurnedDown(a) => a.maxOutput
    case Spent(a, _) => a.maxOutput
    case Approved(a) => a.maxOutput
    case Opened(a) => a.maxOutput
    case Started(a) => a.maxOutput
    case Cleared(a) => a.maxOutput
    case _ => 0
  }

  predicate BeforeLaunch(phase: Phase) {
    phase.Begun? || phase.Consulted? || phase.Planless? || phase.Released? || phase.Accepted? || phase.Previewed?
    || phase.Reserved? || phase.Asked? || phase.Redecided? || phase.TurnedDown? || phase.Spent? || phase.Approved?
      || phase.Opened? || phase.Started? || phase.Cleared?
  }

  predicate BeforeRecord(phase: Phase) {
    BeforeLaunch(phase) && !phase.Opened? && !phase.Started? && !phase.Cleared?
  }

  predicate InFlight(phase: Phase) {
    phase.Started? || phase.Cleared? || phase.Running? || phase.Ran? || phase.Closed?
  }

  /** How far the current step's action has come. */
  function Rank(phase: Phase): nat {
    match phase
    case Previewed(_) => 1
    case Reserved(_) => 2
    case Asked(_, _) => 2
    case Redecided(_, _) => 3
    case TurnedDown(_) => 3
    case Spent(_, _) => 4
    case Approved(_) => 5
    case Opened(_) => 6
    case Started(_) => 7
    case Cleared(_) => 8
    case Running(_) => 9
    case Ran(_, _) => 9
    case Closed(_, _) => 10
    case _ => 0
  }

  /** An execution is under way: its evidence record is open, or its start has been recorded and its end has not. */
  predicate Stranded(phase: Phase) {
    phase.Opened? || InFlight(phase)
  }

  /** Launched allowances never exceed what is reserved, nor the reservations the session limit. */
  ghost predicate Spending(cfg: Config, m: Monitor) {
    m.launchedBytes + Held(m.phase) <= m.reserved <= cfg.limits.maxOutput
  }

  ghost predicate Launching(cfg: Config, m: Monitor) {
    m.launches + (if BeforeLaunch(m.phase) then 1 else 0) <= m.attempted <= cfg.limits.maxSteps
  }

  ghost predicate Recording(cfg: Config, m: Monitor) {
    m.recorded + (if BeforeRecord(m.phase) then 1 else 0) <= m.attempted && (cfg.evidence || m.recorded == 0)
  }

  ghost predicate Balanced(m: Monitor) {
    m.started == m.finished + (if InFlight(m.phase) then 1 else 0)
  }

  /** Every attempted step but the current one has been recorded. */
  ghost predicate Stepping(m: Monitor) {
    m.steps + (if m.phase.Idle? then 0 else 1) == m.attempted
  }

  predicate OverUnsuccessful(phase: Phase) {
    phase.Over? ==> phase.status != Succeeded
  }

  predicate Succeeding(phase: Phase) {
    (phase.Closed? || phase.Finished?) && phase.status == Succeeded
  }

  /** Only an execute run decides twice; an abandoned step has not succeeded; a halted session starts no step. */
  ghost predicate Moded(cfg: Config, m: Monitor) {
    && (m.halted ==> m.phase.Idle?)
    && OverUnsuccessful(m.phase)
    && Executing(cfg, m)
  }

  /** While the session is not halted, exactly the recorded steps of an execute run have succeeded. */
  ghost predicate Tallied(cfg: Config, m: Monitor) {
    m.succeeded == (if !cfg.execute then 0 else if m.halted then m.steps - 1
      else m.steps) + (if Succeeding(m.phase) then 1 else 0)
  }

  /** A session that has come to its final plan: carried out, or without an action. */
  predicate Complete(m: Monitor) {
    m.final && !m.halted && (m.phase.Idle? || (m.phase.Accepted? && m.phase.plan.action.None?))
  }

  predicate IsFault(e: Event) {
    e.RequestRejected? || e.AuditFault? || e.ApprovalFault?
  }

  /** An event either moves the step along, in one of three stretches, or touches nothing but flags and grants. */
  lemma Stretches(cfg: Config, m: Monitor, e: Event)
    requires Next(cfg, m, e).Some?
    ensures var n := Next(cfg, m, e).value;
      || Next(cfg, m, e) == NextLaunch(cfg, m, e)
      || (NextLaunch(cfg, m, e).None? && Next(cfg, m, e) == NextDecision(cfg, m, e))
      || (NextDecision(cfg, m, e).None? && Next(cfg, m, e) == NextStep(cfg, m, e))
      || (n.phase == m.phase && n.ledger == m.ledger && n.counts == m.counts
          && (IsFault(e) || e.SessionMarked? || e.GrantIssued?))
  {
  }

  lemma ReservedLaunch(cfg: Config, m: Monitor, e: Event)
    requires m.reserved <= cfg.limits.maxOutput && NextLaunch(cfg, m, e).Some?
    ensures NextLaunch(cfg, m, e).value.reserved <= cfg.limits.maxOutput
  {
  }

  lemma ReservedDecision(cfg: Config, m: Monitor, e: Event)
    requires m.reserved <= cfg.limits.maxOutput && NextDecision(cfg, m, e).Some? && NextLaunch(cfg, m, e).None?
    ensures NextDecision(cfg, m, e).value.reserved <= cfg.limits.maxOutput
  {
  }

  lemma ReservedPlan(cfg: Config, m: Monitor, e: Event)
    requires m.reserved <= cfg.limits.maxOutput && NextStep(cfg, m, e).Some? && NextDecision(cfg, m, e).None?
    ensures NextStep(cfg, m, e).value.reserved <= cfg.limits.maxOutput
  {
  }

  lemma ReservedStep(cfg: Config, m: Monitor, e: Event)
    requires m.reserved <= cfg.limits.maxOutput && Next(cfg, m, e).Some?
    ensures Next(cfg, m, e).value.reserved <= cfg.limits.maxOutput
  {
    Stretches(cfg, m, e);
    var n := Next(cfg, m, e);
    if n == NextLaunch(cfg, m, e) {
      ReservedLaunch(cfg, m, e);
    } else if NextLaunch(cfg, m, e).None? && n == NextDecision(cfg, m, e) {
      ReservedDecision(cfg, m, e);
    } else if NextDecision(cfg, m, e).None? && n == NextStep(cfg, m, e) {
      ReservedPlan(cfg, m, e);
    }
  }

  lemma HeldLaunch(cfg: Config, m: Monitor, e: Event)
    requires m.launchedBytes + Held(m.phase) <= m.reserved && NextLaunch(cfg, m, e).Some?
    ensures var n := NextLaunch(cfg, m, e).value; n.launchedBytes + Held(n.phase) <= n.reserved
  {
  }

  lemma HeldDecision(cfg: Config, m: Monitor, e: Event)
    requires m.launchedBytes + Held(m.phase) <= m.reserved && NextDecision(cfg, m, e).Some?
    requires NextLaunch(cfg, m, e).None?
    ensures var n := NextDecision(cfg, m, e).value; n.launchedBytes + Held(n.phase) <= n.reserved
  {
  }

  lemma HeldPlan(cfg: Config, m: Monitor, e: Event)
    requires m.launchedBytes + Held(m.phase) <= m.reserved && NextStep(cfg, m, e).Some? && NextDecision(cfg, m, e).None?
    ensures var n := NextStep(cfg, m, e).value; n.launchedBytes + Held(n.phase) <= n.reserved
  {
  }

  lemma HeldStep(cfg: Config, m: Monitor, e: Event)
    requires m.launchedBytes + Held(m.phase) <= m.reserved && Next(cfg, m, e).Some?
    ensures var n := Next(cfg, m, e).value; n.launchedBytes + Held(n.phase) <= n.reserved
  {
    Stretches(cfg, m, e);
    var n := Next(cfg, m, e);
    if n == NextLaunch(cfg, m, e) {
      HeldLaunch(cfg, m, e);
    } else if NextLaunch(cfg, m, e).None? && n == NextDecision(cfg, m, e) {
      HeldDecision(cfg, m, e);
    } else if NextDecision(cfg, m, e).None? && n == NextStep(cfg, m, e) {
      HeldPlan(cfg, m, e);
    }
  }

  lemma SpendingStep(cfg: Config, m: Monitor, e: Event)
    requires Spending(cfg, m) && Next(cfg, m, e).Some?
    ensures Spending(cfg, Next(cfg, m, e).value)
  {
    ReservedStep(cfg, m, e);
    HeldStep(cfg, m, e);
  }

  lemma AttemptedLaunch(cfg: Config, m: Monitor, e: Event)
    requires m.attempted <= cfg.limits.maxSteps && NextLaunch(cfg, m, e).Some?
    ensures NextLaunch(cfg, m, e).value.attempted <= cfg.limits.maxSteps
  {
  }

  lemma AttemptedDecision(cfg: Config, m: Monitor, e: Event)
    requires m.attempted <= cfg.limits.maxSteps && NextDecision(cfg, m, e).Some? && NextLaunch(cfg, m, e).None?
    ensures NextDecision(cfg, m, e).value.attempted <= cfg.limits.maxSteps
  {
  }

  lemma AttemptedPlan(cfg: Config, m: Monitor, e: Event)
    requires m.attempted <= cfg.limits.maxSteps && NextStep(cfg, m, e).Some? && NextDecision(cfg, m, e).None?
    ensures NextStep(cfg, m, e).value.attempted <= cfg.limits.maxSteps
  {
  }

  lemma AttemptedStep(cfg: Config, m: Monitor, e: Event)
    requires m.attempted <= cfg.limits.maxSteps && Next(cfg, m, e).Some?
    ensures Next(cfg, m, e).value.attempted <= cfg.limits.maxSteps
  {
    Stretches(cfg, m, e);
    var n := Next(cfg, m, e);
    if n == NextLaunch(cfg, m, e) {
      AttemptedLaunch(cfg, m, e);
    } else if NextLaunch(cfg, m, e).None? && n == NextDecision(cfg, m, e) {
      AttemptedDecision(cfg, m, e);
    } else if NextDecision(cfg, m, e).None? && n == NextStep(cfg, m, e) {
      AttemptedPlan(cfg, m, e);
    }
  }

  lemma AheadLaunch(cfg: Config, m: Monitor, e: Event)
    requires m.launches + (if BeforeLaunch(m.phase) then 1 else 0) <= m.attempted && NextLaunch(cfg, m, e).Some?
    ensures var n := NextLaunch(cfg, m, e).value; n.launches + (if BeforeLaunch(n.phase) then 1 else 0) <= n.attempted
  {
  }

  lemma AheadDecision(cfg: Config, m: Monitor, e: Event)
    requires m.launches + (if BeforeLaunch(m.phase) then 1 else 0) <= m.attempted && NextDecision(cfg, m, e).Some?
    requires NextLaunch(cfg, m, e).None?
    ensures var n := NextDecision(cfg, m, e).value; n.launches + (if BeforeLaunch(n.phase) then 1 else 0) <= n.attempted
  {
  }

  lemma AheadPlan(cfg: Config, m: Monitor, e: Event)
    requires m.launches + (if BeforeLaunch(m.phase) then 1 else 0) <= m.attempted && NextStep(cfg, m, e).Some?
    requires NextDecision(cfg, m, e).None?
    ensures var n := NextStep(cfg, m, e).value; n.launches + (if BeforeLaunch(n.phase) then 1 else 0) <= n.attempted
  {
  }

  lemma AheadStep(cfg: Config, m: Monitor, e: Event)
    requires m.launches + (if BeforeLaunch(m.phase) then 1 else 0) <= m.attempted && Next(cfg, m, e).Some?
    ensures var n := Next(cfg, m, e).value; n.launches + (if BeforeLaunch(n.phase) then 1 else 0) <= n.attempted
  {
    Stretches(cfg, m, e);
    var n := Next(cfg, m, e);
    if n == NextLaunch(cfg, m, e) {
      AheadLaunch(cfg, m, e);
    } else if NextLaunch(cfg, m, e).None? && n == NextDecision(cfg, m, e) {
      AheadDecision(cfg, m, e);
    } else if NextDecision(cfg, m, e).None? && n == NextStep(cfg, m, e) {
      AheadPlan(cfg, m, e);
    }
  }

  lemma LaunchingStep(cfg: Config, m: Monitor, e: Event)
    requires Launching(cfg, m) && Next(cfg, m, e).Some?
    ensures Launching(cfg, Next(cfg, m, e).value)
  {
    AttemptedStep(cfg, m, e);
    AheadStep(cfg, m, e);
  }

  lemma RecordingLaunch(cfg: Config, m: Monitor, e: Event)
    requires Recording(cfg, m) && NextLaunch(cfg, m, e).Some?
    ensures Recording(cfg, NextLaunch(cfg, m, e).value)
  {
  }

  lemma RecordingDecision(cfg: Config, m: Monitor, e: Event)
    requires Recording(cfg, m) && NextDecision(cfg, m, e).Some? && NextLaunch(cfg, m, e).None?
    ensures Recording(cfg, NextDecision(cfg, m, e).value)
  {
  }

  lemma RecordingPlan(cfg: Config, m: Monitor, e: Event)
    requires Recording(cfg, m) && NextStep(cfg, m, e).Some? && NextDecision(cfg, m, e).None?
    ensures Recording(cfg, NextStep(cfg, m, e).value)
  {
  }

  lemma RecordingStep(cfg: Config, m: Monitor, e: Event)
    requires Recording(cfg, m) && Next(cfg, m, e).Some?
    ensures Recording(cfg, Next(cfg, m, e).value)
  {
    Stretches(cfg, m, e);
    var n := Next(cfg, m, e);
    if n == NextLaunch(cfg, m, e) {
      RecordingLaunch(cfg, m, e);
    } else if NextLaunch(cfg, m, e).None? && n == NextDecision(cfg, m, e) {
      RecordingDecision(cfg, m, e);
    } else if NextDecision(cfg, m, e).None? && n == NextStep(cfg, m, e) {
      RecordingPlan(cfg, m, e);
    }
  }

  lemma BalancedLaunch(cfg: Config, m: Monitor, e: Event)
    requires Balanced(m) && NextLaunch(cfg, m, e).Some?
    ensures Balanced(NextLaunch(cfg, m, e).value)
  {
  }

  lemma BalancedDecision(cfg: Config, m: Monitor, e: Event)
    requires Balanced(m) && NextDecision(cfg, m, e).Some? && NextLaunch(cfg, m, e).None?
    ensures Balanced(NextDecision(cfg, m, e).value)
  {
  }

  lemma BalancedPlan(cfg: Config, m: Monitor, e: Event)
    requires Balanced(m) && NextStep(cfg, m, e).Some? && NextDecision(cfg, m, e).None?
    ensures Balanced(NextStep(cfg, m, e).value)
  {
  }

  lemma BalancedStep(cfg: Config, m: Monitor, e: Event)
    requires Balanced(m) && Next(cfg, m, e).Some?
    ensures Balanced(Next(cfg, m, e).value)
  {
    Stretches(cfg, m, e);
    var n := Next(cfg, m, e);
    if n == NextLaunch(cfg, m, e) {
      BalancedLaunch(cfg, m, e);
    } else if NextLaunch(cfg, m, e).None? && n == NextDecision(cfg, m, e) {
      BalancedDecision(cfg, m, e);
    } else if NextDecision(cfg, m, e).None? && n == NextStep(cfg, m, e) {
      BalancedPlan(cfg, m, e);
    }
  }

  lemma SteppingLaunch(cfg: Config, m: Monitor, e: Event)
    requires Stepping(m) && NextLaunch(cfg, m, e).Some?
    ensures Stepping(NextLaunch(cfg, m, e).value)
  {
  }

  lemma SteppingDecision(cfg: Config, m: Monitor, e: Event)
    requires Stepping(m) && NextDecision(cfg, m, e).Some? && NextLaunch(cfg, m, e).None?
    ensures Stepping(NextDecision(cfg, m, e).value)
  {
  }

  lemma SteppingPlan(cfg: Config, m: Monitor, e: Event)
    requires Stepping(m) && NextStep(cfg, m, e).Some? && NextDecision(cfg, m, e).None?
    ensures Stepping(NextStep(cfg, m, e).value)
  {
  }

  lemma SteppingStep(cfg: Config, m: Monitor, e: Event)
    requires Stepping(m) && Next(cfg, m, e).Some?
    ensures Stepping(Next(cfg, m, e).value)
  {
    Stretches(cfg, m, e);
    var n := Next(cfg, m, e);
    if n == NextLaunch(cfg, m, e) {
      SteppingLaunch(cfg, m, e);
    } else if NextLaunch(cfg, m, e).None? && n == NextDecision(cfg, m, e) {
      SteppingDecision(cfg, m, e);
    } else if NextDecision(cfg, m, e).None? && n == NextStep(cfg, m, e) {
      SteppingPlan(cfg, m, e);
    }
  }

  lemma HaltedLaunch(cfg: Config, m: Monitor, e: Event)
    requires (m.halted ==> m.phase.Idle?) && NextLaunch(cfg, m, e).Some?
    ensures (var n := NextLaunch(cfg, m, e).value; n.halted ==> n.phase.Idle?)
  {
  }

  lemma HaltedDecision(cfg: Config, m: Monitor, e: Event)
    requires (m.halted ==> m.phase.Idle?) && NextDecision(cfg, m, e).Some? && NextLaunch(cfg, m, e).None?
    ensures (var n := NextDecision(cfg, m, e).value; n.halted ==> n.phase.Idle?)
  {
  }

  lemma HaltedPlan(cfg: Config, m: Monitor, e: Event)
    requires (m.halted ==> m.phase.Idle?) && NextStep(cfg, m, e).Some? && NextDecision(cfg, m, e).None?
    ensures (var n := NextStep(cfg, m, e).value; n.halted ==> n.phase.Idle?)
  {
  }

  lemma HaltedStep(cfg: Config, m: Monitor, e: Event)
    requires (m.halted ==> m.phase.Idle?) && Next(cfg, m, e).Some?
    ensures (var n := Next(cfg, m, e).value; n.halted ==> n.phase.Idle?)
  {
    Stretches(cfg, m, e);
    var n := Next(cfg, m, e);
    if n == NextLaunch(cfg, m, e) {
      HaltedLaunch(cfg, m, e);
    } else if NextLaunch(cfg, m, e).None? && n == NextDecision(cfg, m, e) {
      HaltedDecision(cfg, m, e);
    } else if NextDecision(cfg, m, e).None? && n == NextStep(cfg, m, e) {
      HaltedPlan(cfg, m, e);
    }
  }

  lemma OverLaunch(cfg: Config, m: Monitor, e: Event)
    requires OverUnsuccessful(m.phase) && NextLaunch(cfg, m, e).Some?
    ensures OverUnsuccessful(NextLaunch(cfg, m, e).value.phase)
  {
  }

  lemma OverDecision(cfg: Config, m: Monitor, e: Event)
    requires OverUnsuccessful(m.phase) && NextDecision(cfg, m, e).Some? && NextLaunch(cfg, m, e).None?
    ensures OverUnsuccessful(NextDecision(cfg, m, e).value.phase)
  {
  }

  lemma OverPlan(cfg: Config, m: Monitor, e: Event)
    requires OverUnsuccessful(m.phase) && NextStep(cfg, m, e).Some? && NextDecision(cfg, m, e).None?
    ensures OverUnsuccessful(NextStep(cfg, m, e).value.phase)
  {
  }

  lemma OverStep(cfg: Config, m: Monitor, e: Event)
    requires OverUnsuccessful(m.phase) && Next(cfg, m, e).Some?
    ensures OverUnsuccessful(Next(cfg, m, e).value.phase)
  {
    Stretches(cfg, m, e);
    var n := Next(cfg, m, e);
    if n == NextLaunch(cfg, m, e) {
      OverLaunch(cfg, m, e);
    } else if NextLaunch(cfg, m, e).None? && n == NextDecision(cfg, m, e) {
      OverDecision(cfg, m, e);
    } else if NextDecision(cfg, m, e).None? && n == NextStep(cfg, m, e) {
      OverPlan(cfg, m, e);
    }
  }

  /** Only an execute run comes past its reservation. */
  predicate Executing(cfg: Config, m: Monitor) {
    Rank(m.phase) >= 3 || m.phase.Finished? ==> cfg.execute
  }

  lemma ExecuteLaunch(cfg: Config, m: Monitor, e: Event)
    requires Executing(cfg, m) && NextLaunch(cfg, m, e).Some?
    ensures Executing(cfg, NextLaunch(cfg, m, e).value)
  {
  }

  lemma ExecuteDecision(cfg: Config, m: Monitor, e: Event)
    requires Executing(cfg, m) && NextDecision(cfg, m, e).Some? && NextLaunch(cfg, m, e).None?
    ensures Executing(cfg, NextDecision(cfg, m, e).value)
  {
  }

  lemma ExecutePlan(cfg: Config, m: Monitor, e: Event)
    requires Executing(cfg, m) && NextStep(cfg, m, e).Some? && NextDecision(cfg, m, e).None?
    ensures Executing(cfg, NextStep(cfg, m, e).value)
  {
  }

  lemma ExecuteStep(cfg: Config, m: Monitor, e: Event)
    requires Executing(cfg, m) && Next(cfg, m, e).Some?
    ensures Executing(cfg, Next(cfg, m, e).value)
  {
    Stretches(cfg, m, e);
    var n := Next(cfg, m, e);
    if n == NextLaunch(cfg, m, e) {
      ExecuteLaunch(cfg, m, e);
    } else if NextLaunch(cfg, m, e).None? && n == NextDecision(cfg, m, e) {
      ExecuteDecision(cfg, m, e);
    } else if NextDecision(cfg, m, e).None? && n == NextStep(cfg, m, e) {
      ExecutePlan(cfg, m, e);
    }
  }

  lemma ModedStep(cfg: Config, m: Monitor, e: Event)
    requires Moded(cfg, m) && Next(cfg, m, e).Some?
    ensures Moded(cfg, Next(cfg, m, e).value)
  {
    HaltedStep(cfg, m, e);
    OverStep(cfg, m, e);
    ExecuteStep(cfg, m, e);
  }

  lemma TalliedLaunch(cfg: Config, m: Monitor, e: Event)
    requires Moded(cfg, m) && Tallied(cfg, m) && NextLaunch(cfg, m, e).Some?
    ensures Tallied(cfg, NextLaunch(cfg, m, e).value)
  {
  }

  lemma TalliedDecision(cfg: Config, m: Monitor, e: Event)
    requires Moded(cfg, m) && Tallied(cfg, m) && NextDecision(cfg, m, e).Some? && NextLaunch(cfg, m, e).None?
    ensures Tallied(cfg, NextDecision(cfg, m, e).value)
  {
  }

  lemma TalliedPlan(cfg: Config, m: Monitor, e: Event)
    requires Moded(cfg, m) && Tallied(cfg, m) && NextStep(cfg, m, e).Some? && NextDecision(cfg, m, e).None?
    ensures Tallied(cfg, NextStep(cfg, m, e).value)
  {
  }

  lemma TalliedStep(cfg: Config, m: Monitor, e: Event)
    requires Moded(cfg, m) && Tallied(cfg, m) && Next(cfg, m, e).Some?
    ensures Tallied(cfg, Next(cfg, m, e).value)
  {
    Stretches(cfg, m, e);
    var n := Next(cfg, m, e);
    if n == NextLaunch(cfg, m, e) {
      TalliedLaunch(cfg, m, e);
    } else if NextLaunch(cfg, m, e).None? && n == NextDecision(cfg, m, e) {
      TalliedDecision(cfg, m, e);
    } else if NextDecision(cfg, m, e).None? && n == NextStep(cfg, m, e) {
      TalliedPlan(cfg, m, e);
    }
  }

  lemma {:induction false} TalliesHold(cfg: Config, tr: Trace)
    requires Replay(cfg, tr).Some?
    ensures Moded(cfg, Replay(cfg, tr).value) && Tallied(cfg, Replay(cfg, tr).value)
  {
    if tr != [] {
      TalliesHold(cfg, tr[..|tr| - 1]);
      ModedStep(cfg, Replay(cfg, tr[..|tr| - 1]).value, tr[|tr| - 1]);
      TalliedStep(cfg, Replay(cfg, tr[..|tr| - 1]).value, tr[|tr| - 1]);
    }
  }

  /** Nested budgets, over every history. */
  lemma {:induction false} BudgetsHold(cfg: Config, tr: Trace)
    requires Replay(cfg, tr).Some?
    ensures var m := Replay(cfg, tr).value;
      Spending(cfg, m) && Launching(cfg, m) && Recording(cfg, m) && Balanced(m) && Stepping(m)
  {
    if tr != [] {
      BudgetsHold(cfg, tr[..|tr| - 1]);
      var m, e := Replay(cfg, tr[..|tr| - 1]).value, tr[|tr| - 1];
      SpendingStep(cfg, m, e);
      LaunchingStep(cfg, m, e);
      RecordingStep(cfg, m, e);
      BalancedStep(cfg, m, e);
      SteppingStep(cfg, m, e);
    }
  }

  // ------------------------------------------------------ justified launches

  function ActionOf(phase: Phase): Action
    requires Rank(phase) > 0
  {
    phase.action
  }

  /** Where the latest event of each kind stands in the history. */
  datatype Marks = Marks(released: nat, reserved: nat, asked: nat, decided: nat, refused: nat, spent: nat,
    consumed: nat, started: nat, cleared: nat, launched: nat, ran: nat)

  function MarkNext(k: Marks, e: Event, n: nat): Marks {
    match e
    case PlanReleased(_, _) => k.(released := n)
    case OutputReserved(_, _, _) => k.(reserved := n)
    case PolicyDecided(_, _, _) => k.(decided := n)
    case Reviewed(_, _, _) => k.(asked := n)
    case GrantRefused(_, _, _) => k.(refused := n)
    case GrantSpent(_, _, _, _) => k.(spent := n)
    case ApprovalConsumed(_, _, _) => k.(consumed := n)
    case ExecutionStarted(_, _) => k.(started := n)
    case LaunchCleared(_, _) => k.(cleared := n)
    case Launched(_, _) => k.(launched := n)
    case BackendReturned(_, _, _) => k.(ran := n)
    case StoppedBefore(_, _, _) => k.(ran := n)
    case _ => k
  }

  function MarksOf(tr: Trace): Marks {
    if tr == [] then Marks(0, 0, 0, 0, 0, 0, 0, 0, 0, 0, 0)
      else MarkNext(MarksOf(tr[..|tr| - 1]), tr[|tr| - 1], |tr| - 1)
  }

  predicate ReleasedAt(tr: Trace, i: nat, s: nat, a: Action) {
    i < |tr| && tr[i].PlanReleased? && tr[i].step == s && tr[i].plan.action.Some?
      && tr[i].plan.action.value.parsed == Some(a)
  }

  predicate ReservedAt(tr: Trace, i: nat, s: nat, a: Action) {
    i < |tr| && tr[i].OutputReserved? && tr[i].step == s && tr[i].action == a
  }

  predicate ConsumedAt(tr: Trace, i: nat, s: nat, a: Action) {
    i < |tr| && tr[i].ApprovalConsumed? && tr[i].step == s && tr[i].action == a
  }

  predicate SpentAt(tr: Trace, i: nat, s: nat, a: Action) {
    i < |tr| && tr[i].GrantSpent? && tr[i].step == s && tr[i].action == a
  }

  predicate EventAt(tr: Trace, i: nat, e: Event) {
    i < |tr| && tr[i] == e
  }

  /** A human was asked for the action. */
  predicate AskedAt(tr: Trace, i: nat, s: nat, a: Action) {
    i < |tr| && tr[i].Reviewed? && tr[i].step == s && tr[i].action == a
  }

  /** An execution came to its result: reported by the backend, or stopped before the launch. */
  predicate RanAt(tr: Trace, i: nat, s: nat, a: Action, result: RunResult) {
    i < |tr| && (tr[i] == BackendReturned(s, a, result)
      || (tr[i].StoppedBefore? && tr[i] == StoppedBefore(s, a, tr[i].stop) && result == StopRaised(tr[i].stop)))
  }

  /** The result an event brings. */
  function ResultOf(e: Event): RunResult
    requires e.BackendReturned? || e.StoppedBefore?
  {
    if e.BackendReturned? then e.result else StopRaised(e.stop)
  }

  predicate ClosedAs(tr: Trace, i: nat, s: nat, a: Action, status: Status) {
    i < |tr| && (tr[i].BackendReturned? || tr[i].StoppedBefore?) && RanAt(tr, i, s, a, ResultOf(tr[i]))
    && Recorded(ResultOf(tr[i])) == Some(status)
  }

  /** The plan whose action is being carried out was released for this very step. */
  ghost predicate PlanKept(cfg: Config, tr: Trace, m: Monitor, k: Marks) {
    cfg.offline && (m.phase.Released? || m.phase.Accepted?) ==>
      EventAt(tr, k.released, PlanReleased(m.attempted, m.phase.plan))
  }

  ghost predicate ReleaseKept(cfg: Config, tr: Trace, m: Monitor, k: Marks) {
    cfg.offline && Rank(m.phase) > 0 ==> ReleasedAt(tr, k.released, m.attempted, ActionOf(m.phase))
  }

  ghost predicate ReserveKept(cfg: Config, tr: Trace, m: Monitor, k: Marks) {
    Rank(m.phase) >= 2 ==>
      ReservedAt(tr, k.reserved, m.attempted, ActionOf(m.phase)) && (cfg.offline ==> k.released < k.reserved)
  }

  ghost predicate DecisionKept(cfg: Config, tr: Trace, m: Monitor, k: Marks) {
    && (Rank(m.phase) >= 1 ==> cfg.policy.evaluate(ActionOf(m.phase)) != Deny)
    && (Rank(m.phase) >= 3 ==>
          var a := ActionOf(m.phase);
          EventAt(tr, k.decided, PolicyDecided(m.attempted, a, cfg.policy.evaluate(a))) && k.reserved < k.decided)
  }

  /** Nothing about a human's answer gets lost on the way to the approval store. */
  ghost predicate AskKept(cfg: Config, tr: Trace, m: Monitor, k: Marks) {
    && (m.phase.Asked? ==>
          Asks(cfg, m.phase.action) && k.reserved < k.asked
          && EventAt(tr, k.asked, Reviewed(m.attempted, m.phase.action, m.phase.answer)))
    && (Rank(m.phase) >= 3 && Asks(cfg, ActionOf(m.phase)) ==>
          && AskedAt(tr, k.asked, m.attempted, ActionOf(m.phase)) && k.reserved < k.asked < k.decided
          && (m.phase.Redecided? ==> tr[k.asked].answer == m.phase.answer))
    && (Rank(m.phase) == 3 && !Asks(cfg, ActionOf(m.phase)) && m.phase.Redecided? ==> m.phase.answer == Missing)
  }

  /** A refusal was about that very answer. */
  ghost predicate RefusalKept(cfg: Config, tr: Trace, m: Monitor, k: Marks) {
    m.phase.TurnedDown? ==>
      && cfg.interactive && cfg.policy.evaluate(m.phase.action) == ApprovalRequired && k.decided < k.refused
      && EventAt(tr, k.refused, GrantRefused(m.attempted, m.phase.action,
                   if Asks(cfg, m.phase.action) && k.asked < |tr| && tr[k.asked].Reviewed? then tr[k.asked].answer
                   else Missing))
  }

  ghost predicate ConsentKept(cfg: Config, tr: Trace, m: Monitor, k: Marks) {
    Rank(m.phase) >= 4 && cfg.policy.evaluate(ActionOf(m.phase)) == ApprovalRequired ==>
      && SpentAt(tr, k.spent, m.attempted, ActionOf(m.phase)) && k.decided < k.spent
      && (m.phase.Spent? ==> tr[k.spent].reference == m.phase.reference)
      && Asks(cfg, ActionOf(m.phase)) && k.asked < |tr|
      && EventAt(tr, k.asked, Reviewed(m.attempted, ActionOf(m.phase), Token(tr[k.spent].reference)))
      && (Rank(m.phase) >= 5 ==>
            ConsumedAt(tr, k.consumed, m.attempted, ActionOf(m.phase)) && k.spent < k.consumed
            && tr[k.consumed].reference == tr[k.spent].reference)
  }

  ghost predicate StartKept(cfg: Config, tr: Trace, m: Monitor, k: Marks) {
    Rank(m.phase) >= 7 ==>
      var a := ActionOf(m.phase);
      && EventAt(tr, k.started, ExecutionStarted(m.attempted, a)) && k.decided < k.started
      && (cfg.policy.evaluate(a) == ApprovalRequired ==> k.consumed < k.started)
  }

  ghost predicate ClearanceKept(cfg: Config, tr: Trace, m: Monitor, k: Marks) {
    m.phase.Cleared? ==>
      EventAt(tr, k.cleared, LaunchCleared(m.attempted, m.phase.action)) && k.started < k.cleared
  }

  /** A result under way is the one that the launch, or the stop before it, has come to. */
  ghost predicate ReportKept(cfg: Config, tr: Trace, m: Monitor, k: Marks) {
    && (m.phase.Running? ==> EventAt(tr, k.launched, Launched(m.attempted, m.phase.action)))
    && (m.phase.Ran? ==> RanAt(tr, k.ran, m.attempted, m.phase.action, m.phase.result))
    && (m.phase.Closed? ==> ClosedAs(tr, k.ran, m.attempted, m.phase.action, m.phase.status))
    && ((m.phase.Ran? || m.phase.Closed?) && tr[k.ran].BackendReturned? ==>
          EventAt(tr, k.launched, Launched(m.attempted, m.phase.action)) && k.launched < k.ran)
  }

  /** The one event that takes an action from one rank to the next. */
  predicate Climbs(cfg: Config, m: Monitor, e: Event, a: Action, next: Phase) {
    var s := m.attempted;
    match next
    case Previewed(_) =>
      m.phase.Accepted? && m.phase.plan.action.Some? && m.phase.plan.action.value.parsed == Some(a)
      && e.PolicyDecided? && cfg.policy.evaluate(a) != Deny
    case Reserved(_) => m.phase == Previewed(a) && e.OutputReserved? && e.step == s && e.action == a
    case Asked(_, answer) => m.phase == Reserved(a) && e == Reviewed(s, a, answer) && Asks(cfg, a)
    case Redecided(_, answer) =>
      && e == PolicyDecided(s, a, cfg.policy.evaluate(a))
      && (m.phase == Asked(a, answer) || (m.phase == Reserved(a) && !Asks(cfg, a) && answer == Missing))
    case TurnedDown(_) =>
      m.phase.Redecided? && m.phase.action == a && e == GrantRefused(s, a, m.phase.answer) && cfg.interactive
      && cfg.policy.evaluate(a) == ApprovalRequired
    case Spent(_, r) => m.phase == Redecided(a, Token(r)) && e.GrantSpent? && e.step == s && e.action == a
      && e.reference == r
    case Approved(_) => m.phase.Spent? && e == ApprovalConsumed(s, a, m.phase.reference) && m.phase.action == a
    case Opened(_) => Authorised(cfg, m.phase, a) && e.EvidenceOpened?
    case Started(_) => (m.phase == Opened(a) || Authorised(cfg, m.phase, a)) && e == ExecutionStarted(s, a)
    case Cleared(_) => m.phase == Started(a) && e == LaunchCleared(s, a)
    case Running(_) => m.phase == Cleared(a) && e == Launched(s, a)
    case Ran(_, result) =>
      || (m.phase == Running(a) && e == BackendReturned(s, a, result))
      || (m.phase == Started(a) && e.StoppedBefore? && e == StoppedBefore(s, a, e.stop) && result == StopRaised(e.stop))
    case Closed(_, status) =>
      m.phase.Ran? && m.phase.action == a && Recorded(m.phase.result) == Some(status) && e.EvidenceClosed?
    case _ => false
  }

  predicate Marked(e: Event) {
    e.PlanReleased? || e.OutputReserved? || e.Reviewed? || e.PolicyDecided? || e.GrantRefused? || e.GrantSpent?
    || e.ApprovalConsumed? || e.ExecutionStarted? || e.LaunchCleared? || e.Launched? || e.BackendReturned?
    || e.StoppedBefore?
  }

  predicate ActingShape(cfg: Config, m: Monitor, e: Event, n: Monitor) {
    Rank(n.phase) > 0 ==>
      n.attempted == m.attempted && ((n.phase == m.phase && !Marked(e))
        || Climbs(cfg, m, e, ActionOf(n.phase), n.phase))
  }

  predicate PlanningShape(cfg: Config, m: Monitor, e: Event, n: Monitor) {
    && (n.phase.Released? ==>
          n.attempted == m.attempted && ((n.phase == m.phase && !Marked(e))
            || e == PlanReleased(m.attempted, n.phase.plan)))
    && (n.phase.Accepted? && cfg.offline ==>
          n.attempted == m.attempted && !Marked(e) && (n.phase == m.phase || m.phase == Released(n.phase.plan)))
  }

  predicate Shape(cfg: Config, m: Monitor, e: Event, n: Monitor) {
    ActingShape(cfg, m, e, n) && PlanningShape(cfg, m, e, n)
  }

  lemma LaunchActs(cfg: Config, m: Monitor, e: Event)
    requires NextLaunch(cfg, m, e).Some?
    ensures ActingShape(cfg, m, e, NextLaunch(cfg, m, e).value)
  {
  }

  lemma DecisionActs(cfg: Config, m: Monitor, e: Event)
    requires NextDecision(cfg, m, e).Some? && NextLaunch(cfg, m, e).None?
    ensures ActingShape(cfg, m, e, NextDecision(cfg, m, e).value)
  {
  }

  lemma PlanActs(cfg: Config, m: Monitor, e: Event)
    requires NextStep(cfg, m, e).Some? && NextDecision(cfg, m, e).None?
    ensures ActingShape(cfg, m, e, NextStep(cfg, m, e).value)
  {
  }

  lemma StepActs(cfg: Config, m: Monitor, e: Event)
    requires Next(cfg, m, e).Some?
    ensures ActingShape(cfg, m, e, Next(cfg, m, e).value)
  {
    Stretches(cfg, m, e);
    var n := Next(cfg, m, e);
    if n == NextLaunch(cfg, m, e) {
      LaunchActs(cfg, m, e);
    } else if NextLaunch(cfg, m, e).None? && n == NextDecision(cfg, m, e) {
      DecisionActs(cfg, m, e);
    } else if NextDecision(cfg, m, e).None? && n == NextStep(cfg, m, e) {
      PlanActs(cfg, m, e);
    }
  }

  lemma LaunchPlans(cfg: Config, m: Monitor, e: Event)
    requires NextLaunch(cfg, m, e).Some?
    ensures PlanningShape(cfg, m, e, NextLaunch(cfg, m, e).value)
  {
  }

  lemma DecisionPlans(cfg: Config, m: Monitor, e: Event)
    requires NextDecision(cfg, m, e).Some? && NextLaunch(cfg, m, e).None?
    ensures PlanningShape(cfg, m, e, NextDecision(cfg, m, e).value)
  {
  }

  lemma PlanPlans(cfg: Config, m: Monitor, e: Event)
    requires NextStep(cfg, m, e).Some? && NextDecision(cfg, m, e).None?
    ensures PlanningShape(cfg, m, e, NextStep(cfg, m, e).value)
  {
  }

  lemma StepPlans(cfg: Config, m: Monitor, e: Event)
    requires Next(cfg, m, e).Some?
    ensures PlanningShape(cfg, m, e, Next(cfg, m, e).value)
  {
    Stretches(cfg, m, e);
    var n := Next(cfg, m, e);
    if n == NextLaunch(cfg, m, e) {
      LaunchPlans(cfg, m, e);
    } else if NextLaunch(cfg, m, e).None? && n == NextDecision(cfg, m, e) {
      DecisionPlans(cfg, m, e);
    } else if NextDecision(cfg, m, e).None? && n == NextStep(cfg, m, e) {
      PlanPlans(cfg, m, e);
    }
  }

  lemma StepShape(cfg: Config, m: Monitor, e: Event)
    requires Next(cfg, m, e).Some?
    ensures Shape(cfg, m, e, Next(cfg, m, e).value)
  {
    StepActs(cfg, m, e);
    StepPlans(cfg, m, e);
  }

  ghost predicate Kept(cfg: Config, tr: Trace, m: Monitor, k: Marks) {
    PlanKept(cfg, tr, m, k) && Acted(cfg, tr, m, k)
  }

  /** What is known about the action under way. */
  ghost predicate Acted(cfg: Config, tr: Trace, m: Monitor, k: Marks) {
    DecidedKept(cfg, tr, m, k) && CarriedKept(cfg, tr, m, k)
  }

  ghost predicate DecidedKept(cfg: Config, tr: Trace, m: Monitor, k: Marks) {
    && ReleaseKept(cfg, tr, m, k) && ReserveKept(cfg, tr, m, k) && DecisionKept(cfg, tr, m, k)
    && AskKept(cfg, tr, m, k)
  }

  ghost predicate CarriedKept(cfg: Config, tr: Trace, m: Monitor, k: Marks) {
    && RefusalKept(cfg, tr, m, k) && ConsentKept(cfg, tr, m, k) && StartKept(cfg, tr, m, k)
    && ClearanceKept(cfg, tr, m, k) && ReportKept(cfg, tr, m, k)
  }

  lemma PlanStep(cfg: Config, tr: Trace, m: Monitor, k: Marks, e: Event, n: Monitor)
    requires PlanKept(cfg, tr, m, k) && PlanningShape(cfg, m, e, n)
    ensures PlanKept(cfg, tr + [e], n, MarkNext(k, e, |tr|))
  {
  }

  lemma ReleaseClimbs(cfg: Config, tr: Trace, m: Monitor, k: Marks, e: Event, n: Monitor)
    requires PlanKept(cfg, tr, m, k) && ReleaseKept(cfg, tr, m, k) && Climbing(cfg, m, e, n)
    ensures ReleaseKept(cfg, tr + [e], n, MarkNext(k, e, |tr|))
  {
  }

  /** The action under way has just come one rank further. */
  predicate Climbing(cfg: Config, m: Monitor, e: Event, n: Monitor) {
    Rank(n.phase) > 0 && n.attempted == m.attempted && Climbs(cfg, m, e, ActionOf(n.phase), n.phase)
  }

  /** An event that leaves the phase alone leaves all of this alone. */
  lemma DecidedStays(cfg: Config, tr: Trace, m: Monitor, k: Marks, e: Event, n: Monitor)
    requires DecidedKept(cfg, tr, m, k) && n.attempted == m.attempted && n.phase == m.phase && !Marked(e)
    ensures DecidedKept(cfg, tr + [e], n, MarkNext(k, e, |tr|))
  {
  }

  lemma CarriedStays(cfg: Config, tr: Trace, m: Monitor, k: Marks, e: Event, n: Monitor)
    requires CarriedKept(cfg, tr, m, k) && n.attempted == m.attempted && n.phase == m.phase && !Marked(e)
    requires AskKept(cfg, tr, m, k)
    ensures CarriedKept(cfg, tr + [e], n, MarkNext(k, e, |tr|))
  {
    ConsentStays(cfg, tr, m, k, e, n);
    RunStays(cfg, tr, m, k, e, n);
  }

  lemma ConsentStays(cfg: Config, tr: Trace, m: Monitor, k: Marks, e: Event, n: Monitor)
    requires AskKept(cfg, tr, m, k) && RefusalKept(cfg, tr, m, k) && ConsentKept(cfg, tr, m, k)
    requires n.attempted == m.attempted && n.phase == m.phase && !Marked(e)
    ensures RefusalKept(cfg, tr + [e], n, MarkNext(k, e, |tr|)) && ConsentKept(cfg, tr + [e], n, MarkNext(k, e, |tr|))
  {
  }

  lemma RunStays(cfg: Config, tr: Trace, m: Monitor, k: Marks, e: Event, n: Monitor)
    requires StartKept(cfg, tr, m, k) && ClearanceKept(cfg, tr, m, k) && ReportKept(cfg, tr, m, k)
    requires n.attempted == m.attempted && n.phase == m.phase && !Marked(e)
    ensures StartKept(cfg, tr + [e], n, MarkNext(k, e, |tr|)) && ClearanceKept(cfg, tr + [e], n, MarkNext(k, e, |tr|))
    ensures ReportKept(cfg, tr + [e], n, MarkNext(k, e, |tr|))
  {
  }

  lemma ReserveClimbs(cfg: Config, tr: Trace, m: Monitor, k: Marks, e: Event, n: Monitor)
    requires ReleaseKept(cfg, tr, m, k) && ReserveKept(cfg, tr, m, k) && Climbing(cfg, m, e, n)
    ensures ReserveKept(cfg, tr + [e], n, MarkNext(k, e, |tr|))
  {
  }

  lemma DecisionEarly(cfg: Config, tr: Trace, m: Monitor, k: Marks, e: Event, n: Monitor)
    requires ReserveKept(cfg, tr, m, k) && DecisionKept(cfg, tr, m, k)
    requires Climbing(cfg, m, e, n) && Rank(n.phase) < 3
    ensures DecisionKept(cfg, tr + [e], n, MarkNext(k, e, |tr|))
  {
  }

  lemma DecisionLate(cfg: Config, tr: Trace, m: Monitor, k: Marks, e: Event, n: Monitor)
    requires ReserveKept(cfg, tr, m, k) && DecisionKept(cfg, tr, m, k)
    requires Climbing(cfg, m, e, n) && Rank(n.phase) >= 3
    ensures DecisionKept(cfg, tr + [e], n, MarkNext(k, e, |tr|))
  {
  }

  lemma ConsentEarly(cfg: Config, tr: Trace, m: Monitor, k: Marks, e: Event, n: Monitor)
    requires DecisionKept(cfg, tr, m, k) && AskKept(cfg, tr, m, k) && ConsentKept(cfg, tr, m, k)
    requires Climbing(cfg, m, e, n) && Rank(n.phase) < 6
    ensures ConsentKept(cfg, tr + [e], n, MarkNext(k, e, |tr|))
  {
  }

  lemma ConsentLate(cfg: Config, tr: Trace, m: Monitor, k: Marks, e: Event, n: Monitor)
    requires DecisionKept(cfg, tr, m, k) && AskKept(cfg, tr, m, k) && ConsentKept(cfg, tr, m, k)
    requires Climbing(cfg, m, e, n) && Rank(n.phase) >= 6
    ensures ConsentKept(cfg, tr + [e], n, MarkNext(k, e, |tr|))
  {
  }

  lemma AskClimbs(cfg: Config, tr: Trace, m: Monitor, k: Marks, e: Event, n: Monitor)
    requires ReserveKept(cfg, tr, m, k) && AskKept(cfg, tr, m, k) && Climbing(cfg, m, e, n)
    ensures AskKept(cfg, tr + [e], n, MarkNext(k, e, |tr|))
  {
  }

  lemma RefusalClimbs(cfg: Config, tr: Trace, m: Monitor, k: Marks, e: Event, n: Monitor)
    requires DecisionKept(cfg, tr, m, k) && AskKept(cfg, tr, m, k) && RefusalKept(cfg, tr, m, k)
    requires Climbing(cfg, m, e, n)
    ensures RefusalKept(cfg, tr + [e], n, MarkNext(k, e, |tr|))
  {
  }

  lemma ReportClimbs(cfg: Config, tr: Trace, m: Monitor, k: Marks, e: Event, n: Monitor)
    requires ReportKept(cfg, tr, m, k) && Climbing(cfg, m, e, n)
    ensures ReportKept(cfg, tr + [e], n, MarkNext(k, e, |tr|))
  {
  }

  lemma StartClimbs(cfg: Config, tr: Trace, m: Monitor, k: Marks, e: Event, n: Monitor)
    requires DecisionKept(cfg, tr, m, k) && ConsentKept(cfg, tr, m, k) && StartKept(cfg, tr, m, k)
    requires Climbing(cfg, m, e, n) && Rank(n.phase) >= 7
    ensures StartKept(cfg, tr + [e], n, MarkNext(k, e, |tr|))
  {
    if n.phase.Started? {
      StartBegins(cfg, tr, m, k, e, n);
    } else {
      StartStays(cfg, tr, m, k, e, n);
    }
  }

  lemma StartBegins(cfg: Config, tr: Trace, m: Monitor, k: Marks, e: Event, n: Monitor)
    requires DecisionKept(cfg, tr, m, k) && ConsentKept(cfg, tr, m, k)
    requires Climbing(cfg, m, e, n) && n.phase.Started?
    ensures StartKept(cfg, tr + [e], n, MarkNext(k, e, |tr|))
  {
  }

  lemma StartStays(cfg: Config, tr: Trace, m: Monitor, k: Marks, e: Event, n: Monitor)
    requires StartKept(cfg, tr, m, k) && Climbing(cfg, m, e, n) && Rank(n.phase) >= 8
    ensures StartKept(cfg, tr + [e], n, MarkNext(k, e, |tr|))
  {
  }

  lemma ClearanceClimbs(cfg: Config, tr: Trace, m: Monitor, k: Marks, e: Event, n: Monitor)
    requires StartKept(cfg, tr, m, k) && Climbing(cfg, m, e, n)
    ensures ClearanceKept(cfg, tr + [e], n, MarkNext(k, e, |tr|))
  {
  }

  lemma KeptClimbs(cfg: Config, tr: Trace, m: Monitor, k: Marks, e: Event, n: Monitor)
    requires Kept(cfg, tr, m, k) && Climbing(cfg, m, e, n)
    ensures Acted(cfg, tr + [e], n, MarkNext(k, e, |tr|))
  {
    ReleaseClimbs(cfg, tr, m, k, e, n);
    ReserveClimbs(cfg, tr, m, k, e, n);
    if Rank(n.phase) < 3 { DecisionEarly(cfg, tr, m, k, e, n); } else { DecisionLate(cfg, tr, m, k, e, n); }
    AskClimbs(cfg, tr, m, k, e, n);
    RefusalClimbs(cfg, tr, m, k, e, n);
    if Rank(n.phase) < 6 {
      ConsentEarly(cfg, tr, m, k, e, n);
    } else {
      ConsentLate(cfg, tr, m, k, e, n);
      if Rank(n.phase) >= 7 { StartClimbs(cfg, tr, m, k, e, n); }
    }
    ClearanceClimbs(cfg, tr, m, k, e, n);
    ReportClimbs(cfg, tr, m, k, e, n);
  }

  lemma ActedStep(cfg: Config, tr: Trace, m: Monitor, k: Marks, e: Event, n: Monitor)
    requires Kept(cfg, tr, m, k) && Shape(cfg, m, e, n)
    ensures Acted(cfg, tr + [e], n, MarkNext(k, e, |tr|))
  {
    if Rank(n.phase) > 0 {
      if n.phase == m.phase && !Marked(e) {
        DecidedStays(cfg, tr, m, k, e, n);
        CarriedStays(cfg, tr, m, k, e, n);
      } else {
        KeptClimbs(cfg, tr, m, k, e, n);
      }
    }
  }

  lemma KeptStep(cfg: Config, tr: Trace, m: Monitor, k: Marks, e: Event)
    requires Kept(cfg, tr, m, k) && Next(cfg, m, e).Some?
    ensures Kept(cfg, tr + [e], Next(cfg, m, e).value, MarkNext(k, e, |tr|))
  {
    var n := Next(cfg, m, e).value;
    StepShape(cfg, m, e);
    PlanStep(cfg, tr, m, k, e, n);
    ActedStep(cfg, tr, m, k, e, n);
  }

  lemma {:induction false} HistoryKept(cfg: Config, tr: Trace)
    requires Replay(cfg, tr).Some?
    ensures Kept(cfg, tr, Replay(cfg, tr).value, MarksOf(tr))
  {
    if tr != [] {
      var p, e := tr[..|tr| - 1], tr[|tr| - 1];
      HistoryKept(cfg, p);
      var m, k, n := Replay(cfg, p).value, MarksOf(p), Replay(cfg, tr).value;
      assert p + [e] == tr;
      KeptStep(cfg, p, m, k, e);
    }
  }

  /** A launch of action a at step s comes after, in this order: the release of the plan that proposes a at s, the
      output reservation, the human's review when the policy asks for one, a non-deny decision, the consumption of the
      very grant the human handed over, the durable execution_started and the passed final check. */
  ghost predicate Justified(cfg: Config, tr: Trace, s: nat, a: Action, k: Marks) {
    && (cfg.offline ==> ReleasedAt(tr, k.released, s, a) && k.released < k.reserved)
    && ReservedAt(tr, k.reserved, s, a)
    && k.reserved < k.decided && EventAt(tr, k.decided, PolicyDecided(s, a, cfg.policy.evaluate(a)))
    && cfg.policy.evaluate(a) != Deny
    && (cfg.policy.evaluate(a) == ApprovalRequired ==>
          && SpentAt(tr, k.spent, s, a) && k.decided < k.spent < k.consumed < k.started
          && k.reserved < k.asked < k.decided && EventAt(tr, k.asked, Reviewed(s, a, Token(tr[k.spent].reference)))
          && EventAt(tr, k.consumed, ApprovalConsumed(s, a, tr[k.spent].reference)))
    && k.decided < k.started < k.cleared
    && EventAt(tr, k.started, ExecutionStarted(s, a))
    && EventAt(tr, k.cleared, LaunchCleared(s, a))
  }

  lemma PrefixReplays(cfg: Config, tr: Trace, i: nat)
    requires Replay(cfg, tr).Some? && i <= |tr|
    ensures Replay(cfg, tr[..i]).Some?
  {
    if i < |tr| {
      PrefixReplays(cfg, tr[..|tr| - 1], i);
      assert tr[..|tr| - 1][..i] == tr[..i];
    } else {
      assert tr[..i] == tr;
    }
  }

  lemma PrefixStep(cfg: Config, tr: Trace, i: nat)
    requires Replay(cfg, tr).Some? && i < |tr|
    ensures Replay(cfg, tr[..i]).Some? && Next(cfg, Replay(cfg, tr[..i]).value, tr[i]) == Replay(cfg, tr[..i + 1])
    ensures Replay(cfg, tr[..i + 1]).Some?
  {
    PrefixReplays(cfg, tr, i + 1);
    assert tr[..i + 1][..i] == tr[..i];
    PrefixReplays(cfg, tr, i);
  }

  lemma LaunchPhase(cfg: Config, m: Monitor, e: Event)
    requires e.Launched? && Next(cfg, m, e).Some?
    ensures m.phase == Cleared(e.action) && e.step == m.attempted
  {
  }

  /** The phase every launch starts from. */
  lemma LaunchPoint(cfg: Config, tr: Trace, i: nat)
    requires Replay(cfg, tr).Some? && i < |tr| && tr[i].Launched?
    ensures Replay(cfg, tr[..i]).Some? && Replay(cfg, tr[..i]).value.phase == Cleared(tr[i].action)
    ensures tr[i].step == Replay(cfg, tr[..i]).value.attempted
  {
    PrefixStep(cfg, tr, i);
    LaunchPhase(cfg, Replay(cfg, tr[..i]).value, tr[i]);
  }

  lemma ClearedJustified(cfg: Config, tr: Trace, action: Action)
    requires Replay(cfg, tr).Some? && Replay(cfg, tr).value.phase == Cleared(action)
    ensures Justified(cfg, tr, Replay(cfg, tr).value.attempted, action, MarksOf(tr))
  {
    HistoryKept(cfg, tr);
  }

  /** Adversarial safety: whatever was requested, every launch is justified by what came before it. */
  lemma LaunchesJustified(cfg: Config, tr: Trace, i: nat)
    requires Replay(cfg, tr).Some? && i < |tr| && tr[i].Launched?
    ensures exists k: Marks :: Justified(cfg, tr[..i], tr[i].step, tr[i].action, k)
  {
    LaunchPoint(cfg, tr, i);
    ClearedJustified(cfg, tr[..i], tr[i].action);
  }

  // ---------------------------------------------------------- order of a step

  /** How far a step has come. */
  function Stage(phase: Phase): nat {
    match phase
    case Begun => 1
    case Consulted(_) => 2
    case Planless => 2
    case Released(_) => 3
    case Accepted(_) => 4
    case Previewed(_) => 5
    case Reserved(_) => 6
    case Asked(_, _) => 7
    case Redecided(_, _) => 8
    case TurnedDown(_) => 9
    case Spent(_, _) => 9
    case Approved(_) => 10
    case Opened(_) => 11
    case Started(_) => 12
    case Cleared(_) => 13
    case Running(_) => 14
    case Ran(_, _) => 15
    case Closed(_, _) => 16
    case Finished(_, _) => 17
    case Over(_) => 18
    case Idle => 19
  }

  /** Events that belong to one stage of a step: all but the two policy decisions and those about no step at all. */
  predicate Staged(e: Event) {
    !IsFault(e) && !e.SessionMarked? && !e.GrantIssued? && !e.PolicyDecided?
  }

  /** The stage that such an event leads to. */
  function StageAfter(e: Event): nat
    requires Staged(e)
  {
    match e
    case StepStarted(_) => 1
    case Planned(_, _) => 2
    case NoPlan(_) => 2
    case PlanReleased(_, _) => 3
    case Proposed(_, _) => 4
    case OutputReserved(_, _, _) => 6
    case Reviewed(_, _, _) => 7
    case GrantSpent(_, _, _, _) => 9
    case GrantRefused(_, _, _) => 9
    case ApprovalConsumed(_, _, _) => 10
    case EvidenceOpened(_, _) => 11
    case ExecutionStarted(_, _) => 12
    case LaunchCleared(_, _) => 13
    case Launched(_, _) => 14
    case BackendReturned(_, _, _) => 15
    case StoppedBefore(_, _, _) => 15
    case EvidenceClosed(_, _) => 16
    case ExecutionFinished(_, _, _) => 17
    case StepFinished(_, _) => 19
    case _ => 18
  }

  function Place(step: nat, stage: nat): nat {
    20 * step + stage
  }

  function Position(m: Monitor): nat {
    Place(m.attempted, Stage(m.phase))
  }

  /** A staged event moves the history on to the event's own place. */
  predicate Placed(m: Monitor, e: Event, n: Monitor) {
    Staged(e) ==> Position(m) < Position(n) == Place(e.step, StageAfter(e))
  }

  lemma PositionLaunch(cfg: Config, m: Monitor, e: Event)
    requires NextLaunch(cfg, m, e).Some?
    ensures Position(m) <= Position(NextLaunch(cfg, m, e).value)
  {
  }

  lemma PositionDecision(cfg: Config, m: Monitor, e: Event)
    requires NextDecision(cfg, m, e).Some? && NextLaunch(cfg, m, e).None?
    ensures Position(m) <= Position(NextDecision(cfg, m, e).value)
  {
  }

  lemma PositionPlan(cfg: Config, m: Monitor, e: Event)
    requires NextStep(cfg, m, e).Some? && NextDecision(cfg, m, e).None?
    ensures Position(m) <= Position(NextStep(cfg, m, e).value)
  {
  }

  lemma PositionStep(cfg: Config, m: Monitor, e: Event)
    requires Next(cfg, m, e).Some?
    ensures Position(m) <= Position(Next(cfg, m, e).value)
  {
    Stretches(cfg, m, e);
    var n := Next(cfg, m, e);
    if n == NextLaunch(cfg, m, e) {
      PositionLaunch(cfg, m, e);
    } else if NextLaunch(cfg, m, e).None? && n == NextDecision(cfg, m, e) {
      PositionDecision(cfg, m, e);
    } else if NextDecision(cfg, m, e).None? && n == NextStep(cfg, m, e) {
      PositionPlan(cfg, m, e);
    }
  }

  lemma PlacedLaunch(cfg: Config, m: Monitor, e: Event)
    requires NextLaunch(cfg, m, e).Some?
    ensures Placed(m, e, NextLaunch(cfg, m, e).value)
  {
  }

  lemma PlacedDecision(cfg: Config, m: Monitor, e: Event)
    requires NextDecision(cfg, m, e).Some? && NextLaunch(cfg, m, e).None?
    ensures Placed(m, e, NextDecision(cfg, m, e).value)
  {
  }

  lemma PlacedPlan(cfg: Config, m: Monitor, e: Event)
    requires NextStep(cfg, m, e).Some? && NextDecision(cfg, m, e).None?
    ensures Placed(m, e, NextStep(cfg, m, e).value)
  {
  }

  lemma PlacedStep(cfg: Config, m: Monitor, e: Event)
    requires Next(cfg, m, e).Some?
    ensures Placed(m, e, Next(cfg, m, e).value)
  {
    Stretches(cfg, m, e);
    var n := Next(cfg, m, e);
    if n == NextLaunch(cfg, m, e) {
      PlacedLaunch(cfg, m, e);
    } else if NextLaunch(cfg, m, e).None? && n == NextDecision(cfg, m, e) {
      PlacedDecision(cfg, m, e);
    } else if NextDecision(cfg, m, e).None? && n == NextStep(cfg, m, e) {
      PlacedPlan(cfg, m, e);
    }
  }

  /** A history only ever moves on. */
  lemma {:induction false} PlaceReached(cfg: Config, tr: Trace, i: nat)
    requires Replay(cfg, tr).Some? && i < |tr| && Staged(tr[i])
    ensures Place(tr[i].step, StageAfter(tr[i])) <= Position(Replay(cfg, tr).value)
  {
    var p, e := tr[..|tr| - 1], tr[|tr| - 1];
    if i == |p| {
      PlacedStep(cfg, Replay(cfg, p).value, e);
    } else {
      PositionStep(cfg, Replay(cfg, p).value, e);
      PlaceReached(cfg, p, i);
    }
  }

  /** Staged events come in the order of their steps and, within a step, of their stages: no stage of a step is
      entered twice. */
  lemma InOrder(cfg: Config, tr: Trace, i: nat, j: nat)
    requires Replay(cfg, tr).Some? && i < j < |tr| && Staged(tr[i]) && Staged(tr[j])
    ensures tr[i].step < tr[j].step || (tr[i].step == tr[j].step && StageAfter(tr[i]) < StageAfter(tr[j]))
  {
    PrefixStep(cfg, tr, j);
    PlacedStep(cfg, Replay(cfg, tr[..j]).value, tr[j]);
    PlaceReached(cfg, tr[..j], i);
  }

  /** No step is launched twice, and launches follow the order of the steps. */
  lemma LaunchedOnce(cfg: Config, tr: Trace, i: nat, j: nat)
    requires Replay(cfg, tr).Some? && i < j < |tr| && tr[i].Launched? && tr[j].Launched?
    ensures tr[i].step < tr[j].step
  {
    InOrder(cfg, tr, i, j);
  }

  // ------------------------------------------------------------ human answers

  /** The approval store, or the audit of its refusal, has been reached. */
  predicate Presents(e: Event) {
    e.GrantSpent? || e.GrantRefused? || e.ApprovalRejected?
  }

  /** The answer that was presented is this one. */
  predicate Handed(e: Event, answer: Reference) {
    && (e.GrantSpent? ==> answer == Token(e.reference))
    && (e.GrantRefused? ==> answer == e.answer)
  }

  /** The human is asked between the reservation and the second decision, and what they answer is what is presented. */
  predicate AskedBetween(tr: Trace, r: nat, i: nat, d: nat, j: nat)
    requires j < |tr| && Presents(tr[j])
  {
    && r < i < d < j && ReservedAt(tr, r, tr[j].step, tr[j].action) && AskedAt(tr, i, tr[j].step, tr[j].action)
    && tr[d] == PolicyDecided(tr[j].step, tr[j].action, ApprovalRequired) && Handed(tr[j], tr[i].answer)
  }

  ghost predicate AskedFor(tr: Trace, j: nat)
    requires j < |tr| && Presents(tr[j])
  {
    exists r: nat, i: nat, d: nat :: AskedBetween(tr, r, i, d, j)
  }

  lemma PresentsPhase(cfg: Config, m: Monitor, e: Event)
    requires Next(cfg, m, e).Some? && Presents(e)
    ensures e.step == m.attempted && Rank(m.phase) == 3 && m.phase.action == e.action
    ensures cfg.policy.evaluate(e.action) == ApprovalRequired
    ensures e.GrantSpent? ==> m.phase == Redecided(e.action, Token(e.reference))
    ensures e.GrantRefused? ==> m.phase == Redecided(e.action, e.answer) && cfg.interactive
    ensures e.ApprovalRejected? ==> m.phase.TurnedDown? || !cfg.interactive
  {
  }

  /** Whatever reaches the approval store in a session that can ask has been asked for, and only the human's own answer
      is presented. */
  lemma AskedFirst(cfg: Config, tr: Trace, j: nat)
    requires Replay(cfg, tr).Some? && j < |tr| && Presents(tr[j]) && cfg.interactive && cfg.reviewer
    ensures AskedFor(tr, j)
  {
    PrefixStep(cfg, tr, j);
    PresentsPhase(cfg, Replay(cfg, tr[..j]).value, tr[j]);
    HistoryKept(cfg, tr[..j]);
    var k := MarksOf(tr[..j]);
    assert AskedBetween(tr, k.reserved, k.asked, k.decided, j);
  }

  lemma ReviewedPhase(cfg: Config, m: Monitor, e: Event)
    requires Next(cfg, m, e).Some? && e.Reviewed?
    ensures m.phase == Reserved(e.action) && e.step == m.attempted && Asks(cfg, e.action)
  {
  }

  /** Nobody is asked about an action that the policy allows, or before its output has been reserved. */
  lemma AskedOnlyIfNeeded(cfg: Config, tr: Trace, i: nat)
    requires Replay(cfg, tr).Some? && i < |tr| && tr[i].Reviewed?
    ensures Asks(cfg, tr[i].action) && exists r: nat :: r < i && ReservedAt(tr, r, tr[i].step, tr[i].action)
  {
    PrefixStep(cfg, tr, i);
    ReviewedPhase(cfg, Replay(cfg, tr[..i]).value, tr[i]);
    HistoryKept(cfg, tr[..i]);
    assert ReservedAt(tr, MarksOf(tr[..i]).reserved, tr[i].step, tr[i].action);
  }

  ghost predicate RefusedBefore(tr: Trace, j: nat)
    requires j < |tr| && tr[j].ApprovalRejected?
  {
    exists i: nat :: i < j && tr[i].GrantRefused? && tr[i].step == tr[j].step && tr[i].action == tr[j].action
  }

  /** A required approval of an interactive session is rejected only because the store refused the answer. */
  lemma RejectedAfterRefusal(cfg: Config, tr: Trace, j: nat)
    requires Replay(cfg, tr).Some? && j < |tr| && tr[j].ApprovalRejected? && cfg.interactive
    ensures RefusedBefore(tr, j)
  {
    PrefixStep(cfg, tr, j);
    PresentsPhase(cfg, Replay(cfg, tr[..j]).value, tr[j]);
    HistoryKept(cfg, tr[..j]);
    var i := MarksOf(tr[..j]).refused;
    assert tr[i].GrantRefused?;
  }

  // --------------------------------------------------------- reported outcomes

  predicate Reports(e: Event) {
    e.BackendReturned? || e.StoppedBefore?
  }

  lemma FinishedPhase(cfg: Config, m: Monitor, e: Event)
    requires Next(cfg, m, e).Some? && e.ExecutionFinished?
    ensures e.step == m.attempted
    ensures m.phase == Closed(e.action, e.status)
      || (m.phase.Ran? && m.phase.action == e.action && Recorded(m.phase.result) == Some(e.status))
  {
  }

  /** The execution was finished with what its own launch, or the stop before it, came to. */
  ghost predicate ReportedAs(tr: Trace, j: nat)
    requires j < |tr| && tr[j].ExecutionFinished?
  {
    exists i: nat :: i < j && ClosedAs(tr, i, tr[j].step, tr[j].action, tr[j].status)
      && (tr[i].BackendReturned? ==> exists l: nat :: l < i && EventAt(tr, l, Launched(tr[j].step, tr[j].action)))
  }

  lemma RunKept(cfg: Config, tr: Trace, action: Action, status: Status) returns (i: nat)
    requires Replay(cfg, tr).Some?
    requires var phase := Replay(cfg, tr).value.phase;
      phase == Closed(action, status)
      || (phase.Ran? && phase.action == action && Recorded(phase.result) == Some(status))
    ensures ClosedAs(tr, i, Replay(cfg, tr).value.attempted, action, status)
    ensures tr[i].BackendReturned? ==>
      exists l: nat :: l < i && EventAt(tr, l, Launched(Replay(cfg, tr).value.attempted, action))
  {
    HistoryKept(cfg, tr);
    i := MarksOf(tr).ran;
  }

  lemma ClosedEarlier(tr: Trace, n: nat, i: nat, s: nat, a: Action, status: Status)
    requires n <= |tr| && ClosedAs(tr[..n], i, s, a, status)
    requires tr[i].BackendReturned? ==> exists l: nat :: l < i && EventAt(tr[..n], l, Launched(s, a))
    ensures i < n && ClosedAs(tr, i, s, a, status)
    ensures tr[i].BackendReturned? ==> exists l: nat :: l < i && EventAt(tr, l, Launched(s, a))
  {
    if tr[i].BackendReturned? {
      var l: nat :| l < i && EventAt(tr[..n], l, Launched(s, a));
      assert EventAt(tr, l, Launched(s, a));
    }
  }

  lemma FinishedAsReported(cfg: Config, tr: Trace, j: nat)
    requires Replay(cfg, tr).Some? && j < |tr| && tr[j].ExecutionFinished?
    ensures ReportedAs(tr, j)
  {
    PrefixStep(cfg, tr, j);
    FinishedPhase(cfg, Replay(cfg, tr[..j]).value, tr[j]);
    var i := RunKept(cfg, tr[..j], tr[j].action, tr[j].status);
    ClosedEarlier(tr, j, i, tr[j].step, tr[j].action, tr[j].status);
  }

  lemma ReportedOnce(cfg: Config, tr: Trace, i: nat, j: nat)
    requires Replay(cfg, tr).Some? && i < j < |tr| && Reports(tr[i]) && Reports(tr[j])
    ensures tr[i].step < tr[j].step
  {
    InOrder(cfg, tr, i, j);
  }

  lemma OnlyReport(cfg: Config, tr: Trace, i: nat, j: nat)
    requires Replay(cfg, tr).Some? && i < |tr| && j < |tr| && Reports(tr[i]) && Reports(tr[j])
    requires tr[i].step == tr[j].step
    ensures i == j
  {
    if i < j { ReportedOnce(cfg, tr, i, j); }
    if j < i { ReportedOnce(cfg, tr, j, i); }
  }

  /** Every report is recorded as what it says: whatever a step is finished with is what its one report came to. */
  lemma ReportRecorded(cfg: Config, tr: Trace, i: nat, j: nat)
    requires Replay(cfg, tr).Some? && i < |tr| && j < |tr| && Reports(tr[i]) && tr[j].ExecutionFinished?
    requires tr[i].step == tr[j].step
    ensures i < j && tr[i].action == tr[j].action && Recorded(ResultOf(tr[i])) == Some(tr[j].status)
  {
    FinishedAsReported(cfg, tr, j);
    var n: nat :| n < j && ClosedAs(tr, n, tr[j].step, tr[j].action, tr[j].status);
    OnlyReport(cfg, tr, i, n);
  }

  /** An execution has succeeded exactly if its backend said so; every other report is recorded as itself; a stop is a
      cancellation exactly if the session was cancelled, and a timeout otherwise. */
  predicate Faithful(report: Event, status: Status)
    requires Reports(report)
  {
    && (status == Succeeded <==> report.BackendReturned? && report.result == Reported(Succeeded))
    && (report.BackendReturned? && report.result.Reported? && report.result.status !in {DryRun, Rejected} ==>
          status == report.result.status)
    && (report.BackendReturned? && report.result.StopRaised? ==>
          status == if report.result.stop.SessionCancelled? then Cancelled else Timeout)
    && (report.StoppedBefore? ==> status == if report.stop.SessionCancelled? then Cancelled else Timeout)
  }

  lemma RecordedFaithfully(cfg: Config, tr: Trace, i: nat, j: nat)
    requires Replay(cfg, tr).Some? && i < |tr| && j < |tr| && Reports(tr[i]) && tr[j].ExecutionFinished?
    requires tr[i].step == tr[j].step
    ensures i < j && tr[i].action == tr[j].action && Faithful(tr[i], tr[j].status)
  {
    ReportRecorded(cfg, tr, i, j);
  }

  // ----------------------------------------------------------- linear grants

  ghost predicate GrantsKnown(tr: Trace, issued: map<nat, Grant>, spent: set<nat>) {
    && (forall r :: r in issued ==> exists i :: 0 <= i < |tr| && tr[i] == GrantIssued(r, issued[r]))
    && (forall i :: 0 <= i < |tr| && tr[i].GrantSpent? ==> tr[i].reference in spent && tr[i].reference in issued)
  }

  /** How an event moves the grants. */
  predicate GrantsMove(m: Monitor, e: Event, n: Monitor) {
    if e.GrantIssued? then
      e.reference !in m.issued && n.issued == m.issued[e.reference := e.grant] && n.spent == m.spent
    else if e.GrantSpent? then
      e.reference in m.issued && e.reference !in m.spent && m.issued[e.reference].action == e.action
      && e.at < m.issued[e.reference].expires && n.issued == m.issued && n.spent == m.spent + {e.reference}
    else
      n.issued == m.issued && n.spent == m.spent
  }

  lemma GrantLaunch(cfg: Config, m: Monitor, e: Event)
    requires NextLaunch(cfg, m, e).Some?
    ensures GrantsMove(m, e, NextLaunch(cfg, m, e).value)
  {
  }

  lemma GrantDecision(cfg: Config, m: Monitor, e: Event)
    requires NextDecision(cfg, m, e).Some? && NextLaunch(cfg, m, e).None?
    ensures GrantsMove(m, e, NextDecision(cfg, m, e).value)
  {
  }

  lemma GrantPlan(cfg: Config, m: Monitor, e: Event)
    requires NextStep(cfg, m, e).Some? && NextDecision(cfg, m, e).None?
    ensures GrantsMove(m, e, NextStep(cfg, m, e).value)
  {
  }

  lemma GrantStep(cfg: Config, m: Monitor, e: Event)
    requires Next(cfg, m, e).Some?
    ensures GrantsMove(m, e, Next(cfg, m, e).value)
  {
    Stretches(cfg, m, e);
    var n := Next(cfg, m, e);
    if n == NextLaunch(cfg, m, e) {
      GrantLaunch(cfg, m, e);
    } else if NextLaunch(cfg, m, e).None? && n == NextDecision(cfg, m, e) {
      GrantDecision(cfg, m, e);
    } else if NextDecision(cfg, m, e).None? && n == NextStep(cfg, m, e) {
      GrantPlan(cfg, m, e);
    }
  }

  lemma KnownMore(tr: Trace, e: Event, issued: map<nat, Grant>, spent: set<nat>, issued': map<nat, Grant>,
                  spent': set<nat>)
    requires GrantsKnown(tr, issued, spent)
    requires if e.GrantIssued? then issued' == issued[e.reference := e.grant] && spent' == spent
             else if e.GrantSpent? then e.reference in issued && issued' == issued && spent' == spent + {e.reference}
             else issued' == issued && spent' == spent
    ensures GrantsKnown(tr + [e], issued', spent')
  {
    forall r | r in issued'
      ensures exists i :: 0 <= i < |tr + [e]| && (tr + [e])[i] == GrantIssued(r, issued'[r])
    {
      if e.GrantIssued? && r == e.reference {
        assert (tr + [e])[|tr|] == GrantIssued(r, issued'[r]);
      } else {
        var i :| 0 <= i < |tr| && tr[i] == GrantIssued(r, issued[r]);
        assert (tr + [e])[i] == tr[i];
      }
    }
  }

  lemma GrantsMore(cfg: Config, tr: Trace, m: Monitor, e: Event)
    requires GrantsKnown(tr, m.issued, m.spent) && Next(cfg, m, e).Some?
    ensures GrantsKnown(tr + [e], Next(cfg, m, e).value.issued, Next(cfg, m, e).value.spent)
  {
    GrantStep(cfg, m, e);
    var n := Next(cfg, m, e).value;
    KnownMore(tr, e, m.issued, m.spent, n.issued, n.spent);
  }

  lemma {:induction false} GrantsHold(cfg: Config, tr: Trace)
    requires Replay(cfg, tr).Some?
    ensures GrantsKnown(tr, Replay(cfg, tr).value.issued, Replay(cfg, tr).value.spent)
  {
    if tr != [] {
      var p, e := tr[..|tr| - 1], tr[|tr| - 1];
      GrantsHold(cfg, p);
      GrantsMore(cfg, p, Replay(cfg, p).value, e);
      assert p + [e] == tr;
    }
  }

  /** Every spent grant was issued before, for the same action and this policy, and was still live. */
  lemma SpentWasIssued(cfg: Config, tr: Trace, j: nat)
    requires Replay(cfg, tr).Some? && j < |tr| && tr[j].GrantSpent?
    ensures exists i, g ::
      0 <= i < j && tr[i] == GrantIssued(tr[j].reference, g) && g.action == tr[j].action && tr[j].at < g.expires
  {
    PrefixStep(cfg, tr, j);
    var m := Replay(cfg, tr[..j]).value;
    GrantStep(cfg, m, tr[j]);
    GrantsHold(cfg, tr[..j]);
    var g := m.issued[tr[j].reference];
    var i :| 0 <= i < |tr[..j]| && tr[..j][i] == GrantIssued(tr[j].reference, g);
    assert tr[i] == GrantIssued(tr[j].reference, g);
  }

  /** No grant is spent twice: approval-required executions map injectively to grants. */
  lemma SpentOnce(cfg: Config, tr: Trace, i: nat, j: nat)
    requires Replay(cfg, tr).Some? && i < j < |tr| && tr[i].GrantSpent? && tr[j].GrantSpent?
    ensures tr[i].reference != tr[j].reference
  {
    PrefixStep(cfg, tr, j);
    GrantStep(cfg, Replay(cfg, tr[..j]).value, tr[j]);
    GrantsHold(cfg, tr[..j]);
    assert tr[..j][i] == tr[i];
  }

  // --------------------------------------------------------------- fail-stop

  predicate Poisoned(m: Monitor) {
    m.rejected || m.auditFault || m.approvalFault
  }

  predicate FaultMoves(m: Monitor, e: Event, n: Monitor) {
    (Poisoned(m) || IsFault(e) <==> Poisoned(n)) && (e.LaunchCleared? ==> !Poisoned(m))
  }

  lemma FaultLaunch(cfg: Config, m: Monitor, e: Event)
    requires NextLaunch(cfg, m, e).Some?
    ensures FaultMoves(m, e, NextLaunch(cfg, m, e).value)
  {
  }

  lemma FaultDecision(cfg: Config, m: Monitor, e: Event)
    requires NextDecision(cfg, m, e).Some? && NextLaunch(cfg, m, e).None?
    ensures FaultMoves(m, e, NextDecision(cfg, m, e).value)
  {
  }

  lemma FaultPlan(cfg: Config, m: Monitor, e: Event)
    requires NextStep(cfg, m, e).Some? && NextDecision(cfg, m, e).None?
    ensures FaultMoves(m, e, NextStep(cfg, m, e).value)
  {
  }

  lemma FaultStep(cfg: Config, m: Monitor, e: Event)
    requires Next(cfg, m, e).Some?
    ensures FaultMoves(m, e, Next(cfg, m, e).value)
  {
    Stretches(cfg, m, e);
    var n := Next(cfg, m, e);
    if n == NextLaunch(cfg, m, e) {
      FaultLaunch(cfg, m, e);
    } else if NextLaunch(cfg, m, e).None? && n == NextDecision(cfg, m, e) {
      FaultDecision(cfg, m, e);
    } else if NextDecision(cfg, m, e).None? && n == NextStep(cfg, m, e) {
      FaultPlan(cfg, m, e);
    }
  }

  ghost predicate Faulty(tr: Trace) {
    exists i :: 0 <= i < |tr| && IsFault(tr[i])
  }

  lemma {:induction false} FaultsKnown(cfg: Config, tr: Trace)
    requires Replay(cfg, tr).Some?
    ensures var m := Replay(cfg, tr).value; Faulty(tr) <==> Poisoned(m)
  {
    if tr != [] {
      var p, e := tr[..|tr| - 1], tr[|tr| - 1];
      FaultsKnown(cfg, p);
      FaultStep(cfg, Replay(cfg, p).value, e);
      if IsFault(e) { assert IsFault(tr[|tr| - 1]); }
      if Faulty(p) { var i :| 0 <= i < |p| && IsFault(p[i]); assert IsFault(tr[i]); }
      if Faulty(tr) && !IsFault(e) { var i :| 0 <= i < |tr| && IsFault(tr[i]); assert p[i] == tr[i]; }
    }
  }

  lemma ClearedBefore(cfg: Config, tr: Trace, j: nat) returns (c: nat)
    requires Replay(cfg, tr).Some? && j < |tr| && tr[j].Launched?
    ensures c < j && tr[c] == LaunchCleared(tr[j].step, tr[j].action)
  {
    LaunchPoint(cfg, tr, j);
    ClearedJustified(cfg, tr[..j], tr[j].action);
    c := MarksOf(tr[..j]).cleared;
  }

  /** After a protocol rejection, an audit, evidence or approval fault, the only launch that can still
      happen is one whose final check had already passed. */
  lemma FailStop(cfg: Config, tr: Trace, i: nat, j: nat)
    requires Replay(cfg, tr).Some? && i < j < |tr| && IsFault(tr[i]) && tr[j].Launched?
    ensures exists c :: 0 <= c < i && tr[c] == LaunchCleared(tr[j].step, tr[j].action)
  {
    var c := ClearedBefore(cfg, tr, j);
    if i < c { NoFaultBefore(cfg, tr, i, c); }
  }

  lemma NoFaultBefore(cfg: Config, tr: Trace, i: nat, c: nat)
    requires Replay(cfg, tr).Some? && i < c < |tr| && tr[c].LaunchCleared?
    ensures !IsFault(tr[i])
  {
    PrefixStep(cfg, tr, c);
    FaultStep(cfg, Replay(cfg, tr[..c]).value, tr[c]);
    FaultsKnown(cfg, tr[..c]);
    assert tr[..c][i] == tr[i];
  }

  // ----------------------------------------------------------------- balance

  function Starts(tr: Trace): nat {
    if tr == [] then 0 else Starts(tr[..|tr| - 1]) + if tr[|tr| - 1].ExecutionStarted? then 1 else 0
  }

  function Finishes(tr: Trace): nat {
    if tr == [] then 0 else Finishes(tr[..|tr| - 1]) + if tr[|tr| - 1].ExecutionFinished? then 1 else 0
  }

  lemma StartCountedLaunch(cfg: Config, m: Monitor, e: Event)
    requires NextLaunch(cfg, m, e).Some?
    ensures NextLaunch(cfg, m, e).value.started == m.started + if e.ExecutionStarted? then 1 else 0
  {
  }

  lemma StartCountedDecision(cfg: Config, m: Monitor, e: Event)
    requires NextDecision(cfg, m, e).Some? && NextLaunch(cfg, m, e).None?
    ensures NextDecision(cfg, m, e).value.started == m.started + if e.ExecutionStarted? then 1 else 0
  {
  }

  lemma StartCountedPlan(cfg: Config, m: Monitor, e: Event)
    requires NextStep(cfg, m, e).Some? && NextDecision(cfg, m, e).None?
    ensures NextStep(cfg, m, e).value.started == m.started + if e.ExecutionStarted? then 1 else 0
  {
  }

  lemma StartCounted(cfg: Config, m: Monitor, e: Event)
    requires Next(cfg, m, e).Some?
    ensures Next(cfg, m, e).value.started == m.started + if e.ExecutionStarted? then 1 else 0
  {
    Stretches(cfg, m, e);
    var n := Next(cfg, m, e);
    if n == NextLaunch(cfg, m, e) {
      StartCountedLaunch(cfg, m, e);
    } else if NextLaunch(cfg, m, e).None? && n == NextDecision(cfg, m, e) {
      StartCountedDecision(cfg, m, e);
    } else if NextDecision(cfg, m, e).None? && n == NextStep(cfg, m, e) {
      StartCountedPlan(cfg, m, e);
    }
  }

  lemma FinishCountedLaunch(cfg: Config, m: Monitor, e: Event)
    requires NextLaunch(cfg, m, e).Some?
    ensures NextLaunch(cfg, m, e).value.finished == m.finished + if e.ExecutionFinished? then 1 else 0
  {
  }

  lemma FinishCountedDecision(cfg: Config, m: Monitor, e: Event)
    requires NextDecision(cfg, m, e).Some? && NextLaunch(cfg, m, e).None?
    ensures NextDecision(cfg, m, e).value.finished == m.finished + if e.ExecutionFinished? then 1 else 0
  {
  }

  lemma FinishCountedPlan(cfg: Config, m: Monitor, e: Event)
    requires NextStep(cfg, m, e).Some? && NextDecision(cfg, m, e).None?
    ensures NextStep(cfg, m, e).value.finished == m.finished + if e.ExecutionFinished? then 1 else 0
  {
  }

  lemma FinishCounted(cfg: Config, m: Monitor, e: Event)
    requires Next(cfg, m, e).Some?
    ensures Next(cfg, m, e).value.finished == m.finished + if e.ExecutionFinished? then 1 else 0
  {
    Stretches(cfg, m, e);
    var n := Next(cfg, m, e);
    if n == NextLaunch(cfg, m, e) {
      FinishCountedLaunch(cfg, m, e);
    } else if NextLaunch(cfg, m, e).None? && n == NextDecision(cfg, m, e) {
      FinishCountedDecision(cfg, m, e);
    } else if NextDecision(cfg, m, e).None? && n == NextStep(cfg, m, e) {
      FinishCountedPlan(cfg, m, e);
    }
  }

  lemma {:induction false} Counts(cfg: Config, tr: Trace)
    requires Replay(cfg, tr).Some?
    ensures Starts(tr) == Replay(cfg, tr).value.started && Finishes(tr) == Replay(cfg, tr).value.finished
  {
    if tr != [] {
      Counts(cfg, tr[..|tr| - 1]);
      StartCounted(cfg, Replay(cfg, tr[..|tr| - 1]).value, tr[|tr| - 1]);
      FinishCounted(cfg, Replay(cfg, tr[..|tr| - 1]).value, tr[|tr| - 1]);
    }
  }

  /** At most one execution is ever open, and it is open exactly in the phases between its two audit events; in
      particular never when nothing is under way. */
  lemma Balance(cfg: Config, tr: Trace)
    requires Replay(cfg, tr).Some?
    ensures Starts(tr) == Finishes(tr) + if InFlight(Replay(cfg, tr).value.phase) then 1 else 0
    ensures !Stranded(Replay(cfg, tr).value.phase) ==> Starts(tr) == Finishes(tr)
  {
    Counts(cfg, tr);
    BudgetsHold(cfg, tr);
  }

  // ------------------------------------------------------- all of it at once

  ghost predicate EachJustified(cfg: Config, tr: Trace) {
    forall i :: 0 <= i < |tr| && tr[i].Launched? ==>
      exists k: Marks :: Justified(cfg, tr[..i], tr[i].step, tr[i].action, k)
  }

  ghost predicate OncePerStep(tr: Trace) {
    forall i, j :: 0 <= i < j < |tr| && tr[i].Launched? && tr[j].Launched? ==> tr[i].step != tr[j].step
  }

  ghost predicate OncePerGrant(tr: Trace) {
    forall i, j :: 0 <= i < j < |tr| && tr[i].GrantSpent? && tr[j].GrantSpent? ==> tr[i].reference != tr[j].reference
  }

  ghost predicate IssuedBefore(tr: Trace, j: nat)
    requires j < |tr| && tr[j].GrantSpent?
  {
    exists i, g :: 0 <= i < j && tr[i] == GrantIssued(tr[j].reference, g) && g.action == tr[j].action
                   && tr[j].at < g.expires
  }

  ghost predicate SpendsIssued(tr: Trace) {
    forall j :: 0 <= j < |tr| && tr[j].GrantSpent? ==> IssuedBefore(tr, j)
  }

  ghost predicate StopsOnFault(tr: Trace) {
    forall i, j :: 0 <= i < j < |tr| && IsFault(tr[i]) && tr[j].Launched? ==>
      exists c :: 0 <= c < i && tr[c] == LaunchCleared(tr[j].step, tr[j].action)
  }

  /** The accounts of a history: nested budgets, recorded steps, starts against finishes. */
  ghost predicate Audited(cfg: Config, tr: Trace) {
    && Replay(cfg, tr).Some?
    && var m := Replay(cfg, tr).value;
       && Spending(cfg, m) && Launching(cfg, m) && Recording(cfg, m) && Stepping(m) && Tallied(cfg, m)
       && Starts(tr) == Finishes(tr) + if InFlight(m.phase) then 1 else 0
  }

  /** A human is asked before the approval store is, at most once in a step, and never without need. */
  ghost predicate Consulting(cfg: Config, tr: Trace) {
    && (cfg.interactive && cfg.reviewer ==> forall j :: 0 <= j < |tr| && Presents(tr[j]) ==> AskedFor(tr, j))
    && (cfg.interactive ==> forall j :: 0 <= j < |tr| && tr[j].ApprovalRejected? ==> RefusedBefore(tr, j))
    && (forall i :: 0 <= i < |tr| && tr[i].Reviewed? ==> Asks(cfg, tr[i].action))
    && (forall i, j :: 0 <= i < j < |tr| && tr[i].Reviewed? && tr[j].Reviewed? ==> tr[i].step != tr[j].step)
  }

  /** Event i reports, and event j finishes, the execution of the same step. */
  predicate Answering(tr: Trace, i: nat, j: nat)
    requires i < |tr| && j < |tr|
  {
    Reports(tr[i]) && tr[j].ExecutionFinished? && tr[i].step == tr[j].step
  }

  /** Every execution is finished with what it came to, and with nothing else. */
  ghost predicate Truthful(tr: Trace) {
    && (forall j :: 0 <= j < |tr| && tr[j].ExecutionFinished? ==> ReportedAs(tr, j))
    && (forall i, j :: 0 <= i < |tr| && 0 <= j < |tr| && Answering(tr, i, j) ==>
          i < j && tr[i].action == tr[j].action && Faithful(tr[i], tr[j].status))
  }

  /** Each launch is justified, is the only one of its step, and spends a live issued grant of its own, the human's own
      answer, when approval is required; executions are finished as reported; no launch is cleared after a fault; and
      all accounts hold. */
  ghost predicate Safe(cfg: Config, tr: Trace) {
    EachJustified(cfg, tr) && OncePerStep(tr) && OncePerGrant(tr) && SpendsIssued(tr) && StopsOnFault(tr)
    && Consulting(cfg, tr) && Truthful(tr) && Audited(cfg, tr)
  }

  lemma AnswersSafe(cfg: Config, tr: Trace)
    requires Replay(cfg, tr).Some?
    ensures Consulting(cfg, tr)
  {
    if cfg.interactive && cfg.reviewer {
      forall j | 0 <= j < |tr| && Presents(tr[j]) ensures AskedFor(tr, j) { AskedFirst(cfg, tr, j); }
    }
    if cfg.interactive {
      forall j | 0 <= j < |tr| && tr[j].ApprovalRejected? ensures RefusedBefore(tr, j) {
        RejectedAfterRefusal(cfg, tr, j);
      }
    }
    forall i | 0 <= i < |tr| && tr[i].Reviewed? ensures Asks(cfg, tr[i].action) { AskedOnlyIfNeeded(cfg, tr, i); }
    forall i, j | 0 <= i < j < |tr| && tr[i].Reviewed? && tr[j].Reviewed? ensures tr[i].step != tr[j].step {
      InOrder(cfg, tr, i, j);
    }
  }

  lemma OutcomesSafe(cfg: Config, tr: Trace)
    requires Replay(cfg, tr).Some?
    ensures Truthful(tr)
  {
    forall j | 0 <= j < |tr| && tr[j].ExecutionFinished? ensures ReportedAs(tr, j) { FinishedAsReported(cfg, tr, j); }
    forall i, j | 0 <= i < |tr| && 0 <= j < |tr| && Answering(tr, i, j)
      ensures i < j && tr[i].action == tr[j].action && Faithful(tr[i], tr[j].status)
    {
      RecordedFaithfully(cfg, tr, i, j);
    }
  }

  lemma LaunchesSafe(cfg: Config, tr: Trace)
    requires Replay(cfg, tr).Some?
    ensures EachJustified(cfg, tr) && OncePerStep(tr)
  {
    forall i | 0 <= i < |tr| && tr[i].Launched?
      ensures exists k: Marks :: Justified(cfg, tr[..i], tr[i].step, tr[i].action, k)
    {
      LaunchesJustified(cfg, tr, i);
    }
    forall i, j | 0 <= i < j < |tr| && tr[i].Launched? && tr[j].Launched? ensures tr[i].step != tr[j].step {
      LaunchedOnce(cfg, tr, i, j);
    }
  }

  lemma GrantsSafe(cfg: Config, tr: Trace)
    requires Replay(cfg, tr).Some?
    ensures OncePerGrant(tr) && SpendsIssued(tr)
  {
    forall i, j | 0 <= i < j < |tr| && tr[i].GrantSpent? && tr[j].GrantSpent?
      ensures tr[i].reference != tr[j].reference
    {
      SpentOnce(cfg, tr, i, j);
    }
    forall j | 0 <= j < |tr| && tr[j].GrantSpent? ensures IssuedBefore(tr, j) {
      SpentWasIssued(cfg, tr, j);
    }
  }

  lemma FaultsSafe(cfg: Config, tr: Trace)
    requires Replay(cfg, tr).Some?
    ensures StopsOnFault(tr)
  {
    forall i, j | 0 <= i < j < |tr| && IsFault(tr[i]) && tr[j].Launched?
      ensures exists c :: 0 <= c < i && tr[c] == LaunchCleared(tr[j].step, tr[j].action)
    {
      FailStop(cfg, tr, i, j);
    }
  }

  /** Every history is safe. */
  lemma Safety(cfg: Config, tr: Trace)
    requires Replay(cfg, tr).Some?
    ensures Safe(cfg, tr)
  {
    LaunchesSafe(cfg, tr);
    GrantsSafe(cfg, tr);
    FaultsSafe(cfg, tr);
    AnswersSafe(cfg, tr);
    OutcomesSafe(cfg, tr);
    BudgetsHold(cfg, tr);
    TalliesHold(cfg, tr);
    Balance(cfg, tr);
  }
}
