/** The session, its provider and its evidence store joined: the store calls that a session's history stands for, and
    why the store's finalization never refuses the summary of such a session. */
module SessionEvidence {
  import opened Prelude
  import opened Models
  import opened SessionTrace
  import opened SessionSafety
  import opened SummaryAcceptance
  import C = ConfigurableContract
  import W = ConfigurableWorkflow
  import E = ConfigurableEvidence
  import P = ControlPath
  import S = ControlPlane

  // ---------------------------------------------------------- one event, one call

  /** Events at which the session, or its provider, calls the evidence store. */
  predicate Journaled(e: Event) {
    e.Planned? || e.EvidenceOpened? || e.EvidenceClosed?
  }

  /** The plan document of a planner's decision. */
  predicate Encodes(plan: Plan, choice: W.Choice) {
    plan.done == choice.done && PlanAction(plan) == choice.action && (plan.action.Some? <==> choice.action.Some?)
  }

  /** The call behind an event: the provider returns the decision it has just recorded; an execution is opened with
      its action and step, and closed with its outcome. Everything else about the call is arbitrary. */
  predicate Induces(env: E.Env, b: E.Book, e: Event, op: E.Op) {
    match e
    case Planned(_, plan) =>
      op.RecordDecision?
      && var choice := W.Decide(env.valid, env.scope, op.step, b.records, op.shown);
         choice.Some? && Encodes(plan, choice.value)
    case EvidenceOpened(step, action) => op.Start? && op.action == action && op.step == step
    case EvidenceClosed(_, status) => op.Finish? && op.status == status
    case _ => false
  }

  /** The calls that a session's history stands for, in order; each of them succeeded. */
  ghost predicate Joined(env: E.Env, tr: Trace, calls: seq<E.Call>) {
    if tr == [] then calls == []
    else
      var p, e := tr[..|tr| - 1], tr[|tr| - 1];
      if !Journaled(e) then Joined(env, p, calls)
      else
        calls != []
        && var before := E.Run(env, calls[..|calls| - 1]);
           before.Some? && Joined(env, p, calls[..|calls| - 1])
           && Induces(env, before.value.book, e, calls[|calls| - 1].op)
  }

  lemma DecisionMirrors(env: E.Env, b: E.Book, log: Log, step: nat, plan: Plan, op: E.Op)
    requires Mirrors(b, log) && step == |log.notes| + 1
    requires Induces(env, b, Planned(step, plan), op) && E.EffectOf(env, b, op).Some?
    ensures Mirrors(E.EffectOf(env, b, op).value.book, LogNext(log, Planned(step, plan)))
    ensures FromPlanner(env.valid, env.scope, log.deeds, step, plan)
  {
    var choice := W.Decide(env.valid, env.scope, op.step, b.records, op.shown).value;
    W.ProposesExactly(env.valid, env.scope, op.step, b.records);
    assert Decided(env.valid, env.scope, b.records, step, plan);
    var after := E.EffectOf(env, b, op).value.book.decisions;
    assert SameDecision(after[|log.notes|], Note(step, PlanAction(plan), plan.done));
  }

  lemma StartMirrors(env: E.Env, b: E.Book, log: Log, step: nat, action: Action, op: E.Op)
    requires Mirrors(b, log) && Induces(env, b, EvidenceOpened(step, action), op) && E.EffectOf(env, b, op).Some?
    ensures Mirrors(E.EffectOf(env, b, op).value.book, LogNext(log, EvidenceOpened(step, action)))
  {
    var after, deeds := E.EffectOf(env, b, op).value.book.records, LogNext(log, EvidenceOpened(step, action)).deeds;
    forall i | 0 <= i < |after| ensures TellsOne(after[i], deeds[i]) {
      if i < |b.records| { assert TellsOne(b.records[i], log.deeds[i]); }
    }
  }

  lemma FinishMirrors(env: E.Env, b: E.Book, log: Log, step: nat, status: Status, op: E.Op)
    requires Mirrors(b, log) && Induces(env, b, EvidenceClosed(step, status), op) && E.EffectOf(env, b, op).Some?
    ensures Mirrors(E.EffectOf(env, b, op).value.book, LogNext(log, EvidenceClosed(step, status)))
  {
    var after, deeds := E.EffectOf(env, b, op).value.book.records, LogNext(log, EvidenceClosed(step, status)).deeds;
    forall i | 0 <= i < |after| ensures TellsOne(after[i], deeds[i]) {
      assert TellsOne(b.records[i], log.deeds[i]);
    }
  }

  lemma PlannedStep(cfg: Config, m: Monitor, e: Event)
    requires Next(cfg, m, e).Some? && e.Planned?
    ensures e.step == m.attempted && m.phase.Begun?
  {
  }

  /** One journaled event keeps book and history in step. */
  lemma EventMirrors(env: E.Env, cfg: Config, m: Monitor, b: E.Book, log: Log, e: Event, op: E.Op)
    requires Mirrors(b, log) && Next(cfg, m, e).Some? && NotesCounted(m, BriefOf(log))
    requires Induces(env, b, e, op) && E.EffectOf(env, b, op).Some?
    ensures Mirrors(E.EffectOf(env, b, op).value.book, LogNext(log, e))
    ensures e.Planned? ==> FromPlanner(env.valid, env.scope, log.deeds, e.step, e.plan)
  {
    match e
    case Planned(step, plan) =>
      PlannedStep(cfg, m, e);
      DecisionMirrors(env, b, log, step, plan, op);
    case EvidenceOpened(step, action) => StartMirrors(env, b, log, step, action, op);
    case EvidenceClosed(step, status) => FinishMirrors(env, b, log, step, status, op);
    case _ =>
  }

  lemma ApplyBook(env: E.Env, s: E.Store, c: E.Call)
    requires E.Apply(env, s, c).Some?
    ensures E.EffectOf(env, s.book, c.op).Some?
    ensures E.Apply(env, s, c).value.book == E.EffectOf(env, s.book, c.op).value.book
  {
  }

  lemma RunLast(env: E.Env, calls: seq<E.Call>)
    requires calls != [] && E.Run(env, calls).Some?
    ensures var before := E.Run(env, calls[..|calls| - 1]);
      before.Some? && E.Run(env, calls) == E.Apply(env, before.value, calls[|calls| - 1])
  {
  }

  lemma DrivenMore(valid: C.Validator, scope: C.Scope, tr: Trace)
    requires tr != [] && PlannerDriven(valid, scope, tr[..|tr| - 1])
    requires var e := tr[|tr| - 1]; e.Planned? ==>
      FromPlanner(valid, scope, LogOf(tr[..|tr| - 1]).deeds, e.step, e.plan)
    ensures PlannerDriven(valid, scope, tr)
  {
    var p := tr[..|tr| - 1];
    forall i | 0 <= i < |tr| && tr[i].Planned?
      ensures FromPlanner(valid, scope, LogOf(tr[..i]).deeds, tr[i].step, tr[i].plan)
    {
      if i < |p| { assert p[i] == tr[i] && p[..i] == tr[..i]; }
    }
  }

  /** Whatever was shown, drawn and measured: the provider's plans are the planner's, and the book of the store tells
      the history of the session. */
  lemma {:induction false} JoinedMirrors(env: E.Env, cfg: Config, tr: Trace, calls: seq<E.Call>)
    requires cfg.offline && cfg.evidence && Replay(cfg, tr).Some?
    requires Joined(env, tr, calls) && E.Run(env, calls).Some?
    ensures PlannerDriven(env.valid, env.scope, tr) && Mirrors(E.Run(env, calls).value.book, LogOf(tr))
    decreases |tr|
  {
    if tr != [] {
      var p, e := tr[..|tr| - 1], tr[|tr| - 1];
      if Journaled(e) {
        var front, c := calls[..|calls| - 1], calls[|calls| - 1];
        RunLast(env, calls);
        JoinedMirrors(env, cfg, p, front);
        HistoryKeeps(cfg, env.valid, env.scope, p);
        var s := E.Run(env, front).value;
        ApplyBook(env, s, c);
        EventMirrors(env, cfg, Replay(cfg, p).value, s.book, LogOf(p), e, c.op);
      } else {
        JoinedMirrors(env, cfg, p, calls);
      }
      DrivenMore(env.valid, env.scope, tr);
    }
  }

  // ------------------------------------------------------------ no open record

  /** An evidence record is open. */
  predicate Recording(phase: Phase) {
    phase.Opened? || phase.Started? || phase.Cleared? || phase.Running? || phase.Ran?
  }

  /** Every deed is closed, except for the last one while a record is open. */
  ghost predicate Shut(phase: Phase, deeds: seq<Deed>) {
    && (forall i :: 0 <= i < |deeds| - 1 ==> deeds[i].status.Some?)
    && (deeds != [] ==> (Last(deeds).status.None? <==> Recording(phase)))
    && (Recording(phase) ==> deeds != [])
  }

  predicate RecordingMoves(m: Monitor, e: Event, n: Monitor) {
    && (Recording(n.phase) <==> e.EvidenceOpened? || (Recording(m.phase) && !e.EvidenceClosed?))
    && (e.EvidenceOpened? ==> !Recording(m.phase)) && (e.EvidenceClosed? ==> Recording(m.phase))
  }

  lemma RecordingLaunch(cfg: Config, m: Monitor, e: Event)
    requires cfg.evidence && NextLaunch(cfg, m, e).Some?
    ensures RecordingMoves(m, e, NextLaunch(cfg, m, e).value)
  {
  }

  lemma RecordingDecision(cfg: Config, m: Monitor, e: Event)
    requires cfg.evidence && NextDecision(cfg, m, e).Some? && NextLaunch(cfg, m, e).None?
    ensures RecordingMoves(m, e, NextDecision(cfg, m, e).value)
  {
  }

  lemma RecordingPlan(cfg: Config, m: Monitor, e: Event)
    requires cfg.evidence && NextStep(cfg, m, e).Some? && NextDecision(cfg, m, e).None?
    ensures RecordingMoves(m, e, NextStep(cfg, m, e).value)
  {
  }

  lemma RecordingStep(cfg: Config, m: Monitor, e: Event)
    requires cfg.evidence && Next(cfg, m, e).Some?
    ensures RecordingMoves(m, e, Next(cfg, m, e).value)
  {
    Stretches(cfg, m, e);
    var n := Next(cfg, m, e);
    if n == NextLaunch(cfg, m, e) {
      RecordingLaunch(cfg, m, e);
    } else if NextLaunch(cfg, m, e).None? && n == NextDecision(cfg, m, e) {
      RecordingDecision(cfg, m, e);
    } else if NextDecision(cfg, m, e).None? && n == NextStep(cfg, m, e) {
      RecordingPlan(cfg, m, e);
    }
  }

  lemma ShutStep(before: Phase, after: Phase, log: Log, e: Event)
    requires Shut(before, log.deeds) && (e.EvidenceOpened? ==> !Recording(before))
    requires Recording(after) <==> e.EvidenceOpened? || (Recording(before) && !e.EvidenceClosed?)
    requires e.EvidenceClosed? ==> Recording(before)
    ensures Shut(after, LogNext(log, e).deeds)
  {
  }

  lemma {:induction false} AlwaysShut(cfg: Config, tr: Trace)
    requires cfg.evidence && Replay(cfg, tr).Some?
    ensures Shut(Replay(cfg, tr).value.phase, LogOf(tr).deeds)
  {
    if tr != [] {
      var p, e := tr[..|tr| - 1], tr[|tr| - 1];
      AlwaysShut(cfg, p);
      RecordingStep(cfg, Replay(cfg, p).value, e);
      ShutStep(Replay(cfg, p).value.phase, Replay(cfg, tr).value.phase, LogOf(p), e);
    }
  }

  /** The book has an open record exactly while the session records an execution. */
  lemma OpenExactly(records: seq<W.Record>, deeds: seq<Deed>, phase: Phase)
    requires Tells(records, deeds) && Shut(phase, deeds)
    ensures E.HasOpen(records) <==> Recording(phase)
  {
    if Recording(phase) {
      assert TellsOne(records[|records| - 1], Last(deeds));
      assert records[|records| - 1].Open?;
    } else {
      forall i | 0 <= i < |records| ensures !records[i].Open? { assert TellsOne(records[i], deeds[i]); }
    }
  }

  // ------------------------------------------------------------- the session

  /** The summary a session returns, as the evidence store reads it. */
  function SummaryOf(session: S.AuthoritySession, id: Uuid): E.Summary
    reads session, session.cells
  {
    E.Summary(id, session.cells.status == P.Completed, ReasonText(session.cells.stopReason), session.stepsAttempted,
              session.actionsSucceeded, session.outputReserved, session.execute)
  }

  /** What a session whose provider is the configurable planner returns, executed or dry, completed or stopped, its
      evidence store accepts; and the store has an open record exactly if an execution is still being recorded. */
  lemma SessionAccepted(env: E.Env, session: S.AuthoritySession, calls: seq<E.Call>)
    requires session.Settled() && session.Concluded() && session.offline && session.controller.evidence
    requires session.limits.maxSteps <= 4 && session.limits.maxOutput <= C.MAX_OUTPUT
    requires Joined(env, session.controller.history.trace, calls) && E.Run(env, calls).Some?
    ensures var b := E.Run(env, calls).value.book;
      && E.Acceptable(env, SummaryOf(session, env.session), b)
      && (E.HasOpen(b.records) <==> Recording(session.M().phase))
  {
    var cfg, tr, b := session.controller.history.cfg, session.controller.history.trace, E.Run(env, calls).value.book;
    JoinedMirrors(env, cfg, tr, calls);
    AlwaysShut(cfg, tr);
    OpenExactly(b.records, LogOf(tr).deeds, session.M().phase);
    ReasonsFit(session.cells.stopReason);
    SummaryAccepted(env, cfg, tr, b, SummaryOf(session, env.session));
  }

  /** No event of a session closes the labs. */
  lemma {:induction false} JoinedUnclosed(env: E.Env, tr: Trace, calls: seq<E.Call>)
    requires Joined(env, tr, calls) && E.Run(env, calls).Some?
    ensures E.Run(env, calls).value.book.closure.None?
    decreases |tr|
  {
    if tr != [] {
      var p, e := tr[..|tr| - 1], tr[|tr| - 1];
      if Journaled(e) {
        RunLast(env, calls);
        JoinedUnclosed(env, p, calls[..|calls| - 1]);
        ApplyBook(env, E.Run(env, calls[..|calls| - 1]).value, calls[|calls| - 1]);
      } else {
        JoinedUnclosed(env, p, calls);
      }
    }
  }

  /** The two calls that end an assessment: the first is refused only for an open record, the second never. */
  lemma Finalizes(env: E.Env, b: E.Book, s: E.Summary, receipt: C.Receipt, elapsed: int)
    requires E.Acceptable(env, s, b) && b.closure.None?
    requires C.ValidClosure(env.lab, b.context, receipt) && 0 <= elapsed <= E.MAX_ELAPSED
    ensures var closed := E.EffectOf(env, b, E.CloseLab(receipt));
      var report := E.ReportOf(env, b, s, receipt, elapsed);
      && (closed.Some? <==> !E.HasOpen(b.records))
      && (closed.Some? ==>
            (E.EffectOf(env, closed.value.book, E.Finalize(E.Stated(s, true), elapsed)).Some? <==>
              env.reportSize(report) <= E.MAX_REPORT_BYTES && |env.render(report)| <= E.MAX_REPORT_BYTES))
  {
  }

  /** So unless an execution is still being recorded the labs can be closed, and then finalization writes the report:
      only its size can be out of bounds. */
  lemma SessionFinalized(env: E.Env, session: S.AuthoritySession, calls: seq<E.Call>, receipt: C.Receipt, elapsed: int)
    requires session.Settled() && session.Concluded() && session.offline && session.controller.evidence
    requires session.limits.maxSteps <= 4 && session.limits.maxOutput <= C.MAX_OUTPUT
    requires Joined(env, session.controller.history.trace, calls) && E.Run(env, calls).Some?
    requires C.ValidClosure(env.lab, E.Run(env, calls).value.book.context, receipt) && 0 <= elapsed <= E.MAX_ELAPSED
    ensures var b, s := E.Run(env, calls).value.book, SummaryOf(session, env.session);
      var closed := E.EffectOf(env, b, E.CloseLab(receipt));
      var report := E.ReportOf(env, b, s, receipt, elapsed);
      && (closed.Some? <==> !Recording(session.M().phase))
      && (closed.Some? ==>
            (E.EffectOf(env, closed.value.book, E.Finalize(E.Stated(s, true), elapsed)).Some? <==>
              env.reportSize(report) <= E.MAX_REPORT_BYTES && |env.render(report)| <= E.MAX_REPORT_BYTES))
  {
    SessionAccepted(env, session, calls);
    JoinedUnclosed(env, session.controller.history.trace, calls);
    Finalizes(env, E.Run(env, calls).value.book, SummaryOf(session, env.session), receipt, elapsed);
  }

  // ------------------------------------------------------------ the provider

  /** A decision, as the document the provider returns. */
  function PlanOf(choice: W.Choice, text: string): Plan {
    Plan(if choice.action.None? then None else Some(Proposal(text, choice.action)), choice.done)
  }

  /** What the provider returns is the decision of the call it made. */
  lemma ProviderInduces(env: E.Env, b: E.Book, step: nat, next: int, shown: W.Shown, choice: W.Choice, text: string)
    requires W.Decide(env.valid, env.scope, next, b.records, shown) == Some(choice)
    ensures Induces(env, b, Planned(step, PlanOf(choice, text)), E.RecordDecision(next, shown))
  {
  }
}
