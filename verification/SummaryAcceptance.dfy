/** Finalization never refuses an honest run: the summary of every session that the configurable planner drove
    passes all checks of the evidence store. */
module SummaryAcceptance {
  import opened Prelude
  import opened Models
  import opened SessionTrace
  import opened SessionSafety
  import C = ConfigurableContract
  import W = ConfigurableWorkflow
  import E = ConfigurableEvidence
  import opened Execution
  import opened SessionProtocol
  import P = ControlPath

  /** A planner decision and an execution record, as far as the session's history shows them. */
  datatype Note = Note(step: nat, action: Option<Action>, done: bool)
  datatype Deed = Deed(step: nat, action: Action, status: Option<Status>)
  datatype Log = Log(notes: seq<Note>, deeds: seq<Deed>)

  function PlanAction(plan: Plan): Option<Action> {
    if plan.action.Some? then plan.action.value.parsed else None
  }

  function LogNext(log: Log, e: Event): Log {
    match e
    case Planned(s, plan) => log.(notes := log.notes + [Note(s, PlanAction(plan), plan.done)])
    case EvidenceOpened(s, a) => log.(deeds := log.deeds + [Deed(s, a, None)])
    case EvidenceClosed(_, status) =>
      if log.deeds == [] then log
      else log.(deeds := log.deeds[..|log.deeds| - 1] + [log.deeds[|log.deeds| - 1].(status := Some(status))])
    case _ => log
  }

  function LogOf(tr: Trace): Log {
    if tr == [] then Log([], []) else LogNext(LogOf(tr[..|tr| - 1]), tr[|tr| - 1])
  }

  function Last<T>(s: seq<T>): T
    requires s != []
  {
    s[|s| - 1]
  }

  // ------------------------------------------------------------ the planner

  /** Evidence records with the actions and statuses the session has seen. */
  ghost predicate Tells(records: seq<W.Record>, deeds: seq<Deed>) {
    |records| == |deeds| && forall i :: 0 <= i < |records| ==> TellsOne(records[i], deeds[i])
  }

  predicate TellsOne(record: W.Record, deed: Deed) {
    record.action == deed.action && record.step == deed.step
    && (if deed.status.Some? then record.Complete? && record.status == deed.status.value else record.Open?)
  }

  /** The plan is the planner's decision for records that tell this history. */
  ghost predicate FromPlanner(valid: C.Validator, scope: C.Scope, deeds: seq<Deed>, step: nat, plan: Plan) {
    exists records :: Tells(records, deeds) && Decided(valid, scope, records, step, plan)
  }

  predicate Decided(valid: C.Validator, scope: C.Scope, records: seq<W.Record>, step: nat, plan: Plan) {
    var choice := W.Expected(valid, scope, step, records);
    choice.Some? && plan.done == choice.value.done && PlanAction(plan) == choice.value.action
    && (plan.action.Some? <==> choice.value.action.Some?)
  }

  /** Every plan the provider returned was the planner's. */
  ghost predicate PlannerDriven(valid: C.Validator, scope: C.Scope, tr: Trace) {
    forall i :: 0 <= i < |tr| && tr[i].Planned? ==>
      FromPlanner(valid, scope, LogOf(tr[..i]).deeds, tr[i].step, tr[i].plan)
  }

  /** What that means for one plan. */
  predicate PlannerNote(scope: C.Scope, deeds: seq<Deed>, step: nat, plan: Plan) {
    && 1 <= step <= C.STEPS && (plan.done <==> plan.action.None? || step == C.STEPS)
    && (plan.action.Some? ==>
          && PlanAction(plan) == Some(C.ActionAt(scope, step)) && |deeds| == step - 1
          && forall i :: 0 <= i < |deeds| ==> deeds[i].status == Some(Succeeded))
  }

  lemma PlannerSays(valid: C.Validator, scope: C.Scope, deeds: seq<Deed>, step: nat, plan: Plan)
    requires FromPlanner(valid, scope, deeds, step, plan)
    ensures PlannerNote(scope, deeds, step, plan)
  {
    var records :| Tells(records, deeds) && Decided(valid, scope, records, step, plan);
    if plan.action.Some? {
      W.ProposesExactly(valid, scope, step, records);
      forall i | 0 <= i < |deeds| ensures deeds[i].status == Some(Succeeded) {
        assert TellsOne(records[i], deeds[i]) && W.Sound(valid, scope, i + 1, records[i]);
      }
    }
  }

  // -------------------------------------------------------------- invariants

  function Successes(deeds: seq<Deed>): nat {
    if deeds == [] then 0 else Successes(deeds[..|deeds| - 1]) + if Last(deeds).status == Some(Succeeded) then 1 else 0
  }

  function Paid(deeds: seq<Deed>): nat {
    if deeds == [] then 0 else Paid(deeds[..|deeds| - 1]) + Last(deeds).action.maxOutput
  }

  function Cost(action: Option<Action>): nat {
    if action.Some? then action.value.maxOutput else 0
  }

  function Allowed(notes: seq<Note>): nat {
    if notes == [] then 0 else Allowed(notes[..|notes| - 1]) + Cost(Last(notes).action)
  }

  /** The log in figures: how many entries, the last of each kind, and the totals. */
  datatype Brief = Brief(notes: nat, note: Option<Note>, deeds: nat, deed: Option<Deed>, good: nat, paid: nat,
    allowed: nat)

  function BriefOf(log: Log): Brief {
    Brief(|log.notes|, if log.notes == [] then None else Some(Last(log.notes)),
          |log.deeds|, if log.deeds == [] then None else Some(Last(log.deeds)),
          Successes(log.deeds), Paid(log.deeds), Allowed(log.notes))
  }

  function BriefNext(b: Brief, e: Event): Brief {
    match e
    case Planned(s, plan) =>
      b.(notes := b.notes + 1, note := Some(Note(s, PlanAction(plan), plan.done)),
        allowed := b.allowed + Cost(PlanAction(plan)))
    case EvidenceOpened(s, a) => b.(deeds := b.deeds + 1, deed := Some(Deed(s, a, None)), paid := b.paid + a.maxOutput)
    case EvidenceClosed(_, status) =>
      if b.deed.None? then b
      else b.(deed := Some(b.deed.value.(status := Some(status))), good := b.good + if status == Succeeded then 1
        else 0)
    case _ => b
  }

  lemma Appended<T>(s: seq<T>, x: T)
    ensures (s + [x])[..|s|] == s && (s + [x])[|s|] == x && |s + [x]| == |s| + 1
  {
  }

  lemma NoteAdded(notes: seq<Note>, x: Note)
    ensures Last(notes + [x]) == x && Allowed(notes + [x]) == Allowed(notes) + Cost(x.action)
  {
    Appended(notes, x);
  }

  lemma DeedAdded(deeds: seq<Deed>, x: Deed)
    ensures Last(deeds + [x]) == x && Paid(deeds + [x]) == Paid(deeds) + x.action.maxOutput
    ensures Successes(deeds + [x]) == Successes(deeds) + if x.status == Some(Succeeded) then 1 else 0
  {
    Appended(deeds, x);
  }

  lemma DeedClosed(deeds: seq<Deed>, status: Status)
    requires deeds != [] && Last(deeds).status.None?
    ensures var closed := deeds[..|deeds| - 1] + [Last(deeds).(status := Some(status))];
      && |closed| == |deeds| && Last(closed) == Last(deeds).(status := Some(status)) && Paid(closed) == Paid(deeds)
      && Successes(closed) == Successes(deeds) + if status == Succeeded then 1 else 0
  {
    DeedAdded(deeds[..|deeds| - 1], Last(deeds).(status := Some(status)));
  }

  lemma BriefNoted(log: Log, note: Note)
    ensures var b := BriefOf(log);
      BriefOf(log.(notes := log.notes + [note])) ==
        b.(notes := b.notes + 1, note := Some(note), allowed := b.allowed + Cost(note.action))
  {
    NoteAdded(log.notes, note);
  }

  lemma BriefOpened(log: Log, deed: Deed)
    requires deed.status.None?
    ensures var b := BriefOf(log);
      BriefOf(log.(deeds := log.deeds + [deed])) ==
        b.(deeds := b.deeds + 1, deed := Some(deed), paid := b.paid + deed.action.maxOutput)
  {
    DeedAdded(log.deeds, deed);
  }

  lemma BriefClosed(log: Log, status: Status)
    requires log.deeds != [] && Last(log.deeds).status.None?
    ensures var b, last := BriefOf(log), Last(log.deeds).(status := Some(status));
      BriefOf(log.(deeds := log.deeds[..|log.deeds| - 1] + [last])) ==
        b.(deed := Some(last), good := b.good + if status == Succeeded then 1 else 0)
  {
    DeedClosed(log.deeds, status);
  }

  lemma BriefStep(log: Log, e: Event)
    requires e.EvidenceClosed? && log.deeds != [] ==> Last(log.deeds).status.None?
    ensures BriefOf(LogNext(log, e)) == BriefNext(BriefOf(log), e)
  {
    if e.Planned? {
      BriefNoted(log, Note(e.step, PlanAction(e.plan), e.plan.done));
    } else if e.EvidenceOpened? {
      BriefOpened(log, Deed(e.step, e.action, None));
    } else if e.EvidenceClosed? && log.deeds != [] {
      BriefClosed(log, e.status);
    } else {
      BriefOther(log, e);
    }
  }

  lemma BriefOther(log: Log, e: Event)
    requires !e.Planned? && !e.EvidenceOpened? && (e.EvidenceClosed? ==> log.deeds == [])
    ensures LogNext(log, e) == log && BriefNext(BriefOf(log), e) == BriefOf(log)
  {
  }

  predicate Proposing(phase: Phase) {
    phase.Consulted? || phase.Released? || phase.Accepted?
  }

  predicate Acting(phase: Phase) {
    Rank(phase) > 0 || phase.Finished?
  }

  predicate Resting(m: Monitor) {
    m.phase.Idle? && !m.halted && m.attempted > 0
  }

  /** Every step has at most one decision: exactly one once it has been answered with a plan. */
  predicate NotesCounted(m: Monitor, b: Brief) {
    && b.notes <= m.attempted && (b.note.None? <==> b.notes == 0)
    && (m.attempted == 0 ==> m.phase.Idle? && !m.final)
    && (m.phase.Begun? ==> b.notes + 1 == m.attempted)
    && (Proposing(m.phase) || Acting(m.phase) || Resting(m) ==> 0 < b.notes == m.attempted)
  }

  predicate Stuck(status: Status) {
    status == Failed || status == Rejected || status == Blocked
  }

  predicate OverStuck(m: Monitor) {
    m.phase.Over? ==> Stuck(m.phase.status)
  }

  /** The last decision is about the current plan, or about the last one carried out. */
  predicate NoteProposed(m: Monitor, b: Brief) {
    && (Proposing(m.phase) ==>
          b.note.Some? && b.note.value.action == PlanAction(m.phase.plan) && b.note.value.done == m.phase.plan.done)
    && (m.phase.Accepted? ==> m.final == m.phase.plan.done)
  }

  predicate NoteActed(m: Monitor, b: Brief) {
    Acting(m.phase) ==> b.note.Some? && b.note.value.action == Some(m.phase.action)
  }

  predicate NoteFinal(m: Monitor, b: Brief) {
    Acting(m.phase) || Resting(m) ==> b.note.Some? && b.note.value.done == m.final
  }

  /** Every opened evidence record is a deed, and the current one is the last. */
  predicate DeedsCounted(m: Monitor, b: Brief) {
    && b.deeds == m.recorded && b.good == m.succeeded
    && (6 <= Rank(m.phase) <= 9 ==> b.deed.Some? && b.deed.value.status.None?)
    && (m.phase.Closed? || m.phase.Finished? ==> b.deed.Some? && b.deed.value.status == Some(m.phase.status))
  }

  function HeldBack(phase: Phase): nat {
    match phase
    case Reserved(a) => a.maxOutput
    case Asked(a, _) => a.maxOutput
    case Redecided(a, _) => a.maxOutput
    case TurnedDown(a) => a.maxOutput
    case Spent(a, _) => a.maxOutput
    case Approved(a) => a.maxOutput
    case _ => 0
  }

  function Due(phase: Phase): nat {
    match phase
    case Consulted(plan) => Cost(PlanAction(plan))
    case Released(plan) => Cost(PlanAction(plan))
    case Accepted(plan) => Cost(PlanAction(plan))
    case Previewed(a) => a.maxOutput
    case _ => 0
  }

  /** What was recorded was reserved before, and what is reserved was proposed before. */
  predicate Financed(m: Monitor, b: Brief) {
    b.paid + HeldBack(m.phase) <= m.reserved && m.reserved + Due(m.phase) <= b.allowed
  }

  lemma NotesCountedLaunch(cfg: Config, m: Monitor, e: Event, b: Brief)
    requires cfg.offline && NotesCounted(m, b) && Moded(cfg, m) && OverStuck(m) && NextLaunch(cfg, m, e).Some?
    ensures NotesCounted(NextLaunch(cfg, m, e).value, BriefNext(b, e))
  {
  }

  lemma NotesCountedDecision(cfg: Config, m: Monitor, e: Event, b: Brief)
    requires cfg.offline && NotesCounted(m, b) && Moded(cfg, m) && OverStuck(m) && NextDecision(cfg, m, e).Some?
    requires NextLaunch(cfg, m, e).None?
    ensures NotesCounted(NextDecision(cfg, m, e).value, BriefNext(b, e))
  {
  }

  lemma NotesCountedPlan(cfg: Config, m: Monitor, e: Event, b: Brief)
    requires cfg.offline && NotesCounted(m, b) && Moded(cfg, m) && OverStuck(m) && NextStep(cfg, m, e).Some?
    requires NextDecision(cfg, m, e).None?
    ensures NotesCounted(NextStep(cfg, m, e).value, BriefNext(b, e))
  {
  }

  lemma OverStuckStep(cfg: Config, m: Monitor, e: Event)
    requires OverStuck(m) && Next(cfg, m, e).Some?
    ensures OverStuck(Next(cfg, m, e).value)
  {
  }

  lemma NoteProposedLaunch(cfg: Config, m: Monitor, e: Event, b: Brief)
    requires cfg.offline && NoteProposed(m, b) && NextLaunch(cfg, m, e).Some?
    ensures NoteProposed(NextLaunch(cfg, m, e).value, BriefNext(b, e))
  {
  }

  lemma NoteProposedDecision(cfg: Config, m: Monitor, e: Event, b: Brief)
    requires cfg.offline && NoteProposed(m, b) && NextDecision(cfg, m, e).Some? && NextLaunch(cfg, m, e).None?
    ensures NoteProposed(NextDecision(cfg, m, e).value, BriefNext(b, e))
  {
  }

  lemma NoteProposedPlan(cfg: Config, m: Monitor, e: Event, b: Brief)
    requires cfg.offline && NoteProposed(m, b) && NextStep(cfg, m, e).Some? && NextDecision(cfg, m, e).None?
    ensures NoteProposed(NextStep(cfg, m, e).value, BriefNext(b, e))
  {
  }

  lemma NoteActedLaunch(cfg: Config, m: Monitor, e: Event, b: Brief)
    requires NoteProposed(m, b) && NoteActed(m, b) && NextLaunch(cfg, m, e).Some?
    ensures NoteActed(NextLaunch(cfg, m, e).value, BriefNext(b, e))
  {
  }

  lemma NoteActedDecision(cfg: Config, m: Monitor, e: Event, b: Brief)
    requires NoteProposed(m, b) && NoteActed(m, b) && NextDecision(cfg, m, e).Some? && NextLaunch(cfg, m, e).None?
    ensures NoteActed(NextDecision(cfg, m, e).value, BriefNext(b, e))
  {
  }

  lemma NoteActedPlan(cfg: Config, m: Monitor, e: Event, b: Brief)
    requires NoteProposed(m, b) && NoteActed(m, b) && NextStep(cfg, m, e).Some? && NextDecision(cfg, m, e).None?
    ensures NoteActed(NextStep(cfg, m, e).value, BriefNext(b, e))
  {
  }

  lemma NoteFinalLaunch(cfg: Config, m: Monitor, e: Event, b: Brief)
    requires NoteProposed(m, b) && NoteFinal(m, b) && Moded(cfg, m) && OverStuck(m) && NextLaunch(cfg, m, e).Some?
    ensures NoteFinal(NextLaunch(cfg, m, e).value, BriefNext(b, e))
  {
  }

  lemma NoteFinalDecision(cfg: Config, m: Monitor, e: Event, b: Brief)
    requires NoteProposed(m, b) && NoteFinal(m, b) && Moded(cfg, m) && OverStuck(m) && NextDecision(cfg, m, e).Some?
    requires NextLaunch(cfg, m, e).None?
    ensures NoteFinal(NextDecision(cfg, m, e).value, BriefNext(b, e))
  {
  }

  lemma NoteFinalPlan(cfg: Config, m: Monitor, e: Event, b: Brief)
    requires NoteProposed(m, b) && NoteFinal(m, b) && Moded(cfg, m) && OverStuck(m) && NextStep(cfg, m, e).Some?
    requires NextDecision(cfg, m, e).None?
    ensures NoteFinal(NextStep(cfg, m, e).value, BriefNext(b, e))
  {
  }

  lemma DeedsCountedLaunch(cfg: Config, m: Monitor, e: Event, b: Brief)
    requires cfg.evidence && DeedsCounted(m, b) && NextLaunch(cfg, m, e).Some?
    ensures DeedsCounted(NextLaunch(cfg, m, e).value, BriefNext(b, e))
  {
  }

  lemma DeedsCountedDecision(cfg: Config, m: Monitor, e: Event, b: Brief)
    requires cfg.evidence && DeedsCounted(m, b) && NextDecision(cfg, m, e).Some? && NextLaunch(cfg, m, e).None?
    ensures DeedsCounted(NextDecision(cfg, m, e).value, BriefNext(b, e))
  {
  }

  lemma DeedsCountedPlan(cfg: Config, m: Monitor, e: Event, b: Brief)
    requires cfg.evidence && DeedsCounted(m, b) && NextStep(cfg, m, e).Some? && NextDecision(cfg, m, e).None?
    ensures DeedsCounted(NextStep(cfg, m, e).value, BriefNext(b, e))
  {
  }

  lemma FinancedLaunch(cfg: Config, m: Monitor, e: Event, b: Brief)
    requires cfg.offline && cfg.evidence && Financed(m, b) && NextLaunch(cfg, m, e).Some?
    ensures Financed(NextLaunch(cfg, m, e).value, BriefNext(b, e))
  {
  }

  lemma FinancedDecision(cfg: Config, m: Monitor, e: Event, b: Brief)
    requires cfg.offline && cfg.evidence && Financed(m, b) && NextDecision(cfg, m, e).Some?
    requires NextLaunch(cfg, m, e).None?
    ensures Financed(NextDecision(cfg, m, e).value, BriefNext(b, e))
  {
  }

  lemma FinancedPlan(cfg: Config, m: Monitor, e: Event, b: Brief)
    requires cfg.offline && cfg.evidence && Financed(m, b) && NextStep(cfg, m, e).Some? && NextDecision(cfg, m, e).None?
    ensures Financed(NextStep(cfg, m, e).value, BriefNext(b, e))
  {
  }

  predicate Current(m: Monitor, b: Brief) {
    b.note.Some? && b.note.value.action.Some? && b.notes == m.attempted
  }

  /** The planner only proposes on complete records: a proposal stands one ahead of the deeds until it is carried
      out. */
  predicate InPace(m: Monitor, b: Brief) {
    Current(m, b) ==>
      && (Proposing(m.phase) || 1 <= Rank(m.phase) <= 5 ==> b.deeds + 1 == b.notes)
      && (Rank(m.phase) >= 6 || m.phase.Finished? ==> b.deeds == b.notes)
  }

  predicate DoneAtFour(m: Monitor, b: Brief) {
    Current(m, b) && b.note.value.done ==> b.notes == 4
  }

  /** After a step that went well the last proposal has been carried out, or only previewed in a dry run. */
  predicate Rested(cfg: Config, m: Monitor, b: Brief) {
    Current(m, b) && Resting(m) ==>
      if cfg.execute then b.deeds == b.notes && b.deed.Some? && b.deed.value.status == Some(Succeeded)
      else b.deeds + 1 == b.notes
  }

  predicate PlannedInPace(b: Brief, e: Event) {
    e.Planned? && PlanAction(e.plan).Some? ==> b.deeds + 1 == e.step && (e.plan.done ==> e.step == 4)
  }

  lemma DoneAtFourLaunch(cfg: Config, m: Monitor, e: Event, b: Brief)
    requires DoneAtFour(m, b) && PlannedInPace(b, e) && NotesCounted(m, b) && NextLaunch(cfg, m, e).Some?
    ensures DoneAtFour(NextLaunch(cfg, m, e).value, BriefNext(b, e))
  {
  }

  lemma DoneAtFourDecision(cfg: Config, m: Monitor, e: Event, b: Brief)
    requires DoneAtFour(m, b) && PlannedInPace(b, e) && NotesCounted(m, b) && NextDecision(cfg, m, e).Some?
    requires NextLaunch(cfg, m, e).None?
    ensures DoneAtFour(NextDecision(cfg, m, e).value, BriefNext(b, e))
  {
  }

  lemma DoneAtFourPlan(cfg: Config, m: Monitor, e: Event, b: Brief)
    requires DoneAtFour(m, b) && PlannedInPace(b, e) && NotesCounted(m, b) && NextStep(cfg, m, e).Some?
    requires NextDecision(cfg, m, e).None?
    ensures DoneAtFour(NextStep(cfg, m, e).value, BriefNext(b, e))
  {
  }

  lemma InPaceLaunch(cfg: Config, m: Monitor, e: Event, b: Brief)
    requires cfg.offline && cfg.evidence && InPace(m, b) && PlannedInPace(b, e) && NotesCounted(m, b)
    requires NextLaunch(cfg, m, e).Some?
    ensures InPace(NextLaunch(cfg, m, e).value, BriefNext(b, e))
  {
  }

  lemma InPaceDecision(cfg: Config, m: Monitor, e: Event, b: Brief)
    requires cfg.offline && cfg.evidence && InPace(m, b) && PlannedInPace(b, e) && NotesCounted(m, b)
    requires NextDecision(cfg, m, e).Some? && NextLaunch(cfg, m, e).None?
    ensures InPace(NextDecision(cfg, m, e).value, BriefNext(b, e))
  {
  }

  lemma InPacePlan(cfg: Config, m: Monitor, e: Event, b: Brief)
    requires cfg.offline && cfg.evidence && InPace(m, b) && PlannedInPace(b, e) && NotesCounted(m, b)
    requires NextStep(cfg, m, e).Some? && NextDecision(cfg, m, e).None?
    ensures InPace(NextStep(cfg, m, e).value, BriefNext(b, e))
  {
  }

  lemma RestedLaunch(cfg: Config, m: Monitor, e: Event, b: Brief)
    requires cfg.offline && cfg.evidence && Rested(cfg, m, b) && InPace(m, b) && DeedsCounted(m, b)
    requires NextLaunch(cfg, m, e).Some?
    requires Moded(cfg, m) && OverStuck(m)
    ensures Rested(cfg, NextLaunch(cfg, m, e).value, BriefNext(b, e))
  {
  }

  lemma RestedDecision(cfg: Config, m: Monitor, e: Event, b: Brief)
    requires cfg.offline && cfg.evidence && Rested(cfg, m, b) && InPace(m, b) && DeedsCounted(m, b)
    requires NextDecision(cfg, m, e).Some? && NextLaunch(cfg, m, e).None?
    requires Moded(cfg, m) && OverStuck(m)
    ensures Rested(cfg, NextDecision(cfg, m, e).value, BriefNext(b, e))
  {
  }

  lemma RestedPlan(cfg: Config, m: Monitor, e: Event, b: Brief)
    requires cfg.offline && cfg.evidence && Rested(cfg, m, b) && InPace(m, b) && DeedsCounted(m, b)
    requires NextStep(cfg, m, e).Some? && NextDecision(cfg, m, e).None?
    requires Moded(cfg, m) && OverStuck(m)
    ensures Rested(cfg, NextStep(cfg, m, e).value, BriefNext(b, e))
  {
  }

  predicate DryRunRecordsNothing(cfg: Config, m: Monitor) {
    !cfg.execute ==> m.recorded == 0
  }

  lemma DryRunLaunch(cfg: Config, m: Monitor, e: Event)
    requires DryRunRecordsNothing(cfg, m) && Moded(cfg, m) && NextLaunch(cfg, m, e).Some?
    ensures DryRunRecordsNothing(cfg, NextLaunch(cfg, m, e).value)
  {
  }

  lemma DryRunDecision(cfg: Config, m: Monitor, e: Event)
    requires DryRunRecordsNothing(cfg, m) && Moded(cfg, m) && NextDecision(cfg, m, e).Some?
    requires NextLaunch(cfg, m, e).None?
    ensures DryRunRecordsNothing(cfg, NextDecision(cfg, m, e).value)
  {
  }

  lemma DryRunPlan(cfg: Config, m: Monitor, e: Event)
    requires DryRunRecordsNothing(cfg, m) && Moded(cfg, m) && NextStep(cfg, m, e).Some? && NextDecision(cfg, m, e).None?
    ensures DryRunRecordsNothing(cfg, NextStep(cfg, m, e).value)
  {
  }

  ghost predicate Kept(cfg: Config, m: Monitor, b: Brief) {
    && Moded(cfg, m) && OverStuck(m) && NotesCounted(m, b) && NoteProposed(m, b) && NoteActed(m, b) && NoteFinal(m, b)
    && DeedsCounted(m, b) && Financed(m, b) && DoneAtFour(m, b) && InPace(m, b) && Rested(cfg, m, b)
    && DryRunRecordsNothing(cfg, m)
  }

  lemma KeptLaunch(cfg: Config, m: Monitor, e: Event, b: Brief)
    requires cfg.offline && cfg.evidence && Kept(cfg, m, b) && PlannedInPace(b, e) && NextLaunch(cfg, m, e).Some?
    requires Next(cfg, m, e) == NextLaunch(cfg, m, e)
    ensures Kept(cfg, NextLaunch(cfg, m, e).value, BriefNext(b, e))
  {
    ModedStep(cfg, m, e);
    OverStuckStep(cfg, m, e);
    NotesCountedLaunch(cfg, m, e, b);
    NoteProposedLaunch(cfg, m, e, b);
    NoteActedLaunch(cfg, m, e, b);
    NoteFinalLaunch(cfg, m, e, b);
    DeedsCountedLaunch(cfg, m, e, b);
    FinancedLaunch(cfg, m, e, b);
    DoneAtFourLaunch(cfg, m, e, b);
    InPaceLaunch(cfg, m, e, b);
    RestedLaunch(cfg, m, e, b);
    DryRunLaunch(cfg, m, e);
  }

  lemma KeptDecision(cfg: Config, m: Monitor, e: Event, b: Brief)
    requires cfg.offline && cfg.evidence && Kept(cfg, m, b) && PlannedInPace(b, e)
    requires NextDecision(cfg, m, e).Some? && NextLaunch(cfg, m, e).None? && Next(cfg, m, e) == NextDecision(cfg, m, e)
    ensures Kept(cfg, NextDecision(cfg, m, e).value, BriefNext(b, e))
  {
    ModedStep(cfg, m, e);
    OverStuckStep(cfg, m, e);
    NotesCountedDecision(cfg, m, e, b);
    NoteProposedDecision(cfg, m, e, b);
    NoteActedDecision(cfg, m, e, b);
    NoteFinalDecision(cfg, m, e, b);
    DeedsCountedDecision(cfg, m, e, b);
    FinancedDecision(cfg, m, e, b);
    DoneAtFourDecision(cfg, m, e, b);
    InPaceDecision(cfg, m, e, b);
    RestedDecision(cfg, m, e, b);
    DryRunDecision(cfg, m, e);
  }

  lemma KeptPlan(cfg: Config, m: Monitor, e: Event, b: Brief)
    requires cfg.offline && cfg.evidence && Kept(cfg, m, b) && PlannedInPace(b, e)
    requires NextStep(cfg, m, e).Some? && NextDecision(cfg, m, e).None? && Next(cfg, m, e) == NextStep(cfg, m, e)
    ensures Kept(cfg, NextStep(cfg, m, e).value, BriefNext(b, e))
  {
    ModedStep(cfg, m, e);
    OverStuckStep(cfg, m, e);
    NotesCountedPlan(cfg, m, e, b);
    NoteProposedPlan(cfg, m, e, b);
    NoteActedPlan(cfg, m, e, b);
    NoteFinalPlan(cfg, m, e, b);
    DeedsCountedPlan(cfg, m, e, b);
    FinancedPlan(cfg, m, e, b);
    DoneAtFourPlan(cfg, m, e, b);
    InPacePlan(cfg, m, e, b);
    RestedPlan(cfg, m, e, b);
    DryRunPlan(cfg, m, e);
  }

  /** Events that only raise a flag or issue a grant leave everything here alone. */
  lemma KeptFlag(cfg: Config, m: Monitor, n: Monitor, b: Brief)
    requires Kept(cfg, m, b) && n.phase == m.phase && n.ledger == m.ledger && n.counts == m.counts
    ensures Kept(cfg, n, b)
  {
  }

  lemma KeptStep(cfg: Config, m: Monitor, e: Event, b: Brief)
    requires cfg.offline && cfg.evidence && Kept(cfg, m, b) && PlannedInPace(b, e) && Next(cfg, m, e).Some?
    ensures Kept(cfg, Next(cfg, m, e).value, BriefNext(b, e))
  {
    Stretches(cfg, m, e);
    var n := Next(cfg, m, e);
    if n == NextLaunch(cfg, m, e) {
      KeptLaunch(cfg, m, e, b);
    } else if NextLaunch(cfg, m, e).None? && n == NextDecision(cfg, m, e) {
      KeptDecision(cfg, m, e, b);
    } else if NextDecision(cfg, m, e).None? && n == NextStep(cfg, m, e) {
      KeptPlan(cfg, m, e, b);
    } else {
      KeptFlag(cfg, m, n.value, b);
    }
  }

  lemma ClosesOpen(cfg: Config, m: Monitor, e: Event)
    requires Next(cfg, m, e).Some? && e.EvidenceClosed?
    ensures 6 <= Rank(m.phase) <= 9
  {
  }

  lemma DrivenPrefix(valid: C.Validator, scope: C.Scope, tr: Trace)
    requires tr != [] && PlannerDriven(valid, scope, tr)
    ensures PlannerDriven(valid, scope, tr[..|tr| - 1])
    ensures tr[|tr| - 1].Planned? ==>
      PlannerNote(scope, LogOf(tr[..|tr| - 1]).deeds, tr[|tr| - 1].step, tr[|tr| - 1].plan)
  {
    var p, e := tr[..|tr| - 1], tr[|tr| - 1];
    forall i | 0 <= i < |p| ensures p[i] == tr[i] && p[..i] == tr[..i] {}
    if e.Planned? {
      assert tr[..|p|] == p && tr[|p|] == e;
      PlannerSays(valid, scope, LogOf(p).deeds, e.step, e.plan);
    }
  }

  lemma PlannedInPaceNow(valid: C.Validator, scope: C.Scope, tr: Trace)
    requires tr != [] && PlannerDriven(valid, scope, tr)
    ensures PlannedInPace(BriefOf(LogOf(tr[..|tr| - 1])), tr[|tr| - 1])
  {
    DrivenPrefix(valid, scope, tr);
  }

  lemma {:induction false} HistoryKeeps(cfg: Config, valid: C.Validator, scope: C.Scope, tr: Trace)
    requires cfg.offline && cfg.evidence && Replay(cfg, tr).Some? && PlannerDriven(valid, scope, tr)
    ensures Kept(cfg, Replay(cfg, tr).value, BriefOf(LogOf(tr)))
  {
    if tr != [] {
      var p, e := tr[..|tr| - 1], tr[|tr| - 1];
      DrivenPrefix(valid, scope, tr);
      HistoryKeeps(cfg, valid, scope, p);
      var m, b := Replay(cfg, p).value, BriefOf(LogOf(p));
      PlannedInPaceNow(valid, scope, tr);
      if e.EvidenceClosed? { ClosesOpen(cfg, m, e); }
      BriefStep(LogOf(p), e);
      KeptStep(cfg, m, e, b);
    }
  }

  // ------------------------------------------------------------- the summary

  /** The planner only ever proposes declared actions. */
  ghost predicate Declared(scope: C.Scope, notes: seq<Note>) {
    forall i :: 0 <= i < |notes| && notes[i].action.Some? ==>
      1 <= notes[i].step <= C.STEPS && notes[i].action.value == C.ActionAt(scope, notes[i].step)
  }

  lemma {:induction false} AlwaysDeclared(valid: C.Validator, scope: C.Scope, tr: Trace)
    requires PlannerDriven(valid, scope, tr)
    ensures Declared(scope, LogOf(tr).notes)
  {
    if tr != [] {
      var p, e := tr[..|tr| - 1], tr[|tr| - 1];
      DrivenPrefix(valid, scope, tr);
      AlwaysDeclared(valid, scope, p);
    }
  }

  predicate SameDecision(chosen: E.Chosen, note: Note) {
    chosen.step == note.step && chosen.done == note.done
    && chosen.digest == if note.action.Some? then Some(Sha256(note.action.value)) else None
  }

  /** The book tells the session's history. */
  ghost predicate Mirrors(book: E.Book, log: Log) {
    && Tells(book.records, log.deeds) && |book.decisions| == |log.notes|
    && forall i :: 0 <= i < |log.notes| ==> SameDecision(book.decisions[i], log.notes[i])
  }

  lemma {:induction false} RecordSums(records: seq<W.Record>, deeds: seq<Deed>)
    requires Tells(records, deeds)
    ensures E.Successes(records) == Successes(deeds) <= |deeds| && E.RecordedOutput(records) == Paid(deeds)
  {
    if records != [] {
      var n := |records| - 1;
      assert TellsOne(records[n], deeds[n]);
      forall i | 0 <= i < n ensures TellsOne(records[..n][i], deeds[..n][i]) { assert TellsOne(records[i], deeds[i]); }
      RecordSums(records[..n], deeds[..n]);
    }
  }

  lemma {:induction false} DecisionSums(scope: C.Scope, decisions: seq<E.Chosen>, notes: seq<Note>)
    requires |decisions| == |notes| && Declared(scope, notes)
    requires forall i :: 0 <= i < |notes| ==> SameDecision(decisions[i], notes[i])
    ensures E.ProposedOutput(scope, decisions) == Allowed(notes)
  {
    if notes != [] {
      var n := |notes| - 1;
      assert SameDecision(decisions[n], notes[n]);
      forall i | 0 <= i < n ensures decisions[..n][i] == decisions[i] && notes[..n][i] == notes[i] {}
      DecisionSums(scope, decisions[..n], notes[..n]);
    }
  }

  /** A session that came to its final plan left a final last decision, carried out when it named an action. */
  lemma FinishedTerminal(cfg: Config, m: Monitor, b: Brief)
    requires Kept(cfg, m, b) && Complete(m)
    ensures b.note.Some? && b.note.value.done
    ensures b.note.value.action.Some? ==> b.deed.Some? && b.deeds == b.notes && b.deed.value.status == Some(Succeeded)
  {
  }

  lemma TerminalHolds(cfg: Config, m: Monitor, log: Log, book: E.Book, s: E.Summary)
    requires Kept(cfg, m, BriefOf(log)) && Mirrors(book, log)
    requires s.completed ==> s.reason == "coordinator_done" && Complete(m)
    ensures E.Terminal(s, book.records, book.decisions)
  {
    if s.completed {
      FinishedTerminal(cfg, m, BriefOf(log));
      assert SameDecision(Last(book.decisions), Last(log.notes));
      if Last(log.notes).action.Some? { assert TellsOne(Last(book.records), Last(log.deeds)); }
    }
  }

  /** Every summary a planner-driven session can produce, executed or dry, completed or stopped, is one that
      finalization accepts. */
  lemma SummaryAccepted(env: E.Env, cfg: Config, tr: Trace, book: E.Book, s: E.Summary)
    requires cfg.offline && cfg.evidence && cfg.limits.maxSteps <= 4 && cfg.limits.maxOutput <= C.MAX_OUTPUT
    requires Replay(cfg, tr).Some? && PlannerDriven(env.valid, env.scope, tr) && Mirrors(book, LogOf(tr))
    requires s.session == env.session && E.Slug(s.reason) && s.execute == cfg.execute
    requires var m := Replay(cfg, tr).value;
      && s.attempted == m.attempted && s.succeeded == m.succeeded && s.reserved == m.reserved
      && (s.completed ==> s.reason == "coordinator_done" && Complete(m))
    ensures E.Acceptable(env, s, book)
  {
    var m, log := Replay(cfg, tr).value, LogOf(tr);
    HistoryKeeps(cfg, env.valid, env.scope, tr);
    BudgetsHold(cfg, tr);
    AlwaysDeclared(env.valid, env.scope, tr);
    RecordSums(book.records, log.deeds);
    DecisionSums(env.scope, book.decisions, log.notes);
    TerminalHolds(cfg, m, log, book, s);
  }

  function StopText(stop: Stop): string {
    match stop
    case SessionCancelled => "session_cancelled"
    case SessionTimeout => "session_timeout"
    case BrokerCallLimit => "broker_call_limit"
    case BrokerTokenLimit => "broker_token_limit"
    case BrokerRequestLimit => "broker_request_limit"
  }

  function ReasonText(reason: P.Reason): string {
    match reason
    case ProtocolError => "coordinator_protocol_error"
    case ProviderFailure => "provider_failed"
    case InvalidProposal => "invalid_proposal"
    case CoordinatorDone => "coordinator_done"
    case ProposalDenied => "proposal_denied"
    case OutputExhausted => "output_limit"
    case ActionEnded(status) => "action_" + StatusText(status)
    case StepsExhausted => "step_limit"
    case ControlStopped(stop) => StopText(stop)
    case ApprovalsUnavailable => "approval_unavailable"
    case CoordinatorFailure => "coordinator_failed"
  }

  predicate Word(s: string) {
    forall i :: 0 <= i < |s| ==> E.Lower(s[i]) || s[i] == '_'
  }

  lemma WordsJoin(a: string, b: string)
    requires Word(a) && Word(b)
    ensures Word(a + b)
  {
  }

  lemma StatusWord(status: Status)
    ensures Word(StatusText(status)) && |StatusText(status)| <= 12
  {
  }

  lemma WordSlug(s: string)
    requires Word(s) && 1 <= |s| <= 64 && E.Lower(s[0])
    ensures E.Slug(s)
  {
  }

  predicate FromCoordinator(reason: P.Reason) {
    reason.ProtocolError? || reason.CoordinatorDone? || reason.CoordinatorFailure? || reason.ApprovalsUnavailable?
  }

  lemma CoordinatorWord(reason: P.Reason)
    requires FromCoordinator(reason)
    ensures Word(ReasonText(reason)) && 1 <= |ReasonText(reason)| <= 64 && E.Lower(ReasonText(reason)[0])
  {
  }

  lemma StopWord(stop: Stop)
    ensures Word(StopText(stop)) && 1 <= |StopText(stop)| <= 64 && E.Lower(StopText(stop)[0])
  {
  }

  lemma ProviderWord(reason: P.Reason)
    requires reason.InvalidProposal? || reason.ProviderFailure?
    ensures Word(ReasonText(reason)) && 1 <= |ReasonText(reason)| <= 64 && E.Lower(ReasonText(reason)[0])
  {
  }

  lemma ReasonWord(reason: P.Reason)
    requires !reason.ActionEnded?
    ensures Word(ReasonText(reason)) && 1 <= |ReasonText(reason)| <= 64 && E.Lower(ReasonText(reason)[0])
  {
    if FromCoordinator(reason) {
      CoordinatorWord(reason);
    } else if reason.ControlStopped? {
      StopWord(reason.stop);
    } else if reason.InvalidProposal? || reason.ProviderFailure? {
      ProviderWord(reason);
    } else {
      assert reason.ProposalDenied? || reason.OutputExhausted? || reason.StepsExhausted?;
    }
  }

  /** Every stop reason of a session has the form the evidence store asks for. */
  lemma ReasonsFit(reason: P.Reason)
    ensures E.Slug(ReasonText(reason))
  {
    if reason.ActionEnded? {
      StatusWord(reason.status);
      assert Word("action_");
      WordsJoin("action_", StatusText(reason.status));
    } else {
      ReasonWord(reason);
    }
    WordSlug(ReasonText(reason));
  }
}
