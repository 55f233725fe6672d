/** The evidence store of a configurable assessment and the inspector that re-derives everything from its
    journal with guards of its own (recon_cockpit/secure_agent/configurable_evidence.py, evidence.py). */
module ConfigurableEvidence {
  import opened Prelude
  import opened Models
  import opened ConfigurableContract
  import opened ConfigurableWorkflow

  const MAX_ARTIFACT_BYTES := 32768
  const MAX_REPORT_BYTES := 65536
  const MAX_JOURNAL_BYTES := 65536
  const ENVELOPE_RESERVE := 512
  const MAX_LINES := 14
  const MAX_FILES := 8
  const MAX_ELAPSED := 120000

  /** What is fixed for one assessment, with the parsers and encoders it relies on. `custody` stands for the
      checks of one full result's rows, hashes, lengths and runtime provenance. */
  datatype Env = Env(
    assessment: Uuid,
    session: Uuid,
    policy: nat,
    scope: Scope,
    lab: Lab,
    valid: Validator,
    parse: (nat, string) -> Option<Details>,
    custody: (nat, ToolResult) -> bool,
    body: ToolResult -> string,
    size: ToolResult -> nat,
    lineSize: Payload -> nat,
    reportSize: Report -> nat,
    render: Report -> string)

  /** A journaled decision: the action only by its digest, with the digest of the frame it answers. */
  datatype Chosen = Chosen(step: int, reason: Why, done: bool, digest: Option<Sha<Action>>, shown: Sha<Shown>)

  datatype Summary = Summary(session: Uuid, completed: bool, reason: string, attempted: int, succeeded: int,
    reserved: int, execute: bool)

  /** A summary document: the seven fields, possibly with others beside them, or anything else. */
  datatype Stated = Stated(summary: Summary, extras: bool) | Garbled

  datatype Result = Done | DryRunOnly | Unfinished

  datatype Report = Report(outcome: Result, summary: Summary, records: seq<Record>, decisions: seq<Chosen>,
    closure: Receipt,
                           useful: nat, elapsed: int)

  datatype Payload =
    | DecisionMade(value: Chosen)
    | ExecutionStarted(record: Record)
    | ExecutionFinished(record: Record)
    | LabClosed(receipt: Receipt)
    | Ended(summary: Stated, elapsed: int)
    | Unknown

  /** One journal line of `width` bytes; `wellFormed`: a terminated line with the exact fixed envelope fields. */
  datatype Line = Line(wellFormed: bool, assessment: Uuid, session: Uuid, event: Uuid, width: nat, payload: Payload)

  datatype Name =
    | ManifestName | JournalName | ReportName | MarkdownName | ResultName(execution: Uuid) | OtherName(text: string)

  datatype Content = ManifestDoc(assessment: Uuid) | JournalDoc | ReportDoc(report: Report) | MarkdownDoc(text: string)
    | ResultDoc(result: ToolResult) | OtherDoc(text: string)

  datatype Directory = Directory(files: map<Name, Content>, journal: seq<Line>)

  /** What both sides keep while they go through an assessment. */
  datatype Book = Book(records: seq<Record>, decisions: seq<Chosen>, context: Option<Context>, closure: Option<Receipt>)

  const BLANK := Book([], [], None, None)

  function Entry(decision: Choice, shown: Sha<Shown>): Chosen {
    Chosen(decision.step, decision.reason, decision.done,
           if decision.action.None? then None else Some(Sha256(decision.action.value)), shown)
  }

  predicate HasOpen(records: seq<Record>) {
    exists i :: 0 <= i < |records| && records[i].Open?
  }

  predicate Closing(decisions: seq<Chosen>) {
    decisions != [] && decisions[|decisions| - 1].done
  }

  predicate EvidenceStatus(status: Status) {
    status != DryRun && status != Rejected
  }

  datatype Checked = Checked(context: Option<Context>, observation: Observation)

  /** validate_result(): custody, context, an independent parse of the raw bytes, and the observation. */
  function ValidateResult(env: Env, step: int, status: Status, previous: Option<Context>,
                          result: ToolResult): Option<Checked> {
    if !(1 <= step <= STEPS) || !EvidenceStatus(status) || result.status != status then None
    else match result
      case Bare(_) => if status == Succeeded then None else Some(Checked(previous, Inconclusive(ToolAt(step))))
      case Full(_, at, scope, truncated, raw, observation, lab) =>
        if at != step || truncated != (status == OutputLimit) || scope != env.scope.digest
          || !env.custody(step, result) then None
        else if !ContextStatus(status)
                || !ValidContext(env.lab, previous, step, status == Succeeded && observation.Some?, lab) then None
        else if (if status == Succeeded then env.parse(step, raw) else None) != observation then None
        else match Observe(env.valid, step, status, truncated, observation)
          case None => None
          case Some(seen) => Some(Checked(Some(lab), seen))
  }

  function CompleteRecord(env: Env, open: Record, status: Status, result: ToolResult, seen: Observation): Record
    requires open.Open?
  {
    Complete(open.execution, open.step, open.action, status, seen,
      Artifact(open.execution, Sha256(result), env.size(result)),
             Sha256(Frame(open.step + 1, Some(Seen(status, env.body(result))))))
  }

  // ------------------------------------------------------------------ summary

  function Successes(records: seq<Record>): nat {
    if records == [] then 0
    else
      var last := records[|records| - 1];
      Successes(records[..|records| - 1]) + if last.Complete? && last.status == Succeeded then 1 else 0
  }

  function RecordedOutput(records: seq<Record>): nat {
    if records == [] then 0 else RecordedOutput(records[..|records| - 1]) + records[|records| - 1].action.maxOutput
  }

  function Allowance(scope: Scope, chosen: Chosen): nat {
    if chosen.digest.Some? && 1 <= chosen.step <= STEPS then ActionAt(scope, chosen.step).maxOutput else 0
  }

  function ProposedOutput(scope: Scope, decisions: seq<Chosen>): nat {
    if decisions == [] then 0
    else ProposedOutput(scope, decisions[..|decisions| - 1]) + Allowance(scope, decisions[|decisions| - 1])
  }

  predicate Lower(c: char) {
    'a' <= c <= 'z'
  }

  /** The form of a stop reason: a lower-case word of at most 64 letters, digits and underscores. */
  predicate Slug(s: string) {
    1 <= |s| <= 64 && Lower(s[0]) && forall i :: 1 <= i < |s| ==> Lower(s[i]) || '0' <= s[i] <= '9' || s[i] == '_'
  }

  predicate Bounded(s: Summary) {
    0 <= s.attempted <= 4 && 0 <= s.succeeded <= 4 && 0 <= s.reserved <= MAX_OUTPUT
  }

  /** The counts of a summary against the records and decisions. */
  predicate Reconciled(scope: Scope, s: Summary, records: seq<Record>, decisions: seq<Chosen>) {
    s.succeeded == Successes(records) && |records| <= s.attempted && |decisions| <= s.attempted
    && RecordedOutput(records) <= s.reserved <= ProposedOutput(scope, decisions)
    && (!s.execute ==> records == [])
  }

  /** A completed session must have reached a final decision, and carried it out when it named an action. */
  predicate Terminal(s: Summary, records: seq<Record>, decisions: seq<Chosen>) {
    s.completed ==>
      && (s.reason == "planner_done" || s.reason == "coordinator_done")
      && Closing(decisions)
      && (decisions[|decisions| - 1].digest.Some? ==>
            records != [] && |records| == |decisions|
            && records[|records| - 1].Complete? && records[|records| - 1].status == Succeeded)
  }

  /** _summary() */
  predicate Acceptable(env: Env, s: Summary, book: Book) {
    s.session == env.session && Slug(s.reason) && Bounded(s)
    && Reconciled(env.scope, s, book.records, book.decisions) && Terminal(s, book.records, book.decisions)
  }

  function Useful(records: seq<Record>): nat {
    if records == [] then 0
    else
      var last := records[|records| - 1];
      Useful(records[..|records| - 1]) + if last.Complete? && last.observation.Observed? then 1 else 0
  }

  predicate GatePassed(env: Env, records: seq<Record>, step: nat)
    requires 1 <= step <= |records|
  {
    records[step - 1].Complete? && PredecessorGate(env.valid, step, records[step - 1].observation)
  }

  /** _report() */
  function ReportOf(env: Env, book: Book, s: Summary, closure: Receipt, elapsed: int): Report {
    var useful := Useful(book.records);
    var completed := s.execute && s.completed && |book.records| == 4 && useful == 4
      && GatePassed(env, book.records, 1) && GatePassed(env, book.records, 3);
    Report(if completed then Done else if !s.execute then DryRunOnly else Unfinished, s, book.records, book.decisions,
           closure, useful, elapsed)
  }

  // -------------------------------------------------------------------- store

  datatype Store = Store(book: Book, files: map<Name, Content>, journal: seq<Line>, events: set<Uuid>,
    executions: set<Uuid>,
                         bytes: nat, finalized: bool)

  datatype Op =
    | RecordDecision(step: int, shown: Shown)
    | Start(action: Action, policy: nat, session: Uuid, step: int, execution: Uuid)
    | Finish(execution: Uuid, result: ToolResult, status: Status)
    | CloseLab(receipt: Receipt)
    | Finalize(summary: Stated, elapsed: int)

  /** One call, with the event identifier drawn for its journal line and the bytes that line takes. */
  datatype Call = Call(op: Op, event: Uuid, width: nat)

  /** What a call that passes its guards would write. */
  datatype Effect = Effect(book: Book, payload: Payload, files: map<Name, Content>)

  function FirstFiles(env: Env): map<Name, Content> {
    map[ManifestName := ManifestDoc(env.assessment), JournalName := JournalDoc]
  }

  function Fresh(env: Env): Store {
    Store(BLANK, FirstFiles(env), [], {}, {}, 0, false)
  }

  function DecisionEffect(env: Env, b: Book, step: int, shown: Shown): Option<Effect> {
    if step != |b.decisions| + 1 || b.closure.Some? || HasOpen(b.records) || Closing(b.decisions) then None
    else match Decide(env.valid, env.scope, step, b.records, shown)
      case None => None
      case Some(d) =>
        var value := Entry(d, Sha256(shown));
        Some(Effect(b.(decisions := b.decisions + [value]), DecisionMade(value), map[]))
  }

  function StartEffect(env: Env, b: Book, action: Action, policy: nat, session: Uuid, step: int,
                       execution: Uuid): Option<Effect> {
    if session != env.session || policy != env.policy || b.closure.Some? || step != |b.records| + 1 then None
    else if !(1 <= step <= STEPS) || action != ActionAt(env.scope, step) || HasOpen(b.records) then None
    else if b.decisions == [] || b.decisions[|b.decisions| - 1].digest != Some(Sha256(action)) then None
    else
      var row := Open(execution, step, action);
      Some(Effect(b.(records := b.records + [row]), ExecutionStarted(row), map[]))
  }

  function FinishEffect(env: Env, b: Book, execution: Uuid, result: ToolResult, status: Status): Option<Effect> {
    var n := |b.records| - 1;
    if n < 0 || b.records[n].execution != execution || !b.records[n].Open? then None
    else match ValidateResult(env, b.records[n].step, status, b.context, result)
      case None => None
      case Some(checked) =>
        if env.size(result) > MAX_ARTIFACT_BYTES then None
        else
          var row := CompleteRecord(env, b.records[n], status, result, checked.observation);
          Some(Effect(b.(records := b.records[..n] + [row], context := checked.context), ExecutionFinished(row),
                      map[ResultName(execution) := ResultDoc(result)]))
  }

  function CloseEffect(env: Env, b: Book, receipt: Receipt): Option<Effect> {
    if b.closure.Some? || HasOpen(b.records) || !ValidClosure(env.lab, b.context, receipt) then None
    else Some(Effect(b.(closure := Some(receipt)), LabClosed(receipt), map[]))
  }

  function FinalEffect(env: Env, b: Book, summary: Stated, elapsed: int): Option<Effect> {
    if b.closure.None? || !(0 <= elapsed <= MAX_ELAPSED) || summary.Garbled?
      || !Acceptable(env, summary.summary, b) then None
    else
      var report := ReportOf(env, b, summary.summary, b.closure.value, elapsed);
      if env.reportSize(report) > MAX_REPORT_BYTES || |env.render(report)| > MAX_REPORT_BYTES then None
      else Some(Effect(b, Ended(Stated(summary.summary, false), elapsed),
                       map[ReportName := ReportDoc(report), MarkdownName := MarkdownDoc(env.render(report))]))
  }

  function EffectOf(env: Env, b: Book, op: Op): Option<Effect> {
    match op
    case RecordDecision(step, shown) => DecisionEffect(env, b, step, shown)
    case Start(action, policy, session, step, execution) =>
      StartEffect(env, b, action, policy, session, step, execution)
    case Finish(execution, result, status) => FinishEffect(env, b, execution, result, status)
    case CloseLab(receipt) => CloseEffect(env, b, receipt)
    case Finalize(summary, elapsed) => FinalEffect(env, b, summary, elapsed)
  }

  /** _emit() and _write_new(): the byte reservation, the line, its real length, and only new files. */
  predicate Writable(env: Env, s: Store, e: Effect, event: Uuid, width: nat) {
    event !in s.events && e.files.Keys !! s.files.Keys
    && s.bytes + env.lineSize(e.payload) + ENVELOPE_RESERVE <= MAX_JOURNAL_BYTES && s.bytes + width <= MAX_JOURNAL_BYTES
  }

  function Written(env: Env, s: Store, e: Effect, event: Uuid, width: nat, ends: bool): Store {
    Store(e.book, s.files + e.files, s.journal + [Line(true, env.assessment, env.session, event, width, e.payload)],
          s.events + {event}, s.executions + (if e.payload.ExecutionStarted? then {e.payload.record.execution} else {}),
          s.bytes + width, ends)
  }

  /** Identifiers are drawn, so a new one has never been drawn before. */
  predicate Drawn(s: Store, op: Op) {
    op.Start? ==> op.execution !in s.executions
  }

  /** One call on a store that has not failed; None: it raises and poisons the store. */
  function Apply(env: Env, s: Store, c: Call): Option<Store> {
    var e := EffectOf(env, s.book, c.op);
    if s.finalized || !Drawn(s, c.op) || e.None? || !Writable(env, s, e.value, c.event, c.width) then None
    else Some(Written(env, s, e.value, c.event, c.width, c.op.Finalize?))
  }

  /** A sequence of successful calls on a new store. */
  function Run(env: Env, calls: seq<Call>): Option<Store> {
    if calls == [] then Some(Fresh(env))
    else
      var before := Run(env, calls[..|calls| - 1]);
      if before.None? then None else Apply(env, before.value, calls[|calls| - 1])
  }

  // ---------------------------------------------------------------- inspector

  datatype Replay = Replay(book: Book, final: Option<Report>, events: set<Uuid>, referenced: set<Name>)

  const UNREAD := Replay(BLANK, None, {}, {ManifestName, JournalName, ReportName, MarkdownName})

  function InspectDecision(env: Env, b: Book, value: Chosen): Option<Book> {
    if b.closure.Some? || HasOpen(b.records) || Closing(b.decisions) then None
    else
      var step := |b.decisions| + 1;
      var shown := if b.records != [] then LastShown(b.records) else Some(Sha256(Opening(step)));
      match Expected(env.valid, env.scope, step, b.records)
      case None => None
      case Some(d) => if shown.None? || value != Entry(d, shown.value) then None
        else Some(b.(decisions := b.decisions + [value]))
  }

  predicate Reused(records: seq<Record>, execution: Uuid) {
    exists i :: 0 <= i < |records| && records[i].execution == execution
  }

  function InspectStart(env: Env, b: Book, row: Record): Option<Book> {
    var step := |b.records| + 1;
    if b.closure.Some? || !row.Open? || Reused(b.records, row.execution) || row.step != step then None
    else if step > STEPS || row.action != ActionAt(env.scope, step) || |b.decisions| != step then None
    else if b.decisions[step - 1].digest != Some(Sha256(row.action)) || HasOpen(b.records) then None
    else Some(b.(records := b.records + [row]))
  }

  function InspectFinish(env: Env, b: Book, files: map<Name, Content>, row: Record): Option<Book> {
    var n := |b.records| - 1;
    if n < 0 || !b.records[n].Open? || b.closure.Some? || !row.Complete? then None
    else
      var name := ResultName(b.records[n].execution);
      if row.artifact.execution != name.execution || name !in files || !files[name].ResultDoc? then None
      else
        var result := files[name].result;
        if env.size(result) > MAX_ARTIFACT_BYTES
          || row.artifact != Artifact(name.execution, Sha256(result), env.size(result)) then None
        else match ValidateResult(env, b.records[n].step, row.status, b.context, result)
          case None => None
          case Some(checked) =>
            if row != CompleteRecord(env, b.records[n], row.status, result, checked.observation) then None
            else Some(b.(records := b.records[..n] + [row], context := checked.context))
  }

  function InspectClosure(env: Env, b: Book, receipt: Receipt): Option<Book> {
    if b.closure.Some? || HasOpen(b.records) || !ValidClosure(env.lab, b.context, receipt) then None
    else Some(b.(closure := Some(receipt)))
  }

  function InspectEnd(env: Env, b: Book, summary: Stated, elapsed: int): Option<Report> {
    if b.closure.None? || !(0 <= elapsed <= MAX_ELAPSED) || summary.Garbled?
      || !Acceptable(env, summary.summary, b) then None
    else Some(ReportOf(env, b, summary.summary, b.closure.value, elapsed))
  }

  /** What one payload makes of the book; a report when it is the last one. */
  datatype Turned = Refused | Turned(book: Book, report: Option<Report>)

  function TurnBook(book: Option<Book>): Turned {
    if book.None? then Refused else Turned(book.value, None)
  }

  function InspectPayload(env: Env, b: Book, files: map<Name, Content>, payload: Payload): Turned {
    match payload
    case DecisionMade(value) => TurnBook(InspectDecision(env, b, value))
    case ExecutionStarted(row) => TurnBook(InspectStart(env, b, row))
    case ExecutionFinished(row) => TurnBook(InspectFinish(env, b, files, row))
    case LabClosed(receipt) => TurnBook(InspectClosure(env, b, receipt))
    case Ended(summary, elapsed) =>
      var report := InspectEnd(env, b, summary, elapsed);
      if report.None? then Refused else Turned(b, report)
    case Unknown => Refused
  }

  function Refers(payload: Payload): set<Name> {
    if payload.ExecutionFinished? then {ResultName(payload.record.execution)} else {}
  }

  function InspectLine(env: Env, files: map<Name, Content>, r: Replay, line: Line): Option<Replay> {
    if !line.wellFormed || line.assessment != env.assessment || line.session != env.session || r.final.Some?
       || line.event in r.events then None
    else match InspectPayload(env, r.book, files, line.payload)
      case Refused => None
      case Turned(book, report) => Some(Replay(book, report, r.events + {line.event},
        r.referenced + Refers(line.payload)))
  }

  function InspectLines(env: Env, files: map<Name, Content>, lines: seq<Line>): Option<Replay> {
    if lines == [] then Some(UNREAD)
    else
      var before := InspectLines(env, files, lines[..|lines| - 1]);
      if before.None? then None else InspectLine(env, files, before.value, lines[|lines| - 1])
  }

  function Width(lines: seq<Line>): nat {
    if lines == [] then 0 else Width(lines[..|lines| - 1]) + lines[|lines| - 1].width
  }

  /** The end of the inspection: a final report, exactly the referenced files, and the saved reports unchanged. */
  predicate Reconciles(env: Env, d: Directory, r: Replay) {
    && r.final.Some? && d.files.Keys == r.referenced && ReportName in d.files && MarkdownName in d.files
    && d.files[ReportName] == ReportDoc(r.final.value)
      && d.files[MarkdownName] == MarkdownDoc(env.render(r.final.value))
    && env.reportSize(r.final.value) <= MAX_REPORT_BYTES && |env.render(r.final.value)| <= MAX_REPORT_BYTES
  }

  predicate Readable(env: Env, d: Directory) {
    |d.files| <= MAX_FILES && ManifestName in d.files && d.files[ManifestName] == ManifestDoc(env.assessment)
    && JournalName in d.files && d.files[JournalName] == JournalDoc
    && Width(d.journal) <= MAX_JOURNAL_BYTES && |d.journal| <= MAX_LINES
  }

  /** inspect_assessment(), as a function: the report, or None for an incomplete assessment. */
  function Inspect(env: Env, d: Directory): Option<Report> {
    if !Readable(env, d) then None
    else match InspectLines(env, d.files, d.journal)
      case None => None
      case Some(r) => if Reconciles(env, d, r) then r.final else None
  }
}
