/** What a report of a configurable assessment means: every outcome, count and record of it, for whatever the inspector
    accepts and whatever the store finalizes (recon_cockpit/secure_agent/configurable_evidence.py). */
module EvidenceReports {
  import opened Prelude
  import opened Models
  import opened ConfigurableContract
  import opened ConfigurableWorkflow
  import opened ConfigurableEvidence
  import opened EvidenceReplay

  // ------------------------------------------------------------ genuine records

  /** A full result is about its step and this scope, is cut off exactly if its status says so, and passes the checks
      of its custody. */
  predicate InCustody(env: Env, step: nat, result: ToolResult)
    requires result.Full?
  {
    result.step == step && result.scope == env.scope.digest && result.truncated == (result.status == OutputLimit)
    && env.custody(step, result)
  }

  /** A record is about the declared action of its step; once complete it names the tool result it was made from, and it
      has an observation exactly if that result succeeded and its raw output parses: what the parser found. */
  predicate Genuine(env: Env, step: nat, row: Record) {
    && 1 <= step <= STEPS && row.step == step && row.action == ActionAt(env.scope, step)
    && (row.Complete? ==>
          var result := row.artifact.digest.of;
          && row.artifact == Artifact(row.execution, Sha256(result), env.size(result))
          && EvidenceStatus(row.status) && result.status == row.status && row.observation.tool == ToolAt(step)
          && (result.Bare? ==> row.status != Succeeded) && (result.Full? ==> InCustody(env, step, result))
          && (row.observation.Observed? <==>
                row.status == Succeeded && result.Full? && env.parse(step, result.raw).Some?)
          && (row.observation.Observed? ==>
                env.parse(step, result.raw) == Some(row.observation.details)
                  && env.valid(step, row.observation.details)))
  }

  /** The result is on file as the record describes it. */
  predicate Saved(files: map<Name, Content>, row: Record) {
    row.Complete? ==>
      ResultName(row.execution) in files && files[ResultName(row.execution)] == ResultDoc(row.artifact.digest.of)
  }

  ghost predicate AllGenuine(env: Env, files: map<Name, Content>, records: seq<Record>) {
    forall i :: 0 <= i < |records| ==> Genuine(env, i + 1, records[i]) && Saved(files, records[i])
  }

  /** What a validated result says about its observation. */
  lemma ValidatedGenuine(env: Env, step: nat, status: Status, previous: Option<Context>, result: ToolResult)
    requires 1 <= step <= STEPS && ValidateResult(env, step, status, previous, result).Some?
    ensures var seen := ValidateResult(env, step, status, previous, result).value.observation;
      && result.status == status && EvidenceStatus(status) && seen.tool == ToolAt(step)
      && (result.Bare? ==> status != Succeeded) && (result.Full? ==> InCustody(env, step, result))
      && (seen.Observed? <==> status == Succeeded && result.Full? && env.parse(step, result.raw).Some?)
      && (seen.Observed? ==> env.parse(step, result.raw) == Some(seen.details) && env.valid(step, seen.details))
  {
  }

  lemma FinishGenuine(env: Env, b: Book, files: map<Name, Content>, row: Record)
    requires Tidy(env, b) && AllGenuine(env, files, b.records) && InspectFinish(env, b, files, row).Some?
    ensures AllGenuine(env, files, InspectFinish(env, b, files, row).value.records)
  {
    var n := |b.records| - 1;
    var open, after := b.records[n], InspectFinish(env, b, files, row).value.records;
    var result := files[ResultName(open.execution)].result;
    ValidatedGenuine(env, n + 1, row.status, b.context, result);
    assert after[n] == row && Genuine(env, n + 1, open);
    forall i | 0 <= i < |after| ensures Genuine(env, i + 1, after[i]) && Saved(files, after[i]) {
      if i < n { assert after[i] == b.records[i]; }
    }
  }

  lemma StartGenuine(env: Env, b: Book, files: map<Name, Content>, row: Record)
    requires AllGenuine(env, files, b.records) && InspectStart(env, b, row).Some?
    ensures AllGenuine(env, files, InspectStart(env, b, row).value.records)
  {
  }

  lemma PayloadGenuine(env: Env, b: Book, files: map<Name, Content>, payload: Payload)
    requires Tidy(env, b) && AllGenuine(env, files, b.records) && InspectPayload(env, b, files, payload).Turned?
    ensures AllGenuine(env, files, InspectPayload(env, b, files, payload).book.records)
  {
    match payload
    case DecisionMade(_) =>
    case ExecutionStarted(row) => StartGenuine(env, b, files, row);
    case ExecutionFinished(row) => FinishGenuine(env, b, files, row);
    case LabClosed(_) =>
    case Ended(_, _) =>
    case Unknown =>
  }

  // ------------------------------------------------------------ from the journal

  function DecisionsIn(lines: seq<Line>): seq<Chosen> {
    if lines == [] then []
    else
      var last := lines[|lines| - 1].payload;
      DecisionsIn(lines[..|lines| - 1]) + if last.DecisionMade? then [last.value] else []
  }

  function FinishedIn(lines: seq<Line>): seq<Record> {
    if lines == [] then []
    else
      var last := lines[|lines| - 1].payload;
      FinishedIn(lines[..|lines| - 1]) + if last.ExecutionFinished? then [last.record] else []
  }

  function ClosuresIn(lines: seq<Line>): seq<Receipt> {
    if lines == [] then []
    else
      var last := lines[|lines| - 1].payload;
      ClosuresIn(lines[..|lines| - 1]) + if last.LabClosed? then [last.receipt] else []
  }

  /** The book is what the journal's lines say. */
  ghost predicate Journaled(b: Book, lines: seq<Line>) {
    && b.decisions == DecisionsIn(lines) && b.records[..Completed(b.records)] == FinishedIn(lines)
    && ClosuresIn(lines) == (if b.closure.Some? then [b.closure.value] else [])
  }

  lemma RecordsJournaled(records: seq<Record>, row: Record)
    ensures row.Open? && (records == [] || records[|records| - 1].Complete?) ==>
      (records + [row])[..Completed(records + [row])] == records[..Completed(records)]
    ensures row.Complete? && records != [] && records[|records| - 1].Open? ==>
      var after := records[..|records| - 1] + [row];
      after[..Completed(after)] == records[..Completed(records)] + [row]
  {
  }

  lemma JournalMore(p: seq<Line>, line: Line)
    ensures DecisionsIn(p + [line]) ==
      DecisionsIn(p) + if line.payload.DecisionMade? then [line.payload.value] else []
    ensures FinishedIn(p + [line]) ==
      FinishedIn(p) + if line.payload.ExecutionFinished? then [line.payload.record] else []
    ensures ClosuresIn(p + [line]) == ClosuresIn(p) + if line.payload.LabClosed? then [line.payload.receipt] else []
  {
    assert (p + [line])[..|p|] == p;
  }

  /** What one payload adds to the book. */
  lemma BookMoves(env: Env, b: Book, files: map<Name, Content>, payload: Payload)
    requires Tidy(env, b) && InspectPayload(env, b, files, payload).Turned?
    ensures var n := InspectPayload(env, b, files, payload).book;
      && n.decisions == b.decisions + (if payload.DecisionMade? then [payload.value] else [])
      && n.records[..Completed(n.records)] ==
           b.records[..Completed(b.records)] + (if payload.ExecutionFinished? then [payload.record] else [])
      && (if payload.LabClosed? then b.closure.None? && n.closure == Some(payload.receipt)
          else n.closure == b.closure)
  {
    LastOpen(b);
    if payload.ExecutionStarted? || payload.ExecutionFinished? { RecordsJournaled(b.records, payload.record); }
  }

  lemma PayloadJournaled(env: Env, b: Book, files: map<Name, Content>, p: seq<Line>, line: Line)
    requires Tidy(env, b) && Journaled(b, p) && InspectPayload(env, b, files, line.payload).Turned?
    ensures Journaled(InspectPayload(env, b, files, line.payload).book, p + [line])
  {
    BookMoves(env, b, files, line.payload);
    JournalMore(p, line);
  }

  /** The last line says how the session ended, as the report repeats it. */
  ghost predicate EndsWith(lines: seq<Line>, report: Report) {
    lines != []
    && var last := lines[|lines| - 1].payload;
       last.Ended? && last.summary.Stated? && last.summary.summary == report.summary && last.elapsed == report.elapsed
  }

  ghost predicate Told(env: Env, files: map<Name, Content>, r: Replay, lines: seq<Line>) {
    && Tidy(env, r.book) && AllGenuine(env, files, r.book.records) && Journaled(r.book, lines)
    && (r.final.Some? ==> EndsWith(lines, r.final.value) && Acceptable(env, r.final.value.summary, r.book))
  }

  lemma LineEnds(env: Env, files: map<Name, Content>, r: Replay, p: seq<Line>, line: Line)
    requires InspectLine(env, files, r, line).Some?
    ensures var n := InspectLine(env, files, r, line).value;
      n.final.Some? ==> EndsWith(p + [line], n.final.value) && Acceptable(env, n.final.value.summary, n.book)
  {
  }

  lemma LineTold(env: Env, files: map<Name, Content>, r: Replay, p: seq<Line>, line: Line)
    requires Told(env, files, r, p) && InspectLine(env, files, r, line).Some?
    ensures Told(env, files, InspectLine(env, files, r, line).value, p + [line])
  {
    TidyPayload(env, r.book, files, line.payload);
    PayloadGenuine(env, r.book, files, line.payload);
    PayloadJournaled(env, r.book, files, p, line);
    LineEnds(env, files, r, p, line);
  }

  lemma NextTold(env: Env, files: map<Name, Content>, r: Replay, lines: seq<Line>, next: Replay)
    requires lines != [] && Told(env, files, r, lines[..|lines| - 1])
    requires InspectLine(env, files, r, lines[|lines| - 1]) == Some(next)
    ensures Told(env, files, next, lines)
  {
    LineTold(env, files, r, lines[..|lines| - 1], lines[|lines| - 1]);
    Rejoined(lines);
  }

  lemma Rejoined(lines: seq<Line>)
    requires lines != []
    ensures lines[..|lines| - 1] + [lines[|lines| - 1]] == lines
  {
  }

  lemma {:induction false} LinesTold(env: Env, files: map<Name, Content>, lines: seq<Line>)
    requires InspectLines(env, files, lines).Some?
    ensures Told(env, files, InspectLines(env, files, lines).value, lines)
  {
    if lines == [] {
      NothingTold(env, files);
    } else {
      LastLine(env, files, lines);
      LinesTold(env, files, lines[..|lines| - 1]);
      NextTold(env, files, InspectLines(env, files, lines[..|lines| - 1]).value, lines,
               InspectLines(env, files, lines).value);
    }
  }

  lemma NothingTold(env: Env, files: map<Name, Content>)
    ensures InspectLines(env, files, []) == Some(UNREAD) && Told(env, files, UNREAD, [])
  {
  }

  // ----------------------------------------------------------------- the counts

  predicate HasObservation(row: Record) {
    row.Complete? && row.observation.Observed?
  }

  predicate HasSucceeded(row: Record) {
    row.Complete? && row.status == Succeeded
  }

  function ObservedAt(records: seq<Record>): set<nat> {
    set i: nat | i < |records| && HasObservation(records[i])
  }

  function SucceededAt(records: seq<Record>): set<nat> {
    set i: nat | i < |records| && HasSucceeded(records[i])
  }

  lemma {:induction false} UsefulCounts(records: seq<Record>)
    ensures Useful(records) == |ObservedAt(records)|
  {
    if records != [] {
      var n := |records| - 1;
      UsefulCounts(records[..n]);
      assert ObservedAt(records) == ObservedAt(records[..n]) + (if HasObservation(records[n]) then {n} else {});
    }
  }

  lemma {:induction false} SuccessesCount(records: seq<Record>)
    ensures Successes(records) == |SucceededAt(records)|
  {
    if records != [] {
      var n := |records| - 1;
      SuccessesCount(records[..n]);
      assert SucceededAt(records) == SucceededAt(records[..n]) + (if HasSucceeded(records[n]) then {n} else {});
    }
  }

  lemma {:induction false} UsefulIfAll(records: seq<Record>)
    requires forall i :: 0 <= i < |records| ==> HasObservation(records[i])
    ensures Useful(records) == |records|
  {
    if records != [] {
      var n := |records| - 1;
      forall i | 0 <= i < n ensures HasObservation(records[..n][i]) { assert HasObservation(records[i]); }
      UsefulIfAll(records[..n]);
    }
  }

  /** Four genuine records, all of them useful and through their gates, are exactly the four the planner calls sound. */
  lemma CompleteMeansSound(env: Env, files: map<Name, Content>, records: seq<Record>)
    requires |records| == STEPS && AllGenuine(env, files, records)
    ensures AllSound(env.valid, env.scope, records) <==>
      Useful(records) == STEPS && GatePassed(env, records, 1) && GatePassed(env, records, 3)
  {
    forall i | 0 <= i < STEPS ensures Genuine(env, i + 1, records[i]) {}
    if AllSound(env.valid, env.scope, records) {
      forall i | 0 <= i < |records| ensures HasObservation(records[i]) {
        assert Sound(env.valid, env.scope, i + 1, records[i]);
      }
      UsefulIfAll(records);
      assert Sound(env.valid, env.scope, 1, records[0]) && Sound(env.valid, env.scope, 3, records[2]);
    }
    if Useful(records) == STEPS && GatePassed(env, records, 1) && GatePassed(env, records, 3) {
      UsefulAll(records);
      forall i | 0 <= i < |records| ensures Sound(env.valid, env.scope, i + 1, records[i]) {
        assert Genuine(env, i + 1, records[i]) && records[i].Complete?;
      }
    }
  }

  // ------------------------------------------------------------------ the report

  /** The outcome is dry run exactly for a dry run, which has no records; completed exactly for an executed and
      completed session with four records the planner calls sound; and incomplete otherwise. */
  ghost predicate OutcomeTrue(env: Env, report: Report) {
    && (report.outcome == DryRunOnly <==> !report.summary.execute)
    && (!report.summary.execute ==> report.records == [] && report.useful == 0)
    && (report.outcome == Done <==>
          report.summary.execute && report.summary.completed && |report.records| == STEPS
          && AllSound(env.valid, env.scope, report.records))
  }

  /** The counts are those of the records. */
  ghost predicate CountsTrue(report: Report) {
    report.useful == |ObservedAt(report.records)| && report.summary.succeeded == |SucceededAt(report.records)|
  }

  /** The session's accounts fit its records and decisions: what has been recorded was reserved and what is reserved was
      proposed, step by step as the reservation table says; and a completed session has carried out its final
      decision. */
  ghost predicate AccountsTrue(env: Env, report: Report) {
    var s := report.summary;
    && s.session == env.session && |report.records| <= |report.decisions| <= s.attempted <= STEPS
    && Reservation(|report.records|) <= s.reserved <= Reservation(|report.decisions|)
    && (s.completed ==>
          && report.decisions != []
          && var last := report.decisions[|report.decisions| - 1];
             && last.done
             && (last.digest.Some? ==>
                   |report.records| == |report.decisions| && HasSucceeded(report.records[|report.records| - 1])))
  }

  lemma {:induction false} RecordedReserved(env: Env, files: map<Name, Content>, records: seq<Record>)
    requires AllGenuine(env, files, records) && |records| <= STEPS
    ensures RecordedOutput(records) == Reservation(|records|)
  {
    if records != [] {
      var n := |records| - 1;
      forall i | 0 <= i < n ensures Genuine(env, i + 1, records[..n][i]) && Saved(files, records[..n][i]) {
        assert records[..n][i] == records[i];
      }
      RecordedReserved(env, files, records[..n]);
      assert Genuine(env, n + 1, records[n]);
      ReservationsAdd(env.scope, n);
    }
  }

  lemma {:induction false} ProposedReserved(scope: Scope, decisions: seq<Chosen>)
    requires |decisions| <= STEPS && forall i :: 0 <= i < |decisions| ==> decisions[i].step == i + 1
    ensures ProposedOutput(scope, decisions) <= Reservation(|decisions|)
  {
    if decisions != [] {
      var n := |decisions| - 1;
      forall i | 0 <= i < n ensures decisions[..n][i].step == i + 1 { assert decisions[..n][i] == decisions[i]; }
      ProposedReserved(scope, decisions[..n]);
      ReservationsAdd(scope, n);
    }
  }

  lemma AccountsHold(env: Env, files: map<Name, Content>, b: Book, s: Summary, closure: Receipt, elapsed: int)
    requires Tidy(env, b) && AllGenuine(env, files, b.records) && Acceptable(env, s, b)
    ensures AccountsTrue(env, ReportOf(env, b, s, closure, elapsed))
  {
    RecordedReserved(env, files, b.records);
    ProposedReserved(env.scope, b.decisions);
  }

  /** Everything in the report is what the journal's lines and the saved results say. */
  ghost predicate FromDirectory(env: Env, d: Directory, report: Report) {
    && AllGenuine(env, d.files, report.records) && report.records == FinishedIn(d.journal)
    && report.decisions == DecisionsIn(d.journal) && ClosuresIn(d.journal) == [report.closure]
    && EndsWith(d.journal, report)
  }

  ghost predicate Truthful(env: Env, d: Directory, report: Report) {
    OutcomeTrue(env, report) && CountsTrue(report) && AccountsTrue(env, report) && FromDirectory(env, d, report)
  }

  lemma OutcomeHolds(env: Env, files: map<Name, Content>, b: Book, s: Summary, closure: Receipt, elapsed: int)
    requires AllGenuine(env, files, b.records) && Acceptable(env, s, b)
    ensures OutcomeTrue(env, ReportOf(env, b, s, closure, elapsed))
    ensures CountsTrue(ReportOf(env, b, s, closure, elapsed))
  {
    UsefulCounts(b.records);
    SuccessesCount(b.records);
    if |b.records| == STEPS { CompleteMeansSound(env, files, b.records); }
  }

  /** Every report the inspector accepts is true. */
  lemma InspectedTruthful(env: Env, d: Directory)
    requires Inspect(env, d).Some?
    ensures Truthful(env, d, Inspect(env, d).value)
  {
    var r := InspectLines(env, d.files, d.journal).value;
    LinesTold(env, d.files, d.journal);
    LinesTotalled(env, d.files, d.journal);
    OutcomeHolds(env, d.files, r.book, r.final.value.summary, r.book.closure.value, r.final.value.elapsed);
    AccountsHold(env, d.files, r.book, r.final.value.summary, r.book.closure.value, r.final.value.elapsed);
    LastOpen(r.book);
  }

  // ------------------------------------------------------------------- the store

  /** Some sequence of successful calls has brought a store to this state. */
  ghost predicate Reachable(env: Env, s: Store) {
    exists calls :: Run(env, calls) == Some(s)
  }

  lemma FreshReachable(env: Env)
    ensures Reachable(env, Fresh(env))
  {
    assert Run(env, []) == Some(Fresh(env));
  }

  lemma ReachableMore(env: Env, s: Store, c: Call)
    requires Reachable(env, s) && Apply(env, s, c).Some?
    ensures Reachable(env, Apply(env, s, c).value)
  {
    var calls :| Run(env, calls) == Some(s);
    assert (calls + [c])[..|calls|] == calls;
    assert Run(env, calls + [c]) == Apply(env, s, c);
  }

  /** What a finished store has on file. */
  ghost predicate Published(env: Env, s: Store, summary: Summary, elapsed: int) {
    && ReportName in s.files && s.files[ReportName].ReportDoc?
    && var report := s.files[ReportName].report;
       && Truthful(env, Directory(s.files, s.journal), report)
       && report.summary == summary && report.elapsed == elapsed
  }

  /** The report a finalization writes is made from the summary it was given. */
  lemma FinalReport(env: Env, s: Store, c: Call)
    requires c.op.Finalize? && Apply(env, s, c).Some?
    ensures c.op.summary.Stated? && s.book.closure.Some? && Apply(env, s, c).value.finalized
    ensures var files := Apply(env, s, c).value.files;
      && ReportName in files
      && files[ReportName] == ReportDoc(
            ReportOf(env, s.book, c.op.summary.summary, s.book.closure.value, c.op.elapsed))
  {
    var e := EffectOf(env, s.book, c.op).value;
    assert ReportName in e.files;
  }

  /** The report of a finished run is true. */
  lemma RunTruthful(env: Env, calls: seq<Call>)
    requires Run(env, calls).Some? && Run(env, calls).value.finalized
    ensures var s := Run(env, calls).value;
      && ReportName in s.files && s.files[ReportName].ReportDoc?
      && Truthful(env, Directory(s.files, s.journal), s.files[ReportName].report)
  {
    Completeness(env, calls);
    InspectedTruthful(env, Directory(Run(env, calls).value.files, Run(env, calls).value.journal));
  }

  /** Every report the store writes is true, and about the summary it was given. */
  lemma FinalizedTruthful(env: Env, s: Store, c: Call)
    requires Reachable(env, s) && c.op.Finalize? && Apply(env, s, c).Some?
    ensures c.op.summary.Stated?
    ensures Published(env, Apply(env, s, c).value, c.op.summary.summary, c.op.elapsed)
  {
    ReachableMore(env, s, c);
    FinalReport(env, s, c);
    var calls :| Run(env, calls) == Some(Apply(env, s, c).value);
    RunTruthful(env, calls);
  }
}
