/** The store and the inspector agree: every journal a legal run writes replays to the identical report, and
    the journals the inspector accepts are exactly those legal runs write, up to three named conditions. */
module EvidenceReplay {
  import opened Prelude
  import opened Models
  import opened ConfigurableContract
  import opened ConfigurableWorkflow
  import opened ConfigurableEvidence

  // ------------------------------------------------- what both sides preserve

  ghost predicate TidyDecisions(env: Env, b: Book) {
    && |b.decisions| <= STEPS
    && (forall i :: 0 <= i < |b.decisions| ==> b.decisions[i].step == i + 1)
    && (forall i :: 0 <= i < |b.decisions| && b.decisions[i].digest.Some? ==>
          b.decisions[i].digest == Some(Sha256(ActionAt(env.scope, i + 1))))
  }

  ghost predicate TidyRecords(b: Book) {
    && |b.records| <= |b.decisions|
    && (forall i :: 0 <= i < |b.records| ==> b.records[i].step == i + 1)
    && (forall i :: 0 <= i < |b.records| - 1 ==> b.records[i].Complete?)
    && (forall i :: 0 <= i < |b.records| && b.records[i].Complete? ==>
          b.records[i].shown.of.Frame? && b.records[i].shown.of.step == i + 2)
    && (b.closure.Some? ==> !HasOpen(b.records))
  }

  ghost predicate Tidy(env: Env, b: Book) {
    TidyDecisions(env, b) && TidyRecords(b)
  }

  /** The store compares digests where the inspector counts decisions: the digests decide the count. */
  lemma DigestMeansStep(env: Env, b: Book, step: nat)
    requires TidyDecisions(env, b) && 1 <= step <= STEPS && b.decisions != []
    requires b.decisions[|b.decisions| - 1].digest == Some(Sha256(ActionAt(env.scope, step)))
    ensures |b.decisions| == step
  {
    if |b.decisions| != step { ActionsDiffer(env.scope, |b.decisions|, step); }
  }

  lemma LastOpen(b: Book)
    requires TidyRecords(b)
    ensures HasOpen(b.records) <==> b.records != [] && b.records[|b.records| - 1].Open?
  {
    if b.records != [] && b.records[|b.records| - 1].Open? { assert b.records[|b.records| - 1].Open?; }
  }

  // ------------------------------------------------ store step => inspector step

  lemma DecisionAgrees(env: Env, b: Book, step: int, shown: Shown)
    requires DecisionEffect(env, b, step, shown).Some?
    ensures var e := DecisionEffect(env, b, step, shown).value;
      e.payload.DecisionMade? && InspectDecision(env, b, e.payload.value) == Some(e.book)
  {
  }

  lemma StartAgrees(env: Env, b: Book, action: Action, policy: nat, session: Uuid, step: int, execution: Uuid)
    requires Tidy(env, b) && !Reused(b.records, execution)
    requires StartEffect(env, b, action, policy, session, step, execution).Some?
    ensures var e := StartEffect(env, b, action, policy, session, step, execution).value;
      e.payload.ExecutionStarted? && InspectStart(env, b, e.payload.record) == Some(e.book)
  {
    DigestMeansStep(env, b, step);
  }

  lemma FinishAgrees(env: Env, b: Book, files: map<Name, Content>, execution: Uuid, result: ToolResult, status: Status)
    requires Tidy(env, b) && FinishEffect(env, b, execution, result, status).Some?
    requires ResultName(execution) in files && files[ResultName(execution)] == ResultDoc(result)
    ensures var e := FinishEffect(env, b, execution, result, status).value;
      e.payload.ExecutionFinished? && InspectFinish(env, b, files, e.payload.record) == Some(e.book)
  {
    LastOpen(b);
  }

  lemma FinalAgrees(env: Env, b: Book, summary: Stated, elapsed: int)
    requires FinalEffect(env, b, summary, elapsed).Some?
    ensures var e := FinalEffect(env, b, summary, elapsed).value;
      e.payload.Ended? && e.book == b && ReportName in e.files && e.files[ReportName].ReportDoc?
      && InspectEnd(env, b, e.payload.summary, elapsed) == Some(e.files[ReportName].report)
  {
  }

  /** Whatever the store accepts, the inspector accepts, with the same book. */
  lemma Agrees(env: Env, b: Book, files: map<Name, Content>, op: Op)
    requires Tidy(env, b) && EffectOf(env, b, op).Some? && (op.Start? ==> !Reused(b.records, op.execution))
    requires var e := EffectOf(env, b, op).value; forall k :: k in e.files ==> k in files && files[k] == e.files[k]
    ensures var e := EffectOf(env, b, op).value;
      && InspectPayload(env, b, files, e.payload).Turned? && InspectPayload(env, b, files, e.payload).book == e.book
      && (InspectPayload(env, b, files, e.payload).report.Some? <==> op.Finalize?)
      && (op.Finalize? ==>
            ReportName in e.files
            && e.files[ReportName] == ReportDoc(InspectPayload(env, b, files, e.payload).report.value))
  {
    match op
    case RecordDecision(step, shown) => DecisionAgrees(env, b, step, shown);
    case Start(action, policy, session, step, execution) =>
      StartAgrees(env, b, action, policy, session, step, execution);
    case Finish(execution, result, status) =>
      assert ResultName(execution) in EffectOf(env, b, op).value.files;
      FinishAgrees(env, b, files, execution, result, status);
    case CloseLab(receipt) =>
    case Finalize(summary, elapsed) => FinalAgrees(env, b, summary, elapsed);
  }

  lemma TidyDecision(env: Env, b: Book, value: Chosen)
    requires Tidy(env, b) && InspectDecision(env, b, value).Some?
    ensures Tidy(env, InspectDecision(env, b, value).value)
  {
  }

  lemma TidyStart(env: Env, b: Book, row: Record)
    requires Tidy(env, b) && InspectStart(env, b, row).Some?
    ensures Tidy(env, InspectStart(env, b, row).value)
  {
    LastOpen(b);
  }

  lemma TidyFinish(env: Env, b: Book, files: map<Name, Content>, row: Record)
    requires Tidy(env, b) && InspectFinish(env, b, files, row).Some?
    ensures Tidy(env, InspectFinish(env, b, files, row).value)
  {
    LastOpen(b);
  }

  lemma TidyPayload(env: Env, b: Book, files: map<Name, Content>, payload: Payload)
    requires Tidy(env, b) && InspectPayload(env, b, files, payload).Turned?
    ensures Tidy(env, InspectPayload(env, b, files, payload).book)
  {
    match payload
    case DecisionMade(value) => TidyDecision(env, b, value);
    case ExecutionStarted(row) => TidyStart(env, b, row);
    case ExecutionFinished(row) => TidyFinish(env, b, files, row);
    case LabClosed(_) =>
    case Ended(_, _) =>
    case Unknown =>
  }

  // ------------------------------------------------------- counting and naming

  /** How many records are complete: only the last one may be open. */
  function Completed(records: seq<Record>): nat {
    if records != [] && records[|records| - 1].Open? then |records| - 1 else |records|
  }

  /** One line for each entry of the book. */
  function Entries(b: Book): nat {
    |b.decisions| + |b.records| + Completed(b.records) + if b.closure.Some? then 1 else 0
  }

  lemma EntriesStep(env: Env, b: Book, files: map<Name, Content>, payload: Payload)
    requires Tidy(env, b) && InspectPayload(env, b, files, payload).Turned?
    ensures var t := InspectPayload(env, b, files, payload);
      && Entries(t.book) + (if t.report.Some? then 1 else 0) == Entries(b) + 1
      && Completed(t.book.records) == Completed(b.records) + if payload.ExecutionFinished? then 1 else 0
  {
    LastOpen(b);
  }

  /** The files of the complete records. */
  function ResultNames(records: seq<Record>): set<Name> {
    set i | 0 <= i < Completed(records) :: ResultName(records[i].execution)
  }

  lemma NamesGrow(records: seq<Record>, row: Record)
    requires records != [] && records[|records| - 1].Open? && row.Complete?
    ensures ResultNames(records[..|records| - 1] + [row]) == ResultNames(records) + {ResultName(row.execution)}
  {
    var n := |records| - 1;
    var grown := records[..n] + [row];
    forall i | 0 <= i < n ensures grown[i] == records[i] {}
    assert grown[n] == row;
    forall name | name in ResultNames(records) ensures name in ResultNames(grown) {
      var i :| 0 <= i < n && name == ResultName(records[i].execution);
      assert grown[i] == records[i];
    }
    assert ResultName(grown[n].execution) in ResultNames(grown);
  }

  lemma NamesKept(records: seq<Record>, row: Record)
    requires (records != [] ==> records[|records| - 1].Complete?) && row.Open?
    ensures ResultNames(records + [row]) == ResultNames(records)
  {
    forall i | 0 <= i < |records| ensures (records + [row])[i] == records[i] {}
  }

  lemma ResultNamesStep(env: Env, b: Book, files: map<Name, Content>, payload: Payload)
    requires Tidy(env, b) && InspectPayload(env, b, files, payload).Turned?
    ensures var t := InspectPayload(env, b, files, payload);
      ResultNames(t.book.records) == ResultNames(b.records) + Refers(payload)
  {
    LastOpen(b);
    if payload.ExecutionFinished? {
      NamesGrow(b.records, payload.record);
    } else if payload.ExecutionStarted? {
      NamesKept(b.records, payload.record);
    }
  }

  lemma ReusedStep(env: Env, b: Book, files: map<Name, Content>, payload: Payload, x: Uuid)
    requires Tidy(env, b) && InspectPayload(env, b, files, payload).Turned?
    ensures var t := InspectPayload(env, b, files, payload);
      Reused(t.book.records, x) <==>
        Reused(b.records, x) || (payload.ExecutionStarted? && payload.record.execution == x)
  {
    var b' := InspectPayload(env, b, files, payload).book;
    var n := |b.records|;
    if payload.ExecutionStarted? {
      assert b'.records == b.records + [payload.record];
      assert b'.records[n] == payload.record;
      forall i | 0 <= i < n ensures b'.records[i] == b.records[i] {}
    } else if payload.ExecutionFinished? {
      assert b'.records == b.records[..n - 1] + [payload.record];
      assert payload.record.execution == b.records[n - 1].execution;
      forall i | 0 <= i < n ensures b'.records[i].execution == b.records[i].execution {}
      if Reused(b.records, x) {
        var i :| 0 <= i < n && b.records[i].execution == x;
        assert b'.records[i].execution == x;
      }
    } else {
      assert b'.records == b.records;
    }
  }

  lemma ReusedAll(env: Env, b: Book, files: map<Name, Content>, payload: Payload, before: set<Uuid>, after: set<Uuid>)
    requires Tidy(env, b) && InspectPayload(env, b, files, payload).Turned?
    requires forall x :: x in before <==> Reused(b.records, x)
    requires after == before + (if payload.ExecutionStarted? then {payload.record.execution} else {})
    ensures forall x :: x in after <==> Reused(InspectPayload(env, b, files, payload).book.records, x)
  {
    forall x ensures x in after <==> Reused(InspectPayload(env, b, files, payload).book.records, x) {
      ReusedStep(env, b, files, payload, x);
    }
  }

  // ------------------------------------------------------------- completeness

  ghost predicate Within(files: map<Name, Content>, all: map<Name, Content>) {
    forall k :: k in files ==> k in all && all[k] == files[k]
  }

  /** The store's tables and the inspector's, line by line. */
  ghost predicate Mirror(env: Env, s: Store, r: Replay) {
    && s.book == r.book && s.events == r.events && Tidy(env, s.book) && s.bytes == Width(s.journal)
    && (s.finalized <==> r.final.Some?)
    && (forall x :: x in s.executions <==> Reused(s.book.records, x))
    && |s.journal| == Entries(s.book) + (if s.finalized then 1 else 0)
  }

  /** The files on disk are the manifest, the journal, one per complete record, and finally the two reports. */
  ghost predicate Shelves(keys: set<Name>, referenced: set<Name>, results: set<Name>, finalized: bool) {
    && referenced == {ManifestName, JournalName, ReportName, MarkdownName} + results
    && keys == {ManifestName, JournalName} + results + (if finalized then {ReportName, MarkdownName} else {})
  }

  ghost predicate Shelved(env: Env, s: Store, r: Replay) {
    && Shelves(s.files.Keys, r.referenced, ResultNames(s.book.records), s.finalized)
    && Within(FirstFiles(env), s.files)
    && (r.final.Some? ==> Reports(env, s.files, r.final.value))
  }

  ghost predicate Reports(env: Env, files: map<Name, Content>, report: Report) {
    && ReportName in files && files[ReportName] == ReportDoc(report)
    && MarkdownName in files && files[MarkdownName] == MarkdownDoc(env.render(report))
    && env.reportSize(report) <= MAX_REPORT_BYTES && |env.render(report)| <= MAX_REPORT_BYTES
  }

  /** The files an effect adds: one result, or the two reports. */
  lemma EffectFiles(env: Env, b: Book, op: Op)
    requires EffectOf(env, b, op).Some?
    ensures var e := EffectOf(env, b, op).value;
      && e.files.Keys == (if op.Finalize? then {ReportName, MarkdownName} else Refers(e.payload))
      && (op.Finalize? ==> e.files[ReportName].ReportDoc? && Reports(env, e.files, e.files[ReportName].report))
      && (op.Start? <==> e.payload.ExecutionStarted?) && (op.Start? ==> e.payload.record.execution == op.execution)
  {
  }

  lemma FreshMirrors(env: Env)
    ensures Mirror(env, Fresh(env), UNREAD) && Shelved(env, Fresh(env), UNREAD)
  {
  }

  /** One successful call: the inspector reads its line and the tables still mirror each other. */
  lemma MirrorStep(env: Env, s: Store, r: Replay, c: Call, files: map<Name, Content>) returns (r': Replay)
    requires Mirror(env, s, r) && Apply(env, s, c).Some? && Within(Apply(env, s, c).value.files, files)
    ensures var s' := Apply(env, s, c).value;
      InspectLine(env, files, r, s'.journal[|s.journal|]) == Some(r') && Mirror(env, s', r')
    ensures r'.referenced == r.referenced + Refers(EffectOf(env, s.book, c.op).value.payload)
    ensures c.op.Finalize? ==> r'.final.Some? && ReportName in EffectOf(env, s.book, c.op).value.files
    ensures c.op.Finalize? ==> EffectOf(env, s.book, c.op).value.files[ReportName] == ReportDoc(r'.final.value)
  {
    var e, s' := EffectOf(env, s.book, c.op).value, Apply(env, s, c).value;
    assert Within(e.files, files) by { assert forall k :: k in e.files ==> k in s'.files && s'.files[k] == e.files[k]; }
    EffectFiles(env, s.book, c.op);
    Agrees(env, s.book, files, c.op);
    TidyPayload(env, s.book, files, e.payload);
    EntriesStep(env, s.book, files, e.payload);
    ReusedAll(env, s.book, files, e.payload, s.executions, s'.executions);
    assert s'.journal[..|s.journal|] == s.journal;
    r' := InspectLine(env, files, r, s'.journal[|s.journal|]).value;
  }

  lemma WrittenFiles(env: Env, s: Store, c: Call)
    requires Apply(env, s, c).Some?
    ensures var e, s' := EffectOf(env, s.book, c.op).value, Apply(env, s, c).value;
      && s'.files.Keys == s.files.Keys + e.files.Keys && Within(s.files, s'.files) && Within(e.files, s'.files)
  {
  }

  lemma WithinTrans(a: map<Name, Content>, b: map<Name, Content>, c: map<Name, Content>)
    requires Within(a, b) && Within(b, c)
    ensures Within(a, c)
  {
  }

  lemma KeysStep(env: Env, s: Store, referenced: set<Name>, c: Call, files: map<Name, Content>)
    requires Tidy(env, s.book) && Apply(env, s, c).Some? && Within(Apply(env, s, c).value.files, files)
    requires forall x :: x in s.executions <==> Reused(s.book.records, x)
    requires Shelves(s.files.Keys, referenced, ResultNames(s.book.records), false)
    ensures var s', payload := Apply(env, s, c).value, EffectOf(env, s.book, c.op).value.payload;
      Shelves(s'.files.Keys, referenced + Refers(payload), ResultNames(s'.book.records), c.op.Finalize?)
  {
    var e := EffectOf(env, s.book, c.op).value;
    EffectFiles(env, s.book, c.op);
    WrittenFiles(env, s, c);
    NamesAfter(env, s, c, files);
    assert c.op.Finalize? ==> Refers(e.payload) == {};
    MoreShelves(s.files.Keys, referenced, ResultNames(s.book.records), Refers(e.payload), c.op.Finalize?);
  }

  lemma ReportsStep(env: Env, s: Store, c: Call)
    requires Apply(env, s, c).Some? && c.op.Finalize?
    ensures var e := EffectOf(env, s.book, c.op).value;
      ReportName in e.files && e.files[ReportName].ReportDoc?
      && Reports(env, Apply(env, s, c).value.files, e.files[ReportName].report)
  {
    EffectFiles(env, s.book, c.op);
    WrittenFiles(env, s, c);
  }

  lemma ShelvedStep(env: Env, s: Store, r: Replay, c: Call, files: map<Name, Content>, r': Replay)
    requires Mirror(env, s, r) && Shelved(env, s, r) && Apply(env, s, c).Some?
    requires Within(Apply(env, s, c).value.files, files)
    requires r'.referenced == r.referenced + Refers(EffectOf(env, s.book, c.op).value.payload)
    requires c.op.Finalize? <==> r'.final.Some?
    requires c.op.Finalize? ==> ReportName in EffectOf(env, s.book, c.op).value.files
    requires c.op.Finalize? ==> EffectOf(env, s.book, c.op).value.files[ReportName] == ReportDoc(r'.final.value)
    ensures Shelved(env, Apply(env, s, c).value, r')
  {
    WrittenFiles(env, s, c);
    WithinTrans(FirstFiles(env), s.files, Apply(env, s, c).value.files);
    KeysStep(env, s, r.referenced, c, files);
    if c.op.Finalize? { ReportsStep(env, s, c); }
  }

  lemma MoreShelves(keys: set<Name>, referenced: set<Name>, results: set<Name>, more: set<Name>, finalized: bool)
    requires Shelves(keys, referenced, results, false) && (finalized ==> more == {})
    ensures Shelves(keys + if finalized then {ReportName, MarkdownName} else more, referenced + more, results + more,
                    finalized)
  {
  }

  lemma NamesAfter(env: Env, s: Store, c: Call, files: map<Name, Content>)
    requires Tidy(env, s.book) && Apply(env, s, c).Some? && Within(Apply(env, s, c).value.files, files)
    requires forall x :: x in s.executions <==> Reused(s.book.records, x)
    ensures ResultNames(Apply(env, s, c).value.book.records)
         == ResultNames(s.book.records) + Refers(EffectOf(env, s.book, c.op).value.payload)
  {
    var e := EffectOf(env, s.book, c.op).value;
    WrittenFiles(env, s, c);
    assert Within(e.files, files) by {
      var s' := Apply(env, s, c).value;
      assert forall k :: k in e.files ==> k in s'.files && s'.files[k] == e.files[k];
    }
    Agrees(env, s.book, files, c.op);
    ResultNamesStep(env, s.book, files, e.payload);
  }

  lemma RunPrefix(env: Env, calls: seq<Call>)
    requires calls != [] && Run(env, calls).Some?
    ensures Run(env, calls[..|calls| - 1]).Some?
    ensures Apply(env, Run(env, calls[..|calls| - 1]).value, calls[|calls| - 1]) == Run(env, calls)
  {
  }

  lemma FilesGrow(env: Env, s: Store, c: Call, files: map<Name, Content>)
    requires Apply(env, s, c).Some? && Within(Apply(env, s, c).value.files, files)
    ensures Within(s.files, files)
  {
    var s' := Apply(env, s, c).value;
    forall k | k in s.files ensures k in files && files[k] == s.files[k] {
      assert k in s'.files && s'.files[k] == s.files[k];
    }
  }

  /** Every prefix of a legal run replays, over any directory that holds its files. */
  lemma {:induction false} RunMirrors(env: Env, calls: seq<Call>, files: map<Name, Content>) returns (r: Replay)
    requires Run(env, calls).Some? && Within(Run(env, calls).value.files, files)
    ensures var s := Run(env, calls).value;
      InspectLines(env, files, s.journal) == Some(r) && Mirror(env, s, r) && Shelved(env, s, r)
  {
    if calls == [] {
      FreshMirrors(env);
      r := UNREAD;
    } else {
      RunPrefix(env, calls);
      var p, c := calls[..|calls| - 1], calls[|calls| - 1];
      var s, s' := Run(env, p).value, Run(env, calls).value;
      FilesGrow(env, s, c, files);
      var q := RunMirrors(env, p, files);
      r := MirrorStep(env, s, q, c, files);
      ShelvedStep(env, s, q, c, files, r);
      assert s'.journal[..|s.journal|] == s.journal && |s'.journal| == |s.journal| + 1;
    }
  }

  lemma FewEntries(env: Env, b: Book)
    requires Tidy(env, b)
    ensures Entries(b) <= MAX_LINES - 1 && Completed(b.records) <= 4
  {
  }

  lemma {:induction false} FewNames(records: seq<Record>, n: nat)
    requires n <= |records|
    ensures |set i | 0 <= i < n :: ResultName(records[i].execution)| <= n
  {
    if n > 0 {
      FewNames(records, n - 1);
      var front := set i | 0 <= i < n - 1 :: ResultName(records[i].execution);
      assert (set i | 0 <= i < n :: ResultName(records[i].execution)) == front + {ResultName(records[n - 1].execution)};
    }
  }

  lemma FewFiles(records: seq<Record>)
    requires Completed(records) <= 4
    ensures |{ManifestName, JournalName} + ResultNames(records) + {ReportName, MarkdownName}| <= MAX_FILES
  {
    FewNames(records, Completed(records));
    assert |{ManifestName, JournalName}| <= 2 && |{ReportName, MarkdownName}| <= 2;
  }

  /** Completeness: whatever a sequence of successful calls that ends in a finalization leaves on disk, the
      inspector accepts, and it returns the identical report. */
  lemma Completeness(env: Env, calls: seq<Call>)
    requires Run(env, calls).Some? && Run(env, calls).value.finalized
    ensures var s := Run(env, calls).value;
      && ReportName in s.files && s.files[ReportName].ReportDoc?
      && Inspect(env, Directory(s.files, s.journal)) == Some(s.files[ReportName].report)
  {
    var s := Run(env, calls).value;
    var r := RunMirrors(env, calls, s.files);
    assert Reports(env, s.files, r.final.value);
    FewEntries(env, s.book);
    FewFiles(s.book.records);
    Bounded64(env, calls);
    assert |s.files| == |s.files.Keys|;
    var d := Directory(s.files, s.journal);
    assert Readable(env, d) && Reconciles(env, d, r);
  }

  lemma {:induction false} Bounded64(env: Env, calls: seq<Call>)
    requires Run(env, calls).Some?
    ensures Run(env, calls).value.bytes <= MAX_JOURNAL_BYTES
  {
    if calls != [] { RunPrefix(env, calls); }
  }

  // ---------------------------------------------------------------- soundness

  function Decided(lines: seq<Line>): nat {
    if lines == [] then 0 else Decided(lines[..|lines| - 1]) + if lines[|lines| - 1].payload.DecisionMade? then 1 else 0
  }

  function Concluded(lines: seq<Line>): nat {
    if lines == [] then 0 else Concluded(lines[..|lines| - 1]) + if lines[|lines| - 1].payload.ExecutionFinished? then
      1 else 0
  }

  /** Each decision comes before any execution, or right after as many executions as there were decisions. */
  ghost predicate InStep(lines: seq<Line>) {
    forall i :: 0 <= i < |lines| && lines[i].payload.DecisionMade? ==>
      Concluded(lines[..i]) == 0 || Concluded(lines[..i]) == Decided(lines[..i])
  }

  /** The bytes the store reserves for a line, envelope included, are there when it is written. */
  ghost predicate Room(env: Env, lines: seq<Line>) {
    forall i :: 0 <= i < |lines| ==>
      Width(lines[..i]) + env.lineSize(lines[i].payload) + ENVELOPE_RESERVE <= MAX_JOURNAL_BYTES
  }

  /** The final summary carries the seven fields and nothing else. */
  ghost predicate Plain(lines: seq<Line>) {
    forall i :: 0 <= i < |lines| && lines[i].payload.Ended? ==>
      lines[i].payload.summary.Stated? && !lines[i].payload.summary.extras
  }

  ghost predicate Orderly(env: Env, lines: seq<Line>) {
    InStep(lines) && Room(env, lines) && Plain(lines)
  }

  lemma OrderlyPrefix(env: Env, lines: seq<Line>)
    requires lines != [] && Orderly(env, lines)
    ensures Orderly(env, lines[..|lines| - 1])
  {
    var p := lines[..|lines| - 1];
    forall i | 0 <= i < |p| ensures p[i] == lines[i] && p[..i] == lines[..i] {}
  }

  ghost predicate Distinct(records: seq<Record>) {
    forall i, j :: 0 <= i < j < |records| ==> records[i].execution != records[j].execution
  }

  /** The call that writes a given payload. */
  function OpFor(env: Env, b: Book, files: map<Name, Content>, payload: Payload): Op
    requires TidyRecords(b) && InspectPayload(env, b, files, payload).Turned?
  {
    match payload
    case DecisionMade(value) =>
      RecordDecision(|b.decisions| + 1, if b.records == [] then Opening(|b.decisions| + 1)
                                        else LastShown(b.records).value.of)
    case ExecutionStarted(row) => Start(row.action, env.policy, env.session, row.step, row.execution)
    case ExecutionFinished(row) => Finish(row.execution, files[ResultName(row.execution)].result, row.status)
    case LabClosed(receipt) => CloseLab(receipt)
    case Ended(summary, elapsed) => Finalize(summary, elapsed)
  }

  lemma DecisionRetraced(env: Env, b: Book, files: map<Name, Content>, value: Chosen)
    requires Tidy(env, b) && InspectDecision(env, b, value).Some? && (b.records == [] || |b.decisions| == |b.records|)
    ensures EffectOf(env, b, OpFor(env, b, files, DecisionMade(value)))
         == Some(Effect(InspectDecision(env, b, value).value, DecisionMade(value), map[]))
  {
    LastOpen(b);
  }

  lemma FinishRetraced(env: Env, b: Book, files: map<Name, Content>, row: Record)
    requires Tidy(env, b) && InspectFinish(env, b, files, row).Some?
    ensures EffectOf(env, b, OpFor(env, b, files, ExecutionFinished(row)))
         == Some(Effect(InspectFinish(env, b, files, row).value, ExecutionFinished(row),
                        map[ResultName(row.execution) := files[ResultName(row.execution)]]))
  {
  }

  lemma StartRetraced(env: Env, b: Book, files: map<Name, Content>, row: Record)
    requires Tidy(env, b) && InspectStart(env, b, row).Some?
    ensures EffectOf(env, b, OpFor(env, b, files, ExecutionStarted(row)))
         == Some(Effect(InspectStart(env, b, row).value, ExecutionStarted(row), map[]))
  {
  }

  lemma FinalRetraced(env: Env, b: Book, files: map<Name, Content>, summary: Stated, elapsed: int)
    requires InspectEnd(env, b, summary, elapsed).Some? && !summary.extras
    requires Reports(env, files, InspectEnd(env, b, summary, elapsed).value)
    ensures var e := FinalEffect(env, b, summary, elapsed);
      e.Some? && e.value.book == b && e.value.payload == Ended(summary, elapsed) && Within(e.value.files, files)
  {
    var report := InspectEnd(env, b, summary, elapsed).value;
    assert FinalEffect(env, b, summary, elapsed) == Some(Effect(b, Ended(summary, elapsed),
      map[ReportName := ReportDoc(report), MarkdownName := MarkdownDoc(env.render(report))]));
  }

  /** The call for an accepted payload writes that payload, into the same book. */
  ghost predicate Writes(env: Env, b: Book, files: map<Name, Content>, payload: Payload)
    requires TidyRecords(b) && InspectPayload(env, b, files, payload).Turned?
  {
    var e, t := EffectOf(env, b, OpFor(env, b, files, payload)), InspectPayload(env, b, files, payload);
    e.Some? && e.value.book == t.book && e.value.payload == payload && Within(e.value.files, files)
  }

  lemma DecisionWrites(env: Env, b: Book, files: map<Name, Content>, value: Chosen)
    requires Tidy(env, b) && InspectPayload(env, b, files, DecisionMade(value)).Turned?
    requires b.records == [] || |b.decisions| == |b.records|
    ensures Writes(env, b, files, DecisionMade(value))
  {
    DecisionRetraced(env, b, files, value);
  }

  lemma StartWrites(env: Env, b: Book, files: map<Name, Content>, row: Record)
    requires Tidy(env, b) && InspectPayload(env, b, files, ExecutionStarted(row)).Turned?
    ensures Writes(env, b, files, ExecutionStarted(row))
  {
    StartRetraced(env, b, files, row);
  }

  lemma FinishWrites(env: Env, b: Book, files: map<Name, Content>, row: Record)
    requires Tidy(env, b) && InspectPayload(env, b, files, ExecutionFinished(row)).Turned?
    ensures Writes(env, b, files, ExecutionFinished(row))
  {
    FinishRetraced(env, b, files, row);
  }

  lemma ClosureWrites(env: Env, b: Book, files: map<Name, Content>, receipt: Receipt)
    requires Tidy(env, b) && InspectPayload(env, b, files, LabClosed(receipt)).Turned?
    ensures Writes(env, b, files, LabClosed(receipt))
  {
  }

  lemma FinalWrites(env: Env, b: Book, files: map<Name, Content>, summary: Stated, elapsed: int)
    requires Tidy(env, b) && InspectPayload(env, b, files, Ended(summary, elapsed)).Turned? && !summary.extras
    requires Reports(env, files, InspectPayload(env, b, files, Ended(summary, elapsed)).report.value)
    ensures Writes(env, b, files, Ended(summary, elapsed))
  {
    FinalRetraced(env, b, files, summary, elapsed);
  }

  /** Whatever the inspector accepts, some call writes, under the conditions for decisions and summaries. */
  lemma Retraced(env: Env, b: Book, files: map<Name, Content>, payload: Payload)
    requires Tidy(env, b) && InspectPayload(env, b, files, payload).Turned?
    requires payload.DecisionMade? ==> b.records == [] || |b.decisions| == |b.records|
    requires payload.Ended? ==>
      !payload.summary.extras && Reports(env, files, InspectPayload(env, b, files, payload).report.value)
    ensures Writes(env, b, files, payload)
  {
    match payload
    case DecisionMade(value) => DecisionWrites(env, b, files, value);
    case ExecutionStarted(row) => StartWrites(env, b, files, row);
    case ExecutionFinished(row) => FinishWrites(env, b, files, row);
    case LabClosed(receipt) => ClosureWrites(env, b, files, receipt);
    case Ended(summary, elapsed) => FinalWrites(env, b, files, summary, elapsed);
  }

  lemma DistinctStep(env: Env, b: Book, files: map<Name, Content>, payload: Payload)
    requires Tidy(env, b) && Distinct(b.records) && InspectPayload(env, b, files, payload).Turned?
    ensures Distinct(InspectPayload(env, b, files, payload).book.records)
    ensures payload.ExecutionFinished? ==> ResultName(payload.record.execution) !in ResultNames(b.records)
  {
    LastOpen(b);
    var n := |b.records|;
    if payload.ExecutionFinished? {
      assert payload.record.execution == b.records[n - 1].execution;
      forall i | 0 <= i < Completed(b.records) ensures b.records[i].execution != payload.record.execution {}
    } else if payload.ExecutionStarted? {
      forall i | 0 <= i < n ensures b.records[i].execution != payload.record.execution {}
    }
  }

  /** Decision and completion lines are counted by the book. */
  lemma {:induction false} LinesCounted(env: Env, files: map<Name, Content>, lines: seq<Line>)
    requires InspectLines(env, files, lines).Some?
    ensures var b := InspectLines(env, files, lines).value.book;
      Tidy(env, b) && Distinct(b.records) && |b.decisions| == Decided(lines) && Completed(b.records) == Concluded(lines)
  {
    if lines != [] {
      var p, line := lines[..|lines| - 1], lines[|lines| - 1];
      LinesCounted(env, files, p);
      var b := InspectLines(env, files, p).value.book;
      TidyPayload(env, b, files, line.payload);
      DistinctStep(env, b, files, line.payload);
      EntriesStep(env, b, files, line.payload);
      DecisionCounted(env, b, files, line.payload);
    }
  }

  lemma DecisionCounted(env: Env, b: Book, files: map<Name, Content>, payload: Payload)
    requires InspectPayload(env, b, files, payload).Turned?
    ensures |InspectPayload(env, b, files, payload).book.decisions| == |b.decisions| + if payload.DecisionMade? then 1
      else 0
  {
  }

  lemma NewFiles(env: Env, b: Book, files: map<Name, Content>, payload: Payload, keys: set<Name>,
                 referenced: set<Name>, added: set<Name>)
    requires Tidy(env, b) && Distinct(b.records) && InspectPayload(env, b, files, payload).Turned?
    requires Shelves(keys, referenced, ResultNames(b.records), false)
    requires added == Refers(payload) || added == {ReportName, MarkdownName}
    ensures added !! keys
  {
    DistinctStep(env, b, files, payload);
  }

  lemma NewExecution(env: Env, s: Store, files: map<Name, Content>, payload: Payload)
    requires Tidy(env, s.book) && InspectPayload(env, s.book, files, payload).Turned?
    requires forall x :: x in s.executions <==> Reused(s.book.records, x)
    ensures Drawn(s, OpFor(env, s.book, files, payload))
  {
  }

  lemma WriteThrough(env: Env, s: Store, c: Call, e: Effect, files: map<Name, Content>)
    requires EffectOf(env, s.book, c.op) == Some(e) && Writable(env, s, e, c.event, c.width) && Drawn(s, c.op)
    requires !s.finalized
    requires Within(s.files, files) && Within(e.files, files)
    ensures Apply(env, s, c).Some?
    ensures Apply(env, s, c).value.journal ==
      s.journal + [Line(true, env.assessment, env.session, c.event, c.width, e.payload)]
    ensures Within(Apply(env, s, c).value.files, files)
  {
  }

  /** One accepted line of an orderly journal is written by a call that the mirrored store accepts. */
  lemma RetraceStep(env: Env, s: Store, r: Replay, files: map<Name, Content>, line: Line) returns (c: Call)
    requires Mirror(env, s, r) && Shelved(env, s, r) && Distinct(s.book.records)
    requires InspectLine(env, files, r, line).Some?
    requires line.payload.DecisionMade? ==> s.book.records == [] || |s.book.decisions| == |s.book.records|
    requires line.payload.Ended? ==> !line.payload.summary.extras
    requires line.payload.Ended? ==> Reports(env, files, InspectLine(env, files, r, line).value.final.value)
    requires s.bytes + env.lineSize(line.payload) + ENVELOPE_RESERVE <= MAX_JOURNAL_BYTES
    requires s.bytes + line.width <= MAX_JOURNAL_BYTES
    requires Within(s.files, files)
    ensures Apply(env, s, c).Some? && Apply(env, s, c).value.journal == s.journal + [line]
    ensures Within(Apply(env, s, c).value.files, files)
  {
    var b, payload := s.book, line.payload;
    var op := OpFor(env, b, files, payload);
    c := Call(op, line.event, line.width);
    Retraced(env, b, files, payload);
    var e := EffectOf(env, b, op).value;
    assert e.files.Keys !! s.files.Keys by {
      EffectFiles(env, b, op);
      NewFiles(env, b, files, payload, s.files.Keys, r.referenced, e.files.Keys);
    }
    NewExecution(env, s, files, payload);
    WriteThrough(env, s, c, e, files);
  }

  /** An orderly accepted journal, line by line, with the reports in place when it is finished. */
  ghost predicate Retraceable(env: Env, files: map<Name, Content>, lines: seq<Line>) {
    && Orderly(env, lines) && Width(lines) <= MAX_JOURNAL_BYTES && InspectLines(env, files, lines).Some?
    && Within(FirstFiles(env), files)
    && var final := InspectLines(env, files, lines).value.final; final.Some? ==> Reports(env, files, final.value)
  }

  lemma RetraceablePrefix(env: Env, files: map<Name, Content>, lines: seq<Line>)
    requires lines != [] && Retraceable(env, files, lines)
    ensures Retraceable(env, files, lines[..|lines| - 1])
  {
    OrderlyPrefix(env, lines);
  }

  /** The conditions a line meets where it stands. */
  lemma LineFits(env: Env, files: map<Name, Content>, lines: seq<Line>)
    requires lines != [] && Retraceable(env, files, lines)
    ensures var p, line := lines[..|lines| - 1], lines[|lines| - 1];
      var b := InspectLines(env, files, p).value.book;
      && (line.payload.DecisionMade? ==> b.records == [] || |b.decisions| == |b.records|)
      && (line.payload.Ended? ==> !line.payload.summary.extras)
      && Width(p) + env.lineSize(line.payload) + ENVELOPE_RESERVE <= MAX_JOURNAL_BYTES
        && Width(p) + line.width <= MAX_JOURNAL_BYTES
  {
    var p, line := lines[..|lines| - 1], lines[|lines| - 1];
    var b := InspectLines(env, files, p).value.book;
    LinesCounted(env, files, p);
    LastOpen(b);
    assert line == lines[|p|] && lines[..|p|] == p;
  }

  /** These calls write exactly these lines, into files that `files` holds too. */
  ghost predicate Wrote(env: Env, calls: seq<Call>, files: map<Name, Content>, lines: seq<Line>) {
    Run(env, calls).Some? && Run(env, calls).value.journal == lines && Within(Run(env, calls).value.files, files)
  }

  lemma WroteMore(env: Env, calls: seq<Call>, c: Call, files: map<Name, Content>, lines: seq<Line>, line: Line)
    requires Run(env, calls).Some? && Apply(env, Run(env, calls).value, c).Some?
    requires Apply(env, Run(env, calls).value, c).value.journal == lines + [line]
    requires Within(Apply(env, Run(env, calls).value, c).value.files, files)
    ensures Wrote(env, calls + [c], files, lines + [line])
  {
    assert (calls + [c])[..|calls|] == calls;
  }

  /** The last line of an accepted journal is accepted where it stands; it ends the journal when it is the summary. */
  lemma LastLine(env: Env, files: map<Name, Content>, lines: seq<Line>)
    requires lines != [] && InspectLines(env, files, lines).Some?
    ensures var p, line := lines[..|lines| - 1], lines[|lines| - 1];
      && InspectLines(env, files, p).Some?
      && InspectLine(env, files, InspectLines(env, files, p).value, line) == InspectLines(env, files, lines)
      && (line.payload.Ended? ==> InspectLines(env, files, lines).value.final.Some?)
  {
  }

  lemma SoundnessStep(env: Env, files: map<Name, Content>, lines: seq<Line>, before: seq<Call>) returns (c: Call)
    requires lines != [] && Retraceable(env, files, lines) && Wrote(env, before, files, lines[..|lines| - 1])
    ensures Wrote(env, before + [c], files, lines[..|lines| - 1] + [lines[|lines| - 1]])
  {
    var p, line := lines[..|lines| - 1], lines[|lines| - 1];
    var s := Run(env, before).value;
    var r := RunMirrors(env, before, files);
    LinesCounted(env, files, p);
    LineFits(env, files, lines);
    LastLine(env, files, lines);
    c := RetraceStep(env, s, r, files, line);
    WroteMore(env, before, c, files, p, line);
  }

  lemma WroteAll(env: Env, calls: seq<Call>, files: map<Name, Content>, lines: seq<Line>)
    requires lines != [] && Wrote(env, calls, files, lines[..|lines| - 1] + [lines[|lines| - 1]])
    ensures Wrote(env, calls, files, lines)
  {
    assert lines[..|lines| - 1] + [lines[|lines| - 1]] == lines;
  }

  lemma WroteNothing(env: Env, files: map<Name, Content>)
    requires Within(FirstFiles(env), files)
    ensures Wrote(env, [], files, [])
  {
  }

  /** Soundness: every orderly journal the inspector accepts is written by a sequence of successful calls. */
  lemma {:induction false} Soundness(env: Env, files: map<Name, Content>, lines: seq<Line>) returns (calls: seq<Call>)
    requires Retraceable(env, files, lines)
    ensures Wrote(env, calls, files, lines)
    decreases |lines|
  {
    if lines == [] {
      WroteNothing(env, files);
      calls := [];
    } else {
      RetraceablePrefix(env, files, lines);
      var before := Soundness(env, files, lines[..|lines| - 1]);
      var c := SoundnessStep(env, files, lines, before);
      calls := before + [c];
      WroteAll(env, calls, files, lines);
    }
  }

  // ---------------------------------------------------------------- exactness

  lemma OrderlyMore(env: Env, lines: seq<Line>, line: Line)
    requires Orderly(env, lines)
    requires line.payload.DecisionMade? ==> Concluded(lines) == 0 || Concluded(lines) == Decided(lines)
    requires line.payload.Ended? ==> line.payload.summary.Stated? && !line.payload.summary.extras
    requires Width(lines) + env.lineSize(line.payload) + ENVELOPE_RESERVE <= MAX_JOURNAL_BYTES
    ensures Orderly(env, lines + [line])
  {
    var more := lines + [line];
    forall i | 0 <= i < |lines| ensures more[i] == lines[i] && more[..i] == lines[..i] {}
    assert more[..|lines|] == lines;
  }

  /** The store's frame check keeps its decisions in step with its records. */
  lemma DecisionInStep(env: Env, b: Book, step: int, shown: Shown)
    requires Tidy(env, b) && DecisionEffect(env, b, step, shown).Some?
    ensures Completed(b.records) == 0 || Completed(b.records) == |b.decisions|
  {
    LastOpen(b);
  }

  lemma PlainEffect(env: Env, b: Book, op: Op)
    requires EffectOf(env, b, op).Some?
    ensures var payload := EffectOf(env, b, op).value.payload;
      && (payload.Ended? ==> payload.summary.Stated? && !payload.summary.extras)
      && (payload.DecisionMade? ==> op.RecordDecision?)
  {
  }

  lemma {:induction false} LegalIsOrderly(env: Env, calls: seq<Call>)
    requires Run(env, calls).Some?
    ensures Orderly(env, Run(env, calls).value.journal)
  {
    if calls != [] {
      RunPrefix(env, calls);
      var p, c := calls[..|calls| - 1], calls[|calls| - 1];
      LegalIsOrderly(env, p);
      LegalStep(env, p, c);
    }
  }

  lemma LegalStep(env: Env, p: seq<Call>, c: Call)
    requires Run(env, p).Some? && Apply(env, Run(env, p).value, c).Some? && Orderly(env, Run(env, p).value.journal)
    ensures Orderly(env, Apply(env, Run(env, p).value, c).value.journal)
  {
    var s := Run(env, p).value;
    var e := EffectOf(env, s.book, c.op).value;
    var r := RunMirrors(env, p, s.files);
    LinesCounted(env, s.files, s.journal);
    PlainEffect(env, s.book, c.op);
    if e.payload.DecisionMade? { DecisionInStep(env, s.book, c.op.step, c.op.shown); }
    OrderlyMore(env, s.journal, Line(true, env.assessment, env.session, c.event, c.width, e.payload));
  }

  /** A finished legal run that left exactly this directory. */
  ghost predicate Leaves(env: Env, calls: seq<Call>, d: Directory) {
    && Run(env, calls).Some? && Run(env, calls).value.finalized
    && d == Directory(Run(env, calls).value.files, Run(env, calls).value.journal)
  }

  lemma SameFiles(a: map<Name, Content>, b: map<Name, Content>)
    requires Within(a, b) && a.Keys == b.Keys
    ensures a == b
  {
  }

  lemma AcceptedIsWritten(env: Env, d: Directory) returns (calls: seq<Call>)
    requires Inspect(env, d).Some? && Orderly(env, d.journal)
    ensures Leaves(env, calls, d)
  {
    var q := InspectLines(env, d.files, d.journal).value;
    assert Reports(env, d.files, q.final.value);
    assert Within(FirstFiles(env), d.files);
    calls := Soundness(env, d.files, d.journal);
    var r := RunMirrors(env, calls, d.files);
    SameFiles(Run(env, calls).value.files, d.files);
  }

  /** Exactness: the orderly directories the inspector accepts are those finished legal runs leave, no more and no
      fewer, and the report is the one the run returned. */
  lemma Exactness(env: Env, d: Directory)
    ensures Inspect(env, d).Some? && Orderly(env, d.journal) <==> exists calls :: Leaves(env, calls, d)
    ensures forall calls :: Leaves(env, calls, d) ==>
      ReportName in d.files && Inspect(env, d).Some? && d.files[ReportName] == ReportDoc(Inspect(env, d).value)
  {
    if Inspect(env, d).Some? && Orderly(env, d.journal) {
      var calls := AcceptedIsWritten(env, d);
      assert Leaves(env, calls, d);
    }
    forall calls | Leaves(env, calls, d)
      ensures Orderly(env, d.journal) && ReportName in d.files && Inspect(env, d).Some?
      ensures d.files[ReportName] == ReportDoc(Inspect(env, d).value)
    {
      Completeness(env, calls);
      LegalIsOrderly(env, calls);
    }
  }

  // ---------------------------------------------------- what a completed report means

  ghost predicate AllObserved(records: seq<Record>) {
    forall i :: 0 <= i < |records| && records[i].Complete? ==> records[i].observation.Observed?
  }

  /** The endpoint totals after k observed steps. */
  predicate TotalsAfter(k: nat, lab: Lab, context: Option<Context>) {
    if k == 0 then context.None?
    else
      context.Some? && context.value.step == k
      && var http, ssh := context.value.endpoints.http, context.value.endpoints.ssh;
      && (k == 1 ==> http.requests == 1 && 2 <= http.connections <= 3)
      && (k >= 2 ==> http.requests == 2 && 3 <= http.connections <= 4)
      && (k <= 2 ==> ssh.requests == 0 && ssh.connections == 0)
      && (k == 3 ==> ssh.requests == 1 && 2 <= ssh.connections <= 3)
      && (k == 4 ==> ssh.requests == 2 && ssh.connections == 3)
  }

  ghost predicate Totalled(env: Env, b: Book) {
    && (AllObserved(b.records) ==> TotalsAfter(Completed(b.records), env.lab, b.context))
    && (b.closure.Some? ==> b.closure.value.endpoints == if b.context.None? then Zero(env.lab)
      else b.context.value.endpoints)
  }

  /** An accepted observation settles the counters of its step. */
  lemma ObservedTotals(env: Env, k: nat, status: Status, previous: Option<Context>, result: ToolResult)
    requires k < 4 && TotalsAfter(k, env.lab, previous) && ValidateResult(env, k + 1, status, previous, result).Some?
    requires ValidateResult(env, k + 1, status, previous, result).value.observation.Observed?
    ensures TotalsAfter(k + 1, env.lab, ValidateResult(env, k + 1, status, previous, result).value.context)
  {
  }

  lemma FinishTotals(env: Env, b: Book, files: map<Name, Content>, row: Record)
    requires Tidy(env, b) && Totalled(env, b) && InspectFinish(env, b, files, row).Some?
    ensures Totalled(env, InspectFinish(env, b, files, row).value)
  {
    LastOpen(b);
    var b' := InspectFinish(env, b, files, row).value;
    var n := |b.records| - 1;
    if AllObserved(b'.records) {
      assert b'.records[n] == row;
      forall i | 0 <= i < n ensures b'.records[i] == b.records[i] {}
      ObservedTotals(env, n, row.status, b.context, files[ResultName(b.records[n].execution)].result);
    }
  }

  lemma StartTotals(env: Env, b: Book, row: Record)
    requires Tidy(env, b) && Totalled(env, b) && InspectStart(env, b, row).Some?
    ensures Totalled(env, InspectStart(env, b, row).value)
  {
    LastOpen(b);
    if AllObserved(b.records + [row]) {
      forall i | 0 <= i < |b.records| ensures (b.records + [row])[i] == b.records[i] {}
    }
  }

  lemma PayloadTotals(env: Env, b: Book, files: map<Name, Content>, payload: Payload)
    requires Tidy(env, b) && Totalled(env, b) && InspectPayload(env, b, files, payload).Turned?
    ensures Totalled(env, InspectPayload(env, b, files, payload).book)
  {
    LastOpen(b);
    match payload
    case DecisionMade(_) =>
    case ExecutionStarted(row) => StartTotals(env, b, row);
    case ExecutionFinished(row) => FinishTotals(env, b, files, row);
    case LabClosed(_) =>
    case Ended(_, _) =>
    case Unknown =>
  }

  /** The final report is made from the book it closes. */
  ghost predicate Reported(env: Env, r: Replay) {
    && (r.final.Some? ==> r.book.closure.Some?)
    && (r.final.Some? ==>
          r.final.value == ReportOf(env, r.book, r.final.value.summary, r.book.closure.value, r.final.value.elapsed))
  }

  lemma {:induction false} LinesTotalled(env: Env, files: map<Name, Content>, lines: seq<Line>)
    requires InspectLines(env, files, lines).Some?
    ensures var r := InspectLines(env, files, lines).value;
      Tidy(env, r.book) && Totalled(env, r.book) && Reported(env, r)
  {
    if lines != [] {
      var p, line := lines[..|lines| - 1], lines[|lines| - 1];
      LinesTotalled(env, files, p);
      var b := InspectLines(env, files, p).value.book;
      TidyPayload(env, b, files, line.payload);
      PayloadTotals(env, b, files, line.payload);
    }
  }

  lemma {:induction false} UsefulAll(records: seq<Record>)
    ensures Useful(records) <= |records|
    ensures Useful(records) == |records| ==> AllObserved(records) && forall i :: 0 <= i < |records| ==>
      records[i].Complete?
  {
    if records != [] {
      UsefulAll(records[..|records| - 1]);
      forall i | 0 <= i < |records| - 1 ensures records[..|records| - 1][i] == records[i] {}
    }
  }

  /** A report that calls the assessment completed comes with a closure receipt of exactly two requests on each
      endpoint, three SSH connections and three or four HTTP connections. */
  lemma CompletedTotals(env: Env, d: Directory)
    requires Inspect(env, d).Some? && Inspect(env, d).value.outcome == Done
    ensures var e := Inspect(env, d).value.closure.endpoints;
      e.http.requests == 2 && e.ssh.requests == 2 && e.ssh.connections == 3 && 3 <= e.http.connections <= 4
  {
    var r := InspectLines(env, d.files, d.journal).value;
    LinesTotalled(env, d.files, d.journal);
    UsefulAll(r.book.records);
    assert Completed(r.book.records) == 4;
  }
}
