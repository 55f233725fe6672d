/** The evidence store as it updates itself, and the inspection loop
    (recon_cockpit/secure_agent/configurable_evidence.py). */
module EvidenceStore {
  import opened Prelude
  import opened Models
  import opened ConfigurableContract
  import opened ConfigurableWorkflow
  import opened ConfigurableEvidence
  import R = EvidenceReports

  /** What one call meets outside: fresh identifiers, the length of its journal line, and whether the disk obeys. */
  datatype World = World(event: Uuid, execution: Uuid, width: nat, writable: bool)

  predicate LineFits(env: Env, s: Store, payload: Payload, event: Uuid, width: nat) {
    event !in s.events && s.bytes + env.lineSize(payload) + ENVELOPE_RESERVE <= MAX_JOURNAL_BYTES
      && s.bytes + width <= MAX_JOURNAL_BYTES
  }

  lemma WrittenPlain(env: Env, s: Store, e: Effect, event: Uuid, width: nat)
    requires e.files == map[]
    ensures Writable(env, s, e, event, width) <==> LineFits(env, s, e.payload, event, width)
    ensures Written(env, s, e, event, width, false) == Store(e.book, s.files,
      s.journal + [Line(true, env.assessment, env.session, event, width, e.payload)], s.events + {event},
      if e.payload.ExecutionStarted? then s.executions + {e.payload.record.execution} else s.executions,
      s.bytes + width, false)
  {
    assert s.files + e.files == s.files && s.executions + {} == s.executions;
  }

  lemma NoFiles(env: Env, s: Store, op: Op, e: Effect, event: Uuid, width: nat)
    requires EffectOf(env, s.book, op) == Some(e) && e.files == map[] && !s.finalized && Drawn(s, op) && !op.Finalize?
    ensures var after := Apply(env, s, Call(op, event, width));
      && (after.Some? <==> LineFits(env, s, e.payload, event, width))
      && (after.Some? ==> after == Some(Store(e.book, s.files,
            s.journal + [Line(true, env.assessment, env.session, event, width, e.payload)], s.events + {event},
            if e.payload.ExecutionStarted? then s.executions + {e.payload.record.execution} else s.executions,
            s.bytes + width, false)))
  {
    WrittenPlain(env, s, e, event, width);
  }

  lemma OneFile(env: Env, s: Store, op: Op, event: Uuid, width: nat)
    requires op.Finish? && !s.finalized
    ensures var e, after := EffectOf(env, s.book, op), Apply(env, s, Call(op, event, width));
      && (after.Some? <==>
            e.Some? && ResultName(op.execution) !in s.files && LineFits(env, s, e.value.payload, event, width))
      && (after.Some? ==> after == Some(Store(e.value.book, s.files[ResultName(op.execution) := ResultDoc(op.result)],
            s.journal + [Line(true, env.assessment, env.session, event, width, e.value.payload)],
            s.events + {event}, s.executions, s.bytes + width, false)))
  {
    var e := EffectOf(env, s.book, op);
    if e.Some? {
      assert e.value.files.Keys == {ResultName(op.execution)};
      assert s.files + e.value.files == s.files[ResultName(op.execution) := ResultDoc(op.result)];
      assert s.executions + {} == s.executions;
    }
  }

  lemma TwoFiles(env: Env, s: Store, op: Op, event: Uuid, width: nat)
    requires op.Finalize? && !s.finalized
    ensures var e, after := EffectOf(env, s.book, op), Apply(env, s, Call(op, event, width));
      && (after.Some? <==>
            e.Some? && ReportName !in s.files && MarkdownName !in s.files
            && LineFits(env, s, e.value.payload, event, width))
      && (e.Some? ==> ReportName in e.value.files && MarkdownName in e.value.files)
      && (after.Some? ==> after == Some(Store(e.value.book,
            s.files[ReportName := e.value.files[ReportName]][MarkdownName := e.value.files[MarkdownName]],
            s.journal + [Line(true, env.assessment, env.session, event, width, e.value.payload)],
            s.events + {event}, s.executions, s.bytes + width, true)))
  {
    var e := EffectOf(env, s.book, op);
    if e.Some? {
      assert e.value.files.Keys == {ReportName, MarkdownName};
      assert s.files + e.value.files ==
        s.files[ReportName := e.value.files[ReportName]][MarkdownName := e.value.files[MarkdownName]];
      assert s.executions + {} == s.executions;
    }
  }

  /** Any failed operation poisons the store: nothing succeeds on it again. */
  class ConfigurableEvidenceStore {
    const env: Env
    var records: seq<Record>
    var decisions: seq<Chosen>
    var context: Option<Context>
    var closure: Option<Receipt>
    var files: map<Name, Content>
    var journal: seq<Line>
    var events: set<Uuid>
    var executions: set<Uuid>
    var bytes: nat
    var failed: bool
    var finalized: bool

    function Ledger(): Book
      reads this
    {
      Book(records, decisions, context, closure)
    }

    ghost function Model(): Store
      reads this
    {
      Store(Ledger(), files, journal, events, executions, bytes, finalized)
    }

    constructor (env: Env)
      ensures this.env == env && Model() == Fresh(env) && !failed
    {
      this.env := env;
      records, decisions, context, closure := [], [], None, None;
      files, journal, events, executions, bytes := FirstFiles(env), [], {}, {}, 0;
      failed, finalized := false, false;
    }

    /** The call did exactly what the specification of the store says, or poisoned it. */
    twostate predicate Did(ok: bool, op: Op, w: World)
      reads this
    {
      var after := if old(failed) then None else Apply(env, old(Model()), Call(op, w.event, w.width));
      && (ok <==> after.Some? && w.writable)
      && (ok ==> Some(Model()) == after)
      && failed == !ok
    }

    ghost predicate Fits(payload: Payload, w: World)
      reads this
    {
      w.writable && LineFits(env, Model(), payload, w.event, w.width)
    }

    /** _emit(): the line is appended only if its reservation and its real length fit. */
    method Emit(payload: Payload, w: World) returns (ok: bool)
      modifies this`journal, this`events, this`bytes
      ensures ok <==> old(Fits(payload, w))
      ensures ok ==>
        && journal == old(journal) + [Line(true, env.assessment, env.session, w.event, w.width, payload)]
        && events == old(events) + {w.event} && bytes == old(bytes) + w.width
    {
      if bytes + env.lineSize(payload) + ENVELOPE_RESERVE > MAX_JOURNAL_BYTES { return false; }
      if !w.writable || w.event in events { return false; }
      journal := journal + [Line(true, env.assessment, env.session, w.event, w.width, payload)];
      events, bytes := events + {w.event}, bytes + w.width;
      return bytes <= MAX_JOURNAL_BYTES;
    }

    /** _write_new(): never over an existing file. */
    method WriteNew(name: Name, content: Content, size: nat, limit: nat, w: World) returns (ok: bool)
      modifies this`files
      ensures ok <==> w.writable && name !in old(files) && size <= limit
      ensures files == if ok then old(files)[name := content] else old(files)
    {
      ok := w.writable && name !in files && size <= limit;
      if ok { files := files[name := content]; }
    }

    /** _check() and the poisoning of everything that does not complete. */
    method Begin() returns (ok: bool)
      modifies this`failed
      ensures failed && (ok <==> !old(failed) && !finalized)
    {
      ok := !failed && !finalized;
      failed := true;
    }

    method AdmitDecision(step: int, shown: Shown) returns (e: Option<Effect>, decision: Option<Choice>)
      ensures e == DecisionEffect(env, Ledger(), step, shown)
      ensures e.Some? ==> decision.Some? && decision == Decide(env.valid, env.scope, step, records, shown)
    {
      if step != |decisions| + 1 || closure.Some? || HasOpen(records) || Closing(decisions) { return None, None; }
      decision := Decide(env.valid, env.scope, step, records, shown);
      if decision.None? { return None, None; }
      var value := Entry(decision.value, Sha256(shown));
      e := Some(Effect(Book(records, decisions + [value], context, closure), DecisionMade(value), map[]));
    }

    method AdmitStart(action: Action, policy: nat, session: Uuid, step: int, execution: Uuid)
      returns (e: Option<Effect>)
      ensures e == StartEffect(env, Ledger(), action, policy, session, step, execution)
    {
      if session != env.session || policy != env.policy || closure.Some? || step != |records| + 1 { return None; }
      if !(1 <= step <= STEPS) || action != ActionAt(env.scope, step) || HasOpen(records) { return None; }
      if decisions == [] || decisions[|decisions| - 1].digest != Some(Sha256(action)) { return None; }
      var row := Open(execution, step, action);
      return Some(Effect(Book(records + [row], decisions, context, closure), ExecutionStarted(row), map[]));
    }

    /** What an admitted call without files writes. */
    method Commit(e: Effect, w: World) returns (ok: bool)
      modifies this
      ensures ok <==> old(Fits(e.payload, w))
      ensures ok ==> !failed && Model() == Store(e.book, old(files),
        old(journal) + [Line(true, env.assessment, env.session, w.event, w.width, e.payload)], old(events) + {w.event},
        if e.payload.ExecutionStarted? then old(executions) + {e.payload.record.execution} else old(executions),
        old(bytes) + w.width, old(finalized))
      ensures !ok ==> failed == old(failed)
    {
      ok := Emit(e.payload, w);
      if ok {
        records, decisions, context, closure := e.book.records, e.book.decisions, e.book.context, e.book.closure;
        if e.payload.ExecutionStarted? { executions := executions + {e.payload.record.execution}; }
        failed := false;
      }
    }

    method RecordDecision(step: int, shown: Shown, w: World) returns (r: Option<Choice>)
      modifies this
      ensures Did(r.Some?, Op.RecordDecision(step, shown), w)
      ensures r.Some? ==> r == Decide(env.valid, env.scope, step, old(records), shown)
    {
      var ok := Begin();
      if !ok { return None; }
      var e, decision := AdmitDecision(step, shown);
      if e.None? { return None; }
      NoFiles(env, Model(), Op.RecordDecision(step, shown), e.value, w.event, w.width);
      ok := Commit(e.value, w);
      return if ok then decision else None;
    }

    method Start(action: Action, policy: nat, session: Uuid, step: int, w: World) returns (ok: bool)
      modifies this
      ensures Did(ok, Op.Start(action, policy, session, step, w.execution), w)
    {
      ok := Begin();
      if !ok { return; }
      var e := AdmitStart(action, policy, session, step, w.execution);
      if e.None? || w.execution in executions { return false; }
      NoFiles(env, Model(), Op.Start(action, policy, session, step, w.execution), e.value, w.event, w.width);
      ok := Commit(e.value, w);
    }

    method RecordLabClosed(receipt: Receipt, w: World) returns (ok: bool)
      modifies this
      ensures Did(ok, CloseLab(receipt), w)
    {
      ok := Begin();
      if !ok { return; }
      if closure.Some? || HasOpen(records) || !ValidClosure(env.lab, context, receipt) { return false; }
      var e := Effect(Book(records, decisions, context, Some(receipt)), LabClosed(receipt), map[]);
      NoFiles(env, Model(), CloseLab(receipt), e, w.event, w.width);
      ok := Commit(e, w);
    }

    /** The result file first, then the journal line, then the record. */
    method Finish(execution: Uuid, result: ToolResult, status: Status, w: World) returns (ok: bool)
      modifies this
      ensures Did(ok, Op.Finish(execution, result, status), w)
    {
      ok := Begin();
      if !ok { return; }
      var n := |records| - 1;
      if n < 0 || records[n].execution != execution || !records[n].Open? { return false; }
      var checked := ValidateResult(env, records[n].step, status, context, result);
      if checked.None? { return false; }
      var row := CompleteRecord(env, records[n], status, result, checked.value.observation);
      OneFile(env, Model(), Op.Finish(execution, result, status), w.event, w.width);
      ok := Complete(execution, result, row, checked.value.context, w);
    }

    method Complete(execution: Uuid, result: ToolResult, row: Record, seen: Option<Context>, w: World)
      returns (ok: bool)
      requires records != []
      modifies this
      ensures ok <==>
        old(Fits(ExecutionFinished(row), w)) && ResultName(execution) !in old(files)
        && env.size(result) <= MAX_ARTIFACT_BYTES
      ensures ok ==> !failed && Model() == Store(
        Book(old(records[..|records| - 1]) + [row], old(decisions), seen, old(closure)),
          old(files)[ResultName(execution) := ResultDoc(result)],
        old(journal) + [Line(true, env.assessment, env.session, w.event, w.width, ExecutionFinished(row))],
        old(events) + {w.event}, old(executions), old(bytes) + w.width, old(finalized))
      ensures !ok ==> failed == old(failed)
    {
      ok := WriteNew(ResultName(execution), ResultDoc(result), env.size(result), MAX_ARTIFACT_BYTES, w);
      if !ok { return; }
      ok := Emit(ExecutionFinished(row), w);
      if !ok { return; }
      records, context := records[..|records| - 1] + [row], seen;
      failed := false;
    }

    /** The final line first, then both reports. However the store has come to this state, the report it publishes is
        true, and about this summary. */
    method Finalize(summary: Stated, elapsed: int, w: World) returns (ok: bool)
      modifies this
      ensures Did(ok, Op.Finalize(summary, elapsed), w)
      ensures ok && old(R.Reachable(env, Model())) ==>
        summary.Stated? && R.Published(env, Model(), summary.summary, elapsed)
    {
      ok := Close(summary, elapsed, w);
      if ok && old(R.Reachable(env, Model())) {
        R.FinalizedTruthful(env, old(Model()), Call(Op.Finalize(summary, elapsed), w.event, w.width));
      }
    }

    method Close(summary: Stated, elapsed: int, w: World) returns (ok: bool)
      modifies this
      ensures Did(ok, Op.Finalize(summary, elapsed), w)
    {
      ok := Begin();
      if !ok { return; }
      if closure.None? || !(0 <= elapsed <= MAX_ELAPSED) { return false; }
      if summary.Garbled? || !Acceptable(env, summary.summary, Ledger()) { return false; }
      var report := ReportOf(env, Ledger(), summary.summary, closure.value, elapsed);
      TwoFiles(env, Model(), Op.Finalize(summary, elapsed), w.event, w.width);
      ok := Publish(Ended(Stated(summary.summary, false), elapsed), report, w);
    }

    method Publish(last: Payload, report: Report, w: World) returns (ok: bool)
      modifies this
      ensures ok <==>
        old(Fits(last, w)) && ReportName !in old(files) && MarkdownName !in old(files)
        && env.reportSize(report) <= MAX_REPORT_BYTES && |env.render(report)| <= MAX_REPORT_BYTES
      ensures ok ==> !failed && Model() == Store(
        old(Ledger()), old(files)[ReportName := ReportDoc(report)][MarkdownName := MarkdownDoc(env.render(report))],
        old(journal) + [Line(true, env.assessment, env.session, w.event, w.width, last)],
        old(events) + {w.event}, old(executions), old(bytes) + w.width, true)
      ensures !ok ==> failed == old(failed)
    {
      ok := Emit(last, w);
      if !ok { return; }
      ok := WriteNew(ReportName, ReportDoc(report), env.reportSize(report), MAX_REPORT_BYTES, w);
      if !ok { return; }
      ok := WriteNew(MarkdownName, MarkdownDoc(env.render(report)), |env.render(report)|, MAX_REPORT_BYTES, w);
      if !ok { return; }
      finalized, failed := true, false;
    }
  }

  /** The provider of the session: it asks the store for each decision in turn and stops for good after the last
      one, or after any failure. */
  class ConfigurableProvider {
    const store: ConfigurableEvidenceStore
    var nextStep: nat
    var session: Option<Uuid>
    var closed: bool

    ghost predicate Valid()
      reads this, store
    {
      !closed ==>
        nextStep == |store.decisions| + 1 && (session.None? || session == Some(store.env.session))
        && !Closing(store.decisions)
    }

    constructor (store: ConfigurableEvidenceStore)
      requires store.decisions == []
      ensures Valid() && this.store == store && !closed && session.None?
    {
      this.store := store;
      nextStep, session, closed := 1, None, false;
    }

    /** bind_session(): once, and only to the session of the evidence. */
    method BindSession(id: Uuid) returns (ok: bool)
      requires Valid()
      modifies this`session
      ensures Valid() && (ok <==> !old(closed) && old(session).None? && id == store.env.session)
      ensures session == if ok then Some(id) else old(session)
    {
      ok := !closed && session.None? && id == store.env.session;
      if ok { session := Some(id); }
    }

    /** propose(): exactly the planner's decision for the records so far, journaled before it is returned. */
    method Propose(shown: Shown, inTime: bool, w: World) returns (choice: Option<Choice>)
      requires Valid()
      modifies this, store
      ensures Valid()
      ensures choice.Some? ==> !old(closed) && old(session).Some? && inTime && (closed <==> choice.value.done)
      ensures choice.Some? ==> choice == Expected(store.env.valid, store.env.scope, old(nextStep), old(store.records))
      ensures choice.Some? ==> store.decisions == old(store.decisions) + [Entry(choice.value, Sha256(shown))]
      ensures choice.Some? ==>
        && Apply(store.env, old(store.Model()), Call(Op.RecordDecision(old(nextStep), shown), w.event, w.width))
           == Some(store.Model())
        && choice == Decide(store.env.valid, store.env.scope, old(nextStep), old(store.records), shown)
      ensures choice.None? ==> closed
      ensures choice.Some? <==>
        && inTime && !old(closed) && old(session).Some? && !old(store.failed) && w.writable
        && Apply(store.env, old(store.Model()), Call(Op.RecordDecision(old(nextStep), shown), w.event, w.width)).Some?
    {
      if !inTime || closed || session.None? {
        closed := true;
        return None;
      }
      choice := store.RecordDecision(nextStep, shown, w);
      if choice.None? {
        closed := true;
        return;
      }
      nextStep, closed := nextStep + 1, choice.value.done;
    }
  }

  /** One journal line: its envelope first, then what its event says. */
  method ReadLine(env: Env, files: map<Name, Content>, r: Replay, line: Line) returns (next: Option<Replay>)
    ensures next == InspectLine(env, files, r, line)
  {
    if !line.wellFormed || line.assessment != env.assessment || line.session != env.session
      || r.final.Some? { return None; }
    if line.event in r.events { return None; }
    var turned := InspectPayload(env, r.book, files, line.payload);
    if turned.Refused? { return None; }
    return Some(Replay(turned.book, turned.report, r.events + {line.event}, r.referenced + Refers(line.payload)));
  }

  /** The loop over the journal's lines. */
  method Reinspect(env: Env, d: Directory) returns (report: Option<Report>)
    ensures report == Inspect(env, d)
  {
    if !Readable(env, d) { return None; }
    var replay := UNREAD;
    Unstarted(env, d.files, d.journal);
    for i := 0 to |d.journal|
      invariant InspectLines(env, d.files, d.journal[..i]) == Some(replay)
    {
      var next := ReadLine(env, d.files, replay, d.journal[i]);
      NextLine(env, d.files, d.journal, i);
      if next.None? {
        Refusals(env, d.files, d.journal, i);
        return None;
      }
      replay := next.value;
    }
    AllRead(env, d.files, d.journal);
    return if Reconciles(env, d, replay) then replay.final else None;
  }

  /** inspect_assessment(): everything is recomputed from the directory, nothing is resumed or written; what is accepted
      is true. */
  method InspectAssessment(env: Env, d: Directory) returns (report: Option<Report>)
    ensures report == Inspect(env, d)
    ensures report.Some? ==> R.Truthful(env, d, report.value)
  {
    report := Reinspect(env, d);
    if report.Some? { R.InspectedTruthful(env, d); }
  }

  lemma Unstarted(env: Env, files: map<Name, Content>, lines: seq<Line>)
    ensures InspectLines(env, files, lines[..0]) == Some(UNREAD)
  {
  }

  lemma AllRead(env: Env, files: map<Name, Content>, lines: seq<Line>)
    ensures InspectLines(env, files, lines[..|lines|]) == InspectLines(env, files, lines)
  {
    assert lines[..|lines|] == lines;
  }

  lemma NextLine(env: Env, files: map<Name, Content>, lines: seq<Line>, i: nat)
    requires i < |lines| && InspectLines(env, files, lines[..i]).Some?
    ensures InspectLines(env, files, lines[..i + 1]) ==
      InspectLine(env, files, InspectLines(env, files, lines[..i]).value, lines[i])
  {
    assert lines[..i + 1][..i] == lines[..i];
  }

  /** A refused line refuses the whole journal. */
  lemma {:induction false} Refusals(env: Env, files: map<Name, Content>, lines: seq<Line>, i: nat)
    requires i < |lines|
    ensures InspectLines(env, files, lines[..i + 1]).None? ==> InspectLines(env, files, lines).None?
    decreases |lines|
  {
    if i + 1 == |lines| {
      assert lines[..i + 1] == lines;
    } else {
      Refusals(env, files, lines[..|lines| - 1], i);
      assert lines[..|lines| - 1][..i + 1] == lines[..i + 1];
    }
  }
}
