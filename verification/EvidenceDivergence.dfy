/** A concrete assessment the inspector accepts although no run of the store can write it: a second decision is
    never executed and a third one follows it. */
module EvidenceDivergence {
  import opened Prelude
  import opened Models
  import opened ConfigurableContract
  import opened ConfigurableWorkflow
  import opened ConfigurableEvidence
  import opened EvidenceReplay

  const SCOPE := Scope(Service("10.0.0.1", 8080), "/", Service("10.0.0.2", 2222), "d")
  const LAB := Lab("d", 0, 1)
  const SEEN := Details("", true, "http")

  const ENV := Env(Random(0), Random(1), 0, SCOPE, LAB, (step, details) => true, (step, raw) => Some(SEEN),
                   (step, result) => true, result => "", result => 0, payload => 0, report => 0, report => "")

  const CONTEXT := Context(LAB, 1, Endpoints(Row(0, 2, 1), Row(1, 0, 0)))
  const RESULT := Full(Succeeded, 1, "d", false, "raw", Some(SEEN), CONTEXT)
  const OPEN := Open(Random(2), 1, ActionAt(SCOPE, 1))
  const RECORD := Complete(Random(2), 1, ActionAt(SCOPE, 1), Succeeded, Observed(Nmap, SEEN),
    Artifact(Random(2), Sha256(RESULT), 0),
                           Sha256(Frame(2, Some(Seen(Succeeded, "")))))
  const FIRST := Entry(Propose(SCOPE, 1), Sha256(Opening(1)))
  const SECOND := Entry(Propose(SCOPE, 2), RECORD.shown)
  const THIRD := Entry(Stop(3), RECORD.shown)
  const RECEIPT := Receipt(LAB, CONTEXT.endpoints)
  const SUMMARY := Summary(Random(1), false, "timeout", 3, 1, 8192, true)

  const BOOK := Book([RECORD], [FIRST, SECOND, THIRD], Some(CONTEXT), Some(RECEIPT))
  const REPORT := ReportOf(ENV, BOOK, SUMMARY, RECEIPT, 0)

  const FILES: map<Name, Content> := map[
    ManifestName := ManifestDoc(Random(0)), JournalName := JournalDoc, ResultName(Random(2)) := ResultDoc(RESULT),
    ReportName := ReportDoc(REPORT), MarkdownName := MarkdownDoc("")]

  function LineOf(n: nat, payload: Payload): Line {
    Line(true, Random(0), Random(1), Random(n), 0, payload)
  }

  const JOURNAL := [
    LineOf(10, DecisionMade(FIRST)), LineOf(11, ExecutionStarted(OPEN)), LineOf(12, ExecutionFinished(RECORD)),
    LineOf(13, DecisionMade(SECOND)), LineOf(14, DecisionMade(THIRD)), LineOf(15, LabClosed(RECEIPT)),
    LineOf(16, Ended(Stated(SUMMARY, false), 0))]

  const BASE := {ManifestName, JournalName, ReportName, MarkdownName}

  lemma ReadOn(n: nat, r: Replay, r': Replay)
    requires n < 7 && InspectLines(ENV, FILES, JOURNAL[..n]) == Some(r)
    requires InspectLine(ENV, FILES, r, JOURNAL[n]) == Some(r')
    ensures InspectLines(ENV, FILES, JOURNAL[..n + 1]) == Some(r')
  {
    assert JOURNAL[..n + 1][..n] == JOURNAL[..n];
  }

  lemma ResultAccepted()
    ensures ValidateResult(ENV, 1, Succeeded, None, RESULT) == Some(Checked(Some(CONTEXT), Observed(Nmap, SEEN)))
  {
    assert ValidContext(LAB, None, 1, true, CONTEXT);
    assert Observe(ENV.valid, 1, Succeeded, false, Some(SEEN)) == Some(Observed(Nmap, SEEN));
  }

  function BookAt(n: nat): Book
    requires n <= 6
  {
    Book(if n < 2 then [] else if n == 2 then [OPEN] else [RECORD],
         if n == 0 then [] else if n < 4 then [FIRST] else if n == 4 then [FIRST, SECOND] else [FIRST, SECOND, THIRD],
         if n < 3 then None else Some(CONTEXT), if n < 6 then None else Some(RECEIPT))
  }

  lemma Turn1()
    ensures InspectDecision(ENV, BookAt(0), FIRST) == Some(BookAt(1))
  {
    assert [] + [FIRST] == [FIRST];
    assert AllSound(ENV.valid, SCOPE, []);
  }

  lemma Turn2()
    ensures InspectStart(ENV, BookAt(1), OPEN) == Some(BookAt(2))
  {
    assert [] + [OPEN] == [OPEN];
  }

  lemma Turn3()
    ensures InspectFinish(ENV, BookAt(2), FILES, RECORD) == Some(BookAt(3))
  {
    ResultAccepted();
    assert BookAt(2).records[..0] + [RECORD] == [RECORD];
  }

  lemma Turn4()
    ensures InspectDecision(ENV, BookAt(3), SECOND) == Some(BookAt(4))
  {
    assert Sound(ENV.valid, SCOPE, 1, RECORD);
    assert AllSound(ENV.valid, SCOPE, [RECORD]);
    assert [FIRST] + [SECOND] == [FIRST, SECOND];
  }

  lemma Turn5()
    ensures InspectDecision(ENV, BookAt(4), THIRD) == Some(BookAt(5))
  {
    assert [FIRST, SECOND] + [THIRD] == [FIRST, SECOND, THIRD];
  }

  lemma Turn6()
    ensures InspectClosure(ENV, BookAt(5), RECEIPT) == Some(BookAt(6))
  {
  }

  lemma OutputProposed()
    ensures ProposedOutput(SCOPE, [FIRST, SECOND, THIRD]) == 10240
  {
    var one, two, three := [FIRST], [FIRST, SECOND], [FIRST, SECOND, THIRD];
    assert one[..0] == [] && ProposedOutput(SCOPE, one) == 8192;
    assert two[..1] == one && ProposedOutput(SCOPE, two) == 10240;
    assert three[..2] == two && three[2] == THIRD;
  }

  lemma Turn7()
    ensures InspectEnd(ENV, BookAt(6), Stated(SUMMARY, false), 0) == Some(REPORT)
  {
    assert Successes([RECORD]) == 1 && RecordedOutput([RECORD]) == 8192 by {
      assert [RECORD][..0] == [];
    }
    OutputProposed();
    assert Slug("timeout");
  }

  function EventsAt(n: nat): set<Uuid> {
    if n == 0 then {} else EventsAt(n - 1) + {Random(9 + n)}
  }

  function ReplayAt(n: nat): Replay
    requires n <= 7
  {
    Replay(BookAt(if n == 7 then 6 else n), if n == 7 then Some(REPORT) else None, EventsAt(n),
           if n < 3 then BASE else BASE + {ResultName(Random(2))})
  }

  lemma {:induction false} EventsBelow(n: nat, k: nat)
    requires n <= k
    ensures Random(10 + k) !in EventsAt(n)
  {
    if n > 0 { EventsBelow(n - 1, k); }
  }

  lemma FirstTurns(n: nat)
    requires n < 3
    ensures InspectPayload(ENV, BookAt(n), FILES, JOURNAL[n].payload) == Turned(BookAt(n + 1), None)
  {
    if n == 0 { Turn1(); } else if n == 1 { Turn2(); } else { Turn3(); }
  }

  lemma LaterTurns(n: nat)
    requires 3 <= n < 7
    ensures InspectPayload(ENV, BookAt(n), FILES, JOURNAL[n].payload)
         == Turned(BookAt(if n == 6 then 6 else n + 1), if n == 6 then Some(REPORT) else None)
  {
    if n == 3 { Turn4(); } else if n == 4 { Turn5(); } else if n == 5 { Turn6(); } else { Turn7(); }
  }

  lemma LineTurns(n: nat)
    requires n < 7
    ensures InspectLine(ENV, FILES, ReplayAt(n), JOURNAL[n]) == Some(ReplayAt(n + 1))
  {
    if n < 3 { FirstTurns(n); } else { LaterTurns(n); }
    EventsBelow(n, n);
    assert JOURNAL[n] == LineOf(10 + n, JOURNAL[n].payload);
    assert ReplayAt(n).referenced + Refers(JOURNAL[n].payload) == ReplayAt(n + 1).referenced;
  }

  lemma {:induction false} ReadUpTo(n: nat)
    requires n <= 7
    ensures InspectLines(ENV, FILES, JOURNAL[..n]) == Some(ReplayAt(n))
  {
    if n == 0 {
      assert JOURNAL[..0] == [];
      assert EventsAt(0) == {};
    } else {
      ReadUpTo(n - 1);
      LineTurns(n - 1);
      ReadOn(n - 1, ReplayAt(n - 1), ReplayAt(n));
    }
  }

  lemma NoWidth(n: nat)
    requires n <= 7
    ensures Width(JOURNAL[..n]) == 0
  {
    if n > 0 {
      NoWidth(n - 1);
      assert JOURNAL[..n][..n - 1] == JOURNAL[..n - 1];
    }
  }

  /** The third decision follows one execution and two decisions. */
  lemma OutOfStep()
    ensures !InStep(JOURNAL)
  {
    assert JOURNAL[..1][..0] == [] && JOURNAL[..2][..1] == JOURNAL[..1] && JOURNAL[..3][..2] == JOURNAL[..2]
        && JOURNAL[..4][..3] == JOURNAL[..3];
    assert Concluded(JOURNAL[..1]) == 0 && Decided(JOURNAL[..1]) == 1;
    assert Concluded(JOURNAL[..2]) == 0 && Decided(JOURNAL[..2]) == 1;
    assert Concluded(JOURNAL[..3]) == 1 && Decided(JOURNAL[..3]) == 1;
    assert Concluded(JOURNAL[..4]) == 1 && Decided(JOURNAL[..4]) == 2;
    assert JOURNAL[4].payload.DecisionMade?;
  }

  lemma FewFiles()
    ensures FILES.Keys == BASE + {ResultName(Random(2))} && |FILES| <= 5
  {
    assert FILES.Keys == BASE + {ResultName(Random(2))};
    assert |FILES| == |FILES.Keys|;
  }

  lemma AllReadable()
    ensures Readable(ENV, Directory(FILES, JOURNAL))
  {
    NoWidth(7);
    assert JOURNAL[..7] == JOURNAL;
    FewFiles();
  }

  lemma AllReconciles()
    ensures Reconciles(ENV, Directory(FILES, JOURNAL), ReplayAt(7))
  {
    FewFiles();
  }

  lemma Accepted()
    ensures Inspect(ENV, Directory(FILES, JOURNAL)) == Some(REPORT)
  {
    AllReadable();
    AllReconciles();
    ReadUpTo(7);
    assert JOURNAL[..7] == JOURNAL;
  }

  /** The inspector accepts this assessment, and no run of the store leaves it. */
  lemma Diverges()
    ensures Inspect(ENV, Directory(FILES, JOURNAL)) == Some(REPORT)
    ensures !exists calls :: Leaves(ENV, calls, Directory(FILES, JOURNAL))
  {
    Accepted();
    OutOfStep();
    Exactness(ENV, Directory(FILES, JOURNAL));
  }
}
