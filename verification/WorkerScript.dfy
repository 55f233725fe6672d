/** The honest coordinator as a program over bytes (recon_cockpit/secure_agent/coordinator_worker.py), and why every
    dialogue whose told obey the authority's rules suits it: no frame is too long, no limit is reached. */
module WorkerScript {
  import opened Prelude
  import opened Models
  import opened SessionProtocol
  import opened ControlPlane
  import opened CoordinatorPeer
  import F = CoordinatorFrames

  type Bytes = F.Bytes

  /** The bytes of an ASCII text. */
  function Ascii(s: string): (r: Bytes)
    ensures |r| == |s|
  {
    seq(|s|, i requires 0 <= i < |s| => (s[i] as int % 256) as F.byte)
  }

  lemma AsciiJoin(a: string, b: string)
    ensures Ascii(a + b) == Ascii(a) + Ascii(b)
  {
  }

  lemma AsciiSlice(s: string, i: nat, j: nat)
    requires i <= j <= |s|
    ensures Ascii(s)[i..j] == Ascii(s[i..j])
  {
  }

  /** A reply that ends with a raised stop flag. */
  predicate Stops(reply: Bytes) {
    |reply| >= 5 && reply[|reply| - 5..] == Ascii("true}")
  }

  /** Whatever a reply carries, its last field says whether it stops. */
  lemma StopsExactly(front: string, version: char, sessionId: string, sequence: nat, stop: bool)
    ensures Stops(Ascii(front + ReplyEnd(version, sessionId, sequence, stop))) <==> stop
  {
    var all := front + ReplyEnd(version, sessionId, sequence, stop);
    var n := |all|;
    StopFound(front, version, sessionId, sequence, stop);
    AsciiSlice(all, n - 5, n);
    assert all[n - 5..] == all[n - 5..n];
    if stop {
      assert all[n - 5..] == "true}";
    } else {
      assert all[n - 6..] == "false}";
      assert all[n - 5] == 'a' && Ascii(all)[n - 5] == 97 && Ascii("true}")[0] == 116;
    }
  }

  /** A reply, with the piece of the last result's body that a version 1 reply shows. */
  datatype Told = Told(reply: Reply, body: string)

  // -------------------------------------------------------------- version 2

  function ReplyBytes(sessionId: string, r: Reply): Bytes {
    Ascii(PlanReply(sessionId, r.sequence, r.stop, r.plan))
  }

  lemma ReplyStops(sessionId: string, r: Reply)
    ensures Stops(ReplyBytes(sessionId, r)) <==> r.stop
    ensures |ReplyBytes(sessionId, r)| == PlanReplySize(sessionId, r.sequence, r.stop, r.plan)
  {
    var front := "{\"plan\":" + (if r.plan.None? then "null" else PlanText(r.plan.value));
    StopsExactly(front, '2', sessionId, r.sequence, r.stop);
    PlanReplyLength(sessionId, r.sequence, r.stop, r.plan);
  }

  /** The bytes where a reply that goes on carries its plan. */
  function PlanPart(sessionId: string, sequence: nat, reply: Bytes): (r: Bytes)
    ensures |r| <= |reply|
  {
    var end := EndSize(sessionId, sequence, false);
    if |reply| < 8 + end then [] else reply[8..|reply| - end]
  }

  function ProposalHead(sessionId: string, sequence: nat): string {
    RequestHead('2', sessionId, sequence) + ",\"operation\":\"propose\",\"plan\":"
  }

  /** _offline_dialogue(): plan requests and proposals alternate, and a proposal sends back the plan it was given. */
  function Question(sessionId: string, answers: seq<Bytes>): Bytes {
    var n := |answers|;
    if n % 2 == 0 then Ascii(PlanRequestText(sessionId, n / 2 + 1))
    else
      Ascii(ProposalHead(sessionId, n / 2 + 1)) + PlanPart(sessionId, n / 2 + 1, answers[n - 1]) + Ascii("}")
  }

  function OfflineScript(sessionId: string, hello: Bytes): Script {
    Script(hello, answers => Question(sessionId, answers), reply => Stops(reply), Ascii(CloseText('2', sessionId)))
  }

  /** The plan is found where it stands in the reply. */
  lemma PartIsPlan(sessionId: string, sequence: nat, plan: Plan)
    ensures PlanPart(sessionId, sequence, Ascii(PlanReply(sessionId, sequence, false, Some(plan)))) ==
      Ascii(PlanText(plan))
  {
    var reply := PlanReply(sessionId, sequence, false, Some(plan));
    var end := EndSize(sessionId, sequence, false);
    PlanReplyLength(sessionId, sequence, false, Some(plan));
    PlanTextSize(plan);
    PlanFound(sessionId, sequence, plan);
    AsciiSlice(reply, 8, |reply| - end);
  }

  lemma ProposalJoins(sessionId: string, sequence: nat, plan: string)
    ensures Ascii(ProposalHead(sessionId, sequence)) + Ascii(plan) + Ascii("}") ==
      Ascii(ProposeRequestText(sessionId, sequence, plan))
  {
    AsciiJoin(ProposalHead(sessionId, sequence), plan);
    AsciiJoin(ProposalHead(sessionId, sequence) + plan, "}");
  }

  /** After a reply that releases a plan, the next question proposes exactly that plan. */
  lemma QuestionProposes(sessionId: string, answers: seq<Bytes>, sequence: nat, r: Reply, plan: Plan)
    requires sequence >= 1 && |answers| == 2 * (sequence - 1) + 1
    requires answers[|answers| - 1] == ReplyBytes(sessionId, r)
    requires r.sequence == sequence && !r.stop && r.plan == Some(plan)
    ensures Question(sessionId, answers) == Ascii(ProposeRequestText(sessionId, sequence, PlanText(plan)))
  {
    PartIsPlan(sessionId, sequence, plan);
    ProposalJoins(sessionId, sequence, PlanText(plan));
    assert |answers| % 2 == 1 && |answers| / 2 + 1 == sequence;
  }

  /** A reply the authority may give to one request of a version 2 session: a plan request is answered with a plan
      exactly unless the reply stops, a proposal without one, and the last step is. */
  predicate Answerable(sessionId: string, maxSteps: nat, sequence: nat, planning: bool, t: Told) {
    var r := t.reply;
    && r.sequence == sequence <= maxSteps
    && (if planning then r.plan.Some? <==> !r.stop else r.plan.None? && (sequence == maxSteps ==> r.stop))
    && PlanReplySize(sessionId, r.sequence, r.stop, r.plan) <= MAX_RESPONSE_BYTES
  }

  predicate LawfulAt(sessionId: string, maxSteps: nat, told: seq<Told>, i: nat)
    requires i < |told|
  {
    Answerable(sessionId, maxSteps, i / 2 + 1, i % 2 == 0, told[i]) && (i < |told| - 1 ==> !told[i].reply.stop)
  }

  ghost predicate Lawful(sessionId: string, maxSteps: nat, told: seq<Told>) {
    forall i :: 0 <= i < |told| ==> LawfulAt(sessionId, maxSteps, told, i)
  }

  function AnswersOf(sessionId: string, told: seq<Told>): seq<Bytes> {
    seq(|told|, i requires 0 <= i < |told| => ReplyBytes(sessionId, told[i].reply))
  }

  /** The supervisor's JSON reader finds the stop flag that the authority wrote. */
  ghost predicate Reads(codec: F.Codec, sessionId: string) {
    forall r: Reply :: codec.stop(ReplyBytes(sessionId, r)) == Some(r.stop)
  }

  /** Such a reader exists: it may look at the last field alone. */
  lemma ReaderExists(sessionId: string)
    ensures Reads(F.Codec(hello => true, reply => Some(Stops(reply))), sessionId)
  {
    forall r: Reply ensures Stops(ReplyBytes(sessionId, r)) == r.stop { ReplyStops(sessionId, r); }
  }

  /** These texts are the worker's questions. */
  ghost predicate Asking(sessionId: string, told: seq<Told>, texts: seq<string>) {
    |texts| == |told| && forall i :: 0 <= i < |texts| ==> AskedAt(sessionId, told, texts, i)
  }

  predicate AskedAt(sessionId: string, told: seq<Told>, texts: seq<string>, i: nat)
    requires i < |texts| == |told|
  {
    Ascii(texts[i]) == Question(sessionId, AnswersOf(sessionId, told[..i]))
  }

  /** A dialogue of the honest worker that has been answered lawfully. */
  ghost predicate Proper(sessionId: string, maxSteps: nat, told: seq<Told>, texts: seq<string>) {
    Lawful(sessionId, maxSteps, told) && Asking(sessionId, told, texts)
  }

  ghost predicate Unstopped(told: seq<Told>) {
    forall i :: 0 <= i < |told| ==> !told[i].reply.stop
  }

  lemma {:induction false} LawfulMore(sessionId: string, maxSteps: nat, told: seq<Told>, t: Told)
    requires Lawful(sessionId, maxSteps, told) && Unstopped(told)
    requires Answerable(sessionId, maxSteps, |told| / 2 + 1, |told| % 2 == 0, t)
    ensures Lawful(sessionId, maxSteps, told + [t]) && (!t.reply.stop ==> Unstopped(told + [t]))
  {
    var more := told + [t];
    forall i | 0 <= i < |more| ensures LawfulAt(sessionId, maxSteps, more, i) {
      if i < |told| { assert LawfulAt(sessionId, maxSteps, told, i) && more[i] == told[i]; }
    }
  }

  lemma AskingMore(sessionId: string, told: seq<Told>, texts: seq<string>, t: Told, text: string)
    requires Asking(sessionId, told, texts) && Ascii(text) == Question(sessionId, AnswersOf(sessionId, told))
    ensures Asking(sessionId, told + [t], texts + [text])
  {
    var more, longer := told + [t], texts + [text];
    forall i | 0 <= i < |longer| ensures AskedAt(sessionId, more, longer, i) {
      if i < |texts| {
        assert AskedAt(sessionId, told, texts, i);
        assert more[..i] == told[..i] && longer[i] == texts[i];
      } else {
        assert more[..i] == told;
      }
    }
  }

  /** One more lawful exchange. */
  lemma ProperMore(sessionId: string, maxSteps: nat, told: seq<Told>, texts: seq<string>, t: Told, text: string)
    requires Proper(sessionId, maxSteps, told, texts) && Unstopped(told)
    requires Ascii(text) == Question(sessionId, AnswersOf(sessionId, told))
    requires Answerable(sessionId, maxSteps, |told| / 2 + 1, |told| % 2 == 0, t)
    ensures Proper(sessionId, maxSteps, told + [t], texts + [text])
    ensures !t.reply.stop ==> Unstopped(told + [t])
  {
    LawfulMore(sessionId, maxSteps, told, t);
    AskingMore(sessionId, told, texts, t, text);
  }

  /** The dialogue in bytes. */
  function CallsOf(sessionId: string, told: seq<Told>, texts: seq<string>): F.Calls
    requires |told| == |texts|
  {
    seq(|told|, i requires 0 <= i < |told| => (Ascii(texts[i]), ReplyBytes(sessionId, told[i].reply)))
  }

  lemma CallsAgree(sessionId: string, hello: Bytes, told: seq<Told>, texts: seq<string>)
    requires Asking(sessionId, told, texts)
    ensures CallsOf(sessionId, told, texts) == CallsFor(OfflineScript(sessionId, hello), AnswersOf(sessionId, told))
  {
    var script, answers := OfflineScript(sessionId, hello), AnswersOf(sessionId, told);
    forall i | 0 <= i < |told| ensures CallsOf(sessionId, told, texts)[i] == CallsFor(script, answers)[i] {
      assert AskedAt(sessionId, told, texts, i);
      assert answers[..i] == AnswersOf(sessionId, told[..i]);
    }
  }

  lemma QuestionFits(sessionId: string, answers: seq<Bytes>)
    requires |sessionId| == ID_LENGTH && |answers| <= 32
    requires |answers| % 2 == 1 ==> |answers[|answers| - 1]| <= MAX_RESPONSE_BYTES
    ensures |Question(sessionId, answers)| <= MAX_REQUEST_BYTES
  {
    var sequence := |answers| / 2 + 1;
    PlanRequestFits(sessionId, sequence);
    RequestHeadSize('2', sessionId, sequence);
    DigitsShort(sequence);
    assert |",\"operation\":\"propose\",\"plan\":"| == 30;
  }

  lemma LawfulLength(sessionId: string, maxSteps: nat, told: seq<Told>)
    requires Lawful(sessionId, maxSteps, told)
    ensures |told| <= 2 * maxSteps
  {
    if told != [] { assert LawfulAt(sessionId, maxSteps, told, |told| - 1); }
  }

  lemma ReplyTaken(script: Script, codec: F.Codec, sessionId: string, maxSteps: nat, told: seq<Told>, i: nat)
    requires script.stops == (reply => Stops(reply)) && Reads(codec, sessionId)
    requires Lawful(sessionId, maxSteps, told) && maxSteps <= 16 && i < |told|
    ensures Taken(script, codec, F.MAX_OFFLINE_REQUESTS, ReplyBytes(sessionId, told[i].reply), i)
  {
    assert LawfulAt(sessionId, maxSteps, told, i);
    ReplyStops(sessionId, told[i].reply);
  }

  lemma QuestionsFit(sessionId: string, maxSteps: nat, told: seq<Told>, i: nat)
    requires |sessionId| == ID_LENGTH && maxSteps <= 16 && Lawful(sessionId, maxSteps, told) && i <= |told|
    ensures |Question(sessionId, AnswersOf(sessionId, told)[..i])| <= MAX_REQUEST_BYTES
  {
    LawfulLength(sessionId, maxSteps, told);
    if i > 0 {
      assert LawfulAt(sessionId, maxSteps, told, i - 1);
      ReplyStops(sessionId, told[i - 1].reply);
    }
    QuestionFits(sessionId, AnswersOf(sessionId, told)[..i]);
  }

  /** Every proper dialogue suits the honest worker, whatever plans were released and however it ended: its own
      frames fit, the replies fit, and the request limit is never met without a stop. */
  lemma OfflineSuited(codec: F.Codec, sessionId: string, maxSteps: nat, hello: Bytes, told: seq<Told>,
                      texts: seq<string>)
    requires Reads(codec, sessionId) && codec.readyOk(hello) && |hello| <= F.Limit(F.Ready)
    requires |sessionId| == ID_LENGTH && maxSteps <= 16 && Proper(sessionId, maxSteps, told, texts)
    ensures var script, calls := OfflineScript(sessionId, hello), CallsOf(sessionId, told, texts);
      Suited(script, codec, F.MAX_OFFLINE_REQUESTS, calls) && Follows(script, calls)
  {
    var script, answers := OfflineScript(sessionId, hello), AnswersOf(sessionId, told);
    EndingsFit('2', sessionId);
    forall i | 0 <= i < |answers| ensures Taken(script, codec, F.MAX_OFFLINE_REQUESTS, answers[i], i) {
      ReplyTaken(script, codec, sessionId, maxSteps, told, i);
    }
    forall i | 0 <= i <= |answers| ensures |script.ask(answers[..i])| <= F.Limit(F.Request) {
      QuestionsFit(sessionId, maxSteps, told, i);
    }
    CallsSuit(script, codec, F.MAX_OFFLINE_REQUESTS, answers);
    CallsAgree(sessionId, hello, told, texts);
  }

  // -------------------------------------------------------------- version 1

  function ToldBytes(sessionId: string, t: Told): Bytes {
    Ascii(SeenReply(sessionId, t.reply.sequence, t.reply.stop, t.reply.observed, t.body))
  }

  lemma ToldStops(sessionId: string, t: Told)
    ensures Stops(ToldBytes(sessionId, t)) <==> t.reply.stop
  {
    var front := "{\"observation\":" + ObservationText(t.reply.observed, t.body);
    StopsExactly(front, '1', sessionId, t.reply.sequence, t.reply.stop);
  }

  /** The loop of main(): one proposal after the other, each chosen by a planner that sees the answers. */
  function DirectScript(sessionId: string, hello: Bytes, planner: seq<Bytes> -> Document): Script {
    Script(hello, answers => Ascii(Direct(sessionId, planner, answers)), reply => Stops(reply),
           Ascii(CloseText('1', sessionId)))
  }

  function DocumentText(document: Document): string {
    match document case PlanDoc(plan) => PlanText(plan) case OtherDoc(text) => text
  }

  function Direct(sessionId: string, planner: seq<Bytes> -> Document, answers: seq<Bytes>): string {
    DirectRequestText(sessionId, |answers| + 1, DocumentText(planner(answers)))
  }

  /** The fixed planner keeps its proposals within one frame, for as long as it may be asked. */
  ghost predicate Brief(sessionId: string, planner: seq<Bytes> -> Document) {
    forall answers: seq<Bytes> ::
      |answers| <= F.MAX_REQUESTS ==> |Direct(sessionId, planner, answers)| <= MAX_REQUEST_BYTES
  }

  /** So does any planner whose documents leave room for the other fields. */
  lemma BriefPlanner(sessionId: string, planner: seq<Bytes> -> Document)
    requires |sessionId| == ID_LENGTH
    requires forall answers: seq<Bytes> :: |DocumentText(planner(answers))| <= MAX_REQUEST_BYTES - 100
    ensures Brief(sessionId, planner)
  {
    forall answers: seq<Bytes> | |answers| <= F.MAX_REQUESTS
      ensures |Direct(sessionId, planner, answers)| <= MAX_REQUEST_BYTES
    {
      assert |DocumentText(planner(answers))| <= MAX_REQUEST_BYTES - 100;
      RequestHeadSize('1', sessionId, |answers| + 1);
      DigitsShort(|answers| + 1);
      assert |",\"plan\":"| == 8;
    }
  }

  /** The same of a version 1 session. */
  predicate Showable(maxSteps: nat, sequence: nat, t: Told) {
    var r := t.reply;
    && r.sequence == sequence <= maxSteps && (sequence == maxSteps ==> r.stop)
    && |ObservationText(r.observed, t.body)| <= MAX_OBSERVATION_BYTES
  }

  predicate LawfulToldAt(maxSteps: nat, told: seq<Told>, i: nat)
    requires i < |told|
  {
    Showable(maxSteps, i + 1, told[i]) && (i < |told| - 1 ==> !told[i].reply.stop)
  }

  ghost predicate LawfulTold(maxSteps: nat, told: seq<Told>) {
    forall i :: 0 <= i < |told| ==> LawfulToldAt(maxSteps, told, i)
  }

  function ToldAnswers(sessionId: string, told: seq<Told>): seq<Bytes> {
    seq(|told|, i requires 0 <= i < |told| => ToldBytes(sessionId, told[i]))
  }

  ghost predicate ReadsTold(codec: F.Codec, sessionId: string) {
    forall t: Told :: codec.stop(ToldBytes(sessionId, t)) == Some(t.reply.stop)
  }

  lemma ToldReaderExists(sessionId: string)
    ensures ReadsTold(F.Codec(hello => true, reply => Some(Stops(reply))), sessionId)
  {
    forall t: Told ensures Stops(ToldBytes(sessionId, t)) == t.reply.stop { ToldStops(sessionId, t); }
  }

  lemma ToldTaken(script: Script, codec: F.Codec, sessionId: string, maxSteps: nat, told: seq<Told>, i: nat)
    requires script.stops == (reply => Stops(reply)) && ReadsTold(codec, sessionId)
    requires |sessionId| == ID_LENGTH && LawfulTold(maxSteps, told) && maxSteps <= 16 && i < |told|
    ensures Taken(script, codec, F.MAX_REQUESTS, ToldBytes(sessionId, told[i]), i)
  {
    var t := told[i];
    assert LawfulToldAt(maxSteps, told, i);
    ToldStops(sessionId, t);
    SeenReplyFits(sessionId, t.reply.sequence, t.reply.stop, t.reply.observed, t.body);
  }

  /** These texts are the loop's proposals. */
  ghost predicate Directing(sessionId: string, planner: seq<Bytes> -> Document, told: seq<Told>, texts: seq<string>) {
    |texts| == |told|
    && forall i :: 0 <= i < |texts| ==> texts[i] == Direct(sessionId, planner, ToldAnswers(sessionId, told[..i]))
  }

  ghost predicate ProperDirect(sessionId: string, maxSteps: nat, planner: seq<Bytes> -> Document, told: seq<Told>,
                               texts: seq<string>)
  {
    LawfulTold(maxSteps, told) && Directing(sessionId, planner, told, texts)
  }

  lemma {:induction false} ProperDirectMore(
    sessionId: string, maxSteps: nat, planner: seq<Bytes> -> Document, told: seq<Told>, texts: seq<string>, t: Told,
    text: string)
    requires ProperDirect(sessionId, maxSteps, planner, told, texts) && Unstopped(told)
    requires text == Direct(sessionId, planner, ToldAnswers(sessionId, told)) && Showable(maxSteps, |told| + 1, t)
    ensures ProperDirect(sessionId, maxSteps, planner, told + [t], texts + [text])
    ensures !t.reply.stop ==> Unstopped(told + [t])
  {
    var more, longer := told + [t], texts + [text];
    forall i | 0 <= i < |more| ensures LawfulToldAt(maxSteps, more, i) {
      if i < |told| { assert LawfulToldAt(maxSteps, told, i) && more[i] == told[i]; }
    }
    forall i | 0 <= i < |longer|
      ensures longer[i] == Direct(sessionId, planner, ToldAnswers(sessionId, more[..i]))
    {
      if i < |texts| {
        assert more[..i] == told[..i] && longer[i] == texts[i];
      } else {
        assert more[..i] == told;
      }
    }
  }

  function DirectCalls(sessionId: string, told: seq<Told>, texts: seq<string>): F.Calls
    requires |told| == |texts|
  {
    seq(|told|, i requires 0 <= i < |told| => (Ascii(texts[i]), ToldBytes(sessionId, told[i])))
  }

  lemma DirectCallsAgree(sessionId: string, hello: Bytes, planner: seq<Bytes> -> Document, told: seq<Told>,
                         texts: seq<string>)
    requires Directing(sessionId, planner, told, texts)
    ensures DirectCalls(sessionId, told, texts) ==
      CallsFor(DirectScript(sessionId, hello, planner), ToldAnswers(sessionId, told))
  {
    var script, answers := DirectScript(sessionId, hello, planner), ToldAnswers(sessionId, told);
    forall i | 0 <= i < |told| ensures DirectCalls(sessionId, told, texts)[i] == CallsFor(script, answers)[i] {
      assert answers[..i] == ToldAnswers(sessionId, told[..i]);
      assert texts[i] == Direct(sessionId, planner, ToldAnswers(sessionId, told[..i]));
    }
  }

  lemma LawfulToldLength(maxSteps: nat, told: seq<Told>)
    requires LawfulTold(maxSteps, told)
    ensures |told| <= maxSteps
  {
    if told != [] { assert LawfulToldAt(maxSteps, told, |told| - 1); }
  }

  /** The same for version 1: every reply fits its frame, because what it shows of a result is bounded. */
  lemma DirectSuited(codec: F.Codec, sessionId: string, maxSteps: nat, hello: Bytes, planner: seq<Bytes> -> Document,
                     told: seq<Told>, texts: seq<string>)
    requires ReadsTold(codec, sessionId) && codec.readyOk(hello) && |hello| <= F.Limit(F.Ready)
    requires |sessionId| == ID_LENGTH && maxSteps <= 16 && Brief(sessionId, planner)
    requires ProperDirect(sessionId, maxSteps, planner, told, texts)
    ensures var script, calls := DirectScript(sessionId, hello, planner), DirectCalls(sessionId, told, texts);
      Suited(script, codec, F.MAX_REQUESTS, calls) && Follows(script, calls)
  {
    var script, answers := DirectScript(sessionId, hello, planner), ToldAnswers(sessionId, told);
    EndingsFit('1', sessionId);
    LawfulToldLength(maxSteps, told);
    forall i | 0 <= i < |answers| ensures Taken(script, codec, F.MAX_REQUESTS, answers[i], i) {
      ToldTaken(script, codec, sessionId, maxSteps, told, i);
    }
    forall i | 0 <= i <= |answers| ensures |script.ask(answers[..i])| <= F.Limit(F.Request) {
      assert |Direct(sessionId, planner, answers[..i])| <= MAX_REQUEST_BYTES;
    }
    CallsSuit(script, codec, F.MAX_REQUESTS, answers);
    DirectCallsAgree(sessionId, hello, planner, told, texts);
  }
}
