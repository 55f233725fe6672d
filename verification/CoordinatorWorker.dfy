/** The honest coordinator (recon_cockpit/secure_agent/coordinator_worker.py) talking through its supervisor to one
    authority session, from the first request to the accepted close. */
module CoordinatorWorker {
  import opened Prelude
  import opened Execution
  import opened Models
  import opened SessionProtocol
  import opened ControlPath
  import opened ControlPlane
  import opened CoordinatorPeer
  import opened WorkerScript
  import F = CoordinatorFrames

  datatype RelayFault = InvalidFrame | RequestLimit | Callback(fault: Fault) | Interrupted(stop: Stop)

  datatype Outcome = Done | CoordinatorLimit | InvalidResponse | Lost(fault: RelayFault)

  /** A fault has left its mark on the session. */
  ghost predicate Scarred(session: AuthoritySession, fault: Fault)
    reads session, session.controller
  {
    && (fault == AuditUnavailable ==> session.controller.auditFailed)
    && (fault == ApprovalUnavailable ==> session.controller.approvalFailed)
    && (fault == Unlisted ==> session.lost)
  }

  /** A failed exchange of an honest worker: the session's control has stopped, or something raised in the authority's
      own surroundings has ended the session. It is never a refused request, a frame too long or a request too many. */
  ghost predicate Excused(session: AuthoritySession, failure: RelayFault)
    reads session, session.Parts(), session.controller.cells
  {
    match failure
    case Interrupted(stop) => Halting(session.controller.control, stop)
    case Callback(fault) =>
      fault != ProtocolFailure && session.controller.Caused(fault) && Scarred(session, fault)
    case _ => false
  }

  /** What the authority may answer to a request with this number. */
  predicate Lawfully(session: AuthoritySession, sequence: nat, planning: bool, t: Told) {
    if session.offline then Answerable(session.sessionId, session.limits.maxSteps, sequence, planning, t)
    else Showable(session.limits.maxSteps, sequence, t)
  }

  lemma ReplyLawful(session: AuthoritySession, request: Request, t: Told)
    requires session.Valid() && |ObservationText(t.reply.observed, t.body)| <= MAX_OBSERVATION_BYTES
    requires Answers(session.offline, session.cells.closed, session.pendingPlan, session.stepsAttempted, request,
      t.reply)
    ensures Lawfully(session, session.stepsAttempted, !Proposes(request), t)
  {
    BareReplyFits(session.sessionId, t.reply.sequence, t.reply.stop);
  }

  function Text(session: AuthoritySession, t: Told): string {
    if session.offline then PlanReply(session.sessionId, t.reply.sequence, t.reply.stop, t.reply.plan)
    else SeenReply(session.sessionId, t.reply.sequence, t.reply.stop, t.reply.observed, t.body)
  }

  /** Every lawful reply fits its frame. */
  lemma TextFits(session: AuthoritySession, sequence: nat, planning: bool, t: Told)
    requires |session.sessionId| == ID_LENGTH && session.limits.maxSteps <= 16
    requires Lawfully(session, sequence, planning, t)
    ensures |Text(session, t)| <= MAX_RESPONSE_BYTES
  {
    if session.offline {
      PlanReplyLength(session.sessionId, t.reply.sequence, t.reply.stop, t.reply.plan);
    } else {
      SeenReplyFits(session.sessionId, t.reply.sequence, t.reply.stop, t.reply.observed, t.body);
    }
  }

  lemma BodyFits(status: Option<Status>)
    ensures |ObservationText(status, "")| <= MAX_OBSERVATION_BYTES
  {
    if status.Some? {
      assert |"{\"body\":\""| == 9 && |"\",\"execution_status\":\""| == 22 && |StatusText(status.value)| <= 12;
    }
  }

  /** The piece of the last result's body that a version 1 reply shows: anything within its bound. */
  method Show(reply: Reply) returns (t: Told)
    ensures t.reply == reply && |ObservationText(reply.observed, t.body)| <= MAX_OBSERVATION_BYTES
  {
    var body: string := *;
    BodyFits(reply.observed);
    return Told(reply, if |ObservationText(reply.observed, body)| > MAX_OBSERVATION_BYTES then "" else body);
  }

  /** The supervisor's side of one exchange, its frames and its request counter included
      (recon_cockpit/secure_agent/coordinator_ipc.py). `answer` is what the authority answered, even when the
      exchange fails afterwards. */
  class Relay {
    const session: AuthoritySession
    const maxRequests: nat
    var requests: nat

    constructor (session: AuthoritySession, maxRequests: nat)
      ensures this.session == session && this.maxRequests == maxRequests && requests == 0
    {
      this.session, this.maxRequests, this.requests := session, maxRequests, 0;
    }

    /** One request, as the value the authority reads and as the text that travels. It fails only because its own
        text is too long or the request is refused, because the requests run out while the session is still open, or
        because a fault has stopped the session: the frame of the reply never does. */
    method Call(request: Request, text: string) returns (r: Result<Reply, RelayFault>, answer: Option<Told>)
      requires session.Valid() && request.Object?
      modifies this`requests
      modifies session`actionsSucceeded, session`steps, session`outputReserved, session`pendingPlan, session`lost
      modifies session`stepsAttempted, session.controller, session.controller.history, session.controller.control
      modifies session.cells, session.controller.approvals, session.controller.backend
      ensures session.Settled() && session.Grounded() && requests <= old(requests) + 1
      ensures answer.Some? ==> request.sequence.Some? && request.sequence.value >= 0
      ensures answer.Some? ==> Lawfully(session, request.sequence.value, !Proposes(request), answer.value)
      ensures r.Ok? ==> answer.Some? && answer.value.reply == r.value
      ensures r.Ok? ==> session.Valid() && !session.cells.protocolFailed && requests == old(requests) + 1
      ensures r.Ok? ==>
        Answers(session.offline, session.cells.closed, session.pendingPlan, session.stepsAttempted, request, r.value)
      ensures r.Err? ==>
        || (r.error.InvalidFrame? && |text| > MAX_REQUEST_BYTES)
        || (r.error.RequestLimit? && requests >= maxRequests
            && (old(requests) < maxRequests ==> answer.Some? && !answer.value.reply.stop))
        || (r.error == Callback(ProtocolFailure) && old(session.Refuses(request)).Some?)
        || Excused(session, r.error)
    {
      answer := None;
      if |text| > MAX_REQUEST_BYTES { return Err(InvalidFrame), None; }
      requests := requests + 1;
      if requests > maxRequests { return Err(RequestLimit), None; }
      r, answer := Mediate(request);
      if r.Ok? && requests == maxRequests && !r.value.stop { r := Err(RequestLimit); }
    }

    /** The callback between two checks, and the frame of its answer. */
    method Mediate(request: Request) returns (r: Result<Reply, RelayFault>, answer: Option<Told>)
      requires session.Valid() && request.Object?
      modifies session`actionsSucceeded, session`steps, session`outputReserved, session`pendingPlan, session`lost
      modifies session`stepsAttempted, session.controller, session.controller.history, session.controller.control
      modifies session.cells, session.controller.approvals, session.controller.backend
      ensures session.Settled() && session.Grounded()
      ensures answer.Some? ==> request.sequence.Some? && request.sequence.value >= 0
      ensures answer.Some? ==> Lawfully(session, request.sequence.value, !Proposes(request), answer.value)
      ensures r.Ok? ==> answer.Some? && answer.value.reply == r.value
      ensures r.Ok? ==> session.Valid() && !session.cells.protocolFailed
      ensures r.Ok? ==>
        Answers(session.offline, session.cells.closed, session.pendingPlan, session.stepsAttempted, request, r.value)
      ensures r.Err? ==>
        (r.error == Callback(ProtocolFailure) && old(session.Refuses(request)).Some?) || Excused(session, r.error)
    {
      r, answer := Ask(request);
      if r.Ok? { r := Release(answer.value, request); }
    }

    /** The check after the callback, and the frame. */
    method Release(t: Told, request: Request) returns (r: Result<Reply, RelayFault>)
      requires session.Valid() && request.Object? && request.sequence.Some? && request.sequence.value >= 0
      requires Lawfully(session, request.sequence.value, !Proposes(request), t)
      requires Answers(session.offline, session.cells.closed, session.pendingPlan, session.stepsAttempted, request,
        t.reply)
      modifies session.controller`auditFailed, session.controller.history, session.controller.control, session.cells
      ensures session.Settled() && session.Grounded() && (r.Ok? ==> r.value == t.reply)
      ensures r.Ok? ==> session.Valid() && !session.cells.protocolFailed
      ensures r.Ok? ==>
        Answers(session.offline, session.cells.closed, session.pendingPlan, session.stepsAttempted, request, r.value)
      ensures r.Err? ==> Excused(session, r.error)
    {
      var stop := session.Poll();
      if stop.Some? { return Err(Interrupted(stop.value)); }
      r := Post(t, request.sequence.value, !Proposes(request));
    }

    /** The callback, and what its answer shows. */
    method Ask(request: Request) returns (r: Result<Reply, RelayFault>, answer: Option<Told>)
      requires session.Valid() && request.Object?
      modifies session`actionsSucceeded, session`steps, session`outputReserved, session`pendingPlan, session`lost
      modifies session`stepsAttempted, session.controller, session.controller.history, session.controller.control
      modifies session.cells, session.controller.approvals, session.controller.backend
      ensures session.Valid() || (session.Settled() && session.Grounded() && r.Err?)
      ensures answer.Some? ==> request.sequence.Some? && request.sequence.value >= 0
      ensures answer.Some? ==> Lawfully(session, request.sequence.value, !Proposes(request), answer.value)
      ensures r.Ok? ==> answer.Some? && answer.value.reply == r.value
      ensures r.Err? ==> answer.None?
      ensures r.Ok? ==>
        Answers(session.offline, session.cells.closed, session.pendingPlan, session.stepsAttempted, request, r.value)
      ensures r.Err? ==>
        (r.error == Callback(ProtocolFailure) && old(session.Refuses(request)).Some?) || Excused(session, r.error)
    {
      answer := None;
      r := Consult(request);
      if r.Ok? { answer := Reveal(request, r.value); }
    }

    /** What an answer shows. */
    method Reveal(request: Request, reply: Reply) returns (answer: Option<Told>)
      requires session.Valid() && request.Object?
      requires Answers(session.offline, session.cells.closed, session.pendingPlan, session.stepsAttempted, request,
        reply)
      ensures answer.Some? && answer.value.reply == reply && request.sequence.Some? && request.sequence.value >= 0
      ensures Lawfully(session, request.sequence.value, !Proposes(request), answer.value)
    {
      var t := Show(reply);
      ReplyLawful(session, request, t);
      answer := Some(t);
    }

    /** The callback, after a check. */
    method Consult(request: Request) returns (r: Result<Reply, RelayFault>)
      requires session.Valid()
      modifies session`actionsSucceeded, session`steps, session`outputReserved, session`pendingPlan, session`lost
      modifies session`stepsAttempted, session.controller, session.controller.history, session.controller.control
      modifies session.cells, session.controller.approvals, session.controller.backend
      ensures session.Valid() || (session.Settled() && session.Grounded() && r.Err?)
      ensures r.Ok? ==>
        Answers(session.offline, session.cells.closed, session.pendingPlan, session.stepsAttempted, request, r.value)
      ensures r.Err? ==>
        (r.error == Callback(ProtocolFailure) && old(session.Refuses(request)).Some?) || Excused(session, r.error)
    {
      var stop := session.Poll();
      if stop.Some? { return Err(Interrupted(stop.value)); }
      var served := session.Exchange(request, false);
      return if served.Ok? then Ok(served.value) else Err(Callback(served.error));
    }

    /** frame(RESPONSE, ...): a lawful answer is never too long. */
    method Post(t: Told, ghost sequence: nat, ghost planning: bool) returns (r: Result<Reply, RelayFault>)
      requires |session.sessionId| == ID_LENGTH && session.limits.maxSteps <= 16
      requires Lawfully(session, sequence, planning, t)
      ensures r == Ok(t.reply)
    {
      TextFits(session, sequence, planning, t);
      return if |Text(session, t)| > MAX_RESPONSE_BYTES then Err(InvalidFrame) else Ok(t.reply);
    }
  }

  // ------------------------------------------------------------- version 2

  function PlanRequest(sessionId: string, sequence: nat): Request {
    Object(Names(true, false), "2", sessionId, Some(sequence), Some("plan"), OtherDoc(""))
  }

  function ProposeRequest(sessionId: string, sequence: nat, plan: Plan): Request {
    Object(Names(true, true), "2", sessionId, Some(sequence), Some("propose"), PlanDoc(plan))
  }

  function DirectRequest(sessionId: string, sequence: nat, document: Document): Request {
    Object(Names(false, false), "1", sessionId, Some(sequence), None, document)
  }

  /** _offline_response(): a planning reply carries a plan exactly unless it stops; no other reply carries one. */
  predicate GoodResponse(reply: Reply, sequence: nat, planning: bool) {
    reply.sequence == sequence && (reply.plan.Some? <==> planning && !reply.stop)
  }

  /** The worker is about to send its n-th request, and everything before has been answered lawfully. */
  ghost predicate Standing(session: AuthoritySession, told: seq<Told>, texts: seq<string>, n: nat) {
    session.offline && |told| == n && Unstopped(told)
    && Proper(session.sessionId, session.limits.maxSteps, told, texts)
  }

  /** The last reply released this plan. */
  ghost predicate LastReleased(told: seq<Told>, sequence: nat, plan: Plan) {
    told != [] && var r := told[|told| - 1].reply; r.sequence == sequence && !r.stop && r.plan == Some(plan)
  }

  /** One answered request more. */
  lemma StandingMore(session: AuthoritySession, told: seq<Told>, texts: seq<string>, n: nat, t: Told, text: string)
    requires Standing(session, told, texts, n) && Lawfully(session, n / 2 + 1, n % 2 == 0, t)
    requires Ascii(text) == Question(session.sessionId, AnswersOf(session.sessionId, told))
    ensures Proper(session.sessionId, session.limits.maxSteps, told + [t], texts + [text])
    ensures !t.reply.stop ==> Standing(session, told + [t], texts + [text], n + 1)
  {
    ProperMore(session.sessionId, session.limits.maxSteps, told, texts, t, text);
  }

  /** The dialogue with this answer, if there was one. */
  lemma Extended(session: AuthoritySession, told: seq<Told>, texts: seq<string>, n: nat, answer: Option<Told>,
                 text: string)
    returns (after: seq<Told>, sent: seq<string>)
    requires Standing(session, told, texts, n)
    requires answer.Some? ==> Lawfully(session, n / 2 + 1, n % 2 == 0, answer.value)
    requires Ascii(text) == Question(session.sessionId, AnswersOf(session.sessionId, told))
    ensures Proper(session.sessionId, session.limits.maxSteps, after, sent)
    ensures answer.Some? && !answer.value.reply.stop ==>
      Standing(session, after, sent, n + 1) && after[n] == answer.value
  {
    after, sent := told, texts;
    if answer.Some? {
      StandingMore(session, told, texts, n, answer.value, text);
      after, sent := told + [answer.value], texts + [text];
    }
  }

  lemma Halves(n: nat)
    ensures (2 * n) / 2 == n && (2 * n) % 2 == 0 && (2 * n + 1) / 2 == n && (2 * n + 1) % 2 == 1
  {
  }

  lemma PlanAsked(sessionId: string, answers: seq<Bytes>, sequence: nat)
    requires sequence >= 1 && |answers| == 2 * (sequence - 1)
    ensures Ascii(PlanRequestText(sessionId, sequence)) == Question(sessionId, answers)
  {
    Halves(sequence - 1);
  }

  /** ... after a plan request, ... */
  lemma PlanExtended(session: AuthoritySession, told: seq<Told>, texts: seq<string>, sequence: nat,
                     answer: Option<Told>)
    returns (after: seq<Told>, sent: seq<string>)
    requires sequence >= 1 && Standing(session, told, texts, 2 * (sequence - 1))
    requires answer.Some? ==> Lawfully(session, sequence, true, answer.value)
    ensures Proper(session.sessionId, session.limits.maxSteps, after, sent)
    ensures answer.Some? && !answer.value.reply.stop ==>
      Standing(session, after, sent, 2 * sequence - 1) && after[2 * sequence - 2] == answer.value
  {
    Halves(sequence - 1);
    PlanAsked(session.sessionId, AnswersOf(session.sessionId, told), sequence);
    after, sent := Extended(session, told, texts, 2 * (sequence - 1), answer,
                            PlanRequestText(session.sessionId, sequence));
  }

  /** ... and after a proposal. */
  lemma ProposalExtended(session: AuthoritySession, told: seq<Told>, texts: seq<string>, sequence: nat, plan: Plan,
                         answer: Option<Told>)
    returns (after: seq<Told>, sent: seq<string>)
    requires sequence >= 1 && Standing(session, told, texts, 2 * sequence - 1) && LastReleased(told, sequence, plan)
    requires answer.Some? ==> Lawfully(session, sequence, false, answer.value)
    ensures Proper(session.sessionId, session.limits.maxSteps, after, sent)
    ensures answer.Some? && !answer.value.reply.stop ==> Standing(session, after, sent, 2 * sequence)
  {
    Halves(sequence - 1);
    ProposalAsked(session, told, texts, sequence, plan);
    after, sent := Extended(session, told, texts, 2 * sequence - 1, answer,
                            ProposeRequestText(session.sessionId, sequence, PlanText(plan)));
  }

  /** The authority refuses neither request of the honest worker. */
  lemma PlanAdmitted(session: AuthoritySession, sequence: nat)
    requires session.Valid() && session.offline && !session.cells.closed && session.pendingPlan.None?
    requires session.stepsAttempted + 1 == sequence
    ensures session.Refuses(PlanRequest(session.sessionId, sequence)).None?
  {
  }

  lemma ProposalAdmitted(session: AuthoritySession, sequence: nat, plan: Plan)
    requires session.Valid() && session.offline && !session.cells.closed && session.pendingPlan == Some(plan)
    requires session.stepsAttempted == sequence
    ensures session.Refuses(ProposeRequest(session.sessionId, sequence, plan)).None?
    ensures |ProposeRequestText(session.sessionId, sequence, PlanText(plan))| <= MAX_REQUEST_BYTES
  {
    ProposalFits(session, sequence, plan);
  }

  lemma DirectAdmitted(session: AuthoritySession, sequence: nat, document: Document)
    requires session.Valid() && !session.offline && !session.cells.closed && session.pendingPlan.None?
    requires session.stepsAttempted + 1 == sequence
    ensures session.Refuses(DirectRequest(session.sessionId, sequence, document)).None?
  {
  }

  lemma ProposalAsked(session: AuthoritySession, told: seq<Told>, texts: seq<string>, sequence: nat, plan: Plan)
    requires sequence >= 1 && Standing(session, told, texts, 2 * sequence - 1) && LastReleased(told, sequence, plan)
    ensures Ascii(ProposeRequestText(session.sessionId, sequence, PlanText(plan))) ==
      Question(session.sessionId, AnswersOf(session.sessionId, told))
  {
    ReleasedIsAsked(session.sessionId, told, sequence, plan);
  }

  lemma ReleasedIsAsked(sessionId: string, told: seq<Told>, sequence: nat, plan: Plan)
    requires sequence >= 1 && |told| == 2 * sequence - 1 && LastReleased(told, sequence, plan)
    ensures Ascii(ProposeRequestText(sessionId, sequence, PlanText(plan))) ==
      Question(sessionId, AnswersOf(sessionId, told))
  {
    var answers, last := AnswersOf(sessionId, told), told[|told| - 1].reply;
    assert |answers| == 2 * (sequence - 1) + 1 && answers[|answers| - 1] == ReplyBytes(sessionId, last);
    QuestionProposes(sessionId, answers, sequence, last, plan);
  }

  lemma ProposalFits(session: AuthoritySession, sequence: nat, plan: Plan)
    requires session.Fitting(plan, sequence)
    ensures |ProposeRequestText(session.sessionId, sequence, PlanText(plan))| <= MAX_REQUEST_BYTES
  {
    ProposalSize(session.sessionId, sequence, plan);
    PlanReplyLength(session.sessionId, sequence, false, Some(plan));
  }

  /** A plan request is served, or excused. */
  method SendPlan(relay: Relay, sequence: nat) returns (reply: Result<Reply, RelayFault>, answer: Option<Told>)
    requires relay.session.Valid() && !relay.session.cells.closed && relay.session.pendingPlan.None?
    requires relay.session.offline && relay.session.stepsAttempted + 1 == sequence && relay.maxRequests == 32
    requires relay.requests == 2 * (sequence - 1)
    modifies relay`requests, relay.session`actionsSucceeded, relay.session`steps, relay.session`outputReserved
    modifies relay.session`pendingPlan, relay.session`stepsAttempted, relay.session`lost, relay.session.controller
    modifies relay.session.controller.history, relay.session.controller.control, relay.session.cells
    modifies relay.session.controller.approvals, relay.session.controller.backend
    ensures relay.session.Settled() && relay.session.Grounded() && relay.requests <= 2 * sequence - 1
    ensures answer.Some? ==> Lawfully(relay.session, sequence, true, answer.value)
    ensures reply.Err? ==> Excused(relay.session, reply.error)
    ensures reply.Ok? ==> relay.session.Valid() && !relay.session.cells.protocolFailed && answer.Some?
    ensures reply.Ok? ==> relay.session.stepsAttempted == sequence && relay.requests == 2 * sequence - 1
    ensures reply.Ok? ==> answer.value.reply == reply.value && GoodResponse(reply.value, sequence, true)
    ensures reply.Ok? && reply.value.plan.None? ==> relay.session.cells.closed
    ensures reply.Ok? && reply.value.plan.Some? ==>
      !relay.session.cells.closed && relay.session.pendingPlan == reply.value.plan
  {
    PlanRequestFits(relay.session.sessionId, sequence);
    PlanAdmitted(relay.session, sequence);
    reply, answer := relay.Call(PlanRequest(relay.session.sessionId, sequence),
                                PlanRequestText(relay.session.sessionId, sequence));
  }

  /** Ask for a plan; None: the session has closed. */
  method AskPlan(relay: Relay, sequence: nat, ghost told: seq<Told>, ghost texts: seq<string>)
    returns (plan: Option<Plan>, failure: Option<Outcome>, ghost after: seq<Told>, ghost sent: seq<string>)
    requires relay.session.Valid() && !relay.session.cells.closed && relay.session.pendingPlan.None?
    requires relay.session.stepsAttempted + 1 == sequence && relay.maxRequests == 32
    requires relay.requests == 2 * (sequence - 1) && Standing(relay.session, told, texts, 2 * (sequence - 1))
    modifies relay`requests, relay.session`actionsSucceeded, relay.session`steps, relay.session`outputReserved
    modifies relay.session`pendingPlan, relay.session`stepsAttempted, relay.session`lost, relay.session.controller
    modifies relay.session.controller.history, relay.session.controller.control, relay.session.cells
    modifies relay.session.controller.approvals, relay.session.controller.backend
    ensures relay.session.Settled() && relay.session.Grounded() && relay.requests <= 2 * sequence - 1
    ensures Proper(relay.session.sessionId, relay.session.limits.maxSteps, after, sent)
    ensures failure.Some? ==> failure.value.Lost? && Excused(relay.session, failure.value.fault)
    ensures failure.None? ==> relay.session.Valid() && !relay.session.cells.protocolFailed
    ensures failure.None? ==> relay.session.stepsAttempted == sequence && relay.requests == 2 * sequence - 1
    ensures failure.None? && plan.None? ==> relay.session.cells.closed
    ensures failure.None? && plan.Some? ==> !relay.session.cells.closed && relay.session.pendingPlan == plan
    ensures failure.None? && plan.Some? ==>
      Standing(relay.session, after, sent, 2 * sequence - 1) && LastReleased(after, sequence, plan.value)
  {
    var reply, answer := SendPlan(relay, sequence);
    after, sent := PlanExtended(relay.session, told, texts, sequence, answer);
    if reply.Err? { return None, Some(Lost(reply.error)), after, sent; }
    if !GoodResponse(reply.value, sequence, true) { return None, Some(InvalidResponse), after, sent; }
    return reply.value.plan, None, after, sent;
  }

  /** Propose the plan that was released. */
  method ProposePlan(relay: Relay, sequence: nat, plan: Plan, ghost told: seq<Told>, ghost texts: seq<string>)
    returns (stopped: bool, failure: Option<Outcome>, ghost after: seq<Told>, ghost sent: seq<string>)
    requires relay.session.Valid() && !relay.session.cells.closed && relay.session.pendingPlan == Some(plan)
    requires relay.session.stepsAttempted == sequence && relay.maxRequests == 32 && relay.requests == 2 * sequence - 1
    requires Standing(relay.session, told, texts, 2 * sequence - 1) && LastReleased(told, sequence, plan)
    modifies relay`requests, relay.session`actionsSucceeded, relay.session`steps, relay.session`outputReserved
    modifies relay.session`pendingPlan, relay.session`stepsAttempted, relay.session`lost, relay.session.controller
    modifies relay.session.controller.history, relay.session.controller.control, relay.session.cells
    modifies relay.session.controller.approvals, relay.session.controller.backend
    ensures relay.session.Settled() && relay.session.Grounded() && relay.requests <= 2 * sequence
    ensures Proper(relay.session.sessionId, relay.session.limits.maxSteps, after, sent)
    ensures failure.Some? ==> failure.value.Lost? && Excused(relay.session, failure.value.fault)
    ensures failure.None? ==> relay.session.Valid() && !relay.session.cells.protocolFailed
    ensures failure.None? ==> relay.session.cells.closed == stopped
    ensures failure.None? && !stopped ==> relay.session.stepsAttempted == sequence && relay.session.pendingPlan.None?
    ensures failure.None? && !stopped ==>
      relay.requests == 2 * sequence && Standing(relay.session, after, sent, 2 * sequence)
  {
    var text := ProposeRequestText(relay.session.sessionId, sequence, PlanText(plan));
    ProposalAdmitted(relay.session, sequence, plan);
    var reply, answer := relay.Call(ProposeRequest(relay.session.sessionId, sequence, plan), text);
    after, sent := ProposalExtended(relay.session, told, texts, sequence, plan, answer);
    if reply.Err? { return false, Some(Lost(reply.error)), after, sent; }
    if !GoodResponse(reply.value, sequence, false) { return false, Some(InvalidResponse), after, sent; }
    return reply.value.stop, None, after, sent;
  }

  /** One turn: ask for a plan, and propose it when there is one. */
  method Turn(relay: Relay, sequence: nat, ghost told: seq<Told>, ghost texts: seq<string>)
    returns (stopped: bool, failure: Option<Outcome>, ghost after: seq<Told>, ghost sent: seq<string>)
    requires relay.session.Valid() && !relay.session.cells.closed && relay.session.pendingPlan.None?
    requires relay.session.stepsAttempted + 1 == sequence && relay.maxRequests == 32
    requires relay.requests == 2 * (sequence - 1) && Standing(relay.session, told, texts, 2 * (sequence - 1))
    modifies relay`requests, relay.session`actionsSucceeded, relay.session`steps, relay.session`outputReserved
    modifies relay.session`pendingPlan, relay.session`stepsAttempted, relay.session`lost, relay.session.controller
    modifies relay.session.controller.history, relay.session.controller.control, relay.session.cells
    modifies relay.session.controller.approvals, relay.session.controller.backend
    ensures relay.session.Settled() && relay.session.Grounded() && relay.requests <= 2 * sequence
    ensures Proper(relay.session.sessionId, relay.session.limits.maxSteps, after, sent)
    ensures failure.Some? ==> failure.value.Lost? && Excused(relay.session, failure.value.fault)
    ensures failure.None? ==> relay.session.Valid() && !relay.session.cells.protocolFailed
    ensures failure.None? ==> relay.session.cells.closed == stopped
    ensures failure.None? && !stopped ==> relay.session.stepsAttempted == sequence && relay.session.pendingPlan.None?
    ensures failure.None? && !stopped ==>
      relay.requests == 2 * sequence && Standing(relay.session, after, sent, 2 * sequence)
  {
    var plan;
    plan, failure, after, sent := AskPlan(relay, sequence, told, texts);
    if failure.Some? { return false, failure, after, sent; }
    if plan.None? { return true, None, after, sent; }
    stopped, failure, after, sent := ProposePlan(relay, sequence, plan.value, after, sent);
  }

  /** _offline_dialogue(): for every provider, policy and backend behaviour the honest worker is never rejected, no
      frame of the dialogue is too long, it never runs out of requests, and it comes to its close unless a fault
      stops the session. Whatever happens, the dialogue up to then is a proper one. */
  method OfflineDialogue(relay: Relay) returns (outcome: Outcome, ghost told: seq<Told>, ghost texts: seq<string>)
    requires relay.session.Valid() && relay.session.offline && !relay.session.cells.closed
    requires relay.session.stepsAttempted == 0 && relay.session.pendingPlan.None?
    requires relay.maxRequests == F.MAX_OFFLINE_REQUESTS && relay.requests == 0
    modifies relay`requests, relay.session`actionsSucceeded, relay.session`steps, relay.session`outputReserved
    modifies relay.session`pendingPlan, relay.session`stepsAttempted, relay.session`lost, relay.session.controller
    modifies relay.session.controller.history, relay.session.controller.control, relay.session.cells
    modifies relay.session.controller.approvals, relay.session.controller.backend
    ensures relay.session.Settled() && relay.session.Grounded()
    ensures relay.requests <= 2 * relay.session.limits.maxSteps <= F.MAX_OFFLINE_REQUESTS
    ensures Proper(relay.session.sessionId, relay.session.limits.maxSteps, told, texts)
    ensures if outcome.Done? then relay.session.Valid() && relay.session.cells.closed
            else outcome.Lost? && Excused(relay.session, outcome.fault)
  {
    var sequence := 1;
    told, texts := [], [];
    while sequence <= F.MAX_OFFLINE_REQUESTS / 2
      invariant 1 <= sequence <= 17 && relay.requests == 2 * (sequence - 1)
      invariant relay.session.Valid() && !relay.session.cells.closed && relay.session.pendingPlan.None?
      invariant relay.session.stepsAttempted == sequence - 1
      invariant Standing(relay.session, told, texts, 2 * (sequence - 1))
    {
      var stopped, failure;
      stopped, failure, told, texts := Turn(relay, sequence, told, texts);
      if failure.Some? { return failure.value, told, texts; }
      if stopped { return Done, told, texts; }
      sequence := sequence + 1;
    }
    return CoordinatorLimit, told, texts;
  }

  // ------------------------------------------------------------- version 1

  /** A version 1 request is served, or excused. */
  method SendDirect(relay: Relay, sequence: nat, planner: seq<Bytes> -> Document, answers: seq<Bytes>)
    returns (reply: Result<Reply, RelayFault>, answer: Option<Told>)
    requires relay.session.Valid() && !relay.session.cells.closed && relay.session.pendingPlan.None?
    requires !relay.session.offline && relay.session.stepsAttempted + 1 == sequence
    requires relay.maxRequests == F.MAX_REQUESTS && relay.requests == sequence - 1
    requires Brief(relay.session.sessionId, planner) && |answers| + 1 == sequence
    modifies relay`requests, relay.session`actionsSucceeded, relay.session`steps, relay.session`outputReserved
    modifies relay.session`pendingPlan, relay.session`stepsAttempted, relay.session`lost, relay.session.controller
    modifies relay.session.controller.history, relay.session.controller.control, relay.session.cells
    modifies relay.session.controller.approvals, relay.session.controller.backend
    ensures relay.session.Settled() && relay.session.Grounded()
    ensures relay.requests <= sequence <= relay.session.limits.maxSteps
    ensures answer.Some? ==> Showable(relay.session.limits.maxSteps, sequence, answer.value)
    ensures reply.Err? ==> Excused(relay.session, reply.error)
    ensures reply.Ok? ==> relay.session.Valid() && !relay.session.cells.protocolFailed && relay.requests == sequence
    ensures reply.Ok? ==> answer.Some? && answer.value.reply == reply.value && reply.value.sequence == sequence
    ensures reply.Ok? ==> reply.value.stop == relay.session.cells.closed
    ensures reply.Ok? && !reply.value.stop ==> relay.session.pendingPlan.None?
    ensures reply.Ok? ==> relay.session.stepsAttempted == sequence
  {
    var text := Direct(relay.session.sessionId, planner, answers);
    DirectAdmitted(relay.session, sequence, planner(answers));
    reply, answer := relay.Call(DirectRequest(relay.session.sessionId, sequence, planner(answers)), text);
  }

  lemma DirectExtended(session: AuthoritySession, planner: seq<Bytes> -> Document, told: seq<Told>, texts: seq<string>,
                       t: Told)
    returns (sent: seq<string>)
    requires ProperDirect(session.sessionId, session.limits.maxSteps, planner, told, texts) && Unstopped(told)
    requires Showable(session.limits.maxSteps, |told| + 1, t)
    ensures ProperDirect(session.sessionId, session.limits.maxSteps, planner, told + [t], sent)
    ensures !t.reply.stop ==> Unstopped(told + [t])
  {
    var text := Direct(session.sessionId, planner, ToldAnswers(session.sessionId, told));
    sent := texts + [text];
    ProperDirectMore(session.sessionId, session.limits.maxSteps, planner, told, texts, t, text);
  }

  /** Every proposal so far has been answered lawfully, and none of the answers stopped. */
  ghost predicate Directed(session: AuthoritySession, planner: seq<Bytes> -> Document, told: seq<Told>,
                           texts: seq<string>, answers: seq<Bytes>)
  {
    ProperDirect(session.sessionId, session.limits.maxSteps, planner, told, texts) && Unstopped(told)
    && answers == ToldAnswers(session.sessionId, told)
  }

  /** One proposal and its answer. */
  method TurnDirect(relay: Relay, sequence: nat, planner: seq<Bytes> -> Document, answers: seq<Bytes>,
                    ghost told: seq<Told>, ghost texts: seq<string>)
    returns (stopped: bool, failure: Option<Outcome>, more: seq<Bytes>, ghost after: seq<Told>, ghost sent: seq<string>)
    requires relay.session.Valid() && !relay.session.cells.closed && relay.session.pendingPlan.None?
    requires !relay.session.offline && relay.session.stepsAttempted + 1 == sequence
    requires relay.maxRequests == F.MAX_REQUESTS && relay.requests == sequence - 1 == |told|
    requires Brief(relay.session.sessionId, planner) && Directed(relay.session, planner, told, texts, answers)
    modifies relay`requests, relay.session`actionsSucceeded, relay.session`steps, relay.session`outputReserved
    modifies relay.session`pendingPlan, relay.session`stepsAttempted, relay.session`lost, relay.session.controller
    modifies relay.session.controller.history, relay.session.controller.control, relay.session.cells
    modifies relay.session.controller.approvals, relay.session.controller.backend
    ensures relay.session.Settled() && relay.session.Grounded()
    ensures relay.requests <= sequence <= relay.session.limits.maxSteps
    ensures ProperDirect(relay.session.sessionId, relay.session.limits.maxSteps, planner, after, sent)
    ensures failure.Some? ==> failure.value.Lost? && Excused(relay.session, failure.value.fault)
    ensures failure.None? ==> relay.session.Valid() && relay.session.cells.closed == stopped
    ensures failure.None? && !stopped ==>
      && relay.session.stepsAttempted == sequence == relay.requests == |after| && relay.session.pendingPlan.None?
      && Directed(relay.session, planner, after, sent, more)
  {
    var reply, answer := SendDirect(relay, sequence, planner, answers);
    more, after, sent := answers, told, texts;
    if answer.Some? {
      sent := DirectExtended(relay.session, planner, told, texts, answer.value);
      after, more := told + [answer.value], answers + [ToldBytes(relay.session.sessionId, answer.value)];
    }
    if reply.Err? { return false, Some(Lost(reply.error)), more, after, sent; }
    if reply.value.sequence != sequence { return false, Some(InvalidResponse), more, after, sent; }
    return reply.value.stop, None, more, after, sent;
  }

  /** The version 1 loop of main() with a well-behaved scenario: the planner may propose anything it can frame. */
  method PlannedDialogue(relay: Relay, planner: seq<Bytes> -> Document)
    returns (outcome: Outcome, ghost told: seq<Told>, ghost texts: seq<string>)
    requires relay.session.Valid() && !relay.session.offline && !relay.session.cells.closed
    requires relay.session.stepsAttempted == 0 && relay.session.pendingPlan.None?
    requires relay.maxRequests == F.MAX_REQUESTS && relay.requests == 0
    requires Brief(relay.session.sessionId, planner)
    modifies relay`requests, relay.session`actionsSucceeded, relay.session`steps, relay.session`outputReserved
    modifies relay.session`pendingPlan, relay.session`stepsAttempted, relay.session`lost, relay.session.controller
    modifies relay.session.controller.history, relay.session.controller.control, relay.session.cells
    modifies relay.session.controller.approvals, relay.session.controller.backend
    ensures relay.session.Settled() && relay.session.Grounded()
    ensures relay.requests <= relay.session.limits.maxSteps <= F.MAX_REQUESTS
    ensures ProperDirect(relay.session.sessionId, relay.session.limits.maxSteps, planner, told, texts)
    ensures if outcome.Done? then relay.session.Valid() && relay.session.cells.closed
            else outcome.Lost? && Excused(relay.session, outcome.fault)
  {
    var sequence := 1;
    var answers: seq<Bytes> := [];
    told, texts := [], [];
    while sequence <= F.MAX_REQUESTS
      invariant 1 <= sequence <= 17 && relay.requests == sequence - 1 == |told|
      invariant relay.session.Valid() && !relay.session.cells.closed && relay.session.pendingPlan.None?
      invariant relay.session.stepsAttempted == sequence - 1
      invariant Directed(relay.session, planner, told, texts, answers)
    {
      var stopped, failure;
      stopped, failure, answers, told, texts := TurnDirect(relay, sequence, planner, answers, told, texts);
      if failure.Some? { return failure.value, told, texts; }
      if stopped { return Done, told, texts; }
      sequence := sequence + 1;
    }
    return CoordinatorLimit, told, texts;
  }

  // ---------------------------------------------------------- the whole run

  /** The coordinator's run as its session sees it: a failure leaves as the fault that caused it. */
  method Coordinate(session: AuthoritySession, planner: seq<Bytes> -> Document)
    returns (fault: Option<Fault>, result: Close)
    requires session.Valid() && !session.cells.closed && session.stepsAttempted == 0 && session.pendingPlan.None?
    requires Brief(session.sessionId, planner)
    modifies session`actionsSucceeded, session`steps, session`outputReserved, session`pendingPlan, session`lost
    modifies session`stepsAttempted, session.controller, session.controller.history, session.controller.control
    modifies session.cells, session.controller.approvals, session.controller.backend
    ensures session.Settled() && session.Grounded() && fault != Some(ProtocolFailure)
    ensures fault.Some? ==> session.controller.Caused(fault.value)
    ensures fault.None? ==> session.Valid() && session.cells.closed && session.GoodClose(result)
  {
    var outcome;
    if session.offline {
      var relay := new Relay(session, F.MAX_OFFLINE_REQUESTS);
      ghost var told, texts;
      outcome, told, texts := OfflineDialogue(relay);
    } else {
      var relay := new Relay(session, F.MAX_REQUESTS);
      ghost var told, texts;
      outcome, told, texts := PlannedDialogue(relay, planner);
    }
    result := CloseDoc(if session.offline then "2" else "1", session.sessionId, "closed");
    match outcome {
      case Done => fault := None;
      case Lost(Interrupted(stop)) => fault := Some(Stopped(stop));
      case Lost(Callback(f)) => fault := Some(f);
      case _ => assert false; fault := None;
    }
  }

  /** A session whose coordinator is the honest worker: its close is never rejected, and no fault it meets is a
      protocol failure of its own. */
  method ConverseHonestly(session: AuthoritySession, planner: seq<Bytes> -> Document) returns (fault: Option<Fault>)
    requires session.Valid() && !session.cells.closed && session.cells.status == Halted
    requires session.stepsAttempted == 0 && session.pendingPlan.None? && Brief(session.sessionId, planner)
    modifies session`actionsSucceeded, session`steps, session`outputReserved, session`pendingPlan, session`lost
    modifies session`stepsAttempted, session.controller, session.controller.history, session.controller.control
    modifies session.cells, session.controller.approvals, session.controller.backend, session`bound
    ensures session.Settled() && session.Grounded() && fault != Some(ProtocolFailure)
    ensures fault.Some? ==> session.controller.Caused(fault.value)
    ensures fault.None? ==> session.cells.closed && !session.cells.protocolFailed
  {
    fault := session.Enter();
    if fault.Some? || session.cells.closed { return; }
    var result;
    fault, result := Coordinate(session, planner);
    if fault.None? { fault := session.Conclude(result); }
  }
}
