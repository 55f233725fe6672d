/** The JSON texts of the coordinator channel and their lengths (recon_cockpit/secure_agent/control_plane.py,
    coordinator_worker.py, session.py, session_protocol.py). */
module SessionProtocol {
  import opened Prelude
  import opened Models

  const MAX_REQUEST_BYTES := 20480
  const MAX_RESPONSE_BYTES := 12288
  const MAX_OBSERVATION_BYTES := 8192
  const ID_LENGTH := 36  // of a session identifier in canonical form

  function Digits(n: nat): (r: string)
    ensures |r| >= 1
  {
    var last := [('0' as int + n % 10) as char];
    if n < 10 then last else Digits(n / 10) + last
  }

  lemma {:induction false} DigitsShort(n: nat)
    requires n < 100
    ensures |Digits(n)| <= 2
  {
    if n >= 10 { assert |Digits(n / 10)| == 1; }
  }

  function Flag(b: bool): string {
    if b then "true" else "false"
  }

  function StatusText(status: Status): string {
    match status
    case Succeeded => "succeeded"
    case Failed => "failed"
    case Timeout => "timeout"
    case OutputLimit => "output_limit"
    case Blocked => "blocked"
    case Cancelled => "cancelled"
    case DryRun => "dry_run"
    case Rejected => "rejected"
  }

  // ---------------------------------------------------------------- replies

  function ActionText(plan: Plan): string {
    if plan.action.None? then "null" else plan.action.value.text
  }

  /** A plan in canonical form. */
  function PlanText(plan: Plan): string {
    "{\"action\":" + ActionText(plan) + ",\"done\":" + Flag(plan.done) + ",\"schema_version\":\"1\"}"
  }

  /** The fields that end every reply. */
  function ReplyEnd(version: char, sessionId: string, sequence: nat, stop: bool): string {
    ",\"schema_version\":\"" + [version] + "\",\"sequence\":" + Digits(sequence) + ",\"session_id\":\"" + sessionId
    + "\",\"stop\":" + Flag(stop) + "}"
  }

  /** A version 2 reply. */
  function PlanReply(sessionId: string, sequence: nat, stop: bool, plan: Option<Plan>): string {
    "{\"plan\":" + (if plan.None? then "null" else PlanText(plan.value)) + ReplyEnd('2', sessionId, sequence, stop)
  }

  /** What a version 1 reply shows of the last outcome: its status, and a bounded piece of the result's body. */
  function ObservationText(status: Option<Status>, body: string): string {
    if status.None? then "null"
    else "{\"body\":\"" + body + "\",\"execution_status\":\"" + StatusText(status.value) + "\"}"
  }

  /** A version 1 reply. */
  function SeenReply(sessionId: string, sequence: nat, stop: bool, status: Option<Status>, body: string): string {
    "{\"observation\":" + ObservationText(status, body) + ReplyEnd('1', sessionId, sequence, stop)
  }

  // --------------------------------------------------------------- requests

  /** The fields that begin every request of the honest worker. */
  function RequestHead(version: char, sessionId: string, sequence: nat): string {
    "{\"schema_version\":\"" + [version] + "\",\"session_id\":\"" + sessionId + "\",\"sequence\":" + Digits(sequence)
  }

  function PlanRequestText(sessionId: string, sequence: nat): string {
    RequestHead('2', sessionId, sequence) + ",\"operation\":\"plan\"}"
  }

  function ProposeRequestText(sessionId: string, sequence: nat, plan: string): string {
    RequestHead('2', sessionId, sequence) + ",\"operation\":\"propose\",\"plan\":" + plan + "}"
  }

  /** A version 1 request. */
  function DirectRequestText(sessionId: string, sequence: nat, plan: string): string {
    RequestHead('1', sessionId, sequence) + ",\"plan\":" + plan + "}"
  }

  /** INIT and RESULT. */
  function InitText(version: char, sessionId: string): string {
    "{\"schema_version\":\"" + [version] + "\",\"session_id\":\"" + sessionId + "\"}"
  }

  function CloseText(version: char, sessionId: string): string {
    "{\"schema_version\":\"" + [version] + "\",\"session_id\":\"" + sessionId + "\",\"status\":\"closed\"}"
  }

  // ---------------------------------------------------------------- lengths

  function FlagSize(b: bool): nat {
    if b then 4 else 5
  }

  function PlanSize(plan: Plan): nat {
    40 + (if plan.action.None? then 4 else |plan.action.value.text|) + FlagSize(plan.done)
  }

  function EndSize(sessionId: string, sequence: nat, stop: bool): nat {
    58 + |Digits(sequence)| + |sessionId| + FlagSize(stop)
  }

  function PlanReplySize(sessionId: string, sequence: nat, stop: bool, plan: Option<Plan>): nat {
    8 + (if plan.None? then 4 else PlanSize(plan.value)) + EndSize(sessionId, sequence, stop)
  }

  function HeadSize(sessionId: string, sequence: nat): nat {
    49 + |sessionId| + |Digits(sequence)|
  }

  lemma PlanTextSize(plan: Plan)
    ensures |PlanText(plan)| == PlanSize(plan)
  {
    assert |"{\"action\":"| == 10 && |",\"done\":"| == 8 && |",\"schema_version\":\"1\"}"| == 22;
  }

  lemma ReplyEndSize(version: char, sessionId: string, sequence: nat, stop: bool)
    ensures |ReplyEnd(version, sessionId, sequence, stop)| == EndSize(sessionId, sequence, stop)
  {
    assert |",\"schema_version\":\""| == 19 && |"\",\"sequence\":"| == 13 && |",\"session_id\":\""| == 15;
    assert |"\",\"stop\":"| == 9;
  }

  lemma PlanReplyLength(sessionId: string, sequence: nat, stop: bool, plan: Option<Plan>)
    ensures |PlanReply(sessionId, sequence, stop, plan)| == PlanReplySize(sessionId, sequence, stop, plan)
  {
    assert |"{\"plan\":"| == 8;
    ReplyEndSize('2', sessionId, sequence, stop);
    if plan.Some? { PlanTextSize(plan.value); }
  }

  /** A reply without a plan always fits its frame. */
  lemma BareReplyFits(sessionId: string, sequence: nat, stop: bool)
    requires |sessionId| == ID_LENGTH && sequence < 100
    ensures PlanReplySize(sessionId, sequence, stop, None) <= MAX_RESPONSE_BYTES
  {
    DigitsShort(sequence);
  }

  /** The bound on what an observation shows makes every version 1 reply fit its frame. */
  lemma SeenReplyFits(sessionId: string, sequence: nat, stop: bool, status: Option<Status>, body: string)
    requires |sessionId| == ID_LENGTH && sequence < 100 && |ObservationText(status, body)| <= MAX_OBSERVATION_BYTES
    ensures |SeenReply(sessionId, sequence, stop, status, body)| <= MAX_RESPONSE_BYTES
  {
    assert |"{\"observation\":"| == 15;
    ReplyEndSize('1', sessionId, sequence, stop);
    DigitsShort(sequence);
  }

  lemma RequestHeadSize(version: char, sessionId: string, sequence: nat)
    ensures |RequestHead(version, sessionId, sequence)| == HeadSize(sessionId, sequence)
  {
    assert |"{\"schema_version\":\""| == 19 && |"\",\"session_id\":\""| == 16 && |"\",\"sequence\":"| == 13;
  }

  lemma PlanRequestFits(sessionId: string, sequence: nat)
    requires |sessionId| == ID_LENGTH && sequence < 100
    ensures |PlanRequestText(sessionId, sequence)| <= MAX_REQUEST_BYTES
  {
    RequestHeadSize('2', sessionId, sequence);
    DigitsShort(sequence);
    assert |",\"operation\":\"plan\"}"| == 20;
  }

  /** A proposal is nine bytes longer than the reply that released its plan. */
  lemma ProposalSize(sessionId: string, sequence: nat, plan: Plan)
    ensures |ProposeRequestText(sessionId, sequence, PlanText(plan))| ==
      |PlanReply(sessionId, sequence, false, Some(plan))| + 9
  {
    RequestHeadSize('2', sessionId, sequence);
    PlanTextSize(plan);
    PlanReplyLength(sessionId, sequence, false, Some(plan));
    assert |",\"operation\":\"propose\",\"plan\":"| == 30;
  }

  lemma EndingsFit(version: char, sessionId: string)
    requires |sessionId| == ID_LENGTH
    ensures |InitText(version, sessionId)| <= 512 && |CloseText(version, sessionId)| <= 512
  {
    assert |"{\"schema_version\":\""| == 19 && |"\",\"session_id\":\""| == 16 && |"\"}"| == 2;
    assert |"\",\"status\":\"closed\"}"| == 20;
  }

  // ------------------------------------------------------------ reading a reply

  /** Where the plan stands in a version 2 reply that does not stop. */
  function PlanWithin(sessionId: string, sequence: nat, reply: string): string {
    if |reply| < 8 + EndSize(sessionId, sequence, false) then ""
    else reply[8..|reply| - EndSize(sessionId, sequence, false)]
  }

  /** The worker finds in the reply exactly the plan that was released. */
  lemma PlanFound(sessionId: string, sequence: nat, plan: Plan)
    ensures PlanWithin(sessionId, sequence, PlanReply(sessionId, sequence, false, Some(plan))) == PlanText(plan)
  {
    var front, end := "{\"plan\":", ReplyEnd('2', sessionId, sequence, false);
    ReplyEndSize('2', sessionId, sequence, false);
    assert |front| == 8;
    assert (front + PlanText(plan) + end)[8..8 + |PlanText(plan)|] == PlanText(plan);
  }

  /** Its last field says whether a reply stops. */
  function StopWithin(reply: string): Option<bool> {
    var n := |reply|;
    if n >= 5 && reply[n - 5..] == "true}" then Some(true)
    else if n >= 6 && reply[n - 6..] == "false}" then Some(false)
    else None
  }

  lemma StopFound(front: string, version: char, sessionId: string, sequence: nat, stop: bool)
    ensures StopWithin(front + ReplyEnd(version, sessionId, sequence, stop)) == Some(stop)
  {
    var last := Flag(stop) + "}";
    var all := front + ReplyEnd(version, sessionId, sequence, stop);
    assert |last| == FlagSize(stop) + 1;
    assert all[|all| - |last|..] == last;
    if !stop { assert all[|all| - 2] == 'e' && all[|all| - 5] == 'a' && "true}"[0] == 't'; }
  }
}
