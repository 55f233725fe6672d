/** The four declared actions of one configurable assessment, its endpoint counters and the gates between
    its steps (recon_cockpit/secure_agent/configurable_contract.py, configurable_lab_contract.py). */
module ConfigurableContract {
  import opened Prelude
  import opened Models

  datatype Endpoint = Http | Ssh
  datatype Tool = Nmap | Headers | SshKeys

  datatype Service = Service(target: string, port: nat)

  /** A validated operator scope, with its digest in hexadecimal. */
  datatype Scope = Scope(http: Service, path: string, ssh: Service, digest: string)

  const WORKFLOW := "configurable-owned-http-ssh-v1"
  const STEPS := 4
  const MAX_REQUESTS := 2
  const MAX_OUTPUT := 26624

  function ToolAt(step: nat): Tool {
    if step == 2 then Headers else if step == 4 then SshKeys else Nmap
  }

  function EndpointAt(step: nat): Endpoint {
    if step <= 2 then Http else Ssh
  }

  function ToolId(tool: Tool): string {
    match tool
    case Nmap => "configurable_nmap_service_v1"
    case Headers => "configurable_http_headers_v1"
    case SshKeys => "configurable_ssh_host_keys_v1"
  }

  /** OUTPUT_RESERVATIONS */
  function Reservation(step: nat): nat {
    if step == 0 then 0 else if step == 1 then 8192 else if step == 2 then 10240 else if step == 3 then 18432 else 26624
  }

  function Digit(step: nat): char {
    if step == 1 then '1' else if step == 2 then '2' else if step == 3 then '3' else '4'
  }

  function ServiceAt(scope: Scope, step: nat): Service {
    if EndpointAt(step) == Http then scope.http else scope.ssh
  }

  /** action(): the one action of each step. */
  function ActionAt(scope: Scope, step: nat): Action
    requires 1 <= step <= STEPS
  {
    Action(Named(WORKFLOW + ":" + scope.digest + ":" + [Digit(step)]), ToolId(ToolAt(step)),
           ServiceAt(scope, step).target, ServiceAt(scope, step).port,
           if step == 2 then Some(scope.path) else None, if step == 2 then 1 else 5, if step == 2 then 2048 else 8192,
           "Deterministic owned endpoint assessment; operator scope " + scope.digest + ".")
  }

  /** step_for_action(): the first declared step with exactly this action. */
  function StepFor(scope: Scope, action: Action): Option<nat> {
    if action == ActionAt(scope, 1) then Some(1)
    else if action == ActionAt(scope, 2) then Some(2)
    else if action == ActionAt(scope, 3) then Some(3)
    else if action == ActionAt(scope, 4) then Some(4)
    else None
  }

  lemma ActionsDiffer(scope: Scope, i: nat, j: nat)
    requires 1 <= i <= STEPS && 1 <= j <= STEPS && i != j
    ensures ActionAt(scope, i) != ActionAt(scope, j)
  {
    var front := WORKFLOW + ":" + scope.digest + ":";
    assert (front + [Digit(i)])[|front|] == Digit(i);
    assert (front + [Digit(j)])[|front|] == Digit(j);
  }

  /** Each declared action identifies its step, and nothing else identifies one. */
  lemma StepForInverts(scope: Scope, action: Action)
    ensures forall step :: 1 <= step <= STEPS ==>
      (StepFor(scope, action) == Some(step) <==> action == ActionAt(scope, step))
    ensures StepFor(scope, action).Some? ==> 1 <= StepFor(scope, action).value <= STEPS
  {
    forall i, j | 1 <= i <= STEPS && 1 <= j <= STEPS && i != j ensures ActionAt(scope, i) != ActionAt(scope, j) {
      ActionsDiffer(scope, i, j);
    }
  }

  /** The reservation table is exactly the running total of the declared allowances. */
  lemma ReservationsAdd(scope: Scope, step: nat)
    requires step < STEPS
    ensures Reservation(step + 1) == Reservation(step) + ActionAt(scope, step + 1).maxOutput
    ensures Reservation(STEPS) == MAX_OUTPUT
  {
  }

  // ------------------------------------------------------------- observations

  /** Tool details as the parsers deliver them; `text` stands for the fields no gate looks at. */
  datatype Details = Details(text: string, identified: bool, service: string)

  datatype Observation = Inconclusive(tool: Tool) | Observed(tool: Tool, details: Details)

  /** The validators of the parsers: which details are acceptable for a step. A validator returns its argument. */
  type Validator = (nat, Details) -> bool

  /** observation(): None when the details do not validate. */
  function Observe(valid: Validator, step: nat, status: Status, truncated: bool,
                   details: Option<Details>): Option<Observation> {
    if status != Succeeded || truncated || details.None? then Some(Inconclusive(ToolAt(step)))
    else if valid(step, details.value) then Some(Observed(ToolAt(step), details.value))
    else None
  }

  function Protocol(endpoint: Endpoint): string {
    match endpoint case Http => "http" case Ssh => "ssh"
  }

  /** predecessor_gate() */
  predicate PredecessorGate(valid: Validator, step: nat, seen: Observation) {
    (step == 1 || step == 3) && seen.Observed? && valid(step, seen.details) && seen.tool == Nmap
    && seen.details.identified && seen.details.service == Protocol(EndpointAt(step))
  }

  /** A step that opens the next one: observed, and identified as the declared protocol where a follow-up depends on
      it. */
  predicate Opens(valid: Validator, step: nat, seen: Observation) {
    seen.Observed? && ((step == 1 || step == 3) ==> PredecessorGate(valid, step, seen))
  }

  // ----------------------------------------------------------------- counters

  /** Last acknowledged totals of one endpoint fixture, under its identity. */
  datatype Row = Row(identity: nat, connections: int, requests: int)

  datatype Endpoints = Endpoints(http: Row, ssh: Row)

  /** The fixed identities of one assessment: the scope's digest and one instance per endpoint. */
  datatype Lab = Lab(scope: string, http: nat, ssh: nat)

  datatype Context = Context(identity: Lab, step: int, endpoints: Endpoints)

  function MaxConnections(endpoint: Endpoint): int {
    match endpoint case Http => 4 case Ssh => 3
  }

  function RowOf(e: Endpoints, endpoint: Endpoint): Row {
    match endpoint case Http => e.http case Ssh => e.ssh
  }

  function Instance(lab: Lab, endpoint: Endpoint): nat {
    match endpoint case Http => lab.http case Ssh => lab.ssh
  }

  function Zero(lab: Lab): Endpoints {
    Endpoints(Row(lab.http, 0, 0), Row(lab.ssh, 0, 0))
  }

  /** validate_context() of one endpoint */
  predicate ValidRow(row: Row, lab: Lab, endpoint: Endpoint) {
    row.identity == Instance(lab, endpoint) && 0 <= row.connections <= MaxConnections(endpoint)
    && 0 <= row.requests <= MAX_REQUESTS && row.requests <= row.connections
  }

  /** What the counters of one row may do in a step. */
  predicate RowMoves(before: Row, after: Row, endpoint: Endpoint, step: nat, settled: bool) {
    var connections, requests := after.connections - before.connections, after.requests - before.requests;
    if endpoint != EndpointAt(step) then connections == 0 && requests == 0
    else
      && 0 <= requests <= 1 && requests <= connections <= (if step == 1 || step == 3 then 3 else 1)
      && (settled ==> requests == 1 && connections >= if step == 1 || step == 3 then 2 else 1)
  }

  predicate ContextStatus(status: Status) {
    status.Succeeded? || status.Failed? || status.Timeout? || status.OutputLimit?
  }

  /** validate_result_context(): the aggregate counters continue those of the previous step. `settled`: the step
      succeeded with an observation. */
  predicate ValidContext(lab: Lab, previous: Option<Context>, step: nat, settled: bool, context: Context) {
    && context.identity == lab && context.step == step && 1 <= step <= STEPS
    && (match previous
        case None => step == 1
        case Some(p) =>
          p.identity == lab && p.step == step - 1 && ValidRow(p.endpoints.http, lab, Http)
            && ValidRow(p.endpoints.ssh, lab, Ssh))
    && ValidRow(context.endpoints.http, lab, Http) && ValidRow(context.endpoints.ssh, lab, Ssh)
    && var before := if previous.None? then Zero(lab) else previous.value.endpoints;
      && RowMoves(before.http, context.endpoints.http, Http, step, settled)
      && RowMoves(before.ssh, context.endpoints.ssh, Ssh, step, settled)
  }

  /** A closure receipt: the final totals. */
  datatype Receipt = Receipt(identity: Lab, endpoints: Endpoints)

  /** validate_assessment_closure() */
  predicate ValidClosure(lab: Lab, previous: Option<Context>, receipt: Receipt) {
    && receipt.identity == lab && ValidRow(receipt.endpoints.http, lab, Http)
      && ValidRow(receipt.endpoints.ssh, lab, Ssh)
    && receipt.endpoints == if previous.None? then Zero(lab) else previous.value.endpoints
  }

  predicate Link(lab: Lab, contexts: seq<Context>, settled: seq<bool>, i: nat)
    requires i < |contexts| == |settled|
  {
    ValidContext(lab, if i == 0 then None else Some(contexts[i - 1]), i + 1, settled[i], contexts[i])
  }

  /** A chain of accepted result contexts, one for each step from the first. */
  predicate Chain(lab: Lab, contexts: seq<Context>, settled: seq<bool>)
    requires |contexts| == |settled|
  {
    forall i :: 0 <= i < |contexts| ==> Link(lab, contexts, settled, i)
  }

  function Before(lab: Lab, contexts: seq<Context>, i: nat): Endpoints
    requires i <= |contexts|
  {
    if i == 0 then Zero(lab) else contexts[i - 1].endpoints
  }

  /** Along any accepted chain no counter ever decreases, and a step moves only the counters of its own endpoint. */
  lemma {:induction false} Continuity(lab: Lab, contexts: seq<Context>, settled: seq<bool>, i: nat, j: nat,
                                      endpoint: Endpoint)
    requires |contexts| == |settled| && Chain(lab, contexts, settled) && i <= j <= |contexts|
    ensures var a, b := RowOf(Before(lab, contexts, i), endpoint), RowOf(Before(lab, contexts, j), endpoint);
      && a.connections <= b.connections && a.requests <= b.requests
      && ((forall k :: i < k <= j ==> EndpointAt(k) != endpoint) ==> a == b)
    decreases j - i
  {
    if i < j {
      Continuity(lab, contexts, settled, i, j - 1, endpoint);
      assert Link(lab, contexts, settled, j - 1);
    }
  }

  /** Four observed steps leave exactly two requests on each endpoint, three SSH connections and three or four
      HTTP connections; and a closure accepted after them repeats those totals. */
  lemma FourObserved(lab: Lab, contexts: seq<Context>, settled: seq<bool>, receipt: Receipt)
    requires |contexts| == |settled| == 4 && Chain(lab, contexts, settled)
    requires forall i :: 0 <= i < 4 ==> settled[i]
    ensures var e := contexts[3].endpoints;
      && e.http.requests == 2 && e.ssh.requests == 2 && e.ssh.connections == 3 && 3 <= e.http.connections <= 4
    ensures ValidClosure(lab, Some(contexts[3]), receipt) ==> receipt == Receipt(lab, contexts[3].endpoints)
  {
    assert Link(lab, contexts, settled, 0) && Link(lab, contexts, settled, 1);
    assert Link(lab, contexts, settled, 2) && Link(lab, contexts, settled, 3);
  }

  /** Both HTTP totals are reachable, so the bound cannot be tightened. */
  lemma FourObservedBothWays(lab: Lab, more: bool) returns (contexts: seq<Context>)
    ensures |contexts| == 4 && Chain(lab, contexts, [true, true, true, true])
    ensures contexts[3].endpoints.http.connections == if more then 4 else 3
  {
    var n := if more then 3 else 2;
    var a, b := Row(lab.http, n, 1), Row(lab.http, n + 1, 2);
    contexts := [
      Context(lab, 1, Endpoints(a, Row(lab.ssh, 0, 0))), Context(lab, 2, Endpoints(b, Row(lab.ssh, 0, 0))),
      Context(lab, 3, Endpoints(b, Row(lab.ssh, 2, 1))), Context(lab, 4, Endpoints(b, Row(lab.ssh, 3, 2)))];
    var settled := [true, true, true, true];
    assert Link(lab, contexts, settled, 0) && Link(lab, contexts, settled, 1);
    assert Link(lab, contexts, settled, 2) && Link(lab, contexts, settled, 3);
  }
}
