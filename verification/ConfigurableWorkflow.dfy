/** The planner of the configurable assessment (recon_cockpit/secure_agent/configurable_workflow.py) and the
    records it plans from. */
module ConfigurableWorkflow {
  import opened Prelude
  import opened Models
  import opened ConfigurableContract

  /** What the authority shows the planner: a step and what the previous outcome looked like. Any other bytes are
      Junk. */
  datatype Seen = Seen(status: Status, body: string)
  datatype Shown = Frame(step: int, seen: Option<Seen>) | Junk(bytes: string)

  /** A tool result: a bare status when nothing ran to an end, or the full report of one run. */
  datatype ToolResult =
    | Bare(status: Status)
    | Full(status: Status, step: nat, scope: string, truncated: bool, raw: string, observation: Option<Details>,
      lab: Context)

  datatype Artifact = Artifact(execution: Uuid, digest: Sha<ToolResult>, bytes: nat)

  /** An execution record: opened before its launch, completed with the validated outcome. */
  datatype Record =
    | Open(execution: Uuid, step: int, action: Action)
    | Complete(execution: Uuid, step: int, action: Action, status: Status, observation: Observation, artifact: Artifact,
               shown: Sha<Shown>)

  datatype Why = PredecessorMissing | DeclaredMetadata

  /** workflow.Decision */
  datatype Choice = Choice(step: int, reason: Why, done: bool, action: Option<Action>)

  /** session._observation() for the outcome of the previous step; a dry run shows the same frame at every step. */
  function Opening(step: int): Shown {
    Frame(step, if step == 1 then None else Some(Seen(DryRun, "")))
  }

  /** A predecessor that opens the next step: the declared action, succeeded, observed and through its gate. */
  predicate Sound(valid: Validator, scope: Scope, index: nat, record: Record)
    requires 1 <= index <= STEPS
  {
    record.Complete? && record.action == ActionAt(scope, index) && record.status == Succeeded
    && record.observation.Observed?
    && Observe(valid, index, Succeeded, false, Some(record.observation.details)) == Some(record.observation)
    && ((index == 1 || index == 3) ==> PredecessorGate(valid, index, record.observation))
  }

  predicate AllSound(valid: Validator, scope: Scope, records: seq<Record>)
    requires |records| <= STEPS
  {
    forall i :: 0 <= i < |records| ==> Sound(valid, scope, i + 1, records[i])
  }

  function Stop(step: int): Choice {
    Choice(step, PredecessorMissing, true, None)
  }

  function Propose(scope: Scope, step: nat): Choice
    requires 1 <= step <= STEPS
  {
    Choice(step, DeclaredMetadata, step == STEPS, Some(ActionAt(scope, step)))
  }

  /** expected_decision(), as a function; None: the step is out of range. */
  function Expected(valid: Validator, scope: Scope, step: int, records: seq<Record>): Option<Choice> {
    if !(1 <= step <= STEPS) then None
    else if |records| == step - 1 && AllSound(valid, scope, records) then Some(Propose(scope, step))
    else Some(Stop(step))
  }

  /** One turn of the loop over the predecessors: is this record the outcome its step needs? */
  method CheckPredecessor(valid: Validator, scope: Scope, index: nat, record: Record) returns (good: bool)
    requires 1 <= index <= STEPS
    ensures good == Sound(valid, scope, index, record)
  {
    if !record.Complete? || record.observation.Inconclusive? { return false; }
    var normalized := Observe(valid, index, Succeeded, false, Some(record.observation.details));
    return normalized.Some? && record.action == ActionAt(scope, index) && record.status == Succeeded
      && record.observation == normalized.value
      && !((index == 1 || index == 3) && !PredecessorGate(valid, index, normalized.value));
  }

  /** expected_decision(): every predecessor is checked in turn. */
  method ExpectedDecision(valid: Validator, scope: Scope, step: int, records: seq<Record>) returns (r: Option<Choice>)
    ensures r == Expected(valid, scope, step, records)
  {
    if !(1 <= step <= STEPS) { return None; }
    if |records| != step - 1 { return Some(Stop(step)); }
    for i := 0 to |records|
      invariant forall j :: 0 <= j < i ==> Sound(valid, scope, j + 1, records[j])
    {
      var good := CheckPredecessor(valid, scope, i + 1, records[i]);
      if !good { return Some(Stop(step)); }
    }
    return Some(Propose(scope, step));
  }

  function LastShown(records: seq<Record>): Option<Sha<Shown>> {
    if records == [] || records[|records| - 1].Open? then None else Some(records[|records| - 1].shown)
  }

  /** decide(): the frame must be the one the authority produced for this step. */
  function Decide(valid: Validator, scope: Scope, step: int, records: seq<Record>, shown: Shown): Option<Choice> {
    if !(1 <= step <= STEPS) || shown.Junk? || shown.step != step || (step == 1 && shown.seen.Some?) then None
    else if records == [] && shown != Opening(step) then None
    else if records != [] && LastShown(records) != Some(Sha256(shown)) then None
    else Expected(valid, scope, step, records)
  }

  /** The planner proposes step k + 1 exactly when it has k records and every one of them opens the next step. */
  lemma ProposesExactly(valid: Validator, scope: Scope, step: nat, records: seq<Record>)
    requires 1 <= step <= STEPS
    ensures Expected(valid, scope, step, records) == Some(Propose(scope, step))
      <==> |records| == step - 1 && AllSound(valid, scope, records)
    ensures Expected(valid, scope, step, records).Some? && Expected(valid, scope, step, records).value.step == step
    ensures Expected(valid, scope, step, records).value.action.None? ==>
      Expected(valid, scope, step, records).value.done
  {
  }
}
