/** Messages at the planner / policy boundary (recon_cockpit/secure_agent/models.py,
    session_protocol.py, session_limits.py). JSON values are compared as values: their
    canonical encoding is injective. */
module Models {
  import opened Prelude

  /** Random identifiers are told apart by a counter, derived ones by their name. */
  datatype Uuid = Random(n: nat) | Named(name: string)

  datatype Action = Action(
    id: Uuid,
    tool: string,
    target: string,
    port: nat,
    path: Option<string>,
    timeout: nat,
    maxOutput: nat,
    rationale: string)

  /** A proposed action document and what parse_action makes of it (None: a validation error). */
  datatype Proposal = Proposal(text: string, parsed: Option<Action>)

  /** A document accepted by the plan validator: without an action it must be final. */
  datatype Plan = Plan(action: Option<Proposal>, done: bool)

  predicate ValidPlan(plan: Plan) {
    plan.action.None? ==> plan.done
  }

  datatype Decision = Deny | Allow | ApprovalRequired

  /** What a human may hand over as an approval: nothing, text that is no 48-character token, or a token. */
  datatype Reference = Missing | Malformed | Token(n: nat)

  /** Every execution status the authority reports. */
  datatype Status =
    | Succeeded | Failed | Timeout | OutputLimit | Blocked | Cancelled
    | DryRun | Rejected

  /** The policy as the authority uses it: a total decision function and a grant lifetime. */
  datatype Policy = Policy(evaluate: Action -> Decision, ttl: real, fingerprint: nat)

  datatype Limits = Limits(maxSteps: nat, maxSeconds: real, maxOutput: nat)

  predicate ValidLimits(limits: Limits) {
    1 <= limits.maxSteps <= 16 && 1.0 <= limits.maxSeconds <= 600.0 && 1 <= limits.maxOutput <= 1048576
  }
}
