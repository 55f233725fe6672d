# Verified model of the reconnaissance cockpit's secure agent

The secure agent executes actions that an untrusted process proposes. Several independently written parties
must agree about what happened: the authority session and its controller, the supervisor of the confined
coordinator, the approval store and its confined worker, the audit worker, the launcher, the planner, and the
evidence store with the inspector that replays its journal. This project models those parties and proves that they
agree, over every run. Two self-contained pieces are modelled as well: exact pricing, and the case notes with the
merging of evidence.

`dafny verify dfyconfig.toml` checks everything.

## How it is built

- `SessionTrace` says, as a replay over events, which histories a session may leave; `SessionSafety` proves what every
  such history guarantees. The classes in `ControlPath` and `ControlPlane` keep a ghost history and prove each
  step of it admissible, so every property of a replay is a property of the running session. Provider, policy, backend,
  human approver, coordinator and clock are arbitrary. Other threads may reject concurrently at every audit write and check.
  The surroundings leave a trace of what they did wrong, so every failure, and every one the summary reports, is shown to
  have its cause.
- `CoordinatorFrames` and `CoordinatorIpc` are the byte-level dialogue supervisor, `CoordinatorPeer` an honest program beside
  it. `SessionProtocol` holds the JSON texts of the channel and their lengths, `WorkerScript` the honest worker as such a
  program, and `CoordinatorWorker` composes it with the session, from the first request to the accepted close.
- `ConfigurableContract`, `ConfigurableWorkflow` and `ConfigurableBackend` are the four-step assessment: contract, planner
  and launcher. `ConfigurableEvidence` specifies the evidence store and the inspector with their separate
  guards, `EvidenceStore` holds the store, the provider and the inspection loop, `EvidenceReplay` proves the agreement,
  and `EvidenceReports` says what an accepted or finalized report means.
- `SummaryAcceptance` compares a session's history with the store's final checks; `SessionEvidence` joins session, provider
  and store through the calls that the history stands for.
- `ApprovalWitness` and `AuditWitness` are workers and readers over one-way channels, as systems over all steps.
- `CostContract`, `CaseMerge` and `CaseNotes` are the two self-contained pieces.

## What turned out differently

- The inspector accepts some journals the store cannot write (`EvidenceDivergence.Diverges`). Acceptance and writability
  coincide exactly for orderly journals: each decision comes before any execution or right after as many executions
  as decisions; each line had the store's byte reservation; the final summary carries no extra fields.
- The launcher marks its step completed before its last deadline check. So the planner's gate and the launcher's completed
  step disagree exactly when the last attempt was stopped by that check after every earlier one had opened its step
  (`ConfigurableBackend.PlannerMatchesLauncher`, an example in `LateStopParts`). No launch follows from it: the stopped
  control refuses every later run, and whatever the launcher still admits the planner proposes.
- The request limit check at the arrival of a coordinator request is dead code (`CoordinatorFrames.ArrivalLimitUnreachable`).

## Model

| member | source | states |
|---|---|---|
| ControlPlane.AuthoritySession.Run | recon_cockpit/secure_agent/control_plane.py:90-351 | Whatever coordinator, provider, policy, human approver and backend do, a finished session is closed; it is completed exactly for `coordinator_done`; completed means no protocol, audit or approval failure, every recorded step went well, `actions_succeeded` counts exactly them in execute mode, and `steps_attempted` is their number or one more; a reported stop, rejection, approval, coordinator or provider failure is one that happened; a finished run ends with its durable `session_finished`, and a run without a summary has lost the audit journal or met an exception that nobody catches; no execution is left under way, unless the coordinator swallowed such an exception; and the whole history is safe (see `SessionSafety.Safety`) |
| ControlPlane.AuthoritySession.Exchange | recon_cockpit/secure_agent/control_plane.py:275-301 | For an arbitrary request: an answer only to a request that no check refuses, while the control passes, carrying the released plan or the true stop flag; every failure has its cause, always closes the channel and poisons what it must; a closed channel stays closed, and a refused request launches nothing |
| ControlPlane.AuthoritySession.Drive | recon_cockpit/secure_agent/control_plane.py:275-301 | Any number of any requests, every failure swallowed, keep all invariants; once the channel is closed it stays closed and nothing is launched any more |
| ControlPlane.AuthoritySession.Handle | recon_cockpit/secure_agent/control_plane.py:145-273 | A protocol rejection happens exactly for requests that a check refuses, in the order of the checks; a refused request changes no account and launches nothing |
| ControlPlane.RefusedExactly | recon_cockpit/secure_agent/control_plane.py:145-185 | A request is refused by no check exactly if the channel is open and it is the one awaited: right version, session and sequence, a plan or proposal of the mode's own form |
| ControlPlane.AuthoritySession.Serve | recon_cockpit/secure_agent/control_plane.py:183-273 | A request that passed every check is never answered by a protocol rejection |
| ControlPlane.AuthoritySession.HandleProposal | recon_cockpit/secure_agent/control_plane.py:175-180 | A version 2 proposal acts on exactly the released plan: how the session ends follows from that plan and the recorded outcome; the plan is gone even when the request fails |
| ControlPlane.AuthoritySession.HandlePlan | recon_cockpit/secure_agent/control_plane.py:208-219 | A version 1 document that is no valid plan closes the session as an invalid proposal and records nothing; a valid one ends the session as that plan and the recorded outcome say |
| ControlPlane.AuthoritySession.ConsultProvider | recon_cockpit/secure_agent/control_plane.py:186-207 | The provider's answer decides the reply: exactly a validated plan whose reply fits its frame is released and pending; an ordinary failure closes for `provider_failed`, an invalid or too long plan for `invalid_proposal`; any other failure is passed on, and none comes without its cause |
| ControlPlane.AuthoritySession.AskProvider | recon_cockpit/secure_agent/control_plane.py:186-198 | What asking the provider may come to, and that nothing is lost when it raises an ordinary error |
| ControlPlane.AuthoritySession.ReleasePlan | recon_cockpit/secure_agent/control_plane.py:194-207 | A released plan is pending, and its reply never stops |
| ControlPlane.AuthoritySession.GiveUp | recon_cockpit/secure_agent/control_plane.py:189-205 | Without a plan the channel is closed and the reply stops |
| ControlPlane.AuthoritySession.Act | recon_cockpit/secure_agent/control_plane.py:215-273 | How an accepted plan ends: done, denied, out of budget, or carried out; one step is recorded exactly when it names an action |
| ControlPlane.AuthoritySession.Afford | recon_cockpit/secure_agent/control_plane.py:231-248 | A proposal beyond the output limit closes the session; any other is reserved for before it is carried out |
| ControlPlane.AuthoritySession.Settle | recon_cockpit/secure_agent/control_plane.py:246-273 | The recorded status is the outcome, which is what the backend's one run of this step reported, and decides whether the session goes on; a failure has its cause |
| ControlPlane.AuthoritySession.CarryOut | recon_cockpit/secure_agent/control_plane.py:247-259 | When the review fails, or the check after it stops the session, nothing has been executed and the step stands where its reservation left it; otherwise the outcome is the recorded one: `succeeded` exactly if the backend reported so in its one run of this step, any other report as itself, a stop as what it was, blocked exactly without consent or backend |
| ControlPlane.AuthoritySession.AskApproval | recon_cockpit/secure_agent/control_plane.py:250-256 | The human is asked exactly if the policy requires approval in an interactive session with an approver, at this step and for this action, and what goes on to be presented is the answer given |
| ControlPlane.AuthoritySession.Reserve | recon_cockpit/secure_agent/control_plane.py:240-245 | The reservation is added before any prompt or launch, whatever happens afterwards |
| ControlPlane.AuthoritySession.Record | recon_cockpit/secure_agent/control_plane.py:125-135 | The step is appended to the summary and then audited; it halts the session exactly when it did not go well |
| ControlPlane.AuthoritySession.Continue | recon_cockpit/secure_agent/control_plane.py:261-273 | Closing reason after a recorded step, by status, final plan and step limit |
| ControlPlane.AuthoritySession.Reject | recon_cockpit/secure_agent/control_plane.py:114-123 | A rejection closes and poisons the session and cancels its control |
| ControlPlane.AuthoritySession.Abandon | recon_cockpit/secure_agent/control_plane.py:283-301 | Any failure closes the channel; audit and approval faults poison the controller |
| ControlPlane.AuthoritySession.Converse | recon_cockpit/secure_agent/control_plane.py:316-329 | Without a fault the run ends closed and without a protocol failure; a fault is one that happened, and the coordinator has been run unless something ended the session before |
| ControlPlane.AuthoritySession.Conclude | recon_cockpit/secure_agent/control_plane.py:321-329 | The close is accepted exactly for a closed channel without protocol failure and the exact close document; it is rejected for no other reason, a stop aside |
| ControlPlane.AuthoritySession.BalancedSession | recon_cockpit/secure_agent/controller.py:165-198 | While the channel is open, and afterwards unless a write failed or an exception that nobody catches escaped, every started execution has finished |
| ControlPlane.AuthoritySession.Explain | recon_cockpit/secure_agent/control_plane.py:334-351 | The reported reason of a run, in the precedence of the handlers, from a fault that happened; without one the reason stays |
| ControlPlane.Blame | recon_cockpit/secure_agent/control_plane.py:334-351 | A failed run is never reported as done; it is a protocol error exactly when a rejection happened and no approval fault did |
| ControlPlane.AuthoritySession.Nested | recon_cockpit/secure_agent/control_plane.py:235-248 | In every reachable state launched allowances <= executor output <= launched bytes <= reserved output <= limit, launches <= attempts <= steps, and the executor's own budget guard has never fired |
| ControlPlane.CompletedAccounts | recon_cockpit/secure_agent/control_plane.py:224-273 | Accounts of a completed session follow from its history |
| SessionSafety.Safety | recon_cockpit/secure_agent/control_plane.py:145-301 | All of it for every history: justified launches, one per step, the human asked before the store and only when needed, grants issued before and spent once, executions recorded as reported, fail-stop, nested budgets, tallies, and starts against finishes |
| SessionSafety.LaunchesJustified | recon_cockpit/secure_agent/controller.py:118-179 | Each launch is preceded, in order, by the release of the plan that proposes its action at its step, the reservation, the human's review when the policy asks for one, a non-deny decision, the consumption of the very grant the human handed over, the durable start event and the passed final check |
| SessionSafety.LaunchedOnce | recon_cockpit/secure_agent/control_plane.py:175-260 | No step launches twice |
| SessionSafety.InOrder | recon_cockpit/secure_agent/control_plane.py:183-260 | The events of a session come in the order of their steps and, within one, of its stages; no stage of a step is entered twice |
| SessionSafety.AskedFirst | recon_cockpit/secure_agent/control_plane.py:250-258 | In an interactive session with an approver whatever reaches the approval store at a step comes after that step's reservation, then a review of exactly this action, then the second policy decision, and presents the answer of that review |
| SessionSafety.AskedOnlyIfNeeded | recon_cockpit/secure_agent/control_plane.py:250-256 | Nobody is asked about an action that needs no approval, nor before its output has been reserved |
| SessionSafety.RejectedAfterRefusal | recon_cockpit/secure_agent/controller.py:148-158 | A required approval of an interactive session is rejected only after the store has refused the answer at that step |
| SessionSafety.FinishedAsReported | recon_cockpit/secure_agent/controller.py:172-198 | Every finished execution comes after the end of its own launch at the same step, with the status that end amounts to |
| SessionSafety.RecordedFaithfully | recon_cockpit/secure_agent/controller.py:172-198 | An execution is finished as succeeded if and only if its launch was reported succeeded; any other report of the tool is recorded as itself; a stop is recorded as cancelled exactly for a cancellation and as timeout otherwise |
| SessionSafety.BudgetsHold | recon_cockpit/secure_agent/control_plane.py:235-248 | Over every history: launched bytes plus held allowance <= reserved <= limit; launches <= attempts <= steps; recorded <= attempts; starts balance finishes |
| SessionSafety.TalliesHold | recon_cockpit/secure_agent/control_plane.py:246-266 | Until a step fails, exactly the recorded steps of an execute run have succeeded |
| SessionSafety.SpentOnce | recon_cockpit/secure_agent/controller.py:150-158 | No grant is spent twice, so approved executions map injectively to grants |
| SessionSafety.SpentWasIssued | recon_cockpit/secure_agent/controller.py:150-158 | A spent grant was issued earlier for the same action and had not expired |
| SessionSafety.FailStop | recon_cockpit/secure_agent/controller.py:165-198 | After a rejection, an audit, evidence or approval fault only a launch whose final check had already passed can still happen |
| SessionSafety.Balance | recon_cockpit/secure_agent/controller.py:165-198 | Starts exceed finishes by at most one, exactly in the phases between the two events, and never when no execution is under way |
| ControlPath.Controller.Emit | recon_cockpit/secure_agent/controller.py:70-92 | An audit or evidence event is the last of the durable history, or the controller is poisoned, with rejections allowed to interleave |
| ControlPath.Controller.Interfere | recon_cockpit/secure_agent/control_plane.py:275-279 | What any number of concurrent callers can change: cancel, close and poison, nothing else |
| ControlPath.Controller.Decide | recon_cockpit/secure_agent/controller.py:126-144 | Validation and the audited policy decision, before and again at execution |
| ControlPath.Controller.Consent | recon_cockpit/secure_agent/controller.py:148-158 | Execution is authorised exactly by an allow decision or, in an interactive session, by an answer the store accepts; otherwise it is blocked |
| ControlPath.Controller.Redeem | recon_cockpit/secure_agent/approvals.py:59-76 | The answer is accepted exactly if the store accepts it for this action now; then an issued, unspent, unexpired grant for this action is spent |
| ControlPath.Controller.Grant | recon_cockpit/secure_agent/approvals.py:39-54 | What the human's grant adds to the session: the store's new grant under its reference, or nothing when the store refuses |
| ControlPath.Controller.Prepare | recon_cockpit/secure_agent/controller.py:159-171 | Availability, the evidence record and the durable start event come before a launch; blocked exactly if the backend is not available |
| ControlPath.Controller.Launch | recon_cockpit/secure_agent/controller.py:172-179 | The backend runs only after a passed check, with nothing poisoned, within its budget; the status is what its report or the stop amounts to |
| ControlPath.Controller.RunBackend | recon_cockpit/secure_agent/controller.py:172-192 | The backend runs exactly once; its result enters the history as it is and decides the status: its own, unless it is none a tool can report |
| ControlPath.Controller.Perform | recon_cockpit/secure_agent/controller.py:159-200 | From durable intent to recorded outcome, which is the backend's own report of its one run, a stop that has come, or blocked without a backend; an execution is left under way only by a failed write or an exception that nobody catches |
| ControlPath.Controller.Preview | recon_cockpit/secure_agent/controller.py:94-147 | Without execution nothing but the decision happens |
| ControlPath.Controller.Execute | recon_cockpit/secure_agent/controller.py:94-200 | With execution the outcome is the recorded one, as the backend reported it or as consent and availability decide, a success is counted once, and every failure has its cause |
| ControlPath.AuthorizedFixtureBackend.Run | recon_cockpit/secure_agent/authorized_execution.py:77-146 | Reservations are made before the launch and kept on every failure; a reported outcome used one; an authorised run within budget, whose control passes throughout, returns exactly what the launched tool's surroundings make of it |
| ControlPath.SpendBacked | recon_cockpit/secure_agent/approvals.py:59-76 | Consuming from a store whose grants are backed by issued, unspent ones spends exactly one of them or none |
| ControlPath.IssueBacked | recon_cockpit/secure_agent/approvals.py:39-54 | Issuing draws a new reference for an action that needs approval |
| Approvals.ApprovalStore.Issue | recon_cockpit/secure_agent/approvals.py:39-54 | The store's step function: purge, capacity, fresh grant |
| Approvals.ApprovalStore.ConsumeWithGrant | recon_cockpit/secure_agent/approvals.py:59-76 | The store's step function: the grant is gone before it is checked |
| Approvals.AcceptedOnce | recon_cockpit/secure_agent/approvals.py:55-76 | Over any interleaving of calls a reference is accepted at most once |
| Approvals.BurnsForGood | recon_cockpit/secure_agent/approvals.py:59-76 | Any attempt on a live reference burns it for every later attempt |
| Approvals.AcceptedWasIssued | recon_cockpit/secure_agent/approvals.py:39-76 | Acceptance implies an earlier issue for the same action and policy, not yet expired |
| Approvals.AcceptedExactly | recon_cockpit/secure_agent/approvals.py:39-76 | Over any timed sequence of calls: the grant drawn by one call is accepted by another exactly if that one is the first attempt on it, for the same action and policy, before it expires |
| CoordinatorIpc.Supervise | recon_cockpit/secure_agent/coordinator_ipc.py:115-281 | A returned result proves the exact dialogue on both pipes for every chunking of reads and writes: READY, n requests, RESULT out; INIT and n responses in; each request handled once in order; 1 <= n <= limit; only the last response stops; both ends seen. Every other outcome has its cause: stopped only if the control is, with that reason; ended by the callback exactly if it raised; and exit code 0 returns the result unless the control has stopped, any other code fails. A child that has said nothing but its script and up to 4096 bytes of diagnostics, given answers it understands, never makes the supervisor fail; a run still going on has made all its wake-ups and served every ready pipe |
| CoordinatorIpc.WakeUp | recon_cockpit/secure_agent/coordinator_ipc.py:149-269 | One wake-up keeps the dialogue so far exact, serves every pipe found ready, answers a complete request before it ends, and ends the dialogue only for a stop, the callback's exception or the child's fault |
| CoordinatorIpc.Leave | recon_cockpit/secure_agent/coordinator_ipc.py:269-279 | At both ends the exit code decides: none yet, go on; 0, the script's result unless the control has stopped; any other, failure |
| CoordinatorFrames.OneReading | recon_cockpit/secure_agent/coordinator_ipc.py:31-34 | The bytes on stdout determine the requests and the result |
| CoordinatorFrames.ArrivalLimitUnreachable | recon_cockpit/secure_agent/coordinator_ipc.py:219-223 | The request limit check at arrival never fires; the one at the previous response already did |
| CoordinatorFrames.DecodeExact | recon_cockpit/secure_agent/coordinator_ipc.py:196-210 | Decoding completes exactly on one frame followed by the rest |
| CoordinatorFrames.PrefixIncomplete | recon_cockpit/secure_agent/coordinator_ipc.py:196-208 | No proper prefix of a frame is taken for anything |
| CoordinatorIpc.ReadFrame | recon_cockpit/secure_agent/coordinator_ipc.py:47-55 | A frame read by the child is the one frame it consumed; reading fails only on a broken stream or on bytes that begin no such frame |
| CoordinatorIpc.ReadExact | recon_cockpit/secure_agent/coordinator_ipc.py:37-44 | Exactly the requested bytes, over any short reads; it fails only on a broken stream |
| CoordinatorPeer.SpokenAt | recon_cockpit/secure_agent/coordinator_worker.py:91-106 | In every state of the supervisor, exactly what an honest program has to say of the bytes it was given so far |
| CoordinatorPeer.TakeFollows | recon_cockpit/secure_agent/coordinator_ipc.py:194-225 | The decoding loop refuses nothing an honest program says |
| CoordinatorPeer.EndsAfterResult | recon_cockpit/secure_agent/coordinator_ipc.py:180-185 | The end of an honest program's output comes only after its RESULT has been decoded |
| SessionProtocol.ProposalSize | recon_cockpit/secure_agent/coordinator_worker.py:91-106 | A proposal is nine bytes longer than the reply that released its plan, so the reply ceiling of 12288 keeps it within 20480 |
| SessionProtocol.SeenReplyFits | recon_cockpit/secure_agent/control_plane.py:137-143 | The bound on an observation makes every version 1 reply fit its frame |
| WorkerScript.QuestionProposes | recon_cockpit/secure_agent/coordinator_worker.py:94-100 | The worker finds the released plan in the reply and proposes exactly it |
| WorkerScript.OfflineSuited | recon_cockpit/secure_agent/coordinator_worker.py:91-106 | Every dialogue whose replies obey the authority's rules suits the honest version 2 worker: no frame of either side is too long, and the request limit is never met without a stop |
| WorkerScript.DirectSuited | recon_cockpit/secure_agent/coordinator_worker.py:132-163 | The same for version 1 and any planner that keeps its proposals within a frame |
| CoordinatorWorker.OfflineDialogue | recon_cockpit/secure_agent/coordinator_worker.py:91-106 | For every provider, policy and backend the honest version 2 worker is never refused, no frame is too long, it never exceeds 2 * max_steps <= 32 requests nor its own limit, and it comes to its close unless the control stops it or a fault of the authority's surroundings ends the session; the dialogue so far always satisfies `WorkerScript.OfflineSuited` |
| CoordinatorWorker.PlannedDialogue | recon_cockpit/secure_agent/coordinator_worker.py:132-163 | The same for the version 1 loop, with max_steps <= 16 requests |
| CoordinatorWorker.Relay.Call | recon_cockpit/secure_agent/coordinator_ipc.py:219-268 | One exchange with its frames, checks and request counter: it fails only for a request too long or refused, for requests running out before a stop, or for a fault that has left its mark; the reply's frame never fails |
| CoordinatorWorker.ConverseHonestly | recon_cockpit/secure_agent/control_plane.py:316-329 | With the honest worker as coordinator the session's close is never rejected, and no protocol failure ends its run |
| ConfigurableContract.StepForInverts | recon_cockpit/secure_agent/configurable_contract.py:26-48 | Each declared action identifies its step, and nothing else does |
| ConfigurableContract.ReservationsAdd | recon_cockpit/secure_agent/configurable_contract.py:18-18 | The reservation table is the running total of the declared allowances |
| ConfigurableContract.Continuity | recon_cockpit/secure_agent/configurable_contract.py:107-147 | Along any accepted chain of contexts no counter decreases and a step moves only its own endpoint |
| ConfigurableContract.FourObserved | recon_cockpit/secure_agent/configurable_lab_contract.py:79-137 | Four observed steps force 2 and 2 requests, 3 SSH and 3 or 4 HTTP connections; a closure repeats them |
| ConfigurableContract.FourObservedBothWays | recon_cockpit/secure_agent/configurable_lab_contract.py:15-16 | Both HTTP totals are reachable |
| ConfigurableWorkflow.ExpectedDecision | recon_cockpit/secure_agent/configurable_workflow.py:56-76 | The loop over the predecessors computes the planner's decision |
| ConfigurableBackend.AuthorizedConfigurableBackend.Run | recon_cockpit/secure_agent/configurable_backend.py:44-125 | The run is its step function over the control's clock and cancellations: guards, binding, reservation, context, gate, final check; and a returned result is one the evidence store accepts after the launcher's previous context, with the launcher's new context and the observation that the tool's own raw output parses to |
| ConfigurableBackend.PlannerMatchesLauncher | recon_cockpit/secure_agent/configurable_backend.py:53-68 | The planner proposes step k+1 exactly when the launcher has completed step k and can still launch; so it agrees with the completed step alone exactly unless the last attempt was stopped by its very last check after all earlier ones had opened their steps |
| ConfigurableBackend.LaunchesOnlyProposed | recon_cockpit/secure_agent/configurable_backend.py:53-68 | Without any condition: a launch of step k+1 that the launcher admits is one the planner proposes |
| ConfigurableBackend.LateStopParts | recon_cockpit/secure_agent/configurable_backend.py:115-120 | A concrete late stop: step 1 counts as completed, the launcher can never launch again, and the planner stops |
| ConfigurableBackend.BlockedForever | recon_cockpit/secure_agent/configurable_backend.py:51-63 | A step left incomplete, or a bound control that has stopped, refuses every later run, for any action, control and time |
| ConfigurableBackend.AdmittedMoves | recon_cockpit/secure_agent/configurable_backend.py:63-80 | An admitted launch uses the next step and its reservation within the limits; it leaves the launcher blocked for good exactly when its report did not open the next step or its control had stopped |
| ConfigurableBackend.ReturnedAccepted | recon_cockpit/secure_agent/configurable_backend.py:80-125 | Whatever the launcher returns, the store's validation accepts, given the checks of its custody, and it is the tool's own output |
| ConfigurableBackend.ReturnsExactly | recon_cockpit/secure_agent/configurable_backend.py:53-125 | A declared action's run returns a result exactly if it is admitted, its report continues the counters and validates, and the control still passes at the end |
| ConfigurableBackend.PlayDefined | recon_cockpit/secure_agent/configurable_backend.py:44-125 | So no result of a launcher that runs beside the store is ever refused: each attempt has its record, and the counters agree until the launcher is blocked for good |
| ConfigurableBackend.RegularAgreement | recon_cockpit/secure_agent/configurable_backend.py:53-68 | For all such attempts planner and launcher agree as `PlannerMatchesLauncher` says, with nothing assumed about what was recorded |
| EvidenceStore.ConfigurableEvidenceStore.RecordDecision | recon_cockpit/secure_agent/configurable_evidence.py:219-231 | Exactly the specified decision entry, or the store is poisoned |
| EvidenceStore.ConfigurableEvidenceStore.Start | recon_cockpit/secure_agent/configurable_evidence.py:233-247 | Exactly the specified opened record, or the store is poisoned |
| EvidenceStore.ConfigurableEvidenceStore.Finish | recon_cockpit/secure_agent/configurable_evidence.py:249-264 | Exactly the specified result file and completed record, or the store is poisoned |
| EvidenceStore.ConfigurableEvidenceStore.RecordLabClosed | recon_cockpit/secure_agent/configurable_evidence.py:266-274 | Exactly the specified closure, or the store is poisoned |
| EvidenceStore.ConfigurableEvidenceStore.Finalize | recon_cockpit/secure_agent/configurable_evidence.py:276-288 | Exactly the specified final line and both reports, or the store is poisoned; from a store that calls have brought there, the published report is true of the directory and about this summary (`EvidenceReports.FinalizedTruthful`) |
| EvidenceStore.ConfigurableEvidenceStore.Emit | recon_cockpit/secure_agent/evidence.py:466-478 | A line is appended exactly when its reservation and its real length fit |
| EvidenceStore.ConfigurableProvider.Propose | recon_cockpit/secure_agent/configurable_workflow.py:100-116 | The provider returns the planner's decision exactly if it is called in time, open, bound and the store records it; after the last one or any failure it is closed |
| EvidenceStore.InspectAssessment | recon_cockpit/secure_agent/configurable_evidence.py:291-383 | The inspection loop computes the specified replay of the directory, and an accepted directory's report is true (`EvidenceReports.InspectedTruthful`) |
| EvidenceReplay.Completeness | recon_cockpit/secure_agent/configurable_evidence.py:219-383 | What any successful run of the store leaves, the inspector accepts with the identical report, within its line and file bounds |
| EvidenceReplay.Soundness | recon_cockpit/secure_agent/configurable_evidence.py:309-383 | Every orderly journal the inspector accepts is written by a sequence of successful store calls |
| EvidenceReplay.Exactness | recon_cockpit/secure_agent/configurable_evidence.py:219-383 | A directory is accepted and orderly if and only if some finished run of the store leaves it; the report is that run's |
| EvidenceReplay.DigestMeansStep | recon_cockpit/secure_agent/configurable_evidence.py:236-243 | The store's digest comparison implies the inspector's count of decisions |
| EvidenceReplay.LegalIsOrderly | recon_cockpit/secure_agent/configurable_evidence.py:219-288 | Every run of the store is orderly: decisions in step, room for each line, a plain summary |
| EvidenceReplay.CompletedTotals | recon_cockpit/secure_agent/configurable_evidence.py:161-181 | A report that says completed comes with exact endpoint totals in its closure receipt |
| EvidenceReports.InspectedTruthful | recon_cockpit/secure_agent/configurable_evidence.py:291-383 | Every accepted report is true: dry run exactly for a dry run, then without records; completed exactly for an executed and completed session with four records the planner calls sound; incomplete otherwise; useful counts the records with an observation; the accounts fit; records, decisions, closure and final line are the journal's; and each record is of a saved result, with an observation exactly if it succeeded and its raw output parses |
| EvidenceReports.FinalizedTruthful | recon_cockpit/secure_agent/configurable_evidence.py:276-288 | Every report the store writes is true in the same sense, and about the summary it was given |
| EvidenceReports.CompleteMeansSound | recon_cockpit/secure_agent/configurable_evidence.py:161-181 | Four useful records through their gates are exactly the four the planner calls sound |
| EvidenceDivergence.Diverges | recon_cockpit/secure_agent/configurable_evidence.py:324-336 | A concrete assessment the inspector accepts and no run of the store can write: a third decision after an unexecuted second one |
| SessionEvidence.SessionAccepted | recon_cockpit/secure_agent/configurable_evidence.py:135-158 | The summary of every session driven by the configurable provider, executed or dry, completed or stopped, passes all checks of the store that journaled it; the store has an open record exactly if the session is still recording an execution |
| SessionEvidence.JoinedMirrors | recon_cockpit/secure_agent/configurable_workflow.py:100-116 | The store calls that a session's history stands for, whatever was shown, drawn and measured, make every plan the planner's and the store's book the session's history, record by record and decision by decision |
| SessionEvidence.SessionFinalized | recon_cockpit/secure_agent/configurable_evidence.py:266-288 | So the labs' closure is refused only for an open record, and then finalization only for the size of its report |
| SummaryAcceptance.ReasonsFit | recon_cockpit/secure_agent/configurable_evidence.py:139-141 | Every stop reason of a session, the broker's budgets included, has the required form |
| ApprovalWitness.ApprovalWorker.Turn | recon_cockpit/secure_agent/approval_worker.py:227-260 | One turn of the worker is its step function: review or consume first, prove second, any failure ends it |
| ApprovalWitness.WitnessReader.Require | recon_cockpit/secure_agent/approval_witness.py:81-108 | The reader's step function; any failure closes it |
| ApprovalWitness.AlwaysAgreed | recon_cockpit/secure_agent/approval_worker.py:227-260 | Over every run: proofs <= consumptions <= grants <= reviews, at most 16 grants; each grant is used once; the k-th acceptance is the k-th proof, at strictly increasing requests |
| ApprovalWitness.FreshMeansAlive | recon_cockpit/secure_agent/approval_witness.py:110-120 | A passed freshness check is before the original grant's expiry, the session deadline and five seconds after the proof |
| ApprovalWitness.TimelyAccepted | recon_cockpit/secure_agent/approval_witness.py:42-108 | An honest proof looked for in time is accepted |
| AuditWitness.AuditWorker.Turn | recon_cockpit/secure_agent/audit_worker.py:181-207 | One turn of the worker is its step function: the append precedes the witness; a turn that comes to its append appends, unless a write fails or there is no room |
| AuditWitness.Append | recon_cockpit/secure_agent/audit_worker.py:118-140 | Success means the whole record for any partial writes; failure leaves at most a prefix of it and comes only from a failed write or a record without room |
| AuditWitness.WitnessReader.Require | recon_cockpit/secure_agent/audit_witness.py:151-177 | The reader's step function; any failure closes it |
| AuditWitness.AcceptedIsDurable | recon_cockpit/secure_agent/audit_witness.py:101-177 | The k-th launch let through is the k-th launch intent of the durable journal, for exactly the accepted action; none is accepted twice |
| AuditWitness.LetThroughExactly | recon_cockpit/secure_agent/audit_witness.py:115-177 | An open reader lets a launch through exactly if it finds, in time, one witness and nothing else, from a writer still there, at most five seconds old and about this very action, which the policy does not deny |
| AuditWitness.IntentWitnessed | recon_cockpit/secure_agent/audit_worker.py:181-207 | A launch intent that an open worker can append and witness is witnessed, with the moment of the append |
| AuditWitness.FaithfulStep | recon_cockpit/secure_agent/audit_worker.py:181-207 | The k-th witness stands for the k-th durable intent; only a dead worker may owe one |
| AuditWitness.ClosedForever | recon_cockpit/secure_agent/audit_witness.py:151-181 | Once one launch has not been let through, no later one is, over any steps of worker and reader |
| CostContract.CeilingIsMaximum | recon_cockpit/secure_agent/cost_contract.py:86-100 | A ceiling is accepted exactly when every usage within its limits is; then it is their maximum and is attained |
| CostContract.PriceCovers | recon_cockpit/secure_agent/cost_contract.py:86-93 | A price is the least amount that covers the fixed charge and the whole charge for each kind of token |
| CostContract.CostMonotone | recon_cockpit/secure_agent/cost_contract.py:86-93 | Cost is monotone in uncached input, cached input and output |
| CostContract.SingleRounding | recon_cockpit/secure_agent/cost_contract.py:92-93 | One rounding never exceeds the sum of separate roundings |
| CostContract.OneRounding | recon_cockpit/secure_agent/cost_contract.py:92-93 | And it is less than that sum by at most two |
| CostContract.QuoteWithinCeiling | recon_cockpit/secure_agent/cost_contract.py:103-110 | When a quote is refused, that its estimate is the price and its ceiling the ceiling, and that the estimate stays under it |
| CaseMerge.MergeLists | recon_cockpit/case.py:256-280 | The merge loop with its position table computes the fold |
| CaseMerge.AllIncremental | recon_cockpit/case.py:249-443 | merge(merge(x, y), z) == merge(x, y ++ z) for texts, hosts, services, findings, credentials and shares |
| CaseMerge.FoldNormal | recon_cockpit/case.py:249-443 | Keys are unique in a merged list |
| CaseMerge.OrderKept | recon_cockpit/case.py:249-443 | First-seen order is kept |
| CaseMerge.KeysIndependent | recon_cockpit/case.py:249-443 | Each merged record depends on the records of its own key only |
| CaseMerge.BestCredential | recon_cockpit/case.py:381-412 | A credential's status is the first of maximal rank, and its source is manual exactly if one was |
| CaseMerge.MergedHost | recon_cockpit/case.py:256-280 | A merged host has the last status and guess given by its records, and all their names, each once and in order |
| CaseMerge.MergedService | recon_cockpit/case.py:287-330 | A merged service has the last value given for each of its fields, and the last name that is not unknown |
| CaseMerge.MergedShare | recon_cockpit/case.py:419-443 | A merged share has the last permissions and remark given, and the first source |
| CaseMerge.MergedFinding | recon_cockpit/case.py:337-355 | A merged finding has the first source given |
| CaseNotes.ManualKept | recon_cockpit/case.py:513-678 | Rendering keeps the manual section for every case and every existing text |
| CaseNotes.RenderSettles | recon_cockpit/case.py:579-678 | Rendering again changes nothing |
| CaseNotes.CellOneLine | recon_cockpit/case.py:539-552 | No cell contains a line break |
| CaseNotes.CellEscaped | recon_cockpit/case.py:539-552 | No cell can break out of its column, whatever it holds |
| CaseNotes.OnlySecretsPlain | recon_cockpit/case.py:579-678 | The notes depend on unredacted values only through the two dates and the secret column of the credentials |
| CaseNotes.SecretShown | recon_cockpit/case.py:579-678 | And a secret's cell depends on nothing but its unredacted value |
| CaseNotes.EverythingShown | recon_cockpit/case.py:579-678 | Every row of every table and every queued action has its line in the notes |
| CaseNotes.NotEndYet | recon_cockpit/case.py:513-528 | No text before the final end marker is taken for it |

## Left out

- Process confinement: bubblewrap, namespaces, seccomp, Landlock, sealing, nftables and descriptor passing are kernel behaviour.
- Real pipes, sockets, selectors and process reaping: modelled as arbitrary chunks, partial writes, end of file and exit codes.
- Event loops: a supervisor run is followed for any given number of wake-ups; one still open then is reported as running.
- Concurrency: other callers act at audit writes, checks and external calls, not between two arbitrary instructions.
- JSON, SHA-256, UUIDs: values stand for their canonical encodings, digests are injective, identifiers are drawn fresh. Other
  spellings of the same JSON value, and Python's equality of 1, 1.0 and true, are not told apart. The supervisor's JSON
  reader is any function that finds the stop flag of a reply.
- Summaries of sessions whose coordinator swallowed an exception that nobody catches in the middle of a launch: their
  evidence record is still open, and the store refuses to close. Summaries of version 1 sessions, of other providers and of
  a store that has failed are not compared with finalization.
- An honest worker's exit after a failed exchange.
- Clocks: real numbers that never run backwards; floating-point rounding is not modelled.
- The observation passed from one step to the next planner call in the session, the step callback and the duration field.
- Action and policy parsing, scope and manifest validation, `witness_addresses`: a parsed value is taken as given.
- Parsers of tool output and their validators: arbitrary functions; a validator returns its argument unchanged.
- Custody checks of one full result (rows, hashes, lengths, runtime provenance): one arbitrary predicate over the result.
- Session bootstrap events carry only their kind; a failed audit write leaves no partial line.
- `broker_ipc.py`: the supervisor of exactly one exchange is the coordinator supervisor's loop with fewer phases.
- Launch admission, launcher workers, the cost ledger and the base evidence store beyond the members used here.
- File ownership, permissions, fsync and locking: the journal is an append-only sequence whose append may fail.
- Text functions of the case notes (strip, case folding, terminal sequence removal, redaction) are arbitrary functions;
  stripping twice is taken to be stripping once.
- GUI, terminal prompts, command line front ends, command suggestions.
