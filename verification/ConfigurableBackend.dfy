/** The launcher of the configurable assessment (recon_cockpit/secure_agent/configurable_backend.py) and the
    agreement of its gate with the planner's. */
module ConfigurableBackend {
  import opened Prelude
  import opened Models
  import opened ConfigurableContract
  import opened ConfigurableWorkflow
  import opened ConfigurableEvidence
  import Example = EvidenceDivergence

  // ------------------------------------------------------------------- time

  type Span = span: real | 0.0 <= span

  /** The clock, and the controls cancelled so far. The clock never runs backwards, no cancellation is undone. */
  datatype Time = Time(now: real, cancelled: set<nat>)

  /** What a stretch of waiting brings. */
  datatype Pause = Pause(span: Span, cancels: set<nat>)

  /** One control object: which one it is, and its fixed absolute deadline. */
  datatype Control = Control(id: nat, deadline: real)

  function Later(t: Time, p: Pause): Time {
    Time(t.now + p.span, t.cancelled + p.cancels)
  }

  /** control.check() */
  predicate Passes(c: Control, t: Time) {
    c.id !in t.cancelled && t.now < c.deadline
  }

  // --------------------------------------------------------------- launcher

  /** What one run meets outside: the checks of its surroundings, the control it is given, the waiting before each
      of its three looks at that control, and what the isolated tool and its lab report. */
  datatype World = World(
    usable: bool,        // execute mode and a genuine control
    pinned: bool,        // scope, lab, policy and limits still as pinned, the policy does not deny
    available: bool,     // isolation available, runtime pins valid
    control: Control,
    entry: Pause,
    binding: Pause,
    exit: Pause,
    setUp: bool,         // lab started, tool run to a report
    status: Status,
    truncated: bool,
    raw: string,
    counts: Option<(int, int)>)  // the lab's snapshot; None: it raised

  datatype Launcher =
    Launcher(sequence: nat, output: nat, control: Option<Control>, previous: Option<Context>, completed: nat)

  const IDLE := Launcher(0, 0, None, None, 0)

  /** What is fixed for one launcher. */
  datatype Bounds = Bounds(maxSteps: nat, maxOutput: nat, maxSeconds: real)

  datatype Ran = Returned(result: ToolResult) | Raised

  function AtEntry(t: Time, w: World): Time {
    Later(t, w.entry)
  }

  function AtBinding(t: Time, w: World): Time {
    Later(AtEntry(t, w), w.binding)
  }

  /** The end of a run that started at t. */
  function AtExit(t: Time, w: World): Time {
    Later(AtBinding(t, w), w.exit)
  }

  /** control.check() on entry */
  predicate InTime(t: Time, w: World) {
    Passes(w.control, AtEntry(t, w))
  }

  /** An unbound launcher takes the control if its remaining time is within the session's. */
  predicate Bindable(bounds: Bounds, t: Time, w: World) {
    Passes(w.control, AtBinding(t, w)) && w.control.deadline - AtBinding(t, w).now <= bounds.maxSeconds
  }

  /** control.check() on exit */
  predicate OnTime(t: Time, w: World) {
    Passes(w.control, AtExit(t, w))
  }

  function WithRow(e: Endpoints, endpoint: Endpoint, row: Row): Endpoints {
    match endpoint case Http => e.(http := row) case Ssh => e.(ssh := row)
  }

  /** May `action` be launched now? Nothing has been reserved yet. */
  predicate Admits(env: Env, bounds: Bounds, s: Launcher, t: Time, action: Action, w: World) {
    w.usable && InTime(t, w) && StepFor(env.scope, action).Some? && w.pinned
    && StepFor(env.scope, action).value == s.sequence + 1 && s.completed == s.sequence
    && s.output == Reservation(s.sequence)
    && (if s.control.None? then Bindable(bounds, t, w) else s.control == Some(w.control))
    && s.sequence + 1 <= bounds.maxSteps && Reservation(s.sequence + 1) <= bounds.maxOutput && w.available
  }

  /** The tool's observation, if its report has one. */
  function Parsed(env: Env, step: nat, w: World): Option<Details> {
    if w.status == Succeeded && !w.truncated then env.parse(step, w.raw) else None
  }

  /** The counters after the step: those of its endpoint are replaced. */
  function Counted(env: Env, previous: Option<Context>, step: nat, w: World): Context
    requires w.counts.Some?
  {
    var before := if previous.Some? then previous.value.endpoints else Zero(env.lab);
    var row := Row(Instance(env.lab, EndpointAt(step)), w.counts.value.0, w.counts.value.1);
    Context(env.lab, step, WithRow(before, EndpointAt(step), row))
  }

  /** The result as the launcher assembles it: parsed, and with the updated counters of the step's endpoint. */
  function ResultOf(env: Env, previous: Option<Context>, step: nat, w: World): ToolResult
    requires w.counts.Some?
  {
    Full(w.status, step, env.scope.digest, w.truncated, w.raw, Parsed(env, step, w), Counted(env, previous, step, w))
  }

  /** The tool ran and its counters continue the previous ones. */
  predicate Measured(env: Env, previous: Option<Context>, step: nat, w: World) {
    w.setUp && w.counts.Some? && ContextStatus(w.status)
    && ValidContext(env.lab, previous, step, w.status == Succeeded && Parsed(env, step, w).Some?,
                    Counted(env, previous, step, w))
  }

  /** The report opens the next step: it validates, is observed, and passes the gate of its step. */
  predicate Completes(env: Env, previous: Option<Context>, step: nat, w: World) {
    Measured(env, previous, step, w)
    && var seen := Observe(env.valid, step, w.status, w.truncated, Parsed(env, step, w));
       seen.Some? && Opens(env.valid, step, seen.value)
  }

  /** run() after its reservation: what is left behind, and whether the result is returned. */
  function Carry(env: Env, s: Launcher, t: Time, step: nat, w: World): (Launcher, Ran) {
    if !Measured(env, s.previous, step, w) then (s, Raised)
    else
      var result := ResultOf(env, s.previous, step, w);
      var after := s.(previous := Some(result.lab));
      var seen := Observe(env.valid, step, w.status, w.truncated, result.observation);
      if seen.None? then (after, Raised)
      else
        var marked := if Opens(env.valid, step, seen.value) then after.(completed := step) else after;
        (marked, if OnTime(t, w) then Returned(result) else Raised)
  }

  /** run(), as a function of the launcher's state and the time; it ends at AtExit. */
  function RunStep(env: Env, bounds: Bounds, s: Launcher, t: Time, action: Action, w: World): (Launcher, Ran) {
    if !w.usable || !InTime(t, w) || StepFor(env.scope, action).None? then (s, Raised)
    else
      var step := StepFor(env.scope, action).value;
      if !w.pinned || step != s.sequence + 1 || s.completed != s.sequence || s.output != Reservation(s.sequence) then
        (s, Raised)
      else if s.control.None? && !Bindable(bounds, t, w) then (s, Raised)
      else if s.control.Some? && s.control != Some(w.control) then (s, Raised)
      else
        var bound := s.(control := Some(w.control));
        if step > bounds.maxSteps || Reservation(step) > bounds.maxOutput || !w.available then (bound, Raised)
        else Carry(env, bound.(sequence := step, output := Reservation(step)), t, step, w)
  }

  // ------------------------------------------------- what the store makes of it

  /** The tool's report is cut off exactly when its status says so, and its result passes the checks of its custody. */
  predicate Sealed(env: Env, step: nat, w: World, result: ToolResult) {
    w.truncated == (w.status == OutputLimit) && env.custody(step, result)
  }

  /** The store accepts the result after this context: its context becomes the launcher's new one, and its observation
      is what the tool's own output parses to. */
  predicate Accepted(env: Env, step: nat, previous: Option<Context>, after: Option<Context>, w: World,
                     result: ToolResult)
  {
    && result.Full? && result.status == w.status && result.raw == w.raw && after == Some(result.lab)
    && var checked := ValidateResult(env, step, result.status, previous, result);
       && checked.Some? && checked.value.context == after && checked.value.observation.tool == ToolAt(step)
       && (checked.value.observation.Observed? <==> w.status == Succeeded && env.parse(step, w.raw).Some?)
       && (checked.value.observation.Observed? ==>
             env.parse(step, w.raw) == Some(checked.value.observation.details))
  }

  /** Whatever the launcher returns, the store accepts, if its last context was the launcher's. */
  lemma ReturnedAccepted(env: Env, bounds: Bounds, s: Launcher, t: Time, action: Action, w: World)
    requires RunStep(env, bounds, s, t, action, w).1.Returned?
    ensures StepFor(env.scope, action).Some?
    ensures var (after, ran) := RunStep(env, bounds, s, t, action, w);
      Sealed(env, StepFor(env.scope, action).value, w, ran.result) ==>
        Accepted(env, StepFor(env.scope, action).value, s.previous, after.previous, w, ran.result)
  {
    StepForInverts(env.scope, action);
  }

  /** And it completes the open record of that step with it, unless the result is too long to be kept. */
  lemma ReturnedRecorded(env: Env, b: Book, execution: Uuid, step: nat, w: World, after: Option<Context>,
                         result: ToolResult)
    requires 1 <= step == |b.records| <= STEPS
    requires b.records[step - 1] == Open(execution, step, ActionAt(env.scope, step))
    requires Accepted(env, step, b.context, after, w, result)
    ensures var e := FinishEffect(env, b, execution, result, result.status);
      && (e.Some? <==> env.size(result) <= MAX_ARTIFACT_BYTES)
      && (e.Some? ==> e.value.book.context == after && e.value.files == map[ResultName(execution) := ResultDoc(result)])
  {
  }

  class AuthorizedConfigurableBackend {
    const env: Env
    const bounds: Bounds
    var sequence: nat
    var output: nat
    var control: Option<Control>
    var previousContext: Option<Context>
    var completedStep: nat

    function State(): Launcher
      reads this
    {
      Launcher(sequence, output, control, previousContext, completedStep)
    }

    constructor (env: Env, bounds: Bounds)
      ensures this.env == env && this.bounds == bounds && State() == IDLE
    {
      this.env, this.bounds := env, bounds;
      sequence, output, control, previousContext, completedStep := 0, 0, None, None, 0;
    }

    /** run(): the reservation is made before the launch and never given back; a returned result is one that the
        evidence store accepts. */
    method Run(action: Action, t: Time, w: World) returns (ran: Ran)
      modifies this
      ensures (State(), ran) == RunStep(env, bounds, old(State()), t, action, w)
      ensures ran.Returned? ==> StepFor(env.scope, action).Some?
      ensures ran.Returned? && Sealed(env, StepFor(env.scope, action).value, w, ran.result) ==>
        Accepted(env, StepFor(env.scope, action).value, old(previousContext), previousContext, w, ran.result)
    {
      ran := Launch(action, t, w);
      if ran.Returned? { ReturnedAccepted(env, bounds, old(State()), t, action, w); }
    }

    method Launch(action: Action, t: Time, w: World) returns (ran: Ran)
      modifies this
      ensures (State(), ran) == RunStep(env, bounds, old(State()), t, action, w)
    {
      if !w.usable || !InTime(t, w) { return Raised; }
      var at := StepFor(env.scope, action);
      if at.None? { return Raised; }
      var step := at.value;
      if !w.pinned || step != sequence + 1 || completedStep != sequence || output != Reservation(sequence) {
        return Raised;
      }
      if control.None? {
        if !Bindable(bounds, t, w) { return Raised; }
        control := Some(w.control);
      } else if control != Some(w.control) {
        return Raised;
      }
      if step > bounds.maxSteps || Reservation(step) > bounds.maxOutput || !w.available { return Raised; }
      sequence, output := step, Reservation(step);
      ran := Measure(step, t, w);
    }

    method Measure(step: nat, t: Time, w: World) returns (ran: Ran)
      modifies this`previousContext, this`completedStep
      ensures (State(), ran) == Carry(env, old(State()), t, step, w)
    {
      if !w.setUp || w.counts.None? || !ContextStatus(w.status) { return Raised; }
      var seen := if w.status == Succeeded && !w.truncated then env.parse(step, w.raw) else None;
      var lab := Counted(env, previousContext, step, w);
      if !ValidContext(env.lab, previousContext, step, w.status == Succeeded && seen.Some?, lab) { return Raised; }
      previousContext := Some(lab);
      var observation := Observe(env.valid, step, w.status, w.truncated, seen);
      if observation.None? { return Raised; }
      if observation.value.Observed?
         && (!(step == 1 || step == 3) || PredecessorGate(env.valid, step, observation.value)) {
        completedStep := step;
      }
      if !OnTime(t, w) { return Raised; }
      return Returned(Full(w.status, step, env.scope.digest, w.truncated, w.raw, seen, lab));
    }
  }

  /** The launcher's fields are those of one that completed step k and nothing after it. */
  predicate GateOpen(s: Launcher, k: nat) {
    s.completed == s.sequence == k && s.output == Reservation(k)
  }

  /** The state an admitted launch starts from. */
  function Bound(s: Launcher, step: nat, w: World): Launcher {
    s.(control := Some(w.control), sequence := step, output := Reservation(step))
  }

  lemma AdmitsExactly(env: Env, bounds: Bounds, s: Launcher, t: Time, step: nat, w: World)
    requires 1 <= step <= STEPS
    ensures var action := ActionAt(env.scope, step); var after := RunStep(env, bounds, s, t, action, w);
      && (Admits(env, bounds, s, t, action, w) ==>
            step == s.sequence + 1 && GateOpen(s, s.sequence) && after == Carry(env, Bound(s, step, w), t, step, w))
      && (!Admits(env, bounds, s, t, action, w) ==> after.1.Raised? && after.0 == s.(control := after.0.control))
  {
    StepForInverts(env.scope, ActionAt(env.scope, step));
  }

  /** A full result with an observation that opens its step. */
  predicate Promising(env: Env, step: nat, r: ToolResult) {
    r.Full?
    && var seen := Observe(env.valid, step, r.status, r.truncated, r.observation);
       seen.Some? && Opens(env.valid, step, seen.value)
  }

  lemma CarryExactly(env: Env, s: Launcher, t: Time, step: nat, w: World)
    requires s.completed < step
    ensures var (after, ran) := Carry(env, s, t, step, w); var good := Completes(env, s.previous, step, w);
      && after.sequence == s.sequence && after.output == s.output && after.control == s.control
      && after.completed == (if good then step else s.completed)
      && (ran.Returned? && Promising(env, step, ran.result) <==> good && OnTime(t, w))
  {
  }

  /** A declared action's run returns a result exactly if it is admitted, its report continues the counters and
      validates, and the control still passes at the end. */
  lemma ReturnsExactly(env: Env, bounds: Bounds, s: Launcher, t: Time, step: nat, w: World)
    requires 1 <= step <= STEPS
    ensures RunStep(env, bounds, s, t, ActionAt(env.scope, step), w).1.Returned? <==>
      && Admits(env, bounds, s, t, ActionAt(env.scope, step), w) && Measured(env, s.previous, step, w)
      && Observe(env.valid, step, w.status, w.truncated, Parsed(env, step, w)).Some? && OnTime(t, w)
  {
    AdmitsExactly(env, bounds, s, t, step, w);
  }

  // ----------------------------------------------------------- blocked for good

  /** Nothing can be launched again: a step was left incomplete, or the bound control has stopped. */
  predicate Blocked(s: Launcher, t: Time) {
    s.completed != s.sequence || (s.control.Some? && !Passes(s.control.value, t))
  }

  /** Every admitted launch uses one more step and its reservation; it leaves the launcher blocked for good exactly
      when its result did not open the next step, or came after its control had stopped. */
  lemma AdmittedMoves(env: Env, bounds: Bounds, s: Launcher, t: Time, step: nat, w: World)
    requires 1 <= step <= STEPS && Admits(env, bounds, s, t, ActionAt(env.scope, step), w)
    ensures var after := RunStep(env, bounds, s, t, ActionAt(env.scope, step), w).0;
      && after.sequence == s.sequence + 1 == step && after.sequence <= bounds.maxSteps
      && after.output == Reservation(after.sequence) <= bounds.maxOutput
      && (Blocked(after, AtExit(t, w)) <==> !Completes(env, s.previous, step, w) || !OnTime(t, w))
  {
    AdmitsExactly(env, bounds, s, t, step, w);
    CarryExactly(env, Bound(s, step, w), t, step, w);
  }

  function RunAll(env: Env, bounds: Bounds, s: Launcher, t: Time, runs: seq<(Action, World)>): (Launcher, Time) {
    if runs == [] then (s, t)
    else
      var before := RunAll(env, bounds, s, t, runs[..|runs| - 1]);
      var (action, w) := runs[|runs| - 1];
      (RunStep(env, bounds, before.0, before.1, action, w).0, AtExit(before.1, w))
  }

  /** A blocked launcher refuses every later run, whatever is asked for, with whatever control, at whatever time. */
  lemma {:induction false} BlockedForever(
    env: Env, bounds: Bounds, s: Launcher, t: Time, runs: seq<(Action, World)>, action: Action, w: World)
    requires Blocked(s, t)
    ensures var (after, now) := RunAll(env, bounds, s, t, runs);
      && after == s && Blocked(s, now)
      && !Admits(env, bounds, after, now, action, w) && RunStep(env, bounds, after, now, action, w) == (s, Raised)
  {
    if runs != [] {
      var (a, v) := runs[|runs| - 1];
      BlockedForever(env, bounds, s, t, runs[..|runs| - 1], a, v);
    }
  }

  // ------------------------------------------------------- the two gates agree

  /** One recorded execution: stopped before its launch, or launched. `fallback` is the bare status recorded when
      there is no result. */
  datatype Attempt = NotLaunched(fallback: Status) | Launched(w: World, fallback: Status)

  datatype Played = Played(launcher: Launcher, time: Time, records: seq<Record>, context: Option<Context>)

  function ResultFor(a: Attempt, ran: Ran): ToolResult {
    if ran.Returned? then ran.result else Bare(a.fallback)
  }

  /** What the launcher makes of an attempt at `step`. */
  function Tried(env: Env, bounds: Bounds, p: Played, step: nat, a: Attempt): (Launcher, Ran)
    requires 1 <= step <= STEPS
  {
    if a.Launched? then RunStep(env, bounds, p.launcher, p.time, ActionAt(env.scope, step), a.w)
    else (p.launcher, Raised)
  }

  function Ended(p: Played, a: Attempt): Time {
    if a.Launched? then AtExit(p.time, a.w) else p.time
  }

  function RowFor(env: Env, step: nat, result: ToolResult, seen: Observation): Record
    requires 1 <= step <= STEPS
  {
    CompleteRecord(env, Open(Random(step), step, ActionAt(env.scope, step)), result.status, result, seen)
  }

  /** The record the evidence store completes for a result; None: it refuses the result, and the session has no
      further record. */
  function Keep(env: Env, p: Played, launcher: Launcher, time: Time, result: ToolResult): Option<Played>
    requires |p.records| < STEPS
  {
    var step := |p.records| + 1;
    match ValidateResult(env, step, result.status, p.context, result)
    case None => None
    case Some(checked) =>
      Some(Played(launcher, time, p.records + [RowFor(env, step, result, checked.observation)], checked.context))
  }

  /** One execution of the next declared action, and its record. */
  function Next(env: Env, bounds: Bounds, p: Played, a: Attempt): Option<Played> {
    if |p.records| >= STEPS then None
    else
      var (launcher, ran) := Tried(env, bounds, p, |p.records| + 1, a);
      Keep(env, p, launcher, Ended(p, a), ResultFor(a, ran))
  }

  function Play(env: Env, bounds: Bounds, start: Time, attempts: seq<Attempt>): Option<Played> {
    if attempts == [] then Some(Played(IDLE, start, [], None))
    else
      var before := Play(env, bounds, start, attempts[..|attempts| - 1]);
      if before.None? then None else Next(env, bounds, before.value, attempts[|attempts| - 1])
  }

  /** The launch is admitted and its report opens the next step. */
  predicate Clean(env: Env, bounds: Bounds, s: Launcher, t: Time, step: nat, w: World)
    requires 1 <= step <= STEPS
  {
    Admits(env, bounds, s, t, ActionAt(env.scope, step), w) && Completes(env, s.previous, step, w)
  }

  predicate Succeeds(env: Env, bounds: Bounds, p: Played, a: Attempt)
    requires |p.records| < STEPS
  {
    a.Launched? && Clean(env, bounds, p.launcher, p.time, |p.records| + 1, a.w)
  }

  /** ... and it is returned. */
  predicate Opened(env: Env, bounds: Bounds, p: Played, a: Attempt)
    requires |p.records| < STEPS
  {
    Succeeds(env, bounds, p, a) && OnTime(p.time, a.w)
  }

  /** ... but the control has stopped by then. */
  predicate LateStop(env: Env, bounds: Bounds, p: Played, a: Attempt)
    requires |p.records| < STEPS
  {
    Succeeds(env, bounds, p, a) && !OnTime(p.time, a.w)
  }

  predicate AllOpened(env: Env, bounds: Bounds, start: Time, attempts: seq<Attempt>) {
    attempts == [] ||
    (var n := |attempts| - 1; var before := Play(env, bounds, start, attempts[..n]);
     && AllOpened(env, bounds, start, attempts[..n])
     && before.Some? && |before.value.records| < STEPS && Opened(env, bounds, before.value, attempts[n]))
  }

  /** Every attempt opened its step but the last one, which was stopped by its very last check. */
  predicate StoppedLate(env: Env, bounds: Bounds, start: Time, attempts: seq<Attempt>) {
    attempts != []
    && var n := |attempts| - 1; var before := Play(env, bounds, start, attempts[..n]);
       && AllOpened(env, bounds, start, attempts[..n])
       && before.Some? && |before.value.records| < STEPS && LateStop(env, bounds, before.value, attempts[n])
  }

  /** A completed record opens the next step exactly when its validated result does. */
  lemma SoundExactly(env: Env, step: nat, previous: Option<Context>, result: ToolResult)
    requires 1 <= step <= STEPS && ValidateResult(env, step, result.status, previous, result).Some?
    ensures var seen := ValidateResult(env, step, result.status, previous, result).value.observation;
      Sound(env.valid, env.scope, step, RowFor(env, step, result, seen)) <==> Promising(env, step, result)
  {
  }

  /** What the counters may be before an attempt. */
  predicate Paced(p: Played) {
    p.launcher.completed <= p.launcher.sequence <= |p.records| && p.launcher.output == Reservation(p.launcher.sequence)
  }

  /** A run completes its step exactly when it succeeds. */
  lemma RunCompletes(env: Env, bounds: Bounds, s: Launcher, t: Time, step: nat, w: World)
    requires 1 <= step <= STEPS && s.completed <= s.sequence < step && s.output == Reservation(s.sequence)
    ensures var after := RunStep(env, bounds, s, t, ActionAt(env.scope, step), w).0;
      && (after.completed == step <==> Clean(env, bounds, s, t, step, w))
      && after.completed <= after.sequence <= step && after.output == Reservation(after.sequence)
      && (Clean(env, bounds, s, t, step, w) ==> s.completed == step - 1 && after.control == Some(w.control))
  {
    AdmitsExactly(env, bounds, s, t, step, w);
    CarryExactly(env, Bound(s, step, w), t, step, w);
  }

  /** A run yields an opening result exactly when it succeeds in time. */
  lemma RunPromises(env: Env, bounds: Bounds, s: Launcher, t: Time, step: nat, w: World)
    requires 1 <= step <= STEPS && s.completed <= s.sequence < step
    ensures var ran := RunStep(env, bounds, s, t, ActionAt(env.scope, step), w).1;
      Clean(env, bounds, s, t, step, w) && OnTime(t, w) <==> ran.Returned? && Promising(env, step, ran.result)
  {
    AdmitsExactly(env, bounds, s, t, step, w);
    CarryExactly(env, Bound(s, step, w), t, step, w);
  }

  /** An attempt completes its step exactly when it succeeds. */
  lemma TriedCompletes(env: Env, bounds: Bounds, p: Played, a: Attempt)
    requires |p.records| < STEPS && Paced(p)
    ensures var n, after := |p.records|, Tried(env, bounds, p, |p.records| + 1, a).0;
      && (after.completed == n + 1 <==> Succeeds(env, bounds, p, a))
      && after.completed <= after.sequence <= n + 1 && after.output == Reservation(after.sequence)
      && (Succeeds(env, bounds, p, a) ==> p.launcher.completed == n && after.control == Some(a.w.control))
  {
    if a.Launched? { RunCompletes(env, bounds, p.launcher, p.time, |p.records| + 1, a.w); }
  }

  /** An attempt yields an opening result exactly when it is opened. */
  lemma TriedPromises(env: Env, bounds: Bounds, p: Played, a: Attempt)
    requires |p.records| < STEPS && Paced(p)
    ensures var n := |p.records|;
      Opened(env, bounds, p, a) <==> Promising(env, n + 1, ResultFor(a, Tried(env, bounds, p, n + 1, a).1))
  {
    if a.Launched? { RunPromises(env, bounds, p.launcher, p.time, |p.records| + 1, a.w); }
  }

  lemma AllSoundMore(env: Env, records: seq<Record>, row: Record)
    requires |records| < STEPS
    ensures AllSound(env.valid, env.scope, records + [row]) <==>
      AllSound(env.valid, env.scope, records) && Sound(env.valid, env.scope, |records| + 1, row)
  {
    var more := records + [row];
    assert more[|records|] == row;
    forall i | 0 <= i < |records| ensures more[i] == records[i] {}
  }

  lemma NextPaced(env: Env, bounds: Bounds, p: Played, a: Attempt)
    requires |p.records| < STEPS && Paced(p) && Next(env, bounds, p, a).Some?
    ensures var q := Next(env, bounds, p, a).value; |q.records| == |p.records| + 1 && Paced(q)
  {
    TriedCompletes(env, bounds, p, a);
  }

  /** The record of a validated result opens the next step exactly when the result does. */
  lemma KeptExactly(env: Env, p: Played, launcher: Launcher, time: Time, result: ToolResult)
    requires |p.records| < STEPS && Keep(env, p, launcher, time, result).Some?
    ensures var q, step := Keep(env, p, launcher, time, result).value, |p.records| + 1;
      |q.records| <= STEPS
      && (AllSound(env.valid, env.scope, q.records) <==>
            AllSound(env.valid, env.scope, p.records) && Promising(env, step, result))
  {
    var step := |p.records| + 1;
    var seen := ValidateResult(env, step, result.status, p.context, result).value.observation;
    SoundExactly(env, step, p.context, result);
    AllSoundMore(env, p.records, RowFor(env, step, result, seen));
  }

  /** An attempt adds one record, which opens the next step exactly when the attempt is opened. */
  lemma RecordExactly(env: Env, bounds: Bounds, p: Played, a: Attempt)
    requires |p.records| < STEPS && Paced(p) && Next(env, bounds, p, a).Some?
    ensures var q := Next(env, bounds, p, a).value;
      |q.records| <= STEPS
      && (AllSound(env.valid, env.scope, q.records) <==>
            AllSound(env.valid, env.scope, p.records) && Opened(env, bounds, p, a))
  {
    TriedPromises(env, bounds, p, a);
    var (launcher, ran) := Tried(env, bounds, p, |p.records| + 1, a);
    KeptExactly(env, p, launcher, Ended(p, a), ResultFor(a, ran));
  }

  /** Planner and launcher after the same attempts. */
  predicate Agreement(env: Env, bounds: Bounds, start: Time, attempts: seq<Attempt>, p: Played) {
    var good, late := AllOpened(env, bounds, start, attempts), StoppedLate(env, bounds, start, attempts);
    && |p.records| == |attempts| <= STEPS && Paced(p)
    && (AllSound(env.valid, env.scope, p.records) <==> good)
    && (p.launcher.completed == |attempts| <==> good || late)
    && (late ==> Blocked(p.launcher, p.time)) && (good ==> !Blocked(p.launcher, p.time))
  }

  lemma BlockedRefuses(env: Env, bounds: Bounds, s: Launcher, t: Time, action: Action, w: World)
    ensures Blocked(s, t) ==> !Admits(env, bounds, s, t, action, w)
  {
  }

  lemma PlayPrefix(env: Env, bounds: Bounds, start: Time, attempts: seq<Attempt>)
    requires attempts != [] && Play(env, bounds, start, attempts).Some?
    ensures Play(env, bounds, start, attempts[..|attempts| - 1]).Some?
    ensures var p := Play(env, bounds, start, attempts[..|attempts| - 1]).value;
      |p.records| < STEPS && Next(env, bounds, p, attempts[|attempts| - 1]) == Play(env, bounds, start, attempts)
  {
  }

  lemma AgreementStep(env: Env, bounds: Bounds, start: Time, attempts: seq<Attempt>, p: Played)
    requires attempts != [] && Play(env, bounds, start, attempts[..|attempts| - 1]) == Some(p)
    requires |p.records| < STEPS && Agreement(env, bounds, start, attempts[..|attempts| - 1], p)
    requires Next(env, bounds, p, attempts[|attempts| - 1]).Some?
    ensures Agreement(env, bounds, start, attempts, Next(env, bounds, p, attempts[|attempts| - 1]).value)
  {
    var a := attempts[|attempts| - 1];
    NextPaced(env, bounds, p, a);
    RecordExactly(env, bounds, p, a);
    TriedCompletes(env, bounds, p, a);
    if a.Launched? { BlockedRefuses(env, bounds, p.launcher, p.time, ActionAt(env.scope, |p.records| + 1), a.w); }
  }

  lemma {:induction false} GatesAgree(env: Env, bounds: Bounds, start: Time, attempts: seq<Attempt>)
    requires Play(env, bounds, start, attempts).Some?
    ensures Agreement(env, bounds, start, attempts, Play(env, bounds, start, attempts).value)
  {
    if attempts != [] {
      PlayPrefix(env, bounds, start, attempts);
      GatesAgree(env, bounds, start, attempts[..|attempts| - 1]);
      AgreementStep(env, bounds, start, attempts, Play(env, bounds, start, attempts[..|attempts| - 1]).value);
    }
  }

  /** The planner proposes step k + 1 exactly when the launcher has completed step k and can still launch; so the
      planner agrees with the launcher's completed step alone unless the last attempt was stopped late. */
  lemma PlannerMatchesLauncher(env: Env, bounds: Bounds, start: Time, attempts: seq<Attempt>)
    requires Play(env, bounds, start, attempts).Some? && |attempts| < STEPS
    ensures var p, k := Play(env, bounds, start, attempts).value, |attempts|;
      var proposes := Expected(env.valid, env.scope, k + 1, p.records) == Some(Propose(env.scope, k + 1));
      && (proposes <==> p.launcher.completed == k && !Blocked(p.launcher, p.time))
      && ((proposes <==> p.launcher.completed == k) <==> !StoppedLate(env, bounds, start, attempts))
      && (p.launcher.completed == k <==> GateOpen(p.launcher, k))
  {
    GatesAgree(env, bounds, start, attempts);
    ProposesExactly(env.valid, env.scope, |attempts| + 1, Play(env, bounds, start, attempts).value.records);
  }

  /** Whatever has happened, the launcher admits step k + 1 only when the planner proposes it. */
  lemma LaunchesOnlyProposed(env: Env, bounds: Bounds, start: Time, attempts: seq<Attempt>, w: World)
    requires Play(env, bounds, start, attempts).Some? && |attempts| < STEPS
    requires var p := Play(env, bounds, start, attempts).value;
      Admits(env, bounds, p.launcher, p.time, ActionAt(env.scope, |attempts| + 1), w)
    ensures var p, k := Play(env, bounds, start, attempts).value, |attempts|;
      Expected(env.valid, env.scope, k + 1, p.records) == Some(Propose(env.scope, k + 1))
  {
    var p, k := Play(env, bounds, start, attempts).value, |attempts|;
    PlannerMatchesLauncher(env, bounds, start, attempts);
    AdmitsExactly(env, bounds, p.launcher, p.time, k + 1, w);
    BlockedRefuses(env, bounds, p.launcher, p.time, ActionAt(env.scope, k + 1), w);
  }

  // ------------------------------------------------------- no result is refused

  /** An attempt as its surroundings make it: what is recorded without a result is no success, and a returned result is
      sealed. */
  predicate Honoured(env: Env, bounds: Bounds, p: Played, a: Attempt)
    requires |p.records| < STEPS
  {
    var step := |p.records| + 1;
    var ran := Tried(env, bounds, p, step, a).1;
    && EvidenceStatus(a.fallback) && a.fallback != Succeeded
    && (a.Launched? && ran.Returned? ==> Sealed(env, step, a.w, ran.result))
  }

  predicate Regular(env: Env, bounds: Bounds, start: Time, attempts: seq<Attempt>) {
    |attempts| <= STEPS && (attempts == [] ||
      (var p := Play(env, bounds, start, attempts[..|attempts| - 1]);
       && Regular(env, bounds, start, attempts[..|attempts| - 1])
       && (p.Some? && |p.value.records| < STEPS ==> Honoured(env, bounds, p.value, attempts[|attempts| - 1]))))
  }

  /** Launcher and store have the same counters, until the launcher can never launch again. */
  predicate Continues(p: Played) {
    p.launcher.previous == p.context || Blocked(p.launcher, p.time)
  }

  /** A run that returns nothing leaves the counters alone, or the launcher blocked for good. */
  lemma RaisedContinues(env: Env, bounds: Bounds, s: Launcher, t: Time, action: Action, w: World)
    requires RunStep(env, bounds, s, t, action, w).1.Raised? && s.completed <= s.sequence
    ensures var after := RunStep(env, bounds, s, t, action, w).0;
      after.previous == s.previous || Blocked(after, AtExit(t, w))
  {
  }

  lemma BlockedStays(env: Env, bounds: Bounds, s: Launcher, t: Time, action: Action, w: World)
    requires Blocked(s, t)
    ensures RunStep(env, bounds, s, t, action, w) == (s, Raised) && Blocked(s, AtExit(t, w))
  {
  }

  /** The store keeps a record of every honoured attempt. */
  lemma NextDefined(env: Env, bounds: Bounds, p: Played, a: Attempt)
    requires |p.records| < STEPS && Paced(p) && Continues(p) && Honoured(env, bounds, p, a)
    ensures Next(env, bounds, p, a).Some? && Continues(Next(env, bounds, p, a).value)
  {
    var step := |p.records| + 1;
    var action := ActionAt(env.scope, step);
    if a.Launched? {
      var ran := Tried(env, bounds, p, step, a).1;
      if ran.Returned? {
        StepForInverts(env.scope, action);
        if Blocked(p.launcher, p.time) { BlockedStays(env, bounds, p.launcher, p.time, action, a.w); }
        ReturnedAccepted(env, bounds, p.launcher, p.time, action, a.w);
      } else {
        RaisedContinues(env, bounds, p.launcher, p.time, action, a.w);
        if Blocked(p.launcher, p.time) { BlockedStays(env, bounds, p.launcher, p.time, action, a.w); }
      }
    }
  }

  /** So a session whose attempts are regular has a record of each of them. */
  lemma {:induction false} PlayDefined(env: Env, bounds: Bounds, start: Time, attempts: seq<Attempt>)
    requires Regular(env, bounds, start, attempts)
    ensures var played := Play(env, bounds, start, attempts);
      played.Some? && |played.value.records| == |attempts| && Paced(played.value) && Continues(played.value)
  {
    if attempts != [] {
      PlayDefined(env, bounds, start, attempts[..|attempts| - 1]);
      var p := Play(env, bounds, start, attempts[..|attempts| - 1]).value;
      NextDefined(env, bounds, p, attempts[|attempts| - 1]);
      NextPaced(env, bounds, p, attempts[|attempts| - 1]);
    }
  }

  /** For such attempts planner and launcher agree without any further condition on what was recorded. */
  lemma RegularAgreement(env: Env, bounds: Bounds, start: Time, attempts: seq<Attempt>)
    requires Regular(env, bounds, start, attempts) && |attempts| < STEPS
    ensures Play(env, bounds, start, attempts).Some?
    ensures var p, k := Play(env, bounds, start, attempts).value, |attempts|;
      var proposes := Expected(env.valid, env.scope, k + 1, p.records) == Some(Propose(env.scope, k + 1));
      && (proposes <==> p.launcher.completed == k && !Blocked(p.launcher, p.time))
      && ((proposes <==> p.launcher.completed == k) <==> !StoppedLate(env, bounds, start, attempts))
      && (p.launcher.completed == k <==> GateOpen(p.launcher, k))
  {
    PlayDefined(env, bounds, start, attempts);
    PlannerMatchesLauncher(env, bounds, start, attempts);
  }

  // ------------------------------------------------------------- where they part

  const ENV := Example.ENV
  const SCOPE := Example.SCOPE
  const START := Time(0.0, {})

  /** A first launch with a good report; five seconds were left and ten go by. */
  const LATE := World(true, true, true, Control(0, 5.0), Pause(0.0, {}), Pause(0.0, {}), Pause(10.0, {}),
                      true, Succeeded, false, "", Some((2, 1)))

  predicate Roomy(bounds: Bounds) {
    bounds.maxSteps >= 1 && bounds.maxOutput >= 8192 && bounds.maxSeconds >= 5.0
  }

  /** The first launch of an idle launcher. */
  lemma FirstAdmitted(env: Env, bounds: Bounds, t: Time, w: World)
    requires w.usable && w.pinned && w.available && InTime(t, w) && Bindable(bounds, t, w)
    requires bounds.maxSteps >= 1 && bounds.maxOutput >= 8192
    ensures Admits(env, bounds, IDLE, t, ActionAt(env.scope, 1), w)
  {
    StepForInverts(env.scope, ActionAt(env.scope, 1));
  }

  lemma LateAdmitted(bounds: Bounds)
    requires Roomy(bounds)
    ensures Admits(ENV, bounds, IDLE, START, ActionAt(SCOPE, 1), LATE) && !OnTime(START, LATE)
  {
    FirstAdmitted(ENV, bounds, START, LATE);
  }

  lemma LateCounts()
    ensures Counted(ENV, None, 1, LATE) == Example.CONTEXT && Parsed(ENV, 1, LATE) == Some(Example.SEEN)
    ensures ValidContext(ENV.lab, None, 1, true, Example.CONTEXT)
  {
  }

  lemma LateCompletes()
    ensures Completes(ENV, None, 1, LATE)
  {
    LateCounts();
    assert Opens(ENV.valid, 1, Observed(Nmap, Example.SEEN));
  }

  lemma PlayOne(env: Env, bounds: Bounds, start: Time, a: Attempt)
    ensures Play(env, bounds, start, [a]) == Next(env, bounds, Played(IDLE, start, [], None), a)
    ensures StoppedLate(env, bounds, start, [a]) <==> LateStop(env, bounds, Played(IDLE, start, [], None), a)
  {
    assert [a][..0] == [];
  }

  /** An attempt that returned nothing is recorded by its bare status. */
  lemma BareRecorded(env: Env, bounds: Bounds, p: Played, w: World)
    requires |p.records| < STEPS && Tried(env, bounds, p, |p.records| + 1, Launched(w, Timeout)).1.Raised?
    ensures Next(env, bounds, p, Launched(w, Timeout)).Some?
  {
  }

  lemma LateRaised(env: Env, bounds: Bounds, s: Launcher, t: Time, action: Action, w: World)
    requires !OnTime(t, w)
    ensures RunStep(env, bounds, s, t, action, w).1.Raised?
  {
  }

  /** A late first launch that would have opened its step stops late. */
  lemma FirstStopsLate(env: Env, bounds: Bounds, t: Time, w: World)
    requires Admits(env, bounds, IDLE, t, ActionAt(env.scope, 1), w) && Completes(env, None, 1, w) && !OnTime(t, w)
    ensures Play(env, bounds, t, [Launched(w, Timeout)]).Some? && StoppedLate(env, bounds, t, [Launched(w, Timeout)])
  {
    PlayOne(env, bounds, t, Launched(w, Timeout));
    LateRaised(env, bounds, IDLE, t, ActionAt(env.scope, 1), w);
    BareRecorded(env, bounds, Played(IDLE, t, [], None), w);
  }

  lemma LateRecorded(bounds: Bounds)
    requires Roomy(bounds)
    ensures Play(ENV, bounds, START, [Launched(LATE, Timeout)]).Some?
    ensures StoppedLate(ENV, bounds, START, [Launched(LATE, Timeout)])
  {
    LateAdmitted(bounds);
    LateCompletes();
    FirstStopsLate(ENV, bounds, START, LATE);
  }

  /** One launch passes every gate and is then stopped by its last check: the launcher has completed step 1 but can
      never launch again, and the planner stops. */
  lemma LateStopParts(bounds: Bounds)
    requires Roomy(bounds)
    ensures var played := Play(ENV, bounds, START, [Launched(LATE, Timeout)]);
      && played.Some? && GateOpen(played.value.launcher, 1) && Blocked(played.value.launcher, played.value.time)
      && Expected(ENV.valid, SCOPE, 2, played.value.records) == Some(Stop(2))
  {
    LateRecorded(bounds);
    GatesAgree(ENV, bounds, START, [Launched(LATE, Timeout)]);
    PlannerMatchesLauncher(ENV, bounds, START, [Launched(LATE, Timeout)]);
  }
}
