/** Direct proofs of consumed approvals: the confined approval worker writes one for each grant it consumes
    (recon_cockpit/secure_agent/approval_worker.py), and the launcher's reader accepts them in order
    (recon_cockpit/secure_agent/approval_witness.py). The channel is one-way, first in first out. */
module ApprovalWitness {
  import opened Prelude
  import opened Models
  import opened Approvals

  const MAX_REVIEWS := 16
  const MAX_REQUESTS := 32
  const MAX_AGE := 5.0

  /** What both ends are bound to; the launcher's own deadline may differ from the worker's. */
  datatype Binding = Binding(broker: nat, session: nat, policy: Policy, deadline: real, readerDeadline: real)

  datatype Proof = Proof(broker: nat, session: nat, policy: nat, action: Sha<Action>, sequence: int, consumed: int,
                         issuedAt: real, expiresAt: real)

  /** validate(): the consume sequence and the moment up to which the proof is fresh. */
  function Validate(b: Binding, action: Action, p: Proof, sequence: int, previous: int, now: real,
                    deadline: real): Option<(int, real)> {
    if p.broker == b.broker && p.session == b.session && p.policy == b.policy.fingerprint && p.action == Sha256(action)
       && b.policy.evaluate(action) == ApprovalRequired
       && p.sequence == sequence && 1 <= sequence <= MAX_REVIEWS && previous < p.consumed <= MAX_REQUESTS
       && 0.0 <= now - p.issuedAt < MAX_AGE && now < p.expiresAt <= deadline
       && p.expiresAt - p.issuedAt <= b.policy.ttl
    then Some((p.consumed, Min(p.expiresAt, p.issuedAt + MAX_AGE))) else None
  }

  // ------------------------------------------------------------------- worker

  datatype Operation = Review | Consume(reference: Reference)

  /** `bound`: the fixed fields are those of this broker and session. */
  datatype Request = Request(bound: bool, sequence: int, operation: Operation, action: Action, policy: nat)

  /** The clock as one request meets it, the human's answer, and whether the proof can be written. */
  datatype Moments = Moments(issue: real, consume: real, prove: real, end: real, agreed: bool, writable: bool)

  /** The worker, with what it has done so far: grants issued, grants consumed and at which request, proofs written. */
  datatype Worker = Worker(store: Store, sequence: nat, reviews: nat, granted: seq<Approval>,
    used: seq<(nat, Approval)>,
                           proofs: seq<Proof>, alive: bool)

  const READY := Worker(Store(map[], 0), 1, 0, [], [], [], true)

  function Stop(w: Worker): Worker {
    w.(alive := false)
  }

  function ReviewStep(b: Binding, w: Worker, r: Request, t: Moments): Worker {
    var v := w.(reviews := w.reviews + 1);
    if v.reviews > MAX_REVIEWS || r.policy != b.policy.fingerprint
      || b.policy.evaluate(r.action) != ApprovalRequired then Stop(v)
    else if !t.agreed then v
    else match IssueStep(w.store, t.issue, r.action, b.policy)
      case Refused(store, _) => Stop(v.(store := store))
      case Granted(store, grant) => v.(store := store, granted := v.granted + [grant])
  }

  /** witness(): the proof of one consumption, validated by its writer first. */
  function MakeProof(b: Binding, action: Action, grant: Approval, sequence: nat, request: nat,
                     now: real): Option<Proof> {
    var p := Proof(b.broker, b.session, b.policy.fingerprint, Sha256(action), sequence, request, now,
      Min(grant.expires, b.deadline));
    if b.policy.evaluate(action) != ApprovalRequired || grant.action != Sha256(action)
      || grant.policy != b.policy.fingerprint then None
    else if Validate(b, action, p, sequence, request - 1, now, b.deadline).None? then None
    else Some(p)
  }

  /** The grant is burnt before the requested policy is even compared. */
  function ConsumeRequest(b: Binding, w: Worker, r: Request, t: Moments): Worker
    requires r.operation.Consume?
  {
    var c := ConsumeStep(w.store, t.consume, r.operation.reference, r.action, b.policy);
    if c.code.Some? then w.(store := c.store)
    else
      var v := w.(store := c.store, used := w.used + [(w.sequence, c.grant.value)]);
      if r.policy != b.policy.fingerprint then v
      else match MakeProof(b, r.action, c.grant.value, |w.proofs| + 1, w.sequence, t.prove)
        case None => Stop(v)
        case Some(p) => if t.writable then v.(proofs := v.proofs + [p]) else Stop(v)
  }

  /** One turn of the worker's loop; any failure ends it. */
  function Work(b: Binding, w: Worker, r: Request, t: Moments): Worker {
    if !w.alive then w
    else if !r.bound || r.sequence != w.sequence || w.sequence > MAX_REQUESTS then Stop(w)
    else
      var v := if r.operation.Review? then ReviewStep(b, w, r, t) else ConsumeRequest(b, w, r, t);
      if !v.alive || t.end >= b.deadline then Stop(v) else v.(sequence := v.sequence + 1)
  }

  /** The loop itself, over whatever arrives. */
  class ApprovalWorker {
    const binding: Binding
    const store: ApprovalStore
    var sequence: nat
    var reviews: nat
    var alive: bool
    ghost var granted: seq<Approval>
    ghost var used: seq<(nat, Approval)>
    var proofs: seq<Proof>   // what has been written to the witness channel

    ghost function Model(): Worker
      reads this, store
    {
      Worker(store.Model(), sequence, reviews, granted, used, proofs, alive)
    }

    constructor (binding: Binding)
      ensures this.binding == binding && Model() == READY && fresh(store)
    {
      this.binding := binding;
      this.store := new ApprovalStore();
      sequence, reviews, alive, granted, used, proofs := 1, 0, true, [], [], [];
    }

    /** The review branch; false: the worker refuses to go on. */
    method ReviewAction(r: Request, t: Moments) returns (ok: bool)
      requires alive
      modifies this`reviews, this`granted, store
      ensures var v := ReviewStep(binding, old(Model()), r, t); ok == v.alive && Model() == v.(alive := true)
    {
      reviews := reviews + 1;
      if reviews > MAX_REVIEWS || r.policy != binding.policy.fingerprint
         || binding.policy.evaluate(r.action) != ApprovalRequired { return false; }
      if !t.agreed { return true; }
      var grant := store.Issue(t.issue, r.action, binding.policy);
      if grant.Err? { return false; }
      granted := granted + [grant.value];
      return true;
    }

    /** The consume branch. */
    method ConsumeGrant(r: Request, t: Moments) returns (ok: bool)
      requires alive && r.operation.Consume?
      modifies this`used, this`proofs, store
      ensures var v := ConsumeRequest(binding, old(Model()), r, t); ok == v.alive && Model() == v.(alive := true)
    {
      var code, grant := store.ConsumeWithGrant(t.consume, r.operation.reference, r.action, binding.policy);
      if code.Some? { return true; }
      used := used + [(sequence, grant.value)];
      if r.policy != binding.policy.fingerprint { return true; }
      var proof := MakeProof(binding, r.action, grant.value, |proofs| + 1, sequence, t.prove);
      if proof.None? || !t.writable { return false; }
      proofs := proofs + [proof.value];
      return true;
    }

    /** One turn of the loop. */
    method Turn(r: Request, t: Moments)
      modifies this, store
      ensures Model() == Work(binding, old(Model()), r, t)
    {
      if !alive { return; }
      if !r.bound || r.sequence != sequence || sequence > MAX_REQUESTS {
        alive := false;
        return;
      }
      var ok;
      if r.operation.Review? {
        ok := ReviewAction(r, t);
      } else {
        ok := ConsumeGrant(r, t);
      }
      if !ok || t.end >= binding.deadline {
        alive := false;
        return;
      }
      sequence := sequence + 1;
    }
  }

  // --------------------------------------------------------------- conservation

  /** Proofs come from consumed grants, those from issued ones, and those from reviews. */
  ghost predicate Counted(w: Worker) {
    && |w.proofs| <= |w.used| && |w.store.grants| + |w.used| <= |w.granted| <= w.reviews && |w.granted| <= MAX_REVIEWS
    && (w.alive ==> w.reviews <= MAX_REVIEWS) && 1 <= w.sequence <= MAX_REQUESTS + 1
  }

  lemma LiveFewer(grants: map<nat, Approval>, now: real)
    ensures |Live(grants, now)| <= |grants|
  {
    SubsetCount(Live(grants, now).Keys, grants.Keys);
  }

  lemma {:induction false} SubsetCount(a: set<nat>, b: set<nat>)
    requires a <= b
    ensures |a| <= |b|
  {
    if a != {} {
      var x :| x in a;
      SubsetCount(a - {x}, b - {x});
    }
  }

  lemma IssueCounts(s: Store, now: real, action: Action, policy: Policy)
    ensures match IssueStep(s, now, action, policy)
      case Refused(t, _) => |t.grants| <= |s.grants|
      case Granted(t, _) => |t.grants| <= |s.grants| + 1
  {
    LiveFewer(s.grants, now);
    var live := Live(s.grants, now);
    var grant := Approval(s.next, Sha256(action), policy.fingerprint, now + policy.ttl);
    assert live[s.next := grant].Keys == live.Keys + {s.next};
  }

  lemma ConsumeCounts(s: Store, now: real, reference: Reference, action: Action, policy: Policy)
    ensures var c := ConsumeStep(s, now, reference, action, policy);
      |c.store.grants| + (if c.code.None? then 1 else 0) <= |s.grants|
  {
    if reference.Token? && reference.n in s.grants {
      assert (s.grants - {reference.n}).Keys == s.grants.Keys - {reference.n};
    }
  }

  lemma CountedStep(b: Binding, w: Worker, r: Request, t: Moments)
    requires Counted(w)
    ensures Counted(Work(b, w, r, t))
  {
    IssueCounts(w.store, t.issue, r.action, b.policy);
    if r.operation.Consume? { ConsumeCounts(w.store, t.consume, r.operation.reference, r.action, b.policy); }
  }

  // -------------------------------------------------------------------- grants

  /** Live grants are issued ones; used grants were issued, are gone for good, and are all different. */
  ghost predicate Linear(w: Worker) {
    && (forall r :: r in w.store.grants ==>
      r < w.store.next && w.store.grants[r].reference == r && w.store.grants[r] in w.granted)
    && (forall j :: 0 <= j < |w.used| ==>
          w.used[j].1 in w.granted && w.used[j].1.reference < w.store.next && w.used[j].1.reference !in w.store.grants)
    && (forall i, j :: 0 <= i < j < |w.used| ==> w.used[i].1.reference != w.used[j].1.reference)
  }

  lemma LinearIssue(b: Binding, w: Worker, r: Request, t: Moments)
    requires Linear(w)
    ensures Linear(ReviewStep(b, w, r, t))
  {
    var v := ReviewStep(b, w, r, t);
    assert forall g :: g in w.granted ==> g in v.granted;
  }

  lemma LinearUse(w: Worker, reference: nat, request: nat)
    requires Linear(w) && reference in w.store.grants
    ensures Linear(w.(store := w.store.(grants := w.store.grants - {reference})))
    ensures Linear(w.(store := w.store.(grants := w.store.grants - {reference}),
                      used := w.used + [(request, w.store.grants[reference])]))
  {
  }

  lemma LinearConsume(b: Binding, w: Worker, r: Request, t: Moments)
    requires Linear(w) && r.operation.Consume?
    ensures Linear(ConsumeRequest(b, w, r, t))
  {
    if r.operation.reference.Token? && r.operation.reference.n in w.store.grants {
      LinearUse(w, r.operation.reference.n, w.sequence);
    }
  }

  // -------------------------------------------------------------------- proofs

  /** A proof as its writer made it: for one used grant, and for no longer than that grant and the session. */
  predicate Made(b: Binding, p: Proof, use: (nat, Approval)) {
    && p.consumed == use.0 && p.expiresAt == Min(use.1.expires, b.deadline) && p.action == use.1.action
    && Validate(b, p.action.of, p, p.sequence, p.consumed - 1, p.issuedAt, b.deadline).Some?
  }

  ghost predicate MadeFrom(b: Binding, p: Proof, used: seq<(nat, Approval)>) {
    exists j :: 0 <= j < |used| && Made(b, p, used[j])
  }

  /** Proofs are numbered in order, at increasing requests up to the last one served, each from a used grant. */
  ghost predicate ProofsKept(b: Binding, proofs: seq<Proof>, used: seq<(nat, Approval)>, served: nat) {
    && (forall k :: 0 <= k < |proofs| ==>
          proofs[k].sequence == k + 1 && 1 <= proofs[k].consumed <= served && MadeFrom(b, proofs[k], used))
    && (forall i, j :: 0 <= i < j < |proofs| ==> proofs[i].consumed < proofs[j].consumed)
  }

  ghost predicate Proven(b: Binding, w: Worker) {
    1 <= w.sequence && ProofsKept(b, w.proofs, w.used, if w.alive then w.sequence - 1 else w.sequence)
  }

  lemma MadeStill(b: Binding, p: Proof, used: seq<(nat, Approval)>, use: (nat, Approval))
    requires MadeFrom(b, p, used)
    ensures MadeFrom(b, p, used + [use])
  {
    var j :| 0 <= j < |used| && Made(b, p, used[j]);
    assert (used + [use])[j] == used[j];
  }

  lemma KeptLonger(b: Binding, proofs: seq<Proof>, used: seq<(nat, Approval)>, served: nat, later: nat)
    requires ProofsKept(b, proofs, used, served) && served <= later
    ensures ProofsKept(b, proofs, used, later)
  {
  }

  lemma KeptUse(b: Binding, proofs: seq<Proof>, used: seq<(nat, Approval)>, served: nat, use: (nat, Approval))
    requires ProofsKept(b, proofs, used, served)
    ensures ProofsKept(b, proofs, used + [use], served)
  {
    forall k | 0 <= k < |proofs| ensures MadeFrom(b, proofs[k], used + [use]) { MadeStill(b, proofs[k], used, use); }
  }

  lemma KeptProof(b: Binding, proofs: seq<Proof>, used: seq<(nat, Approval)>, served: nat, use: (nat, Approval),
                  p: Proof)
    requires ProofsKept(b, proofs, used, served) && use in used && Made(b, p, use)
    requires p.sequence == |proofs| + 1 && p.consumed == served + 1
    ensures ProofsKept(b, proofs + [p], used, served + 1)
  {
    assert MadeFrom(b, p, used);
  }

  lemma MadeByMaking(b: Binding, action: Action, grant: Approval, sequence: nat, request: nat, now: real)
    requires MakeProof(b, action, grant, sequence, request, now).Some?
    ensures var p := MakeProof(b, action, grant, sequence, request, now).value;
      Made(b, p, (request, grant)) && p.sequence == sequence && p.consumed == request
  {
  }

  /** What a consumption adds: nothing, a used grant, or a used grant and its proof. */
  lemma ConsumeAdds(b: Binding, w: Worker, r: Request, t: Moments)
    requires r.operation.Consume?
    ensures var v := ConsumeRequest(b, w, r, t);
      && v.sequence == w.sequence
      && ((v.proofs == w.proofs && v.used == w.used)
          || (v.proofs == w.proofs && |v.used| == |w.used| + 1 && v.used == w.used + [v.used[|w.used|]])
          || (|v.used| == |w.used| + 1 && v.used == w.used + [v.used[|w.used|]] && |v.proofs| == |w.proofs| + 1
              && v.proofs == w.proofs + [v.proofs[|w.proofs|]] && Made(b, v.proofs[|w.proofs|], v.used[|w.used|])
              && v.proofs[|w.proofs|].sequence == |w.proofs| + 1 && v.proofs[|w.proofs|].consumed == w.sequence))
  {
    var c := ConsumeStep(w.store, t.consume, r.operation.reference, r.action, b.policy);
    if c.code.None? {
      var proof := MakeProof(b, r.action, c.grant.value, |w.proofs| + 1, w.sequence, t.prove);
      if proof.Some? { MadeByMaking(b, r.action, c.grant.value, |w.proofs| + 1, w.sequence, t.prove); }
    }
  }

  lemma KeptConsume(b: Binding, w: Worker, r: Request, t: Moments)
    requires w.alive && Proven(b, w) && r.operation.Consume?
    ensures var v := ConsumeRequest(b, w, r, t); v.sequence == w.sequence && ProofsKept(b, v.proofs, v.used, w.sequence)
  {
    var v := ConsumeRequest(b, w, r, t);
    var n := w.sequence - 1;
    ConsumeAdds(b, w, r, t);
    KeptLonger(b, w.proofs, w.used, n, n + 1);
    if |v.used| > |w.used| {
      var use := v.used[|w.used|];
      KeptUse(b, w.proofs, w.used, n, use);
      KeptLonger(b, w.proofs, v.used, n, n + 1);
      if |v.proofs| > |w.proofs| { KeptProof(b, w.proofs, v.used, n, use, v.proofs[|w.proofs|]); }
    }
  }

  /** What a turn does to the writer's numbering, whatever the request does. */
  lemma TurnKeeps(b: Binding, v: Worker, sequence: nat)
    requires 1 <= v.sequence == sequence && ProofsKept(b, v.proofs, v.used, sequence)
    ensures Proven(b, Stop(v)) && Proven(b, v.(sequence := v.sequence + 1, alive := true))
  {
  }

  lemma ReviewKeeps(b: Binding, w: Worker, r: Request, t: Moments)
    ensures var v := ReviewStep(b, w, r, t); v.sequence == w.sequence && v.proofs == w.proofs && v.used == w.used
  {
  }

  lemma ProvenStep(b: Binding, w: Worker, r: Request, t: Moments)
    requires Proven(b, w)
    ensures Proven(b, Work(b, w, r, t))
  {
    if w.alive {
      KeptLonger(b, w.proofs, w.used, w.sequence - 1, w.sequence);
      if r.operation.Consume? {
        KeptConsume(b, w, r, t);
        TurnKeeps(b, ConsumeRequest(b, w, r, t), w.sequence);
      } else {
        ReviewKeeps(b, w, r, t);
        TurnKeeps(b, ReviewStep(b, w, r, t), w.sequence);
      }
      TurnKeeps(b, w, w.sequence);
    }
  }

  // -------------------------------------------------------------------- reader

  datatype Reader = Reader(sequence: nat, consumed: int, expires: Option<real>, closed: bool)

  const OPENED := Reader(0, 0, None, false)

  /** The clock as one call meets it; `exited`: the writer is gone, which also makes the channel readable. */
  datatype Look = Look(onTime: bool, waited: bool, now: real, stillOnTime: bool, later: real, exited: bool)

  datatype Answer = Answer(reader: Reader, taken: nat, ok: bool)

  function Closed(r: Reader, taken: nat): Answer {
    Answer(r.(closed := true), taken, false)
  }

  /** check_fresh(): still open, in time, before the expiry of the last proof, and nothing more on the channel. */
  function Recheck(r: Reader, pending: nat, t: Look): Answer {
    if r.closed || !t.stillOnTime || (r.expires.Some? && t.later >= r.expires.value) || pending > 0
      || t.exited then Closed(r, 0)
    else Answer(r, 0, true)
  }

  /** require(): a direct proof for every launch that needs approval, and silence otherwise. */
  function Demand(b: Binding, r: Reader, action: Action, inbox: seq<Proof>, t: Look): Answer {
    if r.closed || !t.onTime then Closed(r, 0)
    else match b.policy.evaluate(action)
      case Allow => if inbox != [] || t.exited then Closed(r, 0) else Answer(r.(expires := None), 0, true)
      case Deny => Closed(r, 0)
      case ApprovalRequired =>
        if inbox == [] || !t.waited then Closed(r, 0)
        else match Validate(b, action, inbox[0], r.sequence + 1, r.consumed, t.now, b.readerDeadline)
          case None => Closed(r, 1)
          case Some(found) =>
            var s := Reader(r.sequence + 1, found.0, Some(found.1), false);
            Recheck(s, |inbox| - 1, t).(taken := 1)
  }

  class WitnessReader {
    const binding: Binding
    var sequence: nat
    var consumed: int
    var expires: Option<real>
    var closed: bool

    ghost function Model(): Reader
      reads this
    {
      Reader(sequence, consumed, expires, closed)
    }

    constructor (binding: Binding)
      ensures this.binding == binding && Model() == OPENED
    {
      this.binding := binding;
      sequence, consumed, expires, closed := 0, 0, None, false;
    }

    method CheckFresh(pending: nat, t: Look) returns (ok: bool)
      modifies this`closed
      ensures Model() == Recheck(old(Model()), pending, t).reader
      ensures ok == Recheck(old(Model()), pending, t).ok
    {
      ok := !closed && t.stillOnTime && (expires.None? || t.later < expires.value) && pending == 0 && !t.exited;
      if !ok { closed := true; }
    }

    /** Any failure closes the reader for good. */
    method Require(action: Action, inbox: seq<Proof>, t: Look) returns (ok: bool, taken: nat)
      modifies this
      ensures ok == Demand(binding, old(Model()), action, inbox, t).ok
      ensures taken == Demand(binding, old(Model()), action, inbox, t).taken
      ensures ok ==> Model() == Demand(binding, old(Model()), action, inbox, t).reader
      ensures !ok ==> closed
    {
      if closed || !t.onTime {
        closed := true;
        return false, 0;
      }
      expires := None;
      var decision := binding.policy.evaluate(action);
      if decision == Allow {
        ok := inbox == [] && !t.exited;
        closed := !ok;
        return ok, 0;
      }
      if decision == Deny || inbox == [] || !t.waited {
        closed := true;
        return false, 0;
      }
      var found := Validate(binding, action, inbox[0], sequence + 1, consumed, t.now, binding.readerDeadline);
      if found.None? {
        closed := true;
        return false, 1;
      }
      consumed, expires := found.value.0, Some(found.value.1);
      sequence := sequence + 1;
      ok := CheckFresh(|inbox| - 1, t);
      return ok, 1;
    }
  }

  // -------------------------------------------------------------------- system

  /** Worker and reader over one channel; `taken` proofs have been received, `accepted` ones let a launch through. */
  datatype System = System(worker: Worker, reader: Reader, taken: nat, accepted: seq<Proof>)

  const START := System(READY, OPENED, 0, [])

  datatype Step =
    | Serve(request: Request, moments: Moments)
    | Launch(action: Action, look: Look)
    | Check(look: Look)

  function Take(b: Binding, s: System, step: Step): System
    requires s.taken <= |s.worker.proofs|
  {
    match step
    case Serve(r, t) => s.(worker := Work(b, s.worker, r, t))
    case Launch(action, t) =>
      var inbox := s.worker.proofs[s.taken..];
      var answer := Demand(b, s.reader, action, inbox, t);
      s.(reader := answer.reader, taken := s.taken + answer.taken,
         accepted := if answer.ok && answer.taken == 1 then s.accepted + [inbox[0]] else s.accepted)
    case Check(t) => s.(reader := Recheck(s.reader, |s.worker.proofs| - s.taken, t).reader)
  }

  ghost predicate Honest(b: Binding, w: Worker) {
    Counted(w) && Linear(w) && Proven(b, w)
  }

  /** What was accepted is what was written first, in order; an open reader remembers the last of it. */
  ghost predicate Matched(r: Reader, taken: nat, accepted: seq<Proof>, proofs: seq<Proof>) {
    && |accepted| <= taken <= |proofs| && accepted <= proofs
    && (!r.closed ==> taken == r.sequence == |accepted|)
    && (!r.closed ==> r.consumed == if accepted == [] then 0 else accepted[|accepted| - 1].consumed)
    && (!r.closed && r.expires.Some? ==> accepted != [] && r.expires.value == Until(accepted[|accepted| - 1]))
  }

  function Until(p: Proof): real {
    Min(p.expiresAt, p.issuedAt + MAX_AGE)
  }

  ghost predicate Agreed(b: Binding, s: System) {
    Honest(b, s.worker) && Matched(s.reader, s.taken, s.accepted, s.worker.proofs)
  }

  lemma WorkGrows(b: Binding, w: Worker, r: Request, t: Moments)
    ensures w.proofs <= Work(b, w, r, t).proofs
  {
  }

  lemma LinearStep(b: Binding, w: Worker, r: Request, t: Moments)
    requires Linear(w)
    ensures Linear(Work(b, w, r, t))
  {
    if r.operation.Review? { LinearIssue(b, w, r, t); } else { LinearConsume(b, w, r, t); }
  }

  lemma HonestStep(b: Binding, w: Worker, r: Request, t: Moments)
    requires Honest(b, w)
    ensures Honest(b, Work(b, w, r, t))
  {
    CountedStep(b, w, r, t);
    ProvenStep(b, w, r, t);
    LinearStep(b, w, r, t);
  }

  lemma MatchedMore(r: Reader, taken: nat, accepted: seq<Proof>, proofs: seq<Proof>, more: seq<Proof>)
    requires Matched(r, taken, accepted, proofs) && proofs <= more
    ensures Matched(r, taken, accepted, more)
  {
  }

  lemma MatchedDemand(b: Binding, r: Reader, taken: nat, accepted: seq<Proof>, proofs: seq<Proof>, action: Action,
                      t: Look)
    requires Matched(r, taken, accepted, proofs)
    ensures var inbox := proofs[taken..]; var answer := Demand(b, r, action, inbox, t);
      Matched(answer.reader, taken + answer.taken, if answer.ok && answer.taken == 1 then accepted + [inbox[0]]
        else accepted, proofs)
  {
    if taken < |proofs| {
      assert proofs[taken..][0] == proofs[taken];
      if !r.closed { assert accepted + [proofs[taken]] <= proofs; }
    }
  }

  lemma AgreedStep(b: Binding, s: System, step: Step)
    requires Agreed(b, s)
    ensures Agreed(b, Take(b, s, step))
  {
    match step
    case Serve(r, t) =>
      HonestStep(b, s.worker, r, t);
      WorkGrows(b, s.worker, r, t);
      MatchedMore(s.reader, s.taken, s.accepted, s.worker.proofs, Work(b, s.worker, r, t).proofs);
    case Launch(action, t) => MatchedDemand(b, s.reader, s.taken, s.accepted, s.worker.proofs, action, t);
    case Check(_) =>
  }

  ghost predicate Reaches(b: Binding, steps: seq<Step>, s: System) {
    if steps == [] then s == START
    else exists p ::
      Reaches(b, steps[..|steps| - 1], p) && p.taken <= |p.worker.proofs| && s == Take(b, p, steps[|steps| - 1])
  }

  /** Over every run: proofs never outnumber consumptions, those grants, those reviews, at most sixteen; grants are
      used once; and the reader's k-th acceptance is the writer's k-th proof. */
  lemma {:induction false} AlwaysAgreed(b: Binding, steps: seq<Step>, s: System)
    requires Reaches(b, steps, s)
    ensures Agreed(b, s)
  {
    if steps != [] {
      var p :| Reaches(b, steps[..|steps| - 1], p) && p.taken <= |p.worker.proofs|
        && s == Take(b, p, steps[|steps| - 1]);
      AlwaysAgreed(b, steps[..|steps| - 1], p);
      AgreedStep(b, p, steps[|steps| - 1]);
    }
  }

  /** Whenever a check passes after an acceptance, the original grant, the session and the proof are all still alive. */
  lemma FreshMeansAlive(b: Binding, s: System, t: Look) returns (use: (nat, Approval))
    requires Agreed(b, s) && Recheck(s.reader, |s.worker.proofs| - s.taken, t).ok && s.reader.expires.Some?
    ensures s.accepted != [] && use in s.worker.used && use.1 in s.worker.granted
    ensures var p := s.accepted[|s.accepted| - 1];
      p.consumed == use.0 && p.action == use.1.action
      && t.later < use.1.expires && t.later < b.deadline && t.later < p.issuedAt + MAX_AGE
  {
    var k := |s.accepted| - 1;
    assert s.accepted[k] == s.worker.proofs[k];
    assert MadeFrom(b, s.worker.proofs[k], s.worker.used);
    var j :| 0 <= j < |s.worker.used| && Made(b, s.worker.proofs[k], s.worker.used[j]);
    use := s.worker.used[j];
  }

  /** An honest proof that is looked for in time is accepted. */
  lemma TimelyAccepted(b: Binding, s: System, t: Look)
    requires Agreed(b, s) && !s.reader.closed && |s.worker.proofs| == s.taken + 1 && b.deadline <= b.readerDeadline
    requires t.onTime && t.waited && t.stillOnTime && !t.exited
    requires var p := s.worker.proofs[s.taken];
      p.issuedAt <= t.now <= t.later && t.later < p.expiresAt && t.later < p.issuedAt + MAX_AGE
    ensures var p := s.worker.proofs[s.taken];
      Demand(b, s.reader, p.action.of, s.worker.proofs[s.taken..], t).ok
      && Take(b, s, Launch(p.action.of, t)).accepted == s.accepted + [p]
  {
    var k := s.taken;
    var p := s.worker.proofs[k];
    assert MadeFrom(b, p, s.worker.used);
    var j :| 0 <= j < |s.worker.used| && Made(b, p, s.worker.used[j]);
    assert s.worker.proofs[k..] == [p];
    if k > 0 { assert s.accepted[k - 1] == s.worker.proofs[k - 1]; }
  }
}
