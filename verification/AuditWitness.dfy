/** Evidence of durable launch intents: the audit worker appends an event and only then witnesses it
    (recon_cockpit/secure_agent/audit_worker.py); the launcher's reader accepts the witnesses in order
    (recon_cockpit/secure_agent/audit_witness.py). The channel is one-way, first in first out. */
module AuditWitness {
  import opened Prelude
  import opened Models

  const MAX_EVENTS := 1024
  const MAX_LAUNCHES := 16
  const MAX_AGE := 5.0
  const MAX_FILE_BYTES := 1048576
  const MAX_PACKET := 32768

  /** The claims of an execution_started event, with the digests of its action and policy. */
  datatype Intent = Intent(session: nat, action: Sha<Action>, policy: nat, backend: string, decision: Decision)

  /** An audit event; `intent` is what its claims amount to when it is a well-formed execution_started. */
  datatype Event = Event(started: bool, intent: Option<Intent>, body: string)

  datatype Witness = Witness(writer: nat, audit: int, sequence: int, issuedAt: real, intent: Intent, event: Sha<Event>)

  /** What the launcher expects, and from whom. */
  datatype Binding = Binding(writer: nat, session: nat, policy: Policy, backend: string)

  function ExpectedIntent(b: Binding, action: Action): Intent {
    Intent(b.session, Sha256(action), b.policy.fingerprint, b.backend, b.policy.evaluate(action))
  }

  /** validate() */
  predicate Valid(b: Binding, action: Action, w: Witness, sequence: int, previous: int, now: real) {
    w.writer == b.writer && w.sequence == sequence && 1 <= sequence <= MAX_LAUNCHES
    && previous < w.audit <= MAX_EVENTS && 0.0 <= now - w.issuedAt <= MAX_AGE
    && b.policy.evaluate(action) != Deny && w.intent == ExpectedIntent(b, action)
  }

  // ------------------------------------------------------------------- worker

  datatype Request = Request(bound: bool, sequence: int, event: Event)

  /** Whether the append and the witness write succeed, and when the append has completed. */
  datatype Moments = Moments(appended: bool, witnessed: bool, at: real, early: real)

  datatype Worker = Worker(journal: seq<Event>, sequence: nat, witnesses: seq<Witness>, alive: bool)

  const READY := Worker([], 1, [], true)

  /** witness(): malformed or excess intents are refused before anything is persisted. */
  function MakeWitness(writer: nat, event: Event, audit: nat, sequence: nat, now: real): Option<Witness> {
    if event.intent.None? || event.intent.value.decision == Deny || !(1 <= audit <= MAX_EVENTS)
       || !(1 <= sequence <= MAX_LAUNCHES) || now < 0.0 then None
    else Some(Witness(writer, audit, sequence, now, event.intent.value, Sha256(event)))
  }

  /** One turn of the loop: the append comes first, its witness second. */
  function Work(writer: nat, w: Worker, r: Request, t: Moments): Worker {
    var dead := w.(alive := false);
    if !w.alive then w
    else if !r.bound || r.sequence != w.sequence || w.sequence > MAX_EVENTS then dead
    else
      var proof := MakeWitness(writer, r.event, w.sequence, |w.witnesses| + 1, t.early);
      if (r.event.started && proof.None?) || !t.appended then dead
      else
        var v := w.(journal := w.journal + [r.event]);
        if !r.event.started then v.(sequence := v.sequence + 1)
        else if !t.witnessed then v.(alive := false)
        else v.(witnesses := v.witnesses + [proof.value.(issuedAt := t.at)], sequence := v.sequence + 1)
  }

  /** A file opened for appending; a write may take any part of what it is given, or fail. */
  class AppendFile {
    var bytes: seq<bv8>
    ghost var failed: bool  // a write has failed

    constructor ()
      ensures bytes == [] && !failed
    {
      bytes, failed := [], false;
    }

    method Write(data: seq<bv8>) returns (written: int)
      modifies this
      ensures written <= |data|
      ensures bytes == if written > 0 then old(bytes) + data[..written] else old(bytes)
      ensures failed == (old(failed) || written <= 0)
    {
      written := *;
      if written > |data| { written := |data|; }
      if written > 0 { bytes := bytes + data[..written]; }
      failed := failed || written <= 0;
    }
  }

  /** A record the journal has room for. */
  predicate Fits(bytes: seq<bv8>, raw: seq<bv8>) {
    |raw| <= MAX_PACKET && |bytes| + |raw| <= MAX_FILE_BYTES
  }

  /** append(): whatever the sizes of the partial writes, success means the whole record and nothing else; a failure
      leaves at most a prefix of it, and comes only from a failed write or a record without room. */
  method Append(file: AppendFile, raw: seq<bv8>) returns (ok: bool)
    modifies file
    ensures ok ==> file.bytes == old(file.bytes) + raw && |file.bytes| <= MAX_FILE_BYTES
    ensures !ok ==> old(file.bytes) <= file.bytes <= old(file.bytes) + raw
    ensures !ok ==> file.failed || !Fits(old(file.bytes), raw)
  {
    if |raw| > MAX_PACKET || |file.bytes| + |raw| > MAX_FILE_BYTES { return false; }
    var offset := 0;
    while offset < |raw|
      invariant 0 <= offset <= |raw| && file.bytes == old(file.bytes) + raw[..offset]
    {
      var written := file.Write(raw[offset..]);
      if written <= 0 { return false; }
      assert raw[..offset] + raw[offset..][..written] == raw[..offset + written];
      offset := offset + written;
    }
    return true;
  }

  class AuditWorker {
    const writer: nat
    const file: AppendFile
    var journal: seq<Event>
    var sequence: nat
    var witnesses: seq<Witness>
    var alive: bool

    ghost function Model(): Worker
      reads this
    {
      Worker(journal, sequence, witnesses, alive)
    }

    constructor (writer: nat, file: AppendFile)
      ensures Model() == READY && this.writer == writer && this.file == file
    {
      this.writer, this.file := writer, file;
      journal, sequence, witnesses, alive := [], 1, [], true;
    }

    /** The turn comes to its append. */
    predicate Appends(r: Request, early: real)
      reads this
    {
      alive && r.bound && r.sequence == sequence <= MAX_EVENTS
      && (r.event.started ==> MakeWitness(writer, r.event, sequence, |witnesses| + 1, early).Some?)
    }

    /** One turn of the loop; `raw` is the encoded record of the event. It is appended whenever the turn comes to that,
        unless a write fails or there is no room. */
    method Turn(r: Request, raw: seq<bv8>, early: real, at: real, writable: bool) returns (ghost t: Moments)
      modifies this, file
      ensures Model() == Work(writer, old(Model()), r, t)
      ensures |journal| > |old(journal)| ==> file.bytes == old(file.bytes) + raw
      ensures t == Moments(t.appended, writable, at, early)
      ensures old(Appends(r, early)) && !t.appended ==> file.failed || !Fits(old(file.bytes), raw)
    {
      t := Moments(false, writable, at, early);
      if !alive { return; }
      alive := false;
      if !r.bound || r.sequence != sequence || sequence > MAX_EVENTS { return; }
      var proof := MakeWitness(writer, r.event, sequence, |witnesses| + 1, early);
      if r.event.started && proof.None? { return; }
      var ok := Append(file, raw);
      if !ok { return; }
      t := t.(appended := true);
      journal := journal + [r.event];
      if r.event.started {
        if !writable { return; }
        witnesses := witnesses + [proof.value.(issuedAt := at)];
      }
      sequence, alive := sequence + 1, true;
    }
  }

  /** How many launch intents a journal holds. */
  function Intents(journal: seq<Event>): nat {
    if journal == [] then 0 else Intents(journal[..|journal| - 1]) + if journal[|journal| - 1].started then 1 else 0
  }

  /** A witness stands for the intent at its place in the journal, which is already there. */
  predicate Stands(journal: seq<Event>, w: Witness, k: nat) {
    1 <= w.audit <= |journal| && w.sequence == k + 1
    && journal[w.audit - 1].started && journal[w.audit - 1].intent == Some(w.intent)
      && w.event == Sha256(journal[w.audit - 1])
    && Intents(journal[..w.audit - 1]) == k
  }

  /** The k-th witness is about the k-th durable intent; only a worker that has died may owe one. */
  ghost predicate Faithful(writer: nat, w: Worker) {
    && (forall k :: 0 <= k < |w.witnesses| ==>
          Stands(w.journal, w.witnesses[k], k) && w.witnesses[k].writer == writer && w.witnesses[k].audit <= MAX_EVENTS)
    && (forall i, j :: 0 <= i < j < |w.witnesses| ==> w.witnesses[i].audit < w.witnesses[j].audit)
    && |w.witnesses| <= MAX_LAUNCHES
    && (w.alive ==> w.sequence == |w.journal| + 1 && |w.witnesses| == Intents(w.journal))
    && |w.witnesses| <= Intents(w.journal) <= |w.witnesses| + 1
  }

  lemma StandsStill(journal: seq<Event>, w: Witness, k: nat, e: Event)
    requires Stands(journal, w, k)
    ensures Stands(journal + [e], w, k)
  {
    assert (journal + [e])[..w.audit - 1] == journal[..w.audit - 1];
  }

  lemma IntentsMore(journal: seq<Event>, e: Event)
    ensures Intents(journal + [e]) == Intents(journal) + if e.started then 1 else 0
    ensures (journal + [e])[..|journal|] == journal && (journal + [e])[|journal|] == e
  {
  }

  lemma FaithfulOther(writer: nat, w: Worker, e: Event, v: Worker)
    requires Faithful(writer, w) && w.alive && v.journal == w.journal + [e] && v.witnesses == w.witnesses
    requires v.alive ==> v.sequence == w.sequence + 1 && !e.started
    ensures Faithful(writer, v)
  {
    IntentsMore(w.journal, e);
    forall k | 0 <= k < |w.witnesses| ensures Stands(v.journal, w.witnesses[k],
      k) { StandsStill(w.journal, w.witnesses[k], k, e); }
  }

  /** A durable intent and its witness. */
  lemma FaithfulIntent(writer: nat, w: Worker, e: Event, proof: Witness, v: Worker)
    requires Faithful(writer, w) && w.alive && w.sequence <= MAX_EVENTS && e.started && e.intent == Some(proof.intent)
    requires proof.event == Sha256(e) && proof.writer == writer && proof.audit == w.sequence
    requires proof.sequence == |w.witnesses| + 1 <= MAX_LAUNCHES
    requires v.journal == w.journal + [e] && v.witnesses == w.witnesses + [proof] && v.sequence == w.sequence + 1
    ensures Faithful(writer, v)
  {
    IntentsMore(w.journal, e);
    forall k | 0 <= k < |w.witnesses| ensures Stands(v.journal, w.witnesses[k],
      k) { StandsStill(w.journal, w.witnesses[k], k, e); }
    assert Stands(v.journal, proof, |w.witnesses|);
  }

  lemma FaithfulStep(writer: nat, w: Worker, r: Request, t: Moments)
    requires Faithful(writer, w)
    ensures Faithful(writer, Work(writer, w, r, t)) && w.witnesses <= Work(writer, w, r, t).witnesses
  {
    var v := Work(writer, w, r, t);
    if |v.witnesses| > |w.witnesses| {
      var proof := MakeWitness(writer, r.event, w.sequence, |w.witnesses| + 1, t.early).value;
      FaithfulIntent(writer, w, r.event, proof.(issuedAt := t.at), v);
    } else if |v.journal| > |w.journal| {
      FaithfulOther(writer, w, r.event, v);
    }
  }

  // ------------------------------------------------------------------- reader

  datatype Reader = Reader(sequence: nat, audit: int, closed: bool)

  const OPENED := Reader(0, 0, false)

  /** The clock as one call meets it; `exited`: the writer is gone, which also makes the channel readable. */
  datatype Look = Look(inTime: bool, now: real, exited: bool)

  datatype Answer = Answer(reader: Reader, taken: nat, ok: bool)

  /** require(): exactly one fresh witness for this launch, and nothing after it. */
  function Demand(b: Binding, r: Reader, action: Action, inbox: seq<Witness>, t: Look): Answer {
    if r.closed || !t.inTime || inbox == [] then Answer(r.(closed := true), 0, false)
    else if !Valid(b, action, inbox[0], r.sequence + 1, r.audit, t.now) then Answer(r.(closed := true), 1, false)
    else
      var quiet := |inbox| == 1 && !t.exited;
      Answer(Reader(r.sequence + 1, inbox[0].audit, !quiet), 1, quiet)
  }

  class WitnessReader {
    const binding: Binding
    var sequence: nat
    var audit: int
    var closed: bool

    ghost function Model(): Reader
      reads this
    {
      Reader(sequence, audit, closed)
    }

    constructor (binding: Binding)
      ensures this.binding == binding && Model() == OPENED
    {
      this.binding := binding;
      sequence, audit, closed := 0, 0, false;
    }

    /** Any failure closes the reader for good. */
    method Require(action: Action, inbox: seq<Witness>, t: Look) returns (ok: bool, taken: nat)
      modifies this
      ensures Answer(Model(), taken, ok) == Demand(binding, old(Model()), action, inbox, t)
      ensures old(closed) ==> !ok
      ensures closed == !ok
    {
      if closed || !t.inTime || inbox == [] {
        closed := true;
        return false, 0;
      }
      if !Valid(binding, action, inbox[0], sequence + 1, audit, t.now) {
        closed := true;
        return false, 1;
      }
      audit := inbox[0].audit;
      sequence := sequence + 1;
      if |inbox| > 1 || t.exited { closed := true; }
      return !closed, 1;
    }
  }

  // ------------------------------------------------------------------- system

  /** Worker and reader over one channel; each acceptance is kept with the action it let through. */
  datatype System = System(worker: Worker, reader: Reader, taken: nat, accepted: seq<(Action, Witness)>)

  const START := System(READY, OPENED, 0, [])

  datatype Step = Serve(request: Request, moments: Moments) | Launch(action: Action, look: Look)

  function Take(b: Binding, s: System, step: Step): System
    requires s.taken <= |s.worker.witnesses|
  {
    match step
    case Serve(r, t) => s.(worker := Work(b.writer, s.worker, r, t))
    case Launch(action, t) =>
      var inbox := s.worker.witnesses[s.taken..];
      var answer := Demand(b, s.reader, action, inbox, t);
      s.(reader := answer.reader, taken := s.taken + answer.taken,
         accepted := if answer.ok then s.accepted + [(action, inbox[0])] else s.accepted)
  }

  /** The k-th acceptance took the k-th witness, for the action that witness claims. */
  ghost predicate Matched(b: Binding, r: Reader, taken: nat, accepted: seq<(Action, Witness)>,
                          witnesses: seq<Witness>) {
    && |accepted| <= taken <= |witnesses|
    && (forall k :: 0 <= k < |accepted| ==>
          accepted[k].1 == witnesses[k] && witnesses[k].intent == ExpectedIntent(b, accepted[k].0)
          && b.policy.evaluate(accepted[k].0) != Deny)
    && (!r.closed ==> taken == r.sequence == |accepted|)
    && (!r.closed ==> r.audit == if accepted == [] then 0 else accepted[|accepted| - 1].1.audit)
  }

  ghost predicate Agreed(b: Binding, s: System) {
    Faithful(b.writer, s.worker) && Matched(b, s.reader, s.taken, s.accepted, s.worker.witnesses)
  }

  lemma MatchedMore(b: Binding, r: Reader, taken: nat, accepted: seq<(Action, Witness)>, witnesses: seq<Witness>,
                    more: seq<Witness>)
    requires Matched(b, r, taken, accepted, witnesses) && witnesses <= more
    ensures Matched(b, r, taken, accepted, more)
  {
  }

  lemma MatchedDemand(b: Binding, r: Reader, taken: nat, accepted: seq<(Action, Witness)>, witnesses: seq<Witness>,
                      action: Action, t: Look)
    requires Matched(b, r, taken, accepted, witnesses)
    ensures var inbox := witnesses[taken..]; var answer := Demand(b, r, action, inbox, t);
      Matched(b, answer.reader, taken + answer.taken, if answer.ok then accepted + [(action, inbox[0])]
        else accepted, witnesses)
  {
    if taken < |witnesses| { assert witnesses[taken..][0] == witnesses[taken]; }
  }

  lemma AgreedStep(b: Binding, s: System, step: Step)
    requires Agreed(b, s)
    ensures Agreed(b, Take(b, s, step))
  {
    match step
    case Serve(r, t) =>
      FaithfulStep(b.writer, s.worker, r, t);
      MatchedMore(b, s.reader, s.taken, s.accepted, s.worker.witnesses, Work(b.writer, s.worker, r, t).witnesses);
    case Launch(action, t) => MatchedDemand(b, s.reader, s.taken, s.accepted, s.worker.witnesses, action, t);
  }

  /** These steps lead from one system to another. */
  ghost predicate Leads(b: Binding, s: System, steps: seq<Step>, t: System) {
    if steps == [] then s == t
    else
      exists p ::
        Leads(b, s, steps[..|steps| - 1], p) && p.taken <= |p.worker.witnesses| && t == Take(b, p, steps[|steps| - 1])
  }

  ghost predicate Reaches(b: Binding, steps: seq<Step>, s: System) {
    Leads(b, START, steps, s)
  }

  lemma {:induction false} AlwaysAgreed(b: Binding, steps: seq<Step>, s: System)
    requires Reaches(b, steps, s)
    ensures Agreed(b, s)
  {
    if steps != [] {
      var p :|
        Leads(b, START, steps[..|steps| - 1], p) && p.taken <= |p.worker.witnesses|
        && s == Take(b, p, steps[|steps| - 1]);
      AlwaysAgreed(b, steps[..|steps| - 1], p);
      AgreedStep(b, p, steps[|steps| - 1]);
    }
  }

  /** Over every run: the k-th launch let through is the k-th launch intent in the durable journal, for exactly the
      accepted action; acceptances follow the journal, so no event is accepted twice. */
  lemma AcceptedIsDurable(b: Binding, steps: seq<Step>, s: System, k: nat)
    requires Reaches(b, steps, s) && k < |s.accepted|
    ensures var w := s.accepted[k].1;
      && k < |s.worker.witnesses| && w == s.worker.witnesses[k] && Stands(s.worker.journal, w, k)
      && s.worker.journal[w.audit - 1].intent == Some(ExpectedIntent(b, s.accepted[k].0))
      && b.policy.evaluate(s.accepted[k].0) != Deny
    ensures forall j :: 0 <= j < k ==> s.accepted[j].1.audit < s.accepted[k].1.audit
  {
    AlwaysAgreed(b, steps, s);
  }

  /** A launch is let through exactly if an open reader finds, in time, one witness and nothing else in the channel, its
      writer still there, and that witness is at most five seconds old and about this very action, which the policy does
      not deny. Everything else about it follows from what the worker does. */
  lemma LetThroughExactly(b: Binding, s: System, action: Action, look: Look)
    requires Agreed(b, s) && !s.reader.closed
    ensures var after := Take(b, s, Launch(action, look)).accepted;
      && (after != s.accepted <==>
            && look.inTime && !look.exited && |s.worker.witnesses| == s.taken + 1
            && var w := s.worker.witnesses[s.taken];
               w.issuedAt <= look.now <= w.issuedAt + MAX_AGE && w.intent == ExpectedIntent(b, action)
               && b.policy.evaluate(action) != Deny)
      && (after != s.accepted ==> after == s.accepted + [(action, s.worker.witnesses[s.taken])])
  {
    var inbox := s.worker.witnesses[s.taken..];
    if inbox != [] {
      var k := s.taken;
      assert inbox[0] == s.worker.witnesses[k] && Stands(s.worker.journal, s.worker.witnesses[k], k);
      if k > 0 { assert s.accepted[k - 1].1 == s.worker.witnesses[k - 1]; }
    }
  }

  /** A well-formed launch intent that an open worker can append and witness is witnessed, at the moment the append has
      completed. */
  lemma IntentWitnessed(writer: nat, w: Worker, r: Request, t: Moments)
    requires Faithful(writer, w) && w.alive && r.bound && r.sequence == w.sequence <= MAX_EVENTS
    requires r.event.started && r.event.intent.Some? && r.event.intent.value.decision != Deny
    requires |w.witnesses| < MAX_LAUNCHES && 0.0 <= t.early && t.appended && t.witnessed
    ensures var v, k := Work(writer, w, r, t), |w.witnesses|;
      && v.alive && |v.witnesses| == k + 1 && v.journal == w.journal + [r.event]
      && Stands(v.journal, v.witnesses[k], k) && v.witnesses[k].audit == |v.journal|
      && v.witnesses[k].issuedAt == t.at && v.witnesses[k].intent == r.event.intent.value
  {
    FaithfulStep(writer, w, r, t);
    IntentsMore(w.journal, r.event);
  }

  lemma {:induction false} StaysClosed(b: Binding, s: System, steps: seq<Step>, t: System)
    requires s.reader.closed && Leads(b, s, steps, t)
    ensures t.reader.closed && t.accepted == s.accepted
  {
    if steps != [] {
      var p :|
        Leads(b, s, steps[..|steps| - 1], p) && p.taken <= |p.worker.witnesses| && t == Take(b, p, steps[|steps| - 1]);
      StaysClosed(b, s, steps[..|steps| - 1], p);
    }
  }

  /** Once one launch has not been let through, no later one ever is, whatever the worker then writes and however
      often the reader is asked. */
  lemma ClosedForever(b: Binding, s: System, action: Action, look: Look, steps: seq<Step>, t: System)
    requires s.taken <= |s.worker.witnesses| && Take(b, s, Launch(action, look)).accepted == s.accepted
    requires Leads(b, Take(b, s, Launch(action, look)), steps, t)
    ensures t.accepted == s.accepted
  {
    StaysClosed(b, Take(b, s, Launch(action, look)), steps, t);
  }
}
