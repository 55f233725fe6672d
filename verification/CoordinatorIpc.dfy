/** The host supervisor of a persistent dialogue, and the blocking reader of its child
    (recon_cockpit/secure_agent/coordinator_ipc.py). */
module CoordinatorIpc {
  import opened Prelude
  import opened Execution
  import opened CoordinatorFrames
  import opened CoordinatorPeer

  /** The pipes a wake-up finds ready, and which of the two readable ones comes first. */
  datatype Readiness = Readiness(stdout: bool, stderr: bool, stdin: bool, stderrFirst: bool)
  {
    function Count(): nat {
      (if stdout then 1 else 0) + (if stderr then 1 else 0) + if stdin then 1 else 0
    }
  }

  /** The child process as its pipes show it: any chunking of output, any partial writes. `honest` says that it has
      done nothing so far that `script` does not say; nothing is assumed of a child that is not. */
  class Child {
    ghost const script: Script
    ghost var stdout: Bytes      // every byte read from it
    ghost var stdin: Bytes       // every byte it was given
    ghost var noise: nat         // bytes of diagnostics read from it
    ghost var stdoutEnded: bool
    ghost var stderrEnded: bool
    ghost var honest: bool
    ghost var wakeups: nat
    ghost var offered: nat       // ready pipes over all wake-ups
    ghost var served: nat        // reads and writes made for them
    ghost var code: Option<int>  // its exit code, once it has been waited for
    ghost var late: bool         // it was still running when it was last waited for

    constructor (ghost script: Script)
      ensures Unused() && this.script == script
    {
      this.script := script;
      stdout, stdin, noise, stdoutEnded, stderrEnded, honest := [], [], 0, false, false, true;
      wakeups, offered, served, code, late := 0, 0, 0, None, false;
    }

    ghost predicate Unused()
      reads this
    {
      && stdout == [] && stdin == [] && noise == 0 && !stdoutEnded && !stderrEnded && honest
      && wakeups == offered == served == 0 && code.None? && !late
    }

    /** Its output so far is something its script says, and it ends only where the script does. */
    ghost predicate Plausible(chunk: Chunk)
      reads this
    {
      match chunk
      case Blocked => true
      case Data(_) => stdout <= Spoken(script, stdin).text
      case Eof => Spoken(script, stdin) == Speech(stdout, true)
    }

    /** select(): any of the registered pipes may be ready. */
    method Select(stdoutOpen: bool, stderrOpen: bool, stdinOpen: bool) returns (ready: Readiness)
      modifies this`wakeups, this`offered
      ensures wakeups == old(wakeups) + 1 && offered == old(offered) + ready.Count()
      ensures (ready.stdout ==> stdoutOpen) && (ready.stderr ==> stderrOpen) && (ready.stdin ==> stdinOpen)
    {
      ready := *;
      ready := Readiness(ready.stdout && stdoutOpen, ready.stderr && stderrOpen, ready.stdin && stdinOpen,
                         ready.stderrFirst);
      wakeups, offered := wakeups + 1, offered + ready.Count();
    }

    /** A ready stdout is read. */
    method ReadStdout(limit: nat) returns (chunk: Chunk)
      requires limit > 0
      modifies this`stdout, this`stdoutEnded, this`honest, this`served
      ensures chunk.Data? ==> 1 <= |chunk.bytes| <= limit && stdout == old(stdout) + chunk.bytes
      ensures !chunk.Data? ==> stdout == old(stdout)
      ensures stdoutEnded == (old(stdoutEnded) || chunk.Eof?) && served == old(served) + 1
      ensures honest <==> old(honest) && Plausible(chunk)
    {
      chunk := Probe(limit);
      served := served + 1;
    }

    /** So may be one that is not known to be ready. */
    method Probe(limit: nat) returns (chunk: Chunk)
      requires limit > 0
      modifies this`stdout, this`stdoutEnded, this`honest
      ensures chunk.Data? ==> 1 <= |chunk.bytes| <= limit && stdout == old(stdout) + chunk.bytes
      ensures !chunk.Data? ==> stdout == old(stdout)
      ensures stdoutEnded == (old(stdoutEnded) || chunk.Eof?)
      ensures honest <==> old(honest) && Plausible(chunk)
    {
      chunk := *;
      if chunk.Data? && !(1 <= |chunk.bytes| <= limit) { chunk := Blocked; }
      if chunk.Data? { stdout := stdout + chunk.bytes; }
      stdoutEnded := stdoutEnded || chunk.Eof?;
      honest := honest && Plausible(chunk);
    }

    /** stderr is read, because it is ready or to drain it. An honest child's diagnostics keep within their limit. */
    method ReadStderr(limit: nat, ghost ready: bool) returns (chunk: Chunk)
      requires limit > 0
      modifies this`noise, this`stderrEnded, this`honest, this`served
      ensures chunk.Data? ==> 1 <= |chunk.bytes| <= limit
      ensures noise == old(noise) + if chunk.Data? then |chunk.bytes| else 0
      ensures stderrEnded == (old(stderrEnded) || chunk.Eof?)
      ensures served == old(served) + if ready then 1 else 0
      ensures honest <==> old(honest) && noise <= MAX_STDERR_BYTES
    {
      chunk := *;
      if chunk.Data? && !(1 <= |chunk.bytes| <= limit) { chunk := Blocked; }
      if chunk.Data? { noise := noise + |chunk.bytes|; }
      stderrEnded := stderrEnded || chunk.Eof?;
      honest := honest && noise <= MAX_STDERR_BYTES;
      if ready { served := served + 1; }
    }

    /** An honest child reads on. */
    method Write(bytes: Bytes) returns (written: Written)
      modifies this`stdin, this`honest, this`served
      ensures written.Wrote? ==> written.count <= |bytes| && stdin == old(stdin) + bytes[..written.count]
      ensures !written.Wrote? ==> stdin == old(stdin)
      ensures served == old(served) + 1
      ensures honest <==> old(honest) && !written.BrokenPipe?
    {
      written := *;
      if written.Wrote? && !(0 <= written.count <= |bytes|) { written := WouldBlock; }
      if written.Wrote? { stdin := stdin + bytes[..written.count]; }
      served := served + 1;
      honest := honest && !written.BrokenPipe?;
    }

    /** wait(), which may time out. */
    method Exit() returns (code: Option<int>)
      modifies this`honest, this`code, this`late
      ensures this.code == code && late == code.None?
      ensures honest <==> old(honest) && (code.None? || code == Some(0))
    {
      code := *;
      this.code, late := code, code.None?;
      honest := honest && (code.None? || code == Some(0));
    }
  }

  /** The trusted exchange callback: any answer, or an exception. */
  class Exchange {
    ghost var calls: Calls
    ghost var raised: bool

    constructor ()
      ensures calls == [] && !raised
    {
      calls, raised := [], false;
    }

    method Call(request: Bytes) returns (response: Option<Bytes>)
      modifies this
      ensures calls == if response.Some? then old(calls) + [(request, response.value)] else old(calls)
      ensures raised == (old(raised) || response.None?)
    {
      response := *;
      if response.Some? { calls := calls + [(request, response.value)]; }
      raised := raised || response.None?;
    }
  }

  datatype Outcome = Returned(result: Bytes) | Failed(code: string) | Stopped(reason: Stop) | CallbackRaised | Running

  /** The child has been honest, and every answer it was given was one it understands. */
  ghost predicate Friendly(child: Child, codec: Codec, maxRequests: nat, calls: Calls)
    reads child
  {
    child.honest && Suited(child.script, codec, maxRequests, calls)
  }

  /** The supervisor knows which pipes are at their end and how much it has heard on stderr; and of a friendly child it
      has heard nothing but its script on stdout. */
  ghost predicate Together(child: Child, codec: Codec, maxRequests: nat, d: Dialogue, hello: Bytes, calls: Calls)
    reads child
  {
    && d.stdoutEof == child.stdoutEnded && d.stderrEof == child.stderrEnded && d.stderrTotal == child.noise
    && (Friendly(child, codec, maxRequests, calls) ==>
          Following(child.script, d, hello, child.stdin, child.stdout, calls) && Drained(d))
  }

  /** Two states that agree on both ends and on the diagnostics. */
  predicate SameEnds(d: Dialogue, e: Dialogue) {
    d.stdoutEof == e.stdoutEof && d.stderrEof == e.stderrEof && d.stderrTotal == e.stderrTotal
  }

  method TakeFrames(codec: Codec, init: Bytes, maxRequests: nat, d: Dialogue, ghost hello: Bytes, ghost script: Script,
                    ghost stdin: Bytes, ghost stdout: Bytes, ghost calls: Calls, ghost friendly: bool)
    returns (e: Dialogue, failure: Option<string>, ghost greeted: Bytes)
    requires Sound(codec, init, maxRequests, d, hello, stdin, stdout, calls) && Waiting(d.phase)
    requires friendly ==>
      Suited(script, codec, maxRequests, calls) && Following(script, d, hello, stdin, stdout, calls)
    ensures SameEnds(d, e)
    ensures failure.None? ==> Sound(codec, init, maxRequests, e, greeted, stdin, stdout, calls)
    ensures friendly ==> failure.None? && Following(script, e, greeted, stdin, stdout, calls) && Drained(e)
  {
    e, failure, greeted := d, None, hello;
    while e.incoming != []
      invariant Sound(codec, init, maxRequests, e, greeted, stdin, stdout, calls) && SameEnds(d, e)
      invariant friendly ==> Following(script, e, greeted, stdin, stdout, calls)
      decreases |e.incoming|
    {
      if !Waiting(e.phase) { assert false; }
      if friendly { TakeFollows(script, codec, init, maxRequests, e, greeted, stdin, stdout, calls); }
      match TakeFrame(codec, maxRequests, e) {
        case Wait => return;
        case Refuse(code) => return e, Some(code), greeted;
        case Next(state) =>
          TakeSound(codec, init, maxRequests, e, greeted, stdin, stdout, calls);
          greeted := HelloAfter(e, greeted);
          e := state;
      }
    }
  }

  function ReadSize(maxRequests: nat, d: Dialogue): (r: nat)
    requires d.outputTotal <= OutputLimit(maxRequests)
    ensures r > 0
  {
    var room := OutputLimit(maxRequests) - d.outputTotal + 1;
    if room < 8192 then room else 8192
  }

  /** What the supervisor knows when an honest child's bytes arrive: they are due, and within its limits. */
  lemma DataDue(child: Child, codec: Codec, init: Bytes, maxRequests: nat, d: Dialogue, hello: Bytes, calls: Calls,
                before: Bytes, bytes: Bytes)
    requires Sound(codec, init, maxRequests, d, hello, child.stdin, before, calls)
    requires Suited(child.script, codec, maxRequests, calls) && bytes != []
    requires Following(child.script, d, hello, child.stdin, before, calls) && child.stdout == before + bytes
    requires child.Plausible(Data(bytes))
    ensures Waiting(d.phase) && d.outputTotal + |bytes| <= OutputLimit(maxRequests)
    ensures Following(child.script, d.(outputTotal := d.outputTotal + |bytes|, incoming := d.incoming + bytes), hello,
                      child.stdin, child.stdout, calls)
  {
    if !Waiting(d.phase) {
      NothingMore(child.script, codec, init, maxRequests, d, hello, child.stdin, before, calls);
    }
    SpeechFits(child.script, codec, init, maxRequests, d, hello, child.stdin, before, calls);
  }

  /** stdout is readable. */
  method OnStdout(child: Child, codec: Codec, init: Bytes, maxRequests: nat, d: Dialogue, ghost hello: Bytes,
                  ghost calls: Calls)
    returns (e: Dialogue, failure: Option<string>, ghost greeted: Bytes)
    requires Sound(codec, init, maxRequests, d, hello, child.stdin, child.stdout, calls) && !d.stdoutEof
    requires Together(child, codec, maxRequests, d, hello, calls)
    modifies child`stdout, child`stdoutEnded, child`honest, child`served
    ensures child.honest ==> old(child.honest)
    ensures child.served == old(child.served) + 1 && e.stderrEof == d.stderrEof
    ensures failure.None? && Sending(d.phase) ==> e.phase == d.phase
    ensures failure.None? ==> Sound(codec, init, maxRequests, e, greeted, child.stdin, child.stdout, calls)
    ensures failure.None? ==> Together(child, codec, maxRequests, e, greeted, calls)
    ensures failure.Some? ==> !Friendly(child, codec, maxRequests, calls)
  {
    e, failure, greeted := d, None, hello;
    var chunk := child.ReadStdout(ReadSize(maxRequests, d));
    match chunk {
      case Blocked =>
      case Eof =>
        if Friendly(child, codec, maxRequests, calls) {
          EndsAfterResult(child.script, codec, init, maxRequests, d, hello, child.stdin, child.stdout, calls);
        }
        if !d.phase.WaitingEof? || d.incoming != [] { return d, Some("truncated_ipc_dialogue"), hello; }
        e := d.(stdoutEof := true);
      case Data(bytes) =>
        if Friendly(child, codec, maxRequests, calls) {
          DataDue(child, codec, init, maxRequests, d, hello, calls, old(child.stdout), bytes);
        }
        e, failure, greeted := OnData(child, codec, init, maxRequests, d, hello, calls, old(child.stdout), bytes);
    }
  }

  /** Bytes from stdout are counted, expected, and decoded. */
  method OnData(child: Child, codec: Codec, init: Bytes, maxRequests: nat, d: Dialogue, ghost hello: Bytes,
                ghost calls: Calls, ghost before: Bytes, bytes: Bytes)
    returns (e: Dialogue, failure: Option<string>, ghost greeted: Bytes)
    requires Sound(codec, init, maxRequests, d, hello, child.stdin, before, calls) && !d.stdoutEof
    requires child.stdout == before + bytes && child.stdoutEnded == d.stdoutEof && child.stderrEnded == d.stderrEof
    requires d.stderrTotal == child.noise
    requires Friendly(child, codec, maxRequests, calls) ==>
      && Waiting(d.phase) && d.outputTotal + |bytes| <= OutputLimit(maxRequests)
      && Following(child.script, d.(outputTotal := d.outputTotal + |bytes|, incoming := d.incoming + bytes), hello,
                   child.stdin, child.stdout, calls)
    ensures SameEnds(d, e) && (failure.None? ==> Waiting(d.phase))
    ensures failure.None? ==> Sound(codec, init, maxRequests, e, greeted, child.stdin, child.stdout, calls)
    ensures failure.None? ==> Together(child, codec, maxRequests, e, greeted, calls)
    ensures failure.Some? ==> !Friendly(child, codec, maxRequests, calls)
  {
    if d.outputTotal + |bytes| > OutputLimit(maxRequests) { return d, Some("ipc_output_limit"), hello; }
    if !(d.phase.WaitingReady? || d.phase.WaitingRequest? || d.phase.WaitingResult?) {
      return d, Some("unexpected_ipc_output"), hello;
    }
    e := d.(outputTotal := d.outputTotal + |bytes|, incoming := d.incoming + bytes);
    MoreOutput(Heard(d.phase, hello, calls, d.request, d.result), d.incoming, bytes, before);
    ghost var friendly := Friendly(child, codec, maxRequests, calls);
    e, failure, greeted := TakeFrames(codec, init, maxRequests, e, hello, child.script, child.stdin, child.stdout,
                                      calls, friendly);
  }

  /** An honest child's diagnostics are within the supervisor's limits. */
  lemma NoiseFits(child: Child, codec: Codec, init: Bytes, maxRequests: nat, d: Dialogue, hello: Bytes, calls: Calls)
    requires Sound(codec, init, maxRequests, d, hello, child.stdin, child.stdout, calls)
    requires Suited(child.script, codec, maxRequests, calls)
    requires Following(child.script, d, hello, child.stdin, child.stdout, calls)
    ensures d.outputTotal - d.stderrTotal + MAX_STDERR_BYTES <= OutputLimit(maxRequests)
  {
    SpeechFits(child.script, codec, init, maxRequests, d, hello, child.stdin, child.stdout, calls);
  }

  /** Diagnostics have been heard, or have come to their end. */
  predicate Noticed(d: Dialogue, e: Dialogue) {
    e == d.(outputTotal := e.outputTotal, stderrTotal := e.stderrTotal, stderrEof := e.stderrEof)
    && e.outputTotal - d.outputTotal == e.stderrTotal - d.stderrTotal
  }

  lemma NoticedSound(codec: Codec, init: Bytes, maxRequests: nat, d: Dialogue, e: Dialogue, hello: Bytes, stdin: Bytes,
                     stdout: Bytes, calls: Calls)
    requires Sound(codec, init, maxRequests, d, hello, stdin, stdout, calls) && Noticed(d, e)
    requires e.outputTotal <= OutputLimit(maxRequests) && e.stderrTotal <= MAX_STDERR_BYTES
    ensures Sound(codec, init, maxRequests, e, hello, stdin, stdout, calls)
  {
  }

  lemma NoticedFollows(script: Script, d: Dialogue, e: Dialogue, hello: Bytes, stdin: Bytes, stdout: Bytes,
                       calls: Calls)
    requires Following(script, d, hello, stdin, stdout, calls) && Drained(d) && Noticed(d, e)
    ensures Following(script, e, hello, stdin, stdout, calls) && Drained(e)
  {
  }

  /** One read of stderr, within both limits. */
  method Diagnose(child: Child, maxRequests: nat, d: Dialogue, most: nat, ghost ready: bool)
    returns (e: Dialogue, quiet: bool, failure: Option<string>)
    requires d.outputTotal <= OutputLimit(maxRequests) && d.stderrTotal <= MAX_STDERR_BYTES && most > 0
    requires d.stderrEof == child.stderrEnded && d.stderrTotal == child.noise
    modifies child`noise, child`stderrEnded, child`honest, child`served
    ensures child.honest <==> old(child.honest) && child.noise <= MAX_STDERR_BYTES
    ensures child.served == old(child.served) + if ready then 1 else 0
    ensures Noticed(d, e) && e.outputTotal <= OutputLimit(maxRequests) && e.stderrTotal <= MAX_STDERR_BYTES
    ensures failure.None? ==> e.stderrEof == child.stderrEnded && e.stderrTotal == child.noise
    ensures failure.None? ==> quiet || d.stderrTotal < e.stderrTotal
    ensures failure.Some? ==>
      child.noise > MAX_STDERR_BYTES || d.outputTotal - d.stderrTotal + child.noise > OutputLimit(maxRequests)
  {
    e, quiet, failure := d, true, None;
    var chunk := child.ReadStderr(most, ready);
    match chunk {
      case Blocked =>
      case Eof => e := d.(stderrEof := true);
      case Data(bytes) =>
        if d.outputTotal + |bytes| > OutputLimit(maxRequests) || d.stderrTotal + |bytes| > MAX_STDERR_BYTES {
          return d, false, Some("ipc_output_limit");
        }
        e, quiet := d.(outputTotal := d.outputTotal + |bytes|, stderrTotal := d.stderrTotal + |bytes|), false;
    }
  }

  /** stderr is readable: diagnostics are counted and dropped. */
  method OnStderr(child: Child, codec: Codec, ghost init: Bytes, maxRequests: nat, d: Dialogue, most: nat,
                  ghost ready: bool, ghost hello: Bytes, ghost calls: Calls)
    returns (e: Dialogue, quiet: bool, failure: Option<string>)
    requires Sound(codec, init, maxRequests, d, hello, child.stdin, child.stdout, calls) && most > 0
    requires Together(child, codec, maxRequests, d, hello, calls)
    modifies child`noise, child`stderrEnded, child`honest, child`served
    ensures child.honest ==> old(child.honest)
    ensures child.served == old(child.served) + if ready then 1 else 0
    ensures Noticed(d, e)
    ensures failure.None? ==> Sound(codec, init, maxRequests, e, hello, child.stdin, child.stdout, calls)
    ensures failure.None? ==> Together(child, codec, maxRequests, e, hello, calls)
    ensures failure.None? ==> quiet || d.stderrTotal < e.stderrTotal
    ensures failure.Some? ==> !Friendly(child, codec, maxRequests, calls)
  {
    ghost var friendly := Friendly(child, codec, maxRequests, calls);
    if friendly { NoiseFits(child, codec, init, maxRequests, d, hello, calls); }
    e, quiet, failure := Diagnose(child, maxRequests, d, most, ready);
    if failure.None? {
      NoticedSound(codec, init, maxRequests, d, e, hello, child.stdin, child.stdout, calls);
      if friendly { NoticedFollows(child.script, d, e, hello, child.stdin, child.stdout, calls); }
    }
  }

  /** More of the pending frame has been written. */
  lemma WrittenMore(script: Script, codec: Codec, init: Bytes, maxRequests: nat, d: Dialogue, n: nat, hello: Bytes,
                stdin: Bytes, stdout: Bytes, calls: Calls, friendly: bool)
    requires Sound(codec, init, maxRequests, d, hello, stdin, stdout, calls) && Sending(d.phase)
    requires d.offset + n <= |d.pending|
    requires friendly ==>
      Suited(script, codec, maxRequests, calls) && Following(script, d, hello, stdin, stdout, calls)
    ensures var stdin' := stdin + d.pending[d.offset..d.offset + n];
      && Sound(codec, init, maxRequests, Advance(d, n), hello, stdin', stdout, calls) && SameEnds(d, Advance(d, n))
      && (friendly ==> Following(script, Advance(d, n), hello, stdin', stdout, calls) && Drained(Advance(d, n)))
  {
    AdvanceSound(codec, init, maxRequests, d, n, hello, stdin, stdout, calls);
    if friendly {
      AdvanceFollows(script, codec, init, maxRequests, d, n, hello, stdin, stdin + d.pending[d.offset..d.offset + n],
                     stdout, calls);
    }
  }

  /** stdin is writable: at most 4096 bytes of the pending frame go out. */
  method OnWritable(child: Child, codec: Codec, init: Bytes, maxRequests: nat, d: Dialogue, ghost hello: Bytes,
                    ghost calls: Calls)
    returns (e: Dialogue, failure: Option<string>)
    requires Sound(codec, init, maxRequests, d, hello, child.stdin, child.stdout, calls) && Sending(d.phase)
    requires Together(child, codec, maxRequests, d, hello, calls)
    modifies child`stdin, child`honest, child`served
    ensures child.honest ==> old(child.honest)
    ensures child.served == old(child.served) + 1 && SameEnds(d, e)
    ensures failure.None? ==> Sound(codec, init, maxRequests, e, hello, child.stdin, child.stdout, calls)
    ensures failure.None? ==> Together(child, codec, maxRequests, e, hello, calls)
    ensures failure.Some? ==> !Friendly(child, codec, maxRequests, calls)
  {
    e, failure := d, None;
    var window := if d.offset + 4096 <= |d.pending| then d.offset + 4096 else |d.pending|;
    var written := child.Write(d.pending[d.offset..window]);
    match written {
      case WouldBlock =>
      case BrokenPipe => failure := Some("ipc_input_closed");
      case Wrote(n) =>
        assert d.pending[d.offset..window][..n] == d.pending[d.offset..d.offset + n];
        WrittenMore(child.script, codec, init, maxRequests, d, n, hello, old(child.stdin), child.stdout, calls,
                    Friendly(child, codec, maxRequests, calls));
        e := Advance(d, n);
    }
  }

  /** Queued diagnostics are drained before a request is dispatched. */
  method Drain(child: Child, control: ExecutionControl, codec: Codec, ghost init: Bytes, maxRequests: nat, d: Dialogue,
               ghost hello: Bytes, ghost calls: Calls)
    returns (e: Dialogue, ended: Option<Outcome>)
    requires Sound(codec, init, maxRequests, d, hello, child.stdin, child.stdout, calls) && d.phase.Exchanging?
    requires Together(child, codec, maxRequests, d, hello, calls)
    modifies control, child`noise, child`stderrEnded, child`honest, child`served
    ensures child.honest ==> old(child.honest)
    ensures child.served == old(child.served) && old(control.now) <= control.now
    ensures ended.None? ==>
      Sound(codec, init, maxRequests, e, hello, child.stdin, child.stdout, calls) && e.phase.Exchanging?
    ensures ended.None? ==> Together(child, codec, maxRequests, e, hello, calls)
    ensures ended.Some? ==> Interrupted(ended.value, control, child, codec, maxRequests, calls)
  {
    e, ended := d, None;
    var quiet := false;
    while !e.stderrEof && !quiet
      invariant Sound(codec, init, maxRequests, e, hello, child.stdin, child.stdout, calls) && e.phase.Exchanging?
      invariant Together(child, codec, maxRequests, e, hello, calls)
      invariant child.honest ==> old(child.honest)
      invariant child.served == old(child.served) && old(control.now) <= control.now
      decreases !quiet, MAX_STDERR_BYTES - e.stderrTotal
    {
      var stop := control.Check();
      if stop.Some? { return e, Some(Stopped(stop.value)); }
      var budget := MAX_STDERR_BYTES - e.stderrTotal + 1;
      var size := ReadSize(maxRequests, e);
      var failure: Option<string>;
      e, quiet, failure := OnStderr(child, codec, init, maxRequests, e, if budget < size then budget else size, false,
                                    hello, calls);
      if failure.Some? { return e, Some(Failed(failure.value)); }
    }
  }

  /** The two ways in which reading may end a dialogue: the control has stopped it, or the child is to blame. */
  ghost predicate Interrupted(outcome: Outcome, control: ExecutionControl, child: Child, codec: Codec, maxRequests: nat,
                              calls: Calls)
    reads control, child
  {
    match outcome
    case Stopped(reason) => Halting(control, reason)
    case Failed(_) => !Friendly(child, codec, maxRequests, calls)
    case _ => false
  }

  /** Nothing may be queued behind a complete request. */
  method Peek(child: Child, control: ExecutionControl, codec: Codec, init: Bytes, maxRequests: nat, d: Dialogue,
              ghost hello: Bytes, ghost calls: Calls)
    returns (e: Dialogue, ended: Option<Outcome>)
    requires Sound(codec, init, maxRequests, d, hello, child.stdin, child.stdout, calls) && d.phase.Exchanging?
    requires Together(child, codec, maxRequests, d, hello, calls)
    modifies child`stdout, child`stdoutEnded, child`noise, child`stderrEnded, child`honest, child`served, control
    ensures child.honest ==> old(child.honest)
    ensures child.served == old(child.served)
    ensures ended.None? ==>
      Sound(codec, init, maxRequests, e, hello, child.stdin, child.stdout, calls) && e.phase.Exchanging?
    ensures ended.None? ==> Together(child, codec, maxRequests, e, hello, calls)
    ensures ended.Some? ==> Interrupted(ended.value, control, child, codec, maxRequests, calls)
  {
    e, ended := Drain(child, control, codec, init, maxRequests, d, hello, calls);
    if ended.Some? { return; }
    if Friendly(child, codec, maxRequests, calls) {
      NothingMore(child.script, codec, init, maxRequests, e, hello, child.stdin, child.stdout, calls);
    }
    var extra := child.Probe(1);
    if !extra.Blocked? {
      return e, Some(Failed(if extra.Data? then "extra_ipc_output" else "truncated_ipc_dialogue"));
    }
  }

  /** The answer to a request is framed, read for its stop flag, and counted. */
  method Accept(codec: Codec, maxRequests: nat, d: Dialogue, response: Bytes, ghost script: Script, ghost calls: Calls)
    returns (last: bool, failure: Option<string>)
    requires d.requests == |calls| + 1
    ensures failure.None? ==>
      |response| <= Limit(Response) && codec.stop(response) == Some(last) && (d.requests == maxRequests ==> last)
    ensures failure.Some? ==> !Suited(script, codec, maxRequests, calls + [(d.request, response)])
  {
    last, failure := false, None;
    if Suited(script, codec, maxRequests, calls + [(d.request, response)]) {
      SuitedBefore(script, codec, maxRequests, calls, (d.request, response));
    }
    if Frame(Response, response).None? { return false, Some("invalid_ipc_frame"); }
    if codec.stop(response).None? { return false, Some("invalid_ipc_response"); }
    last := codec.stop(response).value;
    if d.requests == maxRequests && !last { failure := Some("ipc_request_limit"); }
  }

  /** Why an outcome other than a result ends a dialogue. */
  ghost predicate Warranted(outcome: Outcome, control: ExecutionControl, child: Child, exchange: Exchange, codec: Codec,
                            maxRequests: nat)
    reads control, child, exchange
  {
    match outcome
    case Stopped(reason) => Halting(control, reason)
    case CallbackRaised => exchange.raised
    case Failed(_) => !Friendly(child, codec, maxRequests, exchange.calls)
    case _ => false
  }

  /** A complete request: nothing may be queued behind it, then the callback answers. */
  method Serve(child: Child, exchange: Exchange, control: ExecutionControl, codec: Codec, init: Bytes, maxRequests: nat,
               d: Dialogue, ghost hello: Bytes)
    returns (e: Dialogue, ended: Option<Outcome>)
    requires Sound(codec, init, maxRequests, d, hello, child.stdin, child.stdout, exchange.calls) && d.phase.Exchanging?
    requires Together(child, codec, maxRequests, d, hello, exchange.calls) && !exchange.raised
    modifies child`stdout, child`stdoutEnded, child`noise, child`stderrEnded, child`honest, child`served, exchange
    modifies control
    ensures child.served == old(child.served)
    ensures ended.None? ==> Sound(codec, init, maxRequests, e, hello, child.stdin, child.stdout, exchange.calls)
    ensures ended.None? ==> Together(child, codec, maxRequests, e, hello, exchange.calls)
    ensures ended.None? ==> !exchange.raised && e.phase.SendingResponse?
    ensures ended.None? ==> |exchange.calls| == |old(exchange.calls)| + 1
    ensures ended.Some? ==> Warranted(ended.value, control, child, exchange, codec, maxRequests)
    ensures exchange.raised ==> ended == Some(CallbackRaised)
  {
    var stop := control.Check();
    if stop.Some? { return d, Some(Stopped(stop.value)); }
    e, ended := Peek(child, control, codec, init, maxRequests, d, hello, exchange.calls);
    if ended.Some? { return; }
    stop := control.Check();
    if stop.Some? { return e, Some(Stopped(stop.value)); }
    e, ended := Consult(child, exchange, control, codec, init, maxRequests, e, hello);
  }

  /** The callback, and its answer on the way. */
  method Consult(child: Child, exchange: Exchange, control: ExecutionControl, codec: Codec, ghost init: Bytes,
                 maxRequests: nat, d: Dialogue, ghost hello: Bytes)
    returns (e: Dialogue, ended: Option<Outcome>)
    requires Sound(codec, init, maxRequests, d, hello, child.stdin, child.stdout, exchange.calls) && d.phase.Exchanging?
    requires Together(child, codec, maxRequests, d, hello, exchange.calls) && !exchange.raised
    modifies exchange, control
    ensures ended.None? ==> Sound(codec, init, maxRequests, e, hello, child.stdin, child.stdout, exchange.calls)
    ensures ended.None? ==> Together(child, codec, maxRequests, e, hello, exchange.calls)
    ensures ended.None? ==> !exchange.raised && e.phase.SendingResponse?
    ensures ended.None? ==> |exchange.calls| == |old(exchange.calls)| + 1
    ensures ended.Some? ==> Warranted(ended.value, control, child, exchange, codec, maxRequests)
    ensures exchange.raised ==> ended == Some(CallbackRaised)
  {
    e, ended := d, None;
    ghost var calls := exchange.calls;
    var response := exchange.Call(e.request);
    if response.None? { return e, Some(CallbackRaised); }
    var stop := control.Check();
    if stop.Some? { return e, Some(Stopped(stop.value)); }
    var last, failure := Accept(codec, maxRequests, e, response.value, child.script, calls);
    if failure.Some? { return e, Some(Failed(failure.value)); }
    AnswerSound(codec, init, maxRequests, e, response.value, last, hello, child.stdin, child.stdout, calls);
    if Friendly(child, codec, maxRequests, exchange.calls) {
      SuitedBefore(child.script, codec, maxRequests, calls, (e.request, response.value));
      AnswerFollows(child.script, codec, maxRequests, e, response.value, last, hello, child.stdin, child.stdout, calls);
    }
    e := Answer(e, response.value, last);
  }

  /** One readable pipe. */
  method OnKey(child: Child, codec: Codec, init: Bytes, maxRequests: nat, d: Dialogue, stdout: bool, ghost hello: Bytes,
               ghost calls: Calls)
    returns (e: Dialogue, failure: Option<string>, ghost greeted: Bytes)
    requires Sound(codec, init, maxRequests, d, hello, child.stdin, child.stdout, calls)
    requires Together(child, codec, maxRequests, d, hello, calls)
    requires if stdout then !d.stdoutEof else !d.stderrEof
    modifies child`stdout, child`stdoutEnded, child`noise, child`stderrEnded, child`honest, child`served
    ensures child.honest ==> old(child.honest)
    ensures child.served == old(child.served) + 1
    ensures if stdout then e.stderrEof == d.stderrEof else e.stdoutEof == d.stdoutEof
    ensures failure.None? && Sending(d.phase) ==> e.phase == d.phase
    ensures failure.None? ==> Sound(codec, init, maxRequests, e, greeted, child.stdin, child.stdout, calls)
    ensures failure.None? ==> Together(child, codec, maxRequests, e, greeted, calls)
    ensures failure.Some? ==> !Friendly(child, codec, maxRequests, calls)
  {
    e, failure, greeted := d, None, hello;
    if stdout {
      e, failure, greeted := OnStdout(child, codec, init, maxRequests, d, hello, calls);
    } else {
      var quiet;
      e, quiet, failure := OnStderr(child, codec, init, maxRequests, d, ReadSize(maxRequests, d), true, hello, calls);
    }
  }

  /** The readable pipes of a wake-up in their order; true: stdout, false: stderr. */
  function Keys(ready: Readiness): (keys: seq<bool>)
    ensures |keys| + (if ready.stdin then 1 else 0) == ready.Count()
    ensures forall i :: 0 <= i < |keys| ==> if keys[i] then ready.stdout else ready.stderr
    ensures forall i, j :: 0 <= i < j < |keys| ==> keys[i] != keys[j]
  {
    var stdout: seq<bool>, stderr: seq<bool> := if ready.stdout then [true] else [], if ready.stderr then [false]
      else [];
    if ready.stderrFirst then stderr + stdout else stdout + stderr
  }

  /** Readable pipes of one wake-up, in either order: each of them is read. */
  method OnReadable(child: Child, control: ExecutionControl, codec: Codec, init: Bytes, maxRequests: nat,
                    d: Dialogue, ready: Readiness, ghost hello: Bytes, ghost calls: Calls)
    returns (e: Dialogue, ended: Option<Outcome>, ghost greeted: Bytes)
    requires Sound(codec, init, maxRequests, d, hello, child.stdin, child.stdout, calls)
    requires Together(child, codec, maxRequests, d, hello, calls)
    requires (ready.stdout ==> !d.stdoutEof) && (ready.stderr ==> !d.stderrEof)
    modifies child`stdout, child`stdoutEnded, child`noise, child`stderrEnded, child`honest, child`served, control
    ensures child.honest ==> old(child.honest)
    ensures ended.None? ==> child.served == old(child.served) + |Keys(ready)|
    ensures ended.None? && Sending(d.phase) ==> e.phase == d.phase
    ensures ended.None? ==> Sound(codec, init, maxRequests, e, greeted, child.stdin, child.stdout, calls)
    ensures ended.None? ==> Together(child, codec, maxRequests, e, greeted, calls)
    ensures ended.Some? ==> Interrupted(ended.value, control, child, codec, maxRequests, calls)
  {
    e, ended, greeted := d, None, hello;
    var keys := Keys(ready);
    for i := 0 to |keys|
      invariant Sound(codec, init, maxRequests, e, greeted, child.stdin, child.stdout, calls)
      invariant Together(child, codec, maxRequests, e, greeted, calls)
      invariant child.honest ==> old(child.honest)
      invariant child.served == old(child.served) + i
      invariant Sending(d.phase) ==> e.phase == d.phase
      invariant forall j :: i <= j < |keys| ==> if keys[j] then !e.stdoutEof else !e.stderrEof
    {
      var stop := control.Check();
      if stop.Some? { return e, Some(Stopped(stop.value)), greeted; }
      var failure;
      e, failure, greeted := OnKey(child, codec, init, maxRequests, e, keys[i], greeted, calls);
      if failure.Some? { return e, Some(Failed(failure.value)), greeted; }
    }
  }

  /** The check and the selector at the head of the loop; the pipes still open are registered, and stdin while something
      is pending. */
  method AwaitReady(child: Child, control: ExecutionControl, d: Dialogue)
    returns (ready: Readiness, stop: Option<Stop>)
    modifies child`wakeups, child`offered, control
    ensures stop.Some? ==> Halting(control, stop.value)
    ensures stop.None? ==> child.wakeups == old(child.wakeups) + 1
    ensures stop.None? ==> child.offered == old(child.offered) + ready.Count()
    ensures (ready.stdout ==> !d.stdoutEof) && (ready.stderr ==> !d.stderrEof) && (ready.stdin ==> Sending(d.phase))
  {
    ready := Readiness(false, false, false, false);
    stop := control.Check();
    if stop.None? { ready := child.Select(!d.stdoutEof, !d.stderrEof, Sending(d.phase)); }
  }

  /** One selector wake-up: readable pipes, then a writable stdin, then the callback. Whatever was ready is served, and
      a complete request is answered. */
  method WakeUp(child: Child, exchange: Exchange, control: ExecutionControl, codec: Codec, init: Bytes,
                maxRequests: nat, d: Dialogue, ghost hello: Bytes)
    returns (e: Dialogue, ended: Option<Outcome>, ghost greeted: Bytes)
    requires Sound(codec, init, maxRequests, d, hello, child.stdin, child.stdout, exchange.calls)
    requires Together(child, codec, maxRequests, d, hello, exchange.calls) && !exchange.raised
    modifies child`stdout, child`stdoutEnded, child`noise, child`stderrEnded, child`honest, child`served, child`stdin
    modifies child`wakeups, child`offered, exchange, control
    ensures ended.None? ==> Sound(codec, init, maxRequests, e, greeted, child.stdin, child.stdout, exchange.calls)
    ensures ended.None? ==> Together(child, codec, maxRequests, e, greeted, exchange.calls) && !exchange.raised
    ensures ended.None? ==> child.wakeups == old(child.wakeups) + 1 && !e.phase.Exchanging?
    ensures ended.None? ==> child.served - child.offered == old(child.served) - old(child.offered)
    ensures ended.Some? ==> Warranted(ended.value, control, child, exchange, codec, maxRequests)
    ensures exchange.raised ==> ended == Some(CallbackRaised)
  {
    var ready, stop := AwaitReady(child, control, d);
    if stop.Some? { return d, Some(Stopped(stop.value)), hello; }
    e, ended, greeted := OnReady(child, control, codec, init, maxRequests, d, ready, hello, exchange.calls);
    if ended.None? && e.phase.Exchanging? {
      e, ended := Serve(child, exchange, control, codec, init, maxRequests, e, greeted);
    }
  }

  /** The pipes that are ready; premature output is rejected before a newly ready write. */
  method OnReady(child: Child, control: ExecutionControl, codec: Codec, init: Bytes, maxRequests: nat, d: Dialogue,
                 ready: Readiness, ghost hello: Bytes, ghost calls: Calls)
    returns (e: Dialogue, ended: Option<Outcome>, ghost greeted: Bytes)
    requires Sound(codec, init, maxRequests, d, hello, child.stdin, child.stdout, calls)
    requires Together(child, codec, maxRequests, d, hello, calls)
    requires (ready.stdout ==> !d.stdoutEof) && (ready.stderr ==> !d.stderrEof) && (ready.stdin ==> Sending(d.phase))
    modifies child`stdout, child`stdoutEnded, child`noise, child`stderrEnded, child`honest, child`served, child`stdin
    modifies control
    ensures ended.None? ==> child.served == old(child.served) + ready.Count()
    ensures ended.None? ==> Sound(codec, init, maxRequests, e, greeted, child.stdin, child.stdout, calls)
    ensures ended.None? ==> Together(child, codec, maxRequests, e, greeted, calls)
    ensures ended.Some? ==> Interrupted(ended.value, control, child, codec, maxRequests, calls)
  {
    e, ended, greeted := OnReadable(child, control, codec, init, maxRequests, d, ready, hello, calls);
    if ended.Some? || !ready.stdin { return; }
    var stop := control.Check();
    if stop.Some? { return e, Some(Stopped(stop.value)), greeted; }
    var failure;
    e, failure := OnWritable(child, codec, init, maxRequests, e, greeted, calls);
    if failure.Some? { ended := Some(Failed(failure.value)); }
  }

  /** Both pipes are at their end: the child must have exited well, and then, unless the control has stopped it, its
      result is returned. */
  method Leave(child: Child, control: ExecutionControl, codec: Codec, init: Bytes, maxRequests: nat, d: Dialogue,
               ghost hello: Bytes, ghost calls: Calls)
    returns (ended: Option<Outcome>)
    requires Sound(codec, init, maxRequests, d, hello, child.stdin, child.stdout, calls) && d.stdoutEof
    requires Together(child, codec, maxRequests, d, hello, calls)
    modifies child`honest, child`code, child`late, control
    ensures child.honest ==> old(child.honest)
    ensures ended.None? <==> child.code.None?
    ensures child.late == child.code.None?
    ensures child.code == Some(0) ==>
      ended.value.Returned? || (ended.value.Stopped? && Halting(control, ended.value.reason))
    ensures child.code.Some? && child.code != Some(0) ==> ended == Some(Failed("ipc_process_failed"))
    ensures ended.Some? && ended.value.Returned? ==>
      && ExactDialogue(codec, maxRequests, child.stdin, child.stdout, calls, init, hello, ended.value.result)
      && !control.cancelled && control.now < control.deadline
      && (Friendly(child, codec, maxRequests, calls) ==> ended.value.result == child.script.result)
    ensures ended.Some? && ended.value.Failed? ==> !Friendly(child, codec, maxRequests, calls)
  {
    var code := child.Exit();
    if code.None? { return None; }
    if code != Some(0) { return Some(Failed("ipc_process_failed")); }
    var stop := control.Check();
    if stop.Some? { return Some(Stopped(stop.value)); }
    Finished(codec, init, maxRequests, d, hello, child.stdin, child.stdout, calls);
    return Some(Returned(d.result.value));
  }

  /** An exit code decides a dialogue: a good one brings the result unless the control has stopped the session, any
      other one is a failure; and there is no result without one. */
  ghost predicate Exited(outcome: Outcome, child: Child, control: ExecutionControl)
    reads child, control
  {
    match child.code
    case None => !outcome.Returned?
    case Some(code) =>
      if code == 0 then outcome.Returned? || (outcome.Stopped? && Halting(control, outcome.reason))
      else outcome == Failed("ipc_process_failed")
  }

  /** A run that is still open has made all its wake-ups, has served every pipe they found ready, and is not waiting for
      anything but the child. */
  ghost predicate StillOpen(child: Child, rounds: nat)
    reads child
  {
    && child.wakeups == rounds && child.served == child.offered
    && (child.stdoutEnded && child.stderrEnded ==> child.late)
  }

  /** What an outcome of a finished dialogue says: a returned result proves the exact dialogue, both ends and a good
      exit; an honest child that was given fitting answers never fails; and nothing else comes without its cause. */
  ghost predicate Justified(outcome: Outcome, child: Child, exchange: Exchange, control: ExecutionControl, codec: Codec,
                            init: Bytes, maxRequests: nat, hello: Bytes)
    reads child, exchange, control
  {
    && (outcome.Returned? ==>
          && ExactDialogue(codec, maxRequests, child.stdin, child.stdout, exchange.calls, init, hello, outcome.result)
          && !control.cancelled && control.now < control.deadline && child.stdoutEnded && child.stderrEnded)
    && (Friendly(child, codec, maxRequests, exchange.calls) ==>
          !outcome.Failed? && (outcome.Returned? ==> outcome.result == child.script.result))
    && (outcome.Stopped? ==> Halting(control, outcome.reason))
    && (outcome.CallbackRaised? <==> exchange.raised)
    && Exited(outcome, child, control) && !outcome.Running?
  }

  /** One turn of the loop: a wake-up and, at the end of both pipes, the exit. */
  method Turn(child: Child, exchange: Exchange, control: ExecutionControl, codec: Codec, init: Bytes,
              maxRequests: nat, d: Dialogue, ghost hello: Bytes)
    returns (e: Dialogue, ended: Option<Outcome>, ghost greeted: Bytes)
    requires Sound(codec, init, maxRequests, d, hello, child.stdin, child.stdout, exchange.calls)
    requires Together(child, codec, maxRequests, d, hello, exchange.calls) && !exchange.raised && child.code.None?
    modifies child, exchange, control
    ensures ended.None? ==> Sound(codec, init, maxRequests, e, greeted, child.stdin, child.stdout, exchange.calls)
    ensures ended.None? ==> Together(child, codec, maxRequests, e, greeted, exchange.calls) && !exchange.raised
    ensures ended.None? ==> child.code.None? && child.wakeups == old(child.wakeups) + 1
    ensures ended.None? ==> child.served - child.offered == old(child.served) - old(child.offered)
    ensures ended.None? ==> (child.stdoutEnded && child.stderrEnded ==> child.late)
    ensures ended.Some? ==> Justified(ended.value, child, exchange, control, codec, init, maxRequests, greeted)
  {
    e, ended, greeted := WakeUp(child, exchange, control, codec, init, maxRequests, d, hello);
    if ended.None? && e.stdoutEof && e.stderrEof {
      ended := Leave(child, control, codec, init, maxRequests, e, greeted, exchange.calls);
    }
  }

  /** supervise(), followed for at most `rounds` selector wake-ups; a run still open then is Running. Whatever the
      chunking of reads and writes, every outcome is justified. */
  method Supervise(child: Child, exchange: Exchange, control: ExecutionControl, codec: Codec,
                   init: Bytes, maxRequests: nat, rounds: nat)
    returns (outcome: Outcome, ghost hello: Bytes)
    requires child.Unused() && exchange.calls == [] && !exchange.raised
    modifies child, exchange, control
    ensures if |init| > Limit(Init) || (maxRequests != MAX_REQUESTS && maxRequests != MAX_OFFLINE_REQUESTS) then
              outcome.Failed? && child.Unused()
            else if outcome.Running? then StillOpen(child, rounds)
            else Justified(outcome, child, exchange, control, codec, init, maxRequests, hello)
  {
    hello := [];
    if maxRequests != MAX_REQUESTS && maxRequests != MAX_OFFLINE_REQUESTS {
      return Failed("invalid_ipc_request_limit"), hello;
    }
    if Frame(Init, init).None? { return Failed("invalid_ipc_frame"), hello; }
    var stop := control.Check();
    if stop.Some? { return Stopped(stop.value), hello; }
    outcome, hello := Follow(child, exchange, control, codec, init, maxRequests, rounds);
  }

  /** The loop of supervise(). */
  method Follow(child: Child, exchange: Exchange, control: ExecutionControl, codec: Codec,
                init: Bytes, maxRequests: nat, rounds: nat)
    returns (outcome: Outcome, ghost hello: Bytes)
    requires child.Unused() && exchange.calls == [] && !exchange.raised && |init| <= Limit(Init)
    requires maxRequests == MAX_REQUESTS || maxRequests == MAX_OFFLINE_REQUESTS
    modifies child, exchange, control
    ensures if outcome.Running? then StillOpen(child, rounds)
            else Justified(outcome, child, exchange, control, codec, init, maxRequests, hello)
  {
    hello := [];
    var d := Start(init);
    StartSound(codec, init, maxRequests);
    StartFollows(child.script, init);
    for round := 0 to rounds
      invariant Sound(codec, init, maxRequests, d, hello, child.stdin, child.stdout, exchange.calls)
      invariant Together(child, codec, maxRequests, d, hello, exchange.calls) && !exchange.raised
      invariant child.code.None? && StillOpen(child, round)
    {
      var ended: Option<Outcome>;
      d, ended, hello := Turn(child, exchange, control, codec, init, maxRequests, d, hello);
      if ended.Some? { return ended.value, hello; }
    }
    return Running, hello;
  }

  // ----------------------------------------------------- blocking reader (child side)

  /** A blocking byte stream; a read may return fewer bytes than asked, and none at its end. */
  class Stream {
    ghost var consumed: Bytes
    ghost var broken: bool  // it has ended, or has given more than it was asked for

    method Read(most: nat) returns (data: Bytes)
      modifies this
      ensures consumed == old(consumed) + data && broken == (old(broken) || data == [] || |data| > most)
    {
      data := *;
      consumed := consumed + data;
      broken := broken || data == [] || |data| > most;
    }
  }

  /** _read_exact(): exactly `count` bytes, unless the stream breaks. */
  method ReadExact(stream: Stream, count: nat) returns (data: Option<Bytes>)
    modifies stream
    ensures old(stream.consumed) <= stream.consumed && (data.None? ==> stream.broken)
    ensures data.Some? ==> |data.value| == count && stream.consumed == old(stream.consumed) + data.value
  {
    var result: Bytes := [];
    while |result| < count
      invariant |result| <= count && stream.consumed == old(stream.consumed) + result
    {
      var more := stream.Read(count - |result|);
      if more == [] || |more| > count - |result| { return None; }
      Regroup(old(stream.consumed), result, more);
      result := result + more;
    }
    return Some(result);
  }

  /** These bytes cannot begin a frame of this kind. */
  predicate Misframed(kind: Kind, head: Bytes) {
    |head| >= 4
    && (!(1 <= FromBytes(head[..4]) <= Limit(kind) + 1) || (|head| >= 5 && head[4] != Tag(kind)))
  }

  /** read_frame(): what it returns is the payload of the one frame it consumed; it fails only on a broken stream or on
      bytes that begin no such frame. */
  method ReadFrame(stream: Stream, expected: Kind) returns (payload: Option<Bytes>)
    modifies stream
    ensures old(stream.consumed) <= stream.consumed
    ensures payload.None? ==> stream.broken || Misframed(expected, stream.consumed[|old(stream.consumed)|..])
    ensures payload.Some? ==>
      |payload.value| <= Limit(expected) && stream.consumed == old(stream.consumed) + Framed(expected, payload.value)
  {
    var head := ReadExact(stream, 4);
    if head.None? { return None; }
    var size := FromBytes(head.value);
    ghost var start := |old(stream.consumed)|;
    assert stream.consumed[start..] == head.value && head.value[..4] == head.value;
    if !(1 <= size <= Limit(expected) + 1) { return None; }
    var tag := ReadExact(stream, 1);
    if tag.Some? { assert stream.consumed[start..] == head.value + tag.value
      && (head.value + tag.value)[..4] == head.value; }
    if tag.None? || tag.value[0] != Tag(expected) { return None; }
    payload := ReadExact(stream, size - 1);
    if payload.Some? {
      ToFrom(head.value);
      assert tag.value == [Tag(expected)];
      Regroup(old(stream.consumed), head.value, tag.value);
      Regroup(old(stream.consumed), head.value + tag.value, payload.value);
    }
  }
}
